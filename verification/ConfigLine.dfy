/** One line of an Odoo configuration file: section headers and options. */
module ConfigLine {
  import opened Prelude
  import opened TextLines

  predicate IsLetter(c: char) {
    'A' <= c <= 'Z' || 'a' <= c <= 'z'
  }

  predicate IsKeyChar(c: char) {
    IsLetter(c) || '0' <= c <= '9' || c == '_' || c == '.' || c == '-'
  }

  predicate ValidKey(k: string) {
    k != "" && IsLetter(k[0]) && forall i | 0 <= i < |k| :: IsKeyChar(k[i])
  }

  function KeyLength(t: string): (n: nat)
    ensures n <= |t|
  {
    if t == "" || !IsKeyChar(t[0]) then 0 else 1 + KeyLength(t[1..])
  }

  // ----- Options -----

  datatype OptionLine = OptionLine(indent: string, key: string, equals: string, value: string, newline: string)

  function Unparse(o: OptionLine): string {
    o.indent + (o.key + (o.equals + (o.value + o.newline)))
  }

  /** The terminator the pattern recognises at the end of an option's value. */
  function Newline(t: string): (n: string)
    ensures |n| <= |t| && (n == "" || n == "\n" || n == "\r\n")
  {
    if |t| == 0 || t[|t| - 1] != '\n' then ""
    else if |t| >= 2 && t[|t| - 2] == '\r' then "\r\n"
    else "\n"
  }

  /** White space, an equals sign, and all the white space behind it, a line terminator included. */
  function EqualsLength(t: string): (n: nat)
    ensures n <= |t|
  {
    var m := LeadingSpace(t);
    if m == |t| || t[m] != '=' then 0 else m + 1 + LeadingSpace(t[m + 1..])
  }

  function ParseValue(indent: string, key: string, equals: string, rest: string): OptionLine {
    OptionLine(indent, key, equals, rest[..|rest| - |Newline(rest)|], Newline(rest))
  }

  function ParseEquals(indent: string, key: string, t: string): Option<OptionLine> {
    var e := EqualsLength(t);
    if e == 0 then None else Some(ParseValue(indent, key, t[..e], t[e..]))
  }

  function ParseKey(indent: string, t: string): Option<OptionLine> {
    var k := KeyLength(t);
    if k == 0 || !IsLetter(t[0]) then None else ParseEquals(indent, t[..k], t[k..])
  }

  /** Indent, key, equals sign, value and terminator, in the pattern's greedy order. */
  function ParseOption(l: string): Option<OptionLine> {
    ParseKey(l[..LeadingSpace(l)], l[LeadingSpace(l)..])
  }

  lemma Cut(t: string, n: nat)
    requires n <= |t|
    ensures t[..n] + t[n..] == t
  {
  }

  lemma NewlineIsSuffix(t: string)
    ensures t[..|t| - |Newline(t)|] + Newline(t) == t
  {
    var n := |Newline(t)|;
    assert t[|t| - n..] == Newline(t);
    Cut(t, |t| - n);
  }

  /** Nothing but white space around one equals sign. */
  predicate EqualsShape(t: string) {
    t != "" && EqualsLength(t) == |t|
  }

  lemma CutConcat(a: string, b: string)
    ensures (a + b)[..|a|] == a && (a + b)[|a|..] == b
  {
  }

  /** The parts the pattern can produce around a value without line separators. */
  predicate Parts(o: OptionLine) {
    && AllSpace(o.indent) && ValidKey(o.key) && EqualsShape(o.equals)
    && Trimmed(o.value) && NoBreak(o.value)
    && (o.newline == "" || o.newline == "\n" || o.newline == "\r\n")
  }

  lemma {:induction false} LeadingSpaceOf(space: string, t: string)
    requires AllSpace(space) && (t == "" || !IsSpace(t[0]))
    ensures LeadingSpace(space + t) == |space|
  {
    if space == "" {
      assert space + t == t;
    } else {
      assert (space + t)[1..] == space[1..] + t;
      LeadingSpaceOf(space[1..], t);
    }
  }

  lemma {:induction false} LeadingSpaceStops(t: string, more: string)
    requires LeadingSpace(t) < |t|
    ensures LeadingSpace(t + more) == LeadingSpace(t)
  {
    if IsSpace(t[0]) {
      assert (t + more)[1..] == t[1..] + more;
      LeadingSpaceStops(t[1..], more);
    }
  }

  lemma {:induction false} LeadingSpaceOfPrefix(t: string, n: nat)
    requires LeadingSpace(t) < n <= |t|
    ensures LeadingSpace(t[..n]) == LeadingSpace(t)
  {
    if IsSpace(t[0]) {
      assert t[..n][1..] == t[1..][..n - 1];
      LeadingSpaceOfPrefix(t[1..], n - 1);
    }
  }

  lemma {:induction false} KeyLengthOf(key: string, t: string)
    requires (forall i | 0 <= i < |key| :: IsKeyChar(key[i])) && (t == "" || !IsKeyChar(t[0]))
    ensures KeyLength(key + t) == |key|
  {
    if key == "" {
      assert key + t == t;
    } else {
      assert (key + t)[1..] == key[1..] + t;
      KeyLengthOf(key[1..], t);
    }
  }

  lemma {:induction false} KeyLengthFacts(t: string)
    ensures forall i | 0 <= i < KeyLength(t) :: IsKeyChar(t[i])
  {
    if t != "" && IsKeyChar(t[0]) {
      KeyLengthFacts(t[1..]);
      assert forall i | 1 <= i < KeyLength(t) :: t[i] == t[1..][i - 1];
    }
  }

  lemma KeyShape(t: string)
    requires KeyLength(t) > 0 && IsLetter(t[0])
    ensures ValidKey(t[..KeyLength(t)])
  {
    KeyLengthFacts(t);
  }

  lemma EqualsLengthOf(equals: string, t: string)
    requires EqualsShape(equals) && (t == "" || !IsSpace(t[0]))
    ensures EqualsLength(equals + t) == |equals|
  {
    var m := LeadingSpace(equals);
    var right := equals[m + 1..];
    LeadingSpaceStops(equals, t);
    LeadingSpaceFacts(right);
    assert right[..LeadingSpace(right)] == right;
    LeadingSpaceOf(right, t);
    DropConcat(equals, t, m + 1);
  }

  lemma DropConcat(a: string, b: string, n: nat)
    requires n <= |a|
    ensures (a + b)[n..] == a[n..] + b
  {
  }

  lemma DropPrefix(t: string, e: nat, n: nat)
    requires n <= e <= |t|
    ensures t[..e][n..] == t[n..][..e - n]
  {
  }

  lemma EqualsLengthEnd(t: string)
    requires 0 < EqualsLength(t) < |t|
    ensures !IsSpace(t[EqualsLength(t)])
  {
    LeadingSpaceFacts(t[LeadingSpace(t) + 1..]);
  }

  /** A text that leads with white space only, up to n, is white space up to n. */
  lemma LeadingSpaceCut(t: string)
    ensures LeadingSpace(t[..LeadingSpace(t)]) == LeadingSpace(t)
  {
    LeadingSpaceFacts(t);
    var space := t[..LeadingSpace(t)];
    assert space + "" == space;
    LeadingSpaceOf(space, "");
  }

  lemma {:induction false} EqualsLengthIs(t: string, m: nat)
    requires m == LeadingSpace(t) < |t| && t[m] == '='
    ensures EqualsLength(t) == m + 1 + LeadingSpace(t[m + 1..])
  {
  }

  lemma {:induction false} EqualsShapeIs(t: string, m: nat, e: nat)
    requires 0 < |t| == m + 1 + e && EqualsLength(t) == m + 1 + e
    ensures EqualsShape(t)
  {
  }

  /** What `EqualsLength` cuts off has that shape, and no white space is left behind it. */
  lemma EqualsLengthShape(t: string)
    requires EqualsLength(t) > 0
    ensures EqualsShape(t[..EqualsLength(t)])
  {
    var (m, e) := (LeadingSpace(t), EqualsLength(t));
    LeadingSpaceOfPrefix(t, e);
    DropPrefix(t, e, m + 1);
    LeadingSpaceCut(t[m + 1..]);
    EqualsLengthIs(t[..e], m);
    EqualsShapeIs(t[..e], m, LeadingSpace(t[m + 1..]));
  }

  lemma EqualsStart(equals: string, t: string)
    requires EqualsShape(equals)
    ensures equals != "" && !IsKeyChar((equals + t)[0])
  {
    LeadingSpaceFacts(equals);
    var m := LeadingSpace(equals);
    if m > 0 { assert equals[..m][0] == equals[0]; }
  }

  lemma NewlineOf(value: string, newline: string)
    requires value == "" || (value[|value| - 1] != '\r' && value[|value| - 1] != '\n')
    requires newline == "" || newline == "\n" || newline == "\r\n"
    ensures Newline(value + newline) == newline
  {
    var t := value + newline;
    if newline == "" {
      assert t == value;
    } else if newline == "\n" {
      assert t[|t| - 1] == '\n';
      if |t| >= 2 { assert t[|t| - 2] == value[|value| - 1]; }
    } else {
      assert t[|t| - 1] == '\n' && t[|t| - 2] == '\r';
    }
  }

  lemma ParseEqualsParts(indent: string, key: string, equals: string, rest: string)
    requires EqualsShape(equals) && (rest == "" || !IsSpace(rest[0]))
    ensures ParseEquals(indent, key, equals + rest) == Some(ParseValue(indent, key, equals, rest))
  {
    EqualsLengthOf(equals, rest);
    CutConcat(equals, rest);
  }

  lemma ParseKeyParts(indent: string, key: string, equals: string, rest: string)
    requires ValidKey(key) && EqualsShape(equals) && (rest == "" || !IsSpace(rest[0]))
    ensures ParseKey(indent, key + (equals + rest)) == Some(ParseValue(indent, key, equals, rest))
  {
    EqualsStart(equals, rest);
    KeyLengthOf(key, equals + rest);
    CutConcat(key, equals + rest);
    ParseEqualsParts(indent, key, equals, rest);
  }

  lemma ParseParts(indent: string, key: string, equals: string, rest: string)
    requires AllSpace(indent) && ValidKey(key) && EqualsShape(equals) && (rest == "" || !IsSpace(rest[0]))
    ensures ParseOption(indent + (key + (equals + rest))) == Some(ParseValue(indent, key, equals, rest))
  {
    var fromKey := key + (equals + rest);
    assert fromKey[0] == key[0];
    LeadingSpaceOf(indent, fromKey);
    CutConcat(indent, fromKey);
    ParseKeyParts(indent, key, equals, rest);
  }

  lemma ParseValueOf(o: OptionLine)
    requires Parts(o)
    ensures ParseValue(o.indent, o.key, o.equals, o.value + o.newline) == o
    ensures o.value + o.newline != "" && !IsSpace((o.value + o.newline)[0])
  {
    NewlineOf(o.value, o.newline);
    CutConcat(o.value, o.newline);
  }

  /** Parsing what was put together from its parts gives the parts back. */
  lemma ParseUnparse(o: OptionLine)
    requires Parts(o)
    ensures ParseOption(Unparse(o)) == Some(o)
  {
    ParseValueOf(o);
    ParseParts(o.indent, o.key, o.equals, o.value + o.newline);
  }

  ghost predicate ValueShape(o: OptionLine) {
    && EqualsShape(o.equals)
    && (o.value + o.newline != "" ==> o.value != "" && !IsSpace(o.value[0]))
    && (o.newline == "" || o.newline == "\n" || o.newline == "\r\n")
    && o.newline == Newline(o.value + o.newline)
  }

  lemma ParsedValue(indent: string, key: string, equals: string, rest: string)
    requires EqualsShape(equals) && (rest != "" ==> !IsSpace(rest[0]))
    ensures var o := ParseValue(indent, key, equals, rest); o.value + o.newline == rest && ValueShape(o)
  {
    NewlineIsSuffix(rest);
    RestStart(rest);
  }

  lemma ParsedEquals(indent: string, key: string, t: string)
    requires ParseEquals(indent, key, t).Some?
    ensures var o := ParseEquals(indent, key, t).value;
            o.indent == indent && o.key == key && o.equals + (o.value + o.newline) == t && ValueShape(o)
  {
    var e := EqualsLength(t);
    Cut(t, e);
    EqualsLengthShape(t);
    if e < |t| { EqualsLengthEnd(t); }
    ParsedValue(indent, key, t[..e], t[e..]);
  }

  lemma ParsedKey(indent: string, t: string)
    requires ParseKey(indent, t).Some?
    ensures var o := ParseKey(indent, t).value;
            o.indent == indent && ValidKey(o.key) && o.key + (o.equals + (o.value + o.newline)) == t && ValueShape(o)
  {
    var k := KeyLength(t);
    Cut(t, k);
    KeyShape(t);
    ParsedEquals(indent, t[..k], t[k..]);
  }

  /** The shape of what the pattern matched. */
  lemma ParsedShape(l: string)
    requires ParseOption(l).Some?
    ensures var o := ParseOption(l).value;
            Unparse(o) == l && AllSpace(o.indent) && ValidKey(o.key) && ValueShape(o)
  {
    var n := LeadingSpace(l);
    Cut(l, n);
    LeadingSpaceFacts(l);
    ParsedKey(l[..n], l[n..]);
  }

  lemma RestStart(rest: string)
    requires rest != "" ==> !IsSpace(rest[0])
    ensures rest != "" ==> var v := rest[..|rest| - |Newline(rest)|]; v != "" && !IsSpace(v[0])
  {
  }

  // ----- Section headers -----

  function CloseBracket(t: string): (n: nat)
    ensures n <= |t|
  {
    if t == "" || t[0] == ']' then 0 else 1 + CloseBracket(t[1..])
  }

  lemma {:induction false} CloseBracketOf(name: string, t: string)
    requires (forall i | 0 <= i < |name| :: name[i] != ']') && t != "" && t[0] == ']'
    ensures CloseBracket(name + t) == |name|
  {
    if name == "" {
      assert name + t == t;
    } else {
      assert (name + t)[1..] == name[1..] + t;
      CloseBracketOf(name[1..], t);
    }
  }

  /** Trailing line feeds and carriage returns removed. */
  function Chomp(t: string): string {
    if t == "" || (t[|t| - 1] != '\n' && t[|t| - 1] != '\r') then t else Chomp(t[..|t| - 1])
  }

  /** Only line feeds and carriage returns go. */
  lemma {:induction false} ChompFacts(t: string, n: nat)
    requires n < |t| && !IsBreak(t[n])
    ensures var r := Chomp(t); n < |r| <= |t| && r == t[..|r|]
  {
    if t[|t| - 1] == '\n' || t[|t| - 1] == '\r' {
      ChompFacts(t[..|t| - 1], n);
      assert t[..|t| - 1][..|Chomp(t)|] == t[..|Chomp(t)|];
    }
  }

  lemma {:induction false} ChompBlank(t: string)
    requires AllSpace(t)
    ensures AllSpace(Chomp(t))
  {
    if t != "" { ChompBlank(t[..|t| - 1]); }
  }

  predicate CommentOrBlank(t: string) {
    var n := LeadingSpace(t);
    n == |t| || t[n] == '#' || t[n] == ';'
  }

  function SectionOf(l: string): Option<string> {
    SectionOfBody(Chomp(l))
  }

  function SectionOfBody(body: string): Option<string> {
    var n := LeadingSpace(body);
    if n == |body| || body[n] != '[' then None
    else
      var inner := body[n + 1..];
      var close := CloseBracket(inner);
      if close == 0 || close == |inner| || !CommentOrBlank(inner[close + 1..]) then None
      else Some(inner[..close])
  }

  function Lower(c: char): char {
    if 'A' <= c <= 'Z' then c - 'A' + 'a' else c
  }

  function LowerAll(t: string): string {
    seq(|t|, i requires 0 <= i < |t| => Lower(t[i]))
  }

  predicate IsOptionsHeader(l: string) {
    SectionOf(l).Some? && LowerAll(Strip(SectionOf(l).value)) == "options"
  }

  /** An option is never a section header. */
  lemma OptionIsNoSection(l: string)
    requires ParseOption(l).Some?
    ensures SectionOf(l).None?
  {
    var n := LeadingSpace(l);
    assert IsLetter(l[n]);
    ChompFacts(l, n);
    LeadingSpaceOfPrefix(l, |Chomp(l)|);
    assert Chomp(l)[n] == l[n];
  }

  /** Nor is a blank line. */
  lemma BlankIsNothing(l: string)
    requires AllSpace(l)
    ensures SectionOf(l).None? && ParseOption(l).None?
  {
    assert l + "" == l;
    LeadingSpaceOf(l, "");
    var body := Chomp(l);
    ChompBlank(l);
    assert body + "" == body;
    LeadingSpaceOf(body, "");
  }
}
