/** Reading and patching one option of the `[options]` section of a configuration file. */
module ConfigPatch {
  import opened Prelude
  import opened TextLines
  import opened ConfigLine
  import opened ConfigRegion

  function TagOf(l: string): Tag {
    if SectionOf(l).Some? then Header(IsOptionsHeader(l))
    else
      var o := ParseOption(l);
      if o.Some? then Setting(o.value.key, Strip(o.value.value)) else Other
  }

  function Tags(lines: seq<string>): seq<Tag> {
    MapTags(lines, TagOf)
  }

  function ReadOption(text: string, key: string): Result<Option<string>, ConfigError> {
    Read(Tags(Split(text)), key)
  }

  // ----- Patching -----

  predicate EndsWithLineFeed(text: string) {
    text != "" && text[|text| - 1] == '\n'
  }

  predicate HasCrlf(text: string) {
    exists i | 0 <= i < |text| - 1 :: text[i] == '\r' && text[i + 1] == '\n'
  }

  function FileNewline(text: string): string {
    if HasCrlf(text) then "\r\n" else "\n"
  }

  /** The option line with the new value. Where the pattern saw no terminator, the file's last
      character decides. */
  function Patched(o: OptionLine, text: string, value: string): OptionLine {
    o.(value := value, newline := if o.newline != "" then o.newline else if EndsWithLineFeed(text) then "\n" else "")
  }

  function PatchedLine(l: string, text: string, value: string): string {
    var o := ParseOption(l);
    if o.Some? then Unparse(Patched(o.value, text, value)) else l
  }

  function Inserted(text: string, key: string, value: string): OptionLine {
    OptionLine("", key, " = ", value, FileNewline(text))
  }

  predicate EndsLine(l: string) {
    l != "" && (l[|l| - 1] == '\n' || l[|l| - 1] == '\r')
  }

  function WithInsertion(text: string, lines: seq<string>, end: nat, insertion: string): seq<string>
    requires end <= |lines| && lines != []
  {
    if end < |lines| then lines[..end] + [insertion] + lines[end..]
    else if EndsLine(lines[|lines| - 1]) then lines + [insertion]
    else lines[..|lines| - 1] + [lines[|lines| - 1] + FileNewline(text)] + [insertion]
  }

  function PatchLines(text: string, key: string, value: string): Result<seq<string>, ConfigError> {
    var lines := Split(text);
    var place := PlaceFor(Tags(lines), key);
    match place
    case Err(error) => Err(error)
    case Ok(ReplaceAt(i)) => Ok(lines[i := PatchedLine(lines[i], text, value)])
    case Ok(InsertAt(end)) => Ok(WithInsertion(text, lines, end, Unparse(Inserted(text, key, value))))
  }

  function PatchOption(text: string, key: string, value: string): Result<string, ConfigError> {
    var r := PatchLines(text, key, value);
    if r.Err? then Err(r.error) else Ok(Join(r.value))
  }

  // ----- What a line says after the patch -----

  lemma {:induction false} KeyLengthStops(t: string, more: string)
    requires more == "" || !IsKeyChar(more[0])
    ensures KeyLength(t + more) == KeyLength(t)
  {
    if t == "" {
      assert t + more == more;
    } else if IsKeyChar(t[0]) {
      assert (t + more)[1..] == t[1..] + more;
      KeyLengthStops(t[1..], more);
    }
  }

  lemma NewlineOfTail(value: string, more: string)
    requires Trimmed(value)
    ensures |Newline(value + more)| <= |more|
  {
    var t := value + more;
    if more == "" { assert t == value; }
    else if |t| >= 2 && |more| == 1 { assert t[|t| - 2] == value[|value| - 1]; }
  }

  lemma NewlineIsBlank(t: string)
    ensures AllSpace(Newline(t))
  {
  }

  /** A trimmed value with something behind it: it is seen exactly when that something is blank. */
  lemma ValueWithTail(value: string, more: string)
    requires Trimmed(value)
    ensures var rest := value + more;
            Strip(rest[..|rest| - |Newline(rest)|]) == value <==> AllSpace(more)
  {
    var rest := value + more;
    var newline := Newline(rest);
    NewlineOfTail(value, more);
    var shown := more[..|more| - |newline|];
    assert rest[..|rest| - |newline|] == value + shown;
    NewlineIsSuffix(rest);
    NewlineIsBlank(rest);
    StripTail(value, shown);
    TailBlank(value, more, newline);
  }

  lemma TagOfParsed(l: string, o: OptionLine)
    requires ParseOption(l) == Some(o)
    ensures TagOf(l) == Setting(o.key, Strip(o.value))
  {
    OptionIsNoSection(l);
  }

  lemma ConcatStart(a: string, b: string)
    requires a != ""
    ensures a + b != "" && (a + b)[0] == a[0]
  {
  }

  /** What the reader sees on an option line put together from its parts. */
  lemma TagWithTail(indent: string, key: string, equals: string, value: string, more: string)
    requires AllSpace(indent) && ValidKey(key) && EqualsShape(equals) && Trimmed(value)
    ensures var t := TagOf(indent + (key + (equals + (value + more))));
            Says(t, key) && (t.value == value <==> AllSpace(more))
  {
    ConcatStart(value, more);
    ParseParts(indent, key, equals, value + more);
    TagOfParsed(indent + (key + (equals + (value + more))), ParseValue(indent, key, equals, value + more));
    ValueWithTail(value, more);
  }

  lemma TailBlank(value: string, more: string, newline: string)
    requires |newline| <= |more| && AllSpace(newline)
    requires var rest := value + more; rest[..|rest| - |newline|] + newline == rest
    ensures AllSpace(more[..|more| - |newline|]) <==> AllSpace(more)
  {
    var rest := value + more;
    var n := |more| - |newline|;
    forall i | n <= i < |more|
      ensures IsSpace(more[i])
    {
      assert more[i] == rest[|value| + i] == newline[i - n];
    }
    assert forall i | 0 <= i < n :: more[..n][i] == more[i];
  }

  // ----- A terminator added to an unterminated line -----

  predicate IsFileNewline(t: string) {
    t == "\n" || t == "\r\n"
  }

  predicate SameReading(a: Option<OptionLine>, b: Option<OptionLine>) {
    (a.Some? <==> b.Some?) && (a.Some? ==> a.value.key == b.value.key && a.value.value == b.value.value)
  }

  lemma BlankAppended(t: string, nl: string)
    requires AllSpace(t) && IsFileNewline(nl)
    ensures LeadingSpace(t) == |t| && LeadingSpace(t + nl) == |t + nl|
  {
    LeadingSpaceOf(t, "");
    LeadingSpaceOf(t + nl, "");
    assert t + "" == t && t + nl + "" == t + nl;
  }

  lemma BlankOf(t: string)
    requires LeadingSpace(t) == |t|
    ensures AllSpace(t)
  {
    LeadingSpaceFacts(t);
    assert t[..|t|] == t;
  }

  lemma EqualsAppended(t: string, nl: string)
    requires NoBreak(t) && IsFileNewline(nl)
    ensures EqualsLength(t) < |t| ==> EqualsLength(t + nl) == EqualsLength(t)
    ensures EqualsLength(t) == |t| && t != "" ==> EqualsLength(t + nl) == |t + nl|
    ensures t == "" ==> EqualsLength(t + nl) == 0
  {
    var m := LeadingSpace(t);
    if m == |t| {
      BlankOf(t);
      BlankAppended(t, nl);
    } else {
      LeadingSpaceStops(t, nl);
      var right := t[m + 1..];
      DropConcat(t, nl, m + 1);
      if LeadingSpace(right) == |right| {
        BlankOf(right);
        BlankAppended(right, nl);
      } else {
        LeadingSpaceStops(right, nl);
      }
    }
  }

  lemma ParseEqualsAppended(indent: string, key: string, t: string, nl: string)
    requires NoBreak(t) && IsFileNewline(nl)
    ensures SameReading(ParseEquals(indent, key, t), ParseEquals(indent, key, t + nl))
  {
    EqualsAppended(t, nl);
    var e := EqualsLength(t);
    if 0 < e < |t| {
      DropConcat(t, nl, e);
      ValueAppended(t[e..], nl);
    }
  }

  lemma ValueAppended(rest: string, nl: string)
    requires rest != "" && NoBreak(rest) && IsFileNewline(nl)
    ensures ParseValue("", "", "", rest).value == ParseValue("", "", "", rest + nl).value
  {
    NewlineOf(rest, nl);
    assert Newline(rest) == "";
    CutConcat(rest, nl);
  }

  lemma ParseKeyAppended(indent: string, t: string, nl: string)
    requires NoBreak(t) && IsFileNewline(nl)
    ensures SameReading(ParseKey(indent, t), ParseKey(indent, t + nl))
  {
    KeyLengthStops(t, nl);
    var k := KeyLength(t);
    DropConcat(t, nl, k);
    assert (t + nl)[..k] == t[..k];
    ParseEqualsAppended(indent, t[..k], t[k..], nl);
  }

  lemma ParseOptionAppended(l: string, nl: string)
    requires NoBreak(l) && IsFileNewline(nl)
    ensures SameReading(ParseOption(l), ParseOption(l + nl))
  {
    var n := LeadingSpace(l);
    if n == |l| {
      BlankOf(l);
      BlankIsNothing(l);
      BlankIsNothing(l + nl);
    } else {
      LeadingSpaceStops(l, nl);
      DropConcat(l, nl, n);
      assert (l + nl)[..n] == l[..n];
      ParseKeyAppended(l[..n], l[n..], nl);
    }
  }

  lemma ChompOne(l: string, c: char)
    requires c == '\n' || c == '\r'
    ensures Chomp(l + [c]) == Chomp(l)
  {
    assert (l + [c])[..|l|] == l;
  }

  lemma ChompAppended(l: string, nl: string)
    requires IsFileNewline(nl)
    ensures Chomp(l + nl) == Chomp(l)
  {
    if nl == "\r\n" {
      ChompOne(l, '\r');
      ChompOne(l + ['\r'], '\n');
      assert l + ['\r'] + ['\n'] == l + nl;
    } else {
      ChompOne(l, '\n');
    }
  }

  lemma TagAppended(l: string, nl: string)
    requires NoBreak(l) && IsFileNewline(nl)
    ensures TagOf(l + nl) == TagOf(l)
  {
    ParseOptionAppended(l, nl);
    ChompAppended(l, nl);
  }
}
