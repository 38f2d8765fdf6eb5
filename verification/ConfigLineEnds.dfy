/** Line ends: a patch writes the kind of line end the file has. */
module ConfigLineEnds {
  import opened Prelude
  import opened TextLines
  import opened ConfigLine
  import opened ConfigRegion
  import opened ConfigPatch
  import opened ConfigText
  import opened ConfigReadBack
  import opened ConfigChanges

  predicate EndsCrlf(l: string) {
    |l| >= 2 && l[|l| - 2] == '\r' && l[|l| - 1] == '\n'
  }

  ghost predicate AllCrlf(lines: seq<string>) {
    forall i | 0 <= i < |lines| :: EndsCrlf(lines[i])
  }

  /** The line of a new option, character by character: CRLF at its end exactly when one stands in the file. */
  lemma InsertedExactly(text: string, key: string, value: string)
    ensures Unparse(Inserted(text, key, value)) ==
              (key + (" = " + value)) + if exists i :: 0 <= i < |text| - 1 && text[i] == '\r' && text[i + 1] == '\n' then "\r\n" else "\n"
  {
    InsertedText(text, key, value);
  }

  lemma CrlfOfConcat(a: string, b: string)
    requires EndsCrlf(a) || HasCrlf(b)
    ensures HasCrlf(a + b)
  {
    var t := a + b;
    if EndsCrlf(a) {
      assert t[|a| - 2] == '\r' && t[|a| - 2 + 1] == '\n';
    } else {
      var i :| 0 <= i < |b| - 1 && b[i] == '\r' && b[i + 1] == '\n';
      assert t[|a| + i] == '\r' && t[|a| + i + 1] == '\n';
    }
  }

  lemma {:induction false} CrlfInText(lines: seq<string>, i: nat)
    requires i < |lines| && EndsCrlf(lines[i])
    ensures HasCrlf(Join(lines))
  {
    if i > 0 { CrlfInText(lines[1..], i - 1); }
    CrlfOfConcat(lines[0], Join(lines[1..]));
  }

  lemma EndsWithCrlf(t: string)
    ensures EndsCrlf(t + "\r\n")
  {
  }

  lemma EndsOpen(value: string, nl: string)
    requires GoodValue(value) && nl != "\r\n" && (nl == "" || IsFileNewline(nl))
    ensures !EndsCrlf(value + nl)
  {
    if nl == "" { assert value + nl == value; } else { assert (value + nl)[|value + nl| - 2] == value[|value| - 1]; }
  }

  /** A CRLF line with a visible value keeps its line end. */
  lemma KeptLineEnd(l: string, text: string, key: string, value: string)
    requires Says(TagOf(l), key) && EndsCrlf(l) && !Hidden(l)
    ensures NewNewline(l, text) == "\r\n" && EndsCrlf(PatchedLine(l, text, value))
  {
    SettingIsOption(l, key);
    ParsedShape(l);
    var o := ParseOption(l).value;
    Assoc(o.indent, o.key, o.equals, o.value + o.newline);
    VisibleLineEnd(l, Head(l), o.value, o.newline);
    PatchedLineParts(l, text, key, value);
    Assoc2(Head(l), value, "\r\n");
    EndsWithCrlf(Head(l) + value);
  }

  lemma Assoc2(a: string, b: string, c: string)
    ensures a + (b + c) == (a + b) + c
  {
  }

  lemma VisibleLineEnd(l: string, head: string, value: string, newline: string)
    requires l == head + (value + newline) && EndsCrlf(l) && value != "" && newline == Newline(value + newline)
    ensures newline == "\r\n"
  {
    var rest := value + newline;
    assert l[|l| - 1] == rest[|rest| - 1];
    if |rest| >= 2 { assert l[|l| - 2] == rest[|rest| - 2]; }
  }

  lemma HiddenNewline(l: string, key: string)
    requires IsLine(l) && Says(TagOf(l), key) && Hidden(l)
    ensures ParseOption(l).Some? && ParseOption(l).value.newline == ""
  {
    SettingIsOption(l, key);
    ParsedShape(l);
    HeadNoBreak(l, key);
    var o := ParseOption(l).value;
    Assoc(o.indent, o.key, o.equals, o.value + o.newline);
    assert |l| == |Head(l)| + |o.newline|;
  }

  lemma {:induction false} LastOfJoin(lines: seq<string>)
    requires lines != [] && AllCrlf(lines)
    ensures EndsWithLineFeed(Join(lines))
  {
    if |lines| == 1 {
      assert Join(lines) == lines[0] + "" == lines[0];
    } else {
      LastOfJoin(lines[1..]);
      var (a, b) := (lines[0], Join(lines[1..]));
      assert (a + b)[|a + b| - 1] == b[|b| - 1];
    }
  }

  lemma CrlfFile(text: string)
    requires Split(text) != [] && AllCrlf(Split(text))
    ensures HasCrlf(text) && EndsWithLineFeed(text)
  {
    SplitIsWellFormed(text);
    CrlfInText(Split(text), 0);
    LastOfJoin(Split(text));
  }

  lemma InsertedCrlf(text: string, key: string, value: string)
    requires HasCrlf(text)
    ensures EndsCrlf(Unparse(Inserted(text, key, value)))
  {
    InsertedText(text, key, value);
    EndsWithCrlf(key + (" = " + value));
  }

  lemma NewLineCrlf(text: string, end: nat, x: string)
    requires 0 < end <= |Split(text)| && AllCrlf(Split(text)) && EndsCrlf(x)
    ensures AllCrlf(LinesWithNew(text, end, x))
  {
    var lines := Split(text);
    if end == |lines| { assert EndsCrlf(lines[|lines| - 1]); }
    assert LinesWithNew(text, end, x) == lines[..end] + ([x] + lines[end..]);
  }

  lemma NotAllCrlf(before: seq<string>, l: string, v: string, rest: seq<string>)
    requires !EndsCrlf(v)
    ensures !AllCrlf(before + ([l] + ([v] + rest)))
  {
    assert (before + ([l] + ([v] + rest)))[|before| + 1] == v;
  }

  lemma HiddenBreaksCrlf(text: string, key: string, value: string, i: nat)
    requires LineAt(text, key, i) && GoodValue(value) && i < |Split(text)| && AllCrlf(Split(text)) && Hidden(Split(text)[i])
    ensures !AllCrlf(LinesAfter(text, i, value))
  {
    var lines := Split(text);
    CrlfFile(text);
    LineFacts(text, key, i);
    HiddenNewline(lines[i], key);
    EndsOpen(value, "\n");
    NotAllCrlf(lines[..i], lines[i], value + "\n", lines[i + 1..]);
  }

  lemma ReplacedKeepsCrlf(text: string, key: string, value: string, i: nat)
    requires LineAt(text, key, i) && i < |Split(text)| && AllCrlf(Split(text)) && !Hidden(Split(text)[i])
    ensures AllCrlf(LinesAfter(text, i, value))
  {
    LineFacts(text, key, i);
    KeptLineEnd(Split(text)[i], text, key, value);
  }

  /** A file whose lines all end with CRLF stays one, exactly when the patch does not write behind a hidden
      value. */
  lemma CrlfStaysExactly(text: string, key: string, value: string)
    requires ValidKey(key) && GoodValue(value) && PatchOption(text, key, value).Ok? && AllCrlf(Split(text))
    ensures PlaceFor(Tags(Split(text)), key).Ok?
    ensures var (place, lines) := (PlaceFor(Tags(Split(text)), key).value, Split(text));
            && (place.ReplaceAt? ==> place.index < |lines|)
            && (AllCrlf(Split(PatchOption(text, key, value).value)) <==> !(place.ReplaceAt? && Hidden(lines[place.index])))
  {
    OneLineChanges(text, key, value);
    var place := PlaceFor(Tags(Split(text)), key).value;
    if place.ReplaceAt? {
      if Hidden(Split(text)[place.index]) { HiddenBreaksCrlf(text, key, value, place.index); }
      else { ReplacedKeepsCrlf(text, key, value, place.index); }
    } else {
      CrlfFile(text);
      InsertedCrlf(text, key, value);
      NewLineCrlf(text, place.index, Unparse(Inserted(text, key, value)));
    }
  }
}
