/** Patch, then read the same key: when the new value comes back, and when it does not. */
module ConfigReadBack {
  import opened Prelude
  import opened TextLines
  import opened ConfigLine
  import opened ConfigRegion
  import opened ConfigPatch
  import opened ConfigText

  /** A value the broker can hope to read back: not empty, no white space at its ends, on one line. */
  predicate GoodValue(value: string) {
    Trimmed(value) && NoBreak(value)
  }

  // ----- The patched line -----

  /** Everything of an option line in front of its value. */
  function Head(l: string): string {
    var o := ParseOption(l);
    if o.None? then "" else o.value.indent + (o.value.key + o.value.equals)
  }

  /** The terminator the patched line gets. */
  function NewNewline(l: string, text: string): string {
    var o := ParseOption(l);
    if o.Some? && o.value.newline != "" then o.value.newline else if EndsWithLineFeed(text) then "\n" else ""
  }

  /** The value is blank and the line ends: the pattern took the terminator for part of the white
      space behind the equals sign, and the new value lands on the next line. */
  predicate Hidden(l: string) {
    ParseOption(l).Some? && ParseOption(l).value.value == "" && Terminated(l)
  }

  lemma SettingIsOption(l: string, key: string)
    requires Says(TagOf(l), key)
    ensures ParseOption(l).Some? && ParseOption(l).value.key == key
  {
  }

  lemma Assoc(a: string, b: string, c: string, d: string)
    ensures a + (b + (c + d)) == (a + (b + c)) + d
  {
  }

  lemma PatchedLineParts(l: string, text: string, key: string, value: string)
    requires Says(TagOf(l), key)
    ensures PatchedLine(l, text, value) == Head(l) + (value + NewNewline(l, text))
    ensures Head(l) != "" && l != "" && Head(l)[0] == l[0]
    ensures NewNewline(l, text) == "" || IsFileNewline(NewNewline(l, text))
  {
    SettingIsOption(l, key);
    ParsedShape(l);
    var o := ParseOption(l).value;
    Assoc(o.indent, o.key, o.equals, value + NewNewline(l, text));
    Assoc(o.indent, o.key, o.equals, o.value + o.newline);
  }

  /** What the reader sees on the patched line when `more` follows the value. */
  lemma PatchedTag(l: string, key: string, value: string, more: string)
    requires Says(TagOf(l), key) && GoodValue(value)
    ensures var t := TagOf(Head(l) + (value + more)); Says(t, key) && (t.value == value <==> AllSpace(more))
  {
    SettingIsOption(l, key);
    ParsedShape(l);
    var o := ParseOption(l).value;
    Assoc(o.indent, o.key, o.equals, value + more);
    TagWithTail(o.indent, o.key, o.equals, value, more);
  }

  lemma HeadNoBreak(l: string, key: string)
    requires IsLine(l) && Says(TagOf(l), key)
    ensures !Hidden(l) ==> NoBreak(Head(l))
    ensures Hidden(l) ==> Head(l) == l
  {
    SettingIsOption(l, key);
    ParsedShape(l);
    var o := ParseOption(l).value;
    Assoc(o.indent, o.key, o.equals, o.value + o.newline);
    var rest := o.value + o.newline;
    assert l == Head(l) + rest;
    if o.value != "" {
      assert l[|Head(l)|] == rest[0] == o.value[0];
      PrefixNoBreak(l, |Head(l)|);
      assert l[..|Head(l)|] == Head(l);
    } else {
      assert rest == "" && l == Head(l);
      if !Terminated(l) { UnterminatedNoBreak(l); }
    }
  }

  lemma LineShape(p: string, nl: string)
    requires NoBreak(p) && p != "" && (nl == "" || IsFileNewline(nl))
    ensures IsLine(p + nl) && (p + nl)[0] == p[0]
    ensures nl != "" ==> Terminated(p + nl) && (p + nl)[|p + nl| - 1] == '\n'
  {
    LineOf(p, nl);
  }

  lemma PatchedIsLine(l: string, text: string, key: string, value: string)
    requires IsLine(l) && Says(TagOf(l), key) && GoodValue(value) && !Hidden(l)
    ensures var (x, p, nl) := (PatchedLine(l, text, value), Head(l) + value, NewNewline(l, text));
            x == p + nl && NoBreak(p) && p != "" && p[0] == l[0] && (nl == "" || IsFileNewline(nl))
  {
    PatchedLineParts(l, text, key, value);
    HeadNoBreak(l, key);
    NoBreakConcat(Head(l), value);
    ConcatStart(Head(l), value);
    Regrouped(Head(l), value, NewNewline(l, text));
  }

  // ----- Replacing an existing value -----

  /** The place of the key's only line in the text. */
  ghost predicate LineAt(text: string, key: string, i: nat) {
    PlaceFor(Tags(Split(text)), key) == Ok(ReplaceAt(i))
  }

  lemma LineFacts(text: string, key: string, i: nat)
    requires LineAt(text, key, i)
    ensures var lines := Split(text);
            WellFormedLines(lines) && i < |lines| && IsLine(lines[i]) && Says(TagOf(lines[i]), key)
  {
    SplitIsWellFormed(text);
    var pre, a, t, b, post := ReplaceParts(Tags(Split(text)), key, i);
    CutAround(pre, a, t, b, post);
  }

  /** The patched line stays a line of its own. */
  predicate Separate(text: string, i: nat) {
    var lines := Split(text);
    i < |lines| && !Hidden(lines[i]) && (NewNewline(lines[i], text) != "" || i + 1 == |lines|)
  }

  lemma ReplaceSplits(text: string, key: string, value: string, i: nat)
    requires LineAt(text, key, i) && GoodValue(value) && Separate(text, i)
    ensures var (lines, x) := (Split(text), PatchedLine(Split(text)[i], text, value));
            Split(Join(lines[i := x])) == lines[i := x]
  {
    LineFacts(text, key, i);
    var lines := Split(text);
    PatchedIsLine(lines[i], text, key, value);
    LineShape(Head(lines[i]) + value, NewNewline(lines[i], text));
    SplitReplaced(lines, i, PatchedLine(lines[i], text, value));
  }

  /** The tag of the patched line says the new value. */
  lemma PatchedSays(l: string, text: string, key: string, value: string)
    requires Says(TagOf(l), key) && GoodValue(value)
    ensures TagOf(PatchedLine(l, text, value)) == Setting(key, value)
  {
    PatchedLineParts(l, text, key, value);
    BlankNewline(NewNewline(l, text));
    PatchedTag(l, key, value, NewNewline(l, text));
  }

  lemma BlankNewline(nl: string)
    requires nl == "" || IsFileNewline(nl)
    ensures AllSpace(nl)
  {
  }

  lemma PatchIs(text: string, key: string, value: string, i: nat)
    requires LineAt(text, key, i)
    ensures var lines := Split(text);
            i < |lines| && PatchOption(text, key, value) == Ok(Join(lines[i := PatchedLine(lines[i], text, value)]))
  {
  }

  lemma ListReads(lines: seq<string>, key: string, i: nat, x: string, value: string, other: string)
    requires PlaceFor(Tags(lines), key) == Ok(ReplaceAt(i)) && i < |lines|
    requires Split(Join(lines[i := x])) == lines[i := x] && TagOf(x) == Setting(key, value)
    ensures var after := Join(lines[i := x]);
            && ReadOption(after, key) == Ok(Some(value))
            && (other != key ==> ReadOption(after, other) == Read(Tags(lines), other))
            && LineAt(after, key, i)
  {
    MapUpdate(lines, i, x, TagOf);
    ReplacedIsRead(Tags(lines), key, i, Setting(key, value), other);
  }

  lemma ReplaceReads(text: string, key: string, value: string, i: nat, other: string)
    requires LineAt(text, key, i) && GoodValue(value) && Separate(text, i)
    ensures PatchOption(text, key, value).Ok?
    ensures var after := PatchOption(text, key, value).value;
            && ReadOption(after, key) == Ok(Some(value))
            && (other != key ==> ReadOption(after, other) == ReadOption(text, other))
            && LineAt(after, key, i)
  {
    LineFacts(text, key, i);
    PatchIs(text, key, value, i);
    ReplaceSplits(text, key, value, i);
    var lines := Split(text);
    PatchedSays(lines[i], text, key, value);
    ListReads(lines, key, i, PatchedLine(lines[i], text, value), value, other);
  }

  lemma ListMerges(lines: seq<string>, key: string, i: nat, x: string, value: string)
    requires PlaceFor(Tags(lines), key) == Ok(ReplaceAt(i)) && i + 1 < |lines|
    requires Split(Join(lines[i := x])) == lines[..i] + ([x + lines[i + 1]] + lines[i + 1..][1..])
    requires var t := TagOf(x + lines[i + 1]); Says(t, key) && (t.value == value <==> AllSpace(lines[i + 1]))
    ensures ReadOption(Join(lines[i := x]), key) == Ok(Some(value)) <==> AllSpace(lines[i + 1])
  {
    var y := x + lines[i + 1];
    MapMerged(lines, i, y, TagOf);
    if AllSpace(lines[i + 1]) { BlankTag(lines[i + 1]); }
    MergedOrHidden(Tags(lines), key, i, TagOf(y), value, AllSpace(lines[i + 1]));
  }

  lemma BlankTag(l: string)
    requires AllSpace(l)
    ensures TagOf(l) == Other
  {
    BlankIsNothing(l);
  }

  lemma MergedLine(l: string, text: string, key: string, value: string, next: string)
    requires IsLine(l) && Says(TagOf(l), key) && GoodValue(value) && !Hidden(l) && NewNewline(l, text) == ""
    ensures var x := PatchedLine(l, text, value);
            && NoBreak(x) && x != "" && x[0] == l[0]
            && var t := TagOf(x + next); Says(t, key) && (t.value == value <==> AllSpace(next))
  {
    PatchedIsLine(l, text, key, value);
    var x := Head(l) + value;
    assert x + "" == x;
    Regrouped(Head(l), value, next);
    PatchedTag(l, key, value, next);
  }

  /** No terminator and a line behind: the two become one, and the value is read back exactly when
      the line behind was blank. */
  lemma ReplaceMerges(text: string, key: string, value: string, i: nat)
    requires LineAt(text, key, i) && GoodValue(value)
    requires var lines := Split(text);
             i + 1 < |lines| && !Hidden(lines[i]) && NewNewline(lines[i], text) == ""
    ensures PatchOption(text, key, value).Ok?
    ensures ReadOption(PatchOption(text, key, value).value, key) == Ok(Some(value)) <==> AllSpace(Split(text)[i + 1])
  {
    LineFacts(text, key, i);
    PatchIs(text, key, value, i);
    var lines := Split(text);
    MergedLine(lines[i], text, key, value, lines[i + 1]);
    SplitMerged(lines, i, PatchedLine(lines[i], text, value));
    ListMerges(lines, key, i, PatchedLine(lines[i], text, value), value);
  }

  /** A hidden value stays blank for the reader, whatever was written. */
  lemma ReplaceHidden(text: string, key: string, value: string, i: nat)
    requires LineAt(text, key, i) && GoodValue(value) && i < |Split(text)| && Hidden(Split(text)[i])
    ensures PatchOption(text, key, value).Ok?
    ensures ReadOption(PatchOption(text, key, value).value, key) != Ok(Some(value))
  {
    LineFacts(text, key, i);
    PatchIs(text, key, value, i);
    var lines := Split(text);
    HeadNoBreak(lines[i], key);
    PatchedLineParts(lines[i], text, key, value);
    var more := value + NewNewline(lines[i], text);
    assert more[0] == value[0];
    HiddenReads(lines[i], key);
    ListContinues(lines, key, i, more, value);
  }

  lemma HiddenReads(l: string, key: string)
    requires Hidden(l) && Says(TagOf(l), key)
    ensures TagOf(l).value == ""
  {
  }

  lemma ListContinues(lines: seq<string>, key: string, i: nat, more: string, value: string)
    requires WellFormedLines(lines) && PlaceFor(Tags(lines), key) == Ok(ReplaceAt(i)) && i < |lines|
    requires Says(TagOf(lines[i]), key) && TagOf(lines[i]).value != value && Terminated(lines[i])
    requires more != "" && !IsSpace(more[0])
    ensures ReadOption(Join(lines[i := lines[i] + more]), key) != Ok(Some(value))
  {
    SplitContinued(lines, i, more);
    var tail := Split(more + Join(lines[i + 1..]));
    MapContinued(lines, i, lines[i], tail, TagOf);
    ThroughIsRead(Tags(lines), key, i, TagOf(lines[i]), Tags(tail), value);
  }

  // ----- Inserting a new option -----

  lemma SpacedEquals()
    ensures EqualsShape(" = ")
  {
    assert " = "[1..] == "= " && " = "[2..] == " " && " "[1..] == "";
    assert LeadingSpace("= ") == 0 && LeadingSpace(" = ") == 1 && LeadingSpace(" ") == 1;
  }

  lemma KeyNoBreak(key: string)
    requires ValidKey(key)
    ensures NoBreak(key) && !IsSpace(key[0])
  {
  }

  lemma InsertedText(text: string, key: string, value: string)
    ensures Unparse(Inserted(text, key, value)) == (key + (" = " + value)) + FileNewline(text)
  {
    Regrouped(" = ", value, FileNewline(text));
    Regrouped(key, " = " + value, FileNewline(text));
  }

  lemma InsertedShape(text: string, key: string, value: string)
    requires ValidKey(key) && GoodValue(value)
    ensures Parts(Inserted(text, key, value)) && TagOf(Unparse(Inserted(text, key, value))) == Setting(key, value)
  {
    var o := Inserted(text, key, value);
    SpacedEquals();
    ParseUnparse(o);
    TagOfParsed(Unparse(o), o);
    StripKeeps(value);
  }

  lemma InsertedIsLine(text: string, key: string, value: string)
    requires ValidKey(key) && GoodValue(value)
    ensures var x := Unparse(Inserted(text, key, value));
            IsLine(x) && Terminated(x) && x[|x| - 1] == '\n' && !IsSpace(x[0])
  {
    KeyNoBreak(key);
    FileNewlineIsLine(text);
    InsertedText(text, key, value);
    NoBreakConcat(" = ", value);
    NoBreakConcat(key, " = " + value);
    ConcatStart(key, " = " + value);
    LineShape(key + (" = " + value), FileNewline(text));
  }

  lemma WithLineTags(shown: seq<string>, end: nat, silent: seq<string>, x: string)
    requires end <= |shown|
    ensures Tags(WithLine(shown, end, silent, x)) == Tags(shown)[..end] + (Tags(silent) + [TagOf(x)]) + Tags(shown)[end..]
  {
    MapInserted(shown, end, silent, x, TagOf);
  }

  /** An inserted line is read, everything else is read as before, and the next patch finds it. */
  lemma ListInserted(tags: seq<Tag>, key: string, end: nat, silent: seq<Tag>, now: Tag, after: string, i: nat, other: string)
    requires PlaceFor(tags, key) == Ok(InsertAt(end)) && Says(now, key) && Silent(silent) && i == end + |silent|
    requires Tags(Split(after)) == tags[..end] + (silent + [now]) + tags[end..]
    ensures ReadOption(after, key) == Ok(Some(now.value))
    ensures other != key ==> ReadOption(after, other) == Read(tags, other)
    ensures LineAt(after, key, i)
  {
    InsertedIsRead(tags, key, end, silent, now, other);
  }

  lemma SilentNewline(text: string)
    ensures Silent(Tags([])) && Silent(Tags([FileNewline(text)]))
  {
    FileNewlineIsLine(text);
    BlankTag(FileNewline(text));
  }

  /** How the text splits after an insertion: `shown` are the old lines, one of them possibly closed. */
  lemma InsertSplits(text: string, x: string, end: nat) returns (shown: seq<string>, silent: seq<string>)
    requires 0 < end <= |Split(text)| && IsLine(x) && Terminated(x) && !IsSpace(x[0]) && x[|x| - 1] == '\n'
    ensures |shown| == |Split(text)| && Tags(shown) == Tags(Split(text)) && Silent(Tags(silent))
    ensures Split(Join(WithInsertion(text, Split(text), end, x))) == WithLine(shown, end, silent, x)
    ensures end < |Split(text)| || EndsLine(Split(text)[|Split(text)| - 1]) ==> shown == Split(text) && silent == []
  {
    var (lines, nl) := (Split(text), FileNewline(text));
    SplitIsWellFormed(text);
    FileNewlineIsLine(text);
    SilentNewline(text);
    shown, silent := lines, [];
    if end < |lines| {
      SplitInsertedMiddle(lines, end, x);
    } else if EndsLine(lines[|lines| - 1]) {
      SplitAtEnd(lines, x);
    } else if Terminated(lines[|lines| - 1]) {
      SplitAfterSeparator(lines, nl, x);
      silent := [nl];
    } else {
      SplitAfterOpenLine(lines, nl, x);
      var n := |lines| - 1;
      UnterminatedNoBreak(lines[n]);
      TagAppended(lines[n], nl);
      MapUpdate(lines, n, lines[n] + nl, TagOf);
      shown := lines[n := lines[n] + nl];
      assert Tags(lines)[n := TagOf(lines[n])] == Tags(lines);
    }
  }

  ghost predicate NoLineFor(text: string, key: string, end: nat) {
    PlaceFor(Tags(Split(text)), key) == Ok(InsertAt(end))
  }

  lemma LineInserted(text: string, key: string, value: string, end: nat, x: string, other: string) returns (i: nat)
    requires NoLineFor(text, key, end) && 0 < end <= |Split(text)| && TagOf(x) == Setting(key, value)
    requires IsLine(x) && Terminated(x) && !IsSpace(x[0]) && x[|x| - 1] == '\n'
    ensures var after := Join(WithInsertion(text, Split(text), end, x));
            && ReadOption(after, key) == Ok(Some(value))
            && (other != key ==> ReadOption(after, other) == ReadOption(text, other))
            && LineAt(after, key, i) && i < |Split(after)| && Split(after)[i] == x
  {
    var shown, silent := InsertSplits(text, x, end);
    var after := Join(WithInsertion(text, Split(text), end, x));
    i := end + |silent|;
    WithLineTags(shown, end, silent, x);
    ListInserted(Tags(Split(text)), key, end, Tags(silent), Setting(key, value), after, i, other);
    WithLineFacts(shown, end, silent, x);
  }

  lemma InsertIs(text: string, key: string, value: string, end: nat)
    requires NoLineFor(text, key, end)
    ensures 0 < end <= |Split(text)|
    ensures PatchOption(text, key, value) == Ok(Join(WithInsertion(text, Split(text), end, Unparse(Inserted(text, key, value)))))
  {
  }

  lemma InsertReads(text: string, key: string, value: string, end: nat, other: string) returns (i: nat)
    requires NoLineFor(text, key, end) && ValidKey(key) && GoodValue(value)
    ensures PatchOption(text, key, value).Ok?
    ensures var after := PatchOption(text, key, value).value;
            && ReadOption(after, key) == Ok(Some(value))
            && (other != key ==> ReadOption(after, other) == ReadOption(text, other))
            && LineAt(after, key, i) && i < |Split(after)| && Split(after)[i] == Unparse(Inserted(text, key, value))
  {
    InsertIs(text, key, value, end);
    InsertedShape(text, key, value);
    InsertedIsLine(text, key, value);
    i := LineInserted(text, key, value, end, Unparse(Inserted(text, key, value)), other);
  }

  // ----- Main results -----

  /** The patched line stays a line of its own, or there was none to patch. */
  predicate LandsAlone(text: string, key: string) {
    var place := PlaceFor(Tags(Split(text)), key);
    place.Ok? && place.value.ReplaceAt? ==> Separate(text, place.value.index)
  }

  /** The guard a caller could check before the patch: the key has no line yet, or its line shows a
      value in front of its terminator (or has no terminator) and does not run into a line with
      something on it. */
  predicate ReadsBack(text: string, key: string) {
    var lines := Split(text);
    var place := PlaceFor(Tags(lines), key);
    place.Ok? && place.value.ReplaceAt? && place.value.index < |lines| ==>
      var i := place.value.index;
      !Hidden(lines[i]) && (NewNewline(lines[i], text) != "" || i + 1 == |lines| || AllSpace(lines[i + 1]))
  }

  lemma PatchPlace(text: string, key: string, value: string) returns (place: Place)
    requires PatchOption(text, key, value).Ok?
    ensures PlaceFor(Tags(Split(text)), key) == Ok(place)
    ensures place.ReplaceAt? ==> LineAt(text, key, place.index) && place.index < |Split(text)|
    ensures place.InsertAt? ==> NoLineFor(text, key, place.index)
  {
    place := PlaceFor(Tags(Split(text)), key).value;
  }

  /** Patch, then read the same key: the new value comes back if and only if the guard held. */
  lemma PatchReadsBackExactly(text: string, key: string, value: string)
    requires ValidKey(key) && GoodValue(value) && PatchOption(text, key, value).Ok?
    ensures ReadOption(PatchOption(text, key, value).value, key) == Ok(Some(value)) <==> ReadsBack(text, key)
  {
    var place := PatchPlace(text, key, value);
    match place
    case InsertAt(end) =>
      var i := InsertReads(text, key, value, end, key);
    case ReplaceAt(i) =>
      if Hidden(Split(text)[i]) { ReplaceHidden(text, key, value, i); }
      else if Separate(text, i) { ReplaceReads(text, key, value, i, key); }
      else { ReplaceMerges(text, key, value, i); }
  }
}
