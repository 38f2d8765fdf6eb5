/** What a patch changes beside the key's value: the lines of the file, the other keys, and what a
    second patch does. */
module ConfigChanges {
  import opened Prelude
  import opened TextLines
  import opened ConfigLine
  import opened ConfigRegion
  import opened ConfigPatch
  import opened ConfigText
  import opened ConfigReadBack

  // ----- The lines of the patched file -----

  /** The patched line (or the value behind a hidden one) has no terminator and runs into the next line. */
  predicate Swallows(text: string, i: nat) {
    var lines := Split(text);
    i + 1 < |lines| && NewNewline(lines[i], text) == ""
  }

  /** The lines behind a hidden value: the new value stands in front of them. */
  function Spilled(rest: seq<string>, value: string, newline: string): seq<string> {
    if newline == "" && rest != [] then [value + rest[0]] + rest[1..] else [value + newline] + rest
  }

  function LinesAfter(text: string, i: nat, value: string): seq<string>
    requires i < |Split(text)|
  {
    var lines := Split(text);
    if Hidden(lines[i]) then lines[..i] + ([lines[i]] + Spilled(lines[i + 1..], value, NewNewline(lines[i], text)))
    else if Swallows(text, i) then lines[..i] + ([PatchedLine(lines[i], text, value) + lines[i + 1]] + lines[i + 1..][1..])
    else lines[i := PatchedLine(lines[i], text, value)]
  }

  lemma ValueLine(value: string, nl: string, t: string)
    requires GoodValue(value) && IsFileNewline(nl)
    ensures Split((value + nl) + t) == [value + nl] + Split(t)
  {
    LineOf(value, nl);
    EndTerminates(value, nl);
    assert (value + nl)[|value + nl| - 1] == '\n';
    SplitFirst(value + nl, t);
  }

  lemma ValueInFront(value: string, rest: seq<string>)
    requires GoodValue(value) && WellFormedLines(rest) && rest != []
    ensures Split(value + Join(rest)) == [value + rest[0]] + rest[1..]
  {
    TailWellFormed(rest);
    PrependLine(value, rest[0]);
    Regrouped(value, rest[0], Join(rest[1..]));
    if |rest| > 1 { assert Join(rest[1..])[0] == rest[1][0]; }
    SplitFirst(value + rest[0], Join(rest[1..]));
    SplitOfJoin(rest[1..]);
  }

  lemma SpilledSplits(rest: seq<string>, value: string, nl: string)
    requires GoodValue(value) && WellFormedLines(rest) && (nl == "" || IsFileNewline(nl))
    ensures Split((value + nl) + Join(rest)) == Spilled(rest, value, nl)
  {
    if nl != "" {
      ValueLine(value, nl, Join(rest));
      SplitOfJoin(rest);
    } else {
      assert value + "" == value;
      if rest == [] {
        LineOf(value, "");
        SplitOne(value);
        assert value + Join(rest) == value;
        assert [value] + rest == [value];
      } else {
        ValueInFront(value, rest);
      }
    }
  }

  lemma HiddenLines(text: string, key: string, value: string, i: nat)
    requires LineAt(text, key, i) && GoodValue(value) && i < |Split(text)| && Hidden(Split(text)[i])
    ensures var lines := Split(text);
            Split(Join(lines[i := PatchedLine(lines[i], text, value)])) == LinesAfter(text, i, value)
  {
    LineFacts(text, key, i);
    var lines := Split(text);
    HeadNoBreak(lines[i], key);
    PatchedLineParts(lines[i], text, key, value);
    var more := value + NewNewline(lines[i], text);
    ConcatStart(value, NewNewline(lines[i], text));
    SplitContinued(lines, i, more);
    PiecesWellFormed(lines, i);
    SpilledSplits(lines[i + 1..], value, NewNewline(lines[i], text));
  }

  lemma SwallowedLines(text: string, key: string, value: string, i: nat)
    requires LineAt(text, key, i) && GoodValue(value) && Swallows(text, i) && !Hidden(Split(text)[i])
    ensures var lines := Split(text);
            Split(Join(lines[i := PatchedLine(lines[i], text, value)])) == LinesAfter(text, i, value)
  {
    LineFacts(text, key, i);
    var lines := Split(text);
    MergedLine(lines[i], text, key, value, lines[i + 1]);
    SplitMerged(lines, i, PatchedLine(lines[i], text, value));
  }

  lemma ReplacedLines(text: string, key: string, value: string, i: nat)
    requires LineAt(text, key, i) && GoodValue(value) && i < |Split(text)|
    ensures PatchOption(text, key, value).Ok?
    ensures Split(PatchOption(text, key, value).value) == LinesAfter(text, i, value)
  {
    PatchIs(text, key, value, i);
    if Hidden(Split(text)[i]) { HiddenLines(text, key, value, i); }
    else if Swallows(text, i) { SwallowedLines(text, key, value, i); }
    else { ReplaceSplits(text, key, value, i); }
  }

  /** At the end of the file: the last line gets a terminator when it has none. */
  function LinesAppended(lines: seq<string>, nl: string, x: string): seq<string>
    requires lines != []
  {
    var last := |lines| - 1;
    if EndsLine(lines[last]) then WithLine(lines, |lines|, [], x)
    else if Terminated(lines[last]) then WithLine(lines, |lines|, [nl], x)
    else WithLine(lines[last := lines[last] + nl], |lines|, [], x)
  }

  function LinesWithNew(text: string, end: nat, x: string): seq<string>
    requires 0 < end <= |Split(text)|
  {
    if end < |Split(text)| then WithLine(Split(text), end, [], x) else LinesAppended(Split(text), FileNewline(text), x)
  }

  lemma AppendedLines(text: string, lines: seq<string>, x: string)
    requires WellFormedLines(lines) && lines != [] && IsLine(x) && Terminated(x) && !IsSpace(x[0])
    ensures Split(Join(WithInsertion(text, lines, |lines|, x))) == LinesAppended(lines, FileNewline(text), x)
  {
    FileNewlineIsLine(text);
    if EndsLine(lines[|lines| - 1]) {
      SplitAtEnd(lines, x);
    } else if Terminated(lines[|lines| - 1]) {
      SplitAfterSeparator(lines, FileNewline(text), x);
    } else {
      SplitAfterOpenLine(lines, FileNewline(text), x);
    }
  }

  lemma InsertedLines(text: string, end: nat, x: string)
    requires 0 < end <= |Split(text)| && IsLine(x) && Terminated(x) && !IsSpace(x[0]) && x[|x| - 1] == '\n'
    ensures Split(Join(WithInsertion(text, Split(text), end, x))) == LinesWithNew(text, end, x)
  {
    SplitIsWellFormed(text);
    if end < |Split(text)| { SplitInsertedMiddle(Split(text), end, x); } else { AppendedLines(text, Split(text), x); }
  }

  /** Exactly which lines the patched file has. A line of the key is replaced in place; it joins the
      next one when it ends without a terminator, and a hidden one stays and has the value behind it.
      A new option becomes one line, behind a last line that is closed when it was open. */
  lemma OneLineChanges(text: string, key: string, value: string)
    requires ValidKey(key) && GoodValue(value) && PatchOption(text, key, value).Ok?
    ensures var (place, after) := (PlaceFor(Tags(Split(text)), key).value, Split(PatchOption(text, key, value).value));
            if place.ReplaceAt? then
              place.index < |Split(text)| && after == LinesAfter(text, place.index, value)
            else
              && 0 < place.index <= |Split(text)|
              && after == LinesWithNew(text, place.index, Unparse(Inserted(text, key, value)))
  {
    var place := PatchPlace(text, key, value);
    match place
    case InsertAt(end) =>
      InsertIs(text, key, value, end);
      InsertedIsLine(text, key, value);
      InsertedLines(text, end, Unparse(Inserted(text, key, value)));
    case ReplaceAt(i) =>
      ReplacedLines(text, key, value, i);
  }

  // ----- The other keys -----

  /** The lines up to the next section header. */
  function Stretch(tags: seq<Tag>): seq<Tag> {
    tags[..SectionFree(tags)]
  }

  /** What the reader sees behind the key's line after the patch. */
  function TagsBehind(text: string, i: nat, value: string): seq<Tag>
    requires i < |Split(text)|
  {
    var lines := Split(text);
    if Hidden(lines[i]) then Tags(Spilled(lines[i + 1..], value, NewNewline(lines[i], text)))
    else if Swallows(text, i) then Tags(lines)[i + 1..][1..]
    else Tags(lines)[i + 1..]
  }

  lemma MapSplit(lines: seq<string>, i: nat, tag: string -> Tag)
    requires i < |lines|
    ensures var tags := MapTags(lines, tag); tags == tags[..i] + [tags[i]] + tags[i + 1..]
  {
  }

  lemma TagsAfterHidden(text: string, key: string, value: string, i: nat)
    requires LineAt(text, key, i) && GoodValue(value) && i < |Split(text)| && Hidden(Split(text)[i])
    ensures var tags := Tags(Split(text));
            Says(tags[i], key) && Tags(LinesAfter(text, i, value)) == tags[..i] + [tags[i]] + TagsBehind(text, i, value)
  {
    LineFacts(text, key, i);
    var lines := Split(text);
    MapContinued(lines, i, lines[i], Spilled(lines[i + 1..], value, NewNewline(lines[i], text)), TagOf);
  }

  lemma TagsAfterSwallowed(text: string, key: string, value: string, i: nat) returns (now: Tag)
    requires LineAt(text, key, i) && GoodValue(value) && Swallows(text, i) && !Hidden(Split(text)[i])
    ensures Says(now, key)
    ensures Tags(LinesAfter(text, i, value)) == Tags(Split(text))[..i] + [now] + TagsBehind(text, i, value)
  {
    LineFacts(text, key, i);
    var lines := Split(text);
    MergedLine(lines[i], text, key, value, lines[i + 1]);
    var y := PatchedLine(lines[i], text, value) + lines[i + 1];
    now := TagOf(y);
    MapMerged(lines, i, y, TagOf);
  }

  lemma TagsAfterAlone(text: string, key: string, value: string, i: nat) returns (now: Tag)
    requires LineAt(text, key, i) && GoodValue(value) && Separate(text, i)
    ensures Says(now, key)
    ensures Tags(LinesAfter(text, i, value)) == Tags(Split(text))[..i] + [now] + TagsBehind(text, i, value)
  {
    LineFacts(text, key, i);
    var lines := Split(text);
    var x := PatchedLine(lines[i], text, value);
    PatchedSays(lines[i], text, key, value);
    now := TagOf(x);
    MapUpdate(lines, i, x, TagOf);
    UpdateParts(Tags(lines), i, now);
  }

  /** In every case the key keeps one line where it was, in front of `TagsBehind`. */
  lemma TagsAfter(text: string, key: string, value: string, i: nat) returns (now: Tag)
    requires LineAt(text, key, i) && GoodValue(value) && i < |Split(text)|
    ensures Says(now, key)
    ensures Tags(LinesAfter(text, i, value)) == Tags(Split(text))[..i] + [now] + TagsBehind(text, i, value)
  {
    if Hidden(Split(text)[i]) {
      TagsAfterHidden(text, key, value, i);
      now := Tags(Split(text))[i];
    } else if Swallows(text, i) {
      now := TagsAfterSwallowed(text, key, value, i);
    } else {
      now := TagsAfterAlone(text, key, value, i);
    }
  }

  lemma LayoutBounds(pre: seq<Tag>, region: seq<Tag>, post: seq<Tag>, a: seq<Tag>)
    requires Layout(pre, region, post) && |a| <= |region| && region[..|a|] == a
    ensures var tags := pre + (region + post); Bounds(tags).Some? && Bounds(tags).value.0 == |pre|
    ensures (pre + (region + post))[|pre|..|pre| + |a|] == a
  {
    MiddleOf(pre, region, post);
    var tags := pre + (region + post);
    assert tags[|pre|..|pre| + |a|] == tags[|pre|..|pre| + |region|][..|a|];
  }

  lemma CutTags(tags: seq<Tag>, n: nat)
    requires n <= |tags|
    ensures tags[..n] + tags[n..] == tags
  {
  }

  lemma LayoutThrough(pre: seq<Tag>, a: seq<Tag>, more: seq<Tag>, post: seq<Tag>, t: Tag, rest: seq<Tag>)
    requires Layout(pre, a + more, post) && !t.Header?
    ensures Layout(pre, a + [t] + Stretch(rest), rest[SectionFree(rest)..])
    ensures pre + (a + [t] + Stretch(rest) + rest[SectionFree(rest)..]) == pre + a + [t] + rest
  {
    var n := SectionFree(rest);
    NoHeadersThrough(a, more, t, rest);
    SectionFreeTail(rest);
    LayoutSplice(pre, a + more, post, a + [t] + rest[..n], rest[n..]);
    Regroup(pre, a, t, rest[..n], rest[n..]);
    CutTags(rest, n);
  }

  lemma ReadOther(pre: seq<Tag>, a: seq<Tag>, t: Tag, rest: seq<Tag>, key: string, other: string)
    requires Layout(pre, a + [t] + Stretch(rest), rest[SectionFree(rest)..]) && Says(t, key) && other != key
    requires pre + (a + [t] + Stretch(rest) + rest[SectionFree(rest)..]) == pre + a + [t] + rest
    ensures Read(pre + a + [t] + rest, other) == Single(Values(a, other) + Values(Stretch(rest), other))
  {
    ReadLayout(pre, a + [t] + Stretch(rest), rest[SectionFree(rest)..], other);
    ValuesAround(a, t, Stretch(rest), other);
    ValuesOfOne(t, other);
    assert Values(a, other) + [] == Values(a, other);
  }

  /** Another key is read from the lines of the section in front of the key's line and behind it. */
  lemma ReadAround(tags: seq<Tag>, key: string, i: nat, now: Tag, rest: seq<Tag>, other: string)
    requires PlaceFor(tags, key) == Ok(ReplaceAt(i)) && Says(now, key) && other != key
    ensures Bounds(tags).Some? && Bounds(tags).value.0 <= i < |tags|
    ensures Read(tags[..i] + [now] + rest, other)
         == Single(Values(tags[Bounds(tags).value.0..i], other) + Values(Stretch(rest), other))
  {
    var pre, a, t, b, post := ReplaceParts(tags, key, i);
    CutAround(pre, a, t, b, post);
    LayoutBounds(pre, a + [t] + b, post, a);
    Regroup(pre, a, t, b, post);
    LayoutThrough(pre, a, [t] + b, post, now, rest);
    ReadOther(pre, a, now, rest, key, other);
  }

  /** Reading gives the same for two lists of values: they are equal, or both are ambiguous. */
  predicate SameOrAmbiguous(before: seq<string>, after: seq<string>) {
    before == after || (|before| > 1 && |after| > 1)
  }

  lemma SingleSame(front: seq<string>, x: seq<string>, y: seq<string>)
    ensures Single(front + x) == Single(front + y) <==> SameOrAmbiguous(front + x, front + y)
  {
  }

  /** `other` is read the same whether line i has its old lines behind it or `behind`. */
  predicate KeptAround(tags: seq<Tag>, i: nat, behind: seq<Tag>, other: string)
    requires i < |tags| && Bounds(tags).Some? && Bounds(tags).value.0 <= i
  {
    var front := Values(tags[Bounds(tags).value.0..i], other);
    SameOrAmbiguous(front + Values(Stretch(tags[i + 1..]), other), front + Values(Stretch(behind), other))
  }

  /** The values of `other` in the options section, before the patch and after it, as the old line of
      the key and its successor decide. */
  predicate OthersKept(text: string, key: string, value: string, other: string) {
    var tags := Tags(Split(text));
    var place := PlaceFor(tags, key);
    place.Ok? && place.value.ReplaceAt? && Bounds(tags).Some? && Bounds(tags).value.0 <= place.value.index ==>
      KeptAround(tags, place.value.index, TagsBehind(text, place.value.index, value), other)
  }

  lemma KeptIs(text: string, key: string, value: string, other: string, i: nat)
    requires LineAt(text, key, i)
    ensures var tags := Tags(Split(text));
            && i < |tags| && Bounds(tags).Some? && Bounds(tags).value.0 <= i
            && (OthersKept(text, key, value, other) <==> KeptAround(tags, i, TagsBehind(text, i, value), other))
  {
    PlaceBounds(Tags(Split(text)), key, i);
  }

  lemma PlaceBounds(tags: seq<Tag>, key: string, i: nat)
    requires PlaceFor(tags, key) == Ok(ReplaceAt(i))
    ensures Bounds(tags).Some? && Bounds(tags).value.0 <= i < |tags|
  {
  }

  lemma OtherAtReplaced(text: string, key: string, value: string, other: string, i: nat)
    requires LineAt(text, key, i) && i < |Split(text)| && GoodValue(value) && other != key
    ensures PatchOption(text, key, value).Ok?
    ensures ReadOption(PatchOption(text, key, value).value, other) == ReadOption(text, other)
            <==> OthersKept(text, key, value, other)
  {
    ReplacedLines(text, key, value, i);
    LineFacts(text, key, i);
    var tags := Tags(Split(text));
    var now := TagsAfter(text, key, value, i);
    ReadAround(tags, key, i, now, TagsBehind(text, i, value), other);
    MapSplit(Split(text), i, TagOf);
    ReadAround(tags, key, i, tags[i], tags[i + 1..], other);
    SingleSame(Values(tags[Bounds(tags).value.0..i], other), Values(Stretch(tags[i + 1..]), other),
               Values(Stretch(TagsBehind(text, i, value)), other));
    KeptIs(text, key, value, other, i);
  }

  /** Another key is read as before exactly when the section still shows the same values for it, or too
      many both times. That is always so when the patched line lands alone. */
  lemma OtherKeysReadAsBefore(text: string, key: string, value: string, other: string)
    requires ValidKey(key) && GoodValue(value) && PatchOption(text, key, value).Ok? && other != key
    ensures ReadOption(PatchOption(text, key, value).value, other) == ReadOption(text, other)
            <==> OthersKept(text, key, value, other)
    ensures LandsAlone(text, key) ==> OthersKept(text, key, value, other)
  {
    var place := PatchPlace(text, key, value);
    match place
    case InsertAt(end) => var i := InsertReads(text, key, value, end, other);
    case ReplaceAt(i) => OtherAtReplaced(text, key, value, other, i);
  }

  /** A line that comes or goes behind the key's line must not speak of the other key, unless that stays
      ambiguous anyway, and must not be a header in front of lines that do. */
  predicate Spares(t: Tag, front: nat, behind: nat, other: string) {
    match t
    case Other => true
    case Setting(k, _) => k != other || front + behind > 1
    case Header(_) => behind == 0 || front > 1
  }

  lemma StretchHead(t: Tag, rest: seq<Tag>, other: string)
    ensures Values(Stretch([t] + rest), other) ==
              if t.Header? then [] else Values([t], other) + Values(Stretch(rest), other)
  {
    var tags := [t] + rest;
    assert tags[1..] == rest;
    if !t.Header? {
      assert Stretch(tags) == [t] + Stretch(rest);
      ValuesConcat([t], Stretch(rest), other);
    } else {
      assert Stretch(tags) == [];
    }
  }

  lemma HeadTail<T>(s: seq<T>, i: nat)
    requires i < |s|
    ensures s[i..] == [s[i]] + s[i..][1..]
  {
  }

  lemma SparesExactly(front: seq<string>, t: Tag, rest: seq<Tag>, other: string)
    ensures var (with, without) := (front + Values(Stretch([t] + rest), other), front + Values(Stretch(rest), other));
            && (SameOrAmbiguous(with, without) <==> Spares(t, |front|, |Values(Stretch(rest), other)|, other))
            && (SameOrAmbiguous(without, with) <==> Spares(t, |front|, |Values(Stretch(rest), other)|, other))
  {
    StretchHead(t, rest, other);
    ValuesOfOne(t, other);
    SparesValues(front, t, Values(Stretch(rest), other), other);
  }

  lemma SparesValues(front: seq<string>, t: Tag, behind: seq<string>, other: string)
    ensures SameOrAmbiguous(front + (if t.Header? then [] else Values([t], other) + behind), front + behind)
            <==> Spares(t, |front|, |behind|, other)
  {
    ValuesOfOne(t, other);
    assert [] + behind == behind;
    assert front + [] == front;
  }

  lemma RemovedDecides(tags: seq<Tag>, i: nat, other: string)
    requires i + 1 < |tags| && Bounds(tags).Some? && Bounds(tags).value.0 <= i
    ensures KeptAround(tags, i, tags[i + 1..][1..], other) <==>
              Spares(tags[i + 1], |Values(tags[Bounds(tags).value.0..i], other)|,
                     |Values(Stretch(tags[i + 1..][1..]), other)|, other)
  {
    HeadTail(tags, i + 1);
    SparesExactly(Values(tags[Bounds(tags).value.0..i], other), tags[i + 1], tags[i + 1..][1..], other);
  }

  lemma AddedDecides(tags: seq<Tag>, i: nat, t: Tag, other: string)
    requires i < |tags| && Bounds(tags).Some? && Bounds(tags).value.0 <= i
    ensures KeptAround(tags, i, [t] + tags[i + 1..], other) <==>
              Spares(t, |Values(tags[Bounds(tags).value.0..i], other)|, |Values(Stretch(tags[i + 1..]), other)|, other)
  {
    SparesExactly(Values(tags[Bounds(tags).value.0..i], other), t, tags[i + 1..], other);
  }

  /** The condition in terms of the line that is swallowed. */
  lemma SwallowedLineDecides(text: string, key: string, value: string, other: string, i: nat)
    requires LineAt(text, key, i) && Swallows(text, i) && !Hidden(Split(text)[i]) && other != key
    ensures var tags := Tags(Split(text));
            && i + 1 < |tags| && Bounds(tags).Some? && Bounds(tags).value.0 <= i
            && (OthersKept(text, key, value, other) <==>
                  Spares(tags[i + 1], |Values(tags[Bounds(tags).value.0..i], other)|,
                         |Values(Stretch(tags[i + 1..][1..]), other)|, other))
  {
    KeptIs(text, key, value, other, i);
    RemovedDecides(Tags(Split(text)), i, other);
  }

  lemma SpilledTags(rest: seq<string>, value: string, nl: string)
    requires nl != "" || rest == []
    ensures Tags(Spilled(rest, value, nl)) == [TagOf(value + nl)] + Tags(rest)
  {
  }

  lemma TagsDrop(lines: seq<string>, i: nat)
    requires i <= |lines|
    ensures Tags(lines[i..]) == Tags(lines)[i..]
  {
  }

  lemma SpilledBehind(text: string, i: nat, value: string)
    requires i < |Split(text)| && Hidden(Split(text)[i]) && !Swallows(text, i)
    ensures TagsBehind(text, i, value)
         == [TagOf(value + NewNewline(Split(text)[i], text))] + Tags(Split(text))[i + 1..]
  {
    SpilledTags(Split(text)[i + 1..], value, NewNewline(Split(text)[i], text));
    TagsDrop(Split(text), i + 1);
  }

  /** A value behind a hidden line becomes a line of its own ... */
  lemma SpilledAloneDecides(text: string, key: string, value: string, other: string, i: nat)
    requires LineAt(text, key, i) && i < |Split(text)| && Hidden(Split(text)[i]) && !Swallows(text, i) && other != key
    ensures var tags := Tags(Split(text));
            && Bounds(tags).Some? && Bounds(tags).value.0 <= i
            && (OthersKept(text, key, value, other) <==>
                  Spares(TagOf(value + NewNewline(Split(text)[i], text)), |Values(tags[Bounds(tags).value.0..i], other)|,
                         |Values(Stretch(tags[i + 1..]), other)|, other))
  {
    KeptIs(text, key, value, other, i);
    SpilledBehind(text, i, value);
    AddedDecides(Tags(Split(text)), i, TagOf(value + NewNewline(Split(text)[i], text)), other);
  }

  /** One line behind the key's line becomes another: headers move the end of the section, the other key
      may lose a line, get one or keep one. */
  predicate Exchanges(was: Tag, now: Tag, front: nat, behind: nat, other: string) {
    if was.Header? && now.Header? then true
    else if was.Header? then front > 1 || (!Says(now, other) && behind == 0)
    else if now.Header? then front > 1 || (!Says(was, other) && behind == 0)
    else if Says(was, other) && Says(now, other) then was.value == now.value || front + behind > 0
    else if Says(was, other) || Says(now, other) then front + behind > 1
    else true
  }

  /** The values of `other` behind a line, with the line itself in front. */
  function ShownBehind(t: Tag, behind: seq<string>, other: string): seq<string> {
    if t.Header? then [] else Values([t], other) + behind
  }

  lemma ShownLength(t: Tag, behind: seq<string>, other: string)
    ensures ShownBehind(t, behind, other) ==
              if t.Header? then [] else if Says(t, other) then [t.value] + behind else behind
  {
    ValuesOfOne(t, other);
    assert [] + behind == behind;
  }

  lemma ExchangedValues(front: seq<string>, was: Tag, now: Tag, behind: seq<string>, other: string)
    ensures SameOrAmbiguous(front + ShownBehind(was, behind, other), front + ShownBehind(now, behind, other))
            <==> Exchanges(was, now, |front|, |behind|, other)
  {
    ShownLength(was, behind, other);
    ShownLength(now, behind, other);
    var (a, b) := (ShownBehind(was, behind, other), ShownBehind(now, behind, other));
    assert front + a == front + b <==> a == b by {
      assert (front + a)[|front|..] == a && (front + b)[|front|..] == b;
    }
    if !was.Header? && !now.Header? && Says(was, other) && Says(now, other) {
      assert a[0] == was.value && b[0] == now.value;
    }
  }

  lemma StretchShown(t: Tag, rest: seq<Tag>, other: string)
    ensures Values(Stretch([t] + rest), other) == ShownBehind(t, Values(Stretch(rest), other), other)
  {
    StretchHead(t, rest, other);
  }

  lemma ExchangedExactly(front: seq<string>, was: Tag, now: Tag, rest: seq<Tag>, other: string)
    ensures SameOrAmbiguous(front + Values(Stretch([was] + rest), other), front + Values(Stretch([now] + rest), other))
            <==> Exchanges(was, now, |front|, |Values(Stretch(rest), other)|, other)
  {
    StretchShown(was, rest, other);
    StretchShown(now, rest, other);
    ExchangedValues(front, was, now, Values(Stretch(rest), other), other);
  }

  lemma ExchangedDecides(tags: seq<Tag>, i: nat, t: Tag, other: string)
    requires i + 1 < |tags| && Bounds(tags).Some? && Bounds(tags).value.0 <= i
    ensures KeptAround(tags, i, [t] + tags[i + 1..][1..], other) <==>
              Exchanges(tags[i + 1], t, |Values(tags[Bounds(tags).value.0..i], other)|,
                        |Values(Stretch(tags[i + 1..][1..]), other)|, other)
  {
    HeadTail(tags, i + 1);
    ExchangedExactly(Values(tags[Bounds(tags).value.0..i], other), tags[i + 1], t, tags[i + 1..][1..], other);
  }

  lemma SpilledOverTags(rest: seq<string>, value: string)
    requires rest != []
    ensures Tags(Spilled(rest, value, "")) == [TagOf(value + rest[0])] + Tags(rest)[1..]
  {
  }

  lemma SpilledOverBehind(text: string, i: nat, value: string)
    requires i < |Split(text)| && Hidden(Split(text)[i]) && Swallows(text, i)
    ensures TagsBehind(text, i, value) == [TagOf(value + Split(text)[i + 1])] + Tags(Split(text))[i + 1..][1..]
  {
    SpilledOverTags(Split(text)[i + 1..], value);
    TagsDrop(Split(text), i + 1);
  }

  /** ... or, without a terminator, one line with the successor. */
  lemma SpilledOverDecides(text: string, key: string, value: string, other: string, i: nat)
    requires LineAt(text, key, i) && Swallows(text, i) && Hidden(Split(text)[i]) && other != key
    ensures var tags := Tags(Split(text));
            && i + 1 < |tags| && Bounds(tags).Some? && Bounds(tags).value.0 <= i
            && (OthersKept(text, key, value, other) <==>
                  Exchanges(tags[i + 1], TagOf(value + Split(text)[i + 1]),
                            |Values(tags[Bounds(tags).value.0..i], other)|,
                            |Values(Stretch(tags[i + 1..][1..]), other)|, other))
  {
    KeptIs(text, key, value, other, i);
    SpilledOverBehind(text, i, value);
    ExchangedDecides(Tags(Split(text)), i, TagOf(value + Split(text)[i + 1]), other);
  }

  /** The condition in terms of the line that a value behind a hidden one becomes: it is new, or it stands
      for the successor that it has run into. */
  lemma SpilledLineDecides(text: string, key: string, value: string, other: string, i: nat)
    requires LineAt(text, key, i) && i < |Split(text)| && Hidden(Split(text)[i]) && other != key
    ensures var (lines, tags) := (Split(text), Tags(Split(text)));
            && Bounds(tags).Some? && Bounds(tags).value.0 <= i
            && var front := |Values(tags[Bounds(tags).value.0..i], other)|;
               OthersKept(text, key, value, other) <==>
                 if Swallows(text, i) then
                   Exchanges(tags[i + 1], TagOf(value + lines[i + 1]), front,
                             |Values(Stretch(tags[i + 1..][1..]), other)|, other)
                 else
                   Spares(TagOf(value + NewNewline(lines[i], text)), front, |Values(Stretch(tags[i + 1..]), other)|, other)
  {
    if Swallows(text, i) { SpilledOverDecides(text, key, value, other, i); }
    else { SpilledAloneDecides(text, key, value, other, i); }
  }

  // ----- Patching twice -----

  lemma PatchedAgain(l: string, text: string, after: string, key: string, value: string)
    requires Says(TagOf(l), key) && GoodValue(value)
    requires NewNewline(l, text) == "" ==> !EndsWithLineFeed(after)
    ensures PatchedLine(PatchedLine(l, text, value), after, value) == PatchedLine(l, text, value)
  {
    SettingIsOption(l, key);
    ParsedShape(l);
    ParseUnparse(Patched(ParseOption(l).value, text, value));
  }

  lemma InsertedAgain(text: string, after: string, key: string, value: string)
    requires ValidKey(key) && GoodValue(value)
    ensures var x := Unparse(Inserted(text, key, value)); PatchedLine(x, after, value) == x
  {
    InsertedShape(text, key, value);
    ParseUnparse(Inserted(text, key, value));
  }

  lemma JoinEnds(lines: seq<string>)
    requires lines != [] && lines[|lines| - 1] != ""
    ensures Join(lines) != "" && var l := lines[|lines| - 1]; Join(lines)[|Join(lines)| - 1] == l[|l| - 1]
  {
    LastApart(lines);
    JoinAppended(lines[..|lines| - 1], lines[|lines| - 1]);
  }

  /** A line that the patch leaves as it is leaves the text as it is. */
  lemma SameLineSameText(after: string, key: string, value: string, i: nat)
    requires LineAt(after, key, i) && i < |Split(after)| && PatchedLine(Split(after)[i], after, value) == Split(after)[i]
    ensures PatchOption(after, key, value) == Ok(after)
  {
    PatchIs(after, key, value, i);
    SplitIsWellFormed(after);
    assert Split(after)[i := Split(after)[i]] == Split(after);
  }

  lemma ConcatEnd(a: string, b: string)
    requires b != ""
    ensures a + b != "" && (a + b)[|a + b| - 1] == b[|b| - 1]
  {
  }

  lemma OpenLineEnd(l: string, text: string, key: string, value: string)
    requires Says(TagOf(l), key) && GoodValue(value) && NewNewline(l, text) == ""
    ensures var x := PatchedLine(l, text, value); x != "" && x[|x| - 1] != '\n'
  {
    PatchedLineParts(l, text, key, value);
    assert value + "" == value;
    ConcatEnd(Head(l), value);
  }

  lemma OpenList(lines: seq<string>, i: nat, x: string)
    requires i + 1 == |lines| && x != "" && x[|x| - 1] != '\n'
    ensures !EndsWithLineFeed(Join(lines[i := x]))
  {
    JoinEnds(lines[i := x]);
  }

  /** Without a terminator the patched line is the last one, and the text ends with the value. */
  lemma OpenEnd(text: string, key: string, value: string, i: nat)
    requires LineAt(text, key, i) && GoodValue(value) && Separate(text, i) && NewNewline(Split(text)[i], text) == ""
    ensures var lines := Split(text); !EndsWithLineFeed(Join(lines[i := PatchedLine(lines[i], text, value)]))
  {
    LineFacts(text, key, i);
    OpenLineEnd(Split(text)[i], text, key, value);
    OpenList(Split(text), i, PatchedLine(Split(text)[i], text, value));
  }

  lemma InsertedTwice(text: string, key: string, value: string, end: nat)
    requires ValidKey(key) && GoodValue(value) && NoLineFor(text, key, end)
    ensures PatchOption(text, key, value).Ok?
    ensures var after := PatchOption(text, key, value).value; PatchOption(after, key, value) == Ok(after)
  {
    var i := InsertReads(text, key, value, end, key);
    var after := PatchOption(text, key, value).value;
    InsertedAgain(text, after, key, value);
    SameLineSameText(after, key, value, i);
  }

  lemma AloneTwice(text: string, key: string, value: string, i: nat)
    requires LineAt(text, key, i) && GoodValue(value) && Separate(text, i)
    ensures PatchOption(text, key, value).Ok?
    ensures var after := PatchOption(text, key, value).value; PatchOption(after, key, value) == Ok(after)
  {
    ReplaceReads(text, key, value, i, key);
    ReplaceSplits(text, key, value, i);
    PatchIs(text, key, value, i);
    LineFacts(text, key, i);
    var after := PatchOption(text, key, value).value;
    if NewNewline(Split(text)[i], text) == "" { OpenEnd(text, key, value, i); }
    PatchedAgain(Split(text)[i], text, after, key, value);
    SameLineSameText(after, key, value, i);
  }

  lemma PlaceInThrough(pre: seq<Tag>, a: seq<Tag>, now: Tag, b: seq<Tag>, key: string)
    requires Values(a, key) == [] && Says(now, key)
    ensures var p := PlaceIn(a + [now] + b, |pre|, key); p.Ok? ==> p == Ok(ReplaceAt(|pre| + |a|))
  {
    FirstMatchOf(a, now, b, key);
    ValuesAround(a, now, b, key);
    ValuesOfOne(now, key);
  }

  /** Whatever follows, the next patch finds the key's line where it was, or refuses. */
  lemma PlaceThrough(tags: seq<Tag>, key: string, i: nat, now: Tag, rest: seq<Tag>)
    requires PlaceFor(tags, key) == Ok(ReplaceAt(i)) && Says(now, key)
    ensures i < |tags| && var p := PlaceFor(tags[..i] + [now] + rest, key); p.Ok? ==> p == Ok(ReplaceAt(i))
  {
    var pre, a, t, b, post := ReplaceParts(tags, key, i);
    CutAround(pre, a, t, b, post);
    Regroup(pre, a, t, b, post);
    LayoutThrough(pre, a, [t] + b, post, now, rest);
    PlaceOfLayout(pre, a + [now] + Stretch(rest), rest[SectionFree(rest)..], key);
    PlaceInThrough(pre, a, now, Stretch(rest), key);
  }

  lemma CancelAround(a: string, x: string, y: string, c: string)
    requires a + (x + c) == a + (y + c)
    ensures x == y
  {
    assert (a + (x + c))[|a|..] == x + c && (a + (y + c))[|a|..] == y + c;
    assert |x| == |y|;
    assert (x + c)[..|x|] == x && (y + c)[..|y|] == y;
  }

  /** A line that the patch changes changes the text. */
  lemma OtherLineOtherText(lines: seq<string>, i: nat, x: string)
    requires i < |lines| && x != lines[i]
    ensures Join(lines[i := x]) != Join(lines)
  {
    UpdateParts(lines, i, x);
    UpdateParts(lines, i, lines[i]);
    assert lines[i := lines[i]] == lines;
    JoinAround(lines[..i], x, lines[i + 1..]);
    JoinAround(lines[..i], lines[i], lines[i + 1..]);
    if Join(lines[i := x]) == Join(lines) { CancelAround(Join(lines[..i]), x, lines[i], Join(lines[i + 1..])); }
  }

  /** Whether the second patch of a replaced line changes the text is decided by that line alone. */
  lemma SecondPatch(text: string, key: string, value: string, i: nat)
    requires LineAt(text, key, i) && i < |Split(text)| && GoodValue(value)
    ensures PatchOption(text, key, value).Ok? && i < |LinesAfter(text, i, value)|
    ensures var after := PatchOption(text, key, value).value;
            var line := LinesAfter(text, i, value)[i];
            PatchOption(after, key, value) == Ok(after) <==>
              PlaceFor(Tags(Split(after)), key).Ok? && PatchedLine(line, after, value) == line
  {
    ReplacedLines(text, key, value, i);
    var after := PatchOption(text, key, value).value;
    var now := TagsAfter(text, key, value, i);
    PlaceThrough(Tags(Split(text)), key, i, now, TagsBehind(text, i, value));
    SplitIsWellFormed(after);
    var line := LinesAfter(text, i, value)[i];
    if PlaceFor(Tags(Split(after)), key).Ok? {
      PatchIs(after, key, value, i);
      if PatchedLine(line, after, value) == line { SameLineSameText(after, key, value, i); }
      else { OtherLineOtherText(Split(after), i, PatchedLine(line, after, value)); }
    }
  }

  /** A hidden line stays, and the value goes behind it. */
  lemma HiddenPatched(l: string, text: string, key: string, value: string)
    requires IsLine(l) && Says(TagOf(l), key) && Hidden(l)
    ensures PatchedLine(l, text, value) == l + (value + NewNewline(l, text))
    ensures NewNewline(l, text) == if EndsWithLineFeed(text) then "\n" else ""
  {
    SettingIsOption(l, key);
    ParsedShape(l);
    HeadNoBreak(l, key);
    PatchedLineParts(l, text, key, value);
  }

  lemma HiddenTwice(text: string, key: string, value: string, i: nat)
    requires LineAt(text, key, i) && i < |Split(text)| && GoodValue(value) && Hidden(Split(text)[i])
    ensures PatchOption(text, key, value).Ok?
    ensures var after := PatchOption(text, key, value).value; PatchOption(after, key, value) != Ok(after)
  {
    LineFacts(text, key, i);
    SecondPatch(text, key, value, i);
    HiddenPatched(Split(text)[i], PatchOption(text, key, value).value, key, value);
  }

  lemma NewlineOfSwallowed(value: string, next: string)
    requires Trimmed(value)
    ensures Newline(value + next) == next <==> next == "" || IsFileNewline(next)
  {
    if next == "" || IsFileNewline(next) { NewlineOf(value, next); }
  }

  lemma SwallowedAgain(indent: string, key: string, equals: string, value: string, next: string, after: string)
    requires AllSpace(indent) && ValidKey(key) && EqualsShape(equals) && Trimmed(value) && next != ""
    ensures var y := indent + (key + (equals + (value + next))); PatchedLine(y, after, value) == y <==> IsFileNewline(next)
  {
    var y := indent + (key + (equals + (value + next)));
    ConcatStart(value, next);
    ParseParts(indent, key, equals, value + next);
    NewlineOfSwallowed(value, next);
    var nl := Patched(ParseValue(indent, key, equals, value + next), after, value).newline;
    if PatchedLine(y, after, value) == y { CancelFront(indent, key, equals, value, nl, next); }
  }

  lemma CancelFront(a: string, b: string, c: string, d: string, x: string, y: string)
    requires a + (b + (c + (d + x))) == a + (b + (c + (d + y)))
    ensures x == y
  {
    Cancel(a, b + (c + (d + x)), b + (c + (d + y)));
    Cancel(b, c + (d + x), c + (d + y));
    Cancel(c, d + x, d + y);
    Cancel(d, x, y);
  }

  lemma Cancel(a: string, x: string, y: string)
    requires a + x == a + y
    ensures x == y
  {
    assert (a + x)[|a|..] == x && (a + y)[|a|..] == y;
  }

  lemma SwallowedLineAgain(l: string, text: string, after: string, key: string, value: string, next: string)
    requires IsLine(l) && Says(TagOf(l), key) && GoodValue(value) && !Hidden(l) && NewNewline(l, text) == "" && next != ""
    ensures var y := PatchedLine(l, text, value) + next; PatchedLine(y, after, value) == y <==> IsFileNewline(next)
  {
    SettingIsOption(l, key);
    ParsedShape(l);
    PatchedLineParts(l, text, key, value);
    var o := ParseOption(l).value;
    assert value + "" == value;
    Regrouped(Head(l), value, next);
    Assoc(o.indent, o.key, o.equals, value + next);
    SwallowedAgain(o.indent, o.key, o.equals, value, next, after);
  }

  lemma ReadIsPlaced(tags: seq<Tag>, key: string)
    requires Read(tags, key).Ok?
    ensures PlaceFor(tags, key).Ok?
  {
  }

  lemma SwallowedPlaced(text: string, key: string, value: string, i: nat)
    requires LineAt(text, key, i) && GoodValue(value) && Swallows(text, i) && !Hidden(Split(text)[i])
    requires IsFileNewline(Split(text)[i + 1])
    ensures PatchOption(text, key, value).Ok? && PlaceFor(Tags(Split(PatchOption(text, key, value).value)), key).Ok?
  {
    ReplaceMerges(text, key, value, i);
    ReadIsPlaced(Tags(Split(PatchOption(text, key, value).value)), key);
  }

  lemma SwallowedTwice(text: string, key: string, value: string, i: nat)
    requires LineAt(text, key, i) && GoodValue(value) && Swallows(text, i) && !Hidden(Split(text)[i])
    ensures PatchOption(text, key, value).Ok?
    ensures var after := PatchOption(text, key, value).value;
            PatchOption(after, key, value) == Ok(after) <==> IsFileNewline(Split(text)[i + 1])
  {
    LineFacts(text, key, i);
    var (l, next) := (Split(text)[i], Split(text)[i + 1]);
    SecondPatch(text, key, value, i);
    var after := PatchOption(text, key, value).value;
    SwallowedLineAgain(l, text, after, key, value, next);
    if IsFileNewline(next) { SwallowedPlaced(text, key, value, i); }
  }

  /** The second patch leaves the text alone: there is no line of the key yet, or its line lands alone,
      or it swallows nothing but an empty line. */
  predicate Settles(text: string, key: string) {
    var lines := Split(text);
    var place := PlaceFor(Tags(lines), key);
    place.Ok? && place.value.ReplaceAt? && place.value.index < |lines| ==>
      var i := place.value.index;
      !Hidden(lines[i]) && (Swallows(text, i) ==> IsFileNewline(lines[i + 1]))
  }

  /** Patching twice is patching once if and only if the line settles. */
  lemma PatchTwice(text: string, key: string, value: string)
    requires ValidKey(key) && GoodValue(value) && PatchOption(text, key, value).Ok?
    ensures var after := PatchOption(text, key, value).value;
            PatchOption(after, key, value) == Ok(after) <==> Settles(text, key)
  {
    var place := PatchPlace(text, key, value);
    match place
    case InsertAt(end) => InsertedTwice(text, key, value, end);
    case ReplaceAt(i) =>
      if Hidden(Split(text)[i]) { HiddenTwice(text, key, value, i); }
      else if Swallows(text, i) { SwallowedTwice(text, key, value, i); }
      else { AloneTwice(text, key, value, i); }
  }
}
