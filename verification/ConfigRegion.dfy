/** The options section of a configuration file, as a list of what each line says. */
module ConfigRegion {
  import opened Prelude

  /** A section header (of the options section or of another), an option, or anything else. */
  datatype Tag = Header(options: bool) | Setting(key: string, value: string) | Other

  datatype ConfigError = OptionsMissing | KeyDuplicate

  /** Index behind the first options header. */
  function OptionsStart(tags: seq<Tag>): (s: Option<nat>)
    ensures s.Some? ==> 0 < s.value <= |tags|
  {
    if tags == [] then None
    else if tags[0] == Header(true) then Some(1)
    else
      var rest := OptionsStart(tags[1..]);
      if rest.None? then None else Some(rest.value + 1)
  }

  /** How many lines come before the next section header. */
  function SectionFree(tags: seq<Tag>): (n: nat)
    ensures n <= |tags|
  {
    if tags == [] || tags[0].Header? then 0 else 1 + SectionFree(tags[1..])
  }

  function Bounds(tags: seq<Tag>): (b: Option<(nat, nat)>)
    ensures b.Some? ==> 0 < b.value.0 <= b.value.1 <= |tags|
  {
    var s := OptionsStart(tags);
    if s.None? then None else Some((s.value, s.value + SectionFree(tags[s.value..])))
  }

  predicate Says(t: Tag, key: string) {
    t.Setting? && t.key == key
  }

  /** The values the lines give to the key. */
  function Values(tags: seq<Tag>, key: string): seq<string> {
    if tags == [] then []
    else (if Says(tags[0], key) then [tags[0].value] else []) + Values(tags[1..], key)
  }

  function Single(found: seq<string>): Result<Option<string>, ConfigError> {
    if |found| > 1 then Err(KeyDuplicate) else if |found| == 1 then Ok(Some(found[0])) else Ok(None)
  }

  function Read(tags: seq<Tag>, key: string): Result<Option<string>, ConfigError> {
    var b := Bounds(tags);
    if b.None? then Err(OptionsMissing) else Single(Values(tags[b.value.0..b.value.1], key))
  }

  /** Index of the first line that gives the key a value. */
  function FirstMatch(tags: seq<Tag>, key: string): (i: nat)
    ensures i <= |tags|
  {
    if tags == [] || Says(tags[0], key) then 0 else 1 + FirstMatch(tags[1..], key)
  }

  // ----- The loops -----

  function Shifted(s: Option<nat>, n: nat): Option<nat> {
    if s.None? then None else Some(n + s.value)
  }

  lemma BoundsStep(tags: seq<Tag>, i: nat)
    requires i < |tags|
    ensures OptionsStart(tags[i..]) == if tags[i] == Header(true) then Some(1) else Shifted(OptionsStart(tags[i + 1..]), 1)
    ensures SectionFree(tags[i..]) == if tags[i].Header? then 0 else 1 + SectionFree(tags[i + 1..])
  {
    assert tags[i..][0] == tags[i] && tags[i..][1..] == tags[i + 1..];
  }

  /** Single pass: remember the first options header, stop at the header after it. */
  method FindBounds(tags: seq<Tag>) returns (bounds: Option<(nat, nat)>)
    ensures bounds == Bounds(tags)
  {
    var start: Option<nat> := None;
    for i := 0 to |tags|
      invariant start.None? ==> OptionsStart(tags) == Shifted(OptionsStart(tags[i..]), i)
      invariant start.Some? ==> OptionsStart(tags) == start && 0 < start.value <= i
      invariant start.Some? ==> SectionFree(tags[start.value..]) == i - start.value + SectionFree(tags[i..])
    {
      BoundsStep(tags, i);
      if tags[i].Header? {
        if start.None? && tags[i].options {
          start := Some(i + 1);
        } else if start.Some? {
          return Some((start.value, i));
        }
      }
    }
    bounds := if start.None? then None else Some((start.value, |tags|));
  }

  lemma MatchStep(tags: seq<Tag>, i: nat, key: string)
    requires i < |tags|
    ensures |Values(tags[..i + 1], key)| == |Values(tags[..i], key)| + if Says(tags[i], key) then 1 else 0
    ensures FirstMatch(tags[i..], key) == if Says(tags[i], key) then 0 else 1 + FirstMatch(tags[i + 1..], key)
  {
    assert tags[..i + 1] == tags[..i] + [tags[i]];
    assert tags[i..][0] == tags[i] && tags[i..][1..] == tags[i + 1..];
    ValuesConcat(tags[..i], [tags[i]], key);
    ValuesOfOne(tags[i], key);
  }

  /** The matching lines of a stretch: how many, and the first. */
  method CollectMatches(tags: seq<Tag>, key: string) returns (count: nat, first: nat)
    ensures count == |Values(tags, key)| && (count > 0 ==> first == FirstMatch(tags, key) < |tags|)
  {
    count, first := 0, 0;
    for i := 0 to |tags|
      invariant count == |Values(tags[..i], key)|
      invariant count == 0 ==> FirstMatch(tags, key) == i + FirstMatch(tags[i..], key)
      invariant count > 0 ==> first == FirstMatch(tags, key) < |tags|
    {
      MatchStep(tags, i, key);
      if Says(tags[i], key) {
        if count == 0 { first := i; }
        count := count + 1;
      }
    }
    assert tags[..|tags|] == tags;
  }

  /** Where a patch goes: over the key's only line, or in as a new line. */
  datatype Place = ReplaceAt(index: nat) | InsertAt(index: nat)

  function PlaceIn(region: seq<Tag>, start: nat, key: string): (p: Result<Place, ConfigError>)
    ensures p.Ok? && p.value.ReplaceAt? ==> start <= p.value.index < start + |region|
    ensures p.Ok? && p.value.InsertAt? ==> p.value.index == start + |region|
  {
    var found := |Values(region, key)|;
    if found > 1 then Err(KeyDuplicate)
    else if found == 1 && FirstMatch(region, key) < |region| then Ok(ReplaceAt(start + FirstMatch(region, key)))
    else Ok(InsertAt(start + |region|))
  }

  function PlaceFor(tags: seq<Tag>, key: string): (p: Result<Place, ConfigError>)
    ensures p.Ok? && p.value.ReplaceAt? ==> p.value.index < |tags|
    ensures p.Ok? && p.value.InsertAt? ==> 0 < p.value.index <= |tags|
  {
    var b := Bounds(tags);
    if b.None? then Err(OptionsMissing) else PlaceIn(tags[b.value.0..b.value.1], b.value.0, key)
  }

  method FindPlace(tags: seq<Tag>, key: string) returns (place: Result<Place, ConfigError>)
    ensures place == PlaceFor(tags, key)
  {
    var bounds := FindBounds(tags);
    if bounds.None? { return Err(OptionsMissing); }
    var (start, end) := bounds.value;
    var count, first := CollectMatches(tags[start..end], key);
    if count > 1 { return Err(KeyDuplicate); }
    place := Ok(if count == 1 then ReplaceAt(start + first) else InsertAt(end));
  }

  // ----- Values -----

  lemma {:induction false} ValuesConcat(a: seq<Tag>, b: seq<Tag>, key: string)
    ensures Values(a + b, key) == Values(a, key) + Values(b, key)
  {
    if a == [] {
      assert a + b == b;
    } else {
      assert (a + b)[1..] == a[1..] + b;
      ValuesConcat(a[1..], b, key);
    }
  }

  lemma ValuesOfOne(t: Tag, key: string)
    ensures Values([t], key) == if Says(t, key) then [t.value] else []
  {
  }

  lemma ValuesAround(a: seq<Tag>, t: Tag, b: seq<Tag>, key: string)
    ensures Values(a + [t] + b, key) == Values(a, key) + Values([t], key) + Values(b, key)
  {
    ValuesConcat(a + [t], b, key);
    ValuesConcat(a, [t], key);
  }

  /** A unique match and the silent lines around it. */
  lemma {:induction false} MatchSplits(tags: seq<Tag>, key: string) returns (a: seq<Tag>, t: Tag, b: seq<Tag>)
    requires |Values(tags, key)| == 1
    ensures tags == a + [t] + b && |a| == FirstMatch(tags, key) && Says(t, key)
    ensures Values(a, key) == [] && Values(b, key) == []
  {
    if Says(tags[0], key) {
      a, t, b := [], tags[0], tags[1..];
    } else {
      var rest: seq<Tag>;
      rest, t, b := MatchSplits(tags[1..], key);
      a := [tags[0]] + rest;
      assert a[1..] == rest;
    }
  }

  // ----- Bounds -----

  ghost predicate NoHeaders(tags: seq<Tag>) {
    forall i | 0 <= i < |tags| :: !tags[i].Header?
  }

  lemma {:induction false} OptionsStartOfPrefix(tags: seq<Tag>, more: seq<Tag>)
    requires OptionsStart(tags).Some?
    ensures var s := OptionsStart(tags).value; OptionsStart(tags[..s] + more) == Some(s)
  {
    var s := OptionsStart(tags).value;
    var l := tags[..s] + more;
    assert l[0] == tags[0];
    if tags[0] != Header(true) {
      OptionsStartOfPrefix(tags[1..], more);
      assert l[1..] == tags[1..][..s - 1] + more;
    }
  }

  lemma {:induction false} SectionFreeOf(a: seq<Tag>, b: seq<Tag>)
    requires NoHeaders(a)
    ensures SectionFree(a + b) == |a| + SectionFree(b)
  {
    if a == [] {
      assert a + b == b;
    } else {
      assert (a + b)[1..] == a[1..] + b;
      SectionFreeOf(a[1..], b);
    }
  }

  /** The tags are `pre`, the options region and `post`. */
  ghost predicate Layout(pre: seq<Tag>, region: seq<Tag>, post: seq<Tag>) {
    NoHeaders(region) && Bounds(pre + (region + post)) == Some((|pre|, |pre| + |region|))
  }

  lemma {:induction false} SectionFreeFacts(tags: seq<Tag>)
    ensures NoHeaders(tags[..SectionFree(tags)])
  {
    if tags != [] && !tags[0].Header? {
      SectionFreeFacts(tags[1..]);
      assert tags[..SectionFree(tags)] == [tags[0]] + tags[1..][..SectionFree(tags[1..])];
    }
  }

  lemma LayoutOf(tags: seq<Tag>)
    requires Bounds(tags).Some?
    ensures var (s, e) := Bounds(tags).value;
            tags == tags[..s] + (tags[s..e] + tags[e..]) && Layout(tags[..s], tags[s..e], tags[e..])
  {
    var (s, e) := Bounds(tags).value;
    assert tags == tags[..s] + (tags[s..e] + tags[e..]);
    SectionFreeFacts(tags[s..]);
    assert tags[s..e] == tags[s..][..e - s];
  }

  lemma {:induction false} SectionFreeTail(tags: seq<Tag>)
    ensures SectionFree(tags[SectionFree(tags)..]) == 0
  {
    if tags != [] && !tags[0].Header? {
      assert tags[SectionFree(tags)..] == tags[1..][SectionFree(tags[1..])..];
      SectionFreeTail(tags[1..]);
    }
  }

  /** Any lines without headers may stand in the region, in front of anything that starts with a
      header. */
  lemma LayoutSplice(pre: seq<Tag>, region: seq<Tag>, post: seq<Tag>, now: seq<Tag>, tail: seq<Tag>)
    requires Layout(pre, region, post) && NoHeaders(now) && SectionFree(tail) == 0
    ensures Layout(pre, now, tail)
  {
    var (tags, after) := (pre + (region + post), pre + (now + tail));
    assert tags[..|pre|] == pre && after[|pre|..] == now + tail;
    OptionsStartOfPrefix(tags, now + tail);
    SectionFreeOf(now, tail);
  }

  lemma LayoutPost(pre: seq<Tag>, region: seq<Tag>, post: seq<Tag>)
    requires Layout(pre, region, post)
    ensures SectionFree(post) == 0
  {
    assert (pre + (region + post))[|pre|..] == region + post;
    SectionFreeOf(region, post);
  }

  lemma ReadLayout(pre: seq<Tag>, region: seq<Tag>, post: seq<Tag>, key: string)
    requires Layout(pre, region, post)
    ensures Read(pre + (region + post), key) == Single(Values(region, key))
  {
    MiddleOf(pre, region, post);
  }

  lemma {:induction false} SilentLines(tags: seq<Tag>, key: string)
    requires forall i | 0 <= i < |tags| :: tags[i].Other?
    ensures Values(tags, key) == []
  {
    if tags != [] { SilentLines(tags[1..], key); }
  }

  ghost predicate Silent(tags: seq<Tag>) {
    forall i | 0 <= i < |tags| :: tags[i].Other?
  }

  lemma ReplacedValues(a: seq<Tag>, was: Tag, silent: seq<Tag>, b: seq<Tag>, now: Tag, key: string)
    requires Silent(silent)
    ensures Values(a + [was] + (silent + b), key) == Values(a, key) + Values([was], key) + Values(b, key)
    ensures Values(a + [now] + b, key) == Values(a, key) + Values([now], key) + Values(b, key)
  {
    ValuesAround(a, now, b, key);
    ValuesAround(a, was, silent + b, key);
    ValuesConcat(silent, b, key);
    SilentLines(silent, key);
  }

  /** The one line of `key` is replaced and may swallow silent lines behind it: `key` has the new
      value, every other key is read as before. */
  lemma ReadReplaced(pre: seq<Tag>, a: seq<Tag>, was: Tag, silent: seq<Tag>, b: seq<Tag>, post: seq<Tag>, now: Tag,
                     key: string, other: string)
    requires Layout(pre, a + [was] + (silent + b), post) && Silent(silent)
    requires Values(a, key) == [] && Values(b, key) == [] && Says(was, key) && Says(now, key)
    ensures Layout(pre, a + [now] + b, post)
    ensures Read(pre + (a + [now] + b + post), key) == Ok(Some(now.value))
    ensures other != key ==>
              Read(pre + (a + [now] + b + post), other) == Read(pre + (a + [was] + (silent + b) + post), other)
  {
    var (before, after) := (a + [was] + (silent + b), a + [now] + b);
    assert NoHeaders(after) by { PartsWithoutHeaders(a, was, silent, b); }
    LayoutPost(pre, before, post);
    LayoutSplice(pre, before, post, after, post);
    ReadLayout(pre, after, post, key);
    ReadLayout(pre, after, post, other);
    ReadLayout(pre, before, post, other);
    ReplacedValues(a, was, silent, b, now, key);
    ReplacedValues(a, was, silent, b, now, other);
    ValuesOfOne(now, key);
  }

  lemma PartsWithoutHeaders(a: seq<Tag>, t: Tag, silent: seq<Tag>, b: seq<Tag>)
    requires NoHeaders(a + [t] + (silent + b))
    ensures NoHeaders(a) && !t.Header? && NoHeaders(b)
  {
    var all := a + [t] + (silent + b);
    assert all[|a|] == t;
    assert forall i | 0 <= i < |a| :: all[i] == a[i];
    assert forall i | 0 <= i < |b| :: all[|a| + 1 + |silent| + i] == b[i];
  }

  /** `key` has no line; one is put at the end of the region, behind silent lines. */
  lemma ReadInserted(pre: seq<Tag>, region: seq<Tag>, silent: seq<Tag>, post: seq<Tag>, now: Tag, key: string, other: string)
    requires Layout(pre, region, post) && Silent(silent) && Values(region, key) == [] && Says(now, key)
    ensures Layout(pre, region + (silent + [now]), post)
    ensures Read(pre + (region + (silent + [now]) + post), key) == Ok(Some(now.value))
    ensures other != key ==> Read(pre + (region + (silent + [now]) + post), other) == Read(pre + (region + post), other)
  {
    var after := region + (silent + [now]);
    LayoutPost(pre, region, post);
    LayoutSplice(pre, region, post, after, post);
    ReadLayout(pre, after, post, key);
    ReadLayout(pre, after, post, other);
    ReadLayout(pre, region, post, other);
    SilentLines(silent, key);
    SilentLines(silent, other);
    ValuesConcat(region, silent + [now], key);
    ValuesConcat(region, silent + [now], other);
    ValuesConcat(silent, [now], key);
    ValuesConcat(silent, [now], other);
  }

  lemma NoHeadersThrough(a: seq<Tag>, more: seq<Tag>, t: Tag, rest: seq<Tag>)
    requires NoHeaders(a + more) && !t.Header?
    ensures NoHeaders(a + [t] + rest[..SectionFree(rest)])
  {
    SectionFreeFacts(rest);
    assert forall i | 0 <= i < |a| :: (a + more)[i] == a[i];
  }

  /** Whatever follows, the first line that speaks of the key decides what can be read. */
  lemma ReadThrough(pre: seq<Tag>, a: seq<Tag>, more: seq<Tag>, post: seq<Tag>, t: Tag, rest: seq<Tag>,
                    key: string, value: string)
    requires Layout(pre, a + more, post) && Values(a, key) == [] && Says(t, key) && t.value != value
    ensures Read(pre + (a + [t] + rest), key) != Ok(Some(value))
  {
    var n := SectionFree(rest);
    var region := a + [t] + rest[..n];
    NoHeadersThrough(a, more, t, rest);
    SectionFreeTail(rest);
    LayoutSplice(pre, a + more, post, region, rest[n..]);
    assert a + [t] + rest == region + rest[n..];
    ReadLayout(pre, region, rest[n..], key);
    ValuesAround(a, t, rest[..n], key);
    ValuesOfOne(t, key);
  }

  lemma {:induction false} FirstMatchOf(a: seq<Tag>, t: Tag, b: seq<Tag>, key: string)
    requires Values(a, key) == [] && Says(t, key)
    ensures FirstMatch(a + [t] + b, key) == |a|
  {
    if a == [] {
      assert a + [t] + b == [t] + b;
    } else {
      assert (a + [t] + b)[1..] == a[1..] + [t] + b;
      FirstMatchOf(a[1..], t, b, key);
    }
  }

  // ----- Cutting and joining sequences -----

  lemma MiddleOf<T>(pre: seq<T>, region: seq<T>, post: seq<T>)
    ensures (pre + (region + post))[|pre|..|pre| + |region|] == region
  {
  }

  lemma CutAround<T>(pre: seq<T>, a: seq<T>, t: T, b: seq<T>, post: seq<T>)
    ensures var tags := pre + (a + [t] + b + post);
            var i := |pre| + |a|;
            i < |tags| && tags[..i] == pre + a && tags[i] == t && tags[i + 1..] == b + post
  {
  }

  lemma UpdateAround<T>(pre: seq<T>, a: seq<T>, t: T, b: seq<T>, post: seq<T>, now: T)
    ensures (pre + (a + [t] + b + post))[|pre| + |a| := now] == pre + (a + [now] + b + post)
  {
  }

  lemma Regroup<T>(pre: seq<T>, a: seq<T>, t: T, b: seq<T>, post: seq<T>)
    ensures pre + a + [t] + (b + post) == pre + (a + [t] + b + post)
    ensures pre + a + [t] + post == pre + (a + [t] + post)
    ensures a + [t] + b == a + ([t] + b)
  {
  }

  lemma InsertAround<T>(pre: seq<T>, region: seq<T>, post: seq<T>, silent: seq<T>, now: T)
    ensures var (tags, e) := (pre + (region + post), |pre| + |region|);
            tags[..e] + (silent + [now]) + tags[e..] == pre + (region + (silent + [now]) + post)
    ensures region + (silent + [now]) == region + silent + [now] + []
  {
    var (tags, e) := (pre + (region + post), |pre| + |region|);
    assert tags[..e] == pre + region && tags[e..] == post;
  }

  // ----- Reading after a patch -----

  lemma OneValue(a: seq<Tag>, t: Tag, b: seq<Tag>, key: string)
    requires Values(a, key) == [] && Values(b, key) == [] && Says(t, key)
    ensures |Values(a + [t] + b, key)| == 1
  {
    ValuesAround(a, t, b, key);
    ValuesOfOne(t, key);
  }

  lemma PlaceOfSingle(pre: seq<Tag>, region: seq<Tag>, a: seq<Tag>, key: string)
    requires |Values(region, key)| == 1 && FirstMatch(region, key) == |a|
    ensures PlaceIn(region, |pre|, key) == Ok(ReplaceAt(|pre| + |a|))
  {
    var front, t, b := MatchSplits(region, key);
  }

  lemma PlaceInMiddle(pre: seq<Tag>, a: seq<Tag>, t: Tag, b: seq<Tag>, key: string)
    requires Values(a, key) == [] && Values(b, key) == [] && Says(t, key)
    ensures PlaceIn(a + [t] + b, |pre|, key) == Ok(ReplaceAt(|pre| + |a|))
  {
    FirstMatchOf(a, t, b, key);
    OneValue(a, t, b, key);
    PlaceOfSingle(pre, a + [t] + b, a, key);
  }

  lemma PlaceOfLayout(pre: seq<Tag>, region: seq<Tag>, post: seq<Tag>, key: string)
    requires Layout(pre, region, post)
    ensures PlaceFor(pre + (region + post), key) == PlaceIn(region, |pre|, key)
  {
    MiddleOf(pre, region, post);
  }

  lemma ReplaceParts(tags: seq<Tag>, key: string, i: nat)
    returns (pre: seq<Tag>, a: seq<Tag>, t: Tag, b: seq<Tag>, post: seq<Tag>)
    requires PlaceFor(tags, key) == Ok(ReplaceAt(i))
    ensures Layout(pre, a + [t] + b, post) && Values(a, key) == [] && Values(b, key) == [] && Says(t, key)
    ensures tags == pre + (a + [t] + b + post) && |pre| + |a| == i < |tags|
  {
    var (s, e) := Bounds(tags).value;
    LayoutOf(tags);
    pre, post := tags[..s], tags[e..];
    a, t, b := MatchSplits(tags[s..e], key);
  }

  lemma ReplacedParts(pre: seq<Tag>, a: seq<Tag>, t: Tag, b: seq<Tag>, post: seq<Tag>, now: Tag, key: string, other: string)
    requires Layout(pre, a + [t] + b, post) && Values(a, key) == [] && Values(b, key) == []
    requires Says(t, key) && Says(now, key)
    ensures var (before, after) := (pre + (a + [t] + b + post), pre + (a + [now] + b + post));
            && Read(after, key) == Ok(Some(now.value))
            && (other != key ==> Read(after, other) == Read(before, other))
            && PlaceFor(after, key) == Ok(ReplaceAt(|pre| + |a|))
  {
    assert [] + b == b;
    ReadReplaced(pre, a, t, [], b, post, now, key, other);
    PlaceOfLayout(pre, a + [now] + b, post, key);
    PlaceInMiddle(pre, a, now, b, key);
  }

  /** The key's one line says something else: it is read, everything else is read as before, and the
      next patch finds the same place. */
  lemma ReplacedIsRead(tags: seq<Tag>, key: string, i: nat, now: Tag, other: string)
    requires PlaceFor(tags, key) == Ok(ReplaceAt(i)) && Says(now, key)
    ensures Read(tags[i := now], key) == Ok(Some(now.value))
    ensures other != key ==> Read(tags[i := now], other) == Read(tags, other)
    ensures PlaceFor(tags[i := now], key) == Ok(ReplaceAt(i))
  {
    var pre, a, t, b, post := ReplaceParts(tags, key, i);
    ReplacedParts(pre, a, t, b, post, now, key, other);
    UpdateAround(pre, a, t, b, post, now);
  }

  /** A silent tag behind the region's part `b` and `post` is the head of b. */
  lemma SilentNext(b: seq<Tag>, post: seq<Tag>)
    requires SectionFree(post) == 0 && b + post != [] && (b + post)[0].Other?
    ensures b != [] && b[0].Other? && b == [b[0]] + b[1..] && (b + post)[1..] == b[1..] + post
  {
    NothingInFront(b, post);
  }

  lemma NothingInFront(b: seq<Tag>, post: seq<Tag>)
    ensures b == [] ==> b + post == post
  {
  }

  lemma MergedParts(pre: seq<Tag>, a: seq<Tag>, t: Tag, silent: seq<Tag>, rest: seq<Tag>, post: seq<Tag>, now: Tag, key: string)
    requires Layout(pre, a + [t] + (silent + rest), post) && Silent(silent)
    requires Values(a, key) == [] && Values(silent + rest, key) == [] && Says(t, key) && Says(now, key)
    ensures Read(pre + (a + [now] + rest + post), key) == Ok(Some(now.value))
  {
    ValuesConcat(silent, rest, key);
    ReadReplaced(pre, a, t, silent, rest, post, now, key, key);
  }

  lemma MergedRest(pre: seq<Tag>, a: seq<Tag>, t: Tag, b: seq<Tag>, post: seq<Tag>, now: Tag, key: string)
    requires Layout(pre, a + [t] + b, post) && Values(a, key) == [] && Values(b, key) == [] && Says(t, key)
    requires Says(now, key) && b + post != [] && (b + post)[0].Other?
    ensures Read(pre + a + [now] + (b + post)[1..], key) == Ok(Some(now.value))
  {
    LayoutPost(pre, a + [t] + b, post);
    SilentNext(b, post);
    MergedParts(pre, a, t, [b[0]], b[1..], post, now, key);
    Regroup(pre, a, now, b[1..], post);
  }

  /** The tags in front of the key's line and behind it. */
  lemma CutParts(tags: seq<Tag>, key: string, i: nat)
    returns (pre: seq<Tag>, a: seq<Tag>, t: Tag, b: seq<Tag>, post: seq<Tag>)
    requires PlaceFor(tags, key) == Ok(ReplaceAt(i))
    ensures Layout(pre, a + [t] + b, post) && Values(a, key) == [] && Values(b, key) == [] && Says(t, key)
    ensures i < |tags| && tags[..i] == pre + a && tags[i + 1..] == b + post
  {
    pre, a, t, b, post := ReplaceParts(tags, key, i);
    CutAround(pre, a, t, b, post);
  }

  lemma FirstOf<T>(s: seq<T>, i: nat)
    requires i < |s|
    ensures s[i..] != [] && s[i..][0] == s[i]
  {
  }

  /** The same when the line swallows a blank line behind it. */
  lemma MergedIsRead(tags: seq<Tag>, key: string, i: nat, now: Tag)
    requires PlaceFor(tags, key) == Ok(ReplaceAt(i)) && Says(now, key) && i + 1 < |tags| && tags[i + 1].Other?
    ensures Read(tags[..i] + [now] + tags[i + 1..][1..], key) == Ok(Some(now.value))
  {
    var pre, a, t, b, post := CutParts(tags, key, i);
    FirstOf(tags, i + 1);
    MergedRest(pre, a, t, b, post, now, key);
  }

  lemma MergedOrHidden(tags: seq<Tag>, key: string, i: nat, now: Tag, value: string, blank: bool)
    requires PlaceFor(tags, key) == Ok(ReplaceAt(i)) && Says(now, key) && i + 1 < |tags|
    requires if blank then tags[i + 1].Other? && now.value == value else now.value != value
    ensures Read(tags[..i] + [now] + tags[i + 1..][1..], key) == Ok(Some(value)) <==> blank
  {
    if blank { MergedIsRead(tags, key, i, now); } else { ThroughIsRead(tags, key, i, now, tags[i + 1..][1..], value); }
  }

  /** A first line for the key that says something else hides whatever follows. */
  lemma ThroughIsRead(tags: seq<Tag>, key: string, i: nat, now: Tag, rest: seq<Tag>, value: string)
    requires PlaceFor(tags, key) == Ok(ReplaceAt(i)) && Says(now, key) && now.value != value
    ensures Read(tags[..i] + [now] + rest, key) != Ok(Some(value))
  {
    var pre, a, t, b, post := ReplaceParts(tags, key, i);
    CutAround(pre, a, t, b, post);
    Regroup(pre, a, t, b, post);
    ReadThrough(pre, a, [t] + b, post, now, rest, key, value);
    Regroup(pre, a, now, b, rest);
  }

  lemma InsertParts(tags: seq<Tag>, key: string, end: nat) returns (pre: seq<Tag>, region: seq<Tag>, post: seq<Tag>)
    requires PlaceFor(tags, key) == Ok(InsertAt(end))
    ensures Layout(pre, region, post) && Values(region, key) == []
    ensures tags == pre + (region + post) && end == |pre| + |region|
  {
    var (s, e) := Bounds(tags).value;
    LayoutOf(tags);
    NoMatchNoValues(tags[s..e], key);
    pre, region, post := tags[..s], tags[s..e], tags[e..];
  }

  /** A new line for a key that had none. */
  lemma InsertedIsRead(tags: seq<Tag>, key: string, end: nat, silent: seq<Tag>, now: Tag, other: string)
    requires PlaceFor(tags, key) == Ok(InsertAt(end)) && Silent(silent) && Says(now, key)
    ensures var after := tags[..end] + (silent + [now]) + tags[end..];
            && Read(after, key) == Ok(Some(now.value))
            && (other != key ==> Read(after, other) == Read(tags, other))
            && PlaceFor(after, key) == Ok(ReplaceAt(end + |silent|))
  {
    var pre, region, post := InsertParts(tags, key, end);
    InsertAround(pre, region, post, silent, now);
    ReadInserted(pre, region, silent, post, now, key, other);
    InsertedPlace(pre, region, post, silent, now, key);
  }

  lemma SilentBehind(region: seq<Tag>, silent: seq<Tag>, key: string)
    requires Values(region, key) == [] && Silent(silent)
    ensures Values(region + silent, key) == []
  {
    ValuesConcat(region, silent, key);
    SilentLines(silent, key);
  }

  lemma InsertedPlace(pre: seq<Tag>, region: seq<Tag>, post: seq<Tag>, silent: seq<Tag>, now: Tag, key: string)
    requires Layout(pre, region + (silent + [now]), post) && Values(region, key) == [] && Silent(silent) && Says(now, key)
    ensures PlaceFor(pre + (region + (silent + [now]) + post), key) == Ok(ReplaceAt(|pre| + |region + silent|))
  {
    InsertAround(pre, region, post, silent, now);
    PlaceOfLayout(pre, region + (silent + [now]), post, key);
    SilentBehind(region, silent, key);
    PlaceInMiddle(pre, region + silent, now, [], key);
  }

  lemma {:induction false} NoMatchNoValues(tags: seq<Tag>, key: string)
    ensures FirstMatch(tags, key) == |tags| <==> Values(tags, key) == []
  {
    if tags != [] { NoMatchNoValues(tags[1..], key); }
  }

  // ----- Tagging a list of lines -----

  function MapTags(lines: seq<string>, tag: string -> Tag): seq<Tag> {
    seq(|lines|, i requires 0 <= i < |lines| => tag(lines[i]))
  }

  lemma MapUpdate(lines: seq<string>, i: nat, x: string, tag: string -> Tag)
    requires i < |lines|
    ensures MapTags(lines[i := x], tag) == MapTags(lines, tag)[i := tag(x)]
  {
  }

  lemma MapMerged(lines: seq<string>, i: nat, y: string, tag: string -> Tag)
    requires i + 1 < |lines|
    ensures var tags := MapTags(lines, tag);
            && MapTags(lines[..i] + ([y] + lines[i + 1..][1..]), tag) == tags[..i] + [tag(y)] + tags[i + 1..][1..]
            && tags[i + 1] == tag(lines[i + 1])
  {
  }

  lemma MapContinued(lines: seq<string>, i: nat, y: string, tail: seq<string>, tag: string -> Tag)
    requires i < |lines|
    ensures MapTags(lines[..i] + ([y] + tail), tag) == MapTags(lines, tag)[..i] + [tag(y)] + MapTags(tail, tag)
  {
  }

  lemma MapInserted(lines: seq<string>, end: nat, silent: seq<string>, x: string, tag: string -> Tag)
    requires end <= |lines|
    ensures MapTags(lines[..end] + (silent + [x]) + lines[end..], tag)
         == MapTags(lines, tag)[..end] + (MapTags(silent, tag) + [tag(x)]) + MapTags(lines, tag)[end..]
  {
  }
}
