/** What the reader and the patcher look at: section headers, the options section, the lines of one key. */
module ConfigReading {
  import opened Prelude
  import opened TextLines
  import opened ConfigLine
  import opened ConfigRegion

  // ----- Headers -----

  /** Blank, or a comment behind white space. */
  ghost predicate Remark(t: string) {
    exists sp, c :: t == sp + c && AllSpace(sp) && (c == "" || c[0] == '#' || c[0] == ';')
  }

  lemma RemarkIs(t: string)
    ensures CommentOrBlank(t) <==> Remark(t)
  {
    var n := LeadingSpace(t);
    LeadingSpaceFacts(t);
    Cut(t, n);
    if CommentOrBlank(t) { assert t == t[..n] + t[n..] && AllSpace(t[..n]); }
    if Remark(t) {
      var sp, c :| t == sp + c && AllSpace(sp) && (c == "" || c[0] == '#' || c[0] == ';');
      LeadingSpaceOf(sp, c);
      if c != "" { assert t[n] == c[0]; }
    }
  }

  lemma {:induction false} CloseBracketFacts(t: string)
    ensures var n := CloseBracket(t); (forall i | 0 <= i < n :: t[i] != ']') && (n < |t| ==> t[n] == ']')
  {
    if t != "" && t[0] != ']' {
      CloseBracketFacts(t[1..]);
      assert forall i | 1 <= i < CloseBracket(t) :: t[i] == t[1..][i - 1];
    }
  }

  /** White space, a name in brackets, and nothing but a comment behind it. */
  ghost predicate HeaderOf(body: string, name: string, sp: string, rest: string) {
    && body == sp + ("[" + (name + ("]" + rest))) && AllSpace(sp) && Remark(rest)
    && name != "" && forall i | 0 <= i < |name| :: name[i] != ']'
  }

  ghost predicate IsHeader(body: string, name: string) {
    exists sp, rest :: HeaderOf(body, name, sp, rest)
  }

  lemma HeaderIsFound(body: string, name: string, sp: string, rest: string)
    requires HeaderOf(body, name, sp, rest)
    ensures SectionOfBody(body) == Some(name)
  {
    var inner := name + ("]" + rest);
    LeadingSpaceOf(sp, "[" + inner);
    assert body[|sp|] == '[' && body[|sp| + 1..] == inner;
    CloseBracketOf(name, "]" + rest);
    assert inner[|name| + 1..] == rest && inner[..|name|] == name;
    RemarkIs(rest);
  }

  lemma Rejoined(t: string, n: nat, m: nat)
    requires n < |t| && t[n] == '[' && m < |t| - n - 1 && t[n + 1 + m] == ']'
    ensures var inner := t[n + 1..]; t == t[..n] + ("[" + (inner[..m] + ("]" + inner[m + 1..])))
  {
    var inner := t[n + 1..];
    assert inner == inner[..m] + ("]" + inner[m + 1..]);
    assert t == t[..n] + ("[" + inner);
  }

  lemma HeaderIsShaped(body: string, name: string)
    requires SectionOfBody(body) == Some(name)
    ensures IsHeader(body, name)
  {
    var n := LeadingSpace(body);
    LeadingSpaceFacts(body);
    var inner := body[n + 1..];
    var close := CloseBracket(inner);
    CloseBracketFacts(inner);
    RemarkIs(inner[close + 1..]);
    Rejoined(body, n, close);
    NameOf(inner, close);
    assert HeaderOf(body, name, body[..n], inner[close + 1..]);
  }

  lemma NameOf(inner: string, close: nat)
    requires 0 < close <= |inner| && forall i | 0 <= i < close :: inner[i] != ']'
    ensures inner[..close] != "" && forall i | 0 <= i < close :: inner[..close][i] != ']'
  {
  }

  /** A line is a section header exactly when it has that form, its line end aside. */
  lemma SectionExactly(l: string, name: string)
    ensures SectionOf(l) == Some(name) <==> IsHeader(Chomp(l), name)
  {
    if SectionOf(l) == Some(name) { HeaderIsShaped(Chomp(l), name); }
    if IsHeader(Chomp(l), name) {
      var sp, rest :| HeaderOf(Chomp(l), name, sp, rest);
      HeaderIsFound(Chomp(l), name, sp, rest);
    }
  }

  // ----- The options section -----

  /** From behind the first options header to the next header or the end. */
  ghost predicate Section(tags: seq<Tag>, a: nat, b: nat) {
    && 0 < a <= b <= |tags| && tags[a - 1] == Header(true)
    && (forall i | 0 <= i < a - 1 :: tags[i] != Header(true))
    && (forall i | a <= i < b :: !tags[i].Header?)
    && (b == |tags| || tags[b].Header?)
  }

  lemma {:induction false} StartFacts(tags: seq<Tag>)
    ensures OptionsStart(tags).None? ==> forall i | 0 <= i < |tags| :: tags[i] != Header(true)
    ensures OptionsStart(tags).Some? ==> tags[OptionsStart(tags).value - 1] == Header(true)
    ensures OptionsStart(tags).Some? ==> forall i | 0 <= i < OptionsStart(tags).value - 1 :: tags[i] != Header(true)
  {
    if tags != [] && tags[0] != Header(true) {
      StartFacts(tags[1..]);
      var r := OptionsStart(tags[1..]);
      if r.Some? { assert tags[1..][r.value - 1] == tags[r.value]; }
      forall i | 0 < i < |tags| && (r.None? || i < r.value)
        ensures tags[i] != Header(true)
      {
        assert tags[1..][i - 1] == tags[i];
      }
    }
  }

  lemma {:induction false} FreeFacts(tags: seq<Tag>)
    ensures var n := SectionFree(tags);
            (forall i | 0 <= i < n :: !tags[i].Header?) && (n < |tags| ==> tags[n].Header?)
  {
    if tags != [] && !tags[0].Header? {
      FreeFacts(tags[1..]);
      assert forall i | 1 <= i < |tags| :: tags[i] == tags[1..][i - 1];
    }
  }

  lemma BoundsAreSection(tags: seq<Tag>)
    requires Bounds(tags).Some?
    ensures Section(tags, Bounds(tags).value.0, Bounds(tags).value.1)
  {
    StartFacts(tags);
    var s := OptionsStart(tags).value;
    FreeFacts(tags[s..]);
    assert forall i | s <= i < |tags| :: tags[i] == tags[s..][i - s];
  }

  lemma SectionIsUnique(tags: seq<Tag>, a: nat, b: nat, c: nat, d: nat)
    requires Section(tags, a, b) && Section(tags, c, d)
    ensures a == c && b == d
  {
  }

  lemma BoundsExactly(tags: seq<Tag>, a: nat, b: nat)
    ensures Bounds(tags) == Some((a, b)) <==> Section(tags, a, b)
    ensures Bounds(tags).None? <==> forall i | 0 <= i < |tags| :: tags[i] != Header(true)
  {
    StartFacts(tags);
    if Bounds(tags).Some? {
      BoundsAreSection(tags);
      if Section(tags, a, b) { SectionIsUnique(tags, a, b, Bounds(tags).value.0, Bounds(tags).value.1); }
    }
  }

  // ----- The lines of a key -----

  /** Line i of the section is one of the key. */
  predicate KeyLine(region: seq<Tag>, key: string, i: nat) {
    i < |region| && region[i].Setting? && region[i].key == key
  }

  lemma {:induction false} NoKeyLine(region: seq<Tag>, key: string)
    ensures Values(region, key) == [] <==> forall i: nat :: !KeyLine(region, key, i)
  {
    if region != [] {
      NoKeyLine(region[1..], key);
      if !Says(region[0], key) {
        if i: nat :| KeyLine(region[1..], key, i) { assert KeyLine(region, key, i + 1); }
        if i: nat :| KeyLine(region, key, i) { assert i > 0 && KeyLine(region[1..], key, i - 1); }
      } else {
        assert KeyLine(region, key, 0);
      }
    }
  }

  ghost predicate OnlyKeyLine(region: seq<Tag>, key: string, i: nat) {
    KeyLine(region, key, i) && forall j: nat :: KeyLine(region, key, j) ==> j == i
  }

  lemma {:induction false} OneKeyLine(region: seq<Tag>, key: string)
    requires |Values(region, key)| == 1
    ensures FirstMatch(region, key) < |region| && OnlyKeyLine(region, key, FirstMatch(region, key))
    ensures Values(region, key) == [region[FirstMatch(region, key)].value]
  {
    if Says(region[0], key) {
      NoKeyLine(region[1..], key);
      forall j: nat | KeyLine(region, key, j)
        ensures j == 0
      {
        if j > 0 { assert KeyLine(region[1..], key, j - 1); }
      }
    } else {
      OneKeyLine(region[1..], key);
      forall j: nat | KeyLine(region, key, j)
        ensures j == FirstMatch(region, key)
      {
        assert j > 0 && KeyLine(region[1..], key, j - 1);
      }
    }
  }

  lemma {:induction false} TwoKeyLines(region: seq<Tag>, key: string)
    requires |Values(region, key)| > 1
    ensures exists i: nat, j: nat :: i != j && KeyLine(region, key, i) && KeyLine(region, key, j)
  {
    if Says(region[0], key) {
      NoKeyLine(region[1..], key);
      var j: nat :| KeyLine(region[1..], key, j);
      assert KeyLine(region, key, 0) && KeyLine(region, key, j + 1);
    } else {
      TwoKeyLines(region[1..], key);
      var i: nat, j: nat :| i != j && KeyLine(region[1..], key, i) && KeyLine(region[1..], key, j);
      assert KeyLine(region, key, i + 1) && KeyLine(region, key, j + 1);
    }
  }

  /** The reader's answer: the value on the key's only line of the options section, nothing when there is no
      such line, an error when there are two or when there is no options section. */
  lemma ReadExactly(tags: seq<Tag>, key: string, a: nat, b: nat)
    requires Section(tags, a, b)
    ensures Read(tags, key) == Ok(None) <==> forall i: nat :: !KeyLine(tags[a..b], key, i)
    ensures Read(tags, key).Ok? && Read(tags, key).value.Some? <==> exists i: nat :: OnlyKeyLine(tags[a..b], key, i)
    ensures forall i: nat :: OnlyKeyLine(tags[a..b], key, i) ==> Read(tags, key) == Ok(Some(tags[a + i].value))
    ensures Read(tags, key).Err? ==> Read(tags, key) == Err(KeyDuplicate)
  {
    BoundsExactly(tags, a, b);
    var region := tags[a..b];
    NoKeyLine(region, key);
    if |Values(region, key)| == 1 { OneKeyLine(region, key); }
    if |Values(region, key)| > 1 { TwoKeyLines(region, key); }
  }

  /** The patcher's place: over the key's only line, and at the end of the section when there is none. */
  lemma PlaceExactly(tags: seq<Tag>, key: string, a: nat, b: nat, i: nat)
    requires Section(tags, a, b)
    ensures PlaceFor(tags, key) == Ok(ReplaceAt(i)) <==> a <= i && OnlyKeyLine(tags[a..b], key, i - a)
    ensures PlaceFor(tags, key) == Ok(InsertAt(i)) <==> i == b && forall j: nat :: !KeyLine(tags[a..b], key, j)
    ensures PlaceFor(tags, key).Err? ==> PlaceFor(tags, key) == Err(KeyDuplicate)
  {
    BoundsExactly(tags, a, b);
    var region := tags[a..b];
    NoKeyLine(region, key);
    if |Values(region, key)| == 1 { OneKeyLine(region, key); }
    if |Values(region, key)| > 1 { TwoKeyLines(region, key); }
  }

  lemma NoSectionIsMissing(tags: seq<Tag>, key: string)
    requires forall i | 0 <= i < |tags| :: tags[i] != Header(true)
    ensures Read(tags, key) == Err(OptionsMissing) && PlaceFor(tags, key) == Err(OptionsMissing)
  {
    BoundsExactly(tags, 0, 0);
  }
}
