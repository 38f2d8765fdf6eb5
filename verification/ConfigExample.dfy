/** Concrete files on which a patch does not do what it is asked to. */
module ConfigExample {
  import opened Prelude
  import opened TextLines
  import opened ConfigLine
  import opened ConfigRegion
  import opened ConfigPatch
  import opened ConfigText
  import opened ConfigReadBack
  import opened ConfigChanges

  function HeaderBody(name: string): string {
    "[" + (name + "]")
  }

  function BlankBody(key: string): string {
    key + " = "
  }

  /** "[options]" and "key = ", each ended by a line feed. */
  function BlankFile(name: string, key: string): string {
    (HeaderBody(name) + "\n") + (BlankBody(key) + "\n")
  }

  // ----- The header -----

  lemma HeaderSection(name: string)
    requires name != "" && forall i | 0 <= i < |name| :: name[i] != ']'
    ensures SectionOfBody(HeaderBody(name)) == Some(name)
  {
    var body := HeaderBody(name);
    assert body[1..] == name + "]";
    CloseBracketOf(name, "]");
    CutConcat(name, "]");
    assert (name + "]")[|name| + 1..] == "";
  }

  /** A header text that names the options section. */
  predicate OptionsTitle(name: string) {
    NoBreak(name) && Trimmed(name) && LowerAll(name) == "options" && forall i | 0 <= i < |name| :: name[i] != ']'
  }

  lemma HeaderTag(name: string)
    requires OptionsTitle(name)
    ensures TagOf(HeaderBody(name) + "\n") == Header(true)
  {
    HeaderSection(name);
    var body := HeaderBody(name);
    assert body[|body| - 1] == ']';
    ChompAppended(body, "\n");
    StripKeeps(name);
  }

  lemma OptionsName()
    ensures OptionsTitle("options")
  {
  }

  // ----- The blank line -----

  lemma BlankEquals()
    ensures EqualsShape(" = \n")
  {
    var t := " = \n";
    assert t[1..] == "= \n" && t[2..] == " \n" && " \n"[1..] == "\n" && "\n"[1..] == "";
    assert LeadingSpace("\n") == 1 && LeadingSpace(" \n") == 2 && LeadingSpace("= \n") == 0 && LeadingSpace(t) == 1;
  }

  lemma BlankTagged(key: string)
    requires ValidKey(key)
    ensures TagOf(BlankBody(key) + "\n") == Setting(key, "") && Hidden(BlankBody(key) + "\n")
  {
    var l := BlankBody(key) + "\n";
    assert l == "" + (key + (" = \n" + ""));
    BlankEquals();
    ParseParts("", key, " = \n", "");
    TagOfParsed(l, ParseValue("", key, " = \n", ""));
  }

  // ----- The file -----

  lemma TwoLines(a: string, b: string)
    requires NoBreak(a) && NoBreak(b)
    ensures Split((a + "\n") + (b + "\n")) == [a + "\n", b + "\n"]
  {
    LineOf(a, "\n");
    LineOf(b, "\n");
    SplitFirst(a + "\n", b + "\n");
    SplitOne(b + "\n");
  }

  lemma FilePlace(key: string)
    ensures PlaceFor([Header(true), Setting(key, "")], key) == Ok(ReplaceAt(1))
  {
    var tags := [Header(true), Setting(key, "")];
    assert tags[1..] == [Setting(key, "")] && tags[1..][1..] == [];
    assert SectionFree(tags[1..]) == 1 && tags[1..2] == [Setting(key, "")];
    ValuesOfOne(Setting(key, ""), key);
  }

  lemma FileLines(name: string, key: string)
    requires ValidKey(key) && NoBreak(name)
    ensures Split(BlankFile(name, key)) == [HeaderBody(name) + "\n", BlankBody(key) + "\n"]
  {
    KeyNoBreak(key);
    NoBreakConcat(key, " = ");
    NoBreakConcat(name, "]");
    NoBreakConcat("[", name + "]");
    TwoLines(HeaderBody(name), BlankBody(key));
  }

  /** Patching the key writes the value onto the next line, where the reader does not see it. */
  lemma BlankValueIsLost(key: string, value: string)
    requires ValidKey(key) && GoodValue(value)
    ensures var text := BlankFile("options", key);
            && PatchOption(text, key, value).Ok?
            && ReadOption(PatchOption(text, key, value).value, key) != Ok(Some(value))
  {
    OptionsName();
    BlankFileHides("options", key, value);
  }

  lemma BlankFileHides(name: string, key: string, value: string)
    requires ValidKey(key) && GoodValue(value) && OptionsTitle(name)
    ensures var text := BlankFile(name, key);
            && PatchOption(text, key, value).Ok?
            && ReadOption(PatchOption(text, key, value).value, key) != Ok(Some(value))
  {
    var text := BlankFile(name, key);
    FileLines(name, key);
    HeaderTag(name);
    BlankTagged(key);
    FilePlace(key);
    MapTwo(HeaderBody(name) + "\n", BlankBody(key) + "\n", TagOf);
    ReplaceHidden(text, key, value, 1);
  }

  lemma MapTwo(a: string, b: string, tag: string -> Tag)
    ensures MapTags([a, b], tag) == [tag(a), tag(b)]
  {
  }

  lemma MapThree(a: string, b: string, c: string, tag: string -> Tag)
    ensures MapTags([a, b, c], tag) == [tag(a), tag(b), tag(c)]
  {
  }

  // ----- "key = " once more: every patch adds a line -----

  lemma BlankFilePlace(name: string, key: string)
    requires ValidKey(key) && OptionsTitle(name)
    ensures Split(BlankFile(name, key)) == [HeaderBody(name) + "\n", BlankBody(key) + "\n"]
    ensures Tags(Split(BlankFile(name, key))) == [Header(true), Setting(key, "")]
    ensures LineAt(BlankFile(name, key), key, 1) && Hidden(BlankBody(key) + "\n")
  {
    FileLines(name, key);
    HeaderTag(name);
    BlankTagged(key);
    FilePlace(key);
    MapTwo(HeaderBody(name) + "\n", BlankBody(key) + "\n", TagOf);
  }

  lemma BlankIsLine(key: string)
    requires ValidKey(key)
    ensures IsLine(BlankBody(key) + "\n")
  {
    KeyNoBreak(key);
    NoBreakConcat(key, " = ");
    LineOf(BlankBody(key), "\n");
  }

  lemma BlankPatched(key: string, text: string, value: string)
    requires ValidKey(key) && GoodValue(value) && EndsWithLineFeed(text)
    ensures PatchedLine(BlankBody(key) + "\n", text, value) == (BlankBody(key) + "\n") + (value + "\n")
    ensures NewNewline(BlankBody(key) + "\n", text) == "\n"
  {
    BlankIsLine(key);
    BlankTagged(key);
    HiddenPatched(BlankBody(key) + "\n", text, key, value);
  }

  lemma LastChar(a: string, b: string)
    requires b != "" && b[|b| - 1] == '\n'
    ensures EndsWithLineFeed(a + b)
  {
  }

  lemma JoinTwo(a: string, b: string)
    ensures Join([a, b]) == a + b
  {
    JoinAppended([a], b);
    JoinAppended([], a);
    assert [] + [a] == [a] && [a] + [b] == [a, b] && Join([]) + a == a;
  }

  lemma JoinThree(a: string, b: string, c: string)
    ensures Join([a, b, c]) == (a + b) + c
  {
    JoinTwo(a, b);
    JoinAppended([a, b], c);
    assert [a, b] + [c] == [a, b, c];
  }

  lemma FirstBlankPatch(name: string, key: string, value: string)
    requires ValidKey(key) && GoodValue(value) && OptionsTitle(name)
    ensures PatchOption(BlankFile(name, key), key, value) == Ok(BlankFile(name, key) + (value + "\n"))
    ensures Split(BlankFile(name, key) + (value + "\n")) == [HeaderBody(name) + "\n", BlankBody(key) + "\n", value + "\n"]
  {
    var (h, l, v) := (HeaderBody(name) + "\n", BlankBody(key) + "\n", value + "\n");
    BlankFilePlace(name, key);
    LastChar(h, l);
    PatchIs(BlankFile(name, key), key, value, 1);
    BlankPatched(key, BlankFile(name, key), value);
    assert [h, l][1 := l + v] == [h, l + v];
    JoinTwo(h, l + v);
    Regrouped(h, l, v);
    ReplacedLines(BlankFile(name, key), key, value, 1);
    BlankLinesAfter(name, key, value);
  }

  lemma BlankLinesAfter(name: string, key: string, value: string)
    requires ValidKey(key) && GoodValue(value) && OptionsTitle(name)
    ensures |Split(BlankFile(name, key))| == 2
    ensures LinesAfter(BlankFile(name, key), 1, value) == [HeaderBody(name) + "\n", BlankBody(key) + "\n", value + "\n"]
  {
    BlankFilePlace(name, key);
    LastChar(HeaderBody(name) + "\n", BlankBody(key) + "\n");
    BlankPatched(key, BlankFile(name, key), value);
  }

  /** A value that is a single word is neither a header nor an option. */
  lemma WordTag(word: string)
    requires ValidKey(word)
    ensures TagOf(word + "\n") == Other && GoodValue(word)
  {
    ChompAppended(word, "\n");
    assert Chomp(word) == word && LeadingSpace(word) == 0;
    KeyLengthOf(word, "\n");
    CutConcat(word, "\n");
    assert LeadingSpace("\n") == 1 by { assert "\n"[1..] == ""; }
    var l := word + "\n";
    assert l[0] == word[0] && LeadingSpace(l) == 0 && l[0..] == l && l[..0] == "";
  }

  lemma ValuesOfTwo(a: Tag, b: Tag, key: string)
    ensures Values([a, b], key) == Values([a], key) + Values([b], key)
  {
    ValuesConcat([a], [b], key);
    assert [a] + [b] == [a, b];
  }

  lemma GrownPlace(key: string)
    ensures PlaceFor([Header(true), Setting(key, ""), Other], key) == Ok(ReplaceAt(1))
  {
    var tags := [Header(true), Setting(key, ""), Other];
    assert tags[1..] == [Setting(key, ""), Other] && tags[1..][1..] == [Other] && tags[1..][1..][1..] == [];
    assert SectionFree(tags[1..]) == 2 && tags[1..3] == [Setting(key, ""), Other];
    ValuesOfTwo(Setting(key, ""), Other, key);
  }

  lemma GrownTags(name: string, key: string, value: string)
    requires ValidKey(key) && GoodValue(value) && OptionsTitle(name)
    ensures Tags(Split(BlankFile(name, key) + (value + "\n"))) == [Header(true), Setting(key, ""), TagOf(value + "\n")]
  {
    FirstBlankPatch(name, key, value);
    HeaderTag(name);
    BlankTagged(key);
    MapThree(HeaderBody(name) + "\n", BlankBody(key) + "\n", value + "\n", TagOf);
  }

  lemma GrownLine(name: string, key: string, value: string)
    requires ValidKey(key) && ValidKey(value) && OptionsTitle(name)
    ensures LineAt(BlankFile(name, key) + (value + "\n"), key, 1)
  {
    WordTag(value);
    GrownTags(name, key, value);
    GrownPlace(key);
  }

  lemma SecondJoined(h: string, l: string, v: string)
    ensures Join([h, l, v][1 := l + v]) == ((h + l) + v) + v
  {
    assert [h, l, v][1 := l + v] == [h, l + v, v];
    JoinThree(h, l + v, v);
    Regrouped(h, l, v);
  }

  lemma SecondBlankPatch(name: string, key: string, value: string)
    requires ValidKey(key) && ValidKey(value) && OptionsTitle(name)
    ensures var once := BlankFile(name, key) + (value + "\n");
            PatchOption(once, key, value) == Ok(once + (value + "\n"))
  {
    var (h, l, v) := (HeaderBody(name) + "\n", BlankBody(key) + "\n", value + "\n");
    var once := BlankFile(name, key) + v;
    WordTag(value);
    FirstBlankPatch(name, key, value);
    GrownLine(name, key, value);
    PatchIs(once, key, value, 1);
    LastChar(BlankFile(name, key), v);
    BlankPatched(key, once, value);
    SecondJoined(h, l, v);
  }

  /** The file "[options]", "key = ", patched twice with one word: the word stands below the option once,
      then twice. */
  lemma EveryPatchAddsALine(key: string, word: string)
    requires ValidKey(key) && ValidKey(word)
    ensures var text := BlankFile("options", key);
            && PatchOption(text, key, word) == Ok(text + (word + "\n"))
            && PatchOption(text + (word + "\n"), key, word) == Ok(text + (word + "\n") + (word + "\n"))
  {
    OptionsName();
    WordTag(word);
    FirstBlankPatch("options", key, word);
    SecondBlankPatch("options", key, word);
  }

  // ----- A value that looks like an option -----

  lemma LineText(a: string, b: string, c: string, nl: string)
    ensures "" + (a + (b + (c + nl))) == (a + (b + c)) + nl
  {
    Regrouped(b, c, nl);
    Regrouped(a, b + c, nl);
  }

  lemma OptionLineTag(key: string, value: string)
    requires ValidKey(key) && GoodValue(value)
    ensures TagOf(Unparse(OptionLine("", key, " = ", value, "\n"))) == Setting(key, value)
  {
    var o := OptionLine("", key, " = ", value, "\n");
    SpacedEquals();
    ParseUnparse(o);
    TagOfParsed(Unparse(o), o);
    StripKeeps(value);
  }

  lemma OptionText(key: string, value: string)
    requires ValidKey(key) && GoodValue(value)
    ensures TagOf((key + (" = " + value)) + "\n") == Setting(key, value)
  {
    OptionLineTag(key, value);
    LineText(key, " = ", value, "\n");
  }

  lemma OptionIsGood(key: string, value: string)
    requires ValidKey(key) && GoodValue(value)
    ensures GoodValue(key + (" = " + value))
  {
    KeyNoBreak(key);
    NoBreakConcat(" = ", value);
    NoBreakConcat(key, " = " + value);
    OptionEnds(key, " = ", value);
  }

  lemma OptionEnds(key: string, equals: string, value: string)
    requires ValidKey(key) && Trimmed(value)
    ensures Trimmed(key + (equals + value))
  {
    KeyNoBreak(key);
    ConcatEnd(equals, value);
    ConcatEnd(key, equals + value);
    ConcatStart(key, equals + value);
  }

  lemma OneMoreOption(key: string, other: string, value: string)
    requires other != key
    ensures Read([Header(true), Setting(key, "")], other) == Ok(None)
    ensures Read([Header(true), Setting(key, ""), Setting(other, value)], other) == Ok(Some(value))
  {
    var (a, b) := ([Header(true), Setting(key, "")], [Header(true), Setting(key, ""), Setting(other, value)]);
    assert a[1..] == [Setting(key, "")] && a[1..][1..] == [];
    assert b[1..] == [Setting(key, ""), Setting(other, value)] && b[1..][1..] == [Setting(other, value)] && b[1..][1..][1..] == [];
    assert SectionFree(a[1..]) == 1 && a[1..2] == [Setting(key, "")];
    assert SectionFree(b[1..]) == 2 && b[1..3] == [Setting(key, ""), Setting(other, value)];
    assert Values(a[1..2], other) == [];
    ValuesOfTwo(Setting(key, ""), Setting(other, value), other);
  }

  lemma SpilledOption(name: string, key: string, other: string, value: string)
    requires ValidKey(key) && ValidKey(other) && other != key && GoodValue(value) && OptionsTitle(name)
    ensures var text := BlankFile(name, key);
            && PatchOption(text, key, other + (" = " + value)).Ok?
            && ReadOption(text, other) == Ok(None)
            && ReadOption(PatchOption(text, key, other + (" = " + value)).value, other) == Ok(Some(value))
  {
    var line := other + (" = " + value);
    OptionText(other, value);
    OptionIsGood(other, value);
    BlankFilePlace(name, key);
    FirstBlankPatch(name, key, line);
    GrownTags(name, key, line);
    OneMoreOption(key, other, value);
  }

  /** The same file patched with the value "other = 2" gets a second option. */
  lemma ValueBecomesOption(key: string, other: string, value: string)
    requires ValidKey(key) && ValidKey(other) && other != key && GoodValue(value)
    ensures var text := BlankFile("options", key);
            && PatchOption(text, key, other + (" = " + value)).Ok?
            && ReadOption(text, other) == Ok(None)
            && ReadOption(PatchOption(text, key, other + (" = " + value)).value, other) == Ok(Some(value))
  {
    OptionsName();
    SpilledOption("options", key, other, value);
  }

  // ----- A line that ends with a vertical tab, in a file without a last line feed -----

  function TabLine(key: string, before: string): string {
    key + ("=" + (before + "\U{0B}"))
  }

  function OpenLine(other: string, value: string): string {
    other + ("=" + (value + ""))
  }

  /** "[options]", ended by a line feed, "key=old", ended by a vertical tab, and "other=1". */
  function TabFile(name: string, key: string, before: string, other: string, value: string): string {
    (HeaderBody(name) + "\n") + (TabLine(key, before) + OpenLine(other, value))
  }

  lemma TightEquals()
    ensures EqualsShape("=") && NoBreak("=")
  {
    assert "="[1..] == "" && LeadingSpace("=") == 0;
  }

  lemma CutTail(t: string)
    ensures t[..|t| - 0] == t
  {
  }

  lemma PlainValue(indent: string, key: string, equals: string, rest: string)
    requires Newline(rest) == ""
    ensures ParseValue(indent, key, equals, rest) == OptionLine(indent, key, equals, rest, "")
  {
    CutTail(rest);
  }

  lemma PlainParse(indent: string, key: string, equals: string, rest: string)
    requires AllSpace(indent) && ValidKey(key) && EqualsShape(equals) && (rest == "" || !IsSpace(rest[0]))
    requires Newline(rest) == ""
    ensures ParseOption(indent + (key + (equals + rest))) == Some(OptionLine(indent, key, equals, rest, ""))
  {
    ParseParts(indent, key, equals, rest);
    PlainValue(indent, key, equals, rest);
  }

  lemma PlainLine(indent: string, key: string, equals: string, value: string, more: string)
    requires AllSpace(indent) && ValidKey(key) && EqualsShape(equals) && GoodValue(value) && AllSpace(more)
    requires Newline(value + more) == ""
    ensures var l := indent + (key + (equals + (value + more)));
            TagOf(l) == Setting(key, value) && ParseOption(l) == Some(OptionLine(indent, key, equals, value + more, ""))
  {
    ConcatStart(value, more);
    TagWithTail(indent, key, equals, value, more);
    PlainParse(indent, key, equals, value + more);
  }

  lemma EmptyFront(t: string)
    ensures "" + t == t
  {
  }

  lemma TightLine(key: string, value: string, more: string)
    requires ValidKey(key) && GoodValue(value) && AllSpace(more) && Newline(value + more) == ""
    ensures var l := key + ("=" + (value + more));
            && TagOf(l) == Setting(key, value) && ParseOption(l) == Some(OptionLine("", key, "=", value + more, ""))
  {
    TightEquals();
    PlainLine("", key, "=", value, more);
    EmptyFront(key + ("=" + (value + more)));
  }

  lemma TightBody(key: string, value: string)
    requires ValidKey(key) && GoodValue(value)
    ensures NoBreak(key + ("=" + value)) && key + ("=" + value) != ""
  {
    KeyNoBreak(key);
    TightEquals();
    NoBreakConcat("=", value);
    NoBreakConcat(key, "=" + value);
  }

  lemma TabTag(key: string, before: string)
    requires ValidKey(key) && GoodValue(before)
    ensures TagOf(TabLine(key, before)) == Setting(key, before) && !Hidden(TabLine(key, before))
    ensures ParseOption(TabLine(key, before)).Some? && ParseOption(TabLine(key, before)).value.newline == ""
    ensures TabLine(key, before) == (key + ("=" + before)) + "\U{0B}"
  {
    TightLine(key, before, "\U{0B}");
    Regrouped("=", before, "\U{0B}");
    Regrouped(key, "=" + before, "\U{0B}");
  }

  lemma OpenTag(other: string, value: string)
    requires ValidKey(other) && GoodValue(value)
    ensures TagOf(OpenLine(other, value)) == Setting(other, value) && OpenLine(other, value) == other + ("=" + value)
    ensures var l := OpenLine(other, value); NoBreak(l) && l != "" && l[|l| - 1] != '\n'
  {
    assert value + "" == value;
    TightLine(other, value, "");
    TightBody(other, value);
  }

  lemma ThreeLines(a: string, b: string, c: string)
    requires IsLine(a) && Terminated(a) && !Glued(a, b + c) && IsLine(b) && Terminated(b) && !Glued(b, c) && IsLine(c)
    ensures Split(a + (b + c)) == [a, b, c]
  {
    SplitFirst(a, b + c);
    SplitFirst(b, c);
    SplitOne(c);
  }

  lemma TabIsLine(key: string, before: string)
    requires ValidKey(key) && GoodValue(before)
    ensures var l := TabLine(key, before); IsLine(l) && Terminated(l) && l[|l| - 1] != '\r'
  {
    TabTag(key, before);
    TightBody(key, before);
    LineOf(key + ("=" + before), "\U{0B}");
  }

  lemma OpenIsLine(other: string, value: string)
    requires ValidKey(other) && GoodValue(value)
    ensures var l := OpenLine(other, value); IsLine(l) && l[|l| - 1] != '\n'
  {
    OpenTag(other, value);
    LineOf(OpenLine(other, value), "");
    assert OpenLine(other, value) + "" == OpenLine(other, value);
  }

  lemma HeaderIsLine(name: string)
    requires NoBreak(name)
    ensures var l := HeaderBody(name) + "\n"; IsLine(l) && Terminated(l) && l[|l| - 1] != '\r'
  {
    NoBreakConcat(name, "]");
    NoBreakConcat("[", name + "]");
    LineOf(HeaderBody(name), "\n");
  }

  lemma TabFileLines(name: string, key: string, before: string, other: string, value: string)
    requires ValidKey(key) && GoodValue(before) && ValidKey(other) && GoodValue(value) && NoBreak(name)
    ensures Split(TabFile(name, key, before, other, value)) == [HeaderBody(name) + "\n", TabLine(key, before), OpenLine(other, value)]
    ensures !EndsWithLineFeed(TabFile(name, key, before, other, value))
  {
    HeaderIsLine(name);
    TabIsLine(key, before);
    OpenIsLine(other, value);
    ThreeLines(HeaderBody(name) + "\n", TabLine(key, before), OpenLine(other, value));
    ConcatEnd(TabLine(key, before), OpenLine(other, value));
    ConcatEnd(HeaderBody(name) + "\n", TabLine(key, before) + OpenLine(other, value));
  }

  lemma TwoOptions(key: string, before: string, other: string, value: string)
    requires other != key
    ensures var tags := [Header(true), Setting(key, before), Setting(other, value)];
            PlaceFor(tags, key) == Ok(ReplaceAt(1)) && Read(tags, other) == Ok(Some(value))
  {
    var tags := [Header(true), Setting(key, before), Setting(other, value)];
    assert tags[1..] == [Setting(key, before), Setting(other, value)];
    assert tags[1..][1..] == [Setting(other, value)] && tags[1..][1..][1..] == [];
    assert SectionFree(tags[1..]) == 2 && tags[1..3] == [Setting(key, before), Setting(other, value)];
    ValuesOfTwo(Setting(key, before), Setting(other, value), key);
    ValuesOfTwo(Setting(key, before), Setting(other, value), other);
  }

  lemma OneOption(t: Tag, key: string, other: string)
    requires Says(t, key) && other != key
    ensures Read([Header(true), t], other) == Ok(None)
  {
    var tags := [Header(true), t];
    assert tags[1..] == [t] && tags[1..][1..] == [];
    assert SectionFree(tags[1..]) == 1 && tags[1..2] == [t];
    ValuesOfOne(t, other);
  }

  lemma TabFileTags(name: string, key: string, before: string, other: string, value: string)
    requires ValidKey(key) && GoodValue(before) && ValidKey(other) && GoodValue(value) && OptionsTitle(name)
    ensures Tags(Split(TabFile(name, key, before, other, value))) == [Header(true), Setting(key, before), Setting(other, value)]
  {
    TabFileLines(name, key, before, other, value);
    HeaderTag(name);
    TabTag(key, before);
    OpenTag(other, value);
    MapThree(HeaderBody(name) + "\n", TabLine(key, before), OpenLine(other, value), TagOf);
  }

  lemma TabFilePlace(name: string, key: string, before: string, other: string, value: string)
    requires ValidKey(key) && GoodValue(before) && ValidKey(other) && GoodValue(value) && OptionsTitle(name) && other != key
    ensures var text := TabFile(name, key, before, other, value);
            && LineAt(text, key, 1) && ReadOption(text, other) == Ok(Some(value))
  {
    TabFileTags(name, key, before, other, value);
    TwoOptions(key, before, other, value);
  }

  lemma TabFileSwallows(name: string, key: string, before: string, other: string, value: string)
    requires ValidKey(key) && GoodValue(before) && ValidKey(other) && GoodValue(value) && OptionsTitle(name)
    ensures var text := TabFile(name, key, before, other, value);
            |Split(text)| == 3 && Swallows(text, 1) && !Hidden(Split(text)[1])
  {
    TabFileLines(name, key, before, other, value);
    TabTag(key, before);
  }

  lemma TwoLeft(tags: seq<Tag>, t: Tag)
    requires |tags| == 3
    ensures tags[..1] + [t] + tags[2..][1..] == [tags[0], t]
  {
  }

  lemma TabFileLoses(name: string, key: string, before: string, other: string, value: string, now: string)
    requires ValidKey(key) && GoodValue(before) && ValidKey(other) && GoodValue(value) && OptionsTitle(name) && other != key
    requires GoodValue(now)
    ensures var text := TabFile(name, key, before, other, value);
            && ReadOption(text, other) == Ok(Some(value))
            && PatchOption(text, key, now).Ok?
            && ReadOption(PatchOption(text, key, now).value, other) == Ok(None)
  {
    var text := TabFile(name, key, before, other, value);
    TabFilePlace(name, key, before, other, value);
    TabFileSwallows(name, key, before, other, value);
    TabFileTags(name, key, before, other, value);
    ReplacedLines(text, key, now, 1);
    var t := TagsAfter(text, key, now, 1);
    TwoLeft(Tags(Split(text)), t);
    OneOption(t, key, other);
  }

  /** Patching "key" over "[options]", "key=old" and "other=1" joins the last two lines: the other option
      is gone. */
  lemma OtherOptionIsLost(key: string, before: string, other: string, value: string, now: string)
    requires ValidKey(key) && GoodValue(before) && ValidKey(other) && GoodValue(value) && other != key && GoodValue(now)
    ensures var text := TabFile("options", key, before, other, value);
            && ReadOption(text, other) == Ok(Some(value))
            && PatchOption(text, key, now).Ok?
            && ReadOption(PatchOption(text, key, now).value, other) == Ok(None)
  {
    OptionsName();
    TabFileLoses("options", key, before, other, value, now);
  }

  // ----- A blank value in front of the last, open line -----

  /** "[options]", "key = ", each ended by a line feed, and "other=1" without one. */
  function OpenFile(name: string, key: string, other: string, value: string): string {
    (HeaderBody(name) + "\n") + ((BlankBody(key) + "\n") + OpenLine(other, value))
  }

  lemma BlankEnd(key: string)
    ensures var l := BlankBody(key) + "\n"; l[|l| - 1] == '\n'
  {
  }

  lemma OpenFileLines(name: string, key: string, other: string, value: string)
    requires ValidKey(key) && ValidKey(other) && GoodValue(value) && OptionsTitle(name)
    ensures Split(OpenFile(name, key, other, value)) == [HeaderBody(name) + "\n", BlankBody(key) + "\n", OpenLine(other, value)]
    ensures !EndsWithLineFeed(OpenFile(name, key, other, value))
  {
    HeaderIsLine(name);
    BlankIsLine(key);
    BlankEnd(key);
    OpenIsLine(other, value);
    ThreeLines(HeaderBody(name) + "\n", BlankBody(key) + "\n", OpenLine(other, value));
    ConcatEnd(BlankBody(key) + "\n", OpenLine(other, value));
    ConcatEnd(HeaderBody(name) + "\n", (BlankBody(key) + "\n") + OpenLine(other, value));
  }

  lemma OpenFileTags(name: string, key: string, other: string, value: string)
    requires ValidKey(key) && ValidKey(other) && GoodValue(value) && OptionsTitle(name)
    ensures Tags(Split(OpenFile(name, key, other, value))) == [Header(true), Setting(key, ""), Setting(other, value)]
  {
    OpenFileLines(name, key, other, value);
    HeaderTag(name);
    BlankTagged(key);
    OpenTag(other, value);
    MapThree(HeaderBody(name) + "\n", BlankBody(key) + "\n", OpenLine(other, value), TagOf);
  }

  lemma OpenFilePlace(name: string, key: string, other: string, value: string)
    requires ValidKey(key) && ValidKey(other) && GoodValue(value) && OptionsTitle(name) && other != key
    ensures var text := OpenFile(name, key, other, value);
            LineAt(text, key, 1) && ReadOption(text, other) == Ok(Some(value))
  {
    OpenFileTags(name, key, other, value);
    TwoOptions(key, "", other, value);
  }

  lemma OpenFileSpills(name: string, key: string, other: string, value: string)
    requires ValidKey(key) && ValidKey(other) && GoodValue(value) && OptionsTitle(name)
    ensures var text := OpenFile(name, key, other, value);
            |Split(text)| == 3 && Swallows(text, 1) && Hidden(Split(text)[1]) && Split(text)[2] == OpenLine(other, value)
  {
    OpenFileLines(name, key, other, value);
    BlankTagged(key);
    BlankIsLine(key);
    HiddenPatched(BlankBody(key) + "\n", OpenFile(name, key, other, value), key, value);
  }

  lemma JoinedName(word: string, other: string)
    requires ValidKey(word) && ValidKey(other)
    ensures ValidKey(word + other)
  {
  }

  lemma JoinedLine(word: string, other: string, value: string)
    ensures word + OpenLine(other, value) == OpenLine(word + other, value)
  {
    Regrouped(word, other, "=" + (value + ""));
  }

  lemma JoinedKey(word: string, other: string, value: string)
    requires ValidKey(word) && ValidKey(other) && GoodValue(value)
    ensures TagOf(word + OpenLine(other, value)) == Setting(word + other, value)
  {
    JoinedName(word, other);
    JoinedLine(word, other, value);
    OpenTag(word + other, value);
  }

  lemma ThreeLeft(tags: seq<Tag>, t: Tag)
    requires |tags| == 3
    ensures tags[..1] + [tags[1]] + ([t] + tags[2..][1..]) == [tags[0], tags[1], t]
  {
  }

  lemma OpenFileAfter(name: string, key: string, other: string, value: string, word: string)
    requires ValidKey(key) && ValidKey(other) && GoodValue(value) && OptionsTitle(name) && other != key && ValidKey(word)
    ensures var text := OpenFile(name, key, other, value);
            && PatchOption(text, key, word).Ok?
            && Tags(Split(PatchOption(text, key, word).value)) == [Header(true), Setting(key, ""), Setting(word + other, value)]
  {
    var text := OpenFile(name, key, other, value);
    WordTag(word);
    OpenFilePlace(name, key, other, value);
    OpenFileSpills(name, key, other, value);
    OpenFileTags(name, key, other, value);
    ReplacedLines(text, key, word, 1);
    TagsAfterHidden(text, key, word, 1);
    SpilledOverBehind(text, 1, word);
    JoinedKey(word, other, value);
    ThreeLeft(Tags(Split(text)), Setting(word + other, value));
  }

  lemma OneOfTwo(key: string, before: string, joined: string, other: string, value: string)
    requires other != key && joined != other
    ensures Read([Header(true), Setting(key, before), Setting(joined, value)], other) == Ok(None)
  {
    var tags := [Header(true), Setting(key, before), Setting(joined, value)];
    assert tags[1..] == [Setting(key, before), Setting(joined, value)];
    assert tags[1..][1..] == [Setting(joined, value)] && tags[1..][1..][1..] == [];
    assert SectionFree(tags[1..]) == 2 && tags[1..3] == [Setting(key, before), Setting(joined, value)];
    ValuesOfTwo(Setting(key, before), Setting(joined, value), other);
  }

  /** Patching "key" with a word over "[options]", "key = " and "other=1", without a line feed at the end:
      the word becomes part of the other option's name. */
  lemma OtherOptionIsRenamed(key: string, other: string, value: string, word: string)
    requires ValidKey(key) && ValidKey(other) && GoodValue(value) && other != key && ValidKey(word)
    ensures var text := OpenFile("options", key, other, value);
            && ReadOption(text, other) == Ok(Some(value))
            && PatchOption(text, key, word).Ok?
            && ReadOption(PatchOption(text, key, word).value, other) == Ok(None)
            && (word + other != key ==> ReadOption(PatchOption(text, key, word).value, word + other) == Ok(Some(value)))
  {
    OptionsName();
    OpenFilePlace("options", key, other, value);
    OpenFileAfter("options", key, other, value, word);
    assert |word + other| > |other|;
    OneOfTwo(key, "", word + other, other, value);
    if word + other != key { OneMoreOption(key, word + other, value); }
  }
}
