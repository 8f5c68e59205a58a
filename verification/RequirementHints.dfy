/** The minimum OPatch version a README asks for, if it asks for exactly one in plain words. */
module RequirementHints {
  import opened Text
  import opened ReadmeText

  const MAX_SENTENCE := 400

  /** What the regular expressions make of a sentence: whether it speaks of an example, an installed version or a
    * rollback; the version it requires, by the first pattern that matches all of it; and whether it names OPatch, a
    * requirement and a version at all. */
  datatype Language = Language(
    nonRequirement: string -> bool, patterns: seq<string -> Option<string>>, mentionsRequirement: string -> bool,
    sentences: string -> seq<string>)

  datatype Meaning = Skipped | Requires(version: string) | Unclear | Other

  datatype Hint = Found(version: string, sentence: string) | ConditionalOrUnclear | NoneFound | Contradictory

  function FirstMatch(patterns: seq<string -> Option<string>>, sentence: string): Option<string> {
    if |patterns| == 0 then None
    else if patterns[0](sentence).Some? then patterns[0](sentence)
    else FirstMatch(patterns[1..], sentence)
  }

  function Meant(l: Language, sentence: string): Meaning {
    if sentence == "" || |sentence| > MAX_SENTENCE || l.nonRequirement(sentence) then Skipped
    else if FirstMatch(l.patterns, sentence).Some? then Requires(FirstMatch(l.patterns, sentence).value)
    else if l.mentionsRequirement(sentence) then Unclear
    else Other
  }

  /** The blocks between separators. */
  function Blocks(text: string): seq<string> {
    BlocksFrom(text, "")
  }

  function BlocksFrom(rest: string, current: string): seq<string> {
    if rest == "" then [current]
    else if rest[..1] == SEPARATOR then [current] + BlocksFrom(rest[1..], "")
    else BlocksFrom(rest[1..], current + [rest[0]])
  }

  function SentencesOf(l: Language, blocks: seq<string>): seq<string> {
    if |blocks| == 0 then [] else SentencesOf(l, blocks[..|blocks| - 1]) + l.sentences(blocks[|blocks| - 1])
  }

  // ---- what extraction means ----

  predicate States(l: Language, sentences: seq<string>, version: string) {
    exists k | 0 <= k < |sentences| :: Meant(l, sentences[k]) == Requires(version)
  }

  predicate HasUnclear(l: Language, sentences: seq<string>) {
    exists k | 0 <= k < |sentences| :: Meant(l, sentences[k]).Unclear?
  }

  /** The sentence comes first among those that require something. */
  predicate FirstRequirement(l: Language, sentences: seq<string>, version: string, sentence: string) {
    exists k | 0 <= k < |sentences| :: sentences[k] == sentence && Meant(l, sentence) == Requires(version)
      && forall j | 0 <= j < k :: !Meant(l, sentences[j]).Requires?
  }

  ghost predicate Means(l: Language, sentences: seq<string>, hint: Hint) {
    match hint
    case ConditionalOrUnclear => HasUnclear(l, sentences)
    case NoneFound => !HasUnclear(l, sentences) && forall v :: !States(l, sentences, v)
    case Contradictory => !HasUnclear(l, sentences) && exists v, u :: v != u && States(l, sentences, v) && States(l, sentences, u)
    case Found(version, sentence) =>
      && !HasUnclear(l, sentences)
      && (forall v :: States(l, sentences, v) <==> v == version)
      && FirstRequirement(l, sentences, version, sentence)
  }

  // ---- the extraction loop ----

  predicate Recorded(matches: seq<(string, string)>, v: string) {
    exists k | 0 <= k < |matches| :: matches[k].0 == v
  }

  /** What the loops have gathered after some sentences. */
  ghost predicate Gathered(l: Language, sentences: seq<string>, matches: seq<(string, string)>, unclear: bool) {
    && (unclear <==> HasUnclear(l, sentences))
    && (forall v :: States(l, sentences, v) <==> Recorded(matches, v))
    && (matches != [] ==> FirstRequirement(l, sentences, matches[0].0, matches[0].1))
  }

  lemma GatherOne(l: Language, sentences: seq<string>, matches: seq<(string, string)>, unclear: bool, s: string)
    requires Gathered(l, sentences, matches, unclear)
    ensures Gathered(l, sentences + [s],
                     if Meant(l, s).Requires? then matches + [(Meant(l, s).version, s)] else matches,
                     unclear || Meant(l, s).Unclear?)
  {
    var more := sentences + [s];
    assert more[|sentences|] == s && forall k | 0 <= k < |sentences| :: more[k] == sentences[k];
    var matches' := if Meant(l, s).Requires? then matches + [(Meant(l, s).version, s)] else matches;
    forall v ensures States(l, more, v) <==> Recorded(matches', v) {
      StatesMore(l, sentences, s, v);
      if Meant(l, s).Requires? { RecordedMore(matches, (Meant(l, s).version, s), v); }
    }
    UnclearMore(l, sentences, s);
    if matches != [] {
      var k :| 0 <= k < |sentences| && sentences[k] == matches[0].1 && Meant(l, matches[0].1) == Requires(matches[0].0)
        && forall j | 0 <= j < k :: !Meant(l, sentences[j]).Requires?;
      assert more[k] == matches'[0].1;
    } else if Meant(l, s).Requires? {
      forall j | 0 <= j < |sentences| ensures !Meant(l, more[j]).Requires? {
        if Meant(l, sentences[j]).Requires? { assert States(l, sentences, Meant(l, sentences[j]).version); }
      }
      assert more[|sentences|] == matches'[0].1;
    }
  }

  lemma RecordedMore(matches: seq<(string, string)>, m: (string, string), v: string)
    ensures Recorded(matches + [m], v) <==> Recorded(matches, v) || m.0 == v
  {
    var more := matches + [m];
    if Recorded(matches, v) {
      var k :| 0 <= k < |matches| && matches[k].0 == v;
      assert more[k].0 == v;
    }
    if m.0 == v { assert more[|matches|].0 == v; }
  }

  lemma StatesMore(l: Language, sentences: seq<string>, s: string, v: string)
    ensures States(l, sentences + [s], v) <==> States(l, sentences, v) || Meant(l, s) == Requires(v)
  {
    var more := sentences + [s];
    if States(l, sentences, v) {
      var k :| 0 <= k < |sentences| && Meant(l, sentences[k]) == Requires(v);
      assert Meant(l, more[k]) == Requires(v);
    }
    if Meant(l, s) == Requires(v) { assert Meant(l, more[|sentences|]) == Requires(v); }
  }

  lemma UnclearMore(l: Language, sentences: seq<string>, s: string)
    ensures HasUnclear(l, sentences + [s]) <==> HasUnclear(l, sentences) || Meant(l, s).Unclear?
  {
    var more := sentences + [s];
    if HasUnclear(l, sentences) {
      var k :| 0 <= k < |sentences| && Meant(l, sentences[k]).Unclear?;
      assert Meant(l, more[k]).Unclear?;
    }
    if Meant(l, s).Unclear? { assert Meant(l, more[|sentences|]).Unclear?; }
  }

  /** The inner loop over patterns, which stops at the first match. */
  method Match(l: Language, sentence: string) returns (version: Option<string>)
    ensures version == FirstMatch(l.patterns, sentence)
  {
    version := None;
    var i := 0;
    while i < |l.patterns|
      invariant 0 <= i <= |l.patterns|
      invariant FirstMatch(l.patterns, sentence) == FirstMatch(l.patterns[i..], sentence)
    {
      if l.patterns[i](sentence).Some? { return l.patterns[i](sentence); }
      i := i + 1;
    }
  }

  method Extract(l: Language, text: string) returns (hint: Hint)
    ensures Means(l, SentencesOf(l, Blocks(text)), hint)
  {
    var blocks := Blocks(text);
    var matches: seq<(string, string)>, unclear := [], false;
    var b := 0;
    while b < |blocks|
      invariant 0 <= b <= |blocks|
      invariant Gathered(l, SentencesOf(l, blocks[..b]), matches, unclear)
    {
      var sentences := l.sentences(blocks[b]);
      ghost var before := SentencesOf(l, blocks[..b]);
      assert before + sentences[..0] == before;
      var i := 0;
      while i < |sentences|
        invariant 0 <= i <= |sentences|
        invariant Gathered(l, before + sentences[..i], matches, unclear)
      {
        var sentence := sentences[i];
        GatherOne(l, before + sentences[..i], matches, unclear, sentence);
        assert (before + sentences[..i]) + [sentence] == before + sentences[..i + 1];
        i := i + 1;
        if sentence == "" || |sentence| > MAX_SENTENCE || l.nonRequirement(sentence) { continue; }
        var version := Match(l, sentence);
        if version.Some? {
          matches := matches + [(version.value, sentence)];
        } else if l.mentionsRequirement(sentence) {
          unclear := true;
        }
      }
      assert before + sentences[..i] == before + sentences;
      assert blocks[..b + 1][..b] == blocks[..b];
      b := b + 1;
    }
    assert blocks[..b] == blocks;
    hint := Decide(l, SentencesOf(l, blocks), matches, unclear);
  }

  /** The decision after the loops: no unclear requirement, and one version in all matches. */
  method Decide(l: Language, ghost sentences: seq<string>, matches: seq<(string, string)>, unclear: bool) returns (hint: Hint)
    requires Gathered(l, sentences, matches, unclear)
    ensures Means(l, sentences, hint)
  {
    if unclear { return ConditionalOrUnclear; }
    if matches == [] { return NoneFound; }
    var i := 0;
    while i < |matches|
      invariant 0 <= i <= |matches|
      invariant forall k | 0 <= k < i :: matches[k].0 == matches[0].0
    {
      if matches[i].0 != matches[0].0 {
        assert Recorded(matches, matches[i].0) && Recorded(matches, matches[0].0);
        return Contradictory;
      }
      i := i + 1;
    }
    assert Recorded(matches, matches[0].0);
    hint := Found(matches[0].0, matches[0].1);
  }

  // ---- what a sentence means ----

  /** A sentence that is taken into account: not blank, not too long, and not about something else. */
  predicate Considered(l: Language, sentence: string) {
    sentence != "" && |sentence| <= 400 && !l.nonRequirement(sentence)
  }

  predicate Matches(l: Language, k: nat, sentence: string) {
    k < |l.patterns| && l.patterns[k](sentence).Some?
  }

  lemma {:induction false} FirstMatchIsFirst(patterns: seq<string -> Option<string>>, sentence: string)
    ensures FirstMatch(patterns, sentence).None? <==> forall k | 0 <= k < |patterns| :: patterns[k](sentence).None?
    ensures FirstMatch(patterns, sentence).Some? ==>
      exists k | 0 <= k < |patterns| :: patterns[k](sentence) == FirstMatch(patterns, sentence)
        && forall j | 0 <= j < k :: patterns[j](sentence).None?
    decreases |patterns|
  {
    if |patterns| > 0 && patterns[0](sentence).None? {
      FirstMatchIsFirst(patterns[1..], sentence);
      assert forall k | 0 <= k < |patterns| - 1 :: patterns[1..][k] == patterns[k + 1];
      if FirstMatch(patterns, sentence).Some? {
        var k :| 0 <= k < |patterns[1..]| && patterns[1..][k](sentence) == FirstMatch(patterns, sentence)
          && forall j | 0 <= j < k :: patterns[1..][j](sentence).None?;
        assert patterns[k + 1](sentence) == FirstMatch(patterns, sentence);
        assert forall j | 0 < j < k + 1 :: patterns[j] == patterns[1..][j - 1];
      }
    }
  }

  /** A sentence requires a version exactly if it is considered and some pattern matches it, and then the version of the
    * first that does; it is unclear exactly if it is considered, speaks of a required version, and no pattern matches. */
  lemma MeaningIsExact(l: Language, sentence: string)
    ensures Meant(l, sentence).Requires? <==> Considered(l, sentence) && exists k: nat :: Matches(l, k, sentence)
    ensures Meant(l, sentence).Requires? ==>
      exists k: nat :: Matches(l, k, sentence) && l.patterns[k](sentence).value == Meant(l, sentence).version
        && forall j: nat | j < k :: !Matches(l, j, sentence)
    ensures Meant(l, sentence).Unclear? <==>
      Considered(l, sentence) && l.mentionsRequirement(sentence) && forall k: nat :: !Matches(l, k, sentence)
  {
    FirstMatchIsFirst(l.patterns, sentence);
    if FirstMatch(l.patterns, sentence).Some? {
      var k: nat :| k < |l.patterns| && l.patterns[k](sentence) == FirstMatch(l.patterns, sentence)
        && forall j | 0 <= j < k :: l.patterns[j](sentence).None?;
      assert Matches(l, k, sentence);
    }
  }

  // ---- extraction is conservative ----

  /** The sentences of a README mean one hint only. */
  lemma HintIsDetermined(l: Language, sentences: seq<string>, a: Hint, b: Hint)
    requires Means(l, sentences, a) && Means(l, sentences, b)
    ensures a == b
  {
    // Either version, if there is one, is stated.
    var statedA := States(l, sentences, if a.Found? then a.version else "");
    var statedB := States(l, sentences, if b.Found? then b.version else "");
    if a.Found? && b.Found? {
      var i :| 0 <= i < |sentences| && sentences[i] == a.sentence && Meant(l, a.sentence) == Requires(a.version)
        && forall j | 0 <= j < i :: !Meant(l, sentences[j]).Requires?;
      var k :| 0 <= k < |sentences| && sentences[k] == b.sentence && Meant(l, b.sentence) == Requires(b.version)
        && forall j | 0 <= j < k :: !Meant(l, sentences[j]).Requires?;
    }
  }

  /** Adding sentences, anywhere and in any order, can withdraw a version but never replace it by another one. */
  lemma AddingIsConservative(l: Language, less: seq<string>, more: seq<string>, a: Hint, b: Hint)
    requires Means(l, less, a) && Means(l, more, b) && a.Found?
    requires forall k | 0 <= k < |less| :: less[k] == "" || less[k] in more
    ensures b.Found? ==> b.version == a.version
    ensures !b.NoneFound?
  {
    assert States(l, less, a.version);
    var k :| 0 <= k < |less| && Meant(l, less[k]) == Requires(a.version);
    var m :| 0 <= m < |more| && more[m] == less[k];
    assert States(l, more, a.version);
  }

  lemma {:induction false} BlocksJoin(a: string, b: string, current: string)
    ensures BlocksFrom(a + SEPARATOR + b, current) == BlocksFrom(a, current) + Blocks(b)
    decreases |a|
  {
    var whole := a + SEPARATOR + b;
    if a == "" {
      assert whole[..1] == SEPARATOR && whole[1..] == b;
    } else {
      assert whole[..1] == a[..1] && whole[0] == a[0] && whole[1..] == a[1..] + SEPARATOR + b;
      if a[..1] == SEPARATOR {
        BlocksJoin(a[1..], b, "");
        assert [current] + (BlocksFrom(a[1..], "") + Blocks(b)) == ([current] + BlocksFrom(a[1..], "")) + Blocks(b);
      } else {
        BlocksJoin(a[1..], b, current + [a[0]]);
      }
    }
  }

  lemma {:induction false} SentencesJoin(l: Language, a: seq<string>, b: seq<string>)
    ensures SentencesOf(l, a + b) == SentencesOf(l, a) + SentencesOf(l, b)
    decreases |b|
  {
    if |b| == 0 {
      assert a + b == a;
    } else {
      SentencesJoin(l, a, b[..|b| - 1]);
      assert (a + b)[..|a + b| - 1] == a + b[..|b| - 1];
    }
  }

  lemma SentencesAround(l: Language, a: string, b: string)
    ensures SentencesOf(l, Blocks(a + SEPARATOR + b)) == SentencesOf(l, Blocks(a)) + SentencesOf(l, Blocks(b))
  {
    BlocksJoin(a, b, "");
    SentencesJoin(l, Blocks(a), Blocks(b));
  }

  lemma Widened(x: seq<string>, y: seq<string>, z: seq<string>)
    ensures forall k | 0 <= k < |x + z| :: (x + z)[k] in x + (y + z)
  {
    forall k | 0 <= k < |x + z| ensures (x + z)[k] in x + (y + z) {
      if k < |x| { assert (x + (y + z))[k] == (x + z)[k]; } else { assert (x + (y + z))[k + |y|] == (x + z)[k]; }
    }
  }

  /** So one more block in the collected text keeps the version, or withdraws it. */
  lemma InsertedBlock(l: Language, head: string, block: string, rest: string, a: Hint, b: Hint)
    requires Means(l, SentencesOf(l, Blocks(head + SEPARATOR + rest)), a) && a.Found?
    requires Means(l, SentencesOf(l, Blocks(head + SEPARATOR + (block + SEPARATOR + rest))), b)
    ensures b.Found? ==> b.version == a.version
  {
    SentencesAround(l, head, rest);
    SentencesAround(l, head, block + SEPARATOR + rest);
    SentencesAround(l, block, rest);
    var x, y, z := SentencesOf(l, Blocks(head)), SentencesOf(l, Blocks(block)), SentencesOf(l, Blocks(rest));
    Widened(x, y, z);
    AddingIsConservative(l, x + z, x + (y + z), a, b);
  }

  // ---- insertions into the document ----

  function Say(l: Language, text: string): seq<string> {
    SentencesOf(l, Blocks(text))
  }

  /** Blank text has no sentence but the blank one, which means nothing. */
  predicate BlankSaysNothing(l: Language) {
    l.sentences("") == [""]
  }

  /** The same sentences, apart from blank ones. */
  ghost predicate SameSentences(x: seq<string>, y: seq<string>) {
    forall s | s != "" :: s in x <==> s in y
  }

  lemma SayBlank(l: Language)
    requires BlankSaysNothing(l)
    ensures Say(l, "") == [""]
  {
    assert [""][..0] == [] && Blocks("") == [""];
    assert SentencesOf(l, [""]) == SentencesOf(l, []) + l.sentences("");
  }

  /** At a separator the sentences part. */
  lemma SayApart(l: Language, a: string, b: string)
    requires BlankSaysNothing(l) && Cut(a, b)
    ensures SameSentences(Say(l, a + b), Say(l, a) + Say(l, b))
  {
    SayBlank(l);
    if a == "" {
      assert a + b == b;
    } else if b == "" {
      assert a + b == a;
    } else if a[|a| - 1] == SEPARATOR[0] {
      var x := a[..|a| - 1];
      assert a == x + SEPARATOR + "" && a + b == x + SEPARATOR + b;
      SentencesAround(l, x, "");
      SentencesAround(l, x, b);
    } else {
      var z := b[1..];
      assert b == "" + SEPARATOR + z && a + b == a + SEPARATOR + z;
      SentencesAround(l, "", z);
      SentencesAround(l, a, z);
    }
  }

  lemma SayBetween(l: Language, a: string, m: string, b: string, s: string)
    requires BlankSaysNothing(l) && Cut(a, b) && Cut(a, m) && Cut(m, b)
    requires s != "" && s in Say(l, a + b)
    ensures s in Say(l, a + (m + b))
  {
    assert Cut(a, m + b) by {
      if m == "" { assert m + b == b; } else { assert (m + b)[0] == m[0]; }
    }
    SayApart(l, a, b);
    SayApart(l, a, m + b);
    SayApart(l, m, b);
  }

  /** A well-nested forest put into a README between breaks, outside headings, that neither opens nor closes an example
    * section, keeps the version or withdraws it. */
  lemma {:induction false} InsertedForest(
    l: Language, isExample: string -> bool, p: Place, g: Forest, a: Hint, b: Hint)
    requires BlankSaysNothing(l) && OutsideHeadings(p)
    requires WellNested(Plug(p, Nil)) && WellNested(g)
    requires SectionsStay(isExample, p, g) && BetweenBreaks(p, g)
    requires Means(l, Say(l, TextOf(isExample, Plug(p, Nil))), a) && a.Found?
    requires Means(l, Say(l, TextOf(isExample, Plug(p, g))), b)
    ensures b.Found? ==> b.version == a.version
    ensures !b.NoneFound?
  {
    var less := Say(l, TextOf(isExample, Plug(p, Nil)));
    var more := Say(l, TextOf(isExample, Plug(p, g)));
    forall k | 0 <= k < |less| ensures less[k] == "" || less[k] in more {
      if less[k] != "" { InsertedSays(l, isExample, p, g, less[k]); }
    }
    AddingIsConservative(l, less, more, a, b);
  }

  predicate BetweenBreaks(p: Place, g: Forest) {
    && Apart(MarksBefore(p), MarksAfter(p))
    && Apart(MarksBefore(p), Marks(g))
    && Apart(Marks(g), MarksAfter(p))
  }

  lemma InsertedSays(l: Language, isExample: string -> bool, p: Place, g: Forest, s: string)
    requires BlankSaysNothing(l) && OutsideHeadings(p)
    requires WellNested(Plug(p, Nil)) && WellNested(g)
    requires SectionsStay(isExample, p, g) && BetweenBreaks(p, g)
    requires s != "" && s in Say(l, TextOf(isExample, Plug(p, Nil)))
    ensures s in Say(l, TextOf(isExample, Plug(p, g)))
  {
    var level := LevelAt(isExample, p);
    MarksPlug(p, g);
    TextOfPlug(isExample, p, g);
    TextOfPlace(isExample, p);
    BreaksCut(isExample, p, g);
    SayBetween(l, Said(isExample, 0, MarksBefore(p)), Said(isExample, level, Marks(g)), Said(isExample, level, MarksAfter(p)), s);
  }

  lemma {:induction false} BreaksCut(isExample: string -> bool, p: Place, g: Forest)
    requires BetweenBreaks(p, g)
    ensures var level := LevelAt(isExample, p);
      var x, y, z := Said(isExample, 0, MarksBefore(p)), Said(isExample, level, Marks(g)), Said(isExample, level, MarksAfter(p));
      Cut(x, z) && Cut(x, y) && Cut(y, z)
  {
    var level := LevelAt(isExample, p);
    ApartIsCut(isExample, MarksBefore(p), 0, MarksAfter(p), level);
    ApartIsCut(isExample, MarksBefore(p), 0, Marks(g), level);
    ApartIsCut(isExample, Marks(g), level, MarksAfter(p), level);
  }

  // ---- an inserted example heading ----

  /** A text of one sentence. */
  predicate OneSentence(l: Language, text: string) {
    SEPARATOR[0] !in text && l.sentences(text) == [text]
  }

  lemma {:induction false} BlocksWhole(text: string, current: string)
    requires SEPARATOR[0] !in text
    ensures BlocksFrom(text, current) == [current + text]
    decreases |text|
  {
    if text == "" {
      assert current + text == current;
    } else {
      assert text[..1] != SEPARATOR;
      BlocksWhole(text[1..], current + [text[0]]);
      assert (current + [text[0]]) + text[1..] == current + text;
    }
  }

  lemma SayOne(l: Language, text: string)
    requires OneSentence(l, text)
    ensures Say(l, text) == [text]
  {
    BlocksWhole(text, "");
    assert "" + text == text && [text][..0] == [];
    assert SentencesOf(l, [text]) == SentencesOf(l, []) + l.sentences(text);
  }

  /** A document of one sentence, and the same with another sentence and an example heading in front of it. */
  function Sentence(text: string): Forest { Cons(Chars(text), Nil) }

  function Headed(text: string, title: string): Forest {
    Cons(Chars(text), Cons(Element("h1", Sentence(title)), Nil))
  }

  lemma HeadedMarks(text: string, title: string)
    ensures Marks(Headed(text, title)) == [Shown(text), Break, Shown(title), Heading(1, title), Break]
  {
    SentenceReads(title);
    var h := Element("h1", Sentence(title));
    assert !HasHeading(Sentence(title)) && HeadingLevel("h1") == 1;
    assert TitleOf("h1", Sentence(title)) == [Heading(1, title)];
    assert "h1" in BLOCKS && "h1" !in OMIT && BreakOf("h1") == [Break];
    assert NodeMarks(h) == [Break, Shown(title), Heading(1, title), Break];
    assert Marks(Cons(h, Nil)) == NodeMarks(h) + Marks(Nil);
    assert Marks(Headed(text, title)) == [Shown(text)] + Marks(Cons(h, Nil));
  }

  lemma ConcatOne(text: string)
    ensures Concat([text]) == text
  {
    assert [text][..0] == [] && Concat([]) == "";
    assert "" + text == text;
  }

  lemma SentenceReads(text: string)
    ensures Marks(Sentence(text)) == [Shown(text)] && Concat(Texts(Sentence(text))) == text && WellNested(Sentence(text))
  {
    assert WellNestedNode(Chars(text)) && WellNested(Nil);
    assert Marks(Nil) == [] && Texts(Nil) == [];
    assert Texts(Sentence(text)) == [text] + [] == [text];
    ConcatOne(text);
  }

  lemma SaidOne(isExample: string -> bool, level: nat, m: Mark)
    ensures Said(isExample, level, [m]) == match m
      case Break => SEPARATOR
      case Shown(text) => if level == 0 then text else ""
      case Heading(_, _) => ""
    ensures Level(isExample, level, [m]) == if m.Heading? then AfterHeading(level, m.level, isExample(m.title)) else level
  {
    assert [m][..0] == [];
    assert Collected(isExample, level, [m]) == match m
      case Break => [SEPARATOR]
      case Shown(text) => if level == 0 then [text] else []
      case Heading(_, _) => [];
    ConcatOne(SEPARATOR);
    if m.Shown? { ConcatOne(m.text); }
  }

  lemma HeadedSaid(isExample: string -> bool, text: string, title: string)
    requires isExample(title)
    ensures var marks := [Shown(text), Break, Shown(title), Heading(1, title), Break];
      Said(isExample, 0, marks) == text + SEPARATOR + (title + SEPARATOR) && Level(isExample, 0, marks) == 1
  {
    var front, end := [Shown(text)] + [Break], [Heading(1, title)] + [Break];
    ShownThenBreak(isExample, text);
    TitleThenEnd(isExample, title);
    SaidThen(isExample, 0, front, [Shown(title)] + end);
    FiveMarks(Shown(text), Break, Shown(title), Heading(1, title));
  }

  lemma FiveMarks(a: Mark, b: Mark, c: Mark, d: Mark)
    ensures [a, b, c, d, b] == ([a] + [b]) + ([c] + ([d] + [b]))
  {
  }

  lemma {:induction false} SaidThen(isExample: string -> bool, level: nat, a: seq<Mark>, b: seq<Mark>)
    ensures Said(isExample, level, a + b) == Said(isExample, level, a) + Said(isExample, Level(isExample, level, a), b)
    ensures Level(isExample, level, a + b) == Level(isExample, Level(isExample, level, a), b)
  {
    SaidConcat(isExample, level, a, b);
    ReadConcat(isExample, level, a, b);
  }

  lemma ShownThenBreak(isExample: string -> bool, text: string)
    ensures Said(isExample, 0, [Shown(text)] + [Break]) == text + SEPARATOR && Level(isExample, 0, [Shown(text)] + [Break]) == 0
  {
    SaidThen(isExample, 0, [Shown(text)], [Break]);
    SaidOne(isExample, 0, Shown(text));
    SaidOne(isExample, 0, Break);
  }

  lemma HeadingThenBreak(isExample: string -> bool, title: string)
    requires isExample(title)
    ensures var end := [Heading(1, title)] + [Break]; Said(isExample, 0, end) == SEPARATOR && Level(isExample, 0, end) == 1
  {
    SaidThen(isExample, 0, [Heading(1, title)], [Break]);
    SaidOne(isExample, 0, Heading(1, title));
    SaidOne(isExample, 1, Break);
    assert "" + SEPARATOR == SEPARATOR;
  }

  lemma TitleThenEnd(isExample: string -> bool, title: string)
    requires isExample(title)
    ensures var end := [Shown(title)] + ([Heading(1, title)] + [Break]);
      Said(isExample, 0, end) == title + SEPARATOR && Level(isExample, 0, end) == 1
  {
    SaidThen(isExample, 0, [Shown(title)], [Heading(1, title)] + [Break]);
    SaidOne(isExample, 0, Shown(title));
    HeadingThenBreak(isExample, title);
  }

  lemma HeadedSays(isExample: string -> bool, text: string, title: string, after: string)
    requires isExample(title)
    ensures TextOf(isExample, Plug(Here(Nil, Sentence(after)), Headed(text, title))) == text + SEPARATOR + (title + SEPARATOR)
  {
    var p, g := Here(Nil, Sentence(after)), Headed(text, title);
    HeadedNests(text, title, after);
    ReadOf(isExample, Plug(p, g));
    MarksPlug(p, g);
    HeadedMarks(text, title);
    HeadedSaid(isExample, text, title);
    SentenceReads(after);
    SaidThen(isExample, 0, Marks(g), [Shown(after)]);
    SaidOne(isExample, 1, Shown(after));
    assert Marks(Plug(p, g)) == Marks(g) + [Shown(after)];
  }

  lemma PlainSays(isExample: string -> bool, text: string)
    ensures TextOf(isExample, Plug(Here(Nil, Sentence(text)), Nil)) == text
  {
    var f := Plug(Here(Nil, Sentence(text)), Nil);
    assert f == Sentence(text);
    ReadOf(isExample, f);
    SentenceReads(text);
    SaidOne(isExample, 0, Shown(text));
  }

  lemma OnlyRequirement(l: Language, sentences: seq<string>, k: nat, version: string)
    requires k < |sentences| && Meant(l, sentences[k]) == Requires(version)
    requires forall j | 0 <= j < |sentences| && j != k :: Meant(l, sentences[j]).Skipped?
    ensures Means(l, sentences, Found(version, sentences[k]))
  {
    assert States(l, sentences, version);
  }

  /** Without the condition on sections a version can be replaced: another requirement and an example heading, put in
    * front of the only requirement of a README, hide it. */
  lemma HeadingReplacesVersion(
    l: Language, isExample: string -> bool, text: string, title: string, after: string, version: string, replaced: string)
    requires BlankSaysNothing(l) && OneSentence(l, text) && OneSentence(l, title) && OneSentence(l, after)
    requires Meant(l, text) == Requires(version) && Meant(l, after) == Requires(replaced)
    requires isExample(title) && l.nonRequirement(title)
    ensures var p, g := Here(Nil, Sentence(after)), Headed(text, title);
      && OutsideHeadings(p) && WellNested(Plug(p, g)) && BetweenBreaks(p, g) && !SectionsStay(isExample, p, g)
      && Means(l, Say(l, TextOf(isExample, Plug(p, Nil))), Found(replaced, after))
      && Means(l, Say(l, TextOf(isExample, Plug(p, g))), Found(version, text))
  {
    var p, g := Here(Nil, Sentence(after)), Headed(text, title);
    HeadedPlace(isExample, text, title, after);
    PlainSays(isExample, after);
    SayOne(l, after);
    OnlyRequirement(l, [after], 0, replaced);
    HeadedSays(isExample, text, title, after);
    SayHeaded(l, text, title);
    OnlyRequirement(l, [text, title, ""], 0, version);
  }

  lemma SayEnded(l: Language, text: string)
    requires BlankSaysNothing(l) && OneSentence(l, text)
    ensures Say(l, text + SEPARATOR) == [text, ""]
  {
    assert text + SEPARATOR + "" == text + SEPARATOR;
    SentencesAround(l, text, "");
    SayOne(l, text);
    SayBlank(l);
  }

  lemma SayHeaded(l: Language, text: string, title: string)
    requires BlankSaysNothing(l) && OneSentence(l, text) && OneSentence(l, title)
    ensures Say(l, text + SEPARATOR + (title + SEPARATOR)) == [text, title, ""]
  {
    SayEnded(l, title);
    SayOne(l, text);
    SayFollowed(l, text, title + SEPARATOR);
  }

  lemma SayFollowed(l: Language, a: string, b: string)
    ensures Say(l, a + SEPARATOR + b) == Say(l, a) + Say(l, b)
  {
    SentencesAround(l, a, b);
  }

  lemma HeadedPlace(isExample: string -> bool, text: string, title: string, after: string)
    requires isExample(title)
    ensures var p, g := Here(Nil, Sentence(after)), Headed(text, title);
      OutsideHeadings(p) && WellNested(Plug(p, g)) && BetweenBreaks(p, g) && !SectionsStay(isExample, p, g)
  {
    HeadedNests(text, title, after);
    HeadedMarks(text, title);
    HeadedSaid(isExample, text, title);
  }

  lemma HeadedNests(text: string, title: string, after: string)
    ensures WellNested(Headed(text, title)) && WellNested(Plug(Here(Nil, Sentence(after)), Headed(text, title)))
  {
    SentenceReads(title);
    SentenceReads(after);
    assert WellNestedNode(Element("h1", Sentence(title))) && WellNestedNode(Chars(text)) && WellNested(Nil);
    assert WellNested(Cons(Element("h1", Sentence(title)), Nil));
    assert Plug(Here(Nil, Sentence(after)), Nil) == Sentence(after);
    MarksPlug(Here(Nil, Sentence(after)), Headed(text, title));
  }
}
