/** The text of a README as the hints parser collects it from start tags, end tags and data. */
module ReadmeText {
  import opened Text

  const SEPARATOR := "\U{1e}"

  const BLOCKS := {
    "address", "article", "aside", "blockquote", "br", "dd", "div", "dl", "dt",
    "fieldset", "figcaption", "figure", "footer", "form", "h1", "h2", "h3", "h4",
    "h5", "h6", "header", "hr", "li", "main", "nav", "ol", "p", "section", "table",
    "tbody", "td", "th", "thead", "tr", "ul"
  }
  const OMIT := {"script", "style", "template", "pre", "samp"}

  /** The level of a heading tag, 0 for any other tag. */
  function HeadingLevel(tag: string): nat {
    if tag == "h1" then 1 else if tag == "h2" then 2 else if tag == "h3" then 3
    else if tag == "h4" then 4 else if tag == "h5" then 5 else if tag == "h6" then 6 else 0
  }

  datatype Event = Start(tag: string) | End(tag: string) | Data(text: string)

  datatype State = State(
    parts: seq<string>, omitted: seq<string>, heading: Option<string>, headingParts: seq<string>, exampleLevel: nat)

  const INITIAL := State([], [], None, [], 0)

  function Concat(parts: seq<string>): string {
    if |parts| == 0 then "" else Concat(parts[..|parts| - 1]) + parts[|parts| - 1]
  }

  /** The example level after a heading: 0 means no example section is open. */
  function AfterHeading(exampleLevel: nat, level: nat, example: bool): nat {
    if example then (if exampleLevel == 0 || level < exampleLevel then level else exampleLevel)
    else if exampleLevel != 0 && level <= exampleLevel then 0
    else exampleLevel
  }

  function OnStart(s: State, tag: string): State {
    if s.omitted != [] then (if tag in OMIT then s.(omitted := s.omitted + [tag]) else s)
    else
      var entered := if tag in OMIT then s.(omitted := [tag], parts := s.parts + [SEPARATOR])
                    else if tag in BLOCKS then s.(parts := s.parts + [SEPARATOR]) else s;
      if HeadingLevel(tag) > 0 then entered.(heading := Some(tag), headingParts := []) else entered
  }

  function OnEnd(isExample: string -> bool, s: State, tag: string): State {
    if s.omitted != [] then
      (if tag == s.omitted[|s.omitted| - 1] then s.(omitted := s.omitted[..|s.omitted| - 1]) else s)
    else
      var closed := if s.heading == Some(tag)
        then s.(exampleLevel := AfterHeading(s.exampleLevel, HeadingLevel(tag), isExample(Concat(s.headingParts))),
                heading := None, headingParts := [])
        else s;
      if tag in BLOCKS then closed.(parts := closed.parts + [SEPARATOR]) else closed
  }

  function OnData(s: State, text: string): State {
    if s.omitted != [] then s
    else
      s.(headingParts := if s.heading.Some? then s.headingParts + [text] else s.headingParts,
         parts := if s.exampleLevel == 0 then s.parts + [text] else s.parts)
  }

  function Step(isExample: string -> bool, s: State, e: Event): State {
    match e
    case Start(tag) => OnStart(s, tag)
    case End(tag) => OnEnd(isExample, s, tag)
    case Data(text) => OnData(s, text)
  }

  function Feed(isExample: string -> bool, s: State, events: seq<Event>): State {
    if |events| == 0 then s else Step(isExample, Feed(isExample, s, events[..|events| - 1]), events[|events| - 1])
  }

  class Parser {
    var parts: seq<string>
    var omitted: seq<string>
    var heading: Option<string>
    var headingParts: seq<string>
    var exampleHeadingLevel: nat
    const isExample: string -> bool

    ghost function Value(): State
      reads this
    {
      State(parts, omitted, heading, headingParts, exampleHeadingLevel)
    }

    constructor (isExample: string -> bool)
      ensures Value() == INITIAL && this.isExample == isExample
    {
      this.isExample := isExample;
      parts, omitted, heading, headingParts, exampleHeadingLevel := [], [], None, [], 0;
    }

    method HandleStartTag(tag: string)
      modifies this
      ensures Value() == OnStart(old(Value()), tag)
    {
      if omitted != [] {
        if tag in OMIT { omitted := omitted + [tag]; }
        return;
      }
      if tag in OMIT {
        omitted := omitted + [tag];
        parts := parts + [SEPARATOR];
      } else if tag in BLOCKS {
        parts := parts + [SEPARATOR];
      }
      if HeadingLevel(tag) > 0 { heading, headingParts := Some(tag), []; }
    }

    method HandleEndTag(tag: string)
      modifies this
      ensures Value() == OnEnd(isExample, old(Value()), tag)
    {
      if omitted != [] {
        if tag == omitted[|omitted| - 1] { omitted := omitted[..|omitted| - 1]; }
        return;
      }
      if heading == Some(tag) {
        var level := HeadingLevel(tag);
        if isExample(Concat(headingParts)) {
          if exampleHeadingLevel == 0 || level < exampleHeadingLevel { exampleHeadingLevel := level; }
        } else if exampleHeadingLevel != 0 && level <= exampleHeadingLevel {
          exampleHeadingLevel := 0;
        }
        heading, headingParts := None, [];
      }
      if tag in BLOCKS { parts := parts + [SEPARATOR]; }
    }

    method HandleData(text: string)
      modifies this
      ensures Value() == OnData(old(Value()), text)
    {
      if omitted == [] {
        if heading.Some? { headingParts := headingParts + [text]; }
        if exampleHeadingLevel == 0 { parts := parts + [text]; }
      }
    }

    method FeedAll(events: seq<Event>)
      modifies this
      ensures Value() == Feed(isExample, old(Value()), events)
    {
      var n := 0;
      while n < |events|
        invariant 0 <= n <= |events|
        invariant Value() == Feed(isExample, old(Value()), events[..n])
      {
        match events[n] {
          case Start(tag) => HandleStartTag(tag);
          case End(tag) => HandleEndTag(tag);
          case Data(text) => HandleData(text);
        }
        assert events[..n + 1][..n] == events[..n];
        n := n + 1;
      }
      assert events[..n] == events;
    }
  }

  // ---- documents ----

  datatype Node = Chars(text: string) | Element(tag: string, children: Forest) | Single(tag: string)
  datatype Forest = Nil | Cons(head: Node, tail: Forest)

  function Events(f: Forest): seq<Event> {
    match f
    case Nil => []
    case Cons(head, tail) => NodeEvents(head) + Events(tail)
  }

  function NodeEvents(n: Node): seq<Event> {
    match n
    case Chars(text) => [Data(text)]
    case Element(tag, children) => [Start(tag)] + Events(children) + [End(tag)]
    case Single(tag) => [Start(tag)]
  }

  /** Only tags that neither omit text nor head a section may stand alone. */
  predicate WellNested(f: Forest) {
    match f
    case Nil => true
    case Cons(head, tail) => WellNestedNode(head) && WellNested(tail)
  }

  predicate WellNestedNode(n: Node) {
    match n
    case Chars(_) => true
    case Element(_, children) => WellNested(children)
    case Single(tag) => tag !in OMIT && HeadingLevel(tag) == 0
  }

  lemma {:induction false} FeedConcat(isExample: string -> bool, s: State, a: seq<Event>, b: seq<Event>)
    ensures Feed(isExample, s, a + b) == Feed(isExample, Feed(isExample, s, a), b)
    decreases |b|
  {
    if |b| == 0 {
      assert a + b == a;
    } else {
      FeedConcat(isExample, s, a, b[..|b| - 1]);
      assert (a + b)[..|a + b| - 1] == a + b[..|b| - 1];
    }
  }

  lemma {:induction false} FeedElement(isExample: string -> bool, s: State, tag: string, children: Forest)
    ensures Feed(isExample, s, NodeEvents(Element(tag, children))) ==
      OnEnd(isExample, Feed(isExample, OnStart(s, tag), Events(children)), tag)
  {
    var inner := Events(children);
    FeedConcat(isExample, s, [Start(tag)], inner);
    FeedConcat(isExample, s, [Start(tag)] + inner, [End(tag)]);
    FeedOne(isExample, s, Start(tag));
    FeedOne(isExample, Feed(isExample, s, [Start(tag)] + inner), End(tag));
  }

  lemma FeedOne(isExample: string -> bool, s: State, e: Event)
    ensures Feed(isExample, s, [e]) == Step(isExample, s, e)
  {
    assert [e][..0] == [];
  }

  // ---- omitted elements ----

  lemma StartThenEndHidden(isExample: string -> bool, s: State, tag: string)
    requires s.omitted != [] && s.omitted[|s.omitted| - 1] in OMIT
    ensures OnEnd(isExample, OnStart(s, tag), tag) == s
    ensures OnStart(s, tag).omitted != [] && OnStart(s, tag).omitted[|OnStart(s, tag).omitted| - 1] in OMIT
  {
    if tag in OMIT { assert (s.omitted + [tag])[..|s.omitted|] == s.omitted; }
  }

  /** Inside an omitted element nothing changes. */
  lemma {:induction false} HiddenForest(isExample: string -> bool, s: State, f: Forest)
    requires WellNested(f) && s.omitted != [] && s.omitted[|s.omitted| - 1] in OMIT
    ensures Feed(isExample, s, Events(f)) == s
    decreases f
  {
    match f
    case Nil =>
    case Cons(head, tail) =>
      FeedConcat(isExample, s, NodeEvents(head), Events(tail));
      HiddenNode(isExample, s, head);
      HiddenForest(isExample, s, tail);
  }

  lemma {:induction false} HiddenNode(isExample: string -> bool, s: State, n: Node)
    requires WellNestedNode(n) && s.omitted != [] && s.omitted[|s.omitted| - 1] in OMIT
    ensures Feed(isExample, s, NodeEvents(n)) == s
    decreases n
  {
    match n
    case Chars(text) => FeedOne(isExample, s, Data(text));
    case Single(tag) => FeedOne(isExample, s, Start(tag));
    case Element(tag, children) =>
      FeedElement(isExample, s, tag, children);
      StartThenEndHidden(isExample, s, tag);
      HiddenForest(isExample, OnStart(s, tag), children);
  }

  /** An omitted element of any nesting leaves the parser as it was, apart from one separator when it is not itself
    * inside an omitted element. */
  lemma OmittedElement(isExample: string -> bool, s: State, tag: string, children: Forest)
    requires tag in OMIT && WellNested(children)
    requires s.omitted != [] ==> s.omitted[|s.omitted| - 1] in OMIT
    ensures Feed(isExample, s, NodeEvents(Element(tag, children))) ==
      if s.omitted != [] then s else s.(parts := s.parts + [SEPARATOR])
  {
    FeedElement(isExample, s, tag, children);
    if s.omitted != [] { StartThenEndHidden(isExample, s, tag); }
    HiddenForest(isExample, OnStart(s, tag), children);
  }

  // ---- what a document says ----

  /** A document in reading order: breaks, text outside omitted elements, and headings with their titles. */
  datatype Mark = Break | Shown(text: string) | Heading(level: nat, title: string)

  function Texts(f: Forest): seq<string> {
    match f
    case Nil => []
    case Cons(head, tail) => NodeTexts(head) + Texts(tail)
  }

  function NodeTexts(n: Node): seq<string> {
    match n
    case Chars(text) => [text]
    case Single(_) => []
    case Element(tag, children) => if tag in OMIT then [] else Texts(children)
  }

  predicate HasHeading(f: Forest) {
    match f
    case Nil => false
    case Cons(head, tail) => NodeHasHeading(head) || HasHeading(tail)
  }

  predicate NodeHasHeading(n: Node) {
    match n
    case Element(tag, children) => tag !in OMIT && (HeadingLevel(tag) > 0 || HasHeading(children))
    case _ => false
  }

  function BreakOf(tag: string): seq<Mark> {
    if tag in BLOCKS then [Break] else []
  }

  /** A heading inside which another one stands has no title of its own. */
  function TitleOf(tag: string, children: Forest): seq<Mark> {
    if HeadingLevel(tag) > 0 && !HasHeading(children) then [Heading(HeadingLevel(tag), Concat(Texts(children)))] else []
  }

  function Marks(f: Forest): seq<Mark> {
    match f
    case Nil => []
    case Cons(head, tail) => NodeMarks(head) + Marks(tail)
  }

  function NodeMarks(n: Node): seq<Mark> {
    match n
    case Chars(text) => [Shown(text)]
    case Single(tag) => BreakOf(tag)
    case Element(tag, children) =>
      if tag in OMIT then [Break] else BreakOf(tag) + Marks(children) + (TitleOf(tag, children) + BreakOf(tag))
  }

  /** Mark i heads an example section that no peer or higher heading has closed by the end of the marks. */
  predicate HeadsOpenExample(isExample: string -> bool, marks: seq<Mark>, i: nat) {
    && i < |marks| && marks[i].Heading? && isExample(marks[i].title)
    && forall j | i < j < |marks| :: marks[j].Heading? && !isExample(marks[j].title) ==> marks[j].level > marks[i].level
  }

  predicate InExample(isExample: string -> bool, marks: seq<Mark>) {
    exists i: nat | i < |marks| :: HeadsOpenExample(isExample, marks, i)
  }

  /** The text outside example sections, with a separator at every break. */
  function Visible(isExample: string -> bool, marks: seq<Mark>): seq<string> {
    if |marks| == 0 then []
    else
      var before := marks[..|marks| - 1];
      Visible(isExample, before) + match marks[|marks| - 1]
        case Break => [SEPARATOR]
        case Shown(text) => if InExample(isExample, before) then [] else [text]
        case Heading(_, _) => []
  }

  // ---- the parser reads marks ----

  function Level(isExample: string -> bool, level: nat, marks: seq<Mark>): nat {
    if |marks| == 0 then level
    else
      var before := Level(isExample, level, marks[..|marks| - 1]);
      match marks[|marks| - 1]
      case Heading(l, title) => AfterHeading(before, l, isExample(title))
      case _ => before
  }

  function Collected(isExample: string -> bool, level: nat, marks: seq<Mark>): seq<string> {
    if |marks| == 0 then []
    else
      var before := marks[..|marks| - 1];
      Collected(isExample, level, before) + match marks[|marks| - 1]
        case Break => [SEPARATOR]
        case Shown(text) => if Level(isExample, level, before) == 0 then [text] else []
        case Heading(_, _) => []
  }

  lemma {:induction false} ReadConcat(isExample: string -> bool, level: nat, a: seq<Mark>, b: seq<Mark>)
    ensures Level(isExample, level, a + b) == Level(isExample, Level(isExample, level, a), b)
    ensures Collected(isExample, level, a + b) == Collected(isExample, level, a) + Collected(isExample, Level(isExample, level, a), b)
    decreases |b|
  {
    if |b| == 0 {
      assert a + b == a;
    } else {
      ReadConcat(isExample, level, a, b[..|b| - 1]);
      assert (a + b)[..|a + b| - 1] == a + b[..|b| - 1];
    }
  }

  /** The parser after reading marks, whose headings have been recognized. */
  function Read(isExample: string -> bool, s: State, marks: seq<Mark>): State {
    s.(parts := s.parts + Collected(isExample, s.exampleLevel, marks), exampleLevel := Level(isExample, s.exampleLevel, marks))
  }

  lemma ReadReads(isExample: string -> bool, s: State, a: seq<Mark>, b: seq<Mark>)
    ensures Read(isExample, Read(isExample, s, a), b) == Read(isExample, s, a + b)
  {
    ReadConcat(isExample, s.exampleLevel, a, b);
  }

  lemma ReadOne(isExample: string -> bool, s: State, m: Mark)
    ensures Read(isExample, s, [m]) == match m
      case Break => s.(parts := s.parts + [SEPARATOR])
      case Shown(text) => if s.exampleLevel == 0 then s.(parts := s.parts + [text]) else s
      case Heading(level, title) => s.(exampleLevel := AfterHeading(s.exampleLevel, level, isExample(title)))
  {
    assert [m][..0] == [] && s.parts + [] == s.parts;
    assert Collected(isExample, s.exampleLevel, [m]) == match m
      case Break => [SEPARATOR]
      case Shown(text) => if s.exampleLevel == 0 then [text] else []
      case Heading(_, _) => [];
    assert Level(isExample, s.exampleLevel, [m]) == match m
      case Heading(level, title) => AfterHeading(s.exampleLevel, level, isExample(title))
      case _ => s.exampleLevel;
    match m
    case Break =>
    case Shown(_) =>
    case Heading(_, _) =>
  }

  lemma ReadNone(isExample: string -> bool, s: State)
    ensures Read(isExample, s, []) == s
  {
    assert s.parts + [] == s.parts;
  }

  /** The heading under construction after a stretch of a document. */
  function Titled(s: State, hasHeading: bool, texts: seq<string>): State {
    if hasHeading then s.(heading := None, headingParts := [])
    else if s.heading.Some? then s.(headingParts := s.headingParts + texts)
    else s
  }

  predicate Plain(s: State) {
    s.omitted == [] && (s.heading.Some? ==> HeadingLevel(s.heading.value) > 0)
  }

  /** Reading two stretches in turn. */
  lemma TitledCompose(isExample: string -> bool, s: State, marks1: seq<Mark>, has1: bool, texts1: seq<string>,
                      marks2: seq<Mark>, has2: bool, texts2: seq<string>)
    ensures Titled(Read(isExample, Titled(Read(isExample, s, marks1), has1, texts1), marks2), has2, texts2) ==
      Titled(Read(isExample, s, marks1 + marks2), has1 || has2, texts1 + texts2)
  {
    ReadReads(isExample, s, marks1, marks2);
    assert (s.headingParts + texts1) + texts2 == s.headingParts + (texts1 + texts2);
  }

  lemma StartRead(isExample: string -> bool, s: State, tag: string)
    requires s.omitted == [] && tag !in OMIT
    ensures var read := Read(isExample, s, BreakOf(tag));
      OnStart(s, tag) == if HeadingLevel(tag) > 0 then read.(heading := Some(tag), headingParts := []) else read
  {
    if tag in BLOCKS { ReadOne(isExample, s, Break); } else { assert s.parts + [] == s.parts; }
  }

  lemma EndRead(isExample: string -> bool, s: State, tag: string)
    requires s.omitted == []
    ensures OnEnd(isExample, s, tag) ==
      if s.heading == Some(tag)
      then Read(isExample, s, [Heading(HeadingLevel(tag), Concat(s.headingParts))] + BreakOf(tag)).(heading := None, headingParts := [])
      else Read(isExample, s, BreakOf(tag))
  {
    var h := Heading(HeadingLevel(tag), Concat(s.headingParts));
    ReadOne(isExample, s, h);
    var titled := Read(isExample, s, [h]);
    ReadReads(isExample, s, [h], BreakOf(tag));
    if tag in BLOCKS {
      ReadOne(isExample, s, Break);
      ReadOne(isExample, titled, Break);
    } else {
      assert s.parts + [] == s.parts;
      assert titled.parts + [] == titled.parts;
    }
  }

  lemma ElementRead(isExample: string -> bool, s: State, tag: string, children: Forest)
    requires Plain(s) && tag !in OMIT
    ensures var n := Element(tag, children);
      var inner := Titled(Read(isExample, OnStart(s, tag), Marks(children)), HasHeading(children), Texts(children));
      OnEnd(isExample, inner, tag) == Titled(Read(isExample, s, NodeMarks(n)), NodeHasHeading(n), NodeTexts(n))
  {
    var inner := Titled(Read(isExample, OnStart(s, tag), Marks(children)), HasHeading(children), Texts(children));
    StartRead(isExample, s, tag);
    EndRead(isExample, inner, tag);
    var before := BreakOf(tag) + Marks(children);
    ReadReads(isExample, s, BreakOf(tag), Marks(children));
    if HeadingLevel(tag) > 0 && !HasHeading(children) {
      assert [] + Texts(children) == Texts(children);
      ReadReads(isExample, s, before, TitleOf(tag, children) + BreakOf(tag));
    } else {
      assert TitleOf(tag, children) + BreakOf(tag) == BreakOf(tag);
      ReadReads(isExample, s, before, BreakOf(tag));
    }
  }

  lemma {:induction false} ForestRead(isExample: string -> bool, s: State, f: Forest)
    requires WellNested(f) && Plain(s)
    ensures Feed(isExample, s, Events(f)) == Titled(Read(isExample, s, Marks(f)), HasHeading(f), Texts(f))
    decreases f
  {
    match f
    case Nil =>
      ReadNone(isExample, s);
      assert s.headingParts + [] == s.headingParts;
    case Cons(head, tail) =>
      FeedConcat(isExample, s, NodeEvents(head), Events(tail));
      NodeRead(isExample, s, head);
      ForestRead(isExample, Titled(Read(isExample, s, NodeMarks(head)), NodeHasHeading(head), NodeTexts(head)), tail);
      TitledCompose(isExample, s, NodeMarks(head), NodeHasHeading(head), NodeTexts(head), Marks(tail), HasHeading(tail), Texts(tail));
  }

  lemma {:induction false} NodeRead(isExample: string -> bool, s: State, n: Node)
    requires WellNestedNode(n) && Plain(s)
    ensures Feed(isExample, s, NodeEvents(n)) == Titled(Read(isExample, s, NodeMarks(n)), NodeHasHeading(n), NodeTexts(n))
    decreases n
  {
    match n
    case Chars(text) =>
      FeedOne(isExample, s, Data(text));
      ReadOne(isExample, s, Shown(text));
    case Single(tag) =>
      FeedOne(isExample, s, Start(tag));
      StartRead(isExample, s, tag);
      assert s.headingParts + [] == s.headingParts;
    case Element(tag, children) =>
      if tag in OMIT {
        OmittedElement(isExample, s, tag, children);
        ReadOne(isExample, s, Break);
        assert s.headingParts + [] == s.headingParts;
      } else {
        FeedElement(isExample, s, tag, children);
        ForestRead(isExample, OnStart(s, tag), children);
        ElementRead(isExample, s, tag, children);
      }
  }

  // ---- example sections ----

  /** The level is that of the highest open example heading, or 0. */
  predicate LevelFits(isExample: string -> bool, marks: seq<Mark>, level: nat) {
    && (level != 0 ==> exists i: nat | i < |marks| :: HeadsOpenExample(isExample, marks, i) && marks[i].level == level)
    && forall i: nat | i < |marks| && HeadsOpenExample(isExample, marks, i) :: 0 < level <= marks[i].level
  }

  predicate Leveled(marks: seq<Mark>) {
    forall k | 0 <= k < |marks| :: marks[k].Heading? ==> marks[k].level > 0
  }

  lemma OpenAfter(isExample: string -> bool, marks: seq<Mark>, m: Mark, i: nat)
    ensures HeadsOpenExample(isExample, marks + [m], i) <==>
      if i < |marks| then HeadsOpenExample(isExample, marks, i) && (m.Heading? && !isExample(m.title) ==> m.level > marks[i].level)
      else i == |marks| && m.Heading? && isExample(m.title)
  {
    var more := marks + [m];
    assert forall j | 0 <= j < |marks| :: more[j] == marks[j];
    if i < |marks| && HeadsOpenExample(isExample, more, i) { assert more[|marks|] == m; }
  }

  lemma {:induction false} LevelIsOpen(isExample: string -> bool, marks: seq<Mark>)
    requires Leveled(marks)
    ensures LevelFits(isExample, marks, Level(isExample, 0, marks))
    decreases |marks|
  {
    if |marks| > 0 {
      var before, m := marks[..|marks| - 1], marks[|marks| - 1];
      LevelIsOpen(isExample, before);
      assert marks == before + [m];
      LevelStep(isExample, before, m);
    }
  }

  lemma LevelStep(isExample: string -> bool, marks: seq<Mark>, m: Mark)
    requires LevelFits(isExample, marks, Level(isExample, 0, marks)) && (m.Heading? ==> m.level > 0)
    ensures LevelFits(isExample, marks + [m], Level(isExample, 0, marks + [m]))
  {
    var more := marks + [m];
    var level := Level(isExample, 0, marks);
    var level' := Level(isExample, 0, more);
    assert more[..|marks|] == marks;
    assert level' == if m.Heading? then AfterHeading(level, m.level, isExample(m.title)) else level;
    forall i: nat ensures HeadsOpenExample(isExample, more, i) <==>
      if i < |marks| then HeadsOpenExample(isExample, marks, i) && (m.Heading? && !isExample(m.title) ==> m.level > marks[i].level)
      else i == |marks| && m.Heading? && isExample(m.title)
    {
      OpenAfter(isExample, marks, m, i);
    }
    if level' != 0 {
      if level' == level {
        var i: nat :| i < |marks| && HeadsOpenExample(isExample, marks, i) && marks[i].level == level;
        assert HeadsOpenExample(isExample, more, i) && more[i].level == level';
      } else {
        assert HeadsOpenExample(isExample, more, |marks|) && more[|marks|].level == level';
      }
    }
  }

  lemma {:induction false} CollectedIsVisible(isExample: string -> bool, marks: seq<Mark>)
    requires Leveled(marks)
    ensures Collected(isExample, 0, marks) == Visible(isExample, marks)
    decreases |marks|
  {
    if |marks| > 0 {
      var before := marks[..|marks| - 1];
      CollectedIsVisible(isExample, before);
      LevelIsOpen(isExample, before);
    }
  }

  lemma {:induction false} MarksAreLeveled(f: Forest)
    ensures Leveled(Marks(f))
    decreases f
  {
    match f
    case Nil =>
    case Cons(head, tail) =>
      MarksAreLeveled(tail);
      if head.Element? { MarksAreLeveled(head.children); }
      assert Leveled(NodeMarks(head));
  }

  /** For a well-nested document the collected text is exactly the text outside omitted elements and outside example
    * sections, with a separator at every break. */
  lemma CollectedText(isExample: string -> bool, f: Forest)
    requires WellNested(f)
    ensures Feed(isExample, INITIAL, Events(f)).parts == Visible(isExample, Marks(f))
  {
    ForestRead(isExample, INITIAL, f);
    MarksAreLeveled(f);
    CollectedIsVisible(isExample, Marks(f));
    assert [] + Collected(isExample, 0, Marks(f)) == Collected(isExample, 0, Marks(f));
  }

  /** The text the parser collects from a document. */
  function TextOf(isExample: string -> bool, f: Forest): string {
    Concat(Feed(isExample, INITIAL, Events(f)).parts)
  }

  lemma {:induction false} ConcatConcat(a: seq<string>, b: seq<string>)
    ensures Concat(a + b) == Concat(a) + Concat(b)
    decreases |b|
  {
    if |b| == 0 {
      assert a + b == a;
    } else {
      ConcatConcat(a, b[..|b| - 1]);
      assert (a + b)[..|a + b| - 1] == a + b[..|b| - 1];
    }
  }

  // ---- places in a document ----

  /** A place between the nodes of a document, or between those of an element in it. */
  datatype Place = Here(before: Forest, after: Forest) | Within(before: Forest, tag: string, inner: Place, after: Forest)

  function Join(f: Forest, g: Forest): Forest {
    match f
    case Nil => g
    case Cons(head, tail) => Cons(head, Join(tail, g))
  }

  /** The document with a forest put into the place. */
  function Plug(p: Place, g: Forest): Forest {
    match p
    case Here(before, after) => Join(before, Join(g, after))
    case Within(before, tag, inner, after) => Join(before, Cons(Element(tag, Plug(inner, g)), after))
  }

  /** No element around the place is omitted or a heading. */
  predicate OutsideHeadings(p: Place) {
    p.Within? ==> p.tag !in OMIT && HeadingLevel(p.tag) == 0 && OutsideHeadings(p.inner)
  }

  function MarksBefore(p: Place): seq<Mark> {
    match p
    case Here(before, _) => Marks(before)
    case Within(before, tag, inner, _) => Marks(before) + (BreakOf(tag) + MarksBefore(inner))
  }

  function MarksAfter(p: Place): seq<Mark> {
    match p
    case Here(_, after) => Marks(after)
    case Within(_, tag, inner, after) => (MarksAfter(inner) + BreakOf(tag)) + Marks(after)
  }

  lemma {:induction false} MarksJoin(f: Forest, g: Forest)
    ensures Marks(Join(f, g)) == Marks(f) + Marks(g)
    ensures WellNested(Join(f, g)) <==> WellNested(f) && WellNested(g)
    decreases f
  {
    match f
    case Nil => assert [] + Marks(g) == Marks(g);
    case Cons(head, tail) =>
      MarksJoin(tail, g);
      assert NodeMarks(head) + (Marks(tail) + Marks(g)) == (NodeMarks(head) + Marks(tail)) + Marks(g);
  }

  /** A forest in a place adds its own marks between those before and after the place. */
  lemma {:induction false} MarksPlug(p: Place, g: Forest)
    requires OutsideHeadings(p)
    ensures Marks(Plug(p, g)) == MarksBefore(p) + (Marks(g) + MarksAfter(p))
    ensures WellNested(Plug(p, g)) <==> WellNested(Plug(p, Nil)) && WellNested(g)
    decreases p
  {
    match p
    case Here(before, after) =>
      MarksJoin(before, Join(g, after));
      MarksJoin(g, after);
      MarksJoin(before, after);
    case Within(before, tag, inner, after) =>
      MarksPlug(inner, g);
      MarksJoin(before, Cons(Element(tag, Plug(inner, g)), after));
      MarksJoin(before, Cons(Element(tag, Plug(inner, Nil)), after));
      Around(Marks(before), BreakOf(tag), MarksBefore(inner), Marks(g), MarksAfter(inner), Marks(after));
      assert NodeMarks(Element(tag, Plug(inner, g))) == BreakOf(tag) + Marks(Plug(inner, g)) + BreakOf(tag);
  }

  lemma Around(a: seq<Mark>, b: seq<Mark>, c: seq<Mark>, m: seq<Mark>, d: seq<Mark>, e: seq<Mark>)
    ensures a + ((b + (c + (m + d)) + b) + e) == (a + (b + c)) + (m + ((d + b) + e))
  {
  }

  predicate Headless(marks: seq<Mark>) {
    forall k | 0 <= k < |marks| :: !marks[k].Heading?
  }

  lemma {:induction false} NoHeadingNoMark(f: Forest)
    requires !HasHeading(f)
    ensures Headless(Marks(f))
    decreases f
  {
    match f
    case Nil =>
    case Cons(head, tail) =>
      NoHeadingNoMark(tail);
      if head.Element? && head.tag !in OMIT {
        NoHeadingNoMark(head.children);
        assert TitleOf(head.tag, head.children) == [];
      }
      assert Headless(NodeMarks(head));
  }

  lemma {:induction false} NoMarkNoLevel(isExample: string -> bool, level: nat, marks: seq<Mark>)
    requires Headless(marks)
    ensures Level(isExample, level, marks) == level
    decreases |marks|
  {
    if |marks| > 0 { NoMarkNoLevel(isExample, level, marks[..|marks| - 1]); }
  }

  /** The level of the example section open at the place. */
  function LevelAt(isExample: string -> bool, p: Place): nat {
    Level(isExample, 0, MarksBefore(p))
  }

  /** The example sections are the same after the forest as before it. */
  predicate SectionsStay(isExample: string -> bool, p: Place, g: Forest) {
    Level(isExample, LevelAt(isExample, p), Marks(g)) == LevelAt(isExample, p)
  }

  /** A forest without headings leaves the sections as they are. */
  lemma NoHeadingsStay(isExample: string -> bool, p: Place, g: Forest)
    requires !HasHeading(g)
    ensures SectionsStay(isExample, p, g)
  {
    NoHeadingNoMark(g);
    NoMarkNoLevel(isExample, LevelAt(isExample, p), Marks(g));
  }

  function Said(isExample: string -> bool, level: nat, marks: seq<Mark>): string {
    Concat(Collected(isExample, level, marks))
  }

  lemma SaidConcat(isExample: string -> bool, level: nat, a: seq<Mark>, b: seq<Mark>)
    ensures Said(isExample, level, a + b) == Said(isExample, level, a) + Said(isExample, Level(isExample, level, a), b)
  {
    ReadConcat(isExample, level, a, b);
    ConcatConcat(Collected(isExample, level, a), Collected(isExample, Level(isExample, level, a), b));
  }

  lemma {:induction false} ReadOf(isExample: string -> bool, f: Forest)
    requires WellNested(f)
    ensures TextOf(isExample, f) == Said(isExample, 0, Marks(f))
  {
    ForestRead(isExample, INITIAL, f);
    assert [] + Collected(isExample, 0, Marks(f)) == Collected(isExample, 0, Marks(f));
  }

  /** The text of a document with a forest in a place, in three parts. */
  lemma TextOfPlug(isExample: string -> bool, p: Place, g: Forest)
    requires OutsideHeadings(p) && WellNested(Plug(p, g)) && SectionsStay(isExample, p, g)
    ensures var level := LevelAt(isExample, p);
      TextOf(isExample, Plug(p, g)) ==
        Said(isExample, 0, MarksBefore(p)) + (Said(isExample, level, Marks(g)) + Said(isExample, level, MarksAfter(p)))
  {
    ReadOf(isExample, Plug(p, g));
    MarksPlug(p, g);
    SaidConcat(isExample, 0, MarksBefore(p), Marks(g) + MarksAfter(p));
    SaidConcat(isExample, LevelAt(isExample, p), Marks(g), MarksAfter(p));
  }

  /** And without it, in two. */
  lemma TextOfPlace(isExample: string -> bool, p: Place)
    requires OutsideHeadings(p) && WellNested(Plug(p, Nil))
    ensures TextOf(isExample, Plug(p, Nil)) ==
      Said(isExample, 0, MarksBefore(p)) + Said(isExample, LevelAt(isExample, p), MarksAfter(p))
  {
    assert Level(isExample, LevelAt(isExample, p), []) == LevelAt(isExample, p);
    TextOfPlug(isExample, p, Nil);
    var z := Said(isExample, LevelAt(isExample, p), MarksAfter(p));
    assert Said(isExample, LevelAt(isExample, p), []) == "" && "" + z == z;
  }

  // ---- breaks ----

  /** A break, or nothing at all, stands between the two stretches. */
  predicate Apart(a: seq<Mark>, b: seq<Mark>) {
    a == [] || b == [] || a[|a| - 1].Break? || b[0].Break?
  }

  predicate Cut(a: string, b: string) {
    a == "" || b == "" || a[|a| - 1] == SEPARATOR[0] || b[0] == SEPARATOR[0]
  }

  lemma BreakEnds(isExample: string -> bool, level: nat, marks: seq<Mark>)
    requires marks != [] && marks[|marks| - 1].Break?
    ensures var text := Said(isExample, level, marks); text != "" && text[|text| - 1] == SEPARATOR[0]
  {
    var before := Collected(isExample, level, marks[..|marks| - 1]);
    assert (before + [SEPARATOR])[..|before|] == before;
  }

  lemma BreakBegins(isExample: string -> bool, level: nat, marks: seq<Mark>)
    requires marks != [] && marks[0].Break?
    ensures var text := Said(isExample, level, marks); text != "" && text[0] == SEPARATOR[0]
  {
    assert marks == [marks[0]] + marks[1..];
    SaidConcat(isExample, level, [marks[0]], marks[1..]);
    assert [marks[0]][..0] == [] && Collected(isExample, level, [marks[0]]) == [SEPARATOR];
    assert [SEPARATOR][..0] == [] && Concat([SEPARATOR]) == SEPARATOR;
  }

  lemma ApartIsCut(isExample: string -> bool, a: seq<Mark>, x: nat, b: seq<Mark>, y: nat)
    requires Apart(a, b)
    ensures Cut(Said(isExample, x, a), Said(isExample, y, b))
  {
    if a != [] && b != [] {
      if a[|a| - 1].Break? { BreakEnds(isExample, x, a); } else { BreakBegins(isExample, y, b); }
    }
  }
}
