/** Reconciliation of per-node compatibility documents against the expected pairs of node and Oracle home. */
module CompatibilityReconcile {
  import opened Text

  /** One element of `checks`: its node and home, if present, and whether every prerequisite in it passed. */
  datatype Check = Check(node: Option<string>, home: Option<string>, passes: bool)

  /** A document is bound if it names this procedure's patch, artifact, family and platform. */
  datatype Document = Document(bound: bool, checks: seq<Check>)

  predicate OneLine(s: string) {
    '\n' !in s
  }

  /** An expected pair as it is read back from its line in the list of pairs. */
  type Pair = p: (string, string) | OneLine(p.0) && OneLine(p.1) witness ("", "")

  datatype Finding = DocumentInvalid | Duplicate(key: string) | Missing(key: string) | CheckFailed(key: string)

  /** Exit codes 0 and 2, and the abort of the shell when no collected check answers to a key that was seen. */
  datatype Exit = Clean | Findings | Aborted

  // ---- keys ----

  /** What the shell keeps of a command's output. */
  function Unterminated(s: string): string {
    if s != "" && s[|s| - 1] == '\n' then Unterminated(s[..|s| - 1]) else s
  }

  function Printed(field: Option<string>): string {
    if field.Some? then Unterminated(field.value) else "null"
  }

  /** The key under which a check is recorded. */
  function Key(c: Check): string {
    Printed(c.node) + "|" + Printed(c.home)
  }

  predicate Present(c: Check) {
    c.node.Some? && c.home.Some?
  }

  predicate AllPresent(checks: seq<Check>) {
    forall k | 0 <= k < |checks| :: Present(checks[k])
  }

  function Joined(field: Option<string>): string {
    if field.Some? then field.value else ""
  }

  /** The key under which it is looked up; an absent field adds nothing. */
  function LookupKey(c: Check): string {
    Unterminated(Joined(c.node) + "|" + Joined(c.home))
  }

  function PairKey(p: Pair): string {
    p.0 + "|" + p.1
  }

  function Keys(checks: seq<Check>): seq<string> {
    seq(|checks|, k requires 0 <= k < |checks| => Key(checks[k]))
  }

  lemma OneLineKey(p: Pair)
    ensures OneLine(PairKey(p))
  {
  }

  lemma {:induction false} UnterminatedTail(a: string, b: string)
    ensures Unterminated(a + "|" + b) == a + "|" + Unterminated(b)
    decreases |b|
  {
    var s := a + "|" + b;
    assert s[|s| - 1] == (if b == "" then '|' else b[|b| - 1]);
    if b != "" && b[|b| - 1] == '\n' {
      assert s[..|s| - 1] == a + "|" + b[..|b| - 1];
      UnterminatedTail(a, b[..|b| - 1]);
    }
  }

  /** A check that answers to a key without newlines was recorded under that key. */
  lemma AnswersUnderKey(c: Check, p: Pair)
    requires Present(c) && LookupKey(c) == PairKey(p)
    ensures Key(c) == PairKey(p)
  {
    UnterminatedTail(c.node.value, c.home.value);
    OneLineKey(p);
    forall k | 0 <= k < |c.node.value| ensures c.node.value[k] != '\n' { assert LookupKey(c)[k] == c.node.value[k]; }
  }

  predicate DistinctKeys(checks: seq<Check>) {
    forall i, j | 0 <= i < j < |checks| :: Key(checks[i]) != Key(checks[j])
  }

  // ---- the string of seen keys ----

  predicate OccursAt(s: string, part: string, i: nat) {
    i + |part| <= |s| && s[i..i + |part|] == part
  }

  predicate Contains(s: string, part: string) {
    exists i | 0 <= i <= |s| :: OccursAt(s, part, i)
  }

  function SeenText(keys: seq<string>): string {
    if |keys| == 0 then "\n" else SeenText(keys[..|keys| - 1]) + keys[|keys| - 1] + "\n"
  }

  predicate Seen(seenKeys: string, key: string) {
    Contains(seenKeys, "\n" + key + "\n")
  }

  predicate OneLines(keys: seq<string>) {
    forall k | 0 <= k < |keys| :: OneLine(keys[k])
  }

  lemma SeenTextEnds(keys: seq<string>)
    ensures |SeenText(keys)| > 0 && SeenText(keys)[|SeenText(keys)| - 1] == '\n'
  {
  }

  /** A match that reaches beyond a text ending in a newline is the line that follows it. */
  lemma LastLine(s: string, line: string, key: string, i: nat)
    requires s != "" && s[|s| - 1] == '\n' && OneLine(line) && OneLine(key)
    requires OccursAt(s + line + "\n", "\n" + key + "\n", i)
    requires i + |key| + 2 > |s|
    ensures key == line
  {
    var text, part := s + line + "\n", "\n" + key + "\n";
    var last := i + |key| + 1;
    assert text[i] == part[0] && text[last] == part[|key| + 1];
    forall j | |s| <= j < |s| + |line| ensures text[j] != '\n' { assert text[j] == line[j - |s|]; }
    forall j | i < j < last ensures text[j] != '\n' { assert text[j] == part[j - i] == key[j - i - 1]; }
    assert text[|s| - 1] == '\n';
    assert last == |s| + |line| && i == |s| - 1;
    forall k | 0 <= k < |key| ensures key[k] == line[k] {
      assert part[k + 1] == text[i + k + 1];
    }
  }

  lemma SeenLastOrBefore(s: string, line: string, key: string)
    requires s != "" && s[|s| - 1] == '\n' && OneLine(line) && OneLine(key) && Seen(s + line + "\n", key)
    ensures Seen(s, key) || key == line
  {
    var text, part := s + line + "\n", "\n" + key + "\n";
    var i: nat :| i <= |text| && OccursAt(text, part, i);
    if i + |part| <= |s| {
      assert s[i..i + |part|] == text[i..i + |part|];
      assert OccursAt(s, part, i);
    } else {
      LastLine(s, line, key, i);
    }
  }

  lemma SeenAfter(s: string, line: string, key: string)
    requires s != "" && s[|s| - 1] == '\n' && (Seen(s, key) || key == line)
    ensures Seen(s + line + "\n", key)
  {
    var text, part := s + line + "\n", "\n" + key + "\n";
    if Seen(s, key) {
      Longer(s, line + "\n", part);
      assert text == s + (line + "\n");
    } else {
      assert OccursAt(text, part, |s| - 1);
    }
  }

  /** For keys without newlines the substring test is set membership. */
  lemma {:induction false} SeenIsMembership(keys: seq<string>, key: string)
    requires OneLines(keys) && OneLine(key)
    ensures Seen(SeenText(keys), key) <==> key in keys
    decreases |keys|
  {
    if |keys| == 0 {
      assert !Seen("\n", key);
    } else {
      var before, line := keys[..|keys| - 1], keys[|keys| - 1];
      SeenIsMembership(before, key);
      SeenTextEnds(before);
      if Seen(SeenText(keys), key) { SeenLastOrBefore(SeenText(before), line, key); }
      if key in keys { SeenAfter(SeenText(before), line, key); }
    }
  }

  lemma Longer(s: string, more: string, part: string)
    requires Contains(s, part)
    ensures Contains(s + more, part)
  {
    var i: nat :| i <= |s| && OccursAt(s, part, i);
    assert (s + more)[i..i + |part|] == s[i..i + |part|];
    assert OccursAt(s + more, part, i);
  }

  /** With a newline in a key it is not: a key that was never recorded is taken for seen. */
  lemma NewlineDeceives()
    ensures Seen(SeenText(["a\nn|h\nb"]), "n|h") && "n|h" !in ["a\nn|h\nb"]
  {
    var keys := ["a\nn|h\nb"];
    assert SeenText(keys[..0]) == "\n";
    var text := SeenText(keys);
    assert text == "\na\nn|h\nb\n";
    assert text[2..7] == "\nn|h\n";
    assert OccursAt(text, "\n" + "n|h" + "\n", 2);
  }

  // ---- what a clean exit means ----

  function Contributed(document: Document): seq<Check> {
    if document.bound then document.checks else []
  }

  function AllChecks(documents: seq<Document>): seq<Check> {
    if |documents| == 0 then [] else AllChecks(documents[..|documents| - 1]) + Contributed(documents[|documents| - 1])
  }

  predicate AllBound(documents: seq<Document>) {
    forall d | 0 <= d < |documents| :: documents[d].bound
  }

  /** The first check that answers to the key of the pair. */
  function FirstAnswer(checks: seq<Check>, key: string): Option<Check> {
    if |checks| == 0 then None
    else if LookupKey(checks[0]) == key then Some(checks[0])
    else FirstAnswer(checks[1..], key)
  }

  predicate Confirmed(checks: seq<Check>, p: Pair) {
    && PairKey(p) in Keys(checks)
    && FirstAnswer(checks, PairKey(p)).Some? && FirstAnswer(checks, PairKey(p)).value.passes
  }

  /** No key is taken for seen when it comes. */
  predicate NeverSeen(checks: seq<Check>) {
    |checks| > 0 ==>
      var before := checks[..|checks| - 1];
      NeverSeen(before) && !Seen(SeenText(Keys(before)), Key(checks[|checks| - 1]))
  }

  /** The pair is taken for seen, and its first answer passes. */
  predicate Answered(checks: seq<Check>, p: Pair) {
    && Seen(SeenText(Keys(checks)), PairKey(p))
    && FirstAnswer(checks, PairKey(p)).Some? && FirstAnswer(checks, PairKey(p)).value.passes
  }

  predicate AllAnswered(checks: seq<Check>, expected: seq<Pair>) {
    forall e | 0 <= e < |expected| :: Answered(checks, expected[e])
  }

  lemma NeverSeenMore(checks: seq<Check>, check: Check)
    ensures NeverSeen(checks + [check]) <==> NeverSeen(checks) && !Seen(SeenText(Keys(checks)), Key(check))
    ensures SeenText(Keys(checks + [check])) == SeenText(Keys(checks)) + Key(check) + "\n"
  {
    var more := checks + [check];
    assert more[..|checks|] == checks && more[|checks|] == check;
    KeysMore(checks, check);
    assert Keys(more)[..|checks|] == Keys(checks);
  }

  predicate AllConfirmed(checks: seq<Check>, expected: seq<Pair>) {
    forall e | 0 <= e < |expected| :: Confirmed(checks, expected[e])
  }

  /** The key of the pair is taken for seen, and no gathered check answers to it. */
  predicate Unanswerable(kept: seq<Check>, p: Pair) {
    Seen(SeenText(Keys(kept)), PairKey(p)) && FirstAnswer(kept, PairKey(p)).None?
  }

  predicate SomeUnanswerable(kept: seq<Check>, expected: seq<Pair>) {
    exists e | 0 <= e < |expected| :: Unanswerable(kept, expected[e])
  }

  /** What the first pairs come to when they are looked up. */
  predicate AnsweredUpTo(checks: seq<Check>, expected: seq<Pair>, e: nat)
    requires e <= |expected|
  {
    e > 0 ==> AnsweredUpTo(checks, expected, e - 1) && Answered(checks, expected[e - 1])
  }

  predicate UnanswerableUpTo(checks: seq<Check>, expected: seq<Pair>, e: nat)
    requires e <= |expected|
  {
    e > 0 && (UnanswerableUpTo(checks, expected, e - 1) || Unanswerable(checks, expected[e - 1]))
  }

  lemma {:induction false} LaterToo(checks: seq<Check>, expected: seq<Pair>, e: nat)
    requires e <= |expected| && UnanswerableUpTo(checks, expected, e)
    ensures UnanswerableUpTo(checks, expected, |expected|)
    decreases |expected| - e
  {
    if e < |expected| { LaterToo(checks, expected, e + 1); }
  }

  lemma {:induction false} AllUpTo(checks: seq<Check>, expected: seq<Pair>, e: nat)
    requires e <= |expected|
    ensures AnsweredUpTo(checks, expected, e) <==> forall x | 0 <= x < e :: Answered(checks, expected[x])
    ensures UnanswerableUpTo(checks, expected, e) <==> exists x | 0 <= x < e :: Unanswerable(checks, expected[x])
  {
    if e > 0 { AllUpTo(checks, expected, e - 1); }
  }

  lemma DocumentMore(documents: seq<Document>, d: nat)
    requires d < |documents|
    ensures AllChecks(documents[..d + 1]) == AllChecks(documents[..d]) + Contributed(documents[d])
    ensures AllBound(documents[..d + 1]) <==> AllBound(documents[..d]) && documents[d].bound
  {
    assert documents[..d + 1] == documents[..d] + [documents[d]];
  }

  /** The checks that are gathered: each whose key is not taken for seen among those gathered before it. */
  function Kept(read: seq<Check>): seq<Check> {
    if |read| == 0 then []
    else
      var before, check := Kept(read[..|read| - 1]), read[|read| - 1];
      if Seen(SeenText(Keys(before)), Key(check)) then before else before + [check]
  }

  lemma {:induction false} NewAreKept(read: seq<Check>)
    requires NeverSeen(read)
    ensures Kept(read) == read
    decreases |read|
  {
    if |read| > 0 {
      var before, check := read[..|read| - 1], read[|read| - 1];
      assert read == before + [check];
      NeverSeenMore(before, check);
      NewAreKept(before);
      assert !Seen(SeenText(Keys(Kept(before))), Key(check));
    }
  }

  ghost predicate Gathered(read: seq<Check>, allBound: bool, checks: seq<Check>, findings: seq<Finding>, seenKeys: string) {
    && (findings == [] <==> allBound && NeverSeen(read))
    && checks == Kept(read) && seenKeys == SeenText(Keys(checks))
  }

  lemma GatherOne(
    read: seq<Check>, allBound: bool, checks: seq<Check>, findings: seq<Finding>, seenKeys: string, check: Check)
    requires Gathered(read, allBound, checks, findings, seenKeys)
    ensures Seen(seenKeys, Key(check)) ==>
      Gathered(read + [check], allBound, checks, findings + [Duplicate(Key(check))], seenKeys)
    ensures !Seen(seenKeys, Key(check)) ==>
      Gathered(read + [check], allBound, checks + [check], findings, seenKeys + Key(check) + "\n")
  {
    NeverSeenMore(read, check);
    NeverSeenMore(checks, check);
    if NeverSeen(read) { NewAreKept(read); }
    assert (read + [check])[..|read|] == read;
  }

  /** What exit 0 means, on any input. */
  predicate ExitsClean(documents: seq<Document>, expected: seq<Pair>) {
    AllBound(documents) && NeverSeen(AllChecks(documents)) && AllAnswered(AllChecks(documents), expected)
  }

  /** The exit on any input. */
  function ExitCode(documents: seq<Document>, expected: seq<Pair>): Exit {
    if SomeUnanswerable(Kept(AllChecks(documents)), expected) then Aborted
    else if ExitsClean(documents, expected) then Clean
    else Findings
  }

  lemma PrefixMore(before: seq<Check>, checks: seq<Check>, c: nat)
    requires c < |checks|
    ensures before + checks[..c] + [checks[c]] == before + checks[..c + 1]
  {
  }

  class Reconciler {
    var checks: seq<Check>
    var findings: seq<Finding>
    var seenKeys: string

    /** The checks read so far, and whether every document read so far was bound. */
    ghost var read: seq<Check>
    ghost var allBound: bool

    constructor ()
      ensures checks == [] && findings == [] && seenKeys == "\n" && read == [] && allBound
    {
      checks, findings, seenKeys, read, allBound := [], [], "\n", [], true;
    }

    /** Without findings, everything read was bound, was new when it came, and has been gathered. */
    ghost predicate Valid()
      reads this
    {
      Gathered(read, allBound, checks, findings, seenKeys)
    }

    method AddCheck(check: Check)
      requires Valid()
      modifies this
      ensures Valid() && read == old(read) + [check] && allBound == old(allBound)
    {
      var key := Key(check);
      GatherOne(read, allBound, checks, findings, seenKeys, check);
      read := read + [check];
      if Seen(seenKeys, key) {
        findings := findings + [Duplicate(key)];
      } else {
        seenKeys := seenKeys + key + "\n";
        checks := checks + [check];
      }
    }

    method AddDocument(document: Document)
      requires Valid()
      modifies this
      ensures Valid() && read == old(read) + Contributed(document) && allBound == (old(allBound) && document.bound)
    {
      if !document.bound {
        findings := findings + [DocumentInvalid];
        allBound := false;
        return;
      }
      var c := 0;
      while c < |document.checks|
        invariant 0 <= c <= |document.checks|
        invariant Valid() && read == old(read) + document.checks[..c] && allBound == old(allBound)
      {
        AddCheck(document.checks[c]);
        c := c + 1;
        assert read == old(read) + document.checks[..c] by { PrefixMore(old(read), document.checks, c - 1); }
      }
      assert document.checks[..c] == document.checks;
    }

    method AddDocuments(documents: seq<Document>)
      requires Valid() && read == [] && allBound
      modifies this
      ensures Valid() && read == AllChecks(documents) && allBound == AllBound(documents)
    {
      var d := 0;
      while d < |documents|
        invariant 0 <= d <= |documents|
        invariant Valid() && read == AllChecks(documents[..d]) && allBound == AllBound(documents[..d])
      {
        AddDocument(documents[d]);
        d := d + 1;
        assert read == AllChecks(documents[..d]) && allBound == AllBound(documents[..d]) by { DocumentMore(documents, d - 1); }
      }
      assert documents[..d] == documents;
    }

    /** The search for the check of a key among those collected. */
    method Find(key: string) returns (found: Option<Check>)
      ensures found == FirstAnswer(checks, key)
    {
      found := None;
      var i := 0;
      while i < |checks|
        invariant 0 <= i <= |checks|
        invariant FirstAnswer(checks, key) == FirstAnswer(checks[i..], key)
      {
        if LookupKey(checks[i]) == key { return Some(checks[i]); }
        i := i + 1;
      }
    }

    /** The documents are sound and the pairs looked up so far answered exactly if there are no findings. */
    ghost predicate LookedUp(answered: bool)
      reads this
    {
      && (findings == [] <==> allBound && NeverSeen(read) && answered)
      && checks == Kept(read) && seenKeys == SeenText(Keys(checks))
    }

    method LookUp(p: Pair, ghost answered: bool) returns (aborted: bool)
      requires LookedUp(answered)
      modifies `findings
      ensures aborted <==> Unanswerable(checks, p)
      ensures !aborted ==> LookedUp(answered && Answered(checks, p))
    {
      var key := PairKey(p);
      if !Seen(seenKeys, key) {
        findings := findings + [Missing(key)];
        return false;
      }
      var check := Find(key);
      if check.None? { return true; }
      if !check.value.passes { findings := findings + [CheckFailed(key)]; }
      aborted := false;
    }

    method LookUpAll(expected: seq<Pair>) returns (aborted: bool)
      requires LookedUp(true)
      modifies `findings
      ensures aborted <==> UnanswerableUpTo(checks, expected, |expected|)
      ensures !aborted ==> LookedUp(AnsweredUpTo(checks, expected, |expected|))
    {
      ghost var answered := true;
      var e := 0;
      while e < |expected|
        invariant 0 <= e <= |expected|
        invariant LookedUp(answered)
        invariant answered == AnsweredUpTo(checks, expected, e)
        invariant !UnanswerableUpTo(checks, expected, e)
      {
        aborted := LookUp(expected[e], answered);
        if aborted {
          LaterToo(checks, expected, e + 1);
          return;
        }
        answered := answered && Answered(checks, expected[e]);
        e := e + 1;
      }
      aborted := false;
    }

    /** collect and the exit decision, on any input. */
    method Reconcile(documents: seq<Document>, expected: seq<Pair>) returns (exit: Exit)
      requires checks == [] && findings == [] && seenKeys == "\n" && read == [] && allBound
      modifies this
      ensures exit == ExitCode(documents, expected)
      ensures checks == Kept(AllChecks(documents)) && (!exit.Aborted? ==> (exit.Clean? <==> findings == []))
    {
      assert Keys(checks) == [] == Keys([]);
      AddDocuments(documents);
      var aborted := LookUpAll(expected);
      AllUpTo(checks, expected, |expected|);
      if NeverSeen(read) { NewAreKept(read); }
      exit := if aborted then Aborted else if findings == [] then Clean else Findings;
    }
  }

  // ---- the exit code and the rule ----

  /** The rule the reconciler is for: no key occurs twice, and every expected pair has its own passing check. */
  predicate Rule(documents: seq<Document>, expected: seq<Pair>) {
    AllBound(documents) && DistinctKeys(AllChecks(documents)) && AllConfirmed(AllChecks(documents), expected)
  }

  /** Exit 0 exactly if every document is bound, no key is taken for seen when it comes, and every expected pair is
    * answered. */
  lemma CleanExit(documents: seq<Document>, expected: seq<Pair>)
    ensures ExitCode(documents, expected).Clean? <==> ExitsClean(documents, expected)
  {
    if ExitsClean(documents, expected) { NewAreKept(AllChecks(documents)); }
  }

  lemma {:induction false} NeverSeenIsDistinct(checks: seq<Check>)
    requires OneLines(Keys(checks))
    ensures NeverSeen(checks) <==> DistinctKeys(checks)
    decreases |checks|
  {
    if |checks| > 0 {
      var before, check := checks[..|checks| - 1], checks[|checks| - 1];
      assert checks == before + [check];
      LinesOf(before, check);
      NeverSeenIsDistinct(before);
      NeverSeenMore(before, check);
      DistinctMore(before, check);
      SeenIsMembership(Keys(before), Key(check));
    }
  }

  /** If no key contains a newline, exit 0 is the rule. */
  lemma OneLineExit(documents: seq<Document>, expected: seq<Pair>)
    requires OneLines(Keys(AllChecks(documents)))
    ensures ExitsClean(documents, expected) <==> Rule(documents, expected)
  {
    var all := AllChecks(documents);
    NeverSeenIsDistinct(all);
    forall e | 0 <= e < |expected| ensures Answered(all, expected[e]) <==> Confirmed(all, expected[e]) {
      OneLineKey(expected[e]);
      SeenIsMembership(Keys(all), PairKey(expected[e]));
    }
  }

  /** A recorded key is always taken for seen. */
  lemma {:induction false} RecordedIsSeen(keys: seq<string>, key: string)
    requires key in keys
    ensures Seen(SeenText(keys), key)
    decreases |keys|
  {
    var before, line := keys[..|keys| - 1], keys[|keys| - 1];
    SeenTextEnds(before);
    if key in before { RecordedIsSeen(before, key); }
    SeenAfter(SeenText(before), line, key);
  }

  lemma {:induction false} NewKeysAreDistinct(checks: seq<Check>)
    requires NeverSeen(checks)
    ensures DistinctKeys(checks)
    decreases |checks|
  {
    if |checks| > 0 {
      var before, check := checks[..|checks| - 1], checks[|checks| - 1];
      assert checks == before + [check];
      NeverSeenMore(before, check);
      NewKeysAreDistinct(before);
      DistinctMore(before, check);
      if Key(check) in Keys(before) { RecordedIsSeen(Keys(before), Key(check)); }
    }
  }

  lemma AnsweredIsConfirmed(checks: seq<Check>, p: Pair)
    requires Answered(checks, p) && AllPresent(checks)
    ensures Confirmed(checks, p)
  {
    AnswerIsFirst(checks, PairKey(p));
    var m :| 0 <= m < |checks| && checks[m] == FirstAnswer(checks, PairKey(p)).value;
    AnswersUnderKey(checks[m], p);
    assert Keys(checks)[m] == PairKey(p);
  }

  /** Exit 0 is never wrong about checks with both fields, newlines or not. */
  lemma CleanExitIsSound(documents: seq<Document>, expected: seq<Pair>)
    requires ExitsClean(documents, expected)
    requires AllPresent(AllChecks(documents))
    ensures Rule(documents, expected)
  {
    var all := AllChecks(documents);
    NewKeysAreDistinct(all);
    forall e | 0 <= e < |expected| ensures Confirmed(all, expected[e]) { AnsweredIsConfirmed(all, expected[e]); }
  }

  function Wide(): Check { Check(Some("a\nn"), Some("h\nb"), true) }

  function Narrow(): Check { Check(Some("n"), Some("h"), true) }

  lemma WideIsNotNarrow()
    ensures DistinctKeys([Wide(), Narrow()])
  {
    assert Key(Wide())[0] == 'a' && Key(Narrow())[0] == 'n';
  }

  lemma OneDocument(checks: seq<Check>)
    ensures AllChecks([Document(true, checks)]) == checks
  {
    assert [Document(true, checks)][..0] == [];
  }

  lemma WideIsKept()
    ensures Kept([Wide(), Narrow()]) == [Wide()] && Seen(SeenText(Keys([Wide()])), "n|h")
  {
    assert Key(Wide()) == "a\nn|h\nb" && Key(Narrow()) == "n|h";
    assert Keys([Wide()]) == ["a\nn|h\nb"];
    assert [Wide(), Narrow()][..1] == [Wide()] && [Wide()][..0] == [];
    assert SeenText(Keys([])) == "\n" && !Contains("\n", "\n" + Key(Wide()) + "\n");
    assert Kept([Wide()]) == [Wide()];
    NewlineDeceives();
  }

  lemma NarrowAnswers()
    ensures LookupKey(Narrow()) == Key(Narrow()) == PairKey(("n", "h")) == "n|h" && LookupKey(Wide()) != "n|h"
  {
    UnterminatedTail("n", "h");
    UnterminatedTail("a\nn", "h\nb");
  }

  function Misjudged(): seq<Document> { [Document(true, [Wide(), Narrow()])] }

  lemma MisjudgedIsRight()
    ensures Rule(Misjudged(), [("n", "h")])
  {
    WideIsNotNarrow();
    NarrowAnswers();
    SecondConfirms(Wide(), Narrow(), ("n", "h"));
    RuleOfOne([Wide(), Narrow()], [("n", "h")]);
  }

  lemma RuleOfOne(checks: seq<Check>, expected: seq<Pair>)
    requires DistinctKeys(checks) && AllConfirmed(checks, expected)
    ensures Rule([Document(true, checks)], expected)
  {
    OneDocument(checks);
  }

  lemma SecondConfirms(x: Check, y: Check, p: Pair)
    requires LookupKey(x) != PairKey(p) && LookupKey(y) == Key(y) == PairKey(p) && y.passes
    ensures AllConfirmed([x, y], [p])
  {
    FirstOfTwo(x, y, PairKey(p));
    assert Keys([x, y])[1] == PairKey(p);
  }

  lemma MisjudgedAborts()
    ensures ExitCode(Misjudged(), [("n", "h")]).Aborted?
  {
    OneDocument([Wide(), Narrow()]);
    WideIsKept();
    NarrowAnswers();
    FirstOfTwo(Wide(), Narrow(), "n|h");
    OneUnanswerable([Wide()], ("n", "h"));
  }

  lemma OneUnanswerable(kept: seq<Check>, p: Pair)
    requires Unanswerable(kept, p)
    ensures SomeUnanswerable(kept, [p])
  {
    assert Unanswerable(kept, [p][0]);
  }

  /** With newlines it can be withheld: one bound document with two different checks satisfies the rule for a pair that
    * has its own passing check; but that check is taken for seen and dropped, and the shell aborts. */
  lemma NewlineMisjudged()
    ensures Rule(Misjudged(), [("n", "h")]) && ExitCode(Misjudged(), [("n", "h")]).Aborted?
  {
    MisjudgedIsRight();
    MisjudgedAborts();
  }

  lemma FirstOfTwo(x: Check, y: Check, key: string)
    requires LookupKey(x) != key && LookupKey(y) == key
    ensures FirstAnswer([x, y], key) == Some(y) && FirstAnswer([x], key).None?
  {
    assert [x, y][1..] == [y] && [x][1..] == [];
    assert FirstAnswer([], key).None?;
  }

  // ---- helpers on keys ----

  lemma KeysMore(all: seq<Check>, check: Check)
    ensures Keys(all + [check]) == Keys(all) + [Key(check)]
  {
  }

  lemma LinesOf(all: seq<Check>, check: Check)
    requires OneLines(Keys(all + [check]))
    ensures OneLines(Keys(all)) && OneLine(Key(check))
  {
    KeysMore(all, check);
    assert Keys(all + [check])[|all|] == Key(check);
    assert forall k | 0 <= k < |all| :: Keys(all)[k] == Keys(all + [check])[k];
  }

  lemma DistinctMore(all: seq<Check>, check: Check)
    ensures DistinctKeys(all + [check]) <==> DistinctKeys(all) && Key(check) !in Keys(all)
  {
    var more := all + [check];
    if DistinctKeys(more) {
      forall i, j | 0 <= i < j < |all| ensures Key(all[i]) != Key(all[j]) { assert more[i] == all[i] && more[j] == all[j]; }
      forall i | 0 <= i < |all| ensures Keys(all)[i] != Key(check) { assert more[i] == all[i] && more[|all|] == check; }
    }
    if DistinctKeys(all) && Key(check) !in Keys(all) {
      forall i | 0 <= i < |all| ensures Key(all[i]) != Key(check) { assert Keys(all)[i] == Key(all[i]); }
    }
  }

  // ---- pairs rather than keys ----

  /** Node and home are present and contain neither separator nor newline, so keys determine pairs. */
  predicate Named(c: Check) {
    Present(c) && '|' !in c.node.value && '|' !in c.home.value && OneLine(c.node.value) && OneLine(c.home.value)
  }

  predicate For(c: Check, p: Pair) {
    c.node == Some(p.0) && c.home == Some(p.1)
  }

  lemma KeysDetermine(node1: string, home1: string, node2: string, home2: string)
    requires '|' !in node1 && '|' !in node2
    requires node1 + "|" + home1 == node2 + "|" + home2
    ensures node1 == node2 && home1 == home2
  {
    var x, y := node1 + "|" + home1, node2 + "|" + home2;
    assert |node1| == |node2| by {
      assert x[|node1|] == '|' && y[|node2|] == '|';
      forall k | 0 <= k < |node1| ensures x[k] != '|' { assert x[k] == node1[k]; }
      forall k | 0 <= k < |node2| ensures y[k] != '|' { assert y[k] == node2[k]; }
    }
    assert x[..|node1|] == node1 && y[..|node2|] == node2;
    assert x[|node1| + 1..] == home1 && y[|node2| + 1..] == home2;
  }

  /** A separator inside a name makes two pairs share a key. */
  lemma SeparatorConfuses()
    ensures PairKey(("a|b", "c")) == PairKey(("a", "b|c"))
  {
    assert "a|b" + "|" + "c" == "a" + "|" + "b|c";
  }

  lemma {:induction false} AnswerIsFirst(checks: seq<Check>, key: string)
    ensures FirstAnswer(checks, key).None? ==> forall k | 0 <= k < |checks| :: LookupKey(checks[k]) != key
    ensures FirstAnswer(checks, key).Some? ==>
      FirstAnswer(checks, key).value in checks && LookupKey(FirstAnswer(checks, key).value) == key
    decreases |checks|
  {
    if |checks| > 0 && LookupKey(checks[0]) != key {
      AnswerIsFirst(checks[1..], key);
      forall k | 0 < k < |checks| && FirstAnswer(checks, key).None? ensures LookupKey(checks[k]) != key {
        assert checks[k] == checks[1..][k - 1];
      }
    }
  }

  predicate HasPassing(checks: seq<Check>, p: Pair) {
    exists k | 0 <= k < |checks| :: For(checks[k], p) && checks[k].passes
  }

  lemma NamedKey(c: Check, p: Pair)
    requires Named(c) && '|' !in p.0
    ensures LookupKey(c) == Key(c) && (Key(c) == PairKey(p) <==> For(c, p))
  {
    UnterminatedTail(c.node.value, c.home.value);
    if Key(c) == PairKey(p) { KeysDetermine(c.node.value, c.home.value, p.0, p.1); }
  }

  lemma ConfirmedHasPassing(checks: seq<Check>, p: Pair)
    requires '|' !in p.0 && AllNamed(checks) && Confirmed(checks, p)
    ensures HasPassing(checks, p)
  {
    AnswerIsFirst(checks, PairKey(p));
    var m :| 0 <= m < |checks| && checks[m] == FirstAnswer(checks, PairKey(p)).value;
    NamedKey(checks[m], p);
  }

  lemma PassingIsConfirmed(checks: seq<Check>, p: Pair)
    requires '|' !in p.0 && AllNamed(checks) && DistinctKeys(checks) && HasPassing(checks, p)
    ensures Confirmed(checks, p)
  {
    var key := PairKey(p);
    AnswerIsFirst(checks, key);
    var k :| 0 <= k < |checks| && For(checks[k], p) && checks[k].passes;
    NamedKey(checks[k], p);
    assert Keys(checks)[k] == key;
    var m :| 0 <= m < |checks| && checks[m] == FirstAnswer(checks, key).value;
    NamedKey(checks[m], p);
    assert Key(checks[m]) == Key(checks[k]);
  }

  /** For named checks and pairs, a pair is confirmed exactly when a passing check for that very pair was collected. */
  lemma ConfirmedPair(checks: seq<Check>, p: Pair)
    requires DistinctKeys(checks) && '|' !in p.0 && AllNamed(checks)
    ensures Confirmed(checks, p) <==> HasPassing(checks, p)
  {
    if Confirmed(checks, p) { ConfirmedHasPassing(checks, p); }
    if HasPassing(checks, p) { PassingIsConfirmed(checks, p); }
  }

  predicate DistinctPairs(checks: seq<Check>) {
    forall i, j | 0 <= i < j < |checks| :: checks[i].node != checks[j].node || checks[i].home != checks[j].home
  }

  lemma DistinctIsDistinct(checks: seq<Check>)
    requires AllNamed(checks)
    ensures DistinctKeys(checks) <==> DistinctPairs(checks)
  {
    forall i, j | 0 <= i < j < |checks|
      ensures Key(checks[i]) == Key(checks[j]) <==> checks[i].node == checks[j].node && checks[i].home == checks[j].home
    {
      if Key(checks[i]) == Key(checks[j]) {
        KeysDetermine(checks[i].node.value, checks[i].home.value, checks[j].node.value, checks[j].home.value);
      }
    }
  }

  predicate AllNamed(checks: seq<Check>) {
    forall k | 0 <= k < |checks| :: Named(checks[k])
  }

  predicate AllPassing(checks: seq<Check>, expected: seq<Pair>) {
    forall e | 0 <= e < |expected| :: HasPassing(checks, expected[e])
  }

  /** For named input, the condition of a clean exit speaks of pairs: no pair occurs twice in all documents together,
    * and every expected pair has a passing check. */
  lemma CleanForPairs(checks: seq<Check>, expected: seq<Pair>)
    requires AllNamed(checks) && forall e | 0 <= e < |expected| :: '|' !in expected[e].0
    ensures DistinctKeys(checks) && AllConfirmed(checks, expected) <==> DistinctPairs(checks) && AllPassing(checks, expected)
  {
    DistinctIsDistinct(checks);
    if DistinctKeys(checks) {
      forall e | 0 <= e < |expected| ensures Confirmed(checks, expected[e]) <==> HasPassing(checks, expected[e]) {
        ConfirmedPair(checks, expected[e]);
      }
    }
  }

  /** A missing node collects under a key nothing answers to: the shell aborts instead of reporting a finding. */
  lemma AbsentNodeAborts(home: string, passes: bool, expected: seq<Pair>)
    requires OneLine(home) && ("null", home) in expected
    ensures ExitCode([Document(true, [Check(None, Some(home), passes)])], expected).Aborted?
  {
    var check, p: Pair := Check(None, Some(home), passes), ("null", home);
    OneDocument([check]);
    AbsentKeys(home, passes);
    assert [check][..0] == [] && [check][1..] == [] && Keys([]) == [] && Keys([check]) == [Key(check)];
    assert SeenText([]) == "\n" && !Contains("\n", "\n" + Key(check) + "\n");
    assert Kept([check]) == [check];
    RecordedIsSeen([Key(check)], PairKey(p));
    var e :| 0 <= e < |expected| && expected[e] == p;
    assert Unanswerable([check], expected[e]);
  }

  lemma AbsentKeys(home: string, passes: bool)
    requires OneLine(home)
    ensures var check := Check(None, Some(home), passes); Key(check) == PairKey(("null", home)) && LookupKey(check) != Key(check)
  {
    UnterminatedTail("", home);
    OneLineKey(("null", home));
    var check := Check(None, Some(home), passes);
    assert Unterminated(home) == home;
    assert ("" + "|" + home)[0] == '|' && ("null" + "|" + home)[0] == 'n';
    assert LookupKey(check) == "" + "|" + home;
  }
}
