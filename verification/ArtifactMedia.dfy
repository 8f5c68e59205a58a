/** Patch media: every archive entry is checked before anything is written, and only directories and regular files
  * below the expected top directory are ever created. */
module ArtifactMedia {
  import opened Text

  type Path = seq<string>

  datatype Node = Directory | Regular(size: int, executable: bool) | Special

  datatype TarKind = TarDirectory | TarRegular | TarOther

  /** A member as its header describes it, with the length of the payload actually stored, if there is one. */
  datatype Item =
    | Tar(name: string, kind: TarKind, mode: nat, size: int, payload: Option<nat>)
    | Zip(name: string, mode: nat, size: int, payload: Option<nat>)

  /** A member that passed the preflight. */
  datatype Entry = Entry(path: Path, directory: bool, executable: bool, size: int, payload: Option<nat>)

  datatype Limits = Limits(maxBytes: int, maxFiles: int)

  datatype Result = Rejected | Failed | Extracted

  // ---- names ----

  /** The components between slashes, without the empty ones and the dots. */
  function Parts(name: string): Path {
    PartsFrom(name, "")
  }

  function PartsFrom(rest: string, current: string): Path {
    if rest == "" then Component(current)
    else if rest[0] == '/' then Component(current) + PartsFrom(rest[1..], "")
    else PartsFrom(rest[1..], current + [rest[0]])
  }

  function Component(c: string): Path {
    if c == "" || c == "." then [] else [c]
  }

  predicate Control(c: char) {
    c as int < 32 || c as int == 127
  }

  predicate Printable(s: string) {
    forall k | 0 <= k < |s| :: !Control(s[k])
  }

  function MemberPath(name: string, expected: string): Option<Path> {
    var parts := Parts(name);
    if name == "" || '\\' in name || name[0] == '/' || ".." in parts || parts == [] || parts[0] != expected || !Printable(name)
    then None else Some(parts)
  }

  // ---- the preflight of one member ----

  function Format(mode: nat): nat {
    mode / 4096 % 16
  }

  predicate Executable(mode: nat) {
    mode % 2 == 1 || mode / 8 % 2 == 1 || mode / 64 % 2 == 1
  }

  predicate IsDirectory(i: Item) {
    match i
    case Tar(_, kind, _, _, _) => kind.TarDirectory?
    case Zip(name, _, _, _) => name != "" && name[|name| - 1] == '/'
  }

  /** Neither a link nor a special file, and for a zip directory, not marked as something else. */
  predicate PlainKind(i: Item) {
    match i
    case Tar(_, kind, _, _, _) => !kind.TarOther?
    case Zip(_, mode, _, _) => Format(mode) == 0 || Format(mode) == (if IsDirectory(i) then 4 else 8)
  }

  function EntryOf(i: Item, expected: string): Option<Entry> {
    if MemberPath(i.name, expected).None? || !PlainKind(i) || i.size < 0 then None
    else Some(Entry(MemberPath(i.name, expected).value, IsDirectory(i), Executable(i.mode), i.size, i.payload))
  }

  function TotalSize(items: seq<Item>): int {
    if |items| == 0 then 0 else TotalSize(items[..|items| - 1]) + items[|items| - 1].size
  }

  // ---- writing ----

  function Parent(p: Path): Path
    requires p != []
  {
    p[..|p| - 1]
  }

  /** mkdir with parents succeeds when nothing but directories is in the way. */
  predicate CanMake(nodes: map<Path, Node>, p: Path) {
    forall k | 0 <= k <= |p| :: p[..k] in nodes ==> nodes[p[..k]].Directory?
  }

  function WithDirectories(nodes: map<Path, Node>, p: Path): map<Path, Node> {
    if p in nodes then nodes
    else if p == [] then nodes[p := Directory]
    else WithDirectories(nodes, Parent(p))[p := Directory]
  }

  datatype Written = Written(nodes: map<Path, Node>, ok: bool)

  function WriteOne(nodes: map<Path, Node>, e: Entry): Written
    requires e.path != []
  {
    if e.directory then
      if CanMake(nodes, e.path) then Written(WithDirectories(nodes, e.path), true) else Written(nodes, false)
    else if !CanMake(nodes, Parent(e.path)) then Written(nodes, false)
    else
      var made := WithDirectories(nodes, Parent(e.path));
      if e.payload.None? || e.path in made then Written(made, false)
      else if e.payload.value != e.size then Written(made[e.path := Regular(e.payload.value, false)], false)
      else Written(made[e.path := Regular(e.size, e.executable)], true)
  }

  function WriteAll(nodes: map<Path, Node>, entries: seq<Entry>): Written
    requires forall k | 0 <= k < |entries| :: entries[k].path != []
  {
    if |entries| == 0 then Written(nodes, true)
    else
      var before := WriteAll(nodes, entries[..|entries| - 1]);
      if before.ok then WriteOne(before.nodes, entries[|entries| - 1]) else before
  }

  /** validate_tree: below a real directory there are only directories and plain files with printable names. */
  predicate ValidTree(nodes: map<Path, Node>, root: Path) {
    && root in nodes && nodes[root].Directory?
    && forall p | p in nodes && root < p :: !nodes[p].Special? && Printable(p[|p| - 1])
  }

  // ---- what a good archive is ----

  predicate EntriesOf(items: seq<Item>, expected: string, entries: seq<Entry>) {
    |entries| == |items| && forall k | 0 <= k < |items| :: EntryOf(items[k], expected) == Some(entries[k])
  }

  predicate Distinct(entries: seq<Entry>) {
    forall i, j | 0 <= i < j < |entries| :: entries[i].path != entries[j].path
  }

  /** Every member is acceptable, no path comes twice, and the limits hold. */
  predicate Acceptable(items: seq<Item>, expected: string, limits: Limits, entries: seq<Entry>) {
    && limits.maxBytes > 0 && limits.maxFiles > 0 && items != []
    && EntriesOf(items, expected, entries) && Distinct(entries)
    && |items| <= limits.maxFiles && TotalSize(items) <= limits.maxBytes
  }

  predicate Apart(e: Entry, f: Entry) {
    && (!e.directory ==> !(e.path <= f.path))
    && (!f.directory ==> !(f.path <= e.path))
  }

  /** No regular entry lies on the way to another entry. */
  predicate PrefixFree(entries: seq<Entry>) {
    forall i, j | 0 <= i < j < |entries| :: Apart(entries[i], entries[j])
  }

  /** The top directory is not itself an archived file. */
  predicate BelowTop(entries: seq<Entry>) {
    forall i | 0 <= i < |entries| :: !entries[i].directory ==> |entries[i].path| > 1
  }

  predicate PayloadMatches(e: Entry) {
    !e.directory ==> e.payload.Some? && e.payload.value == e.size
  }

  predicate PayloadsMatch(entries: seq<Entry>) {
    forall i | 0 <= i < |entries| :: PayloadMatches(entries[i])
  }

  /** p is the path of an entry or of a directory on the way to one. */
  predicate OnTheWay(entries: seq<Entry>, p: Path) {
    exists i | 0 <= i < |entries| :: p <= entries[i].path
  }

  predicate IsFile(entries: seq<Entry>, p: Path) {
    exists i | 0 <= i < |entries| :: !entries[i].directory && entries[i].path == p
  }

  /** The tree below a fresh destination holds exactly the regular entries, at their declared sizes, and the
    * directories on the way to entries. */
  ghost predicate Holds(nodes: map<Path, Node>, entries: seq<Entry>) {
    && (forall p: Path :: p in nodes <==> p == [] || OnTheWay(entries, p))
    && (forall i | 0 <= i < |entries| && !entries[i].directory ::
         entries[i].path in nodes && nodes[entries[i].path] == Regular(entries[i].size, entries[i].executable))
    && (forall p | p in nodes :: nodes[p].Directory? || IsFile(entries, p))
  }

  const FRESH: map<Path, Node> := map[[] := Directory]

  // ---- writing does just that ----

  ghost predicate Closed(nodes: map<Path, Node>) {
    [] in nodes && forall p, q: Path | p in nodes && q <= p :: q in nodes
  }

  lemma ParentPrefix(q: Path, p: Path)
    requires p != []
    ensures q <= Parent(p) <==> q <= p && q != p
  {
    if q <= p && q != p { assert q == Parent(p)[..|q|]; }
    if q <= Parent(p) { assert q == p[..|q|]; }
  }

  lemma {:induction false} DirectoriesMade(nodes: map<Path, Node>, p: Path)
    requires Closed(nodes)
    ensures forall q: Path :: q in WithDirectories(nodes, p) <==> q in nodes || q <= p
    ensures forall q | q in WithDirectories(nodes, p) ::
      WithDirectories(nodes, p)[q] == if q in nodes then nodes[q] else Directory
    decreases |p|
  {
    if p !in nodes {
      DirectoriesMade(nodes, Parent(p));
      forall q: Path ensures q in WithDirectories(nodes, p) <==> q in nodes || q <= p { ParentPrefix(q, p); }
    }
  }

  lemma HeldIsClosed(nodes: map<Path, Node>, entries: seq<Entry>)
    requires Holds(nodes, entries)
    ensures Closed(nodes)
  {
    forall p, q: Path | p in nodes && q <= p ensures q in nodes {
      if p != [] {
        var i :| 0 <= i < |entries| && p <= entries[i].path;
        assert q <= entries[i].path;
      }
    }
  }

  lemma MakeableWhenApart(nodes: map<Path, Node>, entries: seq<Entry>, p: Path)
    requires Holds(nodes, entries)
    ensures CanMake(nodes, p) <==> forall i | 0 <= i < |entries| && !entries[i].directory :: !(entries[i].path <= p)
  {
    if i: nat :| i < |entries| && !entries[i].directory && entries[i].path <= p {
      assert p[..|entries[i].path|] == entries[i].path;
    }
  }

  lemma WriteDirectory(nodes: map<Path, Node>, entries: seq<Entry>, e: Entry)
    requires Holds(nodes, entries) && e.path != [] && e.directory && CanMake(nodes, e.path)
    ensures Holds(WithDirectories(nodes, e.path), entries + [e])
  {
    HeldIsClosed(nodes, entries);
    DirectoriesMade(nodes, e.path);
    Extend(entries, e);
  }

  lemma Extend(entries: seq<Entry>, e: Entry)
    ensures forall p :: OnTheWay(entries + [e], p) <==> OnTheWay(entries, p) || p <= e.path
    ensures forall p :: IsFile(entries + [e], p) <==> IsFile(entries, p) || (!e.directory && e.path == p)
  {
    var more := entries + [e];
    assert more[|entries|] == e && forall i | 0 <= i < |entries| :: more[i] == entries[i];
    forall p ensures OnTheWay(more, p) <==> OnTheWay(entries, p) || p <= e.path {
      if OnTheWay(entries, p) { var i :| 0 <= i < |entries| && p <= entries[i].path; assert p <= more[i].path; }
      if p <= e.path { assert p <= more[|entries|].path; }
    }
    forall p ensures IsFile(more, p) <==> IsFile(entries, p) || (!e.directory && e.path == p) {
      if IsFile(entries, p) { var i :| 0 <= i < |entries| && !entries[i].directory && entries[i].path == p; assert more[i].path == p; }
      if !e.directory && e.path == p { assert more[|entries|].path == p; }
    }
  }

  lemma WriteFile(nodes: map<Path, Node>, entries: seq<Entry>, e: Entry)
    requires Holds(nodes, entries) && e.path != [] && !e.directory
    requires CanMake(nodes, Parent(e.path)) && e.path !in WithDirectories(nodes, Parent(e.path))
    ensures Holds(WithDirectories(nodes, Parent(e.path))[e.path := Regular(e.size, e.executable)], entries + [e])
  {
    HeldIsClosed(nodes, entries);
    DirectoriesMade(nodes, Parent(e.path));
    Extend(entries, e);
    var made := WithDirectories(nodes, Parent(e.path));
    forall q: Path ensures q in made <==> q in nodes || (q <= e.path && q != e.path) { ParentPrefix(q, e.path); }
    assert e.path !in nodes;
    forall i | 0 <= i < |entries| && !entries[i].directory ensures entries[i].path != e.path { assert entries[i].path in nodes; }
  }

  /** One more entry is written exactly when it keeps apart from those before it and its payload is as declared. */
  lemma OneMore(nodes: map<Path, Node>, entries: seq<Entry>, e: Entry)
    requires Holds(nodes, entries) && e.path != []
    requires forall i | 0 <= i < |entries| :: entries[i].path != e.path
    ensures WriteOne(nodes, e).ok <==> PayloadMatches(e) && forall i | 0 <= i < |entries| :: Apart(entries[i], e)
    ensures WriteOne(nodes, e).ok ==> Holds(WriteOne(nodes, e).nodes, entries + [e])
  {
    if e.directory {
      MakeableWhenApart(nodes, entries, e.path);
      if CanMake(nodes, e.path) { WriteDirectory(nodes, entries, e); }
    } else {
      OneMoreFile(nodes, entries, e);
      if WriteOne(nodes, e).ok { WriteFile(nodes, entries, e); }
    }
  }

  lemma OneMoreFile(nodes: map<Path, Node>, entries: seq<Entry>, e: Entry)
    requires Holds(nodes, entries) && e.path != [] && !e.directory
    requires forall i | 0 <= i < |entries| :: entries[i].path != e.path
    ensures WriteOne(nodes, e).ok <==> PayloadMatches(e) && forall i | 0 <= i < |entries| :: Apart(entries[i], e)
  {
    HeldIsClosed(nodes, entries);
    DirectoriesMade(nodes, Parent(e.path));
    MakeableWhenApart(nodes, entries, Parent(e.path));
    forall i | 0 <= i < |entries| ensures entries[i].path <= Parent(e.path) <==> entries[i].path <= e.path {
      ParentPrefix(entries[i].path, e.path);
    }
    assert e.path in WithDirectories(nodes, Parent(e.path)) <==> OnTheWay(entries, e.path);
  }

  /** From a fresh destination, all entries are written exactly when they are prefix free and their payloads are as
    * declared, and then the tree holds exactly them. */
  lemma {:induction false} AllWritten(entries: seq<Entry>)
    requires Distinct(entries) && forall k | 0 <= k < |entries| :: entries[k].path != []
    ensures WriteAll(FRESH, entries).ok <==> PrefixFree(entries) && PayloadsMatch(entries)
    ensures WriteAll(FRESH, entries).ok ==> Holds(WriteAll(FRESH, entries).nodes, entries)
    decreases |entries|
  {
    if |entries| > 0 {
      var before, e := entries[..|entries| - 1], entries[|entries| - 1];
      AllWritten(before);
      assert before + [e] == entries;
      if WriteAll(FRESH, before).ok { OneMore(WriteAll(FRESH, before).nodes, before, e); }
      FitsMore(before, e);
    }
  }

  lemma FitsMore(entries: seq<Entry>, e: Entry)
    ensures PrefixFree(entries + [e]) && PayloadsMatch(entries + [e]) <==>
      PrefixFree(entries) && PayloadsMatch(entries) && PayloadMatches(e) && forall i | 0 <= i < |entries| :: Apart(entries[i], e)
  {
    var more := entries + [e];
    assert more[|entries|] == e && forall i | 0 <= i < |entries| :: more[i] == entries[i];
    if PrefixFree(more) && PayloadsMatch(more) {
      forall i, j | 0 <= i < j < |entries| ensures Apart(entries[i], entries[j]) { assert Apart(more[i], more[j]); }
      forall i | 0 <= i < |entries| ensures Apart(entries[i], e) { assert Apart(more[i], more[|entries|]); }
      forall i | 0 <= i < |entries| ensures PayloadMatches(entries[i]) { assert PayloadMatches(more[i]); }
    }
  }

  // ---- the preflight decides exactly ----

  lemma {:induction false} ComponentsArePrintable(rest: string, current: string)
    requires Printable(rest) && Printable(current)
    ensures forall k | 0 <= k < |PartsFrom(rest, current)| :: Printable(PartsFrom(rest, current)[k])
    decreases |rest|
  {
    if rest != "" {
      assert Printable(rest[1..]);
      if rest[0] == '/' {
        ComponentsArePrintable(rest[1..], "");
      } else {
        assert !Control(rest[0]);
        ComponentsArePrintable(rest[1..], current + [rest[0]]);
      }
    }
  }

  /** The path of an accepted member lies below the expected top directory and climbs nowhere. */
  lemma AcceptedPath(i: Item, expected: string)
    requires EntryOf(i, expected).Some?
    ensures var p := EntryOf(i, expected).value.path;
      p != [] && p[0] == expected && ".." !in p && forall k | 0 <= k < |p| :: Printable(p[k])
  {
    ComponentsArePrintable(i.name, "");
  }

  /** The components of a name come from between its slashes, in order. */
  lemma {:induction false} PartsJoin(a: string, b: string, current: string)
    ensures PartsFrom(a + "/" + b, current) == PartsFrom(a, current) + Parts(b)
    decreases |a|
  {
    var whole := a + "/" + b;
    if a == "" {
      assert whole[0] == '/' && whole[1..] == b;
    } else {
      assert whole[0] == a[0] && whole[1..] == a[1..] + "/" + b;
      PartsJoin(a[1..], b, if a[0] == '/' then "" else current + [a[0]]);
    }
  }

  /** A stretch without slashes is one component, or none if it is empty or a dot. */
  lemma {:induction false} PartsWhole(c: string, current: string)
    requires '/' !in c
    ensures PartsFrom(c, current) == (if current + c == "" || current + c == "." then [] else [current + c])
    decreases |c|
  {
    if c == "" {
      assert current + c == current;
    } else {
      PartsWhole(c[1..], current + [c[0]]);
      assert (current + [c[0]]) + c[1..] == current + c;
    }
  }

  /** A member may pass exactly if its name is printable and relative, without backslashes, lies below the expected top and
    * climbs nowhere; it is a directory or a regular file by its header, and in a zip by its name as well; and its size is not
    * negative. Its entry then has the path, kind, size and payload of the member, and is executable exactly if somebody
    * may execute the member. */
  lemma EntryIsExact(i: Item, expected: string)
    ensures EntryOf(i, expected).Some? <==>
      && i.name != "" && i.name[0] != '/' && '\\' !in i.name && (forall k | 0 <= k < |i.name| :: 32 <= i.name[k] as int != 127)
      && Parts(i.name) != [] && Parts(i.name)[0] == expected && ".." !in Parts(i.name)
      && i.size >= 0
      && (i.Tar? ==> i.kind == TarDirectory || i.kind == TarRegular)
      && (i.Zip? ==> var format := i.mode / 0x1000 % 0x10;
            format == 0 || (i.name[|i.name| - 1] == '/' && format == 4) || (i.name[|i.name| - 1] != '/' && format == 8))
    ensures EntryOf(i, expected).Some? ==>
      var e := EntryOf(i, expected).value;
      && e.path == Parts(i.name) && e.size == i.size && e.payload == i.payload
      && (e.directory <==> if i.Tar? then i.kind == TarDirectory else i.name[|i.name| - 1] == '/')
      && (e.executable <==> i.mode % 8 % 2 == 1 || i.mode / 8 % 8 % 2 == 1 || i.mode / 64 % 8 % 2 == 1)
  {
    assert Printable(i.name) <==> forall k | 0 <= k < |i.name| :: 32 <= i.name[k] as int != 127;
    Bits(i.mode);
  }

  lemma Bits(mode: nat)
    ensures Executable(mode) <==> mode % 8 % 2 == 1 || mode / 8 % 8 % 2 == 1 || mode / 64 % 8 % 2 == 1
  {
    LastBit(mode);
    LastBit(mode / 8);
    LastBit(mode / 64);
  }

  lemma LastBit(n: nat)
    ensures n % 8 % 2 == n % 2
  {
  }

  lemma {:induction false} TotalGrows(items: seq<Item>, n: nat)
    requires n <= |items| && forall k | 0 <= k < |items| :: items[k].size >= 0
    ensures TotalSize(items[..n]) <= TotalSize(items)
    decreases |items|
  {
    if n < |items| {
      TotalGrows(items[..|items| - 1], n);
      assert items[..|items| - 1][..n] == items[..n];
    } else {
      assert items[..n] == items;
    }
  }

  function PathsOf(entries: seq<Entry>): set<Path> {
    set k | 0 <= k < |entries| :: entries[k].path
  }

  /** The state of the pass over the headers after n of them. */
  ghost predicate Passed(items: seq<Item>, expected: string, limits: Limits, n: nat, entries: seq<Entry>, seen: set<Path>, total: int) {
    && n <= |items| && EntriesOf(items[..n], expected, entries) && Distinct(entries)
    && seen == PathsOf(entries) && |seen| == n <= limits.maxFiles && total == TotalSize(items[..n]) <= limits.maxBytes
  }

  lemma PathsMore(entries: seq<Entry>, e: Entry)
    ensures PathsOf(entries + [e]) == PathsOf(entries) + {e.path}
    ensures Distinct(entries) && e.path !in PathsOf(entries) ==> Distinct(entries + [e])
  {
    var more := entries + [e];
    assert more[|entries|].path == e.path;
    forall p | p in PathsOf(entries) ensures p in PathsOf(more) {
      var k :| 0 <= k < |entries| && entries[k].path == p;
      assert more[k].path == p;
    }
    forall k | 0 <= k < |entries| ensures entries[k].path in PathsOf(entries) { }
  }

  lemma EntriesMore(items: seq<Item>, expected: string, entries: seq<Entry>, n: nat, e: Entry)
    requires n < |items| && EntriesOf(items[..n], expected, entries) && EntryOf(items[n], expected) == Some(e)
    ensures EntriesOf(items[..n + 1], expected, entries + [e])
    ensures TotalSize(items[..n + 1]) == TotalSize(items[..n]) + items[n].size
  {
    assert items[..n + 1][..n] == items[..n];
    forall k | 0 <= k < n ensures EntryOf(items[..n + 1][k], expected) == Some((entries + [e])[k]) {
      assert items[..n][k] == items[..n + 1][k];
    }
  }

  lemma PassOne(items: seq<Item>, expected: string, limits: Limits, n: nat, entries: seq<Entry>, seen: set<Path>, total: int, e: Entry)
    requires Passed(items, expected, limits, n, entries, seen, total) && n < |items|
    requires EntryOf(items[n], expected) == Some(e) && e.path !in seen
    ensures |seen + {e.path}| == n + 1 && TotalSize(items[..n + 1]) == total + items[n].size
    ensures n + 1 <= limits.maxFiles && total + items[n].size <= limits.maxBytes ==>
      Passed(items, expected, limits, n + 1, entries + [e], seen + {e.path}, total + items[n].size)
  {
    PathsMore(entries, e);
    EntriesMore(items, expected, entries, n, e);
  }

  /** A member that is not an entry, or repeats the path of an earlier one, spoils the archive. */
  lemma Unacceptable(items: seq<Item>, expected: string, limits: Limits, bad: seq<Entry>, n: nat, entries: seq<Entry>)
    requires n < |items| && EntriesOf(items[..n], expected, entries)
    requires EntryOf(items[n], expected).None? || exists k | 0 <= k < n :: entries[k].path == EntryOf(items[n], expected).value.path
    ensures !Acceptable(items, expected, limits, bad)
  {
    if EntriesOf(items, expected, bad) {
      var k :| 0 <= k < n && entries[k].path == EntryOf(items[n], expected).value.path;
      assert Some(bad[k]) == EntryOf(items[..n][k], expected) && Some(bad[n]) == EntryOf(items[n], expected);
    }
  }

  lemma OverLimits(items: seq<Item>, expected: string, limits: Limits, bad: seq<Entry>, n: nat)
    requires n < |items| && (n + 1 > limits.maxFiles || TotalSize(items[..n + 1]) > limits.maxBytes)
    ensures !Acceptable(items, expected, limits, bad)
  {
    if EntriesOf(items, expected, bad) {
      forall k | 0 <= k < |items| ensures items[k].size >= 0 { assert EntryOf(items[k], expected).Some?; }
      TotalGrows(items, n + 1);
    }
  }

  ghost predicate NoneAcceptable(items: seq<Item>, expected: string, limits: Limits) {
    forall entries :: !Acceptable(items, expected, limits, entries)
  }

  predicate Refused(items: seq<Item>, expected: string, limits: Limits, n: nat, seen: set<Path>, total: int)
    requires n < |items|
  {
    var e := EntryOf(items[n], expected);
    e.None? || e.value.path in seen || |seen + {e.value.path}| > limits.maxFiles || total + items[n].size > limits.maxBytes
  }

  lemma RefusalIsRight(items: seq<Item>, expected: string, limits: Limits, n: nat, entries: seq<Entry>, seen: set<Path>, total: int)
    requires Passed(items, expected, limits, n, entries, seen, total) && n < |items|
    requires Refused(items, expected, limits, n, seen, total)
    ensures NoneAcceptable(items, expected, limits)
  {
    var e := EntryOf(items[n], expected);
    if e.None? || e.value.path in seen {
      forall bad ensures !Acceptable(items, expected, limits, bad) { Unacceptable(items, expected, limits, bad, n, entries); }
    } else {
      PassOne(items, expected, limits, n, entries, seen, total, e.value);
      forall bad ensures !Acceptable(items, expected, limits, bad) { OverLimits(items, expected, limits, bad, n); }
    }
  }

  lemma PassedAll(items: seq<Item>, expected: string, limits: Limits, entries: seq<Entry>, seen: set<Path>, total: int)
    requires Passed(items, expected, limits, |items|, entries, seen, total)
    requires entries != [] && limits.maxBytes > 0 && limits.maxFiles > 0
    ensures Acceptable(items, expected, limits, entries)
  {
    assert items[..|items|] == items;
  }

  lemma NothingToAccept(items: seq<Item>, expected: string, limits: Limits)
    requires items == [] || limits.maxBytes <= 0 || limits.maxFiles <= 0
    ensures NoneAcceptable(items, expected, limits)
  {
  }

  /** One pass over the headers: the result is the list of entries if the archive is acceptable, and nothing else. */
  method Preflight(items: seq<Item>, expected: string, limits: Limits) returns (accepted: Option<seq<Entry>>)
    ensures accepted.Some? ==> Acceptable(items, expected, limits, accepted.value)
    ensures accepted.None? ==> NoneAcceptable(items, expected, limits)
  {
    if limits.maxBytes <= 0 || limits.maxFiles <= 0 {
      NothingToAccept(items, expected, limits);
      return None;
    }
    var entries: seq<Entry>, seen: set<Path>, total, n := [], {}, 0, 0;
    while n < |items|
      invariant Passed(items, expected, limits, n, entries, seen, total)
    {
      var e := EntryOf(items[n], expected);
      if e.None? || e.value.path in seen {
        RefusalIsRight(items, expected, limits, n, entries, seen, total);
        return None;
      }
      var seenNow, totalNow := seen + {e.value.path}, total + items[n].size;
      if |seenNow| > limits.maxFiles || totalNow > limits.maxBytes {
        RefusalIsRight(items, expected, limits, n, entries, seen, total);
        return None;
      }
      PassOne(items, expected, limits, n, entries, seen, total, e.value);
      entries, seen, total, n := entries + [e.value], seenNow, totalNow, n + 1;
    }
    if entries == [] {
      NothingToAccept(items, expected, limits);
      return None;
    }
    PassedAll(items, expected, limits, entries, seen, total);
    accepted := Some(entries);
  }

  // ---- extraction ----

  /** Where the paths of accepted entries lie. */
  predicate Under(expected: string, entries: seq<Entry>) {
    forall k | 0 <= k < |entries| ::
      entries[k].path != [] && entries[k].path[0] == expected && forall m | 0 <= m < |entries[k].path| :: Printable(entries[k].path[m])
  }

  lemma EntriesAreUnder(items: seq<Item>, expected: string, entries: seq<Entry>)
    requires EntriesOf(items, expected, entries)
    ensures Under(expected, entries)
  {
    forall k | 0 <= k < |entries|
      ensures entries[k].path != [] && entries[k].path[0] == expected
      ensures forall m | 0 <= m < |entries[k].path| :: Printable(entries[k].path[m])
    {
      AcceptedPath(items[k], expected);
    }
  }

  lemma TopIsDirectory(nodes: map<Path, Node>, expected: string, entries: seq<Entry>)
    requires entries != [] && Under(expected, entries) && Holds(nodes, entries)
    ensures [expected] in nodes && (nodes[[expected]].Directory? <==> BelowTop(entries))
  {
    assert OnTheWay(entries, [expected]) by { assert [expected] <= entries[0].path; }
    if nodes[[expected]].Directory? {
      forall i | 0 <= i < |entries| && !entries[i].directory ensures |entries[i].path| > 1 {
        assert entries[i].path != [expected];
      }
    } else {
      var i :| 0 <= i < |entries| && !entries[i].directory && entries[i].path == [expected];
    }
  }

  lemma TopIsValid(nodes: map<Path, Node>, expected: string, entries: seq<Entry>)
    requires entries != [] && Under(expected, entries) && Holds(nodes, entries)
    ensures ValidTree(nodes, [expected]) <==> BelowTop(entries)
    ensures forall p | p in nodes && p != [] :: p[0] == expected
  {
    TopIsDirectory(nodes, expected, entries);
    forall p | p in nodes && p != [] ensures p[0] == expected && Printable(p[|p| - 1]) {
      var i :| 0 <= i < |entries| && p <= entries[i].path;
      assert p[|p| - 1] == entries[i].path[|p| - 1];
    }
  }

  class Destination {
    var nodes: map<Path, Node>

    constructor ()
      ensures nodes == FRESH
    {
      nodes := FRESH;
    }

    /** mkdir with parents and exist_ok. */
    method MakeDirectory(p: Path) returns (ok: bool)
      modifies this
      ensures ok <==> CanMake(old(nodes), p)
      ensures nodes == if ok then WithDirectories(old(nodes), p) else old(nodes)
      decreases |p|
    {
      var k := 0;
      while k <= |p|
        invariant 0 <= k <= |p| + 1
        invariant forall j | 0 <= j < k :: p[..j] in nodes ==> nodes[p[..j]].Directory?
        invariant nodes == old(nodes)
      {
        if p[..k] in nodes && !nodes[p[..k]].Directory? { return false; }
        k := k + 1;
      }
      MakeMissing(p);
      ok := true;
    }

    method MakeMissing(p: Path)
      modifies this
      ensures nodes == WithDirectories(old(nodes), p)
      decreases |p|
    {
      if p !in nodes {
        if p != [] { MakeMissing(Parent(p)); }
        nodes := nodes[p := Directory];
      }
    }

    method Write(e: Entry) returns (ok: bool)
      requires e.path != []
      modifies this
      ensures Written(nodes, ok) == WriteOne(old(nodes), e)
    {
      if e.directory {
        ok := MakeDirectory(e.path);
        return;
      }
      ok := MakeDirectory(Parent(e.path));
      if !ok { return; }
      if e.payload.None? || e.path in nodes { return false; }
      nodes := nodes[e.path := Regular(e.payload.value, false)];
      if e.payload.value != e.size { return false; }
      nodes := nodes[e.path := Regular(e.size, e.executable)];
    }

    method ValidateTree(root: Path) returns (ok: bool)
      ensures ok <==> ValidTree(nodes, root)
    {
      if root !in nodes || !nodes[root].Directory? { return false; }
      var rest := nodes.Keys;
      while rest != {}
        invariant rest <= nodes.Keys
        invariant forall p | p in nodes && p !in rest && root < p :: !nodes[p].Special? && Printable(p[|p| - 1])
        decreases |rest|
      {
        var p :| p in rest;
        if root < p && (nodes[p].Special? || !Printable(p[|p| - 1])) { return false; }
        rest := rest - {p};
      }
      ok := true;
    }

    /** extract: a rejected archive leaves the destination alone. Into a fresh destination, extraction succeeds exactly
      * for acceptable archives whose files are where no other entry needs a directory and are stored as declared; it
      * then leaves exactly the archive's regular entries and the directories they need, all below `expected`. */
    method Extract(items: seq<Item>, expected: string, limits: Limits) returns (r: Result, ghost entries: seq<Entry>)
      modifies this
      ensures r.Rejected? <==> NoneAcceptable(items, expected, limits)
      ensures r.Rejected? ==> nodes == old(nodes)
      ensures !r.Rejected? ==> Acceptable(items, expected, limits, entries)
      ensures r.Extracted? ==> ValidTree(nodes, [expected])
      ensures old(nodes) == FRESH && !r.Rejected? ==>
        (r.Extracted? <==> PrefixFree(entries) && PayloadsMatch(entries) && BelowTop(entries))
      ensures old(nodes) == FRESH && r.Extracted? ==>
        Holds(nodes, entries) && forall p | p in nodes && p != [] :: p[0] == expected
    {
      entries := [];
      var accepted := Preflight(items, expected, limits);
      if accepted.None? { return Rejected, []; }
      entries := accepted.value;
      EntriesAreUnder(items, expected, entries);
      var n := 0;
      while n < |accepted.value|
        invariant 0 <= n <= |entries|
        invariant WriteAll(old(nodes), entries[..n]) == Written(nodes, true)
      {
        var ok := Write(accepted.value[n]);
        assert entries[..n + 1][..n] == entries[..n];
        if !ok {
          if old(nodes) == FRESH { StoppedEarly(entries, n); }
          return Failed, entries;
        }
        n := n + 1;
      }
      assert entries[..n] == entries;
      if old(nodes) == FRESH { AllWritten(entries); TopIsValid(nodes, expected, entries); }
      var valid := ValidateTree([expected]);
      r := if valid then Extracted else Failed;
    }
  }

  lemma StoppedEarly(entries: seq<Entry>, n: nat)
    requires n < |entries| && Distinct(entries) && forall k | 0 <= k < |entries| :: entries[k].path != []
    requires !WriteAll(FRESH, entries[..n + 1]).ok
    ensures !(PrefixFree(entries) && PayloadsMatch(entries))
  {
    AllWritten(entries[..n + 1]);
  }
}
