/** The procedure form: building a procedure from its inputs, and restoring the inputs from a saved procedure. */
module ProcedureForm {
  import opened Text

  datatype Config = Config(family: string, method_: string, topology: Option<string>, operations: seq<string>, rollback: Option<string>)

  const REQUIRED_PRECHECKS := ["artifact_integrity", "platform_applicability", "opatch_version", "conflict_check", "backup_or_restore"]
  const REQUIRED_POSTCHECKS := ["binary_inventory", "service_health"]

  function ConfigOf(adapter: string): Option<Config> {
    if adapter == "database_single_instance_opatch" then
      Some(Config("database", "opatch", Some("single_instance"),
                  ["database_shutdown", "database_opatch_apply", "database_startup", "database_datapatch"], None))
    else if adapter == "database_rolling_opatch" then
      Some(Config("database", "opatch", Some("rac"),
                  ["database_stop_instance", "database_opatch_apply", "database_start_instance", "database_datapatch"], None))
    else if adapter == "grid_rolling_opatch" then
      Some(Config("grid", "opatch", None,
                  ["grid_rootcrs_prepatch", "grid_opatch_apply", "grid_rootadd_rdbms", "grid_rootcrs_postpatch"], None))
    else if adapter == "grid_rolling_opatchauto" then
      Some(Config("grid", "opatchauto", None, ["grid_opatchauto_apply"], None))
    else if adapter == "database_ojvm_opatch" then
      Some(Config("database", "opatch", Some("single_instance"),
                  ["database_shutdown", "database_opatch_apply", "database_startup_upgrade", "database_datapatch_upgrade"], None))
    else if adapter == "database_out_of_place_switch" then
      Some(Config("database", "switch_home", Some("single_instance"),
                  ["database_home_clone", "database_opatch_apply_clone", "database_home_switch", "database_datapatch"],
                  Some("home_switch_back")))
    else None
  }

  /** Missing strings are empty. */
  datatype File = File(path: string, sha256: string)
  datatype Artifact = Artifact(sha256: string, patchIds: seq<string>, platforms: seq<string>, readmeFiles: seq<File>)
  datatype Reference = Reference(kind: string, identifier: string, sha256: string)

  datatype Procedure = Procedure(
    patchId: string, artifactSha256: string, family: string, method_: string, platformId: string,
    topology: string, databaseUniqueName: string, adapter: string, operations: seq<string>,
    requiredOpatchVersion: string, references: seq<Reference>, prechecks: seq<string>, postchecks: seq<string>,
    rollbackMode: string, rollbackPrecondition: string)

  datatype FieldName =
    | PatchId | PlatformId | DatabaseUniqueName | RequiredOpatchVersion | ReadmeIdentifier | RollbackPrecondition
    | Prechecks | Postchecks

  /** The inputs of the form that have a value. */
  type Fields = map<FieldName, string>

  datatype Result = Ok(procedure: Procedure) | UnsupportedAdapter | FieldRequired(name: FieldName) | ReadmeNotHashed

  // ---- strings ----

  predicate Space(c: char) {
    var n := c as int;
    9 <= n <= 13 || n == 32 || n == 160 || n == 0x1680 || 0x2000 <= n <= 0x200A || n == 0x2028 || n == 0x2029
    || n == 0x202F || n == 0x205F || n == 0x3000 || n == 0xFEFF
  }

  function TrimStart(s: string): string {
    if s != "" && Space(s[0]) then TrimStart(s[1..]) else s
  }

  function TrimEnd(s: string): string {
    if s != "" && Space(s[|s| - 1]) then TrimEnd(s[..|s| - 1]) else s
  }

  function Trim(s: string): string {
    TrimEnd(TrimStart(s))
  }

  function SplitFrom(rest: string, current: string): seq<string> {
    if rest == "" then [current]
    else if rest[0] == ',' then [current] + SplitFrom(rest[1..], "")
    else SplitFrom(rest[1..], current + [rest[0]])
  }

  function TrimmedNonEmpty(parts: seq<string>): seq<string> {
    if |parts| == 0 then []
    else (if Trim(parts[0]) == "" then [] else [Trim(parts[0])]) + TrimmedNonEmpty(parts[1..])
  }

  function Csv(value: string): seq<string> {
    TrimmedNonEmpty(SplitFrom(value, ""))
  }

  function Join(parts: seq<string>): string {
    if |parts| == 0 then "" else if |parts| == 1 then parts[0] else parts[0] + "," + Join(parts[1..])
  }

  // ---- ordered sets ----

  /** The elements of d, then those of l that are new, in order. */
  function Merge(d: seq<string>, l: seq<string>): seq<string> {
    if |l| == 0 then d
    else
      var before := Merge(d, l[..|l| - 1]);
      if l[|l| - 1] in before then before else before + [l[|l| - 1]]
  }

  function Unique(l: seq<string>): seq<string> {
    Merge([], l)
  }

  // ---- matching and building ----

  function Get(fields: Fields, name: FieldName): string {
    if name in fields then fields[name] else ""
  }

  function OfKind(references: seq<Reference>, kinds: set<string>): seq<Reference> {
    if |references| == 0 then []
    else OfKind(references[..|references| - 1], kinds)
         + (if references[|references| - 1].kind in kinds then [references[|references| - 1]] else [])
  }

  predicate MatchesArtifact(p: Procedure, a: Artifact) {
    && a.sha256 != "" && p.artifactSha256 == a.sha256
    && ConfigOf(p.adapter).Some?
    && a.patchIds == [p.patchId]
    && a.platforms == [p.platformId]
    && var readmes := OfKind(p.references, {"patch_readme"});
       |readmes| == 1 && readmes[0].sha256 != "" && File(readmes[0].identifier, readmes[0].sha256) in a.readmeFiles
  }

  function RequiredFields(c: Config): seq<FieldName> {
    [PatchId, PlatformId, RequiredOpatchVersion, ReadmeIdentifier, RollbackPrecondition]
    + (if c.family == "database" then [DatabaseUniqueName] else [])
  }

  function FirstMissing(required: seq<FieldName>, fields: Fields): Option<FieldName> {
    if |required| == 0 then None
    else if Trim(Get(fields, required[0])) == "" then Some(required[0])
    else FirstMissing(required[1..], fields)
  }

  function FindFile(files: seq<File>, path: string): Option<File> {
    if |files| == 0 then None else if files[0].path == path then Some(files[0]) else FindFile(files[1..], path)
  }

  function Canonical(adapter: string, c: Config, fields: Fields, a: Artifact, readme: File): Procedure {
    Procedure(
      Trim(Get(fields, PatchId)), a.sha256, c.family, c.method_, Trim(Get(fields, PlatformId)),
      if c.family == "database" && c.topology.Some? then c.topology.value else "",
      if c.family == "database" then Trim(Get(fields, DatabaseUniqueName)) else "",
      adapter, c.operations, Trim(Get(fields, RequiredOpatchVersion)),
      [Reference("patch_readme", readme.path, readme.sha256)],
      Unique(REQUIRED_PRECHECKS + Csv(Get(fields, Prechecks))), Unique(REQUIRED_POSTCHECKS + Csv(Get(fields, Postchecks))),
      if c.rollback.Some? then c.rollback.value else "opatch_rollback", Trim(Get(fields, RollbackPrecondition)))
  }

  /** What the form does not edit is kept from a saved procedure of the same workflow and artifact. */
  function Retained(p: Procedure, c: Config, saved: Procedure): Procedure {
    p.(references := p.references + OfKind(saved.references, {"mos_note", "oracle_doc"}),
       rollbackMode := if saved.rollbackMode != "" then saved.rollbackMode else p.rollbackMode,
       topology := if c.family == "grid" && saved.topology != "" then saved.topology else p.topology)
  }

  function Build(adapter: string, fields: Fields, artifact: Option<Artifact>, saved: Option<Procedure>): Result {
    var config := ConfigOf(adapter);
    if config.None? then UnsupportedAdapter
    else if FirstMissing(RequiredFields(config.value), fields).Some? then
      FieldRequired(FirstMissing(RequiredFields(config.value), fields).value)
    else
      var readme := if artifact.None? then None else FindFile(artifact.value.readmeFiles, Get(fields, ReadmeIdentifier));
      if readme.None? || readme.value.sha256 == "" then ReadmeNotHashed
      else
        var p := Canonical(adapter, config.value, fields, artifact.value, readme.value);
        if saved.Some? && saved.value.adapter == adapter && MatchesArtifact(saved.value, artifact.value)
        then Ok(Retained(p, config.value, saved.value)) else Ok(p)
  }

  /** buildProcedure, with its loop over the required fields and its updates of the procedure. */
  method BuildProcedure(adapter: string, fields: Fields, artifact: Option<Artifact>, saved: Option<Procedure>) returns (r: Result)
    ensures r == Build(adapter, fields, artifact, saved)
  {
    var config := ConfigOf(adapter);
    if config.None? { return UnsupportedAdapter; }
    var required := [PatchId, PlatformId, RequiredOpatchVersion, ReadmeIdentifier, RollbackPrecondition];
    if config.value.family == "database" { required := required + [DatabaseUniqueName]; }
    assert required == RequiredFields(config.value);
    var missing := MissingField(required, fields);
    if missing.Some? { return FieldRequired(missing.value); }
    if artifact.None? { return ReadmeNotHashed; }
    var readme := FindFile(artifact.value.readmeFiles, Get(fields, ReadmeIdentifier));
    if readme.None? || readme.value.sha256 == "" { return ReadmeNotHashed; }
    var p := Canonical(adapter, config.value, fields, artifact.value, readme.value);
    if saved.Some? && saved.value.adapter == adapter && MatchesArtifact(saved.value, artifact.value) {
      p := Retain(p, config.value, saved.value);
    }
    r := Ok(p);
  }

  /** The loop over the required fields. */
  method MissingField(required: seq<FieldName>, fields: Fields) returns (missing: Option<FieldName>)
    ensures missing == FirstMissing(required, fields)
  {
    var i := 0;
    while i < |required|
      invariant 0 <= i <= |required|
      invariant FirstMissing(required, fields) == FirstMissing(required[i..], fields)
    {
      if Trim(Get(fields, required[i])) == "" { return Some(required[i]); }
      i := i + 1;
    }
    missing := None;
  }

  method Retain(built: Procedure, c: Config, saved: Procedure) returns (p: Procedure)
    ensures p == Retained(built, c, saved)
  {
    p := built.(references := built.references + OfKind(saved.references, {"mos_note", "oracle_doc"}));
    if saved.rollbackMode != "" { p := p.(rollbackMode := saved.rollbackMode); }
    if c.family == "grid" && saved.topology != "" { p := p.(topology := saved.topology); }
  }

  // ---- restoring ----

  function FirstReadme(references: seq<Reference>): string {
    if |references| == 0 then ""
    else if references[0].kind == "patch_readme" then references[0].identifier
    else FirstReadme(references[1..])
  }

  function Shown(p: Procedure, name: FieldName): string {
    match name
    case PatchId => p.patchId
    case PlatformId => p.platformId
    case DatabaseUniqueName => p.databaseUniqueName
    case RequiredOpatchVersion => p.requiredOpatchVersion
    case ReadmeIdentifier => FirstReadme(p.references)
    case RollbackPrecondition => p.rollbackPrecondition
    case Prechecks => Join(p.prechecks)
    case Postchecks => Join(p.postchecks)
  }

  /** The values put into the inputs from a saved procedure. */
  function Restore(p: Procedure): Fields {
    map name: FieldName | true :: Shown(p, name)
  }

  /** The values read back from the inputs. */
  function FormValues(inputs: Fields): Fields {
    map name | name in inputs :: Trim(inputs[name])
  }

  // ---- trimming ----

  predicate Trimmed(s: string) {
    s != "" ==> !Space(s[0]) && !Space(s[|s| - 1])
  }

  lemma {:induction false} TrimStartDoes(s: string)
    ensures TrimStart(s) != "" ==> !Space(TrimStart(s)[0]) && TrimStart(s)[|TrimStart(s)| - 1] == s[|s| - 1]
    ensures forall c | c in TrimStart(s) :: c in s
    decreases |s|
  {
    if s != "" && Space(s[0]) { TrimStartDoes(s[1..]); }
  }

  lemma {:induction false} TrimEndDoes(s: string)
    ensures TrimEnd(s) != "" ==> !Space(TrimEnd(s)[|TrimEnd(s)| - 1]) && TrimEnd(s)[0] == s[0]
    ensures forall c | c in TrimEnd(s) :: c in s
    decreases |s|
  {
    if s != "" && Space(s[|s| - 1]) { TrimEndDoes(s[..|s| - 1]); }
  }

  lemma TrimTrims(s: string)
    ensures Trimmed(Trim(s)) && forall c | c in Trim(s) :: c in s
    ensures Trimmed(s) ==> Trim(s) == s
  {
    TrimStartDoes(s);
    TrimEndDoes(TrimStart(s));
  }

  // ---- comma-separated lists ----

  /** What the elements of a list look like. */
  predicate Token(s: string) {
    s != "" && Trimmed(s) && ',' !in s
  }

  predicate Tokens(l: seq<string>) {
    forall k | 0 <= k < |l| :: Token(l[k])
  }

  lemma {:induction false} SplitHasNoCommas(rest: string, current: string)
    requires ',' !in current
    ensures forall k | 0 <= k < |SplitFrom(rest, current)| :: ',' !in SplitFrom(rest, current)[k]
    decreases |rest|
  {
    if rest != "" {
      SplitHasNoCommas(rest[1..], if rest[0] == ',' then "" else current + [rest[0]]);
    }
  }

  lemma {:induction false} TrimmedPartsAreTokens(parts: seq<string>)
    requires forall k | 0 <= k < |parts| :: ',' !in parts[k]
    ensures Tokens(TrimmedNonEmpty(parts))
    decreases |parts|
  {
    if |parts| > 0 {
      TrimTrims(parts[0]);
      TrimmedPartsAreTokens(parts[1..]);
    }
  }

  lemma CsvTokens(value: string)
    ensures Tokens(Csv(value))
  {
    SplitHasNoCommas(value, "");
    TrimmedPartsAreTokens(SplitFrom(value, ""));
  }

  lemma {:induction false} SplitAtComma(part: string, rest: string, current: string)
    requires ',' !in part
    ensures SplitFrom(part + "," + rest, current) == [current + part] + SplitFrom(rest, "")
    ensures SplitFrom(part, current) == [current + part]
    decreases |part|
  {
    var whole := part + "," + rest;
    if part == "" {
      assert whole[0] == ',' && whole[1..] == rest && current + part == current;
    } else {
      assert whole[0] == part[0] && whole[1..] == part[1..] + "," + rest;
      SplitAtComma(part[1..], rest, current + [part[0]]);
      assert current + [part[0]] + part[1..] == current + part;
    }
  }

  lemma {:induction false} SplitJoin(l: seq<string>)
    requires |l| > 0 && Tokens(l)
    ensures SplitFrom(Join(l), "") == l
    decreases |l|
  {
    assert "" + l[0] == l[0];
    if |l| == 1 {
      SplitAtComma(l[0], "", "");
    } else {
      SplitAtComma(l[0], Join(l[1..]), "");
      SplitJoin(l[1..]);
      assert [l[0]] + l[1..] == l;
    }
  }

  lemma {:induction false} TokensStay(l: seq<string>)
    requires Tokens(l)
    ensures TrimmedNonEmpty(l) == l
    decreases |l|
  {
    if |l| > 0 {
      TrimTrims(l[0]);
      TokensStay(l[1..]);
      assert [l[0]] + l[1..] == l;
    }
  }

  lemma {:induction false} JoinIsTrimmed(l: seq<string>)
    requires |l| > 0 && Tokens(l)
    ensures Join(l) != "" && Trimmed(Join(l))
    decreases |l|
  {
    assert Token(l[0]);
    if |l| > 1 { JoinIsTrimmed(l[1..]); }
  }

  /** A list of tokens survives joining, trimming and splitting. */
  lemma CsvJoin(l: seq<string>)
    requires |l| > 0 && Tokens(l)
    ensures Csv(Trim(Join(l))) == l
  {
    JoinIsTrimmed(l);
    TrimTrims(Join(l));
    SplitJoin(l);
    TokensStay(l);
  }

  // ---- de-duplication ----

  lemma {:induction false} MergeConcat(d: seq<string>, a: seq<string>, b: seq<string>)
    ensures Merge(d, a + b) == Merge(Merge(d, a), b)
    decreases |b|
  {
    if |b| == 0 {
      assert a + b == a;
    } else {
      MergeConcat(d, a, b[..|b| - 1]);
      assert (a + b)[..|a + b| - 1] == a + b[..|b| - 1];
    }
  }

  lemma {:induction false} MergeKnown(d: seq<string>, l: seq<string>)
    requires forall x | x in l :: x in d
    ensures Merge(d, l) == d
    decreases |l|
  {
    if |l| > 0 {
      assert l[|l| - 1] in l && forall x | x in l[..|l| - 1] :: x in l;
      MergeKnown(d, l[..|l| - 1]);
    }
  }

  /** Merging what was merged before adds nothing and keeps the order. */
  lemma {:induction false} MergeAgain(d: seq<string>, l: seq<string>)
    ensures Merge(d, Merge(d, l)) == Merge(d, l)
    decreases |l|
  {
    if |l| == 0 {
      MergeKnown(d, d);
    } else {
      var before, e := Merge(d, l[..|l| - 1]), l[|l| - 1];
      MergeAgain(d, l[..|l| - 1]);
      if e !in before { assert (before + [e])[..|before|] == before; }
    }
  }

  lemma {:induction false} MergeTokens(d: seq<string>, l: seq<string>)
    requires Tokens(d) && Tokens(l)
    ensures Tokens(Merge(d, l)) && |Merge(d, l)| >= |d|
    decreases |l|
  {
    if |l| > 0 { MergeTokens(d, l[..|l| - 1]); }
  }

  lemma {:induction false} UniqueStays(l: seq<string>)
    requires forall i, j | 0 <= i < j < |l| :: l[i] != l[j]
    ensures Unique(l) == l
    decreases |l|
  {
    if |l| > 0 {
      UniqueStays(l[..|l| - 1]);
      assert l[..|l| - 1] + [l[|l| - 1]] == l;
    }
  }

  lemma FirstPrechecks()
    ensures Token("artifact_integrity") && Token("platform_applicability") && Token("opatch_version")
  {
  }

  lemma LastPrechecks()
    ensures Token("conflict_check") && Token("backup_or_restore")
  {
  }

  lemma AllPostchecks()
    ensures Token("binary_inventory") && Token("service_health")
  {
  }

  lemma RequiredAreTokens()
    ensures Tokens(REQUIRED_PRECHECKS) && Tokens(REQUIRED_POSTCHECKS)
  {
    FirstPrechecks();
    LastPrechecks();
    AllPostchecks();
    forall k | 0 <= k < |REQUIRED_PRECHECKS| ensures Token(REQUIRED_PRECHECKS[k]) { }
    forall k | 0 <= k < |REQUIRED_POSTCHECKS| ensures Token(REQUIRED_POSTCHECKS[k]) { }
  }

  lemma RequiredAreUnique()
    ensures Unique(REQUIRED_PRECHECKS) == REQUIRED_PRECHECKS && Unique(REQUIRED_POSTCHECKS) == REQUIRED_POSTCHECKS
  {
    var pre, post := REQUIRED_PRECHECKS, REQUIRED_POSTCHECKS;
    assert pre[0][0] == 'a' && pre[1][0] == 'p' && pre[2][0] == 'o' && pre[3][0] == 'c' && pre[4][0] == 'b';
    assert post[0][0] == 'b' && post[1][0] == 's';
    UniqueStays(pre);
    UniqueStays(post);
  }

  /** A list of checks comes back from the form as it was: through joining, trimming, splitting and de-duplication. */
  lemma ChecksReturn(required: seq<string>, value: string)
    requires |required| > 0 && Tokens(required) && Unique(required) == required
    ensures var checks := Unique(required + Csv(value)); Unique(required + Csv(Trim(Join(checks)))) == checks
  {
    var checks := Unique(required + Csv(value));
    CsvTokens(value);
    MergeConcat([], required, Csv(value));
    MergeTokens(required, Csv(value));
    CsvJoin(checks);
    MergeConcat([], required, checks);
    MergeAgain(required, Csv(value));
  }

  // ---- the round trip ----

  /** What building leaves behind: canonical values, and fields that are already trimmed; ... */
  predicate BuiltValues(p: Procedure, c: Config) {
    && ConfigOf(p.adapter) == Some(c)
    && p.family == c.family && p.method_ == c.method_ && p.operations == c.operations
    && (c.family == "database" ==> p.topology == (if c.topology.Some? then c.topology.value else ""))
    && (c.family == "database" ==> Filled(p.databaseUniqueName)) && (c.family != "database" ==> p.databaseUniqueName == "")
    && Filled(p.patchId) && Filled(p.platformId) && Filled(p.requiredOpatchVersion) && Filled(p.rollbackPrecondition)
    && p.rollbackMode != ""
  }

  /** ... and the artifact's README first among the references. */
  predicate BuiltReferences(p: Procedure, a: Artifact, readme: File) {
    && p.artifactSha256 == a.sha256
    && FindFile(a.readmeFiles, readme.path) == Some(readme) && readme.sha256 != "" && Trim(readme.path) != ""
    && p.references != [] && p.references[0] == Reference("patch_readme", readme.path, readme.sha256)
    && OfKind(p.references, {"mos_note", "oracle_doc"}) == p.references[1..]
  }

  predicate Built(p: Procedure, c: Config, a: Artifact, readme: File) {
    BuiltValues(p, c) && BuiltReferences(p, a, readme)
  }

  predicate Filled(s: string) {
    s != "" && Trim(s) == s
  }

  lemma TrimmedIsFilled(s: string)
    requires Trim(s) != ""
    ensures Filled(Trim(s))
  {
    TrimTrims(s);
    TrimTrims(Trim(s));
  }

  lemma {:induction false} NoneMissing(required: seq<FieldName>, fields: Fields)
    ensures FirstMissing(required, fields).None? <==> forall k | 0 <= k < |required| :: Trim(Get(fields, required[k])) != ""
    decreases |required|
  {
    if |required| > 0 && Trim(Get(fields, required[0])) != "" {
      NoneMissing(required[1..], fields);
      if k: nat :| k < |required| && Trim(Get(fields, required[k])) == "" { assert required[1..][k - 1] == required[k]; }
      assert forall k | 0 <= k < |required| - 1 :: required[1..][k] == required[k + 1];
    }
  }

  lemma {:induction false} KindsAgain(references: seq<Reference>, kinds: set<string>)
    ensures OfKind(OfKind(references, kinds), kinds) == OfKind(references, kinds)
    decreases |references|
  {
    if |references| > 0 {
      KindsAgain(references[..|references| - 1], kinds);
      var before, r := OfKind(references[..|references| - 1], kinds), references[|references| - 1];
      if r.kind in kinds {
        assert (before + [r])[..|before|] == before;
        assert OfKind(before + [r], kinds) == OfKind(before, kinds) + [r];
      } else {
        assert before + [] == before;
      }
    }
  }

  lemma {:induction false} KindsSkip(r: Reference, references: seq<Reference>, kinds: set<string>)
    requires r.kind !in kinds
    ensures OfKind([r] + references, kinds) == OfKind(references, kinds)
    decreases |references|
  {
    var all := [r] + references;
    if |references| == 0 {
      assert all[..0] == [];
    } else {
      KindsSkip(r, references[..|references| - 1], kinds);
      assert all[..|all| - 1] == [r] + references[..|references| - 1];
    }
  }

  lemma {:induction false} FoundFile(files: seq<File>, path: string)
    ensures FindFile(files, path).Some? ==> FindFile(files, path).value.path == path
    decreases |files|
  {
    if |files| > 0 { FoundFile(files[1..], path); }
  }

  lemma RequiredFilled(c: Config, fields: Fields)
    ensures FirstMissing(RequiredFields(c), fields).None? <==>
      && Trim(Get(fields, PatchId)) != "" && Trim(Get(fields, PlatformId)) != ""
      && Trim(Get(fields, RequiredOpatchVersion)) != "" && Trim(Get(fields, ReadmeIdentifier)) != ""
      && Trim(Get(fields, RollbackPrecondition)) != ""
      && (c.family == "database" ==> Trim(Get(fields, DatabaseUniqueName)) != "")
  {
    var r := RequiredFields(c);
    NoneMissing(r, fields);
    assert r[0] == PatchId && r[1] == PlatformId && r[2] == RequiredOpatchVersion && r[3] == ReadmeIdentifier
      && r[4] == RollbackPrecondition && (c.family == "database" ==> r[5] == DatabaseUniqueName);
  }

  /** The families and defaults of the adapters. */
  lemma AdapterFamilies(adapter: string)
    requires ConfigOf(adapter).Some?
    ensures var c := ConfigOf(adapter).value;
      && (c.family == "database" || c.family == "grid") && (c.family == "database" <==> c.topology.Some?)
      && (c.rollback.Some? ==> c.rollback.value != "")
  {
  }

  lemma {:induction false} CanonicalValues(adapter: string, c: Config, fields: Fields, a: Artifact, readme: File)
    requires ConfigOf(adapter) == Some(c) && FirstMissing(RequiredFields(c), fields).None?
    ensures BuiltValues(Canonical(adapter, c, fields, a, readme), c) && Trim(Get(fields, ReadmeIdentifier)) != ""
  {
    RequiredFilled(c, fields);
    AdapterFamilies(adapter);
    TrimmedIsFilled(Get(fields, PatchId));
    TrimmedIsFilled(Get(fields, PlatformId));
    TrimmedIsFilled(Get(fields, RequiredOpatchVersion));
    TrimmedIsFilled(Get(fields, RollbackPrecondition));
    if c.family == "database" { TrimmedIsFilled(Get(fields, DatabaseUniqueName)); }
  }

  lemma CanonicalIsBuilt(adapter: string, c: Config, fields: Fields, a: Artifact, readme: File)
    requires ConfigOf(adapter) == Some(c) && FirstMissing(RequiredFields(c), fields).None?
    requires FindFile(a.readmeFiles, Get(fields, ReadmeIdentifier)) == Some(readme) && readme.sha256 != ""
    ensures Built(Canonical(adapter, c, fields, a, readme), c, a, readme)
  {
    CanonicalValues(adapter, c, fields, a, readme);
    FoundFile(a.readmeFiles, Get(fields, ReadmeIdentifier));
    OneReadme(Canonical(adapter, c, fields, a, readme), a, readme);
  }

  lemma OneReadme(p: Procedure, a: Artifact, readme: File)
    requires p.references == [Reference("patch_readme", readme.path, readme.sha256)] && p.artifactSha256 == a.sha256
    requires FindFile(a.readmeFiles, readme.path) == Some(readme) && readme.sha256 != "" && Trim(readme.path) != ""
    ensures BuiltReferences(p, a, readme)
  {
    KindsSkip(p.references[0], [], {"mos_note", "oracle_doc"});
    assert [p.references[0]] + [] == p.references;
  }

  lemma RetainedIsBuilt(p: Procedure, c: Config, a: Artifact, readme: File, saved: Procedure)
    requires Built(p, c, a, readme) && |p.references| == 1
    ensures Built(Retained(p, c, saved), c, a, readme)
  {
    var kept := OfKind(saved.references, {"mos_note", "oracle_doc"});
    KindsAgain(saved.references, {"mos_note", "oracle_doc"});
    KindsSkip(p.references[0], kept, {"mos_note", "oracle_doc"});
    assert p.references + kept == [p.references[0]] + kept && ([p.references[0]] + kept)[1..] == kept;
  }

  lemma FormShows(p: Procedure, name: FieldName)
    ensures Get(FormValues(Restore(p)), name) == Trim(Shown(p, name))
  {
  }

  lemma AllShown(p: Procedure)
    ensures var f := FormValues(Restore(p));
      && Get(f, PatchId) == Trim(p.patchId) && Get(f, PlatformId) == Trim(p.platformId)
      && Get(f, DatabaseUniqueName) == Trim(p.databaseUniqueName)
      && Get(f, RequiredOpatchVersion) == Trim(p.requiredOpatchVersion)
      && Get(f, ReadmeIdentifier) == Trim(FirstReadme(p.references))
      && Get(f, RollbackPrecondition) == Trim(p.rollbackPrecondition)
      && Get(f, Prechecks) == Trim(Join(p.prechecks)) && Get(f, Postchecks) == Trim(Join(p.postchecks))
  {
    FormShows(p, PatchId);
    FormShows(p, PlatformId);
    FormShows(p, DatabaseUniqueName);
    FormShows(p, RequiredOpatchVersion);
    FormShows(p, ReadmeIdentifier);
    FormShows(p, RollbackPrecondition);
    FormShows(p, Prechecks);
    FormShows(p, Postchecks);
  }

  /** Checks as building leaves them. */
  predicate ChecksBuilt(p: Procedure, pre: string, post: string) {
    p.prechecks == Unique(REQUIRED_PRECHECKS + Csv(pre)) && p.postchecks == Unique(REQUIRED_POSTCHECKS + Csv(post))
  }

  /** Building again from the restored form gives the same canonical part, for the README the form names. */
  lemma CanonicalAgain(p: Procedure, c: Config, a: Artifact, readme: File, pre: string, post: string, found: File)
    requires Built(p, c, a, readme) && ChecksBuilt(p, pre, post) && (c.family == "database" || c.family == "grid")
    ensures FirstMissing(RequiredFields(c), FormValues(Restore(p))).None?
    ensures Retained(Canonical(p.adapter, c, FormValues(Restore(p)), a, found), c, p)
      == p.(references := [Reference("patch_readme", found.path, found.sha256)] + p.references[1..])
  {
    var f := FormValues(Restore(p));
    AllShown(p);
    TrimTrims(readme.path);
    TrimTrims(Trim(readme.path));
    RequiredFilled(c, f);
    TrimTrims("");
    RequiredAreTokens();
    RequiredAreUnique();
    ChecksReturn(REQUIRED_PRECHECKS, pre);
    ChecksReturn(REQUIRED_POSTCHECKS, post);
  }

  /** Restoring the form from a built procedure and building again gives the same procedure exactly when the path of its
    * README has no space around it; otherwise the trimmed input names another file, or none. */
  lemma RoundTrip(adapter: string, fields: Fields, a: Artifact, saved: Option<Procedure>)
    ensures var id := Get(fields, ReadmeIdentifier);
      match Build(adapter, fields, Some(a), saved)
      case Ok(p) => MatchesArtifact(p, a) ==> (Build(p.adapter, FormValues(Restore(p)), Some(a), Some(p)) == Ok(p) <==> Trim(id) == id)
      case _ => true
  {
    var r := Build(adapter, fields, Some(a), saved);
    if r.Ok? && MatchesArtifact(r.procedure, a) { BuiltReturns(adapter, fields, a, saved, r.procedure); }
  }

  lemma BuiltReturns(adapter: string, fields: Fields, a: Artifact, saved: Option<Procedure>, p: Procedure)
    requires Build(adapter, fields, Some(a), saved) == Ok(p) && MatchesArtifact(p, a)
    ensures var id := Get(fields, ReadmeIdentifier);
      Build(p.adapter, FormValues(Restore(p)), Some(a), Some(p)) == Ok(p) <==> Trim(id) == id
  {
    var c := ConfigOf(adapter).value;
    var id := Get(fields, ReadmeIdentifier);
    var readme := FindFile(a.readmeFiles, id).value;
    FoundFile(a.readmeFiles, id);
    CanonicalIsBuilt(adapter, c, fields, a, readme);
    var canonical := Canonical(adapter, c, fields, a, readme);
    if saved.Some? { RetainedIsBuilt(canonical, c, a, readme, saved.value); }
    AdapterFamilies(adapter);
    BuildAgain(p, c, a, readme, Get(fields, Prechecks), Get(fields, Postchecks));
  }

  /** Building again, for the file the restored form names. */
  lemma BuildAgainWith(p: Procedure, c: Config, a: Artifact, readme: File, pre: string, post: string, found: File)
    requires Built(p, c, a, readme) && ChecksBuilt(p, pre, post) && (c.family == "database" || c.family == "grid")
    requires MatchesArtifact(p, a)
    requires FindFile(a.readmeFiles, Get(FormValues(Restore(p)), ReadmeIdentifier)) == Some(found) && found.sha256 != ""
    ensures Build(p.adapter, FormValues(Restore(p)), Some(a), Some(p))
      == Ok(p.(references := [Reference("patch_readme", found.path, found.sha256)] + p.references[1..]))
  {
    CanonicalAgain(p, c, a, readme, pre, post, found);
  }

  lemma BuildAgain(p: Procedure, c: Config, a: Artifact, readme: File, pre: string, post: string)
    requires Built(p, c, a, readme) && ChecksBuilt(p, pre, post) && (c.family == "database" || c.family == "grid")
    requires MatchesArtifact(p, a)
    ensures Build(p.adapter, FormValues(Restore(p)), Some(a), Some(p)) == Ok(p) <==> Trim(readme.path) == readme.path
  {
    var id := Trim(readme.path);
    FormShows(p, ReadmeIdentifier);
    FoundFile(a.readmeFiles, id);
    var found := FindFile(a.readmeFiles, id);
    if found.Some? && found.value.sha256 != "" {
      BuildAgainWith(p, c, a, readme, pre, post, found.value);
      SameReadme(p, found.value, readme);
    } else {
      BuildWithout(p, a);
    }
  }

  lemma BuildWithout(p: Procedure, a: Artifact)
    requires var found := FindFile(a.readmeFiles, Get(FormValues(Restore(p)), ReadmeIdentifier)); found.Some? ==> found.value.sha256 == ""
    ensures !Build(p.adapter, FormValues(Restore(p)), Some(a), Some(p)).Ok?
  {
  }

  lemma SameReadme(p: Procedure, found: File, readme: File)
    requires p.references != [] && p.references[0] == Reference("patch_readme", readme.path, readme.sha256)
    ensures p.(references := [Reference("patch_readme", found.path, found.sha256)] + p.references[1..]) == p <==> found == readme
  {
    var again := [Reference("patch_readme", found.path, found.sha256)] + p.references[1..];
    assert again[0] == Reference("patch_readme", found.path, found.sha256);
    if found == readme { assert again == p.references; }
  }

  function Inputs(patch: string, platform: string, version: string, path: string, rollback: string): Fields {
    map[PatchId := patch, PlatformId := platform, RequiredOpatchVersion := version, ReadmeIdentifier := path,
        RollbackPrecondition := rollback]
  }

  /** An artifact with one README. */
  function OneFile(sha: string, patch: string, platform: string, path: string, digest: string): Artifact {
    Artifact(sha, [patch], [platform], [File(path, digest)])
  }

  function Made(fields: Fields, a: Artifact, readme: File): Procedure {
    Canonical("grid_rolling_opatch", ConfigOf("grid_rolling_opatch").value, fields, a, readme)
  }

  lemma Accepted(fields: Fields, a: Artifact, readme: File)
    requires forall name | name in {PatchId, PlatformId, RequiredOpatchVersion, ReadmeIdentifier, RollbackPrecondition} ::
      Trim(Get(fields, name)) != ""
    requires a.readmeFiles == [readme] && readme.path == Get(fields, ReadmeIdentifier) && readme.sha256 != ""
    ensures Build("grid_rolling_opatch", fields, Some(a), None) == Ok(Made(fields, a, readme))
  {
    NothingMissing(fields);
    assert FindFile([readme], readme.path) == Some(readme);
  }

  lemma NothingMissing(fields: Fields)
    requires forall name | name in {PatchId, PlatformId, RequiredOpatchVersion, ReadmeIdentifier, RollbackPrecondition} ::
      Trim(Get(fields, name)) != ""
    ensures FirstMissing(RequiredFields(ConfigOf("grid_rolling_opatch").value), fields).None?
  {
    var required := RequiredFields(ConfigOf("grid_rolling_opatch").value);
    assert required == [PatchId, PlatformId, RequiredOpatchVersion, ReadmeIdentifier, RollbackPrecondition];
    NoneMissing(required, fields);
  }

  lemma Matched(fields: Fields, a: Artifact, readme: File)
    requires a.sha256 != "" && readme.sha256 != "" && readme in a.readmeFiles
    requires a.patchIds == [Trim(Get(fields, PatchId))] && a.platforms == [Trim(Get(fields, PlatformId))]
    ensures MatchesArtifact(Made(fields, a, readme), a)
  {
    var references := [Reference("patch_readme", readme.path, readme.sha256)];
    assert references[..0] == [] && OfKind(references, {"patch_readme"}) == references;
  }

  /** And there are such paths: a procedure for the only README of an artifact is built, but its path has space around it,
    * so the restored form does not give the procedure back. */
  lemma SpacedPathIsLost(patch: string, platform: string, version: string, path: string, rollback: string, sha: string, digest: string)
    requires patch != "" && platform != "" && version != "" && rollback != "" && sha != "" && digest != ""
    requires Trimmed(patch) && Trimmed(platform) && Trimmed(version) && Trimmed(rollback)
    requires Trim(path) != "" && Trim(path) != path
    ensures var a := OneFile(sha, patch, platform, path, digest);
      var r := Build("grid_rolling_opatch", Inputs(patch, platform, version, path, rollback), Some(a), None);
      r.Ok? && Build(r.procedure.adapter, FormValues(Restore(r.procedure)), Some(a), Some(r.procedure)) != r
  {
    var fields, a := Inputs(patch, platform, version, path, rollback), OneFile(sha, patch, platform, path, digest);
    InputsTrimmed(patch, platform, version, path, rollback);
    Accepted(fields, a, File(path, digest));
    Matched(fields, a, File(path, digest));
    RoundTrip("grid_rolling_opatch", fields, a, None);
  }

  lemma InputsTrimmed(patch: string, platform: string, version: string, path: string, rollback: string)
    requires Trimmed(patch) && Trimmed(platform) && Trimmed(version) && Trimmed(rollback)
    ensures var fields := Inputs(patch, platform, version, path, rollback);
      && Trim(Get(fields, PatchId)) == patch && Trim(Get(fields, PlatformId)) == platform
      && Trim(Get(fields, RequiredOpatchVersion)) == version && Trim(Get(fields, RollbackPrecondition)) == rollback
      && Get(fields, ReadmeIdentifier) == path
  {
    TrimTrims(patch);
    TrimTrims(platform);
    TrimTrims(version);
    TrimTrims(rollback);
  }

  // ---- what is built ----

  /** A procedure is built exactly for a supported adapter with all required inputs and a hashed README of that path. */
  lemma BuildSucceeds(adapter: string, fields: Fields, artifact: Option<Artifact>, saved: Option<Procedure>)
    ensures Build(adapter, fields, artifact, saved).Ok? <==>
      && ConfigOf(adapter).Some? && artifact.Some?
      && Trim(Get(fields, PatchId)) != "" && Trim(Get(fields, PlatformId)) != ""
      && Trim(Get(fields, RequiredOpatchVersion)) != "" && Trim(Get(fields, ReadmeIdentifier)) != ""
      && Trim(Get(fields, RollbackPrecondition)) != ""
      && (ConfigOf(adapter).value.family == "database" ==> Trim(Get(fields, DatabaseUniqueName)) != "")
      && var readme := FindFile(artifact.value.readmeFiles, Get(fields, ReadmeIdentifier)); readme.Some? && readme.value.sha256 != ""
  {
    if ConfigOf(adapter).Some? { RequiredFilled(ConfigOf(adapter).value, fields); }
  }

  lemma {:induction false} KindsCounted(references: seq<Reference>, kinds: set<string>)
    ensures forall r :: multiset(OfKind(references, kinds))[r] == if r.kind in kinds then multiset(references)[r] else 0
    decreases |references|
  {
    if |references| > 0 {
      var before, last := references[..|references| - 1], references[|references| - 1];
      KindsCounted(before, kinds);
      assert references == before + [last];
    }
  }

  lemma {:induction false} KindsInOrder(a: seq<Reference>, b: seq<Reference>, kinds: set<string>)
    ensures OfKind(a + b, kinds) == OfKind(a, kinds) + OfKind(b, kinds)
    decreases |b|
  {
    if |b| == 0 {
      assert a + b == a;
    } else {
      KindsInOrder(a, b[..|b| - 1], kinds);
      assert (a + b)[..|a + b| - 1] == a + b[..|b| - 1];
    }
  }

  /** How often a reference of a saved procedure is kept. */
  function TimesKept(saved: Procedure, r: Reference): nat {
    if r.kind == "mos_note" || r.kind == "oracle_doc" then multiset(saved.references)[r] else 0
  }

  /** What building keeps of a saved procedure: of the same adapter and artifact its notes and documents, each as often as
    * it was there and behind the README, its rollback mode and, on grid, its topology, as far as it has them; of any other
    * nothing. */
  lemma SavedIsKept(adapter: string, fields: Fields, a: Artifact, saved: Procedure)
    requires Build(adapter, fields, Some(a), Some(saved)).Ok?
    ensures Build(adapter, fields, Some(a), None).Ok?
    ensures
      var p := Build(adapter, fields, Some(a), Some(saved)).procedure;
      var plain := Build(adapter, fields, Some(a), None).procedure;
      if saved.adapter == adapter && MatchesArtifact(saved, a) then
        && |p.references| >= 1 && p.references[0] == Reference("patch_readme", Get(fields, ReadmeIdentifier), p.references[0].sha256)
        && (forall r :: multiset(p.references[1..])[r] == TimesKept(saved, r))
        && p.rollbackMode == (if saved.rollbackMode != "" then saved.rollbackMode else plain.rollbackMode)
        && p.topology == (if p.family == "grid" && saved.topology != "" then saved.topology else plain.topology)
        && p.(references := plain.references, rollbackMode := plain.rollbackMode, topology := plain.topology) == plain
      else p == plain
  {
    var config := ConfigOf(adapter).value;
    FoundFile(a.readmeFiles, Get(fields, ReadmeIdentifier));
    var readme := FindFile(a.readmeFiles, Get(fields, ReadmeIdentifier)).value;
    if saved.adapter == adapter && MatchesArtifact(saved, a) {
      RetainedParts(Canonical(adapter, config, fields, a, readme), config, saved);
    }
  }

  lemma RetainedParts(p: Procedure, c: Config, saved: Procedure)
    requires |p.references| == 1
    ensures Retained(p, c, saved).references[0] == p.references[0]
    ensures forall r :: multiset(Retained(p, c, saved).references[1..])[r] == TimesKept(saved, r)
  {
    KindsCounted(saved.references, {"mos_note", "oracle_doc"});
    assert Retained(p, c, saved).references[1..] == OfKind(saved.references, {"mos_note", "oracle_doc"});
  }

  /** What was typed is what the form shows again, without the space around it. */
  lemma TypedIsShown(adapter: string, fields: Fields, a: Artifact, saved: Option<Procedure>)
    ensures match Build(adapter, fields, Some(a), saved)
      case Ok(p) =>
        var shown := FormValues(Restore(p));
        && p.adapter == adapter && p.artifactSha256 == a.sha256
        && (forall name | name in {PatchId, PlatformId, RequiredOpatchVersion, ReadmeIdentifier, RollbackPrecondition} ::
              Get(shown, name) == Trim(Get(fields, name)))
        && Get(shown, DatabaseUniqueName) == (if p.family == "database" then Trim(Get(fields, DatabaseUniqueName)) else "")
      case _ => true
  {
    var built := Build(adapter, fields, Some(a), saved);
    if built.Ok? {
      var c := ConfigOf(adapter).value;
      FoundFile(a.readmeFiles, Get(fields, ReadmeIdentifier));
      var readme := FindFile(a.readmeFiles, Get(fields, ReadmeIdentifier)).value;
      CanonicalShown(adapter, c, fields, a, readme, built.procedure);
    }
  }

  lemma CanonicalShown(adapter: string, c: Config, fields: Fields, a: Artifact, readme: File, p: Procedure)
    requires readme.path == Get(fields, ReadmeIdentifier)
    requires var q := Canonical(adapter, c, fields, a, readme);
      p == q.(references := p.references, rollbackMode := p.rollbackMode, topology := p.topology) && q.references <= p.references
    ensures var shown := FormValues(Restore(p));
      && (forall name | name in {PatchId, PlatformId, RequiredOpatchVersion, ReadmeIdentifier, RollbackPrecondition} ::
            Get(shown, name) == Trim(Get(fields, name)))
      && Get(shown, DatabaseUniqueName) == (if p.family == "database" then Trim(Get(fields, DatabaseUniqueName)) else "")
  {
    AllShown(p);
    TrimIsTrimmed();
  }

  lemma TrimIsTrimmed()
    ensures forall s: string :: Trim(Trim(s)) == Trim(s)
    ensures Trim("") == ""
  {
    forall s: string ensures Trim(Trim(s)) == Trim(s) {
      TrimTrims(s);
      TrimTrims(Trim(s));
    }
  }

  /** Without a saved procedure the adapter decides what the form does not: the family, the method, the topology of a
    * database, the operations and the way back. */
  lemma AdapterDecides(adapter: string, fields: Fields, a: Artifact)
    ensures match Build(adapter, fields, Some(a), None)
      case Ok(p) =>
        && (p.family == "grid" <==> adapter == "grid_rolling_opatch" || adapter == "grid_rolling_opatchauto")
        && (p.family != "grid" ==> p.family == "database")
        && p.method_ == (if adapter == "grid_rolling_opatchauto" then "opatchauto"
                         else if adapter == "database_out_of_place_switch" then "switch_home" else "opatch")
        && p.topology == (if p.family == "grid" then "" else if adapter == "database_rolling_opatch" then "rac" else "single_instance")
        && p.rollbackMode == (if p.method_ == "switch_home" then "home_switch_back" else "opatch_rollback")
        && p.operations != [] && p.operations == ConfigOf(adapter).value.operations
      case _ => true
  {
  }

  /** A procedure built without a saved one matches its artifact exactly if the artifact has a digest and is for just the
    * patch and the platform that were typed. */
  lemma BuiltMatches(adapter: string, fields: Fields, a: Artifact)
    ensures match Build(adapter, fields, Some(a), None)
      case Ok(p) =>
        MatchesArtifact(p, a) <==>
          a.sha256 != "" && a.patchIds == [Trim(Get(fields, PatchId))] && a.platforms == [Trim(Get(fields, PlatformId))]
      case _ => true
  {
    var built := Build(adapter, fields, Some(a), None);
    if built.Ok? {
      FileIsThere(a.readmeFiles, Get(fields, ReadmeIdentifier));
      var references := built.procedure.references;
      assert references[..0] == [] && OfKind(references, {"patch_readme"}) == references;
    }
  }

  lemma {:induction false} FileIsThere(files: seq<File>, path: string)
    ensures FindFile(files, path).Some? ==> FindFile(files, path).value in files && FindFile(files, path).value.path == path
    decreases |files|
  {
    if |files| > 0 { FileIsThere(files[1..], path); }
  }
}
