/** Strict validation of a run's published evidence: the directory, its manifest and its result. */
module Recovery {
  import opened Json
  import opened Results

  /** A path by its components; evidence paths are relative to the run's directory. */
  type Path = seq<string>

  datatype Artifact = Artifact(role: string, path: Path, digest: Digest, complete: bool)

  datatype Manifest = Manifest(runId: string, complete: bool, artifacts: seq<Artifact>)

  /** What a file holds, as its readers parse it. */
  datatype Content = Document(value: Value) | ManifestFile(manifest: Manifest) | Other(id: nat)

  /** A well-formed digest stands for the content it was taken of. */
  datatype Digest = Sha256(content: Content) | Malformed(text: string)

  datatype Node = Directory | File(content: Content) | Symlink | Special

  /** A directory tree: every entry with its path, `[]` being the run's directory itself. */
  type Tree = map<Path, Node>

  function Parent(p: Path): Path
    requires p != []
  {
    p[..|p| - 1]
  }

  ghost predicate WellFormed(t: Tree) {
    && [] in t && t[[]] == Directory
    && forall p :: p in t && p != [] ==> Parent(p) in t && t[Parent(p)] == Directory
  }

  const MANIFEST: Path := ["manifest.json"]

  function JoinPath(p: Path): string {
    if p == [] then "" else if |p| == 1 then p[0] else JoinPath(Parent(p)) + "/" + p[|p| - 1]
  }

  // ----- roles and paths

  predicate SafeByte(c: char) {
    'a' <= c <= 'z' || 'A' <= c <= 'Z' || '0' <= c <= '9' || c == '_' || c == '-'
  }

  /** `prefix`, a non-empty leaf of safe characters, `suffix`. */
  predicate SafeLeaf(text: string, prefix: string, suffix: string) {
    && |prefix| + |suffix| < |text|
    && text[..|prefix|] == prefix && text[|text| - |suffix|..] == suffix
    && forall i :: |prefix| <= i < |text| - |suffix| ==> SafeByte(text[i])
  }

  function ExactPath(role: string): Option<string> {
    if role == "normalized_job" then Some("job.json")
    else if role == "result" then Some("result.json")
    else if role == "provenance" then Some("provenance.json")
    else if role == "trace" then Some("trace.jsonl")
    else if role == "cleanup" then Some("cleanup.json")
    else if role == "verification" then Some("verification/final.json")
    else None
  }

  function NestedPath(role: string): Option<(string, string)> {
    if role == "observation" then Some(("observations/", ".json"))
    else if role == "screenshot" then Some(("observations/", ".png"))
    else if role == "decision" then Some(("decisions/", ".json"))
    else if role == "step" then Some(("steps/", ".json"))
    else if role == "escalation" then Some(("escalations/", ".json"))
    else if role == "disposition" then Some(("dispositions/", ".json"))
    else None
  }

  predicate RoleMatches(role: string, text: string) {
    if ExactPath(role).Some? then text == ExactPath(role).value
    else NestedPath(role).Some? && SafeLeaf(text, NestedPath(role).value.0, NestedPath(role).value.1)
  }

  /** The first two characters and the last one tell the roles apart. */
  function Signature(role: string): (char, char, char)
    requires ExactPath(role).Some? || NestedPath(role).Some?
  {
    if ExactPath(role).Some? then
      var p := ExactPath(role).value;
      (p[0], p[1], p[|p| - 1])
    else
      var (p, s) := NestedPath(role).value;
      (p[0], p[1], s[|s| - 1])
  }

  lemma MatchesHaveSignature(role: string, text: string)
    requires RoleMatches(role, text)
    ensures |text| > 1 && (text[0], text[1], text[|text| - 1]) == Signature(role)
  {
    if ExactPath(role).None? {
      var (p, s) := NestedPath(role).value;
      assert text[0] == text[..|p|][0] && text[1] == text[..|p|][1] && text[|text| - 1] == text[|text| - |s|..][|s| - 1];
    }
  }

  function RoleWith(signature: (char, char, char)): string {
    match signature
    case ('j', _, _) => "normalized_job"
    case ('r', _, _) => "result"
    case ('p', _, _) => "provenance"
    case ('t', _, _) => "trace"
    case ('c', _, _) => "cleanup"
    case ('v', _, _) => "verification"
    case ('o', _, 'g') => "screenshot"
    case ('o', _, _) => "observation"
    case ('d', 'e', _) => "decision"
    case ('d', _, _) => "disposition"
    case ('s', _, _) => "step"
    case _ => "escalation"
  }

  lemma SignatureTellsRole(role: string)
    requires ExactPath(role).Some? || NestedPath(role).Some?
    ensures RoleWith(Signature(role)) == role
  {
  }

  /** A path fits at most one role. */
  lemma RolesAreExclusive(a: string, b: string, text: string)
    requires RoleMatches(a, text) && RoleMatches(b, text)
    ensures a == b
  {
    assert (ExactPath(a).Some? || NestedPath(a).Some?) && (ExactPath(b).Some? || NestedPath(b).Some?);
    hide *;
    MatchesHaveSignature(a, text);
    MatchesHaveSignature(b, text);
    SignatureTellsRole(a);
    SignatureTellsRole(b);
  }

  // ----- the files of a directory

  function Files(t: Tree): set<Path> {
    set p | p in t && t[p].File?
  }

  predicate OnlyRegular(t: Tree) {
    forall p :: p in t ==> t[p].File? || t[p].Directory?
  }

  function Entries(t: Tree, directory: Path): set<Path> {
    set p | p in t && p != [] && Parent(p) == directory
  }

  /** The walk over pending directories: `visited` are done, `open` is the one being read, `routed`
      are the entries seen so far. Every directory is pending or read exactly once. */
  ghost predicate Walk(t: Tree, visited: set<Path>, open: set<Path>, pending: seq<Path>, files: set<Path>, routed: set<Path>) {
    && (forall i :: 0 <= i < |pending| ==> pending[i] in t && t[pending[i]].Directory? && pending[i] !in visited && pending[i] !in open)
    && (forall i, j :: 0 <= i < j < |pending| ==> pending[i] != pending[j])
    && (forall p :: p in visited || p in open ==> p in t)
    && visited !! open
    && ([] in visited || [] in open || [] in pending)
    && (forall p :: p in routed ==> Routed(t, visited, open, pending, files, p))
    && (forall p :: p in files ==> p in routed && t[p].File?)
    && (forall p :: p in visited || p in open || p in pending ==> p == [] || p in routed)
    && (forall p :: p in visited ==> Entries(t, p) <= routed)
  }

  ghost predicate Routed(t: Tree, visited: set<Path>, open: set<Path>, pending: seq<Path>, files: set<Path>, p: Path) {
    && p in t && p != [] && (Parent(p) in visited || Parent(p) in open)
    && if t[p].File? then p in files else t[p].Directory? && (p in visited || p in open || p in pending)
  }

  lemma OpenNext(t: Tree, visited: set<Path>, pending: seq<Path>, files: set<Path>, routed: set<Path>)
    requires Walk(t, visited, {}, pending, files, routed) && pending != []
    ensures var n := |pending| - 1;
            && Walk(t, visited, {pending[n]}, pending[..n], files, routed)
            && Entries(t, pending[n]) !! routed && pending[n] in t && pending[n] !in visited
  {
  }

  lemma RouteEntry(t: Tree, visited: set<Path>, directory: Path, pending: seq<Path>, files: set<Path>, routed: set<Path>, p: Path)
    requires Walk(t, visited, {directory}, pending, files, routed) && p in Entries(t, directory) && p !in routed
    ensures p in t && (OnlyRegular(t) ==> t[p].File? || t[p].Directory?)
    ensures t[p].File? ==> Walk(t, visited, {directory}, pending, files + {p}, routed + {p})
    ensures t[p].Directory? ==> Walk(t, visited, {directory}, pending + [p], files, routed + {p})
  {
    assert p != [] && Parent(p) == directory;
    forall q | q in routed
      ensures Routed(t, visited, {directory}, pending, files + {p}, q) && Routed(t, visited, {directory}, pending + [p], files, q)
    {
      assert Routed(t, visited, {directory}, pending, files, q);
    }
  }

  lemma CloseDirectory(t: Tree, visited: set<Path>, directory: Path, pending: seq<Path>, files: set<Path>, routed: set<Path>)
    requires Walk(t, visited, {directory}, pending, files, routed) && Entries(t, directory) <= routed
    ensures Walk(t, visited + {directory}, {}, pending, files, routed)
  {
  }

  lemma EverythingVisited(t: Tree, visited: set<Path>, files: set<Path>, routed: set<Path>, p: Path)
    requires WellFormed(t) && Walk(t, visited, {}, [], files, routed) && p in t
    ensures t[p].Directory? ==> p in visited
    ensures t[p].File? ==> p in files
    ensures t[p].File? || t[p].Directory?
    decreases |p|
  {
    if p != [] {
      EverythingVisited(t, visited, files, routed, Parent(p));
      assert p in Entries(t, Parent(p));
      assert Routed(t, visited, {}, [], files, p);
    }
  }

  /** Routes every entry of one directory, in any order; stops at one that is neither file nor directory. */
  method ReadDirectory(t: Tree, directory: Path, pending: seq<Path>, files: set<Path>, ghost visited: set<Path>, ghost routed: set<Path>)
    returns (ok: bool, pending': seq<Path>, files': set<Path>, ghost routed': set<Path>)
    requires Walk(t, visited, {directory}, pending, files, routed) && Entries(t, directory) !! routed
    ensures !ok ==> !OnlyRegular(t)
    ensures ok ==> Walk(t, visited, {directory}, pending', files', routed') && Entries(t, directory) <= routed'
  {
    hide Walk, Routed, OnlyRegular;
    pending', files', routed' := pending, files, routed;
    var entries := Entries(t, directory);
    while entries != {}
      invariant Walk(t, visited, {directory}, pending', files', routed')
      invariant entries <= Entries(t, directory) <= entries + routed' && entries !! routed'
      decreases |entries|
    {
      var p :| p in entries;
      entries := entries - {p};
      RouteEntry(t, visited, directory, pending', files', routed', p);
      match t[p] {
        case Directory => pending' := pending' + [p];
        case File(_) => files' := files' + {p};
        case _ => ok := false; return;
      }
      routed' := routed' + {p};
    }
    ok := true;
  }

  /** All regular files below the run's directory, unless something else is found there. */
  method EvidenceFiles(t: Tree) returns (files: Option<set<Path>>)
    requires WellFormed(t)
    ensures files.Some? <==> OnlyRegular(t)
    ensures files.Some? ==> files.value == Files(t) - {MANIFEST}
  {
    var pending: seq<Path>, found: set<Path> := [[]], {};
    ghost var visited: set<Path>, routed: set<Path> := {}, {};
    assert Walk(t, visited, {}, pending, found, routed);
    hide *;
    while pending != []
      invariant Walk(t, visited, {}, pending, found, routed)
      decreases |t.Keys - visited|
    {
      OpenNext(t, visited, pending, found, routed);
      var directory := pending[|pending| - 1];
      pending := pending[..|pending| - 1];
      var ok;
      ok, pending, found, routed := ReadDirectory(t, directory, pending, found, visited, routed);
      if !ok { return None; }
      CloseDirectory(t, visited, directory, pending, found, routed);
      assert t.Keys - (visited + {directory}) < t.Keys - visited by { assert directory in t.Keys - visited; }
      visited := visited + {directory};
    }
    FoundEverything(t, visited, found, routed);
    return Some(found - {MANIFEST});
  }

  lemma FoundEverything(t: Tree, visited: set<Path>, files: set<Path>, routed: set<Path>)
    requires WellFormed(t) && Walk(t, visited, {}, [], files, routed)
    ensures OnlyRegular(t) && files == Files(t)
  {
    forall p | p in t
      ensures (t[p].File? ==> p in files) && (t[p].File? || t[p].Directory?)
    {
      EverythingVisited(t, visited, files, routed, p);
    }
    forall p | p in files
      ensures p in Files(t)
    {
      assert Routed(t, visited, {}, [], files, p);
    }
  }

  // ----- the manifest against the files

  const SINGLETONS := {"normalized_job", "result", "provenance", "trace", "cleanup", "verification"}

  /** A complete artifact whose file is there, unchanged, where its role belongs. */
  predicate ArtifactValid(t: Tree, a: Artifact) {
    && a.complete && a.digest.Sha256?
    && a.path in t && t[a.path].File? && RoleMatches(a.role, JoinPath(a.path))
    && a.digest == Sha256(t[a.path].content)
  }

  predicate HasRole(artifacts: seq<Artifact>, role: string) {
    exists k :: 0 <= k < |artifacts| && artifacts[k].role == role
  }

  ghost predicate Collected(t: Tree, artifacts: seq<Artifact>) {
    && (forall k :: 0 <= k < |artifacts| ==> ArtifactValid(t, artifacts[k]))
    && (forall j, k :: 0 <= j < k < |artifacts| ==> artifacts[j].path != artifacts[k].path)
    && (forall j, k :: 0 <= j < k < |artifacts| && artifacts[j].role in SINGLETONS ==> artifacts[j].role != artifacts[k].role)
  }

  function Paths(artifacts: seq<Artifact>): set<Path> {
    set k | 0 <= k < |artifacts| :: artifacts[k].path
  }

  /** The singleton roles and where their artifacts are. */
  ghost predicate ByRole(artifacts: seq<Artifact>, byRole: map<string, Path>) {
    && (forall role :: role in byRole <==> role in SINGLETONS && HasRole(artifacts, role))
    && (forall k :: 0 <= k < |artifacts| && artifacts[k].role in SINGLETONS ==> artifacts[k].role in byRole && byRole[artifacts[k].role] == artifacts[k].path)
  }

  /** Neither the path nor, for a singleton, the role was listed before. */
  ghost predicate Unlisted(before: seq<Artifact>, a: Artifact) {
    forall k :: 0 <= k < |before| ==> before[k].path != a.path && (a.role in SINGLETONS ==> before[k].role != a.role)
  }

  lemma UnlistedMeans(before: seq<Artifact>, a: Artifact)
    ensures Unlisted(before, a) <==> a.path !in Paths(before) && (a.role in SINGLETONS ==> !HasRole(before, a.role))
    ensures Paths(before + [a]) == Paths(before) + {a.path}
  {
    assert (before + [a])[|before|] == a;
    assert forall k :: 0 <= k < |before| ==> (before + [a])[k] == before[k];
  }

  lemma CollectOne(t: Tree, before: seq<Artifact>, a: Artifact)
    requires Collected(t, before)
    ensures Collected(t, before + [a]) <==> ArtifactValid(t, a) && Unlisted(before, a)
  {
    hide ArtifactValid;
    var all, n := before + [a], |before|;
    assert all[n] == a;
    assert forall k :: 0 <= k < n ==> all[k] == before[k];
    assert Collected(t, all) ==> forall k :: 0 <= k < n ==> all[k].path != all[n].path && (all[k].role in SINGLETONS ==> all[k].role != all[n].role);
  }

  lemma ByRoleOne(before: seq<Artifact>, a: Artifact, byRole: map<string, Path>)
    requires ByRole(before, byRole) && a.role !in byRole
    ensures ByRole(before + [a], if a.role in SINGLETONS then byRole[a.role := a.path] else byRole)
  {
    var all, n := before + [a], |before|;
    forall role
      ensures HasRole(all, role) <==> HasRole(before, role) || role == a.role
    {
      HasRoleMore(before, a, role);
    }
    assert forall k :: 0 <= k < n ==> all[k] == before[k];
    hide HasRole;
  }

  lemma HasRoleMore(before: seq<Artifact>, a: Artifact, role: string)
    ensures HasRole(before + [a], role) <==> HasRole(before, role) || role == a.role
  {
    var all := before + [a];
    assert all[|before|] == a;
    if HasRole(before, role) {
      var k :| 0 <= k < |before| && before[k].role == role;
      assert all[k].role == role;
    }
  }

  lemma PrefixCollected(t: Tree, artifacts: seq<Artifact>, n: nat)
    requires n <= |artifacts| && Collected(t, artifacts)
    ensures Collected(t, artifacts[..n])
  {
  }

  method CollectManifestArtifacts(t: Tree, artifacts: seq<Artifact>) returns (r: Option<(map<string, Path>, set<Path>)>)
    ensures r.Some? <==> Collected(t, artifacts)
    ensures r.Some? ==> ByRole(artifacts, r.value.0) && r.value.1 == Paths(artifacts)
  {
    var byRole: map<string, Path>, listed: set<Path> := map[], {};
    assert Collected(t, artifacts[..0]) && ByRole(artifacts[..0], byRole) && listed == Paths(artifacts[..0]);
    hide Collected, Paths, ArtifactValid, HasRole, Unlisted;
    for n := 0 to |artifacts|
      invariant Collected(t, artifacts[..n])
      invariant ByRole(artifacts[..n], byRole) && listed == Paths(artifacts[..n])
    {
      var a := artifacts[n];
      assert artifacts[..n + 1] == artifacts[..n] + [a];
      CollectOne(t, artifacts[..n], a);
      UnlistedMeans(artifacts[..n], a);
      if Collected(t, artifacts) { PrefixCollected(t, artifacts, n + 1); }
      if !ArtifactValid(t, a) || a.path in listed { return None; }
      listed := listed + {a.path};
      if a.role in SINGLETONS && a.role in byRole { return None; }
      ByRoleOne(artifacts[..n], a, byRole);
      if a.role in SINGLETONS { byRole := byRole[a.role := a.path]; }
    }
    assert artifacts[..|artifacts|] == artifacts;
    return Some((byRole, listed));
  }

  /** The manifest lists exactly the run's files, each of them once, with the roles every run needs. */
  ghost predicate Listed(t: Tree, m: Manifest) {
    && Collected(t, m.artifacts)
    && HasRole(m.artifacts, "normalized_job") && HasRole(m.artifacts, "result")
    && ((exists k :: 0 <= k < |m.artifacts| && m.artifacts[k].role != "normalized_job" && m.artifacts[k].role != "result") ==>
          HasRole(m.artifacts, "provenance") && HasRole(m.artifacts, "trace") && HasRole(m.artifacts, "cleanup"))
    && OnlyRegular(t) && Files(t) - {MANIFEST} == Paths(m.artifacts)
  }

  method ValidateManifestArtifacts(t: Tree, m: Manifest) returns (byRole: Option<map<string, Path>>)
    requires WellFormed(t)
    ensures byRole.Some? <==> Listed(t, m)
    ensures byRole.Some? ==> ByRole(m.artifacts, byRole.value)
  {
    var collected := CollectManifestArtifacts(t, m.artifacts);
    if collected.None? { return None; }
    hide Collected, WellFormed, OnlyRegular;
    var (roles, listed) := collected.value;
    if "normalized_job" !in roles || "result" !in roles { return None; }
    var fullRun := exists k :: 0 <= k < |m.artifacts| && m.artifacts[k].role != "normalized_job" && m.artifacts[k].role != "result";
    if fullRun && ("provenance" !in roles || "trace" !in roles || "cleanup" !in roles) { return None; }
    var files := EvidenceFiles(t);
    if files.None? || files.value != listed { return None; }
    return Some(roles);
  }

  // ----- the result

  predicate TerminalShape(result: Value, requireTerminal: bool) {
    requireTerminal ==> Terminal(result)
  }

  /** Only a run stopped before it started may have no more than its job and result. */
  predicate FlowShape(m: Manifest, result: Value) {
    |m.artifacts| == 2 ==>
      && Text(Pointer(result, ["reason", "code"])) == Some("missing_value")
      && Text(Pointer(result, ["cleanup", "browser"])) == Some("not_started")
      && Text(Pointer(result, ["cleanup", "profile"])) == Some("not_created")
  }

  predicate Evaluated(result: Value) {
    var expectations := Pointer(result, ["verdict", "expectations"]);
    expectations.Some? && expectations.value.Arr? &&
    exists i :: 0 <= i < |expectations.value.items| && Text(Get(expectations.value.items[i], "result")) != Some("not_run")
  }

  predicate VerificationShape(m: Manifest, result: Value) {
    (Text(Get(result, "state")) == Some("passed") || Evaluated(result) || Text(Pointer(result, ["escalation", "phase"])) == Some("verification")) ==>
      HasRole(m.artifacts, "verification")
  }

  predicate AllSatisfied(result: Value, part: string) {
    var verdicts := Pointer(result, ["verdict", part]);
    verdicts.Some? && verdicts.value.Arr? &&
    forall i :: 0 <= i < |verdicts.value.items| ==> Text(Get(verdicts.value.items[i], "result")) == Some("satisfied")
  }

  predicate PassedShape(result: Value) {
    Text(Get(result, "state")) == Some("passed") ==>
      Text(Pointer(result, ["verdict", "overall"])) == Some("satisfied") && AllSatisfied(result, "steps") && AllSatisfied(result, "expectations")
  }

  predicate Identity(result: Value, runId: string, requestId: string, manifestText: string) {
    && Get(result, "schema_version") == Some(Num(1))
    && Text(Get(result, "run_id")) == Some(runId) && Text(Get(result, "request_id")) == Some(requestId)
    && Flag(Pointer(result, ["evidence", "complete"])) == Some(true)
    && Text(Pointer(result, ["evidence", "manifest"])) == Some(manifestText)
  }

  ghost predicate Acceptable(t: Tree, m: Manifest, result: Value, runId: string, requestId: string, manifestText: string, requireTerminal: bool) {
    && MANIFEST in t && t[MANIFEST] == File(ManifestFile(m)) && m.runId == runId && m.complete
    && Listed(t, m)
    && (exists k :: 0 <= k < |m.artifacts| && m.artifacts[k].role == "result" && m.artifacts[k].path in t
                    && t[m.artifacts[k].path] == File(Document(result)))
    && TerminalShape(result, requireTerminal) && FlowShape(m, result) && VerificationShape(m, result) && PassedShape(result)
    && Identity(result, runId, requestId, manifestText)
  }

  /** The result that acceptable evidence answers with is the only one. */
  lemma AcceptableIsUnique(t: Tree, m: Manifest, a: Value, n: Manifest, b: Value, runId: string, requestId: string, manifestText: string, terminal: bool)
    requires Acceptable(t, m, a, runId, requestId, manifestText, terminal) && Acceptable(t, n, b, runId, requestId, manifestText, terminal)
    ensures m == n && a == b
  {
    var j :| 0 <= j < |m.artifacts| && m.artifacts[j].role == "result" && m.artifacts[j].path in t && t[m.artifacts[j].path] == File(Document(a));
    var k :| 0 <= k < |n.artifacts| && n.artifacts[k].role == "result" && n.artifacts[k].path in t && t[n.artifacts[k].path] == File(Document(b));
    NoOtherResult(t, m, j);
  }

  /** The checks on the result that follow the artifacts. */
  predicate Shaped(m: Manifest, result: Value, runId: string, requestId: string, manifestText: string, requireTerminal: bool) {
    && TerminalShape(result, requireTerminal) && FlowShape(m, result) && VerificationShape(m, result) && PassedShape(result)
    && Identity(result, runId, requestId, manifestText)
  }

  method ValidatePublishedResult(t: Tree, runId: string, requestId: string, manifestText: string, recorded: Option<Value>, requireTerminal: bool)
    returns (r: Option<Value>)
    requires WellFormed(t)
    ensures r.Some? ==> exists m :: Acceptable(t, m, r.value, runId, requestId, manifestText, requireTerminal)
    ensures r.Some? && recorded.Some? ==> r == recorded
    ensures r.None? ==> forall m, v :: Acceptable(t, m, v, runId, requestId, manifestText, requireTerminal) ==> recorded.Some? && recorded.value != v
  {
    if MANIFEST !in t || !t[MANIFEST].File? || !t[MANIFEST].content.ManifestFile? { return None; }
    var m := t[MANIFEST].content.manifest;
    if m.runId != runId || !m.complete { return None; }
    var byRole := ValidateManifestArtifacts(t, m);
    if byRole.None? { return None; }
    ghost var k := ResultIndex(t, m, byRole.value);
    var path := byRole.value["result"];
    hide Listed, WellFormed, TerminalShape, FlowShape, VerificationShape, PassedShape, Identity, ByRole;
    if !t[path].content.Document? {
      NoOtherResult(t, m, k);
      return None;
    }
    var result := t[path].content.value;
    NoOtherResult(t, m, k);
    if !Shaped(m, result, runId, requestId, manifestText, requireTerminal) { return None; }
    assert Acceptable(t, m, result, runId, requestId, manifestText, requireTerminal);
    if recorded.Some? && recorded.value != result {
      forall n, v | Acceptable(t, n, v, runId, requestId, manifestText, requireTerminal)
        ensures recorded.value != v
      {
        AcceptableIsUnique(t, m, result, n, v, runId, requestId, manifestText, requireTerminal);
      }
      return None;
    }
    return Some(result);
  }

  ghost function ResultIndex(t: Tree, m: Manifest, byRole: map<string, Path>): (k: nat)
    requires Listed(t, m) && ByRole(m.artifacts, byRole)
    ensures "result" in byRole && k < |m.artifacts| && m.artifacts[k].role == "result"
    ensures m.artifacts[k].path == byRole["result"] && byRole["result"] in t && t[byRole["result"]].File?
  {
    var k :| 0 <= k < |m.artifacts| && m.artifacts[k].role == "result";
    assert ArtifactValid(t, m.artifacts[k]);
    k
  }

  lemma NoOtherResult(t: Tree, m: Manifest, k: nat)
    requires Listed(t, m) && k < |m.artifacts| && m.artifacts[k].role == "result"
    ensures forall j :: 0 <= j < |m.artifacts| && m.artifacts[j].role == "result" ==> j == k
  {
  }

  datatype Recovered = Missing | Refused | Answer(result: Value, exitCode: nat)

  /** What a retry of a request gets from the evidence its run may have left. */
  method RecoverPublishedRun(tree: Option<Tree>, runId: string, requestId: string, manifestText: string) returns (r: Recovered)
    requires tree.Some? ==> WellFormed(tree.value)
    ensures r.Missing? <==> tree.None?
    ensures r.Answer? ==>
              && (exists m :: Acceptable(tree.value, m, r.result, runId, requestId, manifestText, true))
              && ExitCode(r.result) == Some(r.exitCode)
    ensures r.Refused? ==> forall m, v :: Acceptable(tree.value, m, v, runId, requestId, manifestText, true) ==> ExitCode(v).None?
  {
    if tree.None? { return Missing; }
    var result := ValidatePublishedResult(tree.value, runId, requestId, manifestText, None, true);
    if result.None? { return Refused; }
    if ExitCode(result.value).None? {
      ghost var m :| Acceptable(tree.value, m, result.value, runId, requestId, manifestText, true);
      forall n, v | Acceptable(tree.value, n, v, runId, requestId, manifestText, true)
        ensures ExitCode(v).None?
      {
        AcceptableIsUnique(tree.value, m, result.value, n, v, runId, requestId, manifestText, true);
      }
      return Refused;
    }
    return Answer(result.value, ExitCode(result.value).value);
  }

  /** In accepted evidence every file but the manifest is listed exactly once, unchanged, under the one
      role its path fits, and nothing is listed that is not there. */
  lemma AcceptedEvidenceIsABijection(t: Tree, m: Manifest, result: Value, runId: string, requestId: string, manifestText: string, terminal: bool)
    requires Acceptable(t, m, result, runId, requestId, manifestText, terminal)
    ensures |Files(t) - {MANIFEST}| == |m.artifacts|
    ensures forall p :: p in Files(t) && p != MANIFEST ==> exists k :: ListedAt(t, m, k, p)
    ensures forall j, k, p :: ListedAt(t, m, j, p) && ListedAt(t, m, k, p) ==> j == k
    ensures forall k :: 0 <= k < |m.artifacts| ==> ListedAt(t, m, k, m.artifacts[k].path) && m.artifacts[k].path in Files(t) - {MANIFEST}
  {
    PathsCount(m.artifacts);
    assert Listed(t, m) && Collected(t, m.artifacts) && Files(t) - {MANIFEST} == Paths(m.artifacts);
    hide Acceptable, ArtifactValid, Files, Listed;
    forall k | 0 <= k < |m.artifacts|
      ensures ListedAt(t, m, k, m.artifacts[k].path) && m.artifacts[k].path in Files(t) - {MANIFEST}
    {
      ArtifactIsListed(t, m, k);
      assert m.artifacts[k].path in Paths(m.artifacts);
    }
    hide ListedAt;
    forall p | p in Files(t) && p != MANIFEST
      ensures exists k :: ListedAt(t, m, k, p)
    {
      assert p in Paths(m.artifacts);
      var k :| 0 <= k < |m.artifacts| && m.artifacts[k].path == p;
      assert ListedAt(t, m, k, p);
    }
    forall j, k, p | ListedAt(t, m, j, p) && ListedAt(t, m, k, p)
      ensures j == k
    {
      ListedAtIndex(t, m, j, p);
      ListedAtIndex(t, m, k, p);
    }
  }

  lemma ListedAtIndex(t: Tree, m: Manifest, k: int, p: Path)
    requires ListedAt(t, m, k, p)
    ensures 0 <= k < |m.artifacts| && m.artifacts[k].path == p
  {
  }

  lemma ArtifactIsListed(t: Tree, m: Manifest, k: nat)
    requires k < |m.artifacts| && ArtifactValid(t, m.artifacts[k])
    ensures ListedAt(t, m, k, m.artifacts[k].path)
  {
    hide RoleMatches, JoinPath;
    forall role | RoleMatches(role, JoinPath(m.artifacts[k].path))
      ensures role == m.artifacts[k].role
    {
      RolesAreExclusive(role, m.artifacts[k].role, JoinPath(m.artifacts[k].path));
    }
  }

  ghost predicate ListedAt(t: Tree, m: Manifest, k: int, p: Path) {
    && 0 <= k < |m.artifacts| && m.artifacts[k].path == p && p in t
    && t[p].File? && m.artifacts[k].digest == Sha256(t[p].content)
    && forall role :: RoleMatches(role, JoinPath(p)) <==> role == m.artifacts[k].role
  }

  lemma {:induction false} PathsCount(artifacts: seq<Artifact>)
    requires forall j, k :: 0 <= j < k < |artifacts| ==> artifacts[j].path != artifacts[k].path
    ensures |Paths(artifacts)| == |artifacts|
  {
    if artifacts != [] {
      var n := |artifacts| - 1;
      PathsCount(artifacts[..n]);
      assert Paths(artifacts) == Paths(artifacts[..n]) + {artifacts[n].path};
      assert forall k :: 0 <= k < n ==> artifacts[..n][k] == artifacts[k];
    }
  }
}
