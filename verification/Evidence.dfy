/** Evidence of a run that was stopped before it started: staged, committed by one rename, and found
    again by a retry. */
module Evidence {
  import opened Json
  import opened Recovery
  import opened Results

  datatype Job = Job(steps: seq<string>, expectations: seq<string>, document: Value)

  /** The value that the stopped job lacks, and the step that needs it. */
  datatype Stop = Stop(valueName: string, stepId: string)

  /** What the redactor does to exported text and to a job, and which exports it finds leaking. */
  datatype Redactor = Redactor(text: string -> string, job: Job -> Option<Value>, leaks: (Path, Content) -> bool)

  datatype Expected = Expected(job: Content, result: Value, manifest: Manifest)

  const JOB: Path := ["job.json"]
  const RESULT: Path := ["result.json"]

  function Verdicts(ids: seq<string>, r: Redactor): Value {
    Arr(seq(|ids|, i requires 0 <= i < |ids| => Obj(map["id" := Str(r.text(ids[i])), "result" := Str("not_run")])))
  }

  function BlockedResult(requestId: string, runId: string, job: Job, stop: Stop, manifestText: string, r: Redactor): Value {
    Obj(map[
      "schema_version" := Num(1),
      "request_id" := Str(r.text(requestId)),
      "run_id" := Str(runId),
      "state" := Str("blocked"),
      "terminal" := Bool(true),
      "reason" := Obj(map["code" := Str("missing_value"), "step_id" := Str(r.text(stop.stepId)), "value_name" := Str(r.text(stop.valueName))]),
      "verdict" := Obj(map["overall" := Str("unresolved"), "steps" := Verdicts(job.steps, r),
                           "expectations" := Verdicts(job.expectations, r), "caller_assisted" := Bool(false)]),
      "evidence" := Obj(map["manifest" := Str(manifestText), "complete" := Bool(true)]),
      "escalation" := Null,
      "cleanup" := Obj(map["browser" := Str("not_started"), "profile" := Str("not_created"), "application_state" := Str("caller_owned")])])
  }

  function ArtifactOf(role: string, path: Path, content: Content): Artifact {
    Artifact(role, path, Sha256(content), true)
  }

  /** What is published, or nothing when the job cannot be redacted or any export would leak. */
  function ExpectedEvidence(requestId: string, runId: string, job: Job, stop: Stop, manifestText: string, r: Redactor): Option<Expected> {
    var redacted := r.job(job);
    if redacted.None? then None
    else
      var content := Document(redacted.value);
      var result := BlockedResult(requestId, runId, job, stop, manifestText, r);
      var manifest := Manifest(runId, true, [ArtifactOf("normalized_job", JOB, content), ArtifactOf("result", RESULT, Document(result))]);
      if r.leaks(JOB, content) || r.leaks(RESULT, Document(result)) || r.leaks(MANIFEST, ManifestFile(manifest)) then None
      else Some(Expected(content, result, manifest))
  }

  function TreeOf(e: Expected): Tree {
    map[[] := Directory, JOB := File(e.job), RESULT := File(Document(e.result)), MANIFEST := File(ManifestFile(e.manifest))]
  }

  // ----- publishing

  /** Which effect of a publication fails, if any. A failed directory synchronization comes after the
      rename; a stage that cannot be removed is left behind. */
  datatype Fault = NoFault | CreateFails | JobFails | ManifestFails | ResultFails | RenameFails | SyncFails

  class EvidenceRoot {
    /** The run directories and, apart from them, the staging directories. */
    var runs: map<string, Tree>
    var stages: map<nat, Tree>

    constructor ()
      ensures runs == map[] && stages == map[]
    {
      runs, stages := map[], map[];
    }

    /** Creates a stage and writes the three documents into it, one after another. */
    method FillStage(e: Expected, stage: nat, fault: Fault) returns (filled: bool)
      requires stage !in stages
      modifies this`stages
      ensures filled <==> !(fault in {CreateFails, JobFails, ManifestFails, ResultFails})
      ensures stages - {stage} == old(stages)
      ensures filled ==> stage in stages && stages[stage] == TreeOf(e)
      ensures fault.CreateFails? ==> stages == old(stages)
    {
      Unstaged(stages, stage, map[]);
      if fault.CreateFails? { return false; }
      var content: Tree := map[[] := Directory];
      if !fault.JobFails? {
        content := content[JOB := File(e.job)];
        if !fault.ManifestFails? {
          content := content[MANIFEST := File(ManifestFile(e.manifest))];
          if !fault.ResultFails? {
            content := content[RESULT := File(Document(e.result))];
          }
        }
      }
      Unstaged(stages, stage, content);
      stages := stages[stage := content];
      return fault !in {JobFails, ManifestFails, ResultFails};
    }

    /** Moves a filled stage to its final place if that place is free; a stage that is not moved is
        removed when it can be. */
    method Commit(runId: string, stage: nat, filled: bool, fault: Fault, removable: bool) returns (ok: bool)
      requires filled ==> stage in stages
      modifies this
      ensures var moved := filled && runId !in old(runs) && !fault.RenameFails?;
              && (ok <==> moved && !fault.SyncFails?)
              && runs == (if moved then old(runs)[runId := old(stages)[stage]] else old(runs))
              && stages == (if moved || removable then old(stages) - {stage} else old(stages))
    {
      if filled && runId !in runs && !fault.RenameFails? {
        runs, stages := runs[runId := stages[stage]], stages - {stage};
        assert removable ==> stages - {stage} == stages;
        return !fault.SyncFails?;
      }
      if removable { stages := stages - {stage}; }
      return false;
    }

    /** The run's directory appears complete or not at all, and only a stage that cannot be removed is
        left behind. A failed directory synchronization is reported although the directory is there. */
    method PublishStaged(runId: string, e: Expected, stage: nat, fault: Fault, removable: bool) returns (ok: bool)
      requires stage !in stages
      modifies this
      ensures ok <==> fault.NoFault? && runId !in old(runs)
      ensures runs == if runId !in old(runs) && (fault.NoFault? || fault.SyncFails?) then old(runs)[runId := TreeOf(e)] else old(runs)
      ensures stages - {stage} == old(stages) && (removable || ok ==> stages == old(stages))
    {
      hide TreeOf;
      var filled := FillStage(e, stage, fault);
      if fault.CreateFails? { return false; }
      ok := Commit(runId, stage, filled, fault, removable);
      assert (stages - {stage}) - {stage} == stages - {stage};
    }

    /** A directory that is already there must hold exactly the expected three documents. */
    predicate HoldsExpected(runId: string, e: Expected)
      reads this
    {
      && runId in runs
      && JOB in runs[runId] && runs[runId][JOB] == File(e.job)
      && RESULT in runs[runId] && runs[runId][RESULT] == File(Document(e.result))
      && MANIFEST in runs[runId] && runs[runId][MANIFEST] == File(ManifestFile(e.manifest))
    }

    method Publish(requestId: string, runId: string, job: Job, stop: Stop, manifestText: string, r: Redactor,
                   stage: nat, fault: Fault, removable: bool)
      returns (result: Option<Value>)
      requires stage !in stages
      modifies this
      ensures var expected := ExpectedEvidence(requestId, runId, job, stop, manifestText, r);
              && (result.Some? ==>
                    && expected.Some? && result.value == expected.value.result && HoldsExpected(runId, expected.value)
                    && (runId !in old(runs) ==> runs[runId] == TreeOf(expected.value)))
              && runs == (if expected.Some? && runId !in old(runs) && (fault.NoFault? || fault.SyncFails?)
                          then old(runs)[runId := TreeOf(expected.value)] else old(runs))
              && (fault.NoFault? && expected.Some? ==>
                    (result.Some? <==> runId !in old(runs) || old(HoldsExpected(runId, expected.value))))
    {
      var expected := ExpectedEvidence(requestId, runId, job, stop, manifestText, r);
      if expected.None? { return None; }
      if runId in runs {
        if !HoldsExpected(runId, expected.value) { return None; }
        return Some(expected.value.result);
      }
      var ok := PublishStaged(runId, expected.value, stage, fault, removable);
      if !ok { return None; }
      return Some(expected.value.result);
    }
  }

  lemma Unstaged(stages: map<nat, Tree>, stage: nat, content: Tree)
    requires stage !in stages
    ensures stages[stage := content] - {stage} == stages && stages - {stage} == stages
  {
  }

  // ----- recovering what was published

  predicate Holds(t: Tree, e: Expected) {
    && JOB in t && t[JOB] == File(e.job) && RESULT in t && t[RESULT] == File(Document(e.result))
    && MANIFEST in t && t[MANIFEST] == File(ManifestFile(e.manifest))
  }

  lemma PublishedIsListed(t: Tree, e: Expected, runId: string)
    requires Holds(t, e)
    requires e.manifest == Manifest(runId, true, [ArtifactOf("normalized_job", JOB, e.job), ArtifactOf("result", RESULT, Document(e.result))])
    ensures Listed(t, e.manifest) <==> OnlyRegular(t) && Files(t) == {JOB, RESULT, MANIFEST}
  {
    var m := e.manifest;
    assert m.artifacts[0].role == "normalized_job" && m.artifacts[1].role == "result";
    assert ArtifactValid(t, m.artifacts[0]) && ArtifactValid(t, m.artifacts[1]);
    assert HasRole(m.artifacts, "normalized_job") && HasRole(m.artifacts, "result");
    assert Collected(t, m.artifacts);
    assert Paths(m.artifacts) == {JOB, RESULT} by {
      assert m.artifacts[0].path in Paths(m.artifacts) && m.artifacts[1].path in Paths(m.artifacts);
    }
    hide *;
    FilesMatch(t);
  }

  lemma FilesMatch(t: Tree)
    requires MANIFEST in t && t[MANIFEST].File?
    ensures Files(t) - {MANIFEST} == {JOB, RESULT} <==> Files(t) == {JOB, RESULT, MANIFEST}
  {
  }

  lemma PointerTwo(v: Value, a: string, b: string)
    ensures Pointer(v, [a, b]) == if Get(v, a).Some? then Get(Get(v, a).value, b) else None
  {
    assert [a, b][1..] == [b] && [b][1..] == [];
    if Get(v, a).Some? {
      var child := Get(v, a).value;
      assert Pointer(child, [b]) == if Get(child, b).Some? then Pointer(Get(child, b).value, []) else None;
    }
  }

  lemma BlockedShape(requestId: string, runId: string, job: Job, stop: Stop, manifestText: string, r: Redactor, m: Manifest)
    ensures var result := BlockedResult(requestId, runId, job, stop, manifestText, r);
            && TerminalShape(result, true) && FlowShape(m, result) && VerificationShape(m, result) && PassedShape(result)
            && ExitCode(result) == Some(3)
  {
    var result := BlockedResult(requestId, runId, job, stop, manifestText, r);
    PointerTwo(result, "reason", "code");
    PointerTwo(result, "cleanup", "browser");
    PointerTwo(result, "cleanup", "profile");
    PointerTwo(result, "verdict", "expectations");
    PointerTwo(result, "escalation", "phase");
    assert Get(result, "state") == Some(Str("blocked")) && Get(result, "terminal") == Some(Bool(true));
    assert Get(Get(result, "reason").value, "code") == Some(Str("missing_value"));
    assert Get(Get(result, "verdict").value, "expectations") == Some(Verdicts(job.expectations, r));
    assert !Evaluated(result) by {
      forall i | 0 <= i < |job.expectations|
        ensures Text(Get(Verdicts(job.expectations, r).items[i], "result")) == Some("not_run")
      {
      }
    }
  }

  lemma BlockedIdentity(requestId: string, runId: string, job: Job, stop: Stop, manifestText: string, r: Redactor)
    ensures Identity(BlockedResult(requestId, runId, job, stop, manifestText, r), runId, requestId, manifestText) <==> r.text(requestId) == requestId
  {
    var result := BlockedResult(requestId, runId, job, stop, manifestText, r);
    PointerTwo(result, "evidence", "complete");
    PointerTwo(result, "evidence", "manifest");
    assert Get(result, "request_id") == Some(Str(r.text(requestId))) && Get(result, "run_id") == Some(Str(runId));
    assert Get(result, "schema_version") == Some(Num(1));
  }

  /** A directory that holds what a publication expects answers a retry with exactly its result, if and
      only if the redactor leaves the request's name alone and the directory holds nothing else. */
  lemma PublishedIsAcceptable(t: Tree, requestId: string, runId: string, job: Job, stop: Stop, manifestText: string, r: Redactor, e: Expected)
    requires ExpectedEvidence(requestId, runId, job, stop, manifestText, r) == Some(e) && Holds(t, e)
    ensures Acceptable(t, e.manifest, e.result, runId, requestId, manifestText, true) <==>
            r.text(requestId) == requestId && OnlyRegular(t) && Files(t) == {JOB, RESULT, MANIFEST}
    ensures ExitCode(e.result) == Some(3)
  {
    PublishedIsListed(t, e, runId);
    BlockedShape(requestId, runId, job, stop, manifestText, r, e.manifest);
    BlockedIdentity(requestId, runId, job, stop, manifestText, r);
    var m := e.manifest;
    assert m.artifacts[1].role == "result" && m.artifacts[1].path in t && t[m.artifacts[1].path] == File(Document(e.result));
    hide BlockedResult, Listed, TerminalShape, FlowShape, VerificationShape, PassedShape, Identity, OnlyRegular, Files, ExitCode;
  }

  lemma FreshTree(e: Expected)
    ensures WellFormed(TreeOf(e)) && Holds(TreeOf(e), e) && OnlyRegular(TreeOf(e)) && Files(TreeOf(e)) == {JOB, RESULT, MANIFEST}
  {
  }

  lemma NoOtherAnswer(t: Tree, e: Expected, m: Manifest, v: Value, runId: string, requestId: string, manifestText: string)
    requires Holds(t, e) && Acceptable(t, m, v, runId, requestId, manifestText, true)
    requires e.manifest == Manifest(runId, true, [ArtifactOf("normalized_job", JOB, e.job), ArtifactOf("result", RESULT, Document(e.result))])
    ensures m == e.manifest && v == e.result
  {
    hide Listed, TerminalShape, FlowShape, VerificationShape, PassedShape, Identity;
    assert m.artifacts[0].role == "normalized_job" && m.artifacts[1].path == RESULT;
  }

  method RecoverFresh(t: Tree, requestId: string, runId: string, job: Job, stop: Stop, manifestText: string, r: Redactor, ghost e: Expected)
    returns (recovered: Recovered)
    requires ExpectedEvidence(requestId, runId, job, stop, manifestText, r) == Some(e) && t == TreeOf(e)
    ensures recovered == if r.text(requestId) == requestId then Answer(e.result, 3) else Refused
  {
    FreshTree(e);
    PublishedIsAcceptable(t, requestId, runId, job, stop, manifestText, r, e);
    forall m, v | Acceptable(t, m, v, runId, requestId, manifestText, true)
      ensures m == e.manifest && v == e.result
    {
      NoOtherAnswer(t, e, m, v, runId, requestId, manifestText);
    }
    hide *;
    recovered := RecoverPublishedRun(Some(t), runId, requestId, manifestText);
  }

  /** Publishing into a new directory and recovering gives the same result with the blocked exit code
      whenever the redactor leaves the request's name alone, and refuses otherwise. */
  method PublishThenRecover(root: EvidenceRoot, requestId: string, runId: string, job: Job, stop: Stop, manifestText: string, r: Redactor,
                            stage: nat, fault: Fault)
    returns (published: Option<Value>, recovered: Recovered)
    requires stage !in root.stages && runId !in root.runs
    modifies root
    ensures published.Some? ==> recovered == if r.text(requestId) == requestId then Answer(published.value, 3) else Refused
    ensures var expected := ExpectedEvidence(requestId, runId, job, stop, manifestText, r);
            recovered == if expected.None? || !(fault.NoFault? || fault.SyncFails?) then Missing
                         else if r.text(requestId) == requestId then Answer(expected.value.result, 3) else Refused
  {
    published := root.Publish(requestId, runId, job, stop, manifestText, r, stage, fault, true);
    hide *;
    if runId in root.runs {
      ghost var e := ExpectedEvidence(requestId, runId, job, stop, manifestText, r).value;
      recovered := RecoverFresh(root.runs[runId], requestId, runId, job, stop, manifestText, r, e);
    } else {
      recovered := RecoverPublishedRun(None, runId, requestId, manifestText);
    }
  }
}
