/** Durable state shared by callers, hosts and reconcilers: the request index and the run controls.
    Every write replaces one file atomically. */
module Store {
  import opened Json

  type RunId = string
  type RequestId = string

  datatype Disposition = Disposition(escalationId: string, body: string)

  /** A keyed request digest. The digest is a keyed hash of exactly these parts under one domain per
      constructor, taken here to be injective. */
  datatype Digest =
    | JobDigest(job: string)
    | ResumeDigest(runId: RunId, disposition: Disposition)
    | AbortDigest(abortedRun: RunId)

  /** The keyed hash that binds a control record to its own fields, taken to be injective. */
  datatype ResultSeal = ResultSeal(requestId: RequestId, runId: RunId, digest: Digest, exitCode: nat, result: Value)

  datatype Record = Record(
    publicRequestId: RequestId,
    runId: RunId,
    digest: Digest,
    resultSeal: Option<ResultSeal>,
    exitCode: nat,
    result: Value)

  datatype Entry =
    | Intent(runId: RunId, digest: Digest)
    | Complete(record: Record)

  datatype RunControl = RunControl(
    sequence: nat,
    runId: RunId,
    requestId: RequestId,
    jobDigest: string,
    lifetimeDeadline: nat,
    pauseDeadline: Option<nat>,
    result: Value)

  datatype Durable = Durable(requests: map<RequestId, Entry>, controls: map<RunId, RunControl>)

  /** What one atomic write can do: succeed, fail before the rename, or fail after it. */
  datatype Fault = NoFault | NotWritten | WrittenThenFailed

  function EntryDigest(e: Entry): Digest {
    if e.Intent? then e.digest else e.record.digest
  }

  function EntryRun(e: Entry): RunId {
    if e.Intent? then e.runId else e.record.runId
  }

  /** A record sealed over its own fields. */
  function SealedRecord(q: RequestId, runId: RunId, digest: Digest, exitCode: nat, result: Value): Record {
    Record(q, runId, digest, Some(ResultSeal(q, runId, digest, exitCode, result)), exitCode, result)
  }

  predicate SealMatches(r: Record) {
    r.resultSeal == Some(ResultSeal(r.publicRequestId, r.runId, r.digest, r.exitCode, r.result))
  }

  function WriteRequest(d: Durable, q: RequestId, e: Entry, fault: Fault): Durable {
    if fault.NotWritten? then d else d.(requests := d.requests[q := e])
  }

  function WriteControl(d: Durable, c: RunControl, fault: Fault): Durable {
    if fault.NotWritten? then d else d.(controls := d.controls[c.runId := c])
  }

  /** The order in which one request id may move: absent, then an optional intent, then one record
      that never changes. */
  predicate Advances(before: Option<Entry>, after: Option<Entry>) {
    match before
    case None => true
    case Some(Intent(_, digest)) => after.Some? && EntryDigest(after.value) == digest && (after.value.Intent? ==> after == before)
    case Some(Complete(_)) => after == before
  }

  function Lookup(d: Durable, q: RequestId): Option<Entry> {
    if q in d.requests then Some(d.requests[q]) else None
  }

  /** The state directory as the host updates it in place. */
  class Directory {
    var requests: map<RequestId, Entry>
    var controls: map<RunId, RunControl>

    constructor ()
      ensures Contents() == Durable(map[], map[])
    {
      requests, controls := map[], map[];
    }

    function Contents(): Durable
      reads this
    {
      Durable(requests, controls)
    }

    method FinalizeControlRequest(q: RequestId, record: Record, fault: Fault) returns (ok: bool)
      modifies this`requests
      ensures ok == fault.NoFault?
      ensures Contents() == WriteRequest(old(Contents()), q, Complete(record), fault)
    {
      if !fault.NotWritten? {
        requests := requests[q := Complete(record)];
      }
      ok := fault.NoFault?;
    }

    method WriteRunControl(control: RunControl, fault: Fault) returns (ok: bool)
      modifies this`controls
      ensures ok == fault.NoFault?
      ensures Contents() == WriteControl(old(Contents()), control, fault)
    {
      if !fault.NotWritten? {
        controls := controls[control.runId := control];
      }
      ok := fault.NoFault?;
    }
  }
}
