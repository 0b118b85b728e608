# Manuvra: verified model

Manuvra runs one browser job in a background host. Callers, the host and a watchdog share nothing but
durable files, one inherited file lock and a control socket; the host drives the browser over one
WebSocket and answers for what it did to the page. This project models the parts whose correctness
spans several processes, several operations or a whole run, and proves what they promise.

| file | what it models |
|---|---|
| `Numbers.dfy`, `Json.dfy`, `Results.dfy` | saturating arithmetic, JSON values, what readers take from a result document |
| `Store.dfy` | the request index and `control.json`; every write is atomic and may fail before or after it took effect |
| `HostControl.dfy` | the host's `Control` object: checkpoint publication, resume admission, delivery |
| `ControlProtocol.dfy` | resume and abort clients, hosts and loss reconcilers as one step system; any interleaving, a crash between any two durable writes |
| `DurableOrder.dfy` | exactly which steps let a durable sequence pass a delivery without a recorded response |
| `RunOwnership.dfy` | the inherited run lock: who may write a run's control, and how often anything is spawned |
| `HostLoss.dfy` | the run lock and the control protocol as one system: a reconciler that holds the lock finds the host gone |
| `LockOrder.dfy` | the host's three mutexes |
| `Journal.dfy` | the bounded, evicting event window against the unbounded log |
| `Transport.dfy` | the command channel: callers, one worker, the socket |
| `Capture.dfy` | fenced captures, the wait for a quiet document, loading frames, closing the browser |
| `Input.dfy` | native input over commands whose outcome is adversarial |
| `Layers.dfy`, `Cascade.dfy` | registration of cascade layers; numeric ranks against the layer order of sections 6.1 and 6.4 of CSS Cascading and Inheritance Level 5 |
| `Clip.dfy` | polygon clipping against affine client edges, over exact reals |
| `Masking.dfy` | whitespace normalization with offsets, the search for values, text nodes |
| `ValueMasks.dfy` | longest-first replacement of value renderings by their names |
| `Recovery.dfy`, `Evidence.dfy` | the strict validator of published evidence, the writer of blocked-run evidence, and their round trip |

Shape. An object whose methods update its fields is a class whose methods are proved against functions
on values (`HostControl.Control`, `Journal.Journal`, `Transport.Worker`, `Capture.OwnedBrowser`,
`Input.Client`, `Layers.Registry`, `Evidence.EvidenceRoot`, `Store.Directory`), and loops of the program
are loops here. Cross-process behaviour is a transition relation with `Enabled` and `Next`, an inductive
invariant, and theorems over all reachable states or all continuations of a run.

Assumptions, all explicit in the model:

- Digests and seals are constructors, hence injective. Request, run and client identifiers that the
  program draws at random are fresh.
- Connections to a host are served one at a time in order (`serve_until_stopped` handles each stream to
  its end), so frames form a first-in-first-out queue. If an old frame could overtake the one sent by the
  present holder of the request lock, write-once would fail.
- The flow driver is the environment: it waits for an escalation only after a paused result was published
  without error. `HostControl.DeliveryWhileOwingLosesTheResponse` shows why that is needed.
- The protocol lets a loss be reconciled only once the host is gone. That this is no restriction is proved
  of the two systems together: `HostLoss.LossFindsTheHostGone`.
- Clocks only move forward and a cancellation flag stays set.

## Findings

Where the code and what it says of itself disagree, the code is modelled and the exact condition is proved.

- `crates/manuvra-flow/src/actions.rs:416-419` and `docs/CODING_STANDARDS.md:14` treat every `Rejected` and
  `NotPerformed` input as a proven non-effect. For typed text this is false: `Input.TypeText` proves that the
  outcome is truthful if and only if it is not a `LateRefusal`, that is, the text was missing after the
  target had been focused and selected, or the check before the single-key fallback was refused or not sent
  after a confirmed insert that read back unchanged. `Input.TypedButNotPerformed` is such a run.
- `crates/manuvra-cli/src/host.rs:67-68` says that `run` is never held across a durable write; the first
  control is written under it, before any other thread exists (`LockOrder.BootstrapIsTheException`). From
  then on the rule holds (`LockOrder.RepliesNeverWaitForTheDisk`).
- Layer ranks stand for the end of a layer by 1e9. Ranks decide as the cascade does if and only if no layer on
  the way from one of the two layers to the other has 1e9 or more earlier siblings
  (`Cascade.RanksFollowTheCascade`, with `Cascade.UnlayeredCanLose` as an instance).
- Command ids saturate. A late response can answer another command exactly from the point where the counter
  has saturated (`Transport.WrittenOnceUnderItsOwnId`, `Transport.SaturatedIdsMixReplies`), and enough
  commands do saturate it (`Transport.SaturationIsReached`).
- A durable sequence beyond a delivery does not always prove its response recorded. A step breaks this order
  if and only if the request of the last delivery is still an intent and either an admission writes the
  control of a run whose memory has moved past the delivery, or a reconciler's loss takes the sequence past it
  (`DurableOrder.BreaksExactly`, `DurableOrder.CrashOrderExactly`). Both happen: after a response that failed to
  publish (`DurableOrder.FailedResponseBreaksOrder`), and with no failed publication at all when the host dies
  between the delivery and its response (`DurableOrder.HostLossBreaksOrder`).
- Publishing over an existing evidence directory compares three documents and accepts other files beside
  them, which recovery then refuses (`Evidence.PublishedIsAcceptable` gives the exact condition).
- Masking can leave a value visible, for instance one that occurs inside its own token. For renderings without
  brackets, every text is masked clean if and only if each rendering masked by itself is
  (`ValueMasks.MaskingIsCleanExactly`). With brackets that criterion fails: `a<` by itself is masked clean,
  `aa<` is not (`ValueMasks.UnsafeRenderingsSurvive`).

## Model

| member | source | states |
|---|---|---|
| HostControl.Control.PublishCheckpoint | crates/manuvra-cli/src/host.rs:131-142 | memory advances by one sequence, the owed response is answered before the control is written, and the control is written only if that succeeded; the state after every failure is exact |
| HostControl.Control.PublishResumeResponse | crates/manuvra-cli/src/host.rs:199-218 | the response is frozen on the first attempt and stays owed until it is sealed and written |
| HostControl.Control.AdmitDisposition | crates/manuvra-cli/src/host.rs:598-625 | the whole new state for every branch: repeated receipt, other receipt, pending, not paused there, write failed, admitted |
| HostControl.Control.SuspendPauseDeadline | crates/manuvra-cli/src/host.rs:629-642 | succeeds exactly for the run paused at this escalation, and then clears its deadline |
| HostControl.Control.PauseDeadline | crates/manuvra-cli/src/host.rs:116-129 | an existing deadline is returned and stays; a missing one is set, capped by the lifetime, and every later reading agrees |
| HostControl.Control.UpdatePauseDeadline | crates/manuvra-cli/src/host.rs:220-232 | a paused run keeps its deadline or gets one capped by its lifetime; any other run has none |
| HostControl.Control.PausedTermination | crates/manuvra-cli/src/host.rs:235-270 | no termination exactly while the watchdog lives, nobody aborted and both deadlines lie ahead |
| HostControl.Control.PollPaused | crates/manuvra-cli/src/host.rs:144-168 | a turn ends with the termination, with the delivery of the pending resume for this escalation, or with nothing changed |
| HostControl.Admit | crates/manuvra-cli/src/host.rs:598-658 | a new escalation is consumed only if the run is paused at it with nothing pending; a repeated one changes nothing and is accepted exactly for the same receipt |
| HostControl.FirstCheckpointAnswersTheResume | crates/manuvra-cli/src/host.rs:131-218 | however many seals and writes fail and whatever checkpoints follow, the only record ever written for a delivered resume is that of the first checkpoint after it, and the debt ends exactly with the first attempt that succeeds |
| HostControl.DeliveryWhileOwingLosesTheResponse | crates/manuvra-cli/src/host.rs:155-163 | a delivery made while an earlier response is owed replaces the debt: no later checkpoint ever answers the earlier request |
| ControlProtocol.NextKeepsInv | crates/manuvra-cli/src/client.rs:252-371 | every step of clients, hosts, watchdogs and crashes keeps the protocol's invariant |
| ControlProtocol.RecordsAreWriteOnce | crates/manuvra-cli/src/client.rs:252-371 | over every run a resume or abort id moves only from absent to an intent to one complete record of the same digest, which never changes |
| ControlProtocol.OneAnswerPerRequest | crates/manuvra-cli/src/client.rs:464-475 | all answers any clients ever give for one id are the same durable record, so no id gets both a stale error and a response |
| ControlProtocol.AcceptedIsNeverStale | crates/manuvra-cli/src/host.rs:598-658 | once the host consumed a receipt, in every continuation and after the host's death too, its request is open or holds the response to its own delivery, and never a stale record |
| ControlProtocol.DeliveredOnceAnsweredByFirstCheckpoint | crates/manuvra-cli/src/host.rs:144-168 | each escalation and each request is delivered at most once, and a completed delivery's record is the sealed first checkpoint after it |
| ControlProtocol.ConsumptionNeedsThePause | crates/manuvra-cli/src/host.rs:598-642 | consumption only grows, and a step that consumes an escalation serves its frame to the run paused at exactly it, with nothing pending |
| ControlProtocol.WinnerForever | crates/manuvra-cli/src/host.rs:644-658 | after any further steps the winning receipt is accepted on every resend and every other receipt is stale, without effect |
| ControlProtocol.DeadStaysDead | crates/manuvra-cli/src/watchdog.rs:299-338 | a host that is gone never comes back in any continuation |
| ControlProtocol.CrashOrder | crates/manuvra-cli/src/host.rs:131-142 | at every reachable point of a run with no failed response and no reconciled loss, a durable sequence past a delivery means that delivery's record is complete |
| DurableOrder.BreaksExactly | crates/manuvra-cli/src/host.rs:598-642 | a step of any process ends the order of a run if and only if the last delivery's request is an intent and the step is an admission whose write takes effect with memory past the delivery, or a loss whose sequence is past it |
| DurableOrder.CrashOrderExactly | crates/manuvra-cli/src/host.rs:131-142 | a whole run keeps the order at every point if and only if none of its steps is one of these two |
| DurableOrder.FailedResponseBreaksOrder | crates/manuvra-cli/src/host.rs:598-625 | a reachable run whose response failed to publish and that paused again: the next admission passes the unanswered delivery |
| DurableOrder.HostLossBreaksOrder | crates/manuvra-cli/src/client.rs:840-865 | a reachable run without any failed response whose host died after a delivery: the published loss passes the unanswered delivery |
| ControlProtocol.SequencesNeverDecrease | crates/manuvra-cli/src/host.rs:131-142 | no step of any process lowers a run's durable sequence |
| RunOwnership.NextKeepsInv | crates/manuvra-cli/src/lib.rs:371-429 | every step of callers, watchdogs, hosts and reconcilers, and every death, keeps the ownership invariant |
| RunOwnership.AtMostOnce | crates/manuvra-cli/src/lib.rs:446-537 | whatever callers retry or die, a request spawns at most one process chain, after its intent, its run gets at most one host, and all reconcilers together publish at most one loss |
| RunOwnership.WritersExcludeEachOther | crates/manuvra-cli/src/client.rs:811-865 | every write of a control is made by an inheritor of the lock with no reconciler about, or by a reconciler with no inheritor left; a loss replaces the control that is still stored, and never a terminal one |
| RunOwnership.RetiredForever | crates/manuvra-cli/src/watchdog.rs:299-353 | once no inheritor is left none ever returns, no process can act on the run again, and a published loss is its last control |
| RunOwnership.ReconcilersFindTheRunRetired | crates/manuvra-cli/src/store.rs:241-268 | whoever takes the lock through its own descriptor finds the run without inheritors |
| RunOwnership.ChainGrows | crates/manuvra-cli/src/store.rs:168-199 | the lock spreads only from a new run's own caller or from a process that already shares it |
| RunOwnership.SpawnerIsFirst | crates/manuvra-cli/src/lib.rs:786-830 | who records an intent or spawns finds nothing spawned before for its request and its run |
| RunOwnership.ActorHolds | crates/manuvra-cli/src/process.rs:84-115 | a process that acts on its inherited lock is in the chain, shuts every reconciler out and precedes any loss |
| HostLoss.LossFindsTheHostGone | crates/manuvra-cli/src/client.rs:811-835 | in every joint run of callers, watchdogs, hosts, clients and reconcilers, whoever may publish a loss under the lock finds the run's host gone, and the loss is a step of the protocol |
| HostLoss.KeepsLinked | crates/manuvra-cli/src/watchdog.rs:299-338 | every joint step keeps both invariants, and every live control in a live host process |
| LockOrder.HostNeverDeadlocks | crates/manuvra-cli/src/host.rs:67-80 | in every reachable state in which some thread has something left to do, some thread can go on |
| LockOrder.RepliesNeverWaitForTheDisk | crates/manuvra-cli/src/host.rs:67-80 | once the host serves, a thread that waits for `run` waits for work in memory only, and the holder can go on at once |
| LockOrder.HostCodeIsRanked | crates/manuvra-cli/src/host.rs:131-168 | publication, waiting, admission and replies take the mutexes in increasing rank and keep the disk out of `run` |
| LockOrder.BootstrapIsTheException | crates/manuvra-cli/src/host.rs:373-379 | the first control is written under `run`, which only the code that runs alone may do |
| LockOrder.RankedIsOrderly | crates/manuvra-cli/src/host.rs:598-642 | scoped guards of increasing rank flatten to acquisitions above everything held, each given back innermost first |
| Journal.Journal.Record | crates/manuvra-chrome/src/transport.rs:66-79 | after every record the window is exactly the longest suffix of the whole log within both bounds, contiguous, with accurate size |
| Journal.Journal.EvictBeyondBounds | crates/manuvra-chrome/src/transport.rs:87-95 | eviction drops no more than the bounds demand |
| Journal.Journal.SnapshotSince | crates/manuvra-chrome/src/transport.rs:101-111 | without overflow the snapshot is the complete history after the cursor; overflow is reported exactly when that history no longer fits, and then the next event is gone |
| Journal.Journal.LostEventsSince | crates/manuvra-chrome/src/transport.rs:234-236 | true exactly when events after the cursor no longer fit the window |
| Journal.Journal.HasReceived | crates/manuvra-chrome/src/transport.rs:239-246 | true exactly when some event of the whole log had this method, evicted or not |
| Journal.AfterIsSuffix | crates/manuvra-chrome/src/transport.rs:101-111 | filtering a contiguous window by cursor yields exactly its tail |
| Transport.Worker.Execute | crates/manuvra-chrome/src/transport.rs:392-413 | nothing is written exactly for NotSent; any other outcome is that of the one id taken, and every event that came before it is in the journal |
| Transport.Worker.AwaitCommandResponse | crates/manuvra-chrome/src/transport.rs:431-468 | ends at the first turn that is expired, fails or carries the id, and journals exactly the events before it, in order |
| Transport.NextKeepsInv | crates/manuvra-chrome/src/transport.rs:179-351 | every interleaving of callers, worker, time and cancellation keeps the channel's invariant |
| Transport.NotSentIsTrueForever | crates/manuvra-chrome/src/transport.rs:179-219 | a command reported NotSent is not on the socket before the report nor after any continuation |
| Transport.GivenUpInQueueIsNeverWritten | crates/manuvra-chrome/src/transport.rs:335-351 | a command whose caller gave up while it was queued is never written |
| Transport.WrittenOnceUnderItsOwnId | crates/manuvra-chrome/src/transport.rs:425-429 | each call is written at most once, and two written commands share an id exactly when the earlier one took the saturated id |
| Transport.ReplyAnswersItsOwnCommand | crates/manuvra-chrome/src/transport.rs:459-476 | a Confirmed or Rejected outcome carries the id of its own call, and no other written call has that id unless it is the saturated one |
| Transport.SaturationIsReached | crates/manuvra-chrome/src/transport.rs:425-429 | some run of the channel saturates the counter with a command in hand and another queued |
| Transport.SaturatedIdsMixReplies | crates/manuvra-chrome/src/transport.rs:425-429 | with a saturated counter a response to a timed-out command becomes the outcome of the next one |
| Capture.PageChangedSince | crates/manuvra-chrome/src/owned.rs:509-524 | reports no change exactly when the complete history since the fence has no relevant event but mask insertions and still fits the window |
| Capture.CaptureOnce | crates/manuvra-chrome/src/owned.rs:338-358 | yields a page exactly when every command answered, the appearance facts held and the history from before the masks to the final check is undisturbed and not lost |
| Capture.CaptureStable | crates/manuvra-chrome/src/owned.rs:360-373 | stable exactly when the second observation agrees and the history since the fence is undisturbed and not lost |
| Capture.CaptureFenced | crates/manuvra-chrome/src/owned.rs:320-334 | a returned page comes whole from one attempt with its full history undisturbed and not lost; page changed is reported exactly after all attempts |
| Capture.WaitForDocument | crates/manuvra-chrome/src/owned.rs:849-866 | quiet means the document was seen complete and the complete history has had no relevant event since before that turn, for the quiet window |
| Capture.LoadingFrames | crates/manuvra-chrome/src/owned.rs:945-962 | a frame is loading exactly when some start of it has no later stop |
| Capture.OwnedBrowser.Close | crates/manuvra-chrome/src/owned.rs:377-389 | the process is signalled until that succeeds once and never again, then the profile is removed until that succeeds once |
| Input.Perform | crates/manuvra-chrome/src/input.rs:131-178 | the outcome is honest about what was sent, nothing changes the page before its check succeeded, and success means that no event since the fence was lost |
| Input.SuccessMayBecomeUncertain | crates/manuvra-chrome/src/input.rs:298-307 | turning a success into an uncertain outcome after journal loss keeps it honest |
| Input.TypeText | crates/manuvra-chrome/src/input.rs:414-443 | the outcome is truthful if and only if it is not a late refusal; success reports whether the text was read back |
| Input.FallbackIsTruthful | crates/manuvra-chrome/src/input.rs:516-551 | after an ineffective insert the fallback's outcome is truthful exactly unless its check was refused or not sent |
| Input.TypedButNotPerformed | crates/manuvra-chrome/src/input.rs:414-443 | a run that inserts text with confirmation and is reported as not performed |
| Input.DispatchKeys | crates/manuvra-chrome/src/input.rs:516-551 | every character is pressed and released in order, each after the one before was confirmed |
| Input.Click | crates/manuvra-chrome/src/input.rs:359-383 | press then release at the checked point; the outcome is truthful about both |
| Input.Hover | crates/manuvra-chrome/src/input.rs:387-405 | one move to the checked point whose outcome is the hover's |
| Input.PressKey | crates/manuvra-chrome/src/input.rs:218-243 | key down then key up; the outcome is truthful about both |
| Input.Select | crates/manuvra-chrome/src/input.rs:578-636 | missing parts are rejected before anything is sent, every later failure is uncertain, and the match is on value or label |
| Input.SetValue | crates/manuvra-chrome/src/input.rs:638-672 | missing text is rejected before anything is sent, every later failure is uncertain |
| Input.ScrollRegion | crates/manuvra-chrome/src/input.rs:685-768 | one wheel event at the located point, only after the region was located; the outcome is truthful about it |
| Input.RevalidateFocus | crates/manuvra-chrome/src/input.rs:180-208 | succeeds only if the same document reported the same focus identity, up to a closed shadow root found by asking |
| Input.MarkClosedShadowFocus | crates/manuvra-chrome/src/observation.rs:276-310 | only a covered anchor is asked about, and it changes only into focus inside a closed root |
| Layers.Registry.RegisterLayer | crates/manuvra-chrome/src/snapshot.js:454-457 | registers exactly the name and its ancestors; the tables hold every registered name's position, and no earlier position moves |
| Layers.JoinInjective | crates/manuvra-chrome/src/snapshot.js:454-457 | different qualified names have different keys |
| Layers.PathInjective | crates/manuvra-chrome/src/snapshot.js:453-457 | different layers have different positions |
| Layers.AncestorPath | crates/manuvra-chrome/src/snapshot.js:453-457 | an ancestor's position is a prefix of its layer's |
| Layers.SiblingOrder | crates/manuvra-chrome/src/snapshot.js:453-457 | siblings are ordered by first registration |
| Cascade.RanksFollowTheCascade | crates/manuvra-chrome/src/snapshot.js:476-484 | for declarations in different places, both comparisons agree with the cascade if and only if the two layers do not overflow |
| Cascade.ImportanceReversesLayers | crates/manuvra-chrome/src/snapshot.js:476-484 | for any two different layers of one root, normal `a` beats normal `b` exactly when important `b` beats important `a` |
| Cascade.WinsIsStrictTotal | crates/manuvra-chrome/src/snapshot.js:476-484 | the cascade order is irreflexive, asymmetric, total on different places and transitive |
| Cascade.LaterByRegistration | crates/manuvra-chrome/src/snapshot.js:453-457 | where two layer names part, the part registered later comes later, whatever is nested below |
| Cascade.ContainerComesLast | crates/manuvra-chrome/src/snapshot.js:476-479 | a layer's own declarations come after those of all its sublayers |
| Cascade.RemainingOpacity | crates/manuvra-chrome/src/snapshot.js:488-491 | the opacity of the rule that the reduction leaves, and 1 without rules; without overflow that is the last rule of the highest place |
| Cascade.ReducedIsTop | crates/manuvra-chrome/src/snapshot.js:488-491 | without overflow the reduction finds the last rule of the highest place of the cascade |
| Cascade.ReducedExactly | crates/manuvra-chrome/src/snapshot.js:488-491 | for any rules the reduction finds a given rule if and only if it beats what is left of those before it and none behind beats it |
| Cascade.UnlayeredCanLose | crates/manuvra-chrome/src/snapshot.js:476-484 | an unlayered rule is beaten by one in the layer with index 1e9 |
| Clip.ClipEdge | crates/manuvra-chrome/src/snapshot.js:31-45 | computes the clipped outline of the edge's half-plane; the divisor is never zero |
| Clip.ClippedIsSound | crates/manuvra-chrome/src/snapshot.js:31-45 | every vertex is inside the edge, and inside every half-plane that held the polygon |
| Clip.OutlineIsKept | crates/manuvra-chrome/src/snapshot.js:31-45 | every part of the polygon's outline that is inside the edge lies on the clipped outline |
| Clip.ClippedUnchanged | crates/manuvra-chrome/src/snapshot.js:31-45 | a polygon inside the edge is returned as it is |
| Clip.CrossingFacts | crates/manuvra-chrome/src/snapshot.js:37-40 | the interpolated point lies on the line and in every half-plane that holds both ends |
| Clip.EdgeIsLine | crates/manuvra-chrome/src/snapshot.js:32 | the distance to an edge in the box's coordinates is an affine function of the point, and for a singular matrix it is no number and no point is inside |
| Clip.ClippedPolygon | crates/manuvra-chrome/src/snapshot.js:46-56 | applies the viewport's and every clipping box's edges in order |
| Clip.ClippedPolygonIsSound | crates/manuvra-chrome/src/snapshot.js:46-56 | every vertex lies in the viewport, in every client box in that box's own coordinates, and in every half-plane that held the polygon; a clipping box with a singular matrix leaves nothing |
| Clip.PolygonInsideIsUnchanged | crates/manuvra-chrome/src/snapshot.js:46-56 | a polygon inside the viewport and all boxes is returned as it is |
| Clip.InverseUndoes | crates/manuvra-chrome/src/snapshot.js:51 | the inverse of an invertible affine matrix undoes it on both sides |
| Masking.NormalizedText | crates/manuvra-chrome/src/masking.js:118-126 | the text is the source with white space runs collapsed and trimmed, and the kept chunks are contiguous |
| Masking.OffsetsInvert | crates/manuvra-chrome/src/masking.js:118-126 | for every range of the text the raw source between its offsets collapses to exactly that range |
| Masking.MatchesOf | crates/manuvra-chrome/src/masking.js:97-106 | occurrences in order without overlap, such that every occurrence begins inside one; some exactly if the value occurs |
| Masking.Matches | crates/manuvra-chrome/src/masking.js:97-106 | the matched values are exactly the non-empty ones that occur |
| Masking.MaskedRangeShowsTheValue | crates/manuvra-chrome/src/masking.js:146-152 | the raw range masked for a match collapses to the value |
| Masking.Concatenate | crates/manuvra-chrome/src/masking.js:142-145 | the nodes partition the page text |
| Masking.Find | crates/manuvra-chrome/src/masking.js:154-156 | exactly one node holds a position, and it is found |
| Masking.MatchSpansNodes | crates/manuvra-chrome/src/masking.js:154-161 | between the first and the last node of a match the nodes hold exactly the matched text |
| ValueMasks.MaskMatching | crates/manuvra-flow/src/values.rs:134-152 | the output is the text after one pass per included rendering, longest first |
| ValueMasks.MaskingLeavesNoRendering | crates/manuvra-flow/src/values.rs:134-152 | without brackets and token collisions the output shows no rendering, is the text with ranges that held renderings replaced in order, and every occurrence of a rendering meets such a range at least as long |
| ValueMasks.IncludedExactly | crates/manuvra-flow/src/values.rs:136-146 | the renderings are exactly the non-empty values and formats of the included values |
| ValueMasks.SortedIsDescending | crates/manuvra-flow/src/values.rs:147 | sorting permutes the renderings into descending length |
| ValueMasks.ReplaceAll | crates/manuvra-flow/src/values.rs:148-150 | leftmost occurrences are replaced and replacements are not searched again |
| ValueMasks.ReplaceAroundToken | crates/manuvra-flow/src/values.rs:148-150 | a later pass leaves earlier tokens alone |
| ValueMasks.MaskingIsCleanExactly | crates/manuvra-flow/src/values.rs:134-152 | for renderings without brackets in any order: every text is masked clean of all of them if and only if each rendering masked by itself is |
| ValueMasks.UnsafeRenderingsSurvive | crates/manuvra-flow/src/values.rs:134-152 | a value inside its own token and a lone bracket are still shown; with a bracket the criterion of the row above decides nothing |
| Recovery.RolesAreExclusive | crates/manuvra-cli/src/recovery.rs:357-393 | a path fits at most one role |
| Recovery.EvidenceFiles | crates/manuvra-cli/src/recovery.rs:305-355 | the walk finds exactly the regular files, the manifest aside, and fails exactly if there is anything else but directories |
| Recovery.CollectManifestArtifacts | crates/manuvra-cli/src/recovery.rs:185-206 | succeeds exactly if every artifact is valid and no path or singleton role repeats; gives each singleton's path |
| Recovery.ValidateManifestArtifacts | crates/manuvra-cli/src/recovery.rs:173-183 | succeeds exactly if the manifest lists the run's files, each once, with the roles every run needs |
| Recovery.ValidatePublishedResult | crates/manuvra-cli/src/recovery.rs:58-78 | answers with the one acceptable result, equal to the recorded one, and refuses exactly when there is none |
| Recovery.AcceptableIsUnique | crates/manuvra-cli/src/recovery.rs:165-171 | a directory supports at most one manifest and one result |
| Recovery.RecoverPublishedRun | crates/manuvra-cli/src/recovery.rs:14-26 | missing, refused or answered with the acceptable result and its exit code |
| Recovery.AcceptedEvidenceIsABijection | crates/manuvra-cli/src/recovery.rs:173-206 | the files but the manifest correspond one to one to the listed artifacts, unchanged, each under the only role its path fits |
| Evidence.EvidenceRoot.PublishStaged | crates/manuvra-cli/src/evidence.rs:99-111 | the run's directory appears complete or not at all, and a stage remains only if it cannot be removed |
| Evidence.EvidenceRoot.Commit | crates/manuvra-cli/src/evidence.rs:212-249 | an occupied target is never replaced; a failed synchronization is reported although the directory is there |
| Evidence.EvidenceRoot.Publish | crates/manuvra-cli/src/evidence.rs:69-97 | succeeds on an existing directory exactly if it holds the expected documents, and never changes one |
| Evidence.PublishedIsAcceptable | crates/manuvra-cli/src/evidence.rs:138-174 | published documents are acceptable if and only if the redactor leaves the request's name alone and nothing else is in the directory |
| Evidence.PublishThenRecover | crates/manuvra-cli/src/lib.rs:992-1014 | publishing afresh and recovering gives the same result with exit code 3 exactly if the redactor leaves the request's name alone, and refuses otherwise |

## Left out

- ControlProtocol.CrashOrder: stated over the history of the run; `DurableOrder.BreaksExactly` has the exact condition on the state.
- ControlProtocol.WinnerForever: stated while the host that consumed the escalation lives; after its death no frame is served at all.
- ValueMasks.MaskingLeavesNoRendering: one direction, with more said about the output; the exact condition is `ValueMasks.MaskingIsCleanExactly`.
- ValueMasks.MaskingIsCleanExactly: renderings without brackets; one with a bracket can also arise where a token meets the text around it.
- Clip.OutlineIsKept: the outline of the clipped polygon, not its area; the area test and `polygonColumnHeight` are not modelled.
- Transport.Worker.AwaitCommandResponse: some turn is past the deadline, as time ensures; the same holds for Capture.WaitForDocument.
- Cascade.RemainingOpacity: the cascade is named for rules of one root in source order; for overflowing layers there is `Cascade.ReducedExactly`.
- Layers.Registry.RegisterLayer: name parts are not empty and hold no dot; an escaped dot in a name is split like any other by the program.
- Sockets, WebSocket bytes, signals, file descriptors, fsync, file modes and clocks: nondeterministic steps, monotone time and atomic durable writes instead.
- JSON text, keyed hashes and SHA-256: injective constructors; a file is what its reader parses it to, and numbers are integers.
- Unbounded polling: `wait_while_paused` and `serve_until_stopped` appear as single turns that a step system repeats; the watchdog's supervision intervals, grace periods and deadline requests are left out.
- `initialize` in `crates/manuvra-chrome/src/transport.rs` issues four commands before any caller; they take ids like other calls and are not told apart. Journal cursors are unbounded.
- Redaction, the judgment driver and the page itself are parameters; DOM queries, computed styles, accessibility names and color conversion in `snapshot.js` and mask placement in `masking.js` are browser facts outside the model.
- Which rules match an element and how selectors are nested: the cascade starts from the matching rules of one root.
- `suboperations` lists, key codes and settling after input in `input.rs`; coordinates are integers.
- `appendText`, `appendPaintedText`, region and container naming, and `unresolved_action`: they would only add easy members.
- Floating-point rounding in geometry and opacity: exact reals.
- Paths that resolve through symbolic links or leave the run's directory: an artifact path is a path below it, and anything that is not a regular file there is refused, as in the program.
- Command-line parsing, job validation, endpoint discovery, screenshots and other platforms.
