/** What one run of the IMAP importer comes to: what it takes up, what it refuses, and that it imports the whole
    batch if it lives long enough. */
module EmailRuns {
  import opened Common
  import opened EmailWorker
  import opened EmailSafety

  /** A job asks for its own number of messages, within one and fifty, or for fifty. */
  lemma LimitIsBounded(job: Job)
    ensures 1 <= job.Limit() <= 50
    ensures 1 <= job.maxItems <= 50 ==> job.Limit() == job.maxItems
    ensures job.maxItems == 0 || job.maxItems > 50 ==> job.Limit() == 50
    ensures job.maxItems < 0 ==> job.Limit() == 1
  {
  }

  /** Discovery takes up the smallest identifiers from the window on, as many as the job asks for, each with its own
      digest and size; it refuses a mailbox whose UIDVALIDITY has changed under the cursor, and a batch with an empty or
      oversized message. */
  lemma DiscoveryIsExact(cursors: map<string, Cursor>, job: Job, box: Mailbox, maxBytes: nat, sha: string -> string)
    requires box.Valid()
    ensures var found := Discover(cursors, job, box, maxBytes, sha);
            var first := if job.cursorKey in cursors then cursors[job.cursorKey].lastUid + 1 else job.initialUid;
            && (found.None? <==>
                  || (job.cursorKey in cursors && cursors[job.cursorKey].uidValidity != box.uidValidity)
                  || exists uid <- Batch(box.messages.Keys, first, box.uidNext, job.Limit()) ::
                       uid in box.messages && (box.messages[uid] == "" || |box.messages[uid]| > maxBytes))
            && (found.Some? ==>
                  && (job.cursorKey in cursors ==> cursors[job.cursorKey].uidValidity == box.uidValidity)
                  && found.value.job == job && found.value.uidValidity == box.uidValidity
                  && |found.value.messages| <= job.Limit()
                  && (forall m <- found.value.messages ::
                        m.uid in box.messages && first <= m.uid && m.sha256 == sha(box.messages[m.uid])
                        && m.size == |box.messages[m.uid]| && 0 < m.size <= maxBytes)
                  && GoodBatch(box.messages.Keys, first, UidsOf(found.value.messages))
                  && (|found.value.messages| < job.Limit() ==>
                        forall uid | uid in box.messages && first <= uid :: uid in UidsOf(found.value.messages)))
  {
    var first := FirstUid(cursors, job);
    var uids := Batch(box.messages.Keys, first, box.uidNext, job.Limit());
    BatchIsGood(box.messages.Keys, first, box.uidNext, job.Limit());
    BatchPresent(box.messages.Keys, first, box.uidNext, job.Limit());
    var found := Discover(cursors, job, box, maxBytes, sha);
    hide Batch, GoodBatch;
    GoodStarts(box.messages.Keys, first, uids);
    if found.Some? {
      assert UidsOf(found.value.messages) == uids;
      forall m | m in found.value.messages
        ensures m.uid in uids && m.uid in box.messages && m.sha256 == sha(box.messages[m.uid]) && m.size == |box.messages[m.uid]|
      {
        var i :| 0 <= i < |found.value.messages| && found.value.messages[i] == m;
        assert uids[i] == m.uid;
      }
    }
  }

  lemma GoodStarts(present: set<nat>, first: nat, uids: seq<nat>)
    requires GoodBatch(present, first, uids)
    ensures forall uid <- uids :: first <= uid && uid in present
  {
  }

  /** A replay touches nothing unless the mailbox still shows every message of the record, byte for byte the same as far
      as size and digest tell. */
  lemma ReplayRefusesChanges(w: World, f: Inflight, box: Mailbox, budget: nat, sha: string -> string, receiptOf: ArtifactKey -> string)
    requires w.disk.inflight == Some(f)
    requires box.uidValidity != f.uidValidity
             || exists m <- f.messages :: m.uid !in box.messages || |box.messages[m.uid]| != m.size || sha(box.messages[m.uid]) != m.sha256
    ensures ProcessInflight(w, f, box, budget, sha, receiptOf) == w
  {
  }

  // ---------------------------------------------------------------- a run that lives long enough

  /** How many more effects end the process at most, from its next message on where it is uploading. */
  function Left(p: Process): nat {
    var n := |p.mem.messages|;
    match p.pc
    case Begin => FromMessage(n, 0) + 4
    case SaveStarted => FromMessage(n, 0) + 3
    case Upload => FromMessage(n, 0) + 2
    case SaveUploading => FromMessage(n, 0) + 1
    case Open(i) => FromMessage(n, i)
    case Put(i) => FromMessage(n, i) - 1
    case Finalize(i) => FromMessage(n, i) - 2
    case Note(i, _) => FromMessage(n, i) - 3
    case Verify => 4
    case SaveVerifying => 3
    case Complete => 2
    case Finish => 1
    case Done => 0
  }

  function FromMessage(n: nat, i: nat): (left: nat)
    ensures left >= 5
  {
    if i <= n then 4 * (n - i) + 5 else 5
  }

  /** The process works on this batch, and has handed it in once it moves the cursor. */
  ghost predicate WorksOn(p: Process, f: Inflight) {
    && p.mem.job == f.job && p.mem.messages == f.messages && |p.contents| == |f.messages|
    && (p.pc == Finish || p.pc == Done ==> HandedIn(p.server, f))
  }

  ghost predicate HandedIn(server: Server, f: Inflight) {
    exists k | 0 <= k < |server.imports| :: server.imports[k].inflight.job == f.job && server.imports[k].inflight.messages == f.messages
  }

  lemma AdvanceWorks(p: Process, f: Inflight, receiptOf: ArtifactKey -> string)
    requires ProcessOk(p, receiptOf) && WorksOn(p, f) && p.pc != Done
    ensures var q := Advance(p, receiptOf); WorksOn(q, f) && Left(q) < Left(p)
  {
    hide Left;
    LeftShrinks(p, receiptOf);
    if p.pc == Complete {
      CompleteHandsIn(p, f, receiptOf);
    }
    hide WorldOk, MoveCursor, OpenSession, UploadTo, FinalizeSession, Accept, HandedIn;
  }

  lemma LeftShrinks(p: Process, receiptOf: ArtifactKey -> string)
    requires ProcessOk(p, receiptOf) && |p.contents| == |p.mem.messages| && p.pc != Done
    ensures Left(Advance(p, receiptOf)) < Left(p)
  {
    hide WorldOk, MoveCursor, KeyOf, OpenSession, UploadTo, FinalizeSession, Accept, AwaitsCursor;
  }

  lemma CompleteHandsIn(p: Process, f: Inflight, receiptOf: ArtifactKey -> string)
    requires ProcessOk(p, receiptOf) && WorksOn(p, f) && p.pc == Complete
    ensures HandedIn(Advance(p, receiptOf).server, f)
  {
    var imports := Advance(p, receiptOf).server.imports;
    assert p.disk.inflight == Some(p.mem);
    assert imports[|imports| - 1].inflight.job == f.job && imports[|imports| - 1].inflight.messages == f.messages;
  }

  lemma {:induction false} StepsFinish(p: Process, f: Inflight, n: nat, receiptOf: ArtifactKey -> string)
    requires Injective(receiptOf) && ProcessOk(p, receiptOf) && WorksOn(p, f) && n >= Left(p)
    ensures var q := Steps(p, n, receiptOf); q.pc == Done && ProcessOk(q, receiptOf) && WorksOn(q, f)
    decreases n
  {
    hide Advance, ProcessOk, WorksOn, Injective;
    if p.pc == Done {
      DoneStays(p, n, receiptOf);
    } else {
      AdvanceWorks(p, f, receiptOf);
      AdvanceKeeps(p, receiptOf);
      StepsFinish(Advance(p, receiptOf), f, n - 1, receiptOf);
    }
  }

  /** However often earlier runs died, a run that finds the messages unchanged and lives for four effects per message and
      nine more completes the batch on file: the control plane has it, the record is gone, the cursors are current. */
  lemma SurvivingRunImports(w: World, inputs: seq<RunInput>, input: RunInput, sha: string -> string, receiptOf: ArtifactKey -> string)
    requires Reachable(w, inputs, sha, receiptOf) && w.disk.inflight.Some?
    requires Replayable(input.refetch, w.disk.inflight.value, sha) && input.budget >= 4 * |w.disk.inflight.value.messages| + 9
    ensures var f, v := w.disk.inflight.value, RunOnce(w, input, sha, receiptOf);
            && v.disk.inflight.None? && f.job.id in v.server.completed && HandedIn(v.server, f)
            && CursorsAre(v.disk.cursors, v.server.imports)
  {
    ReachableOk(w, inputs, sha, receiptOf);
    BatchFinishes(w, w.disk.inflight.value, input.refetch, input.budget, sha, receiptOf);
  }

  lemma BatchFinishes(w: World, f: Inflight, box: Mailbox, budget: nat, sha: string -> string, receiptOf: ArtifactKey -> string)
    requires Injective(receiptOf) && WorldOk(w, receiptOf) && w.disk.inflight == Some(f)
    requires Replayable(box, f, sha) && budget >= 4 * |f.messages| + 9
    ensures var v := ProcessInflight(w, f, box, budget, sha, receiptOf);
            && v.disk.inflight.None? && f.job.id in v.server.completed && HandedIn(v.server, f)
            && CursorsAre(v.disk.cursors, v.server.imports)
  {
    var p := Process(f, Refetched(box, f, sha), w.disk, w.server, Begin);
    StepsFinish(p, f, budget, receiptOf);
    HandedInIsCompleted(Steps(p, budget, receiptOf), f, receiptOf);
    hide Steps, Replayable, Refetched, HandedIn;
  }

  lemma HandedInIsCompleted(p: Process, f: Inflight, receiptOf: ArtifactKey -> string)
    requires ProcessOk(p, receiptOf) && WorksOn(p, f) && p.pc == Done
    ensures p.disk.inflight.None? && f.job.id in p.server.completed && HandedIn(p.server, f) && CursorsAre(p.disk.cursors, p.server.imports)
  {
    var k :| 0 <= k < |p.server.imports| && p.server.imports[k].inflight.job == f.job;
    assert p.server.imports[k].inflight.job.id == f.job.id;
  }

  /** A claimed job that is not done yet, over a mailbox that does not change meanwhile, is imported by one such run. */
  lemma FreshRunImports(w: World, inputs: seq<RunInput>, input: RunInput, sha: string -> string, receiptOf: ArtifactKey -> string)
    requires Reachable(w, inputs, sha, receiptOf) && w.disk.inflight.None? && ValidInput(input) && input.refetch == input.discovery
    requires input.claim.Some? && input.claim.value.id !in w.server.completed
    requires Discover(w.disk.cursors, input.claim.value, input.discovery, input.maxBytes, sha).Some?
    requires input.budget >= 4 * input.claim.value.Limit() + 10
    ensures var f, v := Discover(w.disk.cursors, input.claim.value, input.discovery, input.maxBytes, sha).value, RunOnce(w, input, sha, receiptOf);
            && v.disk.inflight.None? && HandedIn(v.server, f) && f.job.id in v.server.completed && CursorsAre(v.disk.cursors, v.server.imports)
  {
    ReachableOk(w, inputs, sha, receiptOf);
    var job := input.claim.value;
    var f := Discover(w.disk.cursors, job, input.discovery, input.maxBytes, sha).value;
    DiscoveryIsExact(w.disk.cursors, job, input.discovery, input.maxBytes, sha);
    assert Replayable(input.refetch, f, sha);
    DiscoveredFits(w, job, input.discovery, input.maxBytes, sha);
    assert Receipts(f, 0, receiptOf) == [];
    var disk := w.disk.(inflight := Some(f));
    assert WorldOk(World(disk, w.server), receiptOf);
    hide ProcessInflight, Discover, Replayable, WorldOk, GoodBatch;
    BatchFinishes(w.(disk := disk), f, input.refetch, input.budget - 1, sha, receiptOf);
  }
}
