/** What holds of the IMAP importer over every sequence of runs, each of which may die after any
    effect and be replayed. */
module EmailSafety {
  import opened Common
  import opened EmailWorker

  ghost predicate Injective(receiptOf: ArtifactKey -> string) {
    forall a, b :: receiptOf(a) == receiptOf(b) ==> a == b
  }

  // ---------------------------------------------------------------- the batch

  ghost predicate Increasing(uids: seq<nat>) {
    forall i, j | 0 <= i < j < |uids| :: uids[i] < uids[j]
  }

  function UidsOf(messages: seq<Evidence>): seq<nat> {
    seq(|messages|, i requires 0 <= i < |messages| => messages[i].uid)
  }

  /** The batch is increasing, starts at the window, and leaves out nothing present below its end. */
  ghost predicate GoodBatch(present: set<nat>, first: nat, uids: seq<nat>) {
    && Increasing(uids)
    && (forall i | 0 <= i < |uids| :: first <= uids[i] && uids[i] in present)
    && (forall uid, i | uid in present && first <= uid && 0 <= i < |uids| && uid <= uids[i] :: uid in uids)
  }

  /** The batch of `limit` identifiers is the increasing list of the smallest ones; it is shorter
      than the limit only when it is everything. */
  lemma {:induction false} BatchIsGood(present: set<nat>, first: nat, hi: nat, limit: nat)
    requires forall uid <- present :: uid < hi
    ensures var uids := Batch(present, first, hi, limit);
            && GoodBatch(present, first, uids) && |uids| <= limit
            && (|uids| < limit ==> forall uid <- present | first <= uid :: uid in uids)
    decreases if first < hi then hi - first else 0
  {
    hide GoodBatch;
    if first < hi && limit > 0 {
      var left := if first in present then limit - 1 else limit;
      var rest := Batch(present, first + 1, hi, left);
      BatchIsGood(present, first + 1, hi, left);
      if first in present {
        GoodWithFirst(present, first, rest);
        assert forall uid <- present | first <= uid :: uid == first || first + 1 <= uid;
      } else {
        GoodWithoutFirst(present, first, rest);
      }
    } else {
      NothingIsGood(present, first);
    }
  }

  lemma NothingIsGood(present: set<nat>, first: nat)
    ensures GoodBatch(present, first, [])
  {
  }

  lemma GoodWithFirst(present: set<nat>, first: nat, rest: seq<nat>)
    requires GoodBatch(present, first + 1, rest) && first in present
    ensures GoodBatch(present, first, [first] + rest)
  {
    var uids := [first] + rest;
    assert forall i | 0 <= i < |rest| :: uids[i + 1] == rest[i];
    forall i, j | 0 <= i < j < |uids| ensures uids[i] < uids[j] {
      assert uids[j] == rest[j - 1];
      if i > 0 {
        assert uids[i] == rest[i - 1];
      }
    }
    forall i | 0 <= i < |uids| ensures first <= uids[i] && uids[i] in present {
      if i > 0 {
        assert uids[i] == rest[i - 1];
      }
    }
    forall uid, i | uid in present && first <= uid && 0 <= i < |uids| && uid <= uids[i] ensures uid in uids {
      if uid != first {
        assert i > 0 && uids[i] == rest[i - 1];
        assert uid in rest;
      }
    }
  }

  lemma GoodWithoutFirst(present: set<nat>, first: nat, rest: seq<nat>)
    requires GoodBatch(present, first + 1, rest) && first !in present
    ensures GoodBatch(present, first, rest)
  {
  }

  // ---------------------------------------------------------------- the cursor a log of imports implies

  function CursorAfter(imports: seq<Import>, key: string): Option<Cursor> {
    if imports == [] then None
    else
      var last, prior := imports[|imports| - 1].inflight, CursorAfter(imports[..|imports| - 1], key);
      if last.job.cursorKey != key then prior
      else if last.messages != [] then Some(Cursor(last.uidValidity, LastUid(last.messages)))
      else if prior.None? then Some(Cursor(last.uidValidity, 0))
      else prior
  }

  ghost predicate CursorsAre(cursors: map<string, Cursor>, imports: seq<Import>) {
    forall key :: CursorAfter(imports, key) == if key in cursors then Some(cursors[key]) else None
  }

  /** An in-flight record fits the cursor that was current when it was discovered. */
  ghost predicate Fits(f: Inflight, cursor: Option<Cursor>) {
    && f.first == (if cursor.Some? then cursor.value.lastUid + 1 else f.job.initialUid)
    && (cursor.Some? ==> cursor.value.uidValidity == f.uidValidity)
    && GoodBatch(f.present, f.first, UidsOf(f.messages))
  }

  /** The receipts of the first `n` messages. */
  function Receipts(f: Inflight, n: nat, receiptOf: ArtifactKey -> string): seq<string>
    requires n <= |f.messages|
  {
    seq(n, i requires 0 <= i < n => receiptOf(KeyOf(f, i)))
  }

  /** The recorded receipts are those of a prefix of the messages, and all of them once verifying. */
  ghost predicate ReceiptsOk(f: Inflight, receiptOf: ArtifactKey -> string) {
    && |f.receiptIds| <= |f.messages|
    && f.receiptIds == Receipts(f, |f.receiptIds|, receiptOf)
    && (f.verifying ==> |f.receiptIds| == |f.messages|)
  }

  ghost predicate ImportOk(imports: seq<Import>, k: nat, receiptOf: ArtifactKey -> string)
    requires k < |imports|
  {
    var f := imports[k].inflight;
    && Fits(f, CursorAfter(imports[..k], f.job.cursorKey))
    && imports[k].receipts == Receipts(f, |f.messages|, receiptOf)
  }

  ghost predicate ImportsOk(imports: seq<Import>, receiptOf: ArtifactKey -> string) {
    forall k | 0 <= k < |imports| :: ImportOk(imports, k, receiptOf)
  }

  ghost predicate ServerOk(server: Server, receiptOf: ArtifactKey -> string) {
    && ImportsOk(server.imports, receiptOf)
    && (forall id :: id in server.completed <==> exists k :: 0 <= k < |server.imports| && server.imports[k].inflight.job.id == id)
  }

  /** The in-flight job is the last import, and the cursors do not know it yet. */
  ghost predicate AwaitsCursor(cursors: map<string, Cursor>, server: Server, f: Inflight) {
    && f.started && f.uploading && f.verifying
    && server.imports != [] && server.imports[|server.imports| - 1].inflight == f
    && CursorsAre(cursors, server.imports[..|server.imports| - 1])
  }

  /** The in-flight job has not been accepted yet. */
  ghost predicate InProgress(cursors: map<string, Cursor>, server: Server, f: Inflight) {
    && f.job.id !in server.completed && CursorsAre(cursors, server.imports)
    && Fits(f, CursorAfter(server.imports, f.job.cursorKey))
  }

  ghost predicate DiskOk(disk: WorkerState, server: Server, receiptOf: ArtifactKey -> string) {
    match disk.inflight
    case None => CursorsAre(disk.cursors, server.imports)
    case Some(f) =>
      && ReceiptsOk(f, receiptOf)
      && (InProgress(disk.cursors, server, f) || AwaitsCursor(disk.cursors, server, f))
  }

  ghost predicate WorldOk(w: World, receiptOf: ArtifactKey -> string) {
    ServerOk(w.server, receiptOf) && DiskOk(w.disk, w.server, receiptOf)
  }

  // ---------------------------------------------------------------- one effect

  /** How many receipts the program counter vouches for. */
  ghost predicate PcOk(p: Process, receiptOf: ArtifactKey -> string) {
    var n, total := |p.mem.receiptIds|, |p.mem.messages|;
    match p.pc
    case Begin => true
    case SaveStarted => !p.mem.started
    case Upload => p.mem.started
    case SaveUploading => p.mem.started && !p.mem.uploading
    case Open(i) => Uploads(p.mem) && i <= n
    case Put(i) => Uploads(p.mem) && i <= n && i < total
    case Finalize(i) => Uploads(p.mem) && i <= n && i < total
    case Note(i, receipt) => Uploads(p.mem) && i <= n && i < total && receipt == receiptOf(KeyOf(p.mem, i))
    case Verify => Uploads(p.mem) && n == total
    case SaveVerifying => Uploads(p.mem) && n == total && !p.mem.verifying
    case Complete => Uploads(p.mem) && n == total && p.mem.verifying
    case Finish => n == total && AwaitsCursor(p.disk.cursors, p.server, p.mem)
    case Done => true
  }

  ghost predicate Uploads(f: Inflight) {
    f.started && f.uploading
  }

  ghost predicate ProcessOk(p: Process, receiptOf: ArtifactKey -> string) {
    && WorldOk(World(p.disk, p.server), receiptOf)
    && (if p.pc == Done then p.disk.inflight.None?
        else p.disk.inflight == Some(p.mem) && PcOk(p, receiptOf))
  }

  /** Saving a record that differs in progress only. */
  lemma SaveKeeps(p: Process, f: Inflight, next: Pc, receiptOf: ArtifactKey -> string)
    requires ProcessOk(p, receiptOf) && p.pc != Done
    requires f.receiptIds == p.mem.receiptIds || ReceiptsOk(f, receiptOf)
    requires f.verifying ==> |f.receiptIds| == |f.messages|
    requires f.job == p.mem.job && f.uidValidity == p.mem.uidValidity && f.messages == p.mem.messages
    requires f.first == p.mem.first && f.present == p.mem.present
    requires f == p.mem || InProgress(p.disk.cursors, p.server, p.mem)
    requires PcOk(Process(f, p.contents, p.disk, p.server, next), receiptOf) && next != Finish && next != Done
    ensures ProcessOk(p.Save(f, next), receiptOf)
  {
    assert ReceiptsOk(p.mem, receiptOf);
    assert |f.receiptIds| <= |f.messages|;
    assert forall i | 0 <= i < |f.messages| :: KeyOf(f, i) == KeyOf(p.mem, i);
    assert Receipts(f, |f.receiptIds|, receiptOf) == Receipts(p.mem, |f.receiptIds|, receiptOf);
  }

  /** With injective receipts, a receipt is known exactly when its message is in the prefix. */
  lemma ReceiptKnown(f: Inflight, i: nat, receiptOf: ArtifactKey -> string)
    requires Injective(receiptOf) && ReceiptsOk(f, receiptOf) && Increasing(UidsOf(f.messages)) && i < |f.messages|
    ensures receiptOf(KeyOf(f, i)) in f.receiptIds <==> i < |f.receiptIds|
  {
    if i < |f.receiptIds| {
      assert f.receiptIds[i] == receiptOf(KeyOf(f, i));
    }
    if receiptOf(KeyOf(f, i)) in f.receiptIds {
      var k :| 0 <= k < |f.receiptIds| && f.receiptIds[k] == receiptOf(KeyOf(f, i));
      var all := Receipts(f, |f.receiptIds|, receiptOf);
      assert all[k] == receiptOf(KeyOf(f, k)) && all == f.receiptIds;
      assert receiptOf(KeyOf(f, k)) == receiptOf(KeyOf(f, i));
      assert KeyOf(f, k) == KeyOf(f, i);
      assert UidsOf(f.messages)[k] == UidsOf(f.messages)[i];
    }
  }

  lemma FitsNow(p: Process, receiptOf: ArtifactKey -> string)
    requires ProcessOk(p, receiptOf) && p.pc != Done
    ensures Increasing(UidsOf(p.mem.messages))
  {
    if AwaitsCursor(p.disk.cursors, p.server, p.mem) {
      assert ImportOk(p.server.imports, |p.server.imports| - 1, receiptOf);
    }
  }

  lemma NoteKeeps(p: Process, receiptOf: ArtifactKey -> string)
    requires Injective(receiptOf) && ProcessOk(p, receiptOf) && p.pc.Note?
    ensures ProcessOk(Advance(p, receiptOf), receiptOf)
  {
    var f, i := p.mem, p.pc.i;
    FitsNow(p, receiptOf);
    ReceiptKnown(f, i, receiptOf);
    if i >= |f.receiptIds| {
      var next := f.(receiptIds := f.receiptIds + [p.pc.receipt]);
      assert forall k | 0 <= k < |f.messages| :: KeyOf(next, k) == KeyOf(f, k);
      assert Receipts(next, i + 1, receiptOf) == Receipts(f, i, receiptOf) + [receiptOf(KeyOf(f, i))];
      SaveKeeps(p, next, Open(i + 1), receiptOf);
    }
  }

  lemma CompleteKeeps(p: Process, receiptOf: ArtifactKey -> string)
    requires ProcessOk(p, receiptOf) && p.pc == Complete
    ensures ProcessOk(Advance(p, receiptOf), receiptOf)
  {
    var f, imports := p.mem, p.server.imports;
    if f.job.id !in p.server.completed {
      var more := imports + [Import(f, f.receiptIds)];
      assert more[..|imports|] == imports;
      forall k | 0 <= k < |more| ensures ImportOk(more, k, receiptOf) {
        if k < |imports| {
          assert ImportOk(imports, k, receiptOf);
          assert more[..k] == imports[..k];
        }
      }
      assert more[|imports|].inflight.job.id == f.job.id;
      forall id ensures id in p.server.completed + {f.job.id} <==> exists k :: 0 <= k < |more| && more[k].inflight.job.id == id {
        if id in p.server.completed {
          var k :| 0 <= k < |imports| && imports[k].inflight.job.id == id;
          assert more[k].inflight.job.id == id;
        }
        if k :| 0 <= k < |more| && more[k].inflight.job.id == id {
          if k < |imports| {
            assert imports[k].inflight.job.id == id;
          }
        }
      }
    }
  }

  lemma FinishKeeps(p: Process, receiptOf: ArtifactKey -> string)
    requires ProcessOk(p, receiptOf) && p.pc == Finish
    ensures ProcessOk(Advance(p, receiptOf), receiptOf)
  {
  }

  /** Telling the control plane about a phase, or moving an upload session on, touches no import. */
  lemma QuietKeeps(p: Process, receiptOf: ArtifactKey -> string)
    requires ProcessOk(p, receiptOf)
    requires p.pc in {Begin, Upload, Verify, Done} || p.pc.Open? || p.pc.Put? || p.pc.Finalize?
    ensures ProcessOk(Advance(p, receiptOf), receiptOf)
  {
    hide CursorsAre, Fits, ImportsOk, AwaitsCursor, InProgress, Receipts;
    var q := Advance(p, receiptOf);
    assert q.server.imports == p.server.imports && q.server.completed == p.server.completed;
    assert q.disk == p.disk && q.mem == p.mem;
    SameImports(p.disk, p.server, q.server, receiptOf);
  }

  lemma SameImports(disk: WorkerState, a: Server, b: Server, receiptOf: ArtifactKey -> string)
    requires a.imports == b.imports && a.completed == b.completed && WorldOk(World(disk, a), receiptOf)
    ensures WorldOk(World(disk, b), receiptOf)
  {
  }

  lemma AdvanceKeeps(p: Process, receiptOf: ArtifactKey -> string)
    requires Injective(receiptOf) && ProcessOk(p, receiptOf)
    ensures ProcessOk(Advance(p, receiptOf), receiptOf)
  {
    match p.pc
    case SaveStarted => SaveKeeps(p, p.mem.(started := true), Upload, receiptOf);
    case SaveUploading => SaveKeeps(p, p.mem.(uploading := true), Open(0), receiptOf);
    case SaveVerifying => SaveKeeps(p, p.mem.(verifying := true), Complete, receiptOf);
    case Note(_, _) => NoteKeeps(p, receiptOf);
    case Complete => CompleteKeeps(p, receiptOf);
    case Finish => FinishKeeps(p, receiptOf);
    case _ => QuietKeeps(p, receiptOf);
  }

  lemma {:induction false} StepsKeep(p: Process, n: nat, receiptOf: ArtifactKey -> string)
    requires Injective(receiptOf) && ProcessOk(p, receiptOf)
    ensures ProcessOk(Steps(p, n, receiptOf), receiptOf)
    decreases n
  {
    if n > 0 {
      AdvanceKeeps(p, receiptOf);
      StepsKeep(Advance(p, receiptOf), n - 1, receiptOf);
    }
  }

  // ---------------------------------------------------------------- all runs

  ghost predicate ValidInput(input: RunInput) {
    input.discovery.Valid() && input.refetch.Valid()
  }

  lemma DiscoveredFits(w: World, job: Job, box: Mailbox, maxBytes: nat, sha: string -> string)
    requires box.Valid() && CursorsAre(w.disk.cursors, w.server.imports)
    requires Discover(w.disk.cursors, job, box, maxBytes, sha).Some?
    ensures var f := Discover(w.disk.cursors, job, box, maxBytes, sha).value;
            Fits(f, CursorAfter(w.server.imports, job.cursorKey)) && f.job == job && f.receiptIds == [] && !f.verifying
  {
    var f := Discover(w.disk.cursors, job, box, maxBytes, sha).value;
    BatchIsGood(box.messages.Keys, f.first, box.uidNext, job.Limit());
    BatchPresent(box.messages.Keys, f.first, box.uidNext, job.Limit());
    assert UidsOf(f.messages) == Batch(box.messages.Keys, f.first, box.uidNext, job.Limit());
  }

  lemma RunKeeps(w: World, input: RunInput, sha: string -> string, receiptOf: ArtifactKey -> string)
    requires Injective(receiptOf) && ValidInput(input) && WorldOk(w, receiptOf)
    ensures WorldOk(RunOnce(w, input, sha, receiptOf), receiptOf)
  {
    if w.disk.inflight.Some? {
      var f := w.disk.inflight.value;
      if Replayable(input.refetch, f, sha) {
        StepsKeep(Process(f, Refetched(input.refetch, f, sha), w.disk, w.server, Begin), input.budget, receiptOf);
      }
    } else if input.claim.Some? && input.claim.value.id !in w.server.completed {
      var f := Discover(w.disk.cursors, input.claim.value, input.discovery, input.maxBytes, sha);
      if f.Some? && input.budget > 0 {
        DiscoveredFits(w, input.claim.value, input.discovery, input.maxBytes, sha);
        var disk := w.disk.(inflight := Some(f.value));
        assert Receipts(f.value, 0, receiptOf) == [];
        assert DiskOk(disk, w.server, receiptOf);
        if Replayable(input.refetch, f.value, sha) {
          StepsKeep(Process(f.value, Refetched(input.refetch, f.value, sha), disk, w.server, Begin), input.budget - 1, receiptOf);
        }
      }
    }
  }

  lemma {:induction false} RunsKeep(w: World, inputs: seq<RunInput>, sha: string -> string, receiptOf: ArtifactKey -> string)
    requires Injective(receiptOf) && WorldOk(w, receiptOf) && forall input <- inputs :: ValidInput(input)
    ensures WorldOk(RunMany(w, inputs, sha, receiptOf), receiptOf)
    decreases |inputs|
  {
    if inputs != [] {
      assert inputs[0] in inputs;
      RunKeeps(w, inputs[0], sha, receiptOf);
      RunsKeep(RunOnce(w, inputs[0], sha, receiptOf), inputs[1..], sha, receiptOf);
    }
  }

  // ---------------------------------------------------------------- main results

  ghost predicate Reachable(w: World, inputs: seq<RunInput>, sha: string -> string, receiptOf: ArtifactKey -> string) {
    Injective(receiptOf) && (forall input <- inputs :: ValidInput(input)) && w == RunMany(EMPTY, inputs, sha, receiptOf)
  }

  lemma ReachableOk(w: World, inputs: seq<RunInput>, sha: string -> string, receiptOf: ArtifactKey -> string)
    requires Reachable(w, inputs, sha, receiptOf)
    ensures WorldOk(w, receiptOf)
  {
    RunsKeep(EMPTY, inputs, sha, receiptOf);
  }

  /** The receipts on file are those of a prefix of the in-flight messages, without repetition;
      once `verifying` is on file they are complete. */
  lemma InflightReceipts(w: World, inputs: seq<RunInput>, sha: string -> string, receiptOf: ArtifactKey -> string)
    requires Reachable(w, inputs, sha, receiptOf) && w.disk.inflight.Some?
    ensures var f := w.disk.inflight.value;
            && |f.receiptIds| <= |f.messages| && f.receiptIds == Receipts(f, |f.receiptIds|, receiptOf)
            && (forall i, j | 0 <= i < j < |f.receiptIds| :: f.receiptIds[i] != f.receiptIds[j])
            && (f.verifying ==> |f.receiptIds| == |f.messages|)
  {
    ReachableOk(w, inputs, sha, receiptOf);
    var f := w.disk.inflight.value;
    FitsNow(Process(f, [], w.disk, w.server, Begin), receiptOf);
    ReceiptsDistinct(f, receiptOf);
  }

  lemma ReceiptsDistinct(f: Inflight, receiptOf: ArtifactKey -> string)
    requires Injective(receiptOf) && Increasing(UidsOf(f.messages))
    ensures forall n, i, j | 0 <= i < j < n <= |f.messages| :: Receipts(f, n, receiptOf)[i] != Receipts(f, n, receiptOf)[j]
  {
    forall n, i, j | 0 <= i < j < n <= |f.messages| ensures Receipts(f, n, receiptOf)[i] != Receipts(f, n, receiptOf)[j] {
      assert UidsOf(f.messages)[i] < UidsOf(f.messages)[j];
      assert KeyOf(f, i) != KeyOf(f, j);
      assert receiptOf(KeyOf(f, i)) != receiptOf(KeyOf(f, j));
    }
  }

  /** Every accepted completion carries exactly one receipt per message, in order, all distinct. */
  lemma CompletionsCarryOneReceiptEach(w: World, inputs: seq<RunInput>, sha: string -> string, receiptOf: ArtifactKey -> string, k: nat)
    requires Reachable(w, inputs, sha, receiptOf) && k < |w.server.imports|
    ensures var e := w.server.imports[k];
            && e.receipts == Receipts(e.inflight, |e.inflight.messages|, receiptOf)
            && forall i, j | 0 <= i < j < |e.receipts| :: e.receipts[i] != e.receipts[j]
  {
    ReachableOk(w, inputs, sha, receiptOf);
    assert ImportOk(w.server.imports, k, receiptOf);
    ReceiptsDistinct(w.server.imports[k].inflight, receiptOf);
  }

  /** The cursors on file are those of the accepted completions: a cursor never runs ahead of
      `complete`, and lags by at most the one completion whose save was lost. */
  lemma CursorsFollowCompletions(w: World, inputs: seq<RunInput>, sha: string -> string, receiptOf: ArtifactKey -> string)
    requires Reachable(w, inputs, sha, receiptOf)
    ensures var imports := w.server.imports;
            if w.disk.inflight.Some? && w.disk.inflight.value.job.id in w.server.completed
            then imports != [] && imports[|imports| - 1].inflight == w.disk.inflight.value
                 && CursorsAre(w.disk.cursors, imports[..|imports| - 1])
            else CursorsAre(w.disk.cursors, imports)
  {
    ReachableOk(w, inputs, sha, receiptOf);
    if w.disk.inflight.Some? && AwaitsCursor(w.disk.cursors, w.server, w.disk.inflight.value) {
      assert w.server.imports[|w.server.imports| - 1].inflight.job.id in w.server.completed;
    }
  }

  lemma {:induction false} LastUidIsMax(messages: seq<Evidence>)
    requires messages != []
    ensures forall i | 0 <= i < |messages| :: messages[i].uid <= LastUid(messages)
    ensures exists i :: 0 <= i < |messages| && messages[i].uid == LastUid(messages)
  {
    assert messages[0].uid == LastUid(messages) || |messages| > 1;
    if |messages| > 1 {
      var prior := messages[..|messages| - 1];
      LastUidIsMax(prior);
      var k :| 0 <= k < |prior| && prior[k].uid == LastUid(prior);
      assert messages[k].uid == LastUid(prior);
      assert messages[|messages| - 1].uid <= LastUid(messages);
      forall i | 0 <= i < |messages| ensures messages[i].uid <= LastUid(messages) {
        if i < |prior| {
          assert prior[i] == messages[i];
        }
      }
    }
  }

  /** The cursor a log implies has the log's UIDVALIDITY and is no smaller than anything imported. */
  lemma {:induction false} CursorDominates(imports: seq<Import>, key: string, receiptOf: ArtifactKey -> string)
    requires ImportsOk(imports, receiptOf)
    ensures forall k | 0 <= k < |imports| && imports[k].inflight.job.cursorKey == key ::
              && CursorAfter(imports, key).Some?
              && CursorAfter(imports, key).value.uidValidity == imports[k].inflight.uidValidity
              && forall i | 0 <= i < |imports[k].inflight.messages| ::
                   imports[k].inflight.messages[i].uid <= CursorAfter(imports, key).value.lastUid
    ensures CursorAfter(imports, key).Some? ==>
              exists k :: 0 <= k < |imports| && imports[k].inflight.job.cursorKey == key
  {
    if imports != [] {
      var n := |imports| - 1;
      var prior, last := imports[..n], imports[n].inflight;
      assert ImportsOk(prior, receiptOf) by {
        forall k | 0 <= k < n ensures ImportOk(prior, k, receiptOf) {
          assert ImportOk(imports, k, receiptOf);
          assert prior[..k] == imports[..k];
        }
      }
      CursorDominates(prior, key, receiptOf);
      assert ImportOk(imports, n, receiptOf);
      if last.messages != [] {
        LastUidIsMax(last.messages);
        assert UidsOf(last.messages)[0] == last.messages[0].uid;
      }
      forall k | 0 <= k < |imports| && imports[k].inflight.job.cursorKey == key
        ensures CursorAfter(imports, key).Some?
        ensures CursorAfter(imports, key).value.uidValidity == imports[k].inflight.uidValidity
        ensures forall i | 0 <= i < |imports[k].inflight.messages| ::
                  imports[k].inflight.messages[i].uid <= CursorAfter(imports, key).value.lastUid
      {
        if k < n {
          assert prior[k] == imports[k];
          assert CursorAfter(prior, key).Some?;
        }
      }
      if CursorAfter(prior, key).Some? {
        var k :| 0 <= k < n && prior[k].inflight.job.cursorKey == key;
        assert imports[k].inflight.job.cursorKey == key;
      }
    }
  }

  lemma ImportsPrefix(imports: seq<Import>, n: nat, receiptOf: ArtifactKey -> string)
    requires ImportsOk(imports, receiptOf) && n <= |imports|
    ensures ImportsOk(imports[..n], receiptOf)
  {
    forall k | 0 <= k < n ensures ImportOk(imports[..n], k, receiptOf) {
      assert ImportOk(imports, k, receiptOf);
      assert imports[..n][..k] == imports[..k];
    }
  }

  /** Under one cursor, completed imports share one UIDVALIDITY, and every identifier of a later
      import is larger than every identifier of an earlier one. */
  lemma ImportsIncrease(w: World, inputs: seq<RunInput>, sha: string -> string, receiptOf: ArtifactKey -> string, a: nat, b: nat)
    requires Reachable(w, inputs, sha, receiptOf) && a < b < |w.server.imports|
    requires w.server.imports[a].inflight.job.cursorKey == w.server.imports[b].inflight.job.cursorKey
    ensures var f, g := w.server.imports[a].inflight, w.server.imports[b].inflight;
            && f.uidValidity == g.uidValidity
            && Increasing(UidsOf(g.messages))
            && forall i, j | 0 <= i < |f.messages| && 0 <= j < |g.messages| :: f.messages[i].uid < g.messages[j].uid
  {
    ReachableOk(w, inputs, sha, receiptOf);
    var imports := w.server.imports;
    ImportsPrefix(imports, b, receiptOf);
    CursorDominates(imports[..b], imports[a].inflight.job.cursorKey, receiptOf);
    assert imports[..b][a] == imports[a] && ImportOk(imports, b, receiptOf);
    var g := imports[b].inflight;
    assert forall j | 0 <= j < |g.messages| :: UidsOf(g.messages)[j] == g.messages[j].uid;
  }

  /** No message that was present at discovery, from the window start up to the new cursor, is left
      out, however the batch limit cut it; and the window starts right after the old cursor. */
  lemma NothingSkipped(w: World, inputs: seq<RunInput>, sha: string -> string, receiptOf: ArtifactKey -> string, k: nat, uid: nat)
    requires Reachable(w, inputs, sha, receiptOf) && k < |w.server.imports|
    requires var f := w.server.imports[k].inflight;
             f.messages != [] && uid in f.present && f.first <= uid <= LastUid(f.messages)
    ensures var f := w.server.imports[k].inflight;
            && (exists i :: 0 <= i < |f.messages| && f.messages[i].uid == uid)
            && var prior := CursorAfter(w.server.imports[..k], f.job.cursorKey);
               f.first == if prior.Some? then prior.value.lastUid + 1 else f.job.initialUid
  {
    ReachableOk(w, inputs, sha, receiptOf);
    assert ImportOk(w.server.imports, k, receiptOf);
    var f := w.server.imports[k].inflight;
    LastUidIsMax(f.messages);
    var top :| 0 <= top < |f.messages| && f.messages[top].uid == LastUid(f.messages);
    var uids := UidsOf(f.messages);
    assert uids[top] == LastUid(f.messages);
    assert uid in uids;
    var i :| 0 <= i < |uids| && uids[i] == uid;
    assert f.messages[i].uid == uid;
  }

  // ---------------------------------------------------------------- the initial floor

  /** The first import imported something, or there was no floor to keep. */
  ghost predicate FloorHolds(f: Inflight) {
    f.messages != [] || f.job.initialUid <= 1
  }

  /** The cursor the first import stores respects `initialUid` exactly then; an empty import stores 0. */
  lemma FirstCursor(imports: seq<Import>, k: nat, receiptOf: ArtifactKey -> string)
    requires ImportsOk(imports, receiptOf) && k < |imports|
    requires CursorAfter(imports[..k], imports[k].inflight.job.cursorKey).None?
    ensures var f := imports[k].inflight;
            var cursor := CursorAfter(imports[..k + 1], f.job.cursorKey);
            cursor.Some? && (f.job.initialUid <= cursor.value.lastUid + 1 <==> FloorHolds(f))
  {
    var f := imports[k].inflight;
    assert imports[..k + 1][..k] == imports[..k];
    assert ImportOk(imports, k, receiptOf);
    if f.messages != [] {
      LastUidIsMax(f.messages);
      assert UidsOf(f.messages)[0] == f.messages[0].uid;
    }
  }

  /** Imports under other cursors leave this one alone. */
  lemma {:induction false} CursorUntouched(imports: seq<Import>, j: nat, m: nat, key: string)
    requires j <= m <= |imports| && forall i | j <= i < m :: imports[i].inflight.job.cursorKey != key
    ensures CursorAfter(imports[..m], key) == CursorAfter(imports[..j], key)
    decreases m - j
  {
    if j < m {
      CursorUntouched(imports, j, m - 1, key);
      assert imports[..m][..m - 1] == imports[..m - 1];
    }
  }

  /** The next import under a cursor. */
  lemma {:induction false} NextImport(imports: seq<Import>, from: nat, m: nat, key: string) returns (n: nat)
    requires from <= m < |imports| && imports[m].inflight.job.cursorKey == key
    ensures from <= n <= m && imports[n].inflight.job.cursorKey == key
    ensures forall i | from <= i < n :: imports[i].inflight.job.cursorKey != key
    decreases m - from
  {
    if imports[from].inflight.job.cursorKey == key {
      n := from;
    } else {
      n := NextImport(imports, from + 1, m, key);
    }
  }

  /** The window of an import starts right after the cursor of the imports before it. */
  lemma WindowStart(imports: seq<Import>, j: nat, m: nat, receiptOf: ArtifactKey -> string)
    requires ImportsOk(imports, receiptOf) && j <= m < |imports|
    requires CursorAfter(imports[..j], imports[m].inflight.job.cursorKey).Some?
    ensures var key := imports[m].inflight.job.cursorKey;
            && CursorAfter(imports[..m], key).Some?
            && imports[m].inflight.first == CursorAfter(imports[..m], key).value.lastUid + 1
            && CursorAfter(imports[..j], key).value.lastUid + 1 <= imports[m].inflight.first
  {
    CursorMonotone(imports, j, m, imports[m].inflight.job.cursorKey, receiptOf);
    assert ImportOk(imports, m, receiptOf);
  }

  /** Where a cursor has been used again, all its later windows start at or above the first job's
      `initialUid` exactly when its first import imported something, or there was no floor to keep.
      Otherwise the very next window starts at 1. */
  lemma FloorKeptExactly(imports: seq<Import>, k: nat, later: nat, receiptOf: ArtifactKey -> string)
    requires ImportsOk(imports, receiptOf) && k < later < |imports|
    requires CursorAfter(imports[..k], imports[k].inflight.job.cursorKey).None?
    requires imports[later].inflight.job.cursorKey == imports[k].inflight.job.cursorKey
    ensures var f := imports[k].inflight;
            FloorHolds(f) <==> forall m | k < m < |imports| && imports[m].inflight.job.cursorKey == f.job.cursorKey ::
                                 f.job.initialUid <= imports[m].inflight.first
  {
    var f := imports[k].inflight;
    var key := f.job.cursorKey;
    FirstCursor(imports, k, receiptOf);
    if FloorHolds(f) {
      forall m | k < m < |imports| && imports[m].inflight.job.cursorKey == key ensures f.job.initialUid <= imports[m].inflight.first {
        WindowStart(imports, k + 1, m, receiptOf);
      }
    } else {
      var next := NextImport(imports, k + 1, later, key);
      CursorUntouched(imports, k + 1, next, key);
      WindowStart(imports, k + 1, next, receiptOf);
      assert imports[next].inflight.first < f.job.initialUid;
    }
  }

  /** From then on the windows only move up. */
  lemma {:induction false} CursorMonotone(imports: seq<Import>, j: nat, k: nat, key: string, receiptOf: ArtifactKey -> string)
    requires ImportsOk(imports, receiptOf) && j <= k <= |imports| && CursorAfter(imports[..j], key).Some?
    ensures CursorAfter(imports[..k], key).Some?
    ensures CursorAfter(imports[..j], key).value.lastUid <= CursorAfter(imports[..k], key).value.lastUid
    decreases k - j
  {
    if j < k {
      CursorMonotone(imports, j, k - 1, key, receiptOf);
      assert imports[..k][..k - 1] == imports[..k - 1];
      assert ImportOk(imports, k - 1, receiptOf);
      var f := imports[k - 1].inflight;
      if f.job.cursorKey == key && f.messages != [] {
        LastUidIsMax(f.messages);
        assert UidsOf(f.messages)[0] == f.messages[0].uid;
      }
    }
  }

  // ---------------------------------------------------------------- an empty first import

  const EARLY := Job("j", 1, "k", 10, 0)

  const EMPTY_BOX := Mailbox(1, 1, map[])

  /** A run with nothing to import, long enough to end. */
  const NOTHING_NEW := RunInput(Some(EARLY), EMPTY_BOX, EMPTY_BOX, 1000, 12)

  lemma {:induction false} StepsAppend(p: Process, m: nat, n: nat, receiptOf: ArtifactKey -> string)
    ensures Steps(p, m + n, receiptOf) == Steps(Steps(p, m, receiptOf), n, receiptOf)
    decreases m
  {
    if m > 0 {
      StepsAppend(Advance(p, receiptOf), m - 1, n, receiptOf);
    }
  }

  /** Reporting the start and the uploading of a job without messages takes five steps to the verification. */
  lemma EmptyUpload(p: Process, receiptOf: ArtifactKey -> string)
    requires p.pc == Begin && p.mem.messages == [] && !p.mem.started && !p.mem.uploading && !p.mem.verifying
    ensures var q := Steps(p, 5, receiptOf);
            && q.pc == Verify && q.mem == p.mem.(started := true, uploading := true)
            && q.disk.cursors == p.disk.cursors && q.server.imports == p.server.imports && q.server.completed == p.server.completed
  {
    var a := Advance(p, receiptOf);
    var b := Advance(a, receiptOf);
    var c := Advance(b, receiptOf);
    var d := Advance(c, receiptOf);
    var e := Advance(d, receiptOf);
    assert Steps(p, 5, receiptOf) == Steps(a, 4, receiptOf) == Steps(b, 3, receiptOf) == Steps(c, 2, receiptOf) == Steps(d, 1, receiptOf) == Steps(e, 0, receiptOf);
  }

  lemma EmptyEnding(p: Process, receiptOf: ArtifactKey -> string)
    requires p.pc == Verify && !p.mem.verifying && p.mem.messages == [] && p.mem.job.id !in p.server.completed
    requires p.mem.job.cursorKey !in p.disk.cursors
    ensures var q := Steps(p, 4, receiptOf);
            && q.pc == Done && q.disk.inflight == None
            && q.disk.cursors == p.disk.cursors[p.mem.job.cursorKey := Cursor(p.mem.uidValidity, 0)]
            && q.server.imports == p.server.imports + [Import(p.mem.(verifying := true), p.mem.receiptIds)]
  {
    var a := Advance(p, receiptOf);
    var b := Advance(a, receiptOf);
    var c := Advance(b, receiptOf);
    var d := Advance(c, receiptOf);
    assert Steps(p, 4, receiptOf) == Steps(a, 3, receiptOf) == Steps(b, 2, receiptOf) == Steps(c, 1, receiptOf) == Steps(d, 0, receiptOf);
  }

  lemma {:induction false} DoneStays(p: Process, n: nat, receiptOf: ArtifactKey -> string)
    requires p.pc == Done
    ensures Steps(p, n, receiptOf) == p
    decreases n
  {
    if n > 0 {
      DoneStays(p, n - 1, receiptOf);
    }
  }

  /** The floor is lost: the job asks for identifiers from 10 on, nothing is there yet, and the cursor it
      leaves makes the next window start at 1, whatever the next job asks for. */
  lemma FloorIsLost(sha: string -> string, receiptOf: ArtifactKey -> string, next: Job)
    requires next.cursorKey == EARLY.cursorKey
    ensures var w := RunOnce(EMPTY, NOTHING_NEW, sha, receiptOf);
            && w.disk.inflight == None && |w.server.imports| == 1
            && w.server.imports[0].inflight.messages == [] && w.server.imports[0].inflight.job == EARLY && EARLY.initialUid == 10
            && w.disk.cursors == map["k" := Cursor(1, 0)]
            && FirstUid(w.disk.cursors, next) == 1
  {
    var f := Inflight(EARLY, 1, [], [], false, false, false, 10, {});
    assert EMPTY_BOX.messages.Keys == {} && Batch({}, 10, 1, 50) == [];
    assert EMPTY_BOX.messages.Keys == f.present && EvidenceFor(EMPTY_BOX, [], sha) == [];
    assert FirstUid(map[], EARLY) == 10 && EARLY.Limit() == 50;
    assert Discover(map[], EARLY, EMPTY_BOX, 1000, sha) == Some(f);
    var p := Process(f, [], WorkerState(map[], Some(f)), EMPTY.server, Begin);
    assert Refetched(EMPTY_BOX, f, sha) == [];
    assert RunOnce(EMPTY, NOTHING_NEW, sha, receiptOf) == World(Steps(p, 11, receiptOf).disk, Steps(p, 11, receiptOf).server);
    hide Steps;
    EmptyUpload(p, receiptOf);
    EmptyEnding(Steps(p, 5, receiptOf), receiptOf);
    StepsAppend(p, 5, 4, receiptOf);
    DoneStays(Steps(p, 9, receiptOf), 2, receiptOf);
    StepsAppend(p, 9, 2, receiptOf);
  }
}
