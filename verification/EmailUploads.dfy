/** What a receipt of the IMAP importer stands for: over every sequence of runs, the message's bytes are with
    the control plane, verified and finalized, before any record of the importer says so. */
module EmailUploads {
  import opened Common
  import opened EmailWorker
  import opened EmailSafety

  /** The session of this key is finalized and holds bytes of the key's digest. */
  ghost predicate IsFinal(server: Server, key: ArtifactKey, sha: string -> string) {
    key in server.sessions && server.sessions[key].Finalized? && sha(server.sessions[key].content) == key.sha256
  }

  /** Whatever bytes a session holds have the digest it was opened for. */
  ghost predicate SessionsOk(server: Server, sha: string -> string) {
    forall key | key in server.sessions && !server.sessions[key].Created? :: sha(server.sessions[key].content) == key.sha256
  }

  ghost predicate Uploaded(server: Server, f: Inflight, n: nat, sha: string -> string)
    requires n <= |f.messages|
  {
    forall i | 0 <= i < n :: IsFinal(server, KeyOf(f, i), sha)
  }

  /** The phases the record says were reported have been. */
  ghost predicate Reported(server: Server, f: Inflight) {
    && (f.started ==> (f.job.id, "start") in server.operations)
    && (f.uploading ==> (f.job.id, "uploading") in server.operations)
    && (f.verifying ==> (f.job.id, "verifying") in server.operations)
  }

  ghost predicate RecordOk(server: Server, f: Inflight, sha: string -> string) {
    |f.receiptIds| <= |f.messages| && Uploaded(server, f, |f.receiptIds|, sha) && Reported(server, f)
  }

  /** An accepted import: every message uploaded, every phase reported before. */
  ghost predicate ImportUploaded(server: Server, e: Import, sha: string -> string) {
    && Uploaded(server, e.inflight, |e.inflight.messages|, sha)
    && e.inflight.started && e.inflight.uploading && e.inflight.verifying && Reported(server, e.inflight)
  }

  ghost predicate UploadsOk(w: World, sha: string -> string) {
    && SessionsOk(w.server, sha)
    && (w.disk.inflight.Some? ==> RecordOk(w.server, w.disk.inflight.value, sha))
    && forall k | 0 <= k < |w.server.imports| :: ImportUploaded(w.server, w.server.imports[k], sha)
  }

  /** The contents fetched again are those of the record. */
  ghost predicate ContentsOk(p: Process, sha: string -> string) {
    |p.contents| == |p.mem.messages| && forall i | 0 <= i < |p.contents| :: sha(p.contents[i]) == p.mem.messages[i].sha256
  }

  /** What the program counter knows of the session it works on and of the report it has just made. */
  ghost predicate AtWork(p: Process, sha: string -> string) {
    match p.pc
    case SaveStarted => (p.mem.job.id, "start") in p.server.operations
    case SaveUploading => (p.mem.job.id, "uploading") in p.server.operations
    case SaveVerifying => (p.mem.job.id, "verifying") in p.server.operations
    case Put(i) => i < |p.mem.messages| && KeyOf(p.mem, i) in p.server.sessions && p.server.sessions[KeyOf(p.mem, i)].Created?
    case Finalize(i) => i < |p.mem.messages| && KeyOf(p.mem, i) in p.server.sessions && p.server.sessions[KeyOf(p.mem, i)].Verified?
    case Note(i, _) => i < |p.mem.messages| && IsFinal(p.server, KeyOf(p.mem, i), sha)
    case _ => true
  }

  ghost predicate TransferOk(p: Process, sha: string -> string) {
    UploadsOk(World(p.disk, p.server), sha) && (p.pc != Done ==> ContentsOk(p, sha) && AtWork(p, sha))
  }

  // ---------------------------------------------------------------- sessions move forward only

  /** The four states a session goes through, each only from the one before. */
  ghost predicate Forward(server: Server, next: Server, key: ArtifactKey, sha: string -> string) {
    if key !in server.sessions then key in next.sessions ==> next.sessions[key].Created?
    else
      && key in next.sessions
      && match server.sessions[key]
         case Created => next.sessions[key].Created? || (next.sessions[key].Verified? && sha(next.sessions[key].content) == key.sha256)
         case Verified(content) => next.sessions[key] == Verified(content) || next.sessions[key] == Finalized(content)
         case Finalized(content) => next.sessions[key] == Finalized(content)
  }

  /** One effect moves every upload session forward by one state at most; a session is given bytes only once, and
      only bytes of the digest it was opened for. */
  lemma SessionsMoveForward(p: Process, receiptOf: ArtifactKey -> string, sha: string -> string, key: ArtifactKey)
    requires TransferOk(p, sha)
    ensures Forward(p.server, Advance(p, receiptOf).server, key, sha)
  {
    hide UploadsOk, MoveCursor;
    if p.pc.Put? {
      assert ContentsOk(p, sha) && AtWork(p, sha);
    }
  }

  lemma ForwardKeepsFinal(server: Server, next: Server, key: ArtifactKey, sha: string -> string)
    requires Forward(server, next, key, sha)
    ensures IsFinal(server, key, sha) ==> IsFinal(next, key, sha)
  {
  }

  ghost predicate AllForward(server: Server, next: Server, sha: string -> string) {
    server.operations <= next.operations && forall key :: Forward(server, next, key, sha)
  }

  lemma UploadedStays(server: Server, next: Server, f: Inflight, n: nat, sha: string -> string)
    requires AllForward(server, next, sha) && n <= |f.messages| && Uploaded(server, f, n, sha)
    ensures Uploaded(next, f, n, sha) && (Reported(server, f) ==> Reported(next, f))
  {
    hide Forward, IsFinal;
    forall i | 0 <= i < n ensures IsFinal(next, KeyOf(f, i), sha) {
      ForwardKeepsFinal(server, next, KeyOf(f, i), sha);
    }
  }

  lemma AdvanceIsForward(p: Process, receiptOf: ArtifactKey -> string, sha: string -> string)
    requires TransferOk(p, sha)
    ensures AllForward(p.server, Advance(p, receiptOf).server, sha)
  {
    hide UploadsOk, Forward, MoveCursor;
    forall key {
      SessionsMoveForward(p, receiptOf, sha, key);
    }
    assert p.server.operations <= Advance(p, receiptOf).server.operations by {
      hide TransferOk, OpenSession, UploadTo, FinalizeSession;
      OperationsGrow(p, receiptOf);
    }
  }

  lemma OperationsGrow(p: Process, receiptOf: ArtifactKey -> string)
    ensures p.server.operations <= Advance(p, receiptOf).server.operations
  {
    hide MoveCursor;
  }

  lemma ForwardKeepsSessions(server: Server, next: Server, sha: string -> string)
    requires AllForward(server, next, sha) && SessionsOk(server, sha)
    ensures SessionsOk(next, sha)
  {
    forall key | key in next.sessions && !next.sessions[key].Created? ensures sha(next.sessions[key].content) == key.sha256 {
      assert Forward(server, next, key, sha);
    }
  }

  lemma ImportsStay(server: Server, next: Server, sha: string -> string)
    requires AllForward(server, next, sha) && next.imports == server.imports
    requires forall k | 0 <= k < |server.imports| :: ImportUploaded(server, server.imports[k], sha)
    ensures forall k | 0 <= k < |next.imports| :: ImportUploaded(next, next.imports[k], sha)
  {
    hide Forward, AllForward, Uploaded, Reported;
    forall k | 0 <= k < |next.imports| ensures ImportUploaded(next, next.imports[k], sha) {
      assert ImportUploaded(server, server.imports[k], sha);
      UploadedStays(server, next, next.imports[k].inflight, |next.imports[k].inflight.messages|, sha);
    }
  }

  // ---------------------------------------------------------------- one effect

  /** Only a save changes the record, only `complete` the imports. */
  lemma AskKeeps(p: Process, receiptOf: ArtifactKey -> string, sha: string -> string)
    requires TransferOk(p, sha) && ProcessOk(p, receiptOf)
    requires p.pc in {Begin, Upload, Verify, Done} || p.pc.Open? || p.pc.Put? || p.pc.Finalize?
    ensures TransferOk(Advance(p, receiptOf), sha)
  {
    var q := Advance(p, receiptOf);
    AdvanceIsForward(p, receiptOf, sha);
    AskLeaves(p, receiptOf, sha);
    hide Advance, ProcessOk, Forward, AllForward, Uploaded, Reported, SessionsOk, AtWork, ContentsOk;
    ForwardKeepsSessions(p.server, q.server, sha);
    ImportsStay(p.server, q.server, sha);
    if p.disk.inflight.Some? {
      UploadedStays(p.server, q.server, p.disk.inflight.value, |p.disk.inflight.value.receiptIds|, sha);
    }
  }

  lemma AskLeaves(p: Process, receiptOf: ArtifactKey -> string, sha: string -> string)
    requires TransferOk(p, sha) && ProcessOk(p, receiptOf)
    requires p.pc in {Begin, Upload, Verify, Done} || p.pc.Open? || p.pc.Put? || p.pc.Finalize?
    ensures var q := Advance(p, receiptOf);
            && q.disk == p.disk && q.mem == p.mem && q.contents == p.contents && q.server.imports == p.server.imports
            && (q.pc == Done <==> p.pc == Done) && (p.pc != Done ==> AtWork(q, sha))
  {
    hide WorldOk, RecordOk, ImportUploaded;
  }

  lemma SavedRecord(p: Process, f: Inflight, next: Pc, sha: string -> string)
    requires TransferOk(p, sha) && p.pc != Done && RecordOk(p.server, f, sha) && f.messages == p.mem.messages && AtWork(p.Save(f, next), sha)
    ensures TransferOk(p.Save(f, next), sha)
  {
    hide AtWork, RecordOk, ImportUploaded, SessionsOk;
  }

  lemma SaveKeepsRecord(p: Process, receiptOf: ArtifactKey -> string, sha: string -> string)
    requires TransferOk(p, sha) && ProcessOk(p, receiptOf) && p.pc in {SaveStarted, SaveUploading, SaveVerifying}
    ensures TransferOk(Advance(p, receiptOf), sha)
  {
    var f := p.mem;
    var g := match p.pc
      case SaveStarted => f.(started := true)
      case SaveUploading => f.(uploading := true)
      case _ => f.(verifying := true);
    assert RecordOk(p.server, f, sha) && p.disk.inflight == Some(f);
    hide WorldOk, PcOk, ImportUploaded, SessionsOk, IsFinal;
    assert forall i | 0 <= i < |f.messages| :: KeyOf(g, i) == KeyOf(f, i);
    SavedRecord(p, g, Advance(p, receiptOf).pc, sha);
  }

  lemma NoteKeepsRecord(p: Process, receiptOf: ArtifactKey -> string, sha: string -> string)
    requires TransferOk(p, sha) && Injective(receiptOf) && ProcessOk(p, receiptOf) && p.pc.Note?
    ensures TransferOk(Advance(p, receiptOf), sha)
  {
    var f, i := p.mem, p.pc.i;
    FitsNow(p, receiptOf);
    ReceiptKnown(f, i, receiptOf);
    assert RecordOk(p.server, f, sha) && p.disk.inflight == Some(f);
    hide WorldOk, ImportUploaded, SessionsOk, IsFinal, Injective, ReceiptsOk;
    if i >= |f.receiptIds| {
      var g := f.(receiptIds := f.receiptIds + [p.pc.receipt]);
      assert forall k | 0 <= k < |f.messages| :: KeyOf(g, k) == KeyOf(f, k);
      SavedRecord(p, g, Open(i + 1), sha);
    }
  }

  lemma CompleteKeepsUploads(p: Process, receiptOf: ArtifactKey -> string, sha: string -> string)
    requires TransferOk(p, sha) && ProcessOk(p, receiptOf) && p.pc == Complete
    ensures TransferOk(Advance(p, receiptOf), sha)
  {
    var f, server := p.mem, p.server;
    assert RecordOk(server, f, sha) && p.disk.inflight == Some(f);
    assert |f.receiptIds| == |f.messages| && f.started && f.uploading && f.verifying;
    var accepted := Accept(server, f);
    assert accepted.sessions == server.sessions && accepted.operations == server.operations;
    assert forall g: Inflight, n: nat | n <= |g.messages| :: Uploaded(server, g, n, sha) ==> Uploaded(accepted, g, n, sha);
    hide WorldOk, Uploaded, IsFinal;
    forall k | 0 <= k < |accepted.imports| ensures ImportUploaded(accepted, accepted.imports[k], sha) {
      assert k < |server.imports| ==> accepted.imports[k] == server.imports[k] && ImportUploaded(server, server.imports[k], sha);
    }
  }

  lemma TransferKeeps(p: Process, receiptOf: ArtifactKey -> string, sha: string -> string)
    requires Injective(receiptOf) && ProcessOk(p, receiptOf) && TransferOk(p, sha)
    ensures TransferOk(Advance(p, receiptOf), sha)
  {
    match p.pc
    case SaveStarted => SaveKeepsRecord(p, receiptOf, sha);
    case SaveUploading => SaveKeepsRecord(p, receiptOf, sha);
    case SaveVerifying => SaveKeepsRecord(p, receiptOf, sha);
    case Note(_, _) => NoteKeepsRecord(p, receiptOf, sha);
    case Complete => CompleteKeepsUploads(p, receiptOf, sha);
    case Finish =>
    case _ => AskKeeps(p, receiptOf, sha);
  }

  lemma {:induction false} StepsTransfer(p: Process, n: nat, receiptOf: ArtifactKey -> string, sha: string -> string)
    requires Injective(receiptOf) && ProcessOk(p, receiptOf) && TransferOk(p, sha)
    ensures TransferOk(Steps(p, n, receiptOf), sha)
    decreases n
  {
    hide Advance, ProcessOk, TransferOk, Injective;
    if n > 0 {
      AdvanceKeeps(p, receiptOf);
      TransferKeeps(p, receiptOf, sha);
      StepsTransfer(Advance(p, receiptOf), n - 1, receiptOf, sha);
    }
  }

  // ---------------------------------------------------------------- all runs

  lemma ProcessTransfers(w: World, f: Inflight, box: Mailbox, budget: nat, sha: string -> string, receiptOf: ArtifactKey -> string)
    requires Injective(receiptOf) && WorldOk(w, receiptOf) && UploadsOk(w, sha) && w.disk.inflight == Some(f)
    ensures UploadsOk(ProcessInflight(w, f, box, budget, sha, receiptOf), sha)
  {
    if Replayable(box, f, sha) {
      var p := Process(f, Refetched(box, f, sha), w.disk, w.server, Begin);
      assert forall i | 0 <= i < |f.messages| :: f.messages[i] in f.messages;
      assert ContentsOk(p, sha);
      hide Replayable, Refetched, Steps, UploadsOk, WorldOk, ContentsOk;
      StepsTransfer(p, budget, receiptOf, sha);
    }
  }

  lemma RunTransfers(w: World, input: RunInput, sha: string -> string, receiptOf: ArtifactKey -> string)
    requires Injective(receiptOf) && ValidInput(input) && WorldOk(w, receiptOf) && UploadsOk(w, sha)
    ensures UploadsOk(RunOnce(w, input, sha, receiptOf), sha)
  {
    if w.disk.inflight.Some? {
      ProcessTransfers(w, w.disk.inflight.value, input.refetch, input.budget, sha, receiptOf);
    } else if input.claim.Some? && input.claim.value.id !in w.server.completed {
      var f := Discover(w.disk.cursors, input.claim.value, input.discovery, input.maxBytes, sha);
      if f.Some? && input.budget > 0 {
        DiscoveredFits(w, input.claim.value, input.discovery, input.maxBytes, sha);
        assert Receipts(f.value, 0, receiptOf) == [];
        var u := w.(disk := w.disk.(inflight := Some(f.value)));
        assert WorldOk(u, receiptOf) && UploadsOk(u, sha);
        ProcessTransfers(u, f.value, input.refetch, input.budget - 1, sha, receiptOf);
      }
    }
  }

  lemma {:induction false} RunsTransfer(w: World, inputs: seq<RunInput>, sha: string -> string, receiptOf: ArtifactKey -> string)
    requires Injective(receiptOf) && WorldOk(w, receiptOf) && UploadsOk(w, sha) && forall input <- inputs :: ValidInput(input)
    ensures UploadsOk(RunMany(w, inputs, sha, receiptOf), sha)
    decreases |inputs|
  {
    hide RunOnce, WorldOk, UploadsOk, ValidInput, Injective;
    if inputs != [] {
      assert inputs[0] in inputs;
      RunKeeps(w, inputs[0], sha, receiptOf);
      RunTransfers(w, inputs[0], sha, receiptOf);
      RunsTransfer(RunOnce(w, inputs[0], sha, receiptOf), inputs[1..], sha, receiptOf);
    }
  }

  // ---------------------------------------------------------------- main results

  /** Over every sequence of runs and deaths, a receipt on file stands for a finalized session that holds bytes of the
      message's digest. */
  lemma ReceiptMeansUploaded(w: World, inputs: seq<RunInput>, sha: string -> string, receiptOf: ArtifactKey -> string, i: nat)
    requires Reachable(w, inputs, sha, receiptOf) && w.disk.inflight.Some? && i < |w.disk.inflight.value.receiptIds|
    ensures var f := w.disk.inflight.value;
            && i < |f.messages| && f.receiptIds[i] == receiptOf(KeyOf(f, i))
            && KeyOf(f, i) in w.server.sessions && w.server.sessions[KeyOf(f, i)].Finalized?
            && sha(w.server.sessions[KeyOf(f, i)].content) == f.messages[i].sha256
  {
    InflightReceipts(w, inputs, sha, receiptOf);
    RunsTransfer(EMPTY, inputs, sha, receiptOf);
    var f := w.disk.inflight.value;
    assert IsFinal(w.server, KeyOf(f, i), sha);
  }

  /** An accepted completion means that every one of its messages was uploaded and finalized, under the receipt it
      carries for it, and that starting, uploading and verifying were reported before. */
  lemma CompletedMeansUploaded(w: World, inputs: seq<RunInput>, sha: string -> string, receiptOf: ArtifactKey -> string, k: nat, i: nat)
    requires Reachable(w, inputs, sha, receiptOf) && k < |w.server.imports| && i < |w.server.imports[k].inflight.messages|
    ensures var e := w.server.imports[k]; var key := KeyOf(e.inflight, i);
            && key == ArtifactKey(e.inflight.job.id, e.inflight.job.attempt, e.inflight.messages[i].uid, e.inflight.messages[i].sha256)
            && |e.receipts| == |e.inflight.messages| && e.receipts[i] == receiptOf(key)
            && key in w.server.sessions && w.server.sessions[key].Finalized?
            && sha(w.server.sessions[key].content) == e.inflight.messages[i].sha256
    ensures var id := w.server.imports[k].inflight.job.id;
            forall operation | operation in {"start", "uploading", "verifying"} :: (id, operation) in w.server.operations
  {
    CompletionsCarryOneReceiptEach(w, inputs, sha, receiptOf, k);
    RunsTransfer(EMPTY, inputs, sha, receiptOf);
    var e := w.server.imports[k];
    assert ImportUploaded(w.server, e, sha);
    assert IsFinal(w.server, KeyOf(e.inflight, i), sha);
  }
}
