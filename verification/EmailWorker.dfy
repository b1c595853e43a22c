/** The IMAP importer (`workers/email/email_worker.py`): a cursor per mailbox, one in-flight record,
    and replay after a crash against a control plane that is idempotent per key. A run is a chain
    of single effects; it may die after any number of them, and the next run starts from disk. */
module EmailWorker {
  import opened Common

  /** What a mailbox shows when it is selected. Unique identifiers are positive, below UIDNEXT, and
      never reused under one UIDVALIDITY (sections 2.3.1.1 and 7.3.1 of RFC 3501). */
  datatype Mailbox = Mailbox(uidValidity: nat, uidNext: nat, messages: map<nat, string>)
  {
    ghost predicate Valid() {
      forall uid | uid in messages :: 0 < uid < uidNext
    }
  }

  datatype Evidence = Evidence(uid: nat, sha256: string, size: nat)

  const ABSOLUTE_MAX_MESSAGES := 50

  datatype Job = Job(id: string, attempt: nat, cursorKey: string, initialUid: nat, maxItems: int)
  {
    /** `message_limit`: zero or absent means the absolute maximum. */
    function Limit(): nat {
      if maxItems == 0 || maxItems > ABSOLUTE_MAX_MESSAGES then ABSOLUTE_MAX_MESSAGES
      else if maxItems < 1 then 1 else maxItems
    }
  }

  /** The in-flight record. `first` and `present`, the window start and the identifiers seen at
      discovery, are history for the proofs; the file does not hold them. */
  datatype Inflight = Inflight(
    job: Job, uidValidity: nat, messages: seq<Evidence>, receiptIds: seq<string>,
    started: bool, uploading: bool, verifying: bool, first: nat, present: set<nat>)

  datatype Cursor = Cursor(uidValidity: nat, lastUid: nat)

  datatype WorkerState = WorkerState(cursors: map<string, Cursor>, inflight: Option<Inflight>)

  // ---------------------------------------------------------------- the control plane

  /** `stable_key`: one value per (job, attempt, uid, digest). */
  datatype ArtifactKey = ArtifactKey(jobId: string, attempt: nat, uid: nat, sha256: string)

  /** An upload session, with the bytes it holds. */
  datatype Session = Created | Verified(content: string) | Finalized(content: string)

  /** A completed import as the control plane accepted it. */
  datatype Import = Import(inflight: Inflight, receipts: seq<string>)

  datatype Server = Server(
    sessions: map<ArtifactKey, Session>, operations: set<(string, string)>,
    completed: set<string>, imports: seq<Import>)

  function KeyOf(f: Inflight, i: nat): ArtifactKey
    requires i < |f.messages|
  {
    ArtifactKey(f.job.id, f.job.attempt, f.messages[i].uid, f.messages[i].sha256)
  }

  /** Opening a session again finds the one there is. */
  function OpenSession(server: Server, key: ArtifactKey): Server {
    if key in server.sessions then server else server.(sessions := server.sessions[key := Created])
  }

  /** Bytes are taken by a session that has none yet. */
  function UploadTo(server: Server, key: ArtifactKey, content: string): Server {
    if key in server.sessions && server.sessions[key].Created? then server.(sessions := server.sessions[key := Verified(content)]) else server
  }

  function FinalizeSession(server: Server, key: ArtifactKey): Server {
    if key in server.sessions && server.sessions[key].Verified?
    then server.(sessions := server.sessions[key := Finalized(server.sessions[key].content)]) else server
  }

  /** The first `complete` for a job is recorded; a repeated one changes nothing. */
  function Accept(server: Server, f: Inflight): Server {
    if f.job.id in server.completed then server
    else server.(completed := server.completed + {f.job.id}, imports := server.imports + [Import(f, f.receiptIds)])
  }

  // ---------------------------------------------------------------- one effect at a time

  datatype Pc =
    | Begin | SaveStarted | Upload | SaveUploading
    | Open(i: nat) | Put(i: nat) | Finalize(i: nat) | Note(i: nat, receipt: string)
    | Verify | SaveVerifying | Complete | Finish | Done

  /** `process_inflight` at work: its memory, the messages it fetched again, the state file, the control plane. */
  datatype Process = Process(mem: Inflight, contents: seq<string>, disk: WorkerState, server: Server, pc: Pc)
  {
    function Save(f: Inflight, next: Pc): Process {
      Process(f, contents, disk.(inflight := Some(f)), server, next)
    }

    function Tell(operation: string, next: Pc): Process {
      this.(server := server.(operations := server.operations + {(mem.job.id, operation)}), pc := next)
    }

    /** A request to the control plane that leaves it as `answered`. */
    function Ask(answered: Server, next: Pc): Process {
      this.(server := answered, pc := next)
    }
  }

  function LastUid(messages: seq<Evidence>): nat
    requires messages != []
  {
    if |messages| == 1 then messages[0].uid
    else
      var rest := LastUid(messages[..|messages| - 1]);
      if messages[|messages| - 1].uid > rest then messages[|messages| - 1].uid else rest
  }

  /** Lines 582-593: the cursor moves to the largest imported identifier; an empty first import
      still creates a cursor, at zero. */
  function MoveCursor(cursors: map<string, Cursor>, f: Inflight): map<string, Cursor> {
    if f.messages != [] then cursors[f.job.cursorKey := Cursor(f.uidValidity, LastUid(f.messages))]
    else if f.job.cursorKey !in cursors then cursors[f.job.cursorKey := Cursor(f.uidValidity, 0)]
    else cursors
  }

  function Advance(p: Process, receiptOf: ArtifactKey -> string): Process {
    var f := p.mem;
    match p.pc
    case Begin => if f.started then p.(pc := Upload) else p.Tell("start", SaveStarted)
    case SaveStarted => p.Save(f.(started := true), Upload)
    case Upload => if f.uploading then p.(pc := Open(0)) else p.Tell("uploading", SaveUploading)
    case SaveUploading => p.Save(f.(uploading := true), Open(0))
    case Open(i) =>
      if i >= |f.messages| then p.(pc := Verify)
      else
        var key := KeyOf(f, i);
        if key !in p.server.sessions then p.Ask(OpenSession(p.server, key), Put(i))
        else
          match p.server.sessions[key] {
            case Created => p.(pc := Put(i))
            case Verified(_) => p.(pc := Finalize(i))
            case Finalized(_) => p.(pc := Note(i, receiptOf(key)))
          }
    case Put(i) =>
      if i >= |f.messages| || i >= |p.contents| then p else p.Ask(UploadTo(p.server, KeyOf(f, i), p.contents[i]), Finalize(i))
    case Finalize(i) => if i >= |f.messages| then p else p.Ask(FinalizeSession(p.server, KeyOf(f, i)), Note(i, receiptOf(KeyOf(f, i))))
    case Note(i, receipt) =>
      if receipt in f.receiptIds then p.(pc := Open(i + 1))
      else p.Save(f.(receiptIds := f.receiptIds + [receipt]), Open(i + 1))
    case Verify => if f.verifying then p.(pc := Complete) else p.Tell("verifying", SaveVerifying)
    case SaveVerifying => p.Save(f.(verifying := true), Complete)
    case Complete => p.(server := Accept(p.server, f), pc := Finish)
    case Finish => p.(disk := WorkerState(MoveCursor(p.disk.cursors, f), None), pc := Done)
    case Done => p
  }

  function Steps(p: Process, n: nat, receiptOf: ArtifactKey -> string): Process
    decreases n
  {
    if n == 0 then p else Steps(Advance(p, receiptOf), n - 1, receiptOf)
  }

  // ---------------------------------------------------------------- discovery

  /** The `limit` smallest identifiers from `first` on. */
  function Batch(uids: set<nat>, first: nat, hi: nat, limit: nat): seq<nat>
    decreases if first < hi then hi - first else 0
  {
    if first >= hi || limit == 0 then []
    else if first in uids then [first] + Batch(uids, first + 1, hi, limit - 1)
    else Batch(uids, first + 1, hi, limit)
  }

  function FirstUid(cursors: map<string, Cursor>, job: Job): nat {
    if job.cursorKey in cursors then cursors[job.cursorKey].lastUid + 1 else job.initialUid
  }

  /** `build_inflight` over the fetched contents. */
  function EvidenceFor(box: Mailbox, uids: seq<nat>, sha: string -> string): seq<Evidence>
    requires forall uid <- uids :: uid in box.messages
  {
    seq(|uids|, i requires 0 <= i < |uids| => Evidence(uids[i], sha(box.messages[uids[i]]), |box.messages[uids[i]]|))
  }

  lemma {:induction false} BatchPresent(uids: set<nat>, first: nat, hi: nat, limit: nat)
    ensures forall uid <- Batch(uids, first, hi, limit) :: uid in uids
    decreases if first < hi then hi - first else 0
  {
    if first < hi && limit > 0 {
      BatchPresent(uids, first + 1, hi, if first in uids then limit - 1 else limit);
    }
  }

  /** `discover_new_messages` and `build_inflight`: `None` where the source raises. */
  function Discover(cursors: map<string, Cursor>, job: Job, box: Mailbox, maxBytes: nat, sha: string -> string): Option<Inflight> {
    var uids := Batch(box.messages.Keys, FirstUid(cursors, job), box.uidNext, job.Limit());
    BatchPresent(box.messages.Keys, FirstUid(cursors, job), box.uidNext, job.Limit());
    if job.cursorKey in cursors && cursors[job.cursorKey].uidValidity != box.uidValidity then None
    else if exists uid <- uids :: box.messages[uid] == "" || |box.messages[uid]| > maxBytes then None
    else Some(Inflight(job, box.uidValidity, EvidenceFor(box, uids, sha), [], false, false, false,
                       FirstUid(cursors, job), box.messages.Keys))
  }

  /** `refetch_and_verify` raises nothing. */
  predicate Replayable(box: Mailbox, f: Inflight, sha: string -> string) {
    && box.uidValidity == f.uidValidity
    && forall m <- f.messages :: m.uid in box.messages && |box.messages[m.uid]| == m.size && sha(box.messages[m.uid]) == m.sha256
  }

  /** What it returns then. */
  function Refetched(box: Mailbox, f: Inflight, sha: string -> string): seq<string>
    requires Replayable(box, f, sha)
  {
    seq(|f.messages|, i requires 0 <= i < |f.messages| => box.messages[f.messages[i].uid])
  }

  // ---------------------------------------------------------------- runs

  datatype World = World(disk: WorkerState, server: Server)

  /** What one run meets: a claimable job, the mailbox at discovery and again at processing, and
      after how many effects it dies. */
  datatype RunInput = RunInput(claim: Option<Job>, discovery: Mailbox, refetch: Mailbox, maxBytes: nat, budget: nat)

  function ProcessInflight(w: World, f: Inflight, box: Mailbox, budget: nat, sha: string -> string, receiptOf: ArtifactKey -> string): World {
    if !Replayable(box, f, sha) then w
    else
      var p := Steps(Process(f, Refetched(box, f, sha), w.disk, w.server, Begin), budget, receiptOf);
      World(p.disk, p.server)
  }

  function RunOnce(w: World, input: RunInput, sha: string -> string, receiptOf: ArtifactKey -> string): World {
    if w.disk.inflight.Some? then ProcessInflight(w, w.disk.inflight.value, input.refetch, input.budget, sha, receiptOf)
    else if input.claim.None? || input.claim.value.id in w.server.completed then w
    else
      var f := Discover(w.disk.cursors, input.claim.value, input.discovery, input.maxBytes, sha);
      if f.None? || input.budget == 0 then w
      else ProcessInflight(w.(disk := w.disk.(inflight := Some(f.value))), f.value, input.refetch, input.budget - 1, sha, receiptOf)
  }

  function RunMany(w: World, inputs: seq<RunInput>, sha: string -> string, receiptOf: ArtifactKey -> string): World
    decreases |inputs|
  {
    if inputs == [] then w else RunMany(RunOnce(w, inputs[0], sha, receiptOf), inputs[1..], sha, receiptOf)
  }

  const EMPTY := World(WorkerState(map[], None), Server(map[], {}, {}, []))
}
