/** One run of the resumable live pilot and any sequence of such runs, with a crash possible
    between any two effects (`apps/worker/src/adk-live-pilot-resume.ts`). A checkpoint save writes
    a temporary file and renames it, so a crash leaves either the old file or the new one. */
module LivePilotRun {
  import opened Common
  import opened LivePilotCheckpoint

  datatype Plan = Plan(pilotId: string, approvalRef: string, assignmentIds: seq<string>, providers: seq<string>)

  // ---------------------------------------------------------------- the outside world

  datatype Persistence = Persistence(lineage: Lineage, rawReceiptId: string, markdownReceiptId: string, bytes: int)

  datatype Acquisition = Acquisition(
    assignmentId: string, submissionProvider: string, artifactProvider: string, submissionId: string, artifactId: string)

  datatype PersistAnswer =
    | DiesInPersist
    | PersistThrows
    | Persists(stored: Persistence, diesBeforeSave: bool)

  datatype CallAnswer =
    | DiesInCall
    | ProviderError(code: string, retryable: bool, diesBeforeClearing: bool)
    | OtherException
    | Acquires(acquisition: Acquisition, answer: PersistAnswer)

  /** What happens when the loop reaches a cell that is not yet durable. */
  datatype CellScript =
    | AdapterMissing | AdapterMismatch
    | DiesBeforeIntent
    | DiesAfterIntent
    | Calls(call: CallAnswer)

  /** Everything one run depends on besides the plan and the disk. */
  datatype Env = Env(
    isTime: string -> bool, clock: nat -> string, runIdOf: (Plan, string) -> string,
    diesBeforeCreate: bool, verifies: DurableCell -> bool, assignments: set<string>, script: nat -> CellScript)

  // ---------------------------------------------------------------- disk and call log

  /** A provider call: its cell, what was on disk when it was made, and what came of it. */
  datatype Event = Event(cell: nat, assignmentId: string, provider: Provider, onDisk: Option<Json>, answer: CallAnswer)

  datatype World = World(disk: Option<Json>, log: seq<Event>)

  datatype Receipt = Receipt(
    assignmentId: string, provider: Provider, status: string, submissionId: Option<string>, artifactId: Option<string>,
    errorCode: Option<string>, retryable: Option<bool>)

  datatype PilotResult = PilotResult(
    runId: string, receipts: seq<Receipt>, lineage: seq<Lineage>, artifactReceiptIds: seq<string>,
    bytesPrepared: int, durableCellCount: nat, completed: bool)

  datatype Outcome = Crashed | Threw(code: string) | Returned(result: PilotResult)

  // ---------------------------------------------------------------- results

  function ReceiptOf(cell: DurableCell): Receipt {
    Receipt(cell.lineage.assignmentId, cell.lineage.provider, "EXECUTED", Some(cell.lineage.submissionId),
            Some(cell.lineage.distilledArtifactId), None, None)
  }

  function ReceiptsOf(cells: seq<DurableCell>): seq<Receipt> {
    seq(|cells|, i requires 0 <= i < |cells| => ReceiptOf(cells[i]))
  }

  function LineageOf(cells: seq<DurableCell>): seq<Lineage> {
    seq(|cells|, i requires 0 <= i < |cells| => cells[i].lineage)
  }

  function ReceiptIdsOf(cells: seq<DurableCell>): seq<string> {
    if cells == [] then []
    else ReceiptIdsOf(cells[..|cells| - 1]) + [cells[|cells| - 1].rawProviderReceiptId, cells[|cells| - 1].markdownReceiptId]
  }

  function BytesOf(cells: seq<DurableCell>): int {
    if cells == [] then 0 else BytesOf(cells[..|cells| - 1]) + cells[|cells| - 1].bytesPrepared
  }

  function ResultFrom(c: Checkpoint, failure: Option<Receipt>): PilotResult {
    PilotResult(c.runId, ReceiptsOf(c.cells) + (if failure.Some? then [failure.value] else []), LineageOf(c.cells),
                ReceiptIdsOf(c.cells), BytesOf(c.cells), |c.cells|, |c.cells| == 6 && failure.None?)
  }

  // ---------------------------------------------------------------- one cell

  /** The i-th cell of the assignment x provider loop. */
  function ProviderAt(i: nat): Provider {
    if i % 2 == 0 then DEEPSEEK else OPENAI
  }

  predicate HasCell(cells: seq<DurableCell>, assignmentId: string, provider: Provider) {
    exists cell <- cells :: CellKey(cell.lineage.assignmentId, cell.lineage.provider) == CellKey(assignmentId, provider)
  }

  predicate LineageMatches(a: Acquisition, assignmentId: string, provider: Provider) {
    a.assignmentId == assignmentId && a.submissionProvider == provider.Name() && a.artifactProvider == provider.Name()
  }

  /** The persisted lineage passes the checks of lines 406-416. */
  predicate PersistedMatches(p: Persistence, a: Acquisition, assignmentId: string, provider: Provider) {
    && p.lineage.assignmentId == assignmentId && p.lineage.provider == provider
    && p.lineage.submissionId == a.submissionId && p.lineage.distilledArtifactId == a.artifactId
    && p.rawReceiptId != "" && p.markdownReceiptId != "" && p.rawReceiptId != p.markdownReceiptId
    && 0 <= p.bytes <= MAX_SAFE_INTEGER
  }

  function CellOf(p: Persistence, recordedAt: string): DurableCell {
    DurableCell(p.lineage, p.rawReceiptId, p.markdownReceiptId, p.bytes, recordedAt)
  }

  /** The loop goes on with this checkpoint, or the run is over. */
  datatype Progress = Goes(checkpoint: Checkpoint) | Stops(outcome: Outcome)

  predicate DeliveryUncertain(code: string) {
    code == "AI_PROVIDER_NETWORK_ERROR" || code == "AI_PROVIDER_TIMEOUT"
  }

  function CallCell(c: Checkpoint, assignmentId: string, provider: Provider, i: nat, call: CallAnswer, now: string, w: World): (World, Progress)
  {
    var called := w.(log := w.log + [Event(i, assignmentId, provider, w.disk, call)]);
    match call
    case DiesInCall => (called, Stops(Crashed))
    case OtherException => (called, Stops(Threw("ADK_LIVE_PROVIDER_DELIVERY_REQUIRES_RECONCILIATION")))
    case ProviderError(code, retryable, dies) =>
      if DeliveryUncertain(code) then (called, Stops(Threw("ADK_LIVE_PROVIDER_DELIVERY_REQUIRES_RECONCILIATION")))
      else if dies then (called, Stops(Crashed))
      else
        var cleared := c.(inFlight := None, updatedAt := now);
        (called.(disk := Some(Render(cleared))),
         Stops(Returned(ResultFrom(cleared, Some(Receipt(
           assignmentId, provider, if code == "AI_PROVIDER_CREDENTIAL_MISSING" then "BLOCKED_CREDENTIAL" else "FAILED",
           None, None, Some(code), Some(retryable)))))))
    case Acquires(a, answer) =>
      if !LineageMatches(a, assignmentId, provider) then (called, Stops(Threw("ADK_LIVE_ACQUISITION_LINEAGE_MISMATCH")))
      else
        match answer
        case DiesInPersist => (called, Stops(Crashed))
        case PersistThrows => (called, Stops(Threw("ADK_LIVE_ARTIFACT_PERSISTENCE_REQUIRES_RECONCILIATION")))
        case Persists(p, dies) =>
          if !PersistedMatches(p, a, assignmentId, provider) then (called, Stops(Threw("ADK_LIVE_PERSISTED_LINEAGE_MISMATCH")))
          else if dies then (called, Stops(Crashed))
          else
            var next := c.(inFlight := None, cells := c.cells + [CellOf(p, now)], updatedAt := now);
            (called.(disk := Some(Render(next))), Goes(next))
  }

  /** A cell that is not durable yet: intent first, then the call. */
  function TryCell(c: Checkpoint, assignmentId: string, provider: Provider, i: nat, script: CellScript, now: string, w: World): (World, Progress) {
    match script
    case AdapterMissing => (w, Stops(Returned(ResultFrom(c, Some(BlockedAdapter(assignmentId, provider, "AI_PROVIDER_ADAPTER_MISSING"))))))
    case AdapterMismatch => (w, Stops(Returned(ResultFrom(c, Some(BlockedAdapter(assignmentId, provider, "AI_PROVIDER_ADAPTER_MISMATCH"))))))
    case DiesBeforeIntent => (w, Stops(Crashed))
    case DiesAfterIntent => (w.(disk := Some(Render(Intend(c, assignmentId, provider, now)))), Stops(Crashed))
    case Calls(call) =>
      var intended := Intend(c, assignmentId, provider, now);
      CallCell(intended, assignmentId, provider, i, call, now, w.(disk := Some(Render(intended))))
  }

  function BlockedAdapter(assignmentId: string, provider: Provider, code: string): Receipt {
    Receipt(assignmentId, provider, "BLOCKED_ADAPTER", None, None, Some(code), Some(false))
  }

  function Intend(c: Checkpoint, assignmentId: string, provider: Provider, now: string): Checkpoint {
    c.(inFlight := Some(InFlight(assignmentId, provider, now)), updatedAt := now)
  }

  // ---------------------------------------------------------------- one run

  /** The nested loops from cell `i` on. */
  function RunCells(plan: Plan, c: Checkpoint, i: nat, env: Env, w: World): (World, Outcome)
    requires i <= 2 * |plan.assignmentIds|
    decreases 2 * |plan.assignmentIds| - i
  {
    if i == 2 * |plan.assignmentIds| then (w, Returned(ResultFrom(c, None)))
    else
      var assignmentId, provider := plan.assignmentIds[i / 2], ProviderAt(i);
      if i % 2 == 0 && assignmentId !in env.assignments then (w, Threw("Frozen live pilot assignment was not supplied"))
      else if HasCell(c.cells, assignmentId, provider) then RunCells(plan, c, i + 1, env, w)
      else
        var (v, progress) := TryCell(c, assignmentId, provider, i, env.script(i), env.clock(i + 1), w);
        match progress
        case Stops(outcome) => (v, outcome)
        case Goes(next) => RunCells(plan, next, i + 1, env, v)
  }

  predicate MatchesPlan(c: Checkpoint, plan: Plan) {
    c.pilotId == plan.pilotId && c.approvalRef == plan.approvalRef && c.assignmentIds == plan.assignmentIds
  }

  function NewCheckpoint(plan: Plan, env: Env): Checkpoint {
    var now := env.clock(0);
    Checkpoint(plan.pilotId, plan.approvalRef, env.runIdOf(plan, now), now, plan.assignmentIds, [], None, now)
  }

  ghost function RunPilot(plan: Plan, env: Env, w: World): (World, Outcome) {
    if plan.providers != ["DEEPSEEK", "OPENAI"] then (w, Threw("ADK live pilot provider set must be exactly DEEPSEEK,OPENAI"))
    else if w.disk.None? then
      var c := NewCheckpoint(plan, env);
      if env.diesBeforeCreate then (w, Crashed) else RunCells(plan, c, 0, env, w.(disk := Some(Render(c))))
    else
      var loaded := Parse(env.isTime, w.disk.value);
      if loaded.Err? then (w, Threw(loaded.code))
      else if !MatchesPlan(loaded.value, plan) then (w, Threw("ADK live pilot checkpoint does not match the frozen plan"))
      else if loaded.value.inFlight.Some? then (w, Threw("ADK_LIVE_PROVIDER_DELIVERY_REQUIRES_RECONCILIATION"))
      else if exists cell <- loaded.value.cells :: !env.verifies(cell) then (w, Threw("durable cell was not verified"))
      else RunCells(plan, loaded.value, 0, env, w)
  }

  /** Any sequence of runs over one checkpoint file. */
  ghost function RunAll(runs: seq<(Plan, Env)>, w: World): World
    decreases |runs|
  {
    if runs == [] then w else RunAll(runs[1..], RunPilot(runs[0].0, runs[0].1, w).0)
  }

  const FRESH := World(None, [])

  // ---------------------------------------------------------------- the loops as they are written

  /** Where a save may die: while the temporary file is written, before the rename, or after it. */
  datatype SaveFate = Survives | DiesWriting | DiesBeforeRename | DiesAfterRename

  /** What a file holds: a whole document, or the part of one that was written before a crash. */
  datatype Contents = Whole(json: Json) | Torn(json: Json, bytes: nat)

  /** What `loadOrCreateCheckpoint` makes of the checkpoint file. */
  ghost function Load(isTime: string -> bool, disk: Option<Json>): Option<Result<Checkpoint>> {
    if disk.None? then None else Some(Parse(isTime, disk.value))
  }

  /** The executor with its checkpoint file, the temporary file beside it, and its call log. */
  class Executor {
    var disk: Option<Json>
    var temporary: Option<Contents>
    var log: seq<Event>

    constructor ()
      ensures disk == None && temporary == None && log == []
    {
      disk, temporary, log := None, None, [];
    }

    ghost function State(): World
      reads this`disk, this`log
    {
      World(disk, log)
    }

    /** `writeFileSync`: the file is replaced, by a part of the document if the run dies. */
    method WriteTemporary(json: Json, dies: bool, bytes: nat)
      modifies this`temporary
      ensures temporary == Some(if dies then Torn(json, bytes) else Whole(json))
    {
      temporary := Some(if dies then Torn(json, bytes) else Whole(json));
    }

    /** `renameSync`: the checkpoint file becomes what the temporary file held. */
    method Rename()
      requires temporary.Some? && temporary.value.Whole?
      modifies this`disk, this`temporary
      ensures disk == Some(old(temporary).value.json) && temporary == None
    {
      disk, temporary := Some(temporary.value.json), None;
    }

    /** `saveCheckpoint`. Wherever it dies, and whatever an earlier death left in the temporary file,
        the next run loads either exactly what it would have loaded before, or, for a well-formed
        checkpoint, this checkpoint: never a part of one, and never a mixture. */
    method SaveCheckpoint(c: Checkpoint, fate: SaveFate, bytes: nat) returns (alive: bool)
      modifies this`disk, this`temporary
      ensures alive <==> fate.Survives?
      ensures fate.DiesWriting? || fate.DiesBeforeRename? ==> disk == old(disk)
      ensures fate.Survives? || fate.DiesAfterRename? ==> disk == Some(Render(c)) && temporary == None
      ensures forall isTime :: Load(isTime, disk) == old(Load(isTime, disk))
                || if WellFormed(isTime, c) then Load(isTime, disk) == Some(Ok(c)) else Load(isTime, disk).value.Err?
    {
      forall isTime ensures if WellFormed(isTime, c) then Parse(isTime, Render(c)) == Ok(c) else Parse(isTime, Render(c)).Err? {
        RoundTrip(isTime, c);
      }
      hide Parse, Render, WellFormed;
      WriteTemporary(Render(c), fate.DiesWriting?, bytes);
      if fate.DiesWriting? || fate.DiesBeforeRename? { return false; }
      Rename();
      return fate.Survives?;
    }

    /** How the next save goes: a death before the rename may come anywhere in the writing. */
    method Dying(before: bool, after: bool) returns (fate: SaveFate, bytes: nat)
      ensures fate.DiesWriting? || fate.DiesBeforeRename? <==> before
      ensures fate.DiesAfterRename? <==> !before && after
    {
      var torn: bool := *;
      bytes := *;
      fate := if before then (if torn then DiesWriting else DiesBeforeRename) else if after then DiesAfterRename else Survives;
    }

    /** One cell, effect by effect (lines 348-434). */
    method Attempt(checkpoint: Checkpoint, assignmentId: string, provider: Provider, i: nat, script: CellScript, now: string)
      returns (progress: Progress)
      modifies this
      ensures (State(), progress) == TryCell(checkpoint, assignmentId, provider, i, script, now, old(State()))
    {
      if script.AdapterMissing? {
        return Stops(Returned(ResultFrom(checkpoint, Some(BlockedAdapter(assignmentId, provider, "AI_PROVIDER_ADAPTER_MISSING")))));
      }
      if script.AdapterMismatch? {
        return Stops(Returned(ResultFrom(checkpoint, Some(BlockedAdapter(assignmentId, provider, "AI_PROVIDER_ADAPTER_MISMATCH")))));
      }
      hide Render, Parse, WellFormed, ResultFrom, CallCell;
      var current := checkpoint.(inFlight := Some(InFlight(assignmentId, provider, now)), updatedAt := now);
      var fate, bytes := Dying(script.DiesBeforeIntent?, script.DiesAfterIntent?);
      var alive := SaveCheckpoint(current, fate, bytes);
      if !alive {
        return Stops(Crashed);
      }

      progress := Acquire(current, assignmentId, provider, i, script.call, now);
    }

    /** The call itself and what follows it (lines 361-434), `checkpoint` recording the cell as in flight. */
    method Acquire(checkpoint: Checkpoint, assignmentId: string, provider: Provider, i: nat, call: CallAnswer, now: string)
      returns (progress: Progress)
      modifies this
      ensures (State(), progress) == CallCell(checkpoint, assignmentId, provider, i, call, now, old(State()))
    {
      hide Render, Parse, WellFormed, ResultFrom;
      var current := checkpoint;
      var alive, fate, bytes;
      log := log + [Event(i, assignmentId, provider, disk, call)];
      if call.DiesInCall? {
        return Stops(Crashed);
      }
      if call.OtherException? || (call.ProviderError? && DeliveryUncertain(call.code)) {
        return Stops(Threw("ADK_LIVE_PROVIDER_DELIVERY_REQUIRES_RECONCILIATION"));
      }
      if call.ProviderError? {
        current := current.(inFlight := None, updatedAt := now);
        fate, bytes := Dying(call.diesBeforeClearing, false);
        alive := SaveCheckpoint(current, fate, bytes);
        if !alive {
          return Stops(Crashed);
        }
        return Stops(Returned(ResultFrom(current, Some(Receipt(
          assignmentId, provider, if call.code == "AI_PROVIDER_CREDENTIAL_MISSING" then "BLOCKED_CREDENTIAL" else "FAILED",
          None, None, Some(call.code), Some(call.retryable))))));
      }
      if !LineageMatches(call.acquisition, assignmentId, provider) {
        return Stops(Threw("ADK_LIVE_ACQUISITION_LINEAGE_MISMATCH"));
      }
      var answer := call.answer;
      if answer.DiesInPersist? {
        return Stops(Crashed);
      }
      if answer.PersistThrows? {
        return Stops(Threw("ADK_LIVE_ARTIFACT_PERSISTENCE_REQUIRES_RECONCILIATION"));
      }
      if !PersistedMatches(answer.stored, call.acquisition, assignmentId, provider) {
        return Stops(Threw("ADK_LIVE_PERSISTED_LINEAGE_MISMATCH"));
      }
      current := current.(inFlight := None, cells := current.cells + [CellOf(answer.stored, now)], updatedAt := now);
      fate, bytes := Dying(answer.diesBeforeSave, false);
      alive := SaveCheckpoint(current, fate, bytes);
      if !alive {
        return Stops(Crashed);
      }
      progress := Goes(current);
    }

    /** The body of the inner loop: skip a durable cell, otherwise attempt it. */
    method LoopBody(plan: Plan, checkpoint: Checkpoint, durableByKey: set<string>, i: nat, env: Env)
      returns (done: Option<Outcome>, next: Checkpoint, index: set<string>)
      requires i < 2 * |plan.assignmentIds| && plan.assignmentIds[i / 2] in env.assignments
      requires IndexOf(durableByKey, checkpoint.cells)
      modifies this
      ensures done.Some? ==> (State(), done.value) == RunCells(plan, checkpoint, i, env, old(State()))
      ensures done.None? ==> && IndexOf(index, next.cells)
                             && RunCells(plan, next, i + 1, env, State()) == RunCells(plan, checkpoint, i, env, old(State()))
    {
      var assignmentId, provider := plan.assignmentIds[i / 2], ProviderAt(i);
      IndexedCell(durableByKey, checkpoint.cells, assignmentId, provider);
      done, next, index := None, checkpoint, durableByKey;
      RunCellsAt(plan, checkpoint, i, env, State());
      hide RunCells, TryCell, Render, CellKey, HasCell, ResultFrom, IndexOf;
      if CellKey(assignmentId, provider) !in durableByKey {
        ghost var before := State();
        var progress := Attempt(checkpoint, assignmentId, provider, i, env.script(i), env.clock(i + 1));
        if progress.Stops? {
          done := Some(progress.outcome);
        } else {
          TryCellGoes(checkpoint, assignmentId, provider, i, env.script(i), env.clock(i + 1), before);
          IndexGrows(durableByKey, checkpoint.cells, progress.checkpoint.cells[|checkpoint.cells|]);
          next, index := progress.checkpoint, durableByKey + {CellKey(assignmentId, provider)};
        }
      }
    }

    /** The nested loops of lines 338-438: what they leave on disk and in the log, and what they
        return, is what `RunCells` says from the first cell on. */
    method RunLoops(plan: Plan, start: Checkpoint, env: Env) returns (outcome: Outcome)
      modifies this
      ensures (State(), outcome) == RunCells(plan, start, 0, env, old(State()))
    {
      var checkpoint := start;
      var durableByKey := set cell <- start.cells :: CellKey(cell.lineage.assignmentId, cell.lineage.provider);
      hide CellKey, HasCell, TryCell, RunCells, IndexOf, ResultFrom;
      assert IndexOf(durableByKey, start.cells) by {
        IndexStarts(start.cells);
      }
      for a := 0 to |plan.assignmentIds|
        invariant IndexOf(durableByKey, checkpoint.cells)
        invariant RunCells(plan, checkpoint, 2 * a, env, State()) == RunCells(plan, start, 0, env, old(State()))
      {
        if plan.assignmentIds[a] !in env.assignments {
          MissingAssignment(plan, checkpoint, a, env, State());
          return Threw("Frozen live pilot assignment was not supplied");
        }
        for p := 0 to 2
          invariant IndexOf(durableByKey, checkpoint.cells)
          invariant RunCells(plan, checkpoint, 2 * a + p, env, State()) == RunCells(plan, start, 0, env, old(State()))
        {
          var done: Option<Outcome>;
          done, checkpoint, durableByKey := LoopBody(plan, checkpoint, durableByKey, 2 * a + p, env);
          if done.Some? {
            return done.value;
          }
        }
      }
      AllCellsDone(plan, checkpoint, env, State());
      outcome := Returned(ResultFrom(checkpoint, None));
    }
  }

  /** One step of the recursion over cells. */
  lemma RunCellsAt(plan: Plan, c: Checkpoint, i: nat, env: Env, w: World)
    requires i < 2 * |plan.assignmentIds| && plan.assignmentIds[i / 2] in env.assignments
    ensures var assignmentId, provider := plan.assignmentIds[i / 2], ProviderAt(i);
            var (v, progress) := TryCell(c, assignmentId, provider, i, env.script(i), env.clock(i + 1), w);
            && (HasCell(c.cells, assignmentId, provider) ==> RunCells(plan, c, i, env, w) == RunCells(plan, c, i + 1, env, w))
            && (!HasCell(c.cells, assignmentId, provider) && progress.Stops? ==> RunCells(plan, c, i, env, w) == (v, progress.outcome))
            && (!HasCell(c.cells, assignmentId, provider) && progress.Goes? ==>
                  RunCells(plan, c, i, env, w) == RunCells(plan, progress.checkpoint, i + 1, env, v))
  {
    hide TryCell, HasCell;
  }

  lemma IndexStarts(cells: seq<DurableCell>)
    ensures IndexOf(set cell <- cells :: CellKey(cell.lineage.assignmentId, cell.lineage.provider), cells)
  {
  }

  lemma MissingAssignment(plan: Plan, c: Checkpoint, a: nat, env: Env, w: World)
    requires a < |plan.assignmentIds| && plan.assignmentIds[a] !in env.assignments
    ensures RunCells(plan, c, 2 * a, env, w) == (w, Threw("Frozen live pilot assignment was not supplied"))
  {
  }

  lemma AllCellsDone(plan: Plan, c: Checkpoint, env: Env, w: World)
    ensures RunCells(plan, c, 2 * |plan.assignmentIds|, env, w) == (w, Returned(ResultFrom(c, None)))
  {
  }

  /** A cell the loop goes on from is durable, on disk, and recorded as stored. */
  lemma TryCellGoes(c: Checkpoint, assignmentId: string, provider: Provider, i: nat, script: CellScript, now: string, w: World)
    requires TryCell(c, assignmentId, provider, i, script, now, w).1.Goes?
    ensures var (v, progress) := TryCell(c, assignmentId, provider, i, script, now, w);
            var p := script.call.answer.stored;
            && p.lineage.assignmentId == assignmentId && p.lineage.provider == provider
            && progress.checkpoint == c.(inFlight := None, cells := c.cells + [CellOf(p, now)], updatedAt := now)
            && v == World(Some(Render(progress.checkpoint)),
                          w.log + [Event(i, assignmentId, provider, Some(Render(Intend(c, assignmentId, provider, now))), script.call)])
  {
    hide Render, ResultFrom, DeliveryUncertain, LineageMatches;
  }

  lemma IndexGrows(keys: set<string>, cells: seq<DurableCell>, cell: DurableCell)
    requires IndexOf(keys, cells)
    ensures IndexOf(keys + {CellKey(cell.lineage.assignmentId, cell.lineage.provider)}, cells + [cell])
  {
    assert forall x :: x in cells + [cell] <==> x in cells || x == cell;
  }

  ghost predicate IndexOf(keys: set<string>, cells: seq<DurableCell>) {
    keys == set cell <- cells :: CellKey(cell.lineage.assignmentId, cell.lineage.provider)
  }

  lemma IndexedCell(keys: set<string>, cells: seq<DurableCell>, assignmentId: string, provider: Provider)
    requires IndexOf(keys, cells)
    ensures CellKey(assignmentId, provider) in keys <==> HasCell(cells, assignmentId, provider)
  {
  }
}
