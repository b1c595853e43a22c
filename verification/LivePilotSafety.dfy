/** What holds of the live pilot over every sequence of runs, crashes included. */
module LivePilotSafety {
  import opened Common
  import opened LivePilotCheckpoint
  import opened LivePilotRun

  ghost predicate Distinct(ids: seq<string>) {
    forall i, j | 0 <= i < j < |ids| :: ids[i] != ids[j]
  }

  /** Every plan the pilot accepts names three distinct assignments. */
  ghost predicate ValidPlan(plan: Plan) {
    |plan.assignmentIds| == 3 && Distinct(plan.assignmentIds)
  }

  ghost predicate IsCell(ids: seq<string>, k: nat, assignmentId: string, provider: Provider) {
    k < 2 * |ids| && assignmentId == ids[k / 2] && provider == ProviderAt(k)
  }

  /** The durable cells are a prefix of the plan's order, and at most the next one is in flight. */
  ghost predicate CheckpointOk(c: Checkpoint) {
    && Distinct(c.assignmentIds) && |c.cells| <= 2 * |c.assignmentIds|
    && (forall k | 0 <= k < |c.cells| :: IsCell(c.assignmentIds, k, c.cells[k].lineage.assignmentId, c.cells[k].lineage.provider))
    && (c.inFlight.Some? ==> IsCell(c.assignmentIds, |c.cells|, c.inFlight.value.assignmentId, c.inFlight.value.provider))
  }

  /** The call was made while the file on disk recorded exactly this cell as in flight. */
  ghost predicate CalledInFlight(e: Event) {
    exists c: Checkpoint :: e.onDisk == Some(Render(c)) && c.inFlight.Some?
      && c.inFlight.value.assignmentId == e.assignmentId && c.inFlight.value.provider == e.provider
  }

  /** The provider reported an error after which the request is known not to have been carried out, and the run lived to
      clear the in-flight record. */
  predicate Cleared(answer: CallAnswer) {
    && answer.ProviderError? && answer.code != "AI_PROVIDER_TIMEOUT" && answer.code != "AI_PROVIDER_NETWORK_ERROR"
    && !answer.diesBeforeClearing
  }

  predicate OwnResult(assignmentId: string, provider: Provider, a: Acquisition) {
    a.assignmentId == assignmentId && a.submissionProvider == provider.Name() && a.artifactProvider == provider.Name()
  }

  predicate OwnPersistence(assignmentId: string, provider: Provider, a: Acquisition, p: Persistence) {
    && p.lineage.assignmentId == assignmentId && p.lineage.provider == provider
    && p.lineage.submissionId == a.submissionId && p.lineage.distilledArtifactId == a.artifactId
    && p.rawReceiptId != "" && p.markdownReceiptId != "" && p.rawReceiptId != p.markdownReceiptId
    && 0 <= p.bytes <= 9007199254740991
  }

  /** The call returned a result of its own cell, which was persisted as such under two different receipts, and the
      run lived to save it. */
  predicate Succeeds(e: Event) {
    && e.answer.Acquires? && OwnResult(e.assignmentId, e.provider, e.answer.acquisition)
    && e.answer.answer.Persists? && !e.answer.answer.diesBeforeSave
    && OwnPersistence(e.assignmentId, e.provider, e.answer.acquisition, e.answer.answer.stored)
  }

  /** What the successful calls stored, in order. */
  function StoredOf(log: seq<Event>): seq<Persistence> {
    if log == [] then []
    else StoredOf(log[..|log| - 1]) + if Succeeds(log[|log| - 1]) then [log[|log| - 1].answer.answer.stored] else []
  }

  function PersistenceOf(cell: DurableCell): Persistence {
    Persistence(cell.lineage, cell.rawProviderReceiptId, cell.markdownReceiptId, cell.bytesPrepared)
  }

  function PersistencesOf(cells: seq<DurableCell>): seq<Persistence> {
    seq(|cells|, k requires 0 <= k < |cells| => PersistenceOf(cells[k]))
  }

  ghost predicate EventOk(c: Checkpoint, e: Event) {
    && e.cell <= |c.cells| && IsCell(c.assignmentIds, e.cell, e.assignmentId, e.provider)
    && CalledInFlight(e)
    && (e.cell == |c.cells| ==> Cleared(e.answer) || (!Succeeds(e) && c.inFlight.Some?))
    && (e.cell < |c.cells| ==> Cleared(e.answer) || Succeeds(e))
  }

  ghost predicate LogOk(c: Checkpoint, log: seq<Event>) {
    && (forall k | 0 <= k < |log| :: EventOk(c, log[k]))
    && (forall j, k | 0 <= j < k < |log| && !Cleared(log[j].answer) :: log[j].cell < log[k].cell)
    && StoredOf(log) == PersistencesOf(c.cells)
  }

  ghost predicate Good(c: Checkpoint, w: World) {
    w.disk == Some(Render(c)) && CheckpointOk(c) && LogOk(c, w.log)
  }

  ghost predicate WorldOk(w: World) {
    w == FRESH || exists c :: Good(c, w)
  }

  // ---------------------------------------------------------------- one cell

  lemma IsCellDistinct(ids: seq<string>, j: nat, k: nat, assignmentId: string, provider: Provider)
    requires Distinct(ids) && IsCell(ids, j, assignmentId, provider) && IsCell(ids, k, assignmentId, provider)
    ensures j == k
  {
    assert j / 2 == k / 2;
    assert j % 2 == k % 2;
  }

  /** The next undone cell is exactly the one after the durable prefix. */
  lemma HasCellIsPrefix(c: Checkpoint, i: nat)
    requires CheckpointOk(c) && i < 2 * |c.assignmentIds|
    ensures HasCell(c.cells, c.assignmentIds[i / 2], ProviderAt(i)) <==> i < |c.cells|
  {
    var assignmentId, provider := c.assignmentIds[i / 2], ProviderAt(i);
    if i < |c.cells| {
      assert IsCell(c.assignmentIds, i, c.cells[i].lineage.assignmentId, c.cells[i].lineage.provider);
      assert c.cells[i] in c.cells;
    }
    if HasCell(c.cells, assignmentId, provider) {
      var cell :| cell in c.cells && CellKey(cell.lineage.assignmentId, cell.lineage.provider) == CellKey(assignmentId, provider);
      var k :| 0 <= k < |c.cells| && c.cells[k] == cell;
      CellKeyInjective(cell.lineage.assignmentId, cell.lineage.provider, assignmentId, provider);
      IsCellDistinct(c.assignmentIds, k, i, assignmentId, provider);
    }
  }

  lemma StoredAppend(log: seq<Event>, e: Event)
    ensures StoredOf(log + [e]) == StoredOf(log) + if Succeeds(e) then [e.answer.answer.stored] else []
  {
    assert (log + [e])[..|log|] == log;
  }

  /** The log grows by a call of the next cell, with the matching checkpoint left behind. */
  lemma EventAppended(c: Checkpoint, next: Checkpoint, log: seq<Event>, e: Event)
    requires CheckpointOk(c) && LogOk(c, log) && c.inFlight.None? && CheckpointOk(next) && next.assignmentIds == c.assignmentIds
    requires e.cell == |c.cells| && EventOk(next, e)
    requires if Succeeds(e) then |next.cells| == |c.cells| + 1 && PersistencesOf(next.cells) == PersistencesOf(c.cells) + [e.answer.answer.stored]
             else next.cells == c.cells
    ensures LogOk(next, log + [e])
  {
    StoredAppend(log, e);
    hide StoredOf, PersistencesOf, CalledInFlight, IsCell;
    var all := log + [e];
    forall k | 0 <= k < |all| ensures EventOk(next, all[k]) {
      if k < |log| {
        assert EventOk(c, log[k]);
        OldEventStays(c, next, log[k]);
      }
    }
    hide CheckpointOk;
    forall j, k | 0 <= j < k < |all| && !Cleared(all[j].answer) ensures all[j].cell < all[k].cell {
      assert EventOk(c, log[j]);
    }
  }

  /** An event of a checkpoint without an open call is one of every later checkpoint. */
  lemma OldEventStays(c: Checkpoint, next: Checkpoint, e: Event)
    requires EventOk(c, e) && c.inFlight.None? && next.assignmentIds == c.assignmentIds && |c.cells| <= |next.cells|
    ensures EventOk(next, e)
  {
    hide CalledInFlight, IsCell;
  }

  /** The log stays in order when only the in-flight record is added. */
  lemma IntentKeeps(c: Checkpoint, next: Checkpoint, log: seq<Event>)
    requires LogOk(c, log) && c.inFlight.None? && next.cells == c.cells && next.assignmentIds == c.assignmentIds
    ensures LogOk(next, log)
  {
    forall k | 0 <= k < |log| ensures EventOk(next, log[k]) {
      assert EventOk(c, log[k]);
    }
  }

  /** How a run ends with a call that did not succeed, `c` being the checkpoint without the in-flight record. */
  function OutcomeOf(assignmentId: string, provider: Provider, answer: CallAnswer, c: Checkpoint): Outcome {
    match answer
    case DiesInCall => Crashed
    case OtherException => Threw("ADK_LIVE_PROVIDER_DELIVERY_REQUIRES_RECONCILIATION")
    case ProviderError(code, retryable, dies) =>
      if code == "AI_PROVIDER_TIMEOUT" || code == "AI_PROVIDER_NETWORK_ERROR" then Threw("ADK_LIVE_PROVIDER_DELIVERY_REQUIRES_RECONCILIATION")
      else if dies then Crashed
      else Returned(ResultFrom(c, Some(Receipt(
        assignmentId, provider, if code == "AI_PROVIDER_CREDENTIAL_MISSING" then "BLOCKED_CREDENTIAL" else "FAILED",
        None, None, Some(code), Some(retryable)))))
    case Acquires(a, persisted) =>
      if !OwnResult(assignmentId, provider, a) then Threw("ADK_LIVE_ACQUISITION_LINEAGE_MISMATCH")
      else if persisted.PersistThrows? then Threw("ADK_LIVE_ARTIFACT_PERSISTENCE_REQUIRES_RECONCILIATION")
      else if persisted.Persists? && !OwnPersistence(assignmentId, provider, a, persisted.stored) then Threw("ADK_LIVE_PERSISTED_LINEAGE_MISMATCH")
      else Crashed
  }

  /** A call is logged as it was made and answered. It succeeds and its cell becomes durable, or the run is over; only
      after a definite failure, and unless the run dies first, is the in-flight record cleared. */
  lemma CallCellCases(c: Checkpoint, assignmentId: string, provider: Provider, i: nat, call: CallAnswer, now: string, w: World)
    ensures var (v, progress) := CallCell(c, assignmentId, provider, i, call, now, w);
            var e, cleared := Event(i, assignmentId, provider, w.disk, call), c.(inFlight := None, updatedAt := now);
            && v.log == w.log + [e]
            && if Succeeds(e) then
                 var next := cleared.(cells := c.cells + [CellOf(call.answer.stored, now)]);
                 progress == Goes(next) && v.disk == Some(Render(next))
               else
                 && progress == Stops(OutcomeOf(assignmentId, provider, call, cleared))
                 && v.disk == if Cleared(call) then Some(Render(cleared)) else w.disk
  {
    hide Render, ResultFrom;
  }

  /** The event of calling the next cell. */
  function NextCall(c: Checkpoint, i: nat, call: CallAnswer, now: string): Event
    requires i / 2 < |c.assignmentIds|
  {
    Event(i, c.assignmentIds[i / 2], ProviderAt(i), Some(Render(Intend(c, c.assignmentIds[i / 2], ProviderAt(i), now))), call)
  }

  lemma IntendedKeeps(c: Checkpoint, i: nat, now: string, w: World)
    requires Good(c, w) && c.inFlight.None? && i == |c.cells| < 2 * |c.assignmentIds|
    ensures var intended := Intend(c, c.assignmentIds[i / 2], ProviderAt(i), now); Good(intended, World(Some(Render(intended)), w.log))
  {
    hide Render, CalledInFlight;
    IntentKeeps(c, Intend(c, c.assignmentIds[i / 2], ProviderAt(i), now), w.log);
  }

  lemma UnresolvedKeeps(c: Checkpoint, i: nat, call: CallAnswer, now: string, w: World)
    requires Good(c, w) && c.inFlight.None? && i == |c.cells| < 2 * |c.assignmentIds| && !Succeeds(NextCall(c, i, call, now))
    ensures var intended := Intend(c, c.assignmentIds[i / 2], ProviderAt(i), now);
            Good(intended, World(Some(Render(intended)), w.log + [NextCall(c, i, call, now)]))
  {
    var intended := Intend(c, c.assignmentIds[i / 2], ProviderAt(i), now);
    assert CalledInFlight(NextCall(c, i, call, now));
    hide Render, CalledInFlight, Succeeds;
    EventAppended(c, intended, w.log, NextCall(c, i, call, now));
  }

  lemma ClearedKeeps(c: Checkpoint, i: nat, call: CallAnswer, now: string, w: World)
    requires Good(c, w) && c.inFlight.None? && i == |c.cells| < 2 * |c.assignmentIds| && Cleared(call)
    ensures var cleared := Intend(c, c.assignmentIds[i / 2], ProviderAt(i), now).(inFlight := None, updatedAt := now);
            Good(cleared, World(Some(Render(cleared)), w.log + [NextCall(c, i, call, now)]))
  {
    assert CalledInFlight(NextCall(c, i, call, now));
    hide Render, CalledInFlight;
    EventAppended(c, Intend(c, c.assignmentIds[i / 2], ProviderAt(i), now).(inFlight := None, updatedAt := now), w.log, NextCall(c, i, call, now));
  }

  lemma StoredKeeps(c: Checkpoint, i: nat, call: CallAnswer, now: string, w: World)
    requires Good(c, w) && c.inFlight.None? && i == |c.cells| < 2 * |c.assignmentIds| && Succeeds(NextCall(c, i, call, now))
    ensures var next := Intend(c, c.assignmentIds[i / 2], ProviderAt(i), now).(inFlight := None, updatedAt := now, cells := c.cells + [CellOf(call.answer.stored, now)]);
            Good(next, World(Some(Render(next)), w.log + [NextCall(c, i, call, now)]))
  {
    var p := call.answer.stored;
    var next := Intend(c, c.assignmentIds[i / 2], ProviderAt(i), now).(inFlight := None, updatedAt := now, cells := c.cells + [CellOf(p, now)]);
    assert CalledInFlight(NextCall(c, i, call, now));
    assert p.lineage.assignmentId == c.assignmentIds[i / 2] && p.lineage.provider == ProviderAt(i);
    hide Render, CalledInFlight;
    assert PersistencesOf(next.cells) == PersistencesOf(c.cells) + [p];
    EventAppended(c, next, w.log, NextCall(c, i, call, now));
  }

  /** What the attempt at the cell after the durable ones comes to when it does not make that cell durable. */
  function StopOf(c: Checkpoint, script: CellScript): Outcome
    requires |c.cells| < 2 * |c.assignmentIds|
  {
    var assignmentId, provider := c.assignmentIds[|c.cells| / 2], ProviderAt(|c.cells|);
    match script
    case AdapterMissing =>
      Returned(ResultFrom(c, Some(Receipt(assignmentId, provider, "BLOCKED_ADAPTER", None, None, Some("AI_PROVIDER_ADAPTER_MISSING"), Some(false)))))
    case AdapterMismatch =>
      Returned(ResultFrom(c, Some(Receipt(assignmentId, provider, "BLOCKED_ADAPTER", None, None, Some("AI_PROVIDER_ADAPTER_MISMATCH"), Some(false)))))
    case DiesBeforeIntent => Crashed
    case DiesAfterIntent => Crashed
    case Calls(call) => OutcomeOf(assignmentId, provider, call, c)
  }

  /** The attempt at the next cell: it makes the call the script says, the cell becomes durable exactly when that call
      succeeds, and otherwise the run stops with the outcome and the checkpoint that belong to what happened. */
  lemma TryCellKeeps(c: Checkpoint, i: nat, script: CellScript, now: string, w: World) returns (final: Checkpoint)
    requires Good(c, w) && c.inFlight.None? && i == |c.cells| < 2 * |c.assignmentIds|
    ensures var (v, progress) := TryCell(c, c.assignmentIds[i / 2], ProviderAt(i), i, script, now, w);
            && Good(final, v)
            && v.log == (if script.Calls? then w.log + [NextCall(c, i, script.call, now)] else w.log)
            && if script.Calls? && Succeeds(NextCall(c, i, script.call, now)) then
                 progress == Goes(final) && final == c.(cells := c.cells + [CellOf(script.call.answer.stored, now)], updatedAt := now)
               else
                 && final == c.(inFlight := final.inFlight, updatedAt := final.updatedAt)
                 && progress == Stops(StopOf(final, script))
                 && (progress.outcome.Returned? ==> final.inFlight.None?)
  {
    hide CallCell, Render, Good, OwnResult, OwnPersistence;
    var assignmentId, provider := c.assignmentIds[i / 2], ProviderAt(i);
    var intended := Intend(c, assignmentId, provider, now);
    final := c;
    if script.Calls? {
      var e := NextCall(c, i, script.call, now);
      CallCellCases(intended, assignmentId, provider, i, script.call, now, w.(disk := Some(Render(intended))));
      if Succeeds(e) {
        StoredKeeps(c, i, script.call, now, w);
        final := intended.(inFlight := None, updatedAt := now, cells := c.cells + [CellOf(script.call.answer.stored, now)]);
      } else if Cleared(script.call) {
        ClearedKeeps(c, i, script.call, now, w);
        final := intended.(inFlight := None, updatedAt := now);
      } else {
        UnresolvedKeeps(c, i, script.call, now, w);
        final := intended;
        UndecidedDoesNotReturn(e, c, intended.(inFlight := None, updatedAt := now));
      }
    } else if script.DiesAfterIntent? {
      IntendedKeeps(c, i, now, w);
      final := intended;
    }
  }

  lemma UndecidedDoesNotReturn(e: Event, c: Checkpoint, d: Checkpoint)
    requires !Succeeds(e) && !Cleared(e.answer)
    ensures OutcomeOf(e.assignmentId, e.provider, e.answer, c) == OutcomeOf(e.assignmentId, e.provider, e.answer, d)
    ensures !OutcomeOf(e.assignmentId, e.provider, e.answer, c).Returned?
  {
  }

  // ---------------------------------------------------------------- one run, all runs

  /** An assignment whose cells the loops reach between cell `i` and cell `n` was not supplied. */
  ghost predicate Unsupplied(ids: seq<string>, env: Env, i: nat, n: nat) {
    exists a | 0 <= a < |ids| && i <= 2 * a <= n :: ids[a] !in env.assignments
  }

  /** The calls a run adds to the log, from the first cell that was not durable: one per cell, each as the script says,
      and each but possibly the last successful. */
  ghost predicate CallsMade(log: seq<Event>, after: seq<Event>, first: nat, durable: nat, tried: bool, env: Env) {
    && |after| == |log| + (durable - first) + (if tried && env.script(durable).Calls? then 1 else 0)
    && log <= after
    && forall k | |log| <= k < |after| ::
         var e := after[k];
         e.cell == first + k - |log| && env.script(e.cell) == Calls(e.answer) && (Succeeds(e) <==> e.cell < durable)
  }

  /** What the loops do from cell `i` on: the calls they make, the cells they add, and how they end. */
  ghost predicate RunShape(ids: seq<string>, c: Checkpoint, i: nat, env: Env, w: World, final: Checkpoint, v: World, outcome: Outcome) {
    var n, missing := |final.cells|, Unsupplied(ids, env, i, |final.cells|);
    && final.assignmentIds == ids && |c.cells| <= n <= 2 * |ids|
    && final == c.(cells := final.cells, inFlight := final.inFlight, updatedAt := final.updatedAt) && c.cells <= final.cells
    && CallsMade(w.log, v.log, |c.cells|, n, !missing && n < 2 * |ids|, env)
    && outcome == if missing then Threw("Frozen live pilot assignment was not supplied")
                  else if n == 2 * |ids| then Returned(ResultFrom(final, None))
                  else StopOf(final, env.script(n))
  }

  lemma NothingTried(ids: seq<string>, c: Checkpoint, i: nat, env: Env, w: World)
    requires c.assignmentIds == ids && i <= |c.cells| <= 2 * |ids|
    requires i == 2 * |ids| || (i % 2 == 0 && ids[i / 2] !in env.assignments)
    ensures RunShape(ids, c, i, env, w, c, w,
                     if i == 2 * |ids| then Returned(ResultFrom(c, None)) else Threw("Frozen live pilot assignment was not supplied"))
  {
    if i < 2 * |ids| {
      assert 2 * (i / 2) == i;
    }
  }

  /** One cell on, the same assignments are missing. */
  lemma UnsuppliedStep(ids: seq<string>, env: Env, i: nat, n: nat)
    requires i < 2 * |ids| && i <= n && (i % 2 == 0 ==> ids[i / 2] in env.assignments)
    ensures Unsupplied(ids, env, i, n) <==> Unsupplied(ids, env, i + 1, n)
  {
  }

  lemma Skipped(ids: seq<string>, c: Checkpoint, i: nat, env: Env, w: World, final: Checkpoint, v: World, outcome: Outcome)
    requires i < |c.cells| <= 2 * |ids| && (i % 2 == 0 ==> ids[i / 2] in env.assignments)
    requires RunShape(ids, c, i + 1, env, w, final, v, outcome)
    ensures RunShape(ids, c, i, env, w, final, v, outcome)
  {
    UnsuppliedStep(ids, env, i, |final.cells|);
    hide Unsupplied, CallsMade, StopOf;
  }

  lemma Stopped(ids: seq<string>, c: Checkpoint, env: Env, w: World, final: Checkpoint, v: World, e: Event)
    requires c.assignmentIds == ids && |c.cells| < 2 * |ids| && (|c.cells| % 2 == 0 ==> ids[|c.cells| / 2] in env.assignments)
    requires final == c.(inFlight := final.inFlight, updatedAt := final.updatedAt)
    requires if env.script(|c.cells|).Calls? then v.log == w.log + [e] && e.cell == |c.cells| && Calls(e.answer) == env.script(|c.cells|) && !Succeeds(e)
             else v.log == w.log
    ensures RunShape(ids, c, |c.cells|, env, w, final, v, StopOf(final, env.script(|c.cells|)))
  {
    hide StopOf, Succeeds;
    UnsuppliedStep(ids, env, |c.cells|, |c.cells|);
    assert !Unsupplied(ids, env, |c.cells| + 1, |c.cells|);
  }

  lemma Continued(ids: seq<string>, c: Checkpoint, env: Env, w: World, next: Checkpoint, u: World, e: Event, final: Checkpoint, v: World, outcome: Outcome)
    requires c.assignmentIds == ids && |c.cells| < 2 * |ids| && (|c.cells| % 2 == 0 ==> ids[|c.cells| / 2] in env.assignments)
    requires c.inFlight.None? && |next.cells| == |c.cells| + 1 && next == c.(cells := next.cells, updatedAt := next.updatedAt) && c.cells <= next.cells
    requires u.log == w.log + [e] && e.cell == |c.cells| && Calls(e.answer) == env.script(|c.cells|) && Succeeds(e)
    requires RunShape(ids, next, |c.cells| + 1, env, u, final, v, outcome)
    ensures RunShape(ids, c, |c.cells|, env, w, final, v, outcome)
  {
    hide StopOf, Succeeds, Unsupplied, ResultFrom;
    UnsuppliedStep(ids, env, |c.cells|, |final.cells|);
    forall k | |w.log| <= k < |v.log|
      ensures v.log[k].cell == |c.cells| + k - |w.log| && env.script(v.log[k].cell) == Calls(v.log[k].answer) && (Succeeds(v.log[k]) <==> v.log[k].cell < |final.cells|)
    {
      assert k == |w.log| ==> v.log[k] == u.log[k] == e;
    }
  }

  lemma {:induction false} RunCellsKeeps(plan: Plan, c: Checkpoint, i: nat, env: Env, w: World) returns (final: Checkpoint)
    requires Good(c, w) && c.inFlight.None? && plan.assignmentIds == c.assignmentIds && i <= 2 * |plan.assignmentIds|
    requires i <= |c.cells|
    ensures var (v, outcome) := RunCells(plan, c, i, env, w);
            && Good(final, v) && RunShape(plan.assignmentIds, c, i, env, w, final, v, outcome)
            && (outcome.Returned? ==> final.inFlight.None?)
    decreases 2 * |plan.assignmentIds| - i
  {
    hide TryCell, ResultFrom, Render, Good, HasCell, RunShape, Succeeds, StopOf;
    final := c;
    var ids := plan.assignmentIds;
    GoodIsOk(c, w);
    if i == 2 * |ids| || (i % 2 == 0 && ids[i / 2] !in env.assignments) {
      NothingTried(ids, c, i, env, w);
    } else {
      HasCellIsPrefix(c, i);
      if i < |c.cells| {
        final := RunCellsKeeps(plan, c, i + 1, env, w);
        Skipped(ids, c, i, env, w, final, RunCells(plan, c, i + 1, env, w).0, RunCells(plan, c, i + 1, env, w).1);
      } else {
        var script, now := env.script(i), env.clock(i + 1);
        var next := TryCellKeeps(c, i, script, now, w);
        var (u, progress) := TryCell(c, ids[i / 2], ProviderAt(i), i, script, now, w);
        var e := NextCall(c, i, if script.Calls? then script.call else DiesInCall, now);
        final := next;
        if progress.Goes? {
          final := RunCellsKeeps(plan, next, i + 1, env, u);
          Continued(ids, c, env, w, next, u, e, final, RunCells(plan, next, i + 1, env, u).0, RunCells(plan, next, i + 1, env, u).1);
        } else {
          Stopped(ids, c, env, w, next, u, e);
        }
      }
    }
  }

  lemma GoodIsOk(c: Checkpoint, w: World)
    requires Good(c, w)
    ensures CheckpointOk(c) && w.disk == Some(Render(c))
  {
  }

  lemma NewIsGood(plan: Plan, env: Env)
    requires ValidPlan(plan)
    ensures Good(NewCheckpoint(plan, env), World(Some(Render(NewCheckpoint(plan, env))), []))
  {
  }

  /** The run gets past the checks on the plan and on the file it finds. */
  ghost predicate Enters(plan: Plan, env: Env, c: Checkpoint) {
    && plan.providers == ["DEEPSEEK", "OPENAI"] && WellFormed(env.isTime, c)
    && c.pilotId == plan.pilotId && c.approvalRef == plan.approvalRef && c.assignmentIds == plan.assignmentIds
    && c.inFlight.None? && forall cell <- c.cells :: env.verifies(cell)
  }

  /** A run over an existing file enters the loops with the checkpoint as it was written exactly if the file is well
      formed, belongs to the plan, has nothing in flight and only cells that verify; otherwise it throws and changes
      nothing. */
  lemma LaterRunCases(plan: Plan, env: Env, c: Checkpoint, w: World)
    requires w.disk == Some(Render(c))
    ensures if Enters(plan, env, c) then RunPilot(plan, env, w) == RunCells(plan, c, 0, env, w)
            else RunPilot(plan, env, w).0 == w && RunPilot(plan, env, w).1.Threw?
  {
    RoundTrip(env.isTime, c);
    hide Parse, Render, RunCells, WellFormed, NewCheckpoint;
  }

  /** The first run over no file enters the loops with a checkpoint that names the plan and holds nothing else, unless
      it refuses the providers or dies before the file is there. */
  lemma FirstRunCases(plan: Plan, env: Env, w: World)
    requires w.disk.None?
    ensures var start := Checkpoint(plan.pilotId, plan.approvalRef, env.runIdOf(plan, env.clock(0)), env.clock(0), plan.assignmentIds, [], None, env.clock(0));
            if plan.providers == ["DEEPSEEK", "OPENAI"] && !env.diesBeforeCreate then
              RunPilot(plan, env, w) == RunCells(plan, start, 0, env, w.(disk := Some(Render(start))))
            else RunPilot(plan, env, w) == (w, if plan.providers != ["DEEPSEEK", "OPENAI"]
                                               then Threw("ADK live pilot provider set must be exactly DEEPSEEK,OPENAI") else Crashed)
  {
    hide Parse, Render, RunCells, WellFormed;
  }

  /** The checkpoint a run enters the loops with, if it gets there. */
  ghost predicate StartsFrom(plan: Plan, env: Env, w: World, start: Checkpoint) {
    && start.pilotId == plan.pilotId && start.approvalRef == plan.approvalRef && start.assignmentIds == plan.assignmentIds
    && start.inFlight.None?
    && if w.disk.None? then start.cells == [] && start.runId == env.runIdOf(plan, env.clock(0)) && start.startedAt == env.clock(0)
       else w.disk == Some(Render(start)) && Enters(plan, env, start)
  }

  /** Whatever happened before, a run either stops before its first cell and leaves everything as it was, or calls the
      cells after the durable ones, each as its script says, and ends as `RunShape` tells. */
  lemma RunKeepsWorld(plan: Plan, env: Env, w: World) returns (entered: bool, start: Checkpoint, final: Checkpoint)
    requires ValidPlan(plan) && WorldOk(w)
    ensures var (v, outcome) := RunPilot(plan, env, w);
            && WorldOk(v)
            && (entered ==> && StartsFrom(plan, env, w, start) && Good(final, v)
                            && RunShape(plan.assignmentIds, start, 0, env, w, final, v, outcome)
                            && (outcome.Returned? ==> final.inFlight.None?))
            && (!entered ==> v == w && !outcome.Returned?)
            && (w.disk.None? ==> (entered <==> plan.providers == ["DEEPSEEK", "OPENAI"] && !env.diesBeforeCreate))
            && (forall c :: w.disk == Some(Render(c)) ==> (entered <==> Enters(plan, env, c)))
  {
    entered, start, final := plan.providers == ["DEEPSEEK", "OPENAI"] && !env.diesBeforeCreate, NewCheckpoint(plan, env), NewCheckpoint(plan, env);
    hide RunPilot, RunCells, Good, Render, RunShape;
    if w == FRESH {
      FirstRunCases(plan, env, w);
      NewIsGood(plan, env);
      if entered {
        final := RunCellsKeeps(plan, start, 0, env, w.(disk := Some(Render(start))));
        SameShape(plan.assignmentIds, start, env, w, w.(disk := Some(Render(start))), final, RunPilot(plan, env, w).0, RunPilot(plan, env, w).1);
      }
    } else {
      start :| Good(start, w);
      GoodIsOk(start, w);
      LaterRunCases(plan, env, start, w);
      entered := Enters(plan, env, start);
      if entered {
        final := RunCellsKeeps(plan, start, 0, env, w);
      }
      forall c | w.disk == Some(Render(c)) ensures c == start {
        RenderInjective(c, start);
      }
    }
  }

  lemma SameShape(ids: seq<string>, c: Checkpoint, env: Env, w: World, u: World, final: Checkpoint, v: World, outcome: Outcome)
    requires RunShape(ids, c, 0, env, u, final, v, outcome) && u.log == w.log
    ensures RunShape(ids, c, 0, env, w, final, v, outcome)
  {
  }

  ghost predicate ValidPlans(runs: seq<(Plan, Env)>) {
    forall run <- runs :: ValidPlan(run.0)
  }

  lemma {:induction false} RunsKeepWorld(runs: seq<(Plan, Env)>, w: World)
    requires ValidPlans(runs) && WorldOk(w)
    ensures WorldOk(RunAll(runs, w))
    decreases |runs|
  {
    if runs != [] {
      assert runs[0] in runs;
      var _, _, _ := RunKeepsWorld(runs[0].0, runs[0].1, w);
      RunsKeepWorld(runs[1..], RunPilot(runs[0].0, runs[0].1, w).0);
    }
  }

  // ---------------------------------------------------------------- main results

  /** Every provider call was made while its cell was recorded as in flight on disk. */
  lemma CallsRecordedFirst(runs: seq<(Plan, Env)>, k: nat)
    requires ValidPlans(runs) && k < |RunAll(runs, FRESH).log|
    ensures CalledInFlight(RunAll(runs, FRESH).log[k])
  {
    RunsKeepWorld(runs, FRESH);
    var w := RunAll(runs, FRESH);
    var c :| Good(c, w);
    assert EventOk(c, w.log[k]);
  }

  /** A cell is called again only after a provider error that is neither a timeout nor a network error, and only if the
      run lived to clear its in-flight record. */
  lemma OneUnresolvedCallPerCell(runs: seq<(Plan, Env)>, j: nat, k: nat)
    requires ValidPlans(runs) && j < k < |RunAll(runs, FRESH).log|
    requires var log := RunAll(runs, FRESH).log;
             log[j].assignmentId == log[k].assignmentId && log[j].provider == log[k].provider
    ensures var answer := RunAll(runs, FRESH).log[j].answer;
            && answer.ProviderError? && answer.code != "AI_PROVIDER_TIMEOUT" && answer.code != "AI_PROVIDER_NETWORK_ERROR"
            && !answer.diesBeforeClearing
  {
    hide RunAll, Render, Succeeds, StoredOf, CalledInFlight;
    RunsKeepWorld(runs, FRESH);
    var w := RunAll(runs, FRESH);
    var c :| Good(c, w);
    assert EventOk(c, w.log[j]) && EventOk(c, w.log[k]);
    IsCellDistinct(c.assignmentIds, w.log[j].cell, w.log[k].cell, w.log[j].assignmentId, w.log[j].provider);
  }

  /** A call that ended in a timeout, a network error, any other exception, a death, or a result that was not kept as its
      own cell is the last of all calls: its cell stays in flight on disk, and no later run, whatever its plan, makes a
      call or touches the file. */
  lemma UncertainCallStopsPilot(runs: seq<(Plan, Env)>, later: seq<(Plan, Env)>, k: nat) returns (c: Checkpoint)
    requires ValidPlans(runs) && k < |RunAll(runs, FRESH).log|
    requires var e := RunAll(runs, FRESH).log[k];
             match e.answer
             case DiesInCall => true
             case OtherException => true
             case ProviderError(code, _, dies) => code == "AI_PROVIDER_TIMEOUT" || code == "AI_PROVIDER_NETWORK_ERROR" || dies
             case Acquires(_, _) => !Succeeds(e)
    ensures var w := RunAll(runs, FRESH); var e := w.log[k];
            && k + 1 == |w.log| && w.disk == Some(Render(c))
            && c.inFlight.Some? && c.inFlight.value.assignmentId == e.assignmentId && c.inFlight.value.provider == e.provider
            && RunAll(later, w) == w
  {
    hide RunAll, Render, Good, OwnResult, OwnPersistence;
    RunsKeepWorld(runs, FRESH);
    var w := RunAll(runs, FRESH);
    c :| Good(c, w);
    UncertainIsLast(c, w, k);
    InFlightStopsEverything(later, c, w);
  }

  lemma LaterIsFurther(c: Checkpoint, log: seq<Event>, j: nat, k: nat)
    requires LogOk(c, log) && j < k < |log| && !Cleared(log[j].answer)
    ensures log[j].cell < log[k].cell <= |c.cells|
  {
    hide StoredOf, Cleared, Succeeds, CalledInFlight;
    assert EventOk(c, log[k]);
  }

  lemma UncertainIsLast(c: Checkpoint, w: World, k: nat)
    requires Good(c, w) && k < |w.log| && !Cleared(w.log[k].answer) && !Succeeds(w.log[k])
    ensures var e := w.log[k];
            && k + 1 == |w.log| && w.disk == Some(Render(c))
            && c.inFlight.Some? && c.inFlight.value.assignmentId == e.assignmentId && c.inFlight.value.provider == e.provider
  {
    hide Render, Succeeds, StoredOf, CalledInFlight, Cleared;
    assert EventOk(c, w.log[k]) && w.log[k].cell == |c.cells|;
    if k + 1 < |w.log| {
      LaterIsFurther(c, w.log, k, k + 1);
    }
  }

  /** Once a run leaves an in-flight record behind, no later run, whatever its plan and
      environment, makes a provider call or touches the file. */
  lemma {:induction false} InFlightStopsEverything(runs: seq<(Plan, Env)>, c: Checkpoint, w: World)
    requires w.disk == Some(Render(c)) && c.inFlight.Some?
    ensures RunAll(runs, w) == w
    decreases |runs|
  {
    if runs != [] {
      LaterRunCases(runs[0].0, runs[0].1, c, w);
      hide RunPilot, RunCells;
      InFlightStopsEverything(runs[1..], c, w);
    }
  }

  /** The checkpoint on disk never disagrees with the call log: its cells are, in plan order,
      exactly what the successful calls stored, so its byte total is theirs. */
  lemma CheckpointIsTheStoredCalls(runs: seq<(Plan, Env)>) returns (c: Checkpoint)
    requires ValidPlans(runs) && RunAll(runs, FRESH).disk.Some?
    ensures var w := RunAll(runs, FRESH);
            && w.disk == Some(Render(c)) && CheckpointOk(c)
            && PersistencesOf(c.cells) == StoredOf(w.log)
            && BytesOf(c.cells) == StoredBytes(StoredOf(w.log))
  {
    RunsKeepWorld(runs, FRESH);
    c :| Good(c, RunAll(runs, FRESH));
    BytesAreStored(c.cells);
  }

  function StoredBytes(stored: seq<Persistence>): int {
    if stored == [] then 0 else StoredBytes(stored[..|stored| - 1]) + stored[|stored| - 1].bytes
  }

  lemma {:induction false} BytesAreStored(cells: seq<DurableCell>)
    ensures BytesOf(cells) == StoredBytes(PersistencesOf(cells))
  {
    if cells != [] {
      BytesAreStored(cells[..|cells| - 1]);
      assert PersistencesOf(cells)[..|cells| - 1] == PersistencesOf(cells[..|cells| - 1]);
    }
  }

  /** A run that returns reports exactly the checkpoint it leaves on disk. It claims completion exactly with all six cells
      durable, and otherwise names the cell it failed at, with the provider's own error code. */
  lemma ReturnedResultDescribesDisk(runs: seq<(Plan, Env)>, plan: Plan, env: Env) returns (c: Checkpoint)
    requires ValidPlans(runs) && ValidPlan(plan)
    requires RunPilot(plan, env, RunAll(runs, FRESH)).1.Returned?
    ensures var (v, outcome) := RunPilot(plan, env, RunAll(runs, FRESH));
            && v.disk == Some(Render(c)) && c.assignmentIds == plan.assignmentIds && CheckpointOk(c)
            && c.pilotId == plan.pilotId && c.approvalRef == plan.approvalRef
            && (outcome.result.completed <==> |c.cells| == 6)
            && outcome == if |c.cells| == 6 then Returned(ResultFrom(c, None)) else StopOf(c, env.script(|c.cells|))
  {
    hide RunPilot, RunAll, Render, CallsMade, LogOk, ResultFrom, StopOf, Enters;
    RunsKeepWorld(runs, FRESH);
    var entered, start, final := RunKeepsWorld(plan, env, RunAll(runs, FRESH));
    c := final;
    ReturnsExactly(plan.assignmentIds, start, env, RunAll(runs, FRESH), c, RunPilot(plan, env, RunAll(runs, FRESH)).0, RunPilot(plan, env, RunAll(runs, FRESH)).1);
  }

  lemma ReturnsExactly(ids: seq<string>, start: Checkpoint, env: Env, w: World, c: Checkpoint, v: World, outcome: Outcome)
    requires |ids| == 3 && RunShape(ids, start, 0, env, w, c, v, outcome) && outcome.Returned?
    ensures outcome == if |c.cells| == 6 then Returned(ResultFrom(c, None)) else StopOf(c, env.script(|c.cells|))
    ensures outcome.result.completed <==> |c.cells| == 6
  {
    CompletesExactly(c, None);
    hide CallsMade, ReceiptsOf, LineageOf, ReceiptIdsOf, BytesOf;
  }

  lemma CompletesExactly(c: Checkpoint, failure: Option<Receipt>)
    ensures ResultFrom(c, failure).completed <==> |c.cells| == 6 && failure.None?
  {
  }

  /** What a result says, entry by entry. */
  lemma {:induction false} ResultIsPointwise(c: Checkpoint, failure: Option<Receipt>, k: nat)
    requires k < |c.cells|
    ensures var result, cell := ResultFrom(c, failure), c.cells[k];
            && result.runId == c.runId && result.durableCellCount == |c.cells| && (result.completed <==> |c.cells| == 6 && failure.None?)
            && |result.receipts| == |c.cells| + (if failure.Some? then 1 else 0) && |result.lineage| == |c.cells| && |result.artifactReceiptIds| == 2 * |c.cells|
            && result.receipts[k] == Receipt(cell.lineage.assignmentId, cell.lineage.provider, "EXECUTED",
                                             Some(cell.lineage.submissionId), Some(cell.lineage.distilledArtifactId), None, None)
            && (failure.Some? ==> result.receipts[|c.cells|] == failure.value)
            && result.lineage[k] == cell.lineage && result.bytesPrepared == StoredBytes(PersistencesOf(c.cells))
            && result.artifactReceiptIds[2 * k] == cell.rawProviderReceiptId && result.artifactReceiptIds[2 * k + 1] == cell.markdownReceiptId
  {
    ReceiptIdsAt(c.cells, k);
    BytesAreStored(c.cells);
  }

  lemma {:induction false} ReceiptIdsAt(cells: seq<DurableCell>, k: nat)
    requires k < |cells|
    ensures |ReceiptIdsOf(cells)| == 2 * |cells|
    ensures ReceiptIdsOf(cells)[2 * k] == cells[k].rawProviderReceiptId && ReceiptIdsOf(cells)[2 * k + 1] == cells[k].markdownReceiptId
  {
    var prior := cells[..|cells| - 1];
    if prior != [] {
      ReceiptIdsAt(prior, if k < |prior| then k else 0);
    }
  }

  // ---------------------------------------------------------------- acceptance

  function AcceptanceKey(assignmentId: string, provider: Provider, submissionId: string): string {
    assignmentId + ":" + provider.Name() + ":" + submissionId
  }

  function ReceiptKey(r: Receipt): string {
    AcceptanceKey(r.assignmentId, r.provider, if r.submissionId.Some? then r.submissionId.value else "")
  }

  function LineageKey(l: Lineage): string {
    AcceptanceKey(l.assignmentId, l.provider, l.submissionId)
  }

  /** `assertLivePilotComplete` (`adk-live-pilot-acceptance.ts`) does not throw. */
  predicate Accepts(receipts: seq<Receipt>, acquisitionCount: int, lineage: seq<Lineage>) {
    var receiptKeys := set r <- receipts :: ReceiptKey(r);
    var lineageKeys := set l <- lineage :: LineageKey(l);
    && |receipts| == 6 && (forall r <- receipts :: r.status == "EXECUTED")
    && acquisitionCount == 6 && |lineage| == 6
    && |receiptKeys| == 6 && |lineageKeys| == 6
    && receiptKeys <= lineageKeys
  }

  function KeysOf(cells: seq<DurableCell>): seq<string> {
    seq(|cells|, k requires 0 <= k < |cells| => LineageKey(cells[k].lineage))
  }

  function TextSet(keys: seq<string>): set<string> {
    set key <- keys
  }

  lemma {:induction false} DistinctMeansFullSet(keys: seq<string>)
    ensures |TextSet(keys)| <= |keys|
    ensures |TextSet(keys)| == |keys| <==> Distinct(keys)
  {
    if keys != [] {
      var prior, last := keys[..|keys| - 1], keys[|keys| - 1];
      DistinctMeansFullSet(prior);
      assert forall key :: key in keys <==> key in prior || key == last;
      assert TextSet(keys) == TextSet(prior) + {last};
      if last in prior {
        var k :| 0 <= k < |prior| && prior[k] == last;
        assert keys[k] == keys[|keys| - 1];
        assert TextSet(keys) == TextSet(prior);
      } else {
        assert Distinct(prior) ==> Distinct(keys);
      }
    }
  }

  /** A completed result passes acceptance exactly when its six keys are distinct texts. */
  lemma CompletedAcceptance(c: Checkpoint)
    requires |c.cells| == 6
    ensures var result := ResultFrom(c, None);
            Accepts(result.receipts, result.durableCellCount, result.lineage) <==> Distinct(KeysOf(c.cells))
  {
    var result, keys := ResultFrom(c, None), KeysOf(c.cells);
    assert result.receipts == ReceiptsOf(c.cells);
    assert (set r <- result.receipts :: ReceiptKey(r)) == TextSet(keys) by {
      forall key | key in keys ensures key in set r <- result.receipts :: ReceiptKey(r) {
        var k :| 0 <= k < 6 && keys[k] == key;
        assert result.receipts[k] in result.receipts && ReceiptKey(result.receipts[k]) == key;
      }
      forall r | r in result.receipts ensures ReceiptKey(r) in keys {
        var k :| 0 <= k < 6 && result.receipts[k] == r;
        assert keys[k] == ReceiptKey(r);
      }
    }
    assert (set l <- result.lineage :: LineageKey(l)) == TextSet(keys) by {
      forall key | key in keys ensures key in set l <- result.lineage :: LineageKey(l) {
        var k :| 0 <= k < 6 && keys[k] == key;
        assert result.lineage[k] in result.lineage && LineageKey(result.lineage[k]) == key;
      }
      forall l | l in result.lineage ensures LineageKey(l) in keys {
        var k :| 0 <= k < 6 && result.lineage[k] == l;
        assert keys[k] == LineageKey(l);
      }
    }
    DistinctMeansFullSet(keys);
  }

  /** `b` is `a:PROVIDER`, or goes on from it after another colon. */
  predicate Continues(a: string, p: Provider, b: string) {
    var stem := CellKey(a, p);
    stem <= b && (|b| == |stem| || b[|stem|] == ':')
  }

  /** The part of a cell key after the assignment id holds one colon, its first character. */
  lemma StemShape(a: string, p: Provider, k: nat)
    requires |a| < k < |CellKey(a, p)|
    ensures CellKey(a, p)[k] != ':'
  {
    assert CellKey(a, p)[k] == p.Name()[k - |a| - 1];
  }

  lemma CollisionIsContinuation(a: string, p: Provider, s: string, b: string, q: Provider, t: string)
    requires |a| < |b| && AcceptanceKey(a, p, s) == AcceptanceKey(b, q, t)
    ensures Continues(a, p, b)
  {
    var key, stem := AcceptanceKey(a, p, s), CellKey(a, p);
    assert key == stem + ":" + s && key == b + (":" + q.Name() + ":" + t);
    assert b == key[..|b|] && stem == key[..|stem|];
    assert key[|b|] == ':' && key[|stem|] == ':';
    if |b| < |stem| {
      StemShape(a, p, |b|);
      assert false;
    }
    assert stem == b[..|stem|];
  }

  lemma KeyIsStemAndRest(a: string, p: Provider, s: string)
    ensures AcceptanceKey(a, p, s) == CellKey(a, p) + (":" + s)
  {
  }

  lemma Rejoin(stem: string, rest: string, tail: string)
    requires rest != "" && rest[0] == ':'
    ensures stem + (":" + (rest[1..] + (":" + tail))) == (stem + rest) + (":" + tail)
  {
    var left, right := stem + (":" + (rest[1..] + (":" + tail))), (stem + rest) + (":" + tail);
    assert |left| == |right|;
    forall k | 0 <= k < |left| ensures left[k] == right[k] {
    }
  }

  lemma KeyWithoutSubmission(b: string, q: Provider)
    ensures AcceptanceKey(b, q, "") == b + (":" + (q.Name() + ":"))
  {
  }

  /** The submission ids with which a continuing assignment id collides. */
  lemma ContinuationCollides(a: string, p: Provider, b: string, q: Provider) returns (s: string)
    requires Continues(a, p, b)
    ensures AcceptanceKey(a, p, s) == AcceptanceKey(b, q, "")
  {
    hide AcceptanceKey, Provider.Name, CellKey;
    var stem, tail := CellKey(a, p), q.Name() + ":";
    var rest := b[|stem|..];
    KeyWithoutSubmission(b, q);
    assert b == stem + rest;
    s := if rest == "" then tail else rest[1..] + (":" + tail);
    KeyIsStemAndRest(a, p, s);
    if rest != "" {
      Rejoin(stem, rest, tail);
    } else {
      assert stem + rest == stem;
    }
  }

  ghost predicate Unentangled(ids: seq<string>) {
    forall i, j, p: Provider | 0 <= i < |ids| && 0 <= j < |ids| && i != j :: !Continues(ids[i], p, ids[j])
  }

  function PlanKeys(ids: seq<string>, submissions: seq<string>): seq<string>
    requires |submissions| == 2 * |ids|
  {
    seq(|submissions|, k requires 0 <= k < |submissions| => AcceptanceKey(ids[k / 2], ProviderAt(k), submissions[k]))
  }

  lemma SameAssignmentKeys(a: string, s: string, t: string)
    ensures AcceptanceKey(a, DEEPSEEK, s) != AcceptanceKey(a, OPENAI, t)
  {
    assert AcceptanceKey(a, DEEPSEEK, s)[|a| + 1] == 'D' && AcceptanceKey(a, OPENAI, t)[|a| + 1] == 'O';
  }

  lemma EqualLengthKeys(a: string, p: Provider, s: string, b: string, q: Provider, t: string)
    requires |a| == |b| && AcceptanceKey(a, p, s) == AcceptanceKey(b, q, t)
    ensures a == b
  {
    assert a == AcceptanceKey(a, p, s)[..|a|] && b == AcceptanceKey(b, q, t)[..|b|];
  }

  /** The six acceptance keys of a plan are distinct for all submission ids the providers may
      return exactly when no assignment id continues another past a provider name. */
  lemma AcceptanceGuard(ids: seq<string>)
    requires Distinct(ids)
    ensures Unentangled(ids) <==>
            forall submissions: seq<string> | |submissions| == 2 * |ids| :: Distinct(PlanKeys(ids, submissions))
  {
    if Unentangled(ids) {
      forall submissions: seq<string>, j, k | |submissions| == 2 * |ids| && 0 <= j < k < |submissions|
        ensures PlanKeys(ids, submissions)[j] != PlanKeys(ids, submissions)[k]
      {
        KeysDiffer(ids, submissions, j, k);
      }
    }
    if forall submissions: seq<string> | |submissions| == 2 * |ids| :: Distinct(PlanKeys(ids, submissions)) {
      forall i, j, p: Provider | 0 <= i < |ids| && 0 <= j < |ids| && i != j ensures !Continues(ids[i], p, ids[j]) {
        if Continues(ids[i], p, ids[j]) {
          var submissions := EntangledCollide(ids, i, p, j);
        }
      }
    }
  }

  lemma EntangledCollide(ids: seq<string>, i: nat, p: Provider, j: nat) returns (submissions: seq<string>)
    requires i < |ids| && j < |ids| && i != j && Continues(ids[i], p, ids[j])
    ensures |submissions| == 2 * |ids| && !Distinct(PlanKeys(ids, submissions))
  {
    var s := ContinuationCollides(ids[i], p, ids[j], DEEPSEEK);
    var at := 2 * i + if p == DEEPSEEK then 0 else 1;
    submissions := seq(2 * |ids|, k => if k == at then s else "");
    hide AcceptanceKey, Continues;
    var keys := PlanKeys(ids, submissions);
    assert ProviderAt(at) == p && ProviderAt(2 * j) == DEEPSEEK && at / 2 == i && 2 * j != at;
    assert keys[at] == AcceptanceKey(ids[i], p, s) && keys[2 * j] == AcceptanceKey(ids[j], DEEPSEEK, "");
  }

  lemma KeysDiffer(ids: seq<string>, submissions: seq<string>, j: nat, k: nat)
    requires Distinct(ids) && Unentangled(ids) && |submissions| == 2 * |ids| && j < k < |submissions|
    ensures PlanKeys(ids, submissions)[j] != PlanKeys(ids, submissions)[k]
  {
    var a, b := ids[j / 2], ids[k / 2];
    if j / 2 == k / 2 {
      assert j % 2 == 0 && k % 2 == 1;
      SameAssignmentKeys(a, submissions[j], submissions[k]);
    } else if AcceptanceKey(a, ProviderAt(j), submissions[j]) == AcceptanceKey(b, ProviderAt(k), submissions[k]) {
      if |a| < |b| {
        CollisionIsContinuation(a, ProviderAt(j), submissions[j], b, ProviderAt(k), submissions[k]);
      } else if |b| < |a| {
        CollisionIsContinuation(b, ProviderAt(k), submissions[k], a, ProviderAt(j), submissions[j]);
      } else {
        EqualLengthKeys(a, ProviderAt(j), submissions[j], b, ProviderAt(k), submissions[k]);
      }
    }
  }

  lemma ContinuationHasColon(a: string, p: Provider, b: string)
    requires Continues(a, p, b)
    ensures ':' in b
  {
    assert b[|a|] == CellKey(a, p)[|a|] == ':';
  }

  /** Ids without a colon, as the plan contract demands, are never entangled. */
  lemma ColonFreeIsUnentangled(ids: seq<string>)
    requires forall id <- ids :: ':' !in id
    ensures Unentangled(ids)
  {
    forall i, j, p: Provider | 0 <= i < |ids| && 0 <= j < |ids| && i != j ensures !Continues(ids[i], p, ids[j]) {
      assert ids[j] in ids;
      if Continues(ids[i], p, ids[j]) {
        ContinuationHasColon(ids[i], p, ids[j]);
      }
    }
  }

  function SubmissionsOf(cells: seq<DurableCell>): seq<string> {
    seq(|cells|, k requires 0 <= k < |cells| => cells[k].lineage.submissionId)
  }

  lemma KeysArePlanKeys(c: Checkpoint)
    requires CheckpointOk(c) && |c.cells| == 2 * |c.assignmentIds|
    ensures KeysOf(c.cells) == PlanKeys(c.assignmentIds, SubmissionsOf(c.cells))
  {
    hide AcceptanceKey;
    forall k | 0 <= k < |c.cells| ensures KeysOf(c.cells)[k] == PlanKeys(c.assignmentIds, SubmissionsOf(c.cells))[k] {
      assert IsCell(c.assignmentIds, k, c.cells[k].lineage.assignmentId, c.cells[k].lineage.provider);
    }
  }

  /** Over any history of runs and crashes, a run of an unentangled plan that reports completion
      passes `assertLivePilotComplete`. */
  lemma CompletedRunIsAccepted(runs: seq<(Plan, Env)>, plan: Plan, env: Env)
    requires ValidPlans(runs) && ValidPlan(plan) && Unentangled(plan.assignmentIds)
    requires RunPilot(plan, env, RunAll(runs, FRESH)).1.Returned?
    requires RunPilot(plan, env, RunAll(runs, FRESH)).1.result.completed
    ensures var result := RunPilot(plan, env, RunAll(runs, FRESH)).1.result;
            Accepts(result.receipts, result.durableCellCount, result.lineage)
  {
    var c := ReturnedResultDescribesDisk(runs, plan, env);
    var submissions := SubmissionsOf(c.cells);
    AcceptanceGuard(plan.assignmentIds);
    hide RunPilot, RunAll, Unentangled;
    KeysArePlanKeys(c);
    assert Distinct(PlanKeys(plan.assignmentIds, submissions));
    CompletedAcceptance(c);
  }
}
