/** When the checkpoints the pilot writes can be read again: the persisted lineage is checked for
    agreement (`apps/worker/src/adk-live-pilot-resume.ts:406-418`) but its other identifiers are not
    checked for being filled in, which `parseDurableCell` demands of them later. */
module LivePilotReadback {
  import opened Common
  import opened LivePilotCheckpoint
  import opened LivePilotRun
  import opened LivePilotSafety

  /** The plan's texts are filled in, and the clock and the run id behave. */
  ghost predicate SoundRun(isTime: string -> bool, plan: Plan, env: Env) {
    && ValidPlan(plan) && NonBlank(plan.pilotId) && NonBlank(plan.approvalRef)
    && (forall id <- plan.assignmentIds :: NonBlank(id))
    && (forall n: nat :: isTime(env.clock(n)))
    && NonBlank(env.runIdOf(plan, env.clock(0)))
  }

  ghost predicate SoundRuns(isTime: string -> bool, runs: seq<(Plan, Env)>) {
    forall run <- runs :: SoundRun(isTime, run.0, run.1)
  }

  /** Everything a stored cell must hold to be read again. */
  predicate Filled(p: Persistence) {
    && NonBlank(p.lineage.submissionId) && NonBlank(p.lineage.distilledArtifactId)
    && NonBlank(p.lineage.rawProviderArtifactId) && NonBlank(p.lineage.markdownRawArtifactId)
    && NonBlank(p.rawReceiptId) && NonBlank(p.markdownReceiptId)
  }

  predicate CellSound(isTime: string -> bool, cell: DurableCell) {
    NonBlank(cell.lineage.assignmentId) && 0 <= cell.bytesPrepared <= MAX_SAFE_INTEGER && isTime(cell.recordedAt)
  }

  /** What the executor itself sees to. */
  ghost predicate Sound(isTime: string -> bool, c: Checkpoint) {
    && NonBlank(c.pilotId) && NonBlank(c.approvalRef) && NonBlank(c.runId)
    && isTime(c.startedAt) && isTime(c.updatedAt)
    && |c.assignmentIds| == 3 && (forall id <- c.assignmentIds :: NonBlank(id))
    && (forall cell <- c.cells :: CellSound(isTime, cell))
    && (c.inFlight.Some? ==> NonBlank(c.inFlight.value.assignmentId) && isTime(c.inFlight.value.startedAt))
  }

  ghost predicate OnDisk(isTime: string -> bool, w: World) {
    w.disk.Some? ==> exists c :: w.disk == Some(Render(c)) && Sound(isTime, c)
  }

  // ---------------------------------------------------------------- preservation

  lemma StepsSound(isTime: string -> bool, c: Checkpoint, assignmentId: string, provider: Provider, p: Persistence, now: string)
    requires Sound(isTime, c) && NonBlank(assignmentId) && isTime(now)
    ensures Sound(isTime, Intend(c, assignmentId, provider, now))
    ensures Sound(isTime, c.(inFlight := None, updatedAt := now))
    ensures p.lineage.assignmentId == assignmentId && 0 <= p.bytes <= MAX_SAFE_INTEGER ==>
              Sound(isTime, c.(inFlight := None, cells := c.cells + [CellOf(p, now)], updatedAt := now))
  {
    hide NonBlank;
  }

  lemma TryCellSound(isTime: string -> bool, c: Checkpoint, assignmentId: string, provider: Provider, i: nat, script: CellScript, now: string, w: World)
    requires Sound(isTime, c) && NonBlank(assignmentId) && isTime(now) && OnDisk(isTime, w)
    ensures var (v, progress) := TryCell(c, assignmentId, provider, i, script, now, w);
            OnDisk(isTime, v) && (progress.Goes? ==> Sound(isTime, progress.checkpoint) && progress.checkpoint.assignmentIds == c.assignmentIds)
  {
    var intended := Intend(c, assignmentId, provider, now);
    var none := Persistence(Lineage("", provider, "", "", "", ""), "", "", 0);
    StepsSound(isTime, c, assignmentId, provider, none, now);
    StepsSound(isTime, intended, assignmentId, provider, none, now);
    hide Sound, Render, ResultFrom, NonBlank;
    if script.Calls? {
      hide Intend;
      CallCellSound(isTime, intended, assignmentId, provider, i, script.call, now, w.(disk := Some(Render(intended))));
    }
  }

  lemma CallCellSound(isTime: string -> bool, c: Checkpoint, assignmentId: string, provider: Provider, i: nat, call: CallAnswer, now: string, w: World)
    requires Sound(isTime, c) && NonBlank(assignmentId) && isTime(now) && OnDisk(isTime, w)
    ensures var (v, progress) := CallCell(c, assignmentId, provider, i, call, now, w);
            OnDisk(isTime, v) && (progress.Goes? ==> Sound(isTime, progress.checkpoint) && progress.checkpoint.assignmentIds == c.assignmentIds)
  {
    hide Sound, Render, ResultFrom, NonBlank, DeliveryUncertain, LineageMatches;
    var none := Persistence(Lineage("", provider, "", "", "", ""), "", "", 0);
    StepsSound(isTime, c, assignmentId, provider, none, now);
    if call.Acquires? && call.answer.Persists? {
      StepsSound(isTime, c, assignmentId, provider, call.answer.stored, now);
    }
  }

  lemma {:induction false} RunCellsSound(isTime: string -> bool, plan: Plan, c: Checkpoint, i: nat, env: Env, w: World)
    requires Sound(isTime, c) && c.assignmentIds == plan.assignmentIds && i <= 2 * |plan.assignmentIds|
    requires (forall n: nat :: isTime(env.clock(n))) && OnDisk(isTime, w)
    ensures OnDisk(isTime, RunCells(plan, c, i, env, w).0)
    decreases 2 * |plan.assignmentIds| - i
  {
    hide TryCell, OnDisk, HasCell, ResultFrom, NonBlank;
    if i < 2 * |plan.assignmentIds| {
      var assignmentId, provider := plan.assignmentIds[i / 2], ProviderAt(i);
      assert assignmentId in c.assignmentIds && isTime(env.clock(i + 1));
      hide Sound;
      TryCellSound(isTime, c, assignmentId, provider, i, env.script(i), env.clock(i + 1), w);
      var (v, progress) := TryCell(c, assignmentId, provider, i, env.script(i), env.clock(i + 1), w);
      if progress.Goes? {
        RunCellsSound(isTime, plan, progress.checkpoint, i + 1, env, v);
      }
      RunCellsSound(isTime, plan, c, i + 1, env, w);
    }
  }

  lemma RunPilotSound(isTime: string -> bool, plan: Plan, env: Env, w: World)
    requires SoundRun(isTime, plan, env) && OnDisk(isTime, w)
    ensures OnDisk(isTime, RunPilot(plan, env, w).0)
  {
    hide NonBlank;
    if w.disk.None? {
      var c := NewCheckpoint(plan, env);
      assert isTime(env.clock(0)) && Sound(isTime, c);
      hide RunCells, Render, Sound;
      RunCellsSound(isTime, plan, c, 0, env, w.(disk := Some(Render(c))));
    } else {
      var c :| w.disk == Some(Render(c)) && Sound(isTime, c);
      LaterRunCases(plan, env, c, w);
      hide RunPilot, RunCells, Render, Sound;
      if c.assignmentIds == plan.assignmentIds {
        RunCellsSound(isTime, plan, c, 0, env, w);
      }
    }
  }

  lemma {:induction false} RunsSound(isTime: string -> bool, runs: seq<(Plan, Env)>, w: World)
    requires SoundRuns(isTime, runs) && OnDisk(isTime, w)
    ensures OnDisk(isTime, RunAll(runs, w))
    decreases |runs|
  {
    if runs != [] {
      assert runs[0] in runs;
      RunPilotSound(isTime, runs[0].0, runs[0].1, w);
      RunsSound(isTime, runs[1..], RunPilot(runs[0].0, runs[0].1, w).0);
    }
  }

  // ---------------------------------------------------------------- main results

  lemma FilledIsWellFormed(isTime: string -> bool, c: Checkpoint)
    requires Sound(isTime, c) && CheckpointOk(c)
    ensures WellFormed(isTime, c) <==> forall p <- PersistencesOf(c.cells) :: Filled(p)
  {
    hide NonBlank;
    var stored := PersistencesOf(c.cells);
    CellsDistinct(c);
    forall k | 0 <= k < |c.cells| ensures CellWellFormed(isTime, c.cells[k]) <==> Filled(stored[k]) {
      assert c.cells[k] in c.cells && stored[k] == PersistenceOf(c.cells[k]);
    }
    if forall p <- stored :: Filled(p) {
      forall cell <- c.cells ensures CellWellFormed(isTime, cell) {
        var k :| 0 <= k < |c.cells| && c.cells[k] == cell;
        assert stored[k] in stored;
      }
    }
    if WellFormed(isTime, c) {
      forall p <- stored ensures Filled(p) {
        var k :| 0 <= k < |stored| && stored[k] == p;
        assert c.cells[k] in c.cells;
      }
    }
  }

  lemma CellsDistinct(c: Checkpoint)
    requires CheckpointOk(c)
    ensures DistinctCells(c.cells)
  {
    forall i, j | 0 <= i < j < |c.cells|
      ensures CellKey(c.cells[i].lineage.assignmentId, c.cells[i].lineage.provider) != CellKey(c.cells[j].lineage.assignmentId, c.cells[j].lineage.provider)
    {
      var a, b := c.cells[i].lineage, c.cells[j].lineage;
      assert IsCell(c.assignmentIds, i, a.assignmentId, a.provider) && IsCell(c.assignmentIds, j, b.assignmentId, b.provider);
      CellKeyInjective(a.assignmentId, a.provider, b.assignmentId, b.provider);
      if a.assignmentId == b.assignmentId && a.provider == b.provider {
        IsCellDistinct(c.assignmentIds, i, j, a.assignmentId, a.provider);
      }
    }
  }

  /** After any history of runs and crashes, the checkpoint on disk is read back as it was written
      if every stored cell has all its identifiers filled in, and is refused if one has not. */
  lemma ReadBackExactly(isTime: string -> bool, runs: seq<(Plan, Env)>) returns (c: Checkpoint)
    requires SoundRuns(isTime, runs) && RunAll(runs, FRESH).disk.Some?
    ensures var w := RunAll(runs, FRESH);
            && w.disk == Some(Render(c))
            && (Parse(isTime, w.disk.value).Ok? <==> forall p <- StoredOf(w.log) :: Filled(p))
            && (Parse(isTime, w.disk.value).Ok? ==> Parse(isTime, w.disk.value).value == c)
  {
    assert ValidPlans(runs);
    RunsSound(isTime, runs, FRESH);
    c := CheckpointIsTheStoredCalls(runs);
    var w := RunAll(runs, FRESH);
    var d :| w.disk == Some(Render(d)) && Sound(isTime, d);
    RenderInjective(c, d);
    FilledIsWellFormed(isTime, c);
    RoundTrip(isTime, c);
  }

  /** A run that cannot read the file throws and changes nothing. */
  lemma UnreadableStops(plan: Plan, env: Env, w: World)
    requires w.disk.Some? && Parse(env.isTime, w.disk.value).Err?
    ensures RunPilot(plan, env, w).0 == w && RunPilot(plan, env, w).1.Threw?
  {
    hide Parse, RunCells, Render;
  }

  lemma StoredMeansOnDisk(runs: seq<(Plan, Env)>, p: Persistence)
    requires ValidPlans(runs) && p in StoredOf(RunAll(runs, FRESH).log)
    ensures RunAll(runs, FRESH).disk.Some?
  {
    RunsKeepWorld(runs, FRESH);
    var w := RunAll(runs, FRESH);
    hide RunAll, Good;
    assert w != FRESH;
    var good :| Good(good, w);
    GoodIsOnDisk(good, w);
  }

  lemma GoodIsOnDisk(c: Checkpoint, w: World)
    requires Good(c, w)
    ensures w.disk == Some(Render(c))
  {
  }

  /** One stored cell with a blank identifier ends the pilot: every later run throws and changes
      nothing. */
  lemma BlankIdentifierStopsPilot(isTime: string -> bool, runs: seq<(Plan, Env)>, plan: Plan, env: Env, p: Persistence)
    requires SoundRuns(isTime, runs) && env.isTime == isTime
    requires p in StoredOf(RunAll(runs, FRESH).log) && !Filled(p)
    ensures var w := RunAll(runs, FRESH);
            RunPilot(plan, env, w).0 == w && RunPilot(plan, env, w).1.Threw?
  {
    assert ValidPlans(runs);
    StoredMeansOnDisk(runs, p);
    var c := ReadBackExactly(isTime, runs);
    hide RunPilot, RunAll, StoredOf, Filled, Parse, Render;
    UnreadableStops(plan, env, RunAll(runs, FRESH));
  }

  // ---------------------------------------------------------------- a history with a blank identifier

  const FIRST: string := "kas_a"

  const SAMPLE_PLAN := Plan("app_p", "ref", [FIRST, "kas_b", "kas_c"], ["DEEPSEEK", "OPENAI"])

  /** The provider's answer is stored without an identifier for the raw provider artifact. */
  const BLANK := Persistence(Lineage(FIRST, DEEPSEEK, "s", "d", "", "m"), "x", "y", 1)

  /** The first cell is stored so; the run dies before it attempts the second. */
  function SampleEnv(): Env {
    Env(_ => true, _ => "t", (_, _) => "apr_r", false, _ => true, {FIRST, "kas_b", "kas_c"},
        i => if i == 0 then Calls(Acquires(Acquisition(FIRST, "DEEPSEEK", "DEEPSEEK", "s", "d"), Persists(BLANK, false)))
             else DiesBeforeIntent)
  }

  /** A text that starts and ends with a letter. */
  lemma TextIsFilled(s: string)
    requires s != "" && 'a' <= s[0] <= 'z' && 'a' <= s[|s| - 1] <= 'z'
    ensures NonBlank(s)
  {
    TrimFixpoint(JsSpace, s);
    hide Trim;
  }

  lemma NamesAreFilled()
    ensures NonBlank("app_p") && NonBlank("ref") && NonBlank(FIRST) && NonBlank("kas_b") && NonBlank("kas_c") && NonBlank("apr_r")
    ensures !NonBlank("")
  {
    TextIsFilled("app_p");
    TextIsFilled("ref");
    TextIsFilled(FIRST);
    TextIsFilled("kas_b");
    TextIsFilled("kas_c");
    TextIsFilled("apr_r");
    assert Trim(JsSpace, "") == "";
  }

  lemma SampleIsSound()
    ensures SoundRuns(SampleEnv().isTime, [(SAMPLE_PLAN, SampleEnv())])
  {
    NamesAreFilled();
    hide NonBlank;
    var ids := SAMPLE_PLAN.assignmentIds;
    assert ids[0] == FIRST && ids[1] == "kas_b" && ids[2] == "kas_c";
    assert FIRST[4] == 'a' && "kas_b"[4] == 'b' && "kas_c"[4] == 'c';
    assert forall id <- ids :: id == FIRST || id == "kas_b" || id == "kas_c";
    assert ValidPlan(SAMPLE_PLAN);
  }

  lemma SampleRun()
    ensures var w := RunPilot(SAMPLE_PLAN, SampleEnv(), FRESH).0;
            |w.log| == 1 && Succeeds(w.log[0]) && w.log[0].answer.answer.stored == BLANK
  {
    var env, c := SampleEnv(), NewCheckpoint(SAMPLE_PLAN, SampleEnv());
    var w0 := World(Some(Render(c)), []);
    hide Render, ResultFrom;
    assert RunPilot(SAMPLE_PLAN, env, FRESH).0 == RunCells(SAMPLE_PLAN, c, 0, env, w0).0;
    var (w1, progress) := TryCell(c, FIRST, DEEPSEEK, 0, env.script(0), "t", w0);
    assert PersistedMatches(BLANK, Acquisition(FIRST, "DEEPSEEK", "DEEPSEEK", "s", "d"), FIRST, DEEPSEEK);
    assert progress.Goes? && w1.log == [] + [Event(0, FIRST, DEEPSEEK, Some(Render(Intend(c, FIRST, DEEPSEEK, "t"))), env.script(0).call)];
    var (w2, outcome) := RunCells(SAMPLE_PLAN, progress.checkpoint, 1, env, w1);
    SampleStops(progress.checkpoint, w1);
    assert w2 == w1;
  }

  /** At the second cell the run dies, or had it already. */
  lemma SampleStops(c: Checkpoint, w: World)
    requires |c.cells| == 1 && c.cells[0].lineage.provider == DEEPSEEK
    ensures RunCells(SAMPLE_PLAN, c, 1, SampleEnv(), w).0 == w
  {
    CellKeyInjective(c.cells[0].lineage.assignmentId, DEEPSEEK, FIRST, OPENAI);
    hide CellKey, CallCell, Render, ResultFrom;
    assert !HasCell(c.cells, FIRST, OPENAI);
  }

  /** Such histories exist: here is one, after which every run throws and changes nothing. */
  lemma BlankIdentifierHappens(plan: Plan, env: Env)
    requires env.isTime == SampleEnv().isTime
    ensures var runs := [(SAMPLE_PLAN, SampleEnv())];
            && SoundRuns(SampleEnv().isTime, runs)
            && BLANK in StoredOf(RunAll(runs, FRESH).log) && !Filled(BLANK)
            && RunPilot(plan, env, RunAll(runs, FRESH)).0 == RunAll(runs, FRESH)
            && RunPilot(plan, env, RunAll(runs, FRESH)).1.Threw?
  {
    var runs := [(SAMPLE_PLAN, SampleEnv())];
    SampleIsSound();
    SampleRun();
    NamesAreFilled();
    hide RunPilot, NonBlank, SoundRuns;
    var w := RunPilot(SAMPLE_PLAN, SampleEnv(), FRESH).0;
    assert runs[1..] == [] && RunAll([], w) == w;
    assert RunAll(runs, FRESH) == w;
    assert w.log[..0] == [] && StoredOf(w.log) == StoredOf([]) + [BLANK];
    BlankIdentifierStopsPilot(SampleEnv().isTime, runs, plan, env, BLANK);
  }
}
