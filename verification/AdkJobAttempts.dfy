/** What the attempt counter counts: for which runs it is the number of retryable failures, and when a
    job can be charged for more calls than its limit. */
module AdkJobAttempts {
  import opened Common
  import opened AdkJobQueue
  import opened AdkJobStore
  import opened AdkJobWorker
  import opened AdkJobSafety
  import AdkJobEndings

  /** How often the job was sent back after a retryable provider failure. */
  function Retries(calls: seq<Call>): nat {
    if calls == [] then 0
    else Retries(calls[..|calls| - 1]) + if Retryable(calls[|calls| - 1]) then 1 else 0
  }

  /** How often the provider was called, calls that found no credential excepted. */
  function Charged(calls: seq<Call>): nat {
    if calls == [] then 0
    else Charged(calls[..|calls| - 1]) + if !NoCredential(calls[|calls| - 1]) then 1 else 0
  }

  lemma RetriesAppend(calls: seq<Call>, call: Call)
    ensures Retries(calls + [call]) == Retries(calls) + if Retryable(call) then 1 else 0
    ensures Charged(calls + [call]) == Charged(calls) + if !NoCredential(call) then 1 else 0
  {
    assert (calls + [call])[..|calls|] == calls;
  }

  /** Every retryable failure was charged for, and of definite failures only those are. */
  lemma {:induction false} RetriesAreCharged(calls: seq<Call>)
    ensures Retries(calls) <= Charged(calls)
    ensures AllDefinite(calls) ==> Retries(calls) == Charged(calls)
  {
    if calls != [] {
      var prior := calls[..|calls| - 1];
      assert calls[|calls| - 1] in calls && forall call <- prior :: call in calls;
      RetriesAreCharged(prior);
    }
  }

  /** If the compare-and-set of this snapshot hits, the snapshot's attempt count is current. */
  ghost predicate Current(store: map<string, Job>, job: Job) {
    job.id in store && store[job.id].status == job.status ==> job.attempts == store[job.id].attempts
  }

  /** A step that starts or requeues a provider job does so from an up-to-date attempt count. */
  ghost predicate UpToDate(s: State, step: Step) {
    match step
    case Start(w, _) =>
      s.PhaseOf(w).HasClaim? && s.PhaseOf(w).claimed.ModeOf() == LegacyProvider ==> Current(s.store, s.PhaseOf(w).claimed)
    case Recover(r, retryPending, credentialBlocked, stale, now) =>
      && r in s.sweeps && s.sweeps[r] != [] && s.sweeps[r][0].status != Running
      && Recovery(s.sweeps[r][0], retryPending, credentialBlocked, stale, now).Some?
      ==> Current(s.store, s.sweeps[r][0])
    case _ => true
  }

  /** A stale write that takes a job back to work: it starts a provider job, or requeues one. */
  ghost predicate HarmfulStale(s: State, step: Step) {
    match step
    case Start(w, _) =>
      s.PhaseOf(w).HasClaim? && s.PhaseOf(w).claimed.ModeOf() == LegacyProvider && StaleWrite(s, step, s.PhaseOf(w).claimed.id)
    case Recover(r, _, _, _, _) =>
      r in s.sweeps && s.sweeps[r] != [] && s.sweeps[r][0].status != Running && StaleWrite(s, step, s.sweeps[r][0].id)
    case _ => false
  }

  ghost predicate NoHarmfulStale(s: State, steps: seq<Step>)
    decreases |steps|
  {
    steps != [] ==> !HarmfulStale(s, steps[0]) && NoHarmfulStale(Apply(s, steps[0]), steps[1..])
  }

  /** A snapshot of a job still at work is not ahead of what is stored. */
  ghost predicate NotAhead(store: map<string, Job>, job: Job) {
    job.id in store && !Absorbing(store[job.id].status) ==> job.attempts <= store[job.id].attempts
  }

  ghost predicate Ordered(s: State) {
    && (forall w | w in s.workers && s.workers[w].HasClaim? :: NotAhead(s.store, s.workers[w].claimed))
    && forall r, k | r in s.sweeps && 0 <= k < |s.sweeps[r]| :: NotAhead(s.store, s.sweeps[r][k])
  }

  /** With snapshots never ahead, working from a current count is the absence of a harmful stale write. */
  lemma UpToDateExactly(s: State, step: Step)
    requires Inv(s) && Ordered(s)
    ensures UpToDate(s, step) <==> !HarmfulStale(s, step)
  {
    hide Consistent, ThreeDistinct;
    if step.Start? && s.PhaseOf(step.w).HasClaim? {
      var claimed := s.PhaseOf(step.w).claimed;
      assert PhaseOk(s.store, s.CallsOf(PhaseJob(s.workers[step.w])), s.workers[step.w]);
      assert NotAhead(s.store, claimed);
    }
    if step.Recover? && step.sweep in s.sweeps && s.sweeps[step.sweep] != [] {
      var job := s.sweeps[step.sweep][0];
      assert Snapshot(s.store, job) && NotAhead(s.store, job);
    }
  }

  ghost predicate Waiting(status: Status) {
    status in {Queued, Claimed, RetryPending, BlockedCredential}
  }

  ghost predicate JobCounted(job: Job, calls: seq<Call>) {
    Charged(calls) <= job.Limit() && (Waiting(job.status) ==> job.attempts == Retries(calls))
  }

  ghost predicate PhaseCounted(phase: Phase, calls: seq<Call>) {
    match phase
    case Idle => true
    case HasClaim(_) => true
    case Owns(running) => running.attempts == Retries(calls)
    case Calling(running) => running.attempts == Retries(calls)
    case Acquired(running, _) => running.attempts == Retries(calls)
    case Closing(_, next) => Reopens(next.status) ==> next.attempts == Retries(calls)
  }

  ghost predicate Counted(s: State) {
    && (forall id | id in s.store :: JobCounted(s.store[id], s.CallsOf(id)))
    && (forall w | w in s.workers :: PhaseCounted(s.workers[w], s.CallsOf(PhaseJob(s.workers[w]))))
  }

  lemma StartCounted(s: State, step: Step)
    requires Inv(s) && Counted(s) && step.Start? && UpToDate(s, step)
    ensures PhaseCounted(Apply(s, step).PhaseOf(step.w), s.CallsOf(PhaseJob(Apply(s, step).PhaseOf(step.w))))
    ensures Written(s, step).Some? ==> !Waiting(Written(s, step).value.status)
  {
    hide Inv, Retries, Charged, Consistent, MarkRunning, MarkExecutionBlocked, GroundedBlockReason;
    if s.PhaseOf(step.w).HasClaim? {
      var claimed := s.PhaseOf(step.w).claimed;
      HeldClaim(s, step.w);
      StartShape(claimed, step.now);
      assert JobCounted(s.store[claimed.id], s.CallsOf(claimed.id));
    }
  }

  lemma CallCounted(s: State, step: Step)
    requires Inv(s) && Counted(s) && step.Call?
    ensures var t := Apply(s, step); PhaseCounted(t.PhaseOf(step.w), t.CallsOf(PhaseJob(t.PhaseOf(step.w))))
    ensures forall id :: Retries(Apply(s, step).CallsOf(id)) == Retries(s.CallsOf(id))
  {
    forall id ensures Retries(Apply(s, step).CallsOf(id)) == Retries(s.CallsOf(id)) {
      RetriesAppend(s.CallsOf(id), Pending);
      CallHistory(s, step, id);
    }
    CallerCounted(s, step);
  }

  lemma CallerCounted(s: State, step: Step)
    requires Counted(s) && step.Call?
    ensures var t := Apply(s, step); PhaseCounted(t.PhaseOf(step.w), t.CallsOf(PhaseJob(t.PhaseOf(step.w))))
  {
    hide Apply, Retries, JobCounted;
    var phase := s.PhaseOf(step.w);
    assert PhaseCounted(phase, s.CallsOf(PhaseJob(phase)));
    CallEffect(s, step);
    if phase.Owns? {
      RetriesAppend(s.CallsOf(phase.running.id), Pending);
    }
  }

  /** A worker calls, closes with a failure, or is not about to call. */
  lemma CallEffect(s: State, step: Step)
    requires step.Call?
    ensures var t, phase := Apply(s, step), s.PhaseOf(step.w);
            || t == s
            || (phase.Owns? && t.PhaseOf(step.w).Closing? && t.PhaseOf(step.w).next.status == Failed)
            || (phase.Owns? && t.PhaseOf(step.w) == Calling(phase.running)
                && t.CallsOf(phase.running.id) == s.CallsOf(phase.running.id) + [Pending])
  {
    forall running: Job, error | running.status == Running
      ensures FailJob(running, error, false, step.now).Ok? && FailJob(running, error, false, step.now).value.status == Failed
    {
    }
    hide Refusal, FailJob;
  }

  lemma AfterCallAttempts(running: Job, outcome: ProviderOutcome, now: string)
    requires running.status == Running
    ensures var phase := AfterCall(running, outcome, now);
            var counted := running.attempts + if Retryable(Answered(outcome)) then 1 else 0;
            && PhaseJob(phase) == running.id
            && ((phase.Acquired? && phase.running == running && counted == running.attempts)
                || (phase.Closing? && (Reopens(phase.next.status) ==> phase.next.attempts == counted)))
  {
  }

  lemma AnswerCounted(calls: seq<Call>, call: Call)
    requires calls != [] && calls[|calls| - 1] == Pending
    ensures Retries(calls[|calls| - 1 := call]) == Retries(calls) + if Retryable(call) then 1 else 0
    ensures Charged(calls[|calls| - 1 := call]) <= Charged(calls)
  {
    var prior := calls[..|calls| - 1];
    assert calls == prior + [Pending];
    RetriesAppend(prior, Pending);
    RetriesAppend(prior, call);
    assert calls[|calls| - 1 := call] == prior + [call];
  }

  lemma CallingCounted(s: State, w: nat)
    requires Inv(s) && Counted(s) && s.PhaseOf(w).Calling?
    ensures var phase := s.PhaseOf(w); var history := s.CallsOf(phase.running.id);
            && phase.running.status == Running && history != [] && history[|history| - 1] == Pending
            && phase.running.attempts == Retries(history)
  {
    var phase := s.PhaseOf(w);
    var history := s.CallsOf(phase.running.id);
    assert PhaseOk(s.store, history, phase) && PhaseCounted(phase, history);
  }

  lemma ReturnCounted(s: State, step: Step)
    requires Inv(s) && Counted(s) && step.Return? && s.PhaseOf(step.w).Calling?
    ensures var t := Apply(s, step); PhaseCounted(t.PhaseOf(step.w), t.CallsOf(PhaseJob(t.PhaseOf(step.w))))
  {
    hide Inv, Counted, Apply, AfterCall, Retries, Charged;
    var phase := s.PhaseOf(step.w);
    var running, history := phase.running, s.CallsOf(phase.running.id);
    CallingCounted(s, step.w);
    AnswerCounted(history, Answered(step.outcome));
    AfterCallAttempts(running, step.outcome, step.now);
    ReturnEffect(s, step);
  }

  /** Claiming, closing and dying leave nothing to count. */
  lemma QuietActor(s: State, step: Step)
    requires step.ClaimNext? || step.Close? || step.Crash?
    ensures var phase := Apply(s, step).PhaseOf(step.w); phase.Idle? || phase.HasClaim? || phase == s.PhaseOf(step.w)
  {
    hide ClaimJob, Hits;
  }

  /** A step its worker cannot take changes nothing. */
  lemma IdleAnswer(s: State, step: Step)
    requires (step.Return? && !s.PhaseOf(step.w).Calling?)
             || (step.Sink? && !(s.PhaseOf(step.w).Acquired? && s.PhaseOf(step.w).running.status == Running))
    ensures Apply(s, step) == s
  {
  }

  /** The worker's own phase stays counted. */
  lemma ActorCounted(s: State, step: Step)
    requires Inv(s) && Counted(s) && UpToDate(s, step)
    requires !step.Enqueue? && !step.List? && !step.Recover?
    ensures var t := Apply(s, step); PhaseCounted(t.PhaseOf(step.w), t.CallsOf(PhaseJob(t.PhaseOf(step.w))))
  {
    var phase := s.PhaseOf(step.w);
    assert PhaseCounted(phase, s.CallsOf(PhaseJob(phase)));
    if step.Start? {
      StartCounted(s, step);
      CallsKept(s, step);
    } else if step.Call? {
      CallCounted(s, step);
    } else if step.Return? && phase.Calling? {
      ReturnCounted(s, step);
    } else if step.Sink? && phase.Acquired? && phase.running.status == Running {
      SinkCounted(s, step.w, step.sunk, step.now);
      CallsKept(s, step);
    } else if step.Return? || step.Sink? {
      IdleAnswer(s, step);
    } else {
      QuietActor(s, step);
      CallsKept(s, step);
    }
    hide Apply, ApplySink, Inv, Counted, Retries, UpToDate, Absorbing;
  }

  lemma SinkCounted(s: State, w: nat, sunk: SinkOutcome, now: string)
    requires Inv(s) && s.PhaseOf(w).Acquired? && s.PhaseOf(w).running.status == Running
    ensures var phase := Apply(s, Sink(w, sunk, now)).PhaseOf(w); phase.Closing? && !Reopens(phase.next.status)
  {
    var phase := s.PhaseOf(w);
    assert PhaseOk(s.store, s.CallsOf(PhaseJob(s.workers[w])), s.workers[w]);
    hide Inv, PhaseOk, Consistent;
    AfterSinkShape(phase.running, phase.artifactId, sunk, now);
    SinkEffect(s, w, sunk, now);
    hide Apply, AfterSink;
  }

  /** A worker calls only while an attempt is left. */
  lemma CallWithinLimit(s: State, step: Step, id: string)
    requires Inv(s) && Counted(s) && step.Call? && id in s.store && Charged(s.CallsOf(id)) <= s.store[id].Limit()
    ensures Charged(Apply(s, step).CallsOf(id)) <= s.store[id].Limit()
  {
    CallHistory(s, step, id);
    if Apply(s, step).CallsOf(id) != s.CallsOf(id) {
      var running := s.PhaseOf(step.w).running;
      OwnedIsLegacy(s, step.w);
      assert PhaseCounted(s.workers[step.w], s.CallsOf(id));
      RetriesAreCharged(s.CallsOf(id));
      RetriesAppend(s.CallsOf(id), Pending);
      assert running.attempts < running.Limit() == s.store[id].Limit();
      hide Apply, Inv, Counted, Charged, Retries;
    }
  }

  lemma ReturnWithinLimit(s: State, step: Step, id: string)
    requires Inv(s) && step.Return? && id in s.store && Charged(s.CallsOf(id)) <= s.store[id].Limit()
    ensures Charged(Apply(s, step).CallsOf(id)) <= s.store[id].Limit()
  {
    ReturnHistory(s, step, id);
    if Apply(s, step).CallsOf(id) != s.CallsOf(id) {
      var phase := s.PhaseOf(step.w);
      assert PhaseOk(s.store, s.CallsOf(id), phase);
      AnswerCounted(s.CallsOf(id), Answered(step.outcome));
      hide Inv, Charged, Consistent;
      ReturnEffect(s, step);
    }
  }

  /** No history outgrows the limit, and the histories of waiting jobs stay as they are. */
  lemma HistoriesBounded(s: State, step: Step, id: string)
    requires Inv(s) && Counted(s) && id in s.store
    ensures Charged(Apply(s, step).CallsOf(id)) <= s.store[id].Limit()
    ensures Waiting(s.store[id].status) ==> Apply(s, step).CallsOf(id) == s.CallsOf(id)
  {
    assert JobCounted(s.store[id], s.CallsOf(id));
    hide Apply, Counted, Retries, Charged;
    if Apply(s, step).CallsOf(id) != s.CallsOf(id) {
      CallsStep(s, step, id);
      OwnersHoldRunning(s, step.w, id);
      hide Inv;
      if step.Call? {
        CallWithinLimit(s, step, id);
      } else {
        ReturnWithinLimit(s, step, id);
      }
    }
  }

  lemma ClosedCounted(s: State, step: Step)
    requires Inv(s) && Counted(s) && step.Close? && Written(s, step).Some?
    ensures var next := Written(s, step).value; Waiting(next.status) ==> next.attempts == Retries(s.CallsOf(next.id))
  {
    hide Retries, JobCounted, Consistent;
    var phase := s.workers[step.w];
    assert PhaseOk(s.store, s.CallsOf(PhaseJob(phase)), phase);
    assert PhaseCounted(phase, s.CallsOf(PhaseJob(phase)));
  }

  lemma RecoveredCounted(s: State, step: Step)
    requires Inv(s) && Counted(s) && step.Recover? && UpToDate(s, step) && Written(s, step).Some?
    ensures var next := Written(s, step).value; Waiting(next.status) ==> next.attempts == Retries(s.CallsOf(next.id))
  {
    hide Retries, PhaseCounted;
    var job := s.sweeps[step.sweep][0];
    assert Snapshot(s.store, job) && JobCounted(s.store[job.id], s.CallsOf(job.id));
  }

  /** A document written into a waiting status carries the counted attempts. */
  lemma WrittenCounted(s: State, step: Step)
    requires Inv(s) && Counted(s) && UpToDate(s, step) && Written(s, step).Some?
    ensures var next := Written(s, step).value; Waiting(next.status) ==> next.attempts == Retries(s.CallsOf(next.id))
  {
    match step
    case Enqueue(_) =>
    case ClaimNext(_, id, _) => assert JobCounted(s.store[id], s.CallsOf(id));
    case Start(_, _) => StartCounted(s, step);
    case Close(_) => ClosedCounted(s, step);
    case Recover(_, _, _, _, _) => RecoveredCounted(s, step);
  }

  lemma DocumentCounted(s: State, step: Step, id: string)
    requires Inv(s) && Counted(s) && UpToDate(s, step) && id in s.store
    ensures id in Apply(s, step).store && JobCounted(Apply(s, step).store[id], Apply(s, step).CallsOf(id))
  {
    var t := Apply(s, step);
    assert JobCounted(s.store[id], s.CallsOf(id));
    HistoriesBounded(s, step, id);
    IdentityStep(s, step, id);
    WrittenIsTheEffect(s, step);
    if t.CallsOf(id) != s.CallsOf(id) {
      WaitingCalls(s, step, id);
    } else if t.store[id] != s.store[id] {
      WrittenCounted(s, step);
    }
    hide Apply, Written, Inv, Retries;
  }

  lemma CountedStep(s: State, step: Step)
    requires Inv(s) && Counted(s) && UpToDate(s, step)
    ensures Counted(Apply(s, step))
  {
    var t := Apply(s, step);
    hide Apply, Written, Inv, JobCounted, PhaseCounted;
    forall id | id in t.store ensures JobCounted(t.store[id], t.CallsOf(id)) {
      if id in s.store {
        DocumentCounted(s, step, id);
      } else {
        EnqueuedCounted(s, step, id);
      }
    }
    forall w | w in t.workers ensures PhaseCounted(t.workers[w], t.CallsOf(PhaseJob(t.workers[w]))) {
      if step.Enqueue? || step.List? || step.Recover? || step.w != w {
        OtherWorkers(s, step, w);
        OtherCalls(s, step, w);
      } else {
        ActorCounted(s, step);
      }
    }
  }

  lemma EnqueuedCounted(s: State, step: Step, id: string)
    requires Inv(s) && id !in s.store && id in Apply(s, step).store
    ensures JobCounted(Apply(s, step).store[id], Apply(s, step).CallsOf(id))
  {
    WrittenIsTheEffect(s, step);
    assert step.Enqueue?;
  }

  /** A step that extends or answers a call history leaves the store alone. */
  lemma WaitingCalls(s: State, step: Step, id: string)
    requires Inv(s) && id in s.store && Apply(s, step).CallsOf(id) != s.CallsOf(id)
    ensures Apply(s, step).store == s.store && !Waiting(s.store[id].status)
  {
    hide Apply, Inv;
    CallsStep(s, step, id);
    OwnersHoldRunning(s, step.w, id);
    WrittenIsTheEffect(s, step);
  }

  lemma OtherCalls(s: State, step: Step, w: nat)
    requires Inv(s) && Counted(s) && w in Apply(s, step).workers
    requires step.Enqueue? || step.List? || step.Recover? || step.w != w
    ensures w in s.workers && PhaseCounted(s.workers[w], Apply(s, step).CallsOf(PhaseJob(s.workers[w])))
  {
    OtherWorkers(s, step, w);
    hide Apply, Retries, CallsOk, StoreOk, SweepsOk, WorkersOk, JobCounted;
    var id := PhaseJob(s.workers[w]);
    assert PhaseCounted(s.workers[w], s.CallsOf(id));
    if Apply(s, step).CallsOf(id) != s.CallsOf(id) {
      CallsStep(s, step, id);
      assert Owned(s.workers[w]) != Some(id);
    }
  }

  // ---------------------------------------------------------------- snapshots are never ahead

  /** A stale write that is not harmful ends the job. */
  lemma HarmlessStaleIsFinal(s: State, step: Step, id: string)
    requires Inv(s) && id in s.store && StaleWrite(s, step, id) && !HarmfulStale(s, step)
    ensures id in Apply(s, step).store && Absorbing(Apply(s, step).store[id].status)
  {
    StaleWriteWrites(s, step, id);
    WrittenIsTheEffect(s, step);
    hide Apply, Inv;
  }

  lemma NotAheadKeeps(s: State, step: Step, job: Job)
    requires Inv(s) && !HarmfulStale(s, step) && job.id in s.store && NotAhead(s.store, job)
    ensures NotAhead(Apply(s, step).store, job)
  {
    AttemptsRegressExactly(s, step, job.id);
    if StaleWrite(s, step, job.id) {
      HarmlessStaleIsFinal(s, step, job.id);
    }
    if Absorbing(s.store[job.id].status) {
      AbsorbingStep(s, step, job.id);
    }
  }

  /** A worker's claim is an old one, or was just written. */
  lemma ClaimsStep(s: State, step: Step, w: nat)
    requires w in Apply(s, step).workers && Apply(s, step).workers[w].HasClaim?
    ensures var t := Apply(s, step);
            || (w in s.workers && t.workers[w] == s.workers[w])
            || (t.workers[w].claimed.id in t.store && t.store[t.workers[w].claimed.id] == t.workers[w].claimed)
            || (step.ClaimNext? && t.workers[w].claimed == ClaimJob(s.store[step.id], step.now).value
                && t.store == s.store[step.id := t.workers[w].claimed])
  {
    if step.Enqueue? || step.List? || step.Recover? || step.w != w {
      OtherWorkers(s, step, w);
      hide Apply;
    } else if !step.ClaimNext? {
      NoOtherClaims(s, step);
      hide Apply;
    } else {
      hide ClaimJob;
    }
  }

  lemma NoOtherClaims(s: State, step: Step)
    requires step.Start? || step.Call? || step.Return? || step.Sink? || step.Close? || step.Crash?
    ensures var t := Apply(s, step); t.PhaseOf(step.w).HasClaim? ==> t.workers == s.workers
  {
    hide MarkExecutionBlocked, MarkRunning, FailJob, AfterSink, Hits, GroundedBlockReason, Refusal;
  }

  /** A listed snapshot is an old one, or was just read. */
  lemma SweepsStep(s: State, step: Step, r: nat, k: nat)
    requires r in Apply(s, step).sweeps && k < |Apply(s, step).sweeps[r]|
    ensures var t := Apply(s, step);
            || (r in s.sweeps && t.sweeps[r][k] in s.sweeps[r])
            || (t.store == s.store && t.sweeps[r][k].id in t.store && t.store[t.sweeps[r][k].id] == t.sweeps[r][k])
  {
    if step.Recover? {
      hide Recovery, Hits;
    } else if !step.List? {
      SweepsKept(s, step);
      hide Apply;
    }
  }

  lemma SweepsKept(s: State, step: Step)
    requires !step.List? && !step.Recover?
    ensures Apply(s, step).sweeps == s.sweeps
  {
    if step.Start? {
      StartKeepsSweeps(s, step);
    } else if step.ClaimNext? {
      OpeningKeepsSweeps(s, step);
    } else if step.Call? {
      CallKeepsSweeps(s, step);
    } else {
      hide AfterSink, AfterCall, Hits, Fresh;
    }
  }

  lemma OpeningKeepsSweeps(s: State, step: Step)
    requires step.ClaimNext?
    ensures Apply(s, step).sweeps == s.sweeps
  {
    hide ClaimJob;
  }

  lemma CallKeepsSweeps(s: State, step: Step)
    requires step.Call?
    ensures Apply(s, step).sweeps == s.sweeps
  {
    hide FailJob, Refusal;
  }

  lemma StartKeepsSweeps(s: State, step: Step)
    requires step.Start?
    ensures Apply(s, step).sweeps == s.sweeps
  {
    hide MarkExecutionBlocked, MarkRunning, Hits, GroundedBlockReason;
  }

  lemma OrderedStep(s: State, step: Step)
    requires Inv(s) && Ordered(s) && !HarmfulStale(s, step)
    ensures Ordered(Apply(s, step))
  {
    var t := Apply(s, step);
    StepKeepsInv(s, step);
    forall w | w in t.workers && t.workers[w].HasClaim? ensures NotAhead(t.store, t.workers[w].claimed) {
      ClaimsStep(s, step, w);
      if w in s.workers && t.workers[w] == s.workers[w] {
        assert PhaseOk(s.store, s.CallsOf(PhaseJob(s.workers[w])), s.workers[w]);
        NotAheadKeeps(s, step, s.workers[w].claimed);
      }
    }
    forall r, k | r in t.sweeps && 0 <= k < |t.sweeps[r]| ensures NotAhead(t.store, t.sweeps[r][k]) {
      SweepsStep(s, step, r, k);
      if r in s.sweeps && t.sweeps[r][k] in s.sweeps[r] {
        var i :| 0 <= i < |s.sweeps[r]| && s.sweeps[r][i] == t.sweeps[r][k];
        assert Snapshot(s.store, s.sweeps[r][i]) && NotAhead(s.store, s.sweeps[r][i]);
        NotAheadKeeps(s, step, s.sweeps[r][i]);
      }
    }
  }

  // ---------------------------------------------------------------- when attempts count

  /** Working from an outdated count loses count. */
  lemma HarmfulLosesCount(s: State, step: Step)
    requires Inv(s) && Counted(s) && HarmfulStale(s, step)
    ensures !Counted(Apply(s, step))
  {
    var t := Apply(s, step);
    if step.Start? {
      var claimed := s.PhaseOf(step.w).claimed;
      assert PhaseOk(s.store, s.CallsOf(claimed.id), s.workers[step.w]) && JobCounted(s.store[claimed.id], s.CallsOf(claimed.id));
      assert t.workers[step.w].Owns? && t.workers[step.w].running.attempts == claimed.attempts;
      assert !PhaseCounted(t.workers[step.w], t.CallsOf(PhaseJob(t.workers[step.w])));
    } else {
      RequeueLosesCount(s, step);
    }
  }

  lemma RequeueLosesCount(s: State, step: Step)
    requires Inv(s) && Counted(s) && step.Recover? && HarmfulStale(s, step)
    ensures !Counted(Apply(s, step))
  {
    var job, t := s.sweeps[step.sweep][0], Apply(s, step);
    assert Snapshot(s.store, job) && JobCounted(s.store[job.id], s.CallsOf(job.id));
    WrittenIsTheEffect(s, step);
    StaleWriteWrites(s, step, job.id);
    CallsKept(s, step);
    hide Apply, Inv, Retries, Charged;
    assert t.store[job.id] == Written(s, step).value;
    assert !JobCounted(t.store[job.id], t.CallsOf(job.id));
  }

  /** A step keeps count exactly when it is not a harmful stale write. */
  lemma CountedStepExactly(s: State, step: Step)
    requires Inv(s) && Ordered(s) && Counted(s)
    ensures Counted(Apply(s, step)) <==> !HarmfulStale(s, step)
  {
    UpToDateExactly(s, step);
    if HarmfulStale(s, step) {
      HarmfulLosesCount(s, step);
    } else {
      CountedStep(s, step);
    }
  }

  ghost predicate AlwaysCounted(s: State, steps: seq<Step>)
    decreases |steps|
  {
    Counted(s) && (steps != [] ==> AlwaysCounted(Apply(s, steps[0]), steps[1..]))
  }

  /** All along a run, the attempts of a waiting job are its retryable failures, and no job is charged
      for more calls than its limit, exactly when no step of the run is a harmful stale write. */
  lemma {:induction false} CountedRun(s: State, steps: seq<Step>)
    requires Inv(s) && Ordered(s) && Counted(s)
    ensures AlwaysCounted(s, steps) <==> NoHarmfulStale(s, steps)
    ensures NoHarmfulStale(s, steps) ==> Counted(Run(s, steps))
    decreases |steps|
  {
    if steps != [] {
      CountedStepExactly(s, steps[0]);
      StepKeepsInv(s, steps[0]);
      if !HarmfulStale(s, steps[0]) {
        OrderedStep(s, steps[0]);
        CountedRun(Apply(s, steps[0]), steps[1..]);
      }
    }
  }

  ghost predicate NoStaleWrite(s: State, steps: seq<Step>)
    decreases |steps|
  {
    steps != [] ==> (forall id :: !StaleWrite(s, steps[0], id)) && NoStaleWrite(Apply(s, steps[0]), steps[1..])
  }

  /** Runs without any stale write are among them. */
  lemma {:induction false} NoStaleIsHarmless(s: State, steps: seq<Step>)
    requires NoStaleWrite(s, steps)
    ensures NoHarmfulStale(s, steps)
    decreases |steps|
  {
    if steps != [] {
      NoStaleIsHarmless(Apply(s, steps[0]), steps[1..]);
    }
  }

  /** In a run without a harmful stale write, a job's provider is called at most `maxAttempts` times,
      calls that found no credential excepted; in particular it fails retryably no more often. */
  lemma RetriesBounded(steps: seq<Step>, id: string)
    requires NoHarmfulStale(EMPTY, steps) && id in Run(EMPTY, steps).store
    ensures var s := Run(EMPTY, steps); Retries(s.CallsOf(id)) <= Charged(s.CallsOf(id)) <= s.store[id].Limit()
  {
    ReachableInv(steps);
    CountedRun(EMPTY, steps);
    assert JobCounted(Run(EMPTY, steps).store[id], Run(EMPTY, steps).CallsOf(id));
    RetriesAreCharged(Run(EMPTY, steps).CallsOf(id));
  }

  // ---------------------------------------------------------------- runs that go on failing

  /** A retryable provider error, and what the job says about it. */
  const BUSY: ProviderOutcome := AcquisitionError("AI_PROVIDER_TEMPORARY_FAILURE", "busy", true)
  const BUSY_TEXT := "AI_PROVIDER_TEMPORARY_FAILURE" + ": " + "busy"

  /** Worker `w`, owning a job, calls the provider, meets that error and closes. */
  function Failure(w: nat, provider: string): seq<Step> {
    [Call(w, true, Some(provider), "t"), Return(w, BUSY, "t"), Close(w)]
  }

  function Begin(w: nat, id: string): seq<Step> {
    [ClaimNext(w, id, "t"), Step.Start(w, "t")]
  }

  /** A sweep lists the one job and requeues it. */
  function Requeue(job: Job): seq<Step> {
    [List(0, [job]), Recover(0, true, true, true, "t")]
  }

  function Started(job: Job): Job
    requires job.status == Queued
  {
    MarkRunning(ClaimJob(job, "t").value, "t").value
  }

  function Requeued(job: Job): Job
    requires job.status == RetryPending || job.status == Claimed
  {
    Recovery(job, true, true, true, "t").value
  }

  lemma {:induction false} RunAppend(s: State, a: seq<Step>, b: seq<Step>)
    ensures Run(s, a + b) == Run(Run(s, a), b)
    ensures NoHarmfulStale(s, a) && NoHarmfulStale(Run(s, a), b) ==> NoHarmfulStale(s, a + b)
    decreases |a|
  {
    hide HarmfulStale, Apply;
    if a == [] {
      assert a + b == b;
    } else {
      assert (a + b)[0] == a[0] && (a + b)[1..] == a[1..] + b;
      RunAppend(Apply(s, a[0]), a[1..], b);
    }
  }

  lemma Run2(s: State, a: Step, b: Step)
    ensures Run(s, [a, b]) == Apply(Apply(s, a), b)
    ensures !HarmfulStale(s, a) && !HarmfulStale(Apply(s, a), b) ==> NoHarmfulStale(s, [a, b])
  {
    hide HarmfulStale, Apply;
    var t := Apply(s, a);
    assert [a, b][1..] == [b] && [b][1..] == [];
    assert Run(t, [b]) == Run(Apply(t, b), []);
    assert NoHarmfulStale(Apply(t, b), []);
    assert !HarmfulStale(t, b) ==> NoHarmfulStale(t, [b]);
  }

  lemma Run3(s: State, a: Step, b: Step, c: Step)
    ensures Run(s, [a, b, c]) == Apply(Apply(Apply(s, a), b), c)
    ensures !HarmfulStale(s, a) && NoHarmfulStale(Apply(s, a), [b, c]) ==> NoHarmfulStale(s, [a, b, c])
  {
    hide HarmfulStale, Apply;
    assert [a, b, c][1..] == [b, c];
    Run2(Apply(s, a), b, c);
  }

  /** A worker that owns a stored job fails retryably and closes. */
  lemma FailureRound(s: State, w: nat, running: Job)
    requires s.PhaseOf(w) == Owns(running) && running.status == Running && SupportedProvider(running.provider)
    requires running.id in s.store && s.store[running.id] == running
    ensures var id := running.id;
            Run(s, Failure(w, running.provider)) == State(s.store[id := FailJob(running, BUSY_TEXT, true, "t").value], s.workers[w := Idle], s.sweeps,
                                        s.calls[id := s.CallsOf(id) + [Answered(BUSY)]])
    ensures NoHarmfulStale(s, Failure(w, running.provider))
  {
    hide Run, NoHarmfulStale, Apply;
    var id, history, failed := running.id, s.CallsOf(running.id), FailJob(running, BUSY_TEXT, true, "t").value;
    var a, b, c := Call(w, true, Some(running.provider), "t"), Return(w, BUSY, "t"), Close(w);
    Run3(s, a, b, c);
    Run2(Apply(s, a), b, c);
    FailureCalled(s, w, running);
    hide FailJob;
    var s1 := Apply(s, a);
    assert s1.CallsOf(id) == history + [Pending];
    FailureAnswered(s1, w, running, history);
    var s2 := Apply(s1, b);
    FailureClosed(s2, w, running);
    assert s1.calls[id := history + [Answered(BUSY)]] == s.calls[id := history + [Answered(BUSY)]];
    assert s1.workers[w := Closing(running, failed)][w := Idle] == s.workers[w := Idle];
  }

  lemma FailureCalled(s: State, w: nat, running: Job)
    requires s.PhaseOf(w) == Owns(running) && running.status == Running && SupportedProvider(running.provider)
    ensures Apply(s, Call(w, true, Some(running.provider), "t"))
         == State(s.store, s.workers[w := Calling(running)], s.sweeps, s.calls[running.id := s.CallsOf(running.id) + [Pending]])
  {
    hide FailJob;
  }

  lemma FailureAnswered(s: State, w: nat, running: Job, history: seq<Call>)
    requires s.PhaseOf(w) == Calling(running) && running.status == Running && s.CallsOf(running.id) == history + [Pending]
    ensures Apply(s, Return(w, BUSY, "t"))
         == s.(calls := s.calls[running.id := history + [Answered(BUSY)]]).Goto(w, Closing(running, FailJob(running, BUSY_TEXT, true, "t").value))
  {
    hide FailJob;
    assert (history + [Pending])[|history| := Answered(BUSY)] == history + [Answered(BUSY)];
  }

  lemma FailureClosed(s: State, w: nat, running: Job)
    requires running.status == Running && s.PhaseOf(w) == Closing(running, FailJob(running, BUSY_TEXT, true, "t").value)
    requires running.id in s.store && s.store[running.id] == running
    ensures Apply(s, Close(w)) == s.(store := s.store[running.id := FailJob(running, BUSY_TEXT, true, "t").value]).Goto(w, Idle)
  {
  }

  lemma BeginRound(s: State, w: nat, job: Job)
    requires s.PhaseOf(w) == Idle && job.id in s.store && s.store[job.id] == job && job.status == Queued && job.ModeOf() == LegacyProvider
    ensures Run(s, Begin(w, job.id)) == State(s.store[job.id := Started(job)], s.workers[w := Owns(Started(job))], s.sweeps, s.calls)
    ensures NoHarmfulStale(s, Begin(w, job.id))
  {
    Run2(s, ClaimNext(w, job.id, "t"), Step.Start(w, "t"));
    var claimed := ClaimJob(job, "t").value;
    assert Apply(s, ClaimNext(w, job.id, "t")) == State(s.store[job.id := claimed], s.workers[w := HasClaim(claimed)], s.sweeps, s.calls);
  }

  lemma RequeueRound(s: State, job: Job)
    requires job.id in s.store && s.store[job.id] == job && (job.status == RetryPending || job.status == Claimed)
    ensures Run(s, Requeue(job)) == State(s.store[job.id := Requeued(job)], s.workers, s.sweeps[0 := []], s.calls)
    ensures NoHarmfulStale(s, Requeue(job))
  {
    var list, recover := List(0, [job]), Recover(0, true, true, true, "t");
    Run2(s, list, recover);
    JustListed(s, job);
    JustRecovered(Apply(s, list), job);
    hide Run, NoHarmfulStale, Apply, HarmfulStale, Recovery;
  }

  lemma JustListed(s: State, job: Job)
    requires job.id in s.store && s.store[job.id] == job
    ensures Apply(s, List(0, [job])) == State(s.store, s.workers, s.sweeps[0 := [job]], s.calls)
    ensures !HarmfulStale(s, List(0, [job]))
  {
  }

  lemma JustRecovered(s: State, job: Job)
    requires 0 in s.sweeps && s.sweeps[0] == [job] && job.id in s.store && s.store[job.id] == job
    requires job.status == RetryPending || job.status == Claimed
    ensures Apply(s, Recover(0, true, true, true, "t")) == State(s.store[job.id := Requeued(job)], s.workers, s.sweeps[0 := []], s.calls)
    ensures !HarmfulStale(s, Recover(0, true, true, true, "t"))
  {
  }

  lemma FailedShape(running: Job)
    requires running.status == Running
    ensures var failed := FailJob(running, BUSY_TEXT, true, "t");
            && failed.Ok? && failed.value.Identity() == running.Identity() && failed.value.attempts == running.attempts + 1
            && failed.value.Limit() == running.Limit() && failed.value.ModeOf() == running.ModeOf()
            && (running.attempts + 1 < running.Limit() ==> failed.value.status == RetryPending)
  {
  }

  /** A retryable failure while attempts are left, and the way back to RUNNING. */
  lemma FailAndRestart(s: State, w: nat, running: Job) returns (round: seq<Step>, next: Job)
    requires s.PhaseOf(w) == Owns(running) && running.status == Running && SupportedProvider(running.provider)
    requires running.id in s.store && s.store[running.id] == running && running.ModeOf() == LegacyProvider
    requires running.attempts + 1 < running.Limit()
    ensures NoHarmfulStale(s, round)
    ensures var t, id := Run(s, round), running.id;
            && t.PhaseOf(w) == Owns(next) && next.status == Running && next.id == id && next.provider == running.provider
            && id in t.store && t.store[id] == next && next.ModeOf() == LegacyProvider
            && next.Limit() == running.Limit() && next.attempts == running.attempts + 1
            && t.CallsOf(id) == s.CallsOf(id) + [Answered(BUSY)]
  {
    hide NoHarmfulStale, Run, Failure, Begin, Requeue, SupportedProvider;
    var id, failed := running.id, FailJob(running, BUSY_TEXT, true, "t").value;
    next := Started(Requeued(failed));
    FailureRound(s, w, running);
    FailedShape(running);
    hide FailJob;
    var s1 := Run(s, Failure(w, running.provider));
    RequeueRound(s1, failed);
    var s2 := Run(s1, Requeue(failed));
    BeginRound(s2, w, Requeued(failed));
    RunAppend(s, Failure(w, running.provider), Requeue(failed));
    RunAppend(s, Failure(w, running.provider) + Requeue(failed), Begin(w, id));
    round := Failure(w, running.provider) + Requeue(failed) + Begin(w, id);
  }

  /** A provider that keeps failing retryably uses up all attempts that are left. */
  lemma {:induction false} Exhaust(s: State, w: nat, running: Job) returns (steps: seq<Step>)
    requires s.PhaseOf(w) == Owns(running) && running.status == Running && SupportedProvider(running.provider)
    requires running.id in s.store && s.store[running.id] == running && running.ModeOf() == LegacyProvider
    requires running.attempts < running.Limit()
    ensures NoHarmfulStale(s, steps)
    ensures var t := Run(s, steps);
            && running.id in t.store && t.store[running.id].Limit() == running.Limit()
            && Charged(t.CallsOf(running.id)) == Charged(s.CallsOf(running.id)) + running.Limit() - running.attempts
    decreases running.Limit() - running.attempts
  {
    hide NoHarmfulStale, Run, Failure, Retries, Charged, FailJob;
    RetriesAppend(s.CallsOf(running.id), Answered(BUSY));
    if running.attempts + 1 < running.Limit() {
      var round, next := FailAndRestart(s, w, running);
      var more := Exhaust(Run(s, round), w, next);
      RunAppend(s, round, more);
      steps := round + more;
    } else {
      FailureRound(s, w, running);
      FailedShape(running);
      steps := Failure(w, running.provider);
    }
  }

  // ---------------------------------------------------------------- the bound, exactly

  /** Only supported providers were ever called. */
  ghost predicate Supported(s: State) {
    forall id | id in s.store && s.CallsOf(id) != [] :: SupportedProvider(s.store[id].provider)
  }

  lemma SupportedStep(s: State, step: Step)
    requires Inv(s) && Supported(s)
    ensures Supported(Apply(s, step))
  {
    var t := Apply(s, step);
    forall id | id in t.store && t.CallsOf(id) != [] ensures SupportedProvider(t.store[id].provider) {
      if id in s.store {
        IdentityStep(s, step, id);
        if s.CallsOf(id) == [] {
          FirstCallSupported(s, step, id);
        }
      } else {
        NewJobUncalled(s, step, id);
      }
    }
  }

  lemma FirstCallSupported(s: State, step: Step, id: string)
    requires Inv(s) && id in s.store && s.CallsOf(id) == [] && Apply(s, step).CallsOf(id) != []
    ensures SupportedProvider(s.store[id].provider)
  {
    CallsStep(s, step, id);
    CallingHasHistory(s, step.w);
    OwnersHoldRunning(s, step.w, id);
    if step.Call? {
      CallHistory(s, step, id);
      OwnedIsLegacy(s, step.w);
    }
    hide Apply, SupportedProvider, Consistent;
  }

  lemma CallingHasHistory(s: State, w: nat)
    requires Inv(s)
    ensures s.PhaseOf(w).Calling? ==> s.CallsOf(s.PhaseOf(w).running.id) != []
  {
    assert s.PhaseOf(w).Calling? ==> PhaseOk(s.store, s.CallsOf(PhaseJob(s.PhaseOf(w))), s.PhaseOf(w));
  }

  lemma NewJobUncalled(s: State, step: Step, id: string)
    requires Inv(s) && id !in s.store && id in Apply(s, step).store
    ensures Apply(s, step).CallsOf(id) == []
  {
    WrittenIsTheEffect(s, step);
    assert step.Enqueue?;
    CallsKept(s, step);
  }

  /** From `s` on, without a further harmful stale write, this job is charged beyond its limit. */
  ghost predicate Overcharges(s: State, steps: seq<Step>, id: string) {
    && NoHarmfulStale(s, steps)
    && id in Run(s, steps).store && Charged(Run(s, steps).CallsOf(id)) > Run(s, steps).store[id].Limit()
  }

  lemma StaleStartOvercharges(s: State, step: Step) returns (steps: seq<Step>)
    requires Inv(s) && Counted(s) && Supported(s) && step.Start? && HarmfulStale(s, step)
    ensures Overcharges(Apply(s, step), steps, s.PhaseOf(step.w).claimed.id)
  {
    var claimed := s.PhaseOf(step.w).claimed;
    var id, t := claimed.id, Apply(s, step);
    var running := claimed.(status := Running, updatedAt := step.now);
    AdkJobEndings.ClaimedJobStarts(s, step.w, claimed, step.now);
    StaleClaim(s, step);
    hide Apply, Inv, Counted, Supported, HarmfulStale, Charged, Retries, Run, NoHarmfulStale;
    steps := Exhaust(t, step.w, running);
  }

  /** A claim that has been overtaken: the job was charged for more than the claim knows, and may go on. */
  lemma StaleClaim(s: State, step: Step)
    requires Inv(s) && Counted(s) && Supported(s) && step.Start? && HarmfulStale(s, step)
    ensures var claimed := s.PhaseOf(step.w).claimed; var id := claimed.id;
            && id in s.store && s.store[id].status == Claimed && claimed.Limit() == s.store[id].Limit()
            && claimed.executionMode != Some(GroundedPrepared) && claimed.ModeOf() == LegacyProvider && SupportedProvider(claimed.provider)
            && claimed.attempts < claimed.Limit() && claimed.attempts < Charged(s.CallsOf(id))
  {
    var claimed := s.PhaseOf(step.w).claimed;
    HeldClaim(s, step.w);
    assert JobCounted(s.store[claimed.id], s.CallsOf(claimed.id));
    RetriesAreCharged(s.CallsOf(claimed.id));
    hide WorkersOk, SweepsOk, Exclusive, SupportedProvider;
  }

  lemma StaleRequeueOvercharges(s: State, step: Step) returns (steps: seq<Step>)
    requires Inv(s) && Counted(s) && Supported(s) && step.Recover? && HarmfulStale(s, step)
    ensures Overcharges(Apply(s, step), steps, s.sweeps[step.sweep][0].id)
  {
    hide Inv, Counted, Supported, HarmfulStale, Charged, Retries;
    var t := Apply(s, step);
    var queued := StaleRequeueEffect(s, step);
    var u := Apply(t, Crash(0));
    assert u == t.Goto(0, Idle);
    hide Apply, Run, NoHarmfulStale;
    steps := WorkFrom(t, u, queued);
  }

  /** A stale requeue leaves a queued provider job with fewer attempts than its failures. */
  lemma StaleRequeueEffect(s: State, step: Step) returns (queued: Job)
    requires Inv(s) && Counted(s) && Supported(s) && step.Recover? && HarmfulStale(s, step)
    ensures var t, id := Apply(s, step), s.sweeps[step.sweep][0].id;
            && queued.id == id && id in t.store && t.store[id] == queued
            && queued.status == Queued && queued.ModeOf() == LegacyProvider && SupportedProvider(queued.provider)
            && queued.attempts < queued.Limit() && queued.attempts < Charged(t.CallsOf(id))
  {
    var job := s.sweeps[step.sweep][0];
    var id := job.id;
    assert Snapshot(s.store, job) && JobCounted(s.store[id], s.CallsOf(id));
    RetriesAreCharged(s.CallsOf(id));
    StaleWriteWrites(s, step, id);
    WrittenIsTheEffect(s, step);
    CallsKept(s, step);
    hide Apply, Retries, Charged;
    RecoveryShape(job, step.retryPending, step.credentialBlocked, step.stale, step.now);
    assert s.CallsOf(id) != [] && s.store[id].ModeOf() == LegacyProvider;
    queued := Recovery(job, step.retryPending, step.credentialBlocked, step.stale, step.now).value;
    RecoveryAttempts(job, step.retryPending, step.credentialBlocked, step.stale, step.now);
    hide Recovery, Inv, Counted;
  }

  lemma RecoveryAttempts(job: Job, retryPending: bool, credentialBlocked: bool, stale: bool, now: string)
    requires Recovery(job, retryPending, credentialBlocked, stale, now).Some?
    ensures Recovery(job, retryPending, credentialBlocked, stale, now).value.attempts == job.attempts
  {
  }

  /** Worker 0 dies if it was at work, and takes the queued job until its attempts are used up. */
  lemma WorkFrom(t: State, u: State, queued: Job) returns (steps: seq<Step>)
    requires u == Apply(t, Crash(0)) == t.Goto(0, Idle)
    requires queued.id in t.store && t.store[queued.id] == queued && queued.status == Queued && queued.ModeOf() == LegacyProvider
    requires SupportedProvider(queued.provider) && queued.attempts < queued.Limit()
    ensures NoHarmfulStale(t, steps)
    ensures var end := Run(t, steps);
            && queued.id in end.store && end.store[queued.id].Limit() == queued.Limit()
            && Charged(end.CallsOf(queued.id)) == Charged(t.CallsOf(queued.id)) + queued.Limit() - queued.attempts
  {
    CrashRound(t);
    hide Apply, Run, NoHarmfulStale, Begin;
    BeginRound(u, 0, queued);
    var v := Run(u, Begin(0, queued.id));
    var more := Exhaust(v, 0, Started(queued));
    RunAppend(u, Begin(0, queued.id), more);
    RunAppend(t, [Crash(0)], Begin(0, queued.id) + more);
    steps := [Crash(0)] + (Begin(0, queued.id) + more);
  }

  lemma CrashRound(s: State)
    ensures Run(s, [Crash(0)]) == Apply(s, Crash(0)) && NoHarmfulStale(s, [Crash(0)])
  {
    assert [Crash(0)][1..] == [];
    assert Run(Apply(s, Crash(0)), []) == Apply(s, Crash(0)) && NoHarmfulStale(Apply(s, Crash(0)), []);
  }

  /** Where attempts count, the next step is a harmful stale write exactly when, after it, a job can be
      charged beyond its limit without any further one. */
  lemma BoundExactly(s: State, step: Step)
    requires Inv(s) && Ordered(s) && Counted(s) && Supported(s)
    ensures HarmfulStale(s, step) <==> exists steps, id :: Overcharges(Apply(s, step), steps, id)
  {
    if HarmfulStale(s, step) {
      if step.Start? {
        var steps := StaleStartOvercharges(s, step);
      } else {
        var steps := StaleRequeueOvercharges(s, step);
      }
    } else {
      CountedStepExactly(s, step);
      StepKeepsInv(s, step);
      OrderedStep(s, step);
      forall steps, id | NoHarmfulStale(Apply(s, step), steps) ensures !Overcharges(Apply(s, step), steps, id) {
        CountedRun(Apply(s, step), steps);
        var t := Run(Apply(s, step), steps);
        assert id in t.store ==> JobCounted(t.store[id], t.CallsOf(id));
      }
    }
  }

  /** So it is after every run without a harmful stale write. */
  lemma BoundBreaksExactly(prior: seq<Step>, step: Step)
    requires NoHarmfulStale(EMPTY, prior)
    ensures var s := Run(EMPTY, prior);
            HarmfulStale(s, step) <==> exists steps, id :: Overcharges(Apply(s, step), steps, id)
  {
    EverythingKept(EMPTY, prior);
    BoundExactly(Run(EMPTY, prior), step);
  }

  lemma {:induction false} EverythingKept(s: State, steps: seq<Step>)
    requires Inv(s) && Ordered(s) && Counted(s) && Supported(s) && NoHarmfulStale(s, steps)
    ensures var t := Run(s, steps); Inv(t) && Ordered(t) && Counted(t) && Supported(t)
    decreases |steps|
  {
    hide HarmfulStale, Inv, Ordered, Counted, Supported, Apply;
    if steps != [] {
      CountedStepExactly(s, steps[0]);
      StepKeepsInv(s, steps[0]);
      OrderedStep(s, steps[0]);
      SupportedStep(s, steps[0]);
      EverythingKept(Apply(s, steps[0]), steps[1..]);
    }
  }

  // ---------------------------------------------------------------- a run that breaks the bound

  // Worker 0 sleeps on its claim while a sweep requeues the job, which then fails once elsewhere.

  const SAMPLE := Job("j", "a", "OPENAI", None, None, Queued, 0, Some(2), Some("k"), "t", "t", [], None)

  function At(status: Status, attempts: int, error: Option<string>): Job {
    SAMPLE.(status := status, attempts := attempts, error := error)
  }

  const SLEEPY: seq<Step> := [Enqueue(SAMPLE), ClaimNext(0, "j", "t")]

  /** Requeued and claimed by worker 1, which fails; requeued and claimed by worker 2. */
  const OVERTAKEN: seq<Step> :=
    Requeue(At(Claimed, 0, None)) + Begin(1, "j") + Failure(1, "OPENAI") + Requeue(At(RetryPending, 1, Some(BUSY_TEXT))) + [ClaimNext(2, "j", "t")]

  /** The job is stored so, and worker 0 still holds its first claim. */
  ghost predicate Sleeps(s: State, job: Job) {
    && SAMPLE.id in s.store && s.store[SAMPLE.id] == job
    && s.PhaseOf(0) == HasClaim(At(Claimed, 0, None)) && s.PhaseOf(1) == s.PhaseOf(2) == Idle
  }

  lemma AfterSleepy()
    ensures Sleeps(Run(EMPTY, SLEEPY), At(Claimed, 0, None)) && NoHarmfulStale(EMPTY, SLEEPY)
  {
    Run2(EMPTY, Enqueue(SAMPLE), ClaimNext(0, "j", "t"));
  }

  lemma RequeuedSleeps(s: State, job: Job)
    requires Sleeps(s, job) && (job == At(Claimed, 0, None) || job == At(RetryPending, 1, Some(BUSY_TEXT)))
    ensures Sleeps(Run(s, Requeue(job)), At(Queued, job.attempts, None)) && NoHarmfulStale(s, Requeue(job))
  {
    RequeueRound(s, job);
    hide Run, Requeue, NoHarmfulStale;
  }

  lemma FailsElsewhere(s: State)
    requires Sleeps(s, At(Queued, 0, None))
    ensures Sleeps(Run(s, Begin(1, "j") + Failure(1, "OPENAI")), At(RetryPending, 1, Some(BUSY_TEXT))) && NoHarmfulStale(s, Begin(1, "j") + Failure(1, "OPENAI"))
  {
    hide Run, Begin, Failure, NoHarmfulStale;
    BeginRound(s, 1, At(Queued, 0, None));
    FailureRound(Run(s, Begin(1, "j")), 1, At(Running, 0, None));
    RunAppend(s, Begin(1, "j"), Failure(1, "OPENAI"));
  }

  lemma ClaimedElsewhere(s: State)
    requires Sleeps(s, At(Queued, 1, None))
    ensures var t := Run(s, [ClaimNext(2, "j", "t")]);
            NoHarmfulStale(s, [ClaimNext(2, "j", "t")]) && HarmfulStale(t, Step.Start(0, "t"))
  {
    var step := ClaimNext(2, "j", "t");
    assert [step][1..] == [] && Run(s, [step]) == Run(Apply(s, step), []);
    assert NoHarmfulStale(Apply(s, step), []);
    assert Apply(s, step).store[SAMPLE.id] == At(Claimed, 1, None) && Apply(s, step).PhaseOf(0) == s.PhaseOf(0);
  }

  lemma AfterOvertaken(s: State)
    requires Sleeps(s, At(Claimed, 0, None))
    ensures NoHarmfulStale(s, OVERTAKEN) && HarmfulStale(Run(s, OVERTAKEN), Step.Start(0, "t"))
  {
    hide Run, Begin, Failure, Requeue, NoHarmfulStale, HarmfulStale, Sleeps;
    var first, work, again := Requeue(At(Claimed, 0, None)), Begin(1, "j") + Failure(1, "OPENAI"), Requeue(At(RetryPending, 1, Some(BUSY_TEXT)));
    RequeuedSleeps(s, At(Claimed, 0, None));
    FailsElsewhere(Run(s, first));
    RunAppend(s, first, work);
    RequeuedSleeps(Run(s, first + work), At(RetryPending, 1, Some(BUSY_TEXT)));
    RunAppend(s, first + work, again);
    ClaimedElsewhere(Run(s, first + work + again));
    RunAppend(s, first + work + again, [ClaimNext(2, "j", "t")]);
    assert OVERTAKEN == first + work + again + [ClaimNext(2, "j", "t")];
  }

  /** A concrete run that breaks the bound: without a harmful stale write up to the moment when the sleeping
      worker starts from its old claim, and without one after it, the job is charged beyond its limit. */
  lemma StaleStartsBreakTheBound() returns (steps: seq<Step>, id: string)
    ensures NoHarmfulStale(EMPTY, SLEEPY + OVERTAKEN)
    ensures var s := Run(EMPTY, SLEEPY + OVERTAKEN);
            HarmfulStale(s, Step.Start(0, "t")) && Overcharges(Apply(s, Step.Start(0, "t")), steps, id)
  {
    hide Apply, Run, SLEEPY, OVERTAKEN, NoHarmfulStale, HarmfulStale, Overcharges;
    AfterSleepy();
    AfterOvertaken(Run(EMPTY, SLEEPY));
    RunAppend(EMPTY, SLEEPY, OVERTAKEN);
    BoundBreaksExactly(SLEEPY + OVERTAKEN, Step.Start(0, "t"));
    steps, id :| Overcharges(Apply(Run(EMPTY, SLEEPY + OVERTAKEN), Step.Start(0, "t")), steps, id);
  }
}
