/** What the concurrent job protocol guarantees over whole runs. */
module AdkJobSafety {
  import opened Common
  import opened AdkJobQueue
  import opened AdkJobStore
  import opened AdkJobWorker

  lemma ReachableInv(steps: seq<Step>)
    ensures Inv(Run(EMPTY, steps))
  {
    RunKeepsInv(EMPTY, steps);
  }

  // ---------------------------------------------------------------- the effect of one step

  /** The document a step writes, if it writes one. */
  function Written(s: State, step: Step): Option<Job> {
    match step
    case Enqueue(job) => if Fresh(job) && job.id !in s.store then Some(job) else None
    case ClaimNext(w, id, now) =>
      if s.PhaseOf(w) == Idle && id in s.store then OnHit(s, ClaimJob(s.store[id], now), Queued) else None
    case Start(w, now) =>
      var phase := s.PhaseOf(w);
      if !phase.HasClaim? then None
      else if phase.claimed.ModeOf() == GroundedPrepared
      then OnHit(s, MarkExecutionBlocked(phase.claimed, GroundedBlockReason(phase.claimed), now), Claimed)
      else OnHit(s, MarkRunning(phase.claimed, now), Claimed)
    case Close(w) => if s.PhaseOf(w).Closing? then OnHit(s, Ok(s.PhaseOf(w).next), Running) else None
    case Recover(r, retryPending, credentialBlocked, stale, now) =>
      if r !in s.sweeps || s.sweeps[r] == [] then None
      else
        var next := Recovery(s.sweeps[r][0], retryPending, credentialBlocked, stale, now);
        if next.Some? then OnHit(s, Ok(next.value), s.sweeps[r][0].status) else None
    case _ => None
  }

  function OnHit(s: State, next: Result<Job>, expected: Status): Option<Job> {
    if next.Ok? && Hits(s.store, next.value, expected) then Some(next.value) else None
  }

  ghost predicate StoreBecomes(s: State, t: State, written: Option<Job>) {
    t.store == if written.None? then s.store else s.store[written.value.id := written.value]
  }

  lemma ClaimStore(s: State, step: Step)
    requires Inv(s) && step.ClaimNext?
    ensures StoreBecomes(s, Apply(s, step), Written(s, step))
  {
  }

  lemma StartStore(s: State, step: Step)
    requires Inv(s) && step.Start?
    ensures StoreBecomes(s, Apply(s, step), Written(s, step))
  {
    var phase := s.PhaseOf(step.w);
    if phase.HasClaim? {
      assert PhaseOk(s.store, s.CallsOf(PhaseJob(phase)), phase);
    }
  }

  lemma CloseStore(s: State, step: Step)
    requires step.Close?
    ensures StoreBecomes(s, Apply(s, step), Written(s, step))
  {
  }

  lemma RecoverStore(s: State, step: Step)
    requires step.Recover?
    ensures StoreBecomes(s, Apply(s, step), Written(s, step))
  {
  }

  lemma QuietStore(s: State, step: Step)
    requires step.Enqueue? || step.Call? || step.Return? || step.Sink? || step.Crash? || step.List?
    ensures StoreBecomes(s, Apply(s, step), Written(s, step))
  {
  }

  lemma WrittenIsTheEffect(s: State, step: Step)
    requires Inv(s)
    ensures StoreBecomes(s, Apply(s, step), Written(s, step))
  {
    hide Apply, Written, StoreBecomes, Inv;
    match step
    case ClaimNext(_, _, _) => ClaimStore(s, step);
    case Start(_, _) => StartStore(s, step);
    case Close(_) => CloseStore(s, step);
    case Recover(_, _, _, _, _) => RecoverStore(s, step);
    case _ => QuietStore(s, step);
  }

  /** The step is a compare-and-set that hits with an outdated snapshot of fewer attempts. */
  ghost predicate StaleWrite(s: State, step: Step, id: string) {
    id in s.store &&
    match step
    case Start(w, _) =>
      && s.PhaseOf(w).HasClaim? && s.PhaseOf(w).claimed.id == id
      && s.store[id].status == Claimed && s.PhaseOf(w).claimed.attempts < s.store[id].attempts
    case Recover(r, retryPending, credentialBlocked, stale, now) =>
      && r in s.sweeps && s.sweeps[r] != [] && s.sweeps[r][0].id == id
      && Recovery(s.sweeps[r][0], retryPending, credentialBlocked, stale, now).Some?
      && s.store[id].status == s.sweeps[r][0].status && s.sweeps[r][0].attempts < s.store[id].attempts
    case _ => false
  }

  lemma StaleWriteWrites(s: State, step: Step, id: string)
    requires Inv(s) && id in s.store && StaleWrite(s, step, id)
    ensures Written(s, step).Some? && Written(s, step).value.id == id
  {
    if step.Start? {
      HeldClaim(s, step.w);
      StartShape(s.PhaseOf(step.w).claimed, step.now);
      hide Inv, Consistent, MarkRunning, MarkExecutionBlocked, GroundedBlockReason;
    } else {
      StaleRecoveryWrites(s, step, id);
    }
  }

  lemma StaleRecoveryWrites(s: State, step: Step, id: string)
    requires Inv(s) && id in s.store && step.Recover? && StaleWrite(s, step, id)
    ensures Written(s, step).Some? && Written(s, step).value.id == id
  {
    hide StoreOk, WorkersOk, CallsOk, Exclusive, Consistent;
    assert Snapshot(s.store, s.sweeps[step.sweep][0]);
  }

  /** What may replace what: the shape of every write over a stored document. */
  ghost predicate Replacement(s: State, step: Step, prior: Job, next: Job) {
    && next.Identity() == prior.Identity()
    && !Absorbing(prior.status)
    && (prior.status == Running ==>
          next.status == BlockedRecovery || (step.Close? && Owned(s.PhaseOf(step.w)) == Some(prior.id)))
    && (next.attempts < prior.attempts <==> StaleWrite(s, step, prior.id))
  }

  lemma ClaimReplaces(s: State, step: Step)
    requires Inv(s) && step.ClaimNext? && Written(s, step).Some?
    ensures var next := Written(s, step).value; next.id in s.store && Replacement(s, step, s.store[next.id], next)
  {
  }

  lemma StartReplaces(s: State, step: Step)
    requires Inv(s) && step.Start? && Written(s, step).Some?
    ensures var next := Written(s, step).value; next.id in s.store && Replacement(s, step, s.store[next.id], next)
  {
    assert PhaseOk(s.store, s.CallsOf(PhaseJob(s.workers[step.w])), s.workers[step.w]);
  }

  lemma CloseReplaces(s: State, step: Step)
    requires Inv(s) && step.Close? && Written(s, step).Some?
    ensures var next := Written(s, step).value; next.id in s.store && Replacement(s, step, s.store[next.id], next)
  {
    assert PhaseOk(s.store, s.CallsOf(PhaseJob(s.workers[step.w])), s.workers[step.w]);
  }

  lemma RecoverReplaces(s: State, step: Step)
    requires Inv(s) && step.Recover? && Written(s, step).Some?
    ensures var next := Written(s, step).value; next.id in s.store && Replacement(s, step, s.store[next.id], next)
  {
    assert Snapshot(s.store, s.sweeps[step.sweep][0]);
  }

  /** A step leaves a stored document alone or replaces it in one of the allowed ways. */
  lemma StepReplaces(s: State, step: Step, id: string)
    requires Inv(s) && id in s.store
    ensures id in Apply(s, step).store
    ensures Apply(s, step).store[id] == s.store[id] || Replacement(s, step, s.store[id], Apply(s, step).store[id])
    ensures Apply(s, step).store[id].attempts < s.store[id].attempts <==> StaleWrite(s, step, id)
  {
    WrittenIsTheEffect(s, step);
    if Written(s, step).Some? && !step.Enqueue? {
      match step {
        case ClaimNext(_, _, _) => ClaimReplaces(s, step);
        case Start(_, _) => StartReplaces(s, step);
        case Close(_) => CloseReplaces(s, step);
        case Recover(_, _, _, _, _) => RecoverReplaces(s, step);
      }
    }
    if StaleWrite(s, step, id) {
      StaleWriteWrites(s, step, id);
    }
  }

  // ---------------------------------------------------------------- exclusive execution

  /** However workers, sweeps and crashes interleave, at most one worker is past the RUNNING
      compare-and-set of a job, calling, keeping its artifacts or closing; so at most one provider
      call is in flight for it. */
  lemma SingleFlight(steps: seq<Step>, v: nat, w: nat)
    requires var s := Run(EMPTY, steps); Owned(s.PhaseOf(v)).Some? && Owned(s.PhaseOf(v)) == Owned(s.PhaseOf(w))
    ensures v == w
  {
    ReachableInv(steps);
  }

  /** The closing compare-and-set, although it looks at the status only, replaces exactly the
      document its own worker wrote when it started, or finds BLOCKED_RECOVERY and writes nothing. */
  lemma CloseActsOnOwnEra(steps: seq<Step>, w: nat)
    requires Run(EMPTY, steps).PhaseOf(w).Closing?
    ensures var s := Run(EMPTY, steps);
            var running, next := s.PhaseOf(w).running, s.PhaseOf(w).next;
            var t := Apply(s, Close(w));
            && running.id in s.store
            && if s.store[running.id] == running then t.store == s.store[running.id := next]
               else s.store[running.id].status == BlockedRecovery && t.store == s.store
  {
    ReachableInv(steps);
    var s := Run(EMPTY, steps);
    assert PhaseOk(s.store, s.CallsOf(PhaseJob(s.workers[w])), s.workers[w]);
  }

  /** Nobody but the owner's closing step takes a job out of RUNNING, except into BLOCKED_RECOVERY. */
  lemma RunningLeftByOwnerOrBlocked(steps: seq<Step>, step: Step, id: string)
    requires var s := Run(EMPTY, steps); id in s.store && s.store[id].status == Running
    ensures var s := Run(EMPTY, steps); var t := Apply(s, step);
            && id in t.store
            && (|| t.store[id] == s.store[id]
                || (step.Close? && Owned(s.PhaseOf(step.w)) == Some(id))
                || t.store[id].status == BlockedRecovery)
  {
    ReachableInv(steps);
    StepReplaces(Run(EMPTY, steps), step, id);
  }

  // ---------------------------------------------------------------- absorbing statuses, identity

  lemma AbsorbingStep(s: State, step: Step, id: string)
    requires Inv(s) && id in s.store && Absorbing(s.store[id].status)
    ensures id in Apply(s, step).store && Apply(s, step).store[id] == s.store[id]
  {
    StepReplaces(s, step, id);
  }

  /** A job that has reached SUCCEEDED, FAILED, BLOCKED_RECOVERY or BLOCKED_EXECUTION keeps its
      whole document through every continuation. */
  lemma {:induction false} AbsorbingForever(s: State, steps: seq<Step>, id: string)
    requires Inv(s) && id in s.store && Absorbing(s.store[id].status)
    ensures id in Run(s, steps).store && Run(s, steps).store[id] == s.store[id]
    decreases |steps|
  {
    if steps != [] {
      AbsorbingStep(s, steps[0], id);
      StepKeepsInv(s, steps[0]);
      AbsorbingForever(Apply(s, steps[0]), steps[1..], id);
    }
  }

  lemma IdentityStep(s: State, step: Step, id: string)
    requires Inv(s) && id in s.store
    ensures id in Apply(s, step).store && Apply(s, step).store[id].Identity() == s.store[id].Identity()
  {
    StepReplaces(s, step, id);
  }

  /** Jobs never disappear and never change identity. */
  lemma {:induction false} IdentityForever(s: State, steps: seq<Step>, id: string)
    requires Inv(s) && id in s.store
    ensures id in Run(s, steps).store && Run(s, steps).store[id].Identity() == s.store[id].Identity()
    decreases |steps|
  {
    if steps != [] {
      IdentityStep(s, steps[0], id);
      StepKeepsInv(s, steps[0]);
      IdentityForever(Apply(s, steps[0]), steps[1..], id);
    }
  }

  /** Every stored record is consistent: attempts within the limit, an error exactly in the
      failed, retry and blocked statuses, three distinct artifacts exactly on success. */
  lemma StoredJobsConsistent(steps: seq<Step>, id: string)
    requires id in Run(EMPTY, steps).store
    ensures Consistent(Run(EMPTY, steps).store[id])
  {
    ReachableInv(steps);
  }

  /** A grounded PREPARED job is never running and no provider is ever called for it. */
  lemma GroundedNeverCalled(steps: seq<Step>, id: string)
    requires var s := Run(EMPTY, steps); id in s.store && s.store[id].ModeOf() == GroundedPrepared
    ensures var s := Run(EMPTY, steps); s.CallsOf(id) == [] && s.store[id].status in {Queued, Claimed, BlockedExecution}
  {
    ReachableInv(steps);
  }

  // ---------------------------------------------------------------- at most one uncertain call

  /** Every provider call for a job, except possibly the last, ended in a definite failure. */
  lemma OnlyLastCallIndefinite(steps: seq<Step>, id: string, k: nat)
    requires k + 1 < |Run(EMPTY, steps).CallsOf(id)|
    ensures Definite(Run(EMPTY, steps).CallsOf(id)[k])
  {
    ReachableInv(steps);
    var calls := Run(EMPTY, steps).CallsOf(id);
    assert calls[k] == calls[..|calls| - 1][k] && calls[k] in calls[..|calls| - 1];
  }

  /** The last call was not a definite failure, and no live worker is waiting for its answer:
      it timed out, broke off, was unexplained, returned a result, or its worker is gone. */
  ghost predicate Settled(s: State, id: string) {
    var calls := s.CallsOf(id);
    && calls != [] && !Definite(calls[|calls| - 1])
    && (calls[|calls| - 1] == Pending ==> Unowned(s.workers, id))
  }

  lemma CallsKept(s: State, step: Step)
    requires !step.Call? && !step.Return?
    ensures Apply(s, step).calls == s.calls
  {
    hide ClaimJob, MarkExecutionBlocked, MarkRunning, AfterSink, Recovery, Hits, GroundedBlockReason, Listed, Fresh;
    if step.Recover? {
      RecoverKeepsCalls(s, step);
    }
  }

  lemma RecoverKeepsCalls(s: State, step: Step)
    requires step.Recover?
    ensures Apply(s, step).calls == s.calls
  {
    hide Hits, RequeueJob, RequeueCredentialBlockedJob, RecoverClaimedJob, BlockJobForRecovery;
  }

  lemma CallHistory(s: State, step: Step, id: string)
    requires step.Call?
    ensures || Apply(s, step).CallsOf(id) == s.CallsOf(id)
            || (s.PhaseOf(step.w).Owns? && s.PhaseOf(step.w).running.id == id && SupportedProvider(s.PhaseOf(step.w).running.provider)
                && Apply(s, step).CallsOf(id) == s.CallsOf(id) + [Pending])
  {
    hide FailJob, SupportedProvider;
  }

  lemma ReturnHistory(s: State, step: Step, id: string)
    requires step.Return?
    ensures || Apply(s, step).CallsOf(id) == s.CallsOf(id)
            || (s.PhaseOf(step.w).Calling? && s.PhaseOf(step.w).running.id == id)
  {
    hide AfterCall;
  }

  /** What an answered call leaves behind. */
  lemma ReturnEffect(s: State, step: Step)
    requires step.Return? && s.PhaseOf(step.w).Calling? && s.PhaseOf(step.w).running.status == Running
    requires s.CallsOf(s.PhaseOf(step.w).running.id) != []
    ensures var t, running := Apply(s, step), s.PhaseOf(step.w).running;
            var history := s.CallsOf(running.id);
            && t.PhaseOf(step.w) == AfterCall(running, step.outcome, step.now)
            && t.CallsOf(running.id) == history[|history| - 1 := Answered(step.outcome)]
  {
    hide AfterCall;
  }

  lemma SinkEffect(s: State, w: nat, sunk: SinkOutcome, now: string)
    requires s.PhaseOf(w).Acquired? && s.PhaseOf(w).running.status == Running
    ensures var phase := s.PhaseOf(w);
            Apply(s, Sink(w, sunk, now)).PhaseOf(w) == Closing(phase.running, AfterSink(phase.running, phase.artifactId, sunk, now))
  {
    hide AfterSink;
  }

  /** Only the owner's call and return steps touch a job's call history. */
  lemma CallsStep(s: State, step: Step, id: string)
    requires Apply(s, step).CallsOf(id) != s.CallsOf(id)
    ensures (step.Call? && s.PhaseOf(step.w).Owns?) || (step.Return? && s.PhaseOf(step.w).Calling?)
    ensures Owned(s.PhaseOf(step.w)) == Some(id)
  {
    hide Apply;
    if step.Call? {
      CallHistory(s, step, id);
    } else if step.Return? {
      ReturnHistory(s, step, id);
    } else {
      CallsKept(s, step);
    }
  }

  lemma StartOwner(s: State, w: nat, now: string, id: string)
    requires Inv(s) && Owned(ApplyStart(s, w, now).PhaseOf(w)) == Some(id) != Owned(s.PhaseOf(w))
    ensures id in s.store && s.store[id].status == Claimed
  {
  }

  lemma WorkingOwner(s: State, step: Step)
    requires step.Call? || step.Return? || step.Sink?
    ensures Owned(Apply(s, step).PhaseOf(step.w)) == Owned(s.PhaseOf(step.w))
  {
    if step.Return? {
      hide FailJob, MarkCredentialBlocked, BlockJobForRecovery;
    } else {
      hide FailJob, AfterSink, Refusal;
    }
  }

  /** Sweeps and enqueues move no worker. */
  lemma SweepMovesNone(s: State, step: Step)
    requires step.Enqueue? || step.List? || step.Recover?
    ensures Apply(s, step).workers == s.workers
  {
    hide Recovery, Hits, Listed, Fresh;
  }

  /** A worker's step moves that worker at most. */
  lemma OpeningMovesOne(s: State, step: Step)
    requires step.ClaimNext?
    ensures var t := Apply(s, step); t.workers == s.workers || t.workers == s.workers[step.w := t.PhaseOf(step.w)]
  {
    hide ClaimJob;
  }

  lemma CallMovesOne(s: State, step: Step)
    requires step.Call?
    ensures var t := Apply(s, step); t.workers == s.workers || t.workers == s.workers[step.w := t.PhaseOf(step.w)]
  {
    hide FailJob, Refusal;
  }

  lemma StartMovesOne(s: State, step: Step)
    requires step.Start?
    ensures var t := Apply(s, step); t.workers == s.workers || t.workers == s.workers[step.w := t.PhaseOf(step.w)]
  {
    hide MarkExecutionBlocked, MarkRunning, Hits, GroundedBlockReason;
  }

  lemma EndingMovesOne(s: State, step: Step)
    requires step.Return? || step.Sink? || step.Close? || step.Crash?
    ensures var t := Apply(s, step); t.workers == s.workers || t.workers == s.workers[step.w := t.PhaseOf(step.w)]
  {
    hide AfterCall, AfterSink, Hits;
  }

  lemma OtherWorkers(s: State, step: Step, w: nat)
    requires step.Enqueue? || step.List? || step.Recover? || step.w != w
    ensures w in Apply(s, step).workers <==> w in s.workers
    ensures Apply(s, step).PhaseOf(w) == s.PhaseOf(w)
  {
    hide Apply;
    if step.Enqueue? || step.List? || step.Recover? {
      SweepMovesNone(s, step);
    } else if step.Start? {
      StartMovesOne(s, step);
    } else if step.ClaimNext? {
      OpeningMovesOne(s, step);
    } else if step.Call? {
      CallMovesOne(s, step);
    } else {
      EndingMovesOne(s, step);
    }
  }

  /** Only the step from CLAIMED to RUNNING makes a new owner. */
  lemma OwnersStep(s: State, step: Step, w: nat, id: string)
    requires Inv(s) && id in s.store && Owned(Apply(s, step).PhaseOf(w)) == Some(id) != Owned(s.PhaseOf(w))
    ensures s.store[id].status == Claimed
  {
    if step.Enqueue? || step.List? || step.Recover? || step.w != w {
      OtherWorkers(s, step, w);
    } else if step.Call? || step.Return? || step.Sink? {
      WorkingOwner(s, step);
    } else if step.Start? {
      StartOwner(s, w, step.now, id);
    }
  }

  /** The owner of a job with a settled last call neither calls again nor waits for an answer. */
  lemma SettledCalls(s: State, step: Step, id: string)
    requires Inv(s) && Settled(s, id)
    ensures Apply(s, step).CallsOf(id) == s.CallsOf(id)
  {
    if Apply(s, step).CallsOf(id) != s.CallsOf(id) {
      CallsStep(s, step, id);
      SettledOwner(s, step.w, id);
      assert false;
    }
  }

  lemma SettledOwner(s: State, w: nat, id: string)
    requires Inv(s) && Settled(s, id)
    ensures Owned(s.PhaseOf(w)) == Some(id) ==> !s.PhaseOf(w).Owns? && !s.PhaseOf(w).Calling?
  {
    var calls := s.CallsOf(id);
    assert calls[|calls| - 1] in calls;
    assert w in s.workers ==> PhaseOk(s.store, s.CallsOf(PhaseJob(s.workers[w])), s.workers[w]);
  }

  lemma SettledStep(s: State, step: Step, id: string)
    requires Inv(s) && Settled(s, id)
    ensures Settled(Apply(s, step), id) && Apply(s, step).CallsOf(id) == s.CallsOf(id)
  {
    SettledCalls(s, step, id);
    SettledIsStored(s, id);
    var calls, t := s.CallsOf(id), Apply(s, step);
    forall w | w in t.workers && calls[|calls| - 1] == Pending ensures Owned(t.workers[w]) != Some(id) {
      if Owned(t.PhaseOf(w)) == Some(id) {
        NewOwnerOfClaimed(s, step, w, id);
      }
    }
    hide Apply, Inv;
  }

  lemma SettledIsStored(s: State, id: string)
    requires Inv(s) && s.CallsOf(id) != []
    ensures id in s.store && PriorDefinite(s.CallsOf(id))
    ensures s.store[id].status == Claimed ==> AllDefinite(s.CallsOf(id))
  {
  }

  /** Nobody starts a job whose last call is still open. */
  lemma NewOwnerOfClaimed(s: State, step: Step, w: nat, id: string)
    requires Inv(s) && Settled(s, id) && s.CallsOf(id)[|s.CallsOf(id)| - 1] == Pending && id in s.store
    ensures Owned(Apply(s, step).PhaseOf(w)) != Some(id)
  {
    SettledIsStored(s, id);
    var calls := s.CallsOf(id);
    assert calls[|calls| - 1] in calls;
    if Owned(Apply(s, step).PhaseOf(w)) == Some(id) {
      OwnersStep(s, step, w, id);
    }
  }

  /** After such a call no further call for the job is ever made. */
  lemma {:induction false} NoCallAfterSettled(s: State, steps: seq<Step>, id: string)
    requires Inv(s) && Settled(s, id)
    ensures Run(s, steps).CallsOf(id) == s.CallsOf(id)
    decreases |steps|
  {
    if steps != [] {
      SettledStep(s, steps[0], id);
      StepKeepsInv(s, steps[0]);
      NoCallAfterSettled(Apply(s, steps[0]), steps[1..], id);
    }
  }

  // ---------------------------------------------------------------- the attempt counter

  /** The stored attempt count goes down exactly on such a write. */
  lemma AttemptsRegressExactly(s: State, step: Step, id: string)
    requires Inv(s) && id in s.store
    ensures id in Apply(s, step).store
    ensures Apply(s, step).store[id].attempts < s.store[id].attempts <==> StaleWrite(s, step, id)
  {
    StepReplaces(s, step, id);
  }
}
