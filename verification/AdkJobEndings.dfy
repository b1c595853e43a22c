/** What each answer leads to: which document every step of a worker and of a sweep leaves in the store,
    whatever the other participants do in between. */
module AdkJobEndings {
  import opened Common
  import opened AdkJobQueue
  import opened AdkJobStore
  import opened AdkJobWorker
  import opened AdkJobSafety

  /** None of these steps is worker `w`'s. */
  ghost predicate Apart(steps: seq<Step>, w: nat) {
    forall step <- steps :: step.Enqueue? || step.List? || step.Recover? || step.w != w
  }

  lemma {:induction false} OthersRun(s: State, steps: seq<Step>, w: nat)
    requires Inv(s) && Apart(steps, w)
    ensures Inv(Run(s, steps)) && Run(s, steps).PhaseOf(w) == s.PhaseOf(w)
    decreases |steps|
  {
    hide Apply, Inv;
    if steps != [] {
      assert steps[0] in steps && forall step <- steps[1..] :: step in steps;
      OtherWorkers(s, steps[0], w);
      StepKeepsInv(s, steps[0]);
      OthersRun(Apply(s, steps[0]), steps[1..], w);
    }
  }

  /** The owner's closing step puts `expected` in the place of the document it wrote when it started,
      unless a sweep has blocked the job meanwhile. */
  ghost predicate Settles(u: State, t: State, running: Job, expected: Job) {
    && running.id in u.store
    && if u.store[running.id] == running then t.store == u.store[running.id := expected]
       else u.store[running.id].status == BlockedRecovery && t.store == u.store
  }

  lemma ClosingSettles(s: State, w: nat, running: Job, next: Job, after: seq<Step>)
    requires Inv(s) && s.PhaseOf(w) == Closing(running, next) && Apart(after, w)
    ensures var u := Run(s, after); Settles(u, Apply(u, Close(w)), running, next) && Apply(u, Close(w)).PhaseOf(w) == Idle
  {
    hide Inv, Apply, Run, Settles;
    OthersRun(s, after, w);
    CloseSettles(Run(s, after), w, running, next);
  }

  lemma CloseSettles(u: State, w: nat, running: Job, next: Job)
    requires Inv(u) && u.PhaseOf(w) == Closing(running, next)
    ensures Settles(u, Apply(u, Close(w)), running, next) && Apply(u, Close(w)).PhaseOf(w) == Idle
  {
    assert PhaseOk(u.store, u.CallsOf(PhaseJob(u.workers[w])), u.workers[w]);
    hide Inv, Consistent;
  }

  // ---------------------------------------------------------------- the provider's answer

  /** The job after a call that returned no result of its own lineage. */
  function AnsweredAs(running: Job, outcome: ProviderOutcome, now: string): Job {
    match outcome
    case AcquisitionError(code, message, retryable) =>
      var text := code + ": " + message;
      if code == "AI_PROVIDER_CREDENTIAL_MISSING" then running.(status := BlockedCredential, error := Some(text), updatedAt := now)
      else if code == "AI_PROVIDER_TIMEOUT" || code == "AI_PROVIDER_NETWORK_ERROR" then
        running.(status := BlockedRecovery, error := Some("AI_PROVIDER_DELIVERY_UNCERTAIN: " + text), updatedAt := now)
      else
        running.(attempts := running.attempts + 1,
                 status := if retryable && running.attempts + 1 < running.Limit() then RetryPending else Failed,
                 error := Some(text), updatedAt := now)
    case OtherException(message) =>
      running.(status := BlockedRecovery, error := Some("AI_PROVIDER_EXECUTION_UNCERTAIN: " + message), updatedAt := now)
    case Acquisition(_, _, _, _) =>
      running.(attempts := running.attempts + 1, status := Failed, error := Some("AI_ACQUISITION_LINEAGE_MISMATCH"), updatedAt := now)
  }

  ghost predicate IsLineage(running: Job, outcome: ProviderOutcome) {
    exists artifactId :: outcome == Acquisition(running.assignmentId, running.provider, running.provider, artifactId)
  }

  lemma OwnerIsRunning(s: State, w: nat)
    requires Inv(s) && Owned(s.PhaseOf(w)).Some?
    ensures var phase := s.PhaseOf(w);
            phase.running.status == Running && (phase.Calling? ==> s.CallsOf(phase.running.id) != [])
  {
    assert PhaseOk(s.store, s.CallsOf(PhaseJob(s.workers[w])), s.workers[w]);
  }

  lemma AnswerLeadsTo(s: State, w: nat, running: Job, outcome: ProviderOutcome, now: string)
    requires Inv(s) && s.PhaseOf(w) == Calling(running)
    ensures var t := Apply(s, Return(w, outcome, now));
            && Inv(t)
            && (!IsLineage(running, outcome) ==> t.PhaseOf(w) == Closing(running, AnsweredAs(running, outcome, now)))
            && (forall artifactId :: outcome == Acquisition(running.assignmentId, running.provider, running.provider, artifactId) ==>
                  t.PhaseOf(w) == Acquired(running, artifactId))
  {
    hide Inv, Apply, AfterCall, AnsweredAs, IsLineage;
    OwnerIsRunning(s, w);
    StepKeepsInv(s, Return(w, outcome, now));
    ReturnEffect(s, Return(w, outcome, now));
    AfterCallIs(running, outcome, now);
  }

  lemma AfterCallIs(running: Job, outcome: ProviderOutcome, now: string)
    requires running.status == Running
    ensures !IsLineage(running, outcome) ==> AfterCall(running, outcome, now) == Closing(running, AnsweredAs(running, outcome, now))
    ensures forall artifactId :: outcome == Acquisition(running.assignmentId, running.provider, running.provider, artifactId) ==>
              AfterCall(running, outcome, now) == Acquired(running, artifactId)
  {
    if outcome.Acquisition? {
      assert outcome == Acquisition(running.assignmentId, running.provider, running.provider, outcome.artifactId) ==> IsLineage(running, outcome);
    }
  }

  /** A call that returned an error, broke off, or returned something else than the job asked for: what the job
      becomes, whatever happens between the answer and the closing write. */
  lemma AnsweredJobEnds(s: State, w: nat, running: Job, outcome: ProviderOutcome, now: string, after: seq<Step>)
    requires Inv(s) && s.PhaseOf(w) == Calling(running) && !IsLineage(running, outcome) && Apart(after, w)
    ensures var u := Run(Apply(s, Return(w, outcome, now)), after);
            Settles(u, Apply(u, Close(w)), running, AnsweredAs(running, outcome, now))
  {
    hide Inv, Apply, Run, AnsweredAs, IsLineage, Settles;
    AnswerLeadsTo(s, w, running, outcome, now);
    ClosingSettles(Apply(s, Return(w, outcome, now)), w, running, AnsweredAs(running, outcome, now), after);
  }

  // ---------------------------------------------------------------- the sink's answer

  /** The job after its result was handed to the sink. */
  function SunkAs(running: Job, artifactId: string, sunk: SinkOutcome, now: string): Job {
    match sunk
    case SinkFails(message) =>
      running.(status := BlockedRecovery, error := Some("AI_ARTIFACT_PERSISTENCE_UNCERTAIN: " + message), updatedAt := now)
    case Persisted(raw, markdown) =>
      if artifactId != raw && artifactId != markdown && raw != markdown then
        running.(status := Succeeded, artifactIds := [artifactId, raw, markdown], error := None, updatedAt := now)
      else
        running.(status := BlockedRecovery, error := Some("AI_ACQUISITION_LINEAGE_REQUIRES_RECONCILIATION"), updatedAt := now)
  }

  lemma SinkLeadsTo(s: State, w: nat, running: Job, artifactId: string, sunk: SinkOutcome, now: string)
    requires Inv(s) && s.PhaseOf(w) == Acquired(running, artifactId)
    ensures var t := Apply(s, Sink(w, sunk, now)); Inv(t) && t.PhaseOf(w) == Closing(running, SunkAs(running, artifactId, sunk, now))
  {
    hide Inv, Apply;
    OwnerIsRunning(s, w);
    StepKeepsInv(s, Sink(w, sunk, now));
    SinkEffect(s, w, sunk, now);
  }

  /** A call that returned the job's own result: the job succeeds with the result's artifact and the two the sink
      persisted exactly when the sink persisted them and the three differ; otherwise it is blocked for recovery. */
  lemma AcquiredJobEnds(s: State, w: nat, running: Job, artifactId: string, returned: string, between: seq<Step>,
                        sunk: SinkOutcome, now: string, after: seq<Step>)
    requires Inv(s) && s.PhaseOf(w) == Calling(running) && Apart(between, w) && Apart(after, w)
    ensures var outcome := Acquisition(running.assignmentId, running.provider, running.provider, artifactId);
            var v := Run(Apply(s, Return(w, outcome, returned)), between);
            var u := Run(Apply(v, Sink(w, sunk, now)), after);
            var t := Apply(u, Close(w));
            && Settles(u, t, running, SunkAs(running, artifactId, sunk, now))
            && (u.store[running.id] == running ==>
                  (t.store[running.id].status == Succeeded <==>
                     sunk.Persisted? && artifactId != sunk.rawId && artifactId != sunk.markdownId && sunk.rawId != sunk.markdownId))
  {
    hide Inv, Apply, Run;
    var outcome := Acquisition(running.assignmentId, running.provider, running.provider, artifactId);
    AnswerLeadsTo(s, w, running, outcome, returned);
    OthersRun(Apply(s, Return(w, outcome, returned)), between, w);
    var v := Run(Apply(s, Return(w, outcome, returned)), between);
    SinkLeadsTo(v, w, running, artifactId, sunk, now);
    ClosingSettles(Apply(v, Sink(w, sunk, now)), w, running, SunkAs(running, artifactId, sunk, now), after);
  }

  // ---------------------------------------------------------------- before the call

  /** The provider is called exactly for a supported provider with its assignment and its own adapter at hand;
      otherwise the job fails and says why. */
  lemma CalledOrFailed(s: State, w: nat, running: Job, assignmentFound: bool, adapter: Option<string>, now: string, after: seq<Step>)
    requires Inv(s) && s.PhaseOf(w) == Owns(running) && Apart(after, w)
    ensures var t := Apply(s, Call(w, assignmentFound, adapter, now));
            var u := Run(t, after);
            var supported := running.provider == "DEEPSEEK" || running.provider == "OPENAI";
            if supported && assignmentFound && adapter == Some(running.provider) then
              t.PhaseOf(w) == Calling(running) && t.CallsOf(running.id) == s.CallsOf(running.id) + [Pending] && t.store == s.store
            else
              && t.calls == s.calls
              && Settles(u, Apply(u, Close(w)), running,
                         running.(attempts := running.attempts + 1, status := Failed, updatedAt := now, error := Some(
                           if !supported then "AI_PROVIDER_UNSUPPORTED: " + running.provider
                           else if !assignmentFound then "AI_ASSIGNMENT_NOT_FOUND: " + running.assignmentId
                           else if adapter.None? then "AI_PROVIDER_ADAPTER_MISSING: " + running.provider
                           else "AI_PROVIDER_ADAPTER_MISMATCH: " + running.provider)))
  {
    hide Inv, Apply, Run, Settles, Refusal, FailJob;
    OwnerIsRunning(s, w);
    StepKeepsInv(s, Call(w, assignmentFound, adapter, now));
    CallEffectIs(s, w, running, assignmentFound, adapter, now);
    RefusalIs(running, assignmentFound, adapter, now);
    var t := Apply(s, Call(w, assignmentFound, adapter, now));
    if t.PhaseOf(w).Closing? {
      ClosingSettles(t, w, running, t.PhaseOf(w).next, after);
    }
  }

  lemma CallEffectIs(s: State, w: nat, running: Job, assignmentFound: bool, adapter: Option<string>, now: string)
    requires s.PhaseOf(w) == Owns(running) && running.status == Running
    ensures var t, refusal := Apply(s, Call(w, assignmentFound, adapter, now)), Refusal(running, assignmentFound, adapter);
            && t.store == s.store
            && if refusal.Some? then t.calls == s.calls && t.PhaseOf(w) == Closing(running, FailJob(running, refusal.value, false, now).value)
               else t.PhaseOf(w) == Calling(running) && t.CallsOf(running.id) == s.CallsOf(running.id) + [Pending]
  {
    hide Refusal, FailJob;
  }

  lemma RefusalIs(running: Job, assignmentFound: bool, adapter: Option<string>, now: string)
    requires running.status == Running
    ensures var refusal := Refusal(running, assignmentFound, adapter);
            var supported := running.provider == "DEEPSEEK" || running.provider == "OPENAI";
            && (refusal.None? <==> supported && assignmentFound && adapter == Some(running.provider))
            && (refusal.Some? ==>
                  FailJob(running, refusal.value, false, now).value ==
                         running.(attempts := running.attempts + 1, status := Failed, updatedAt := now, error := Some(
                           if !supported then "AI_PROVIDER_UNSUPPORTED: " + running.provider
                           else if !assignmentFound then "AI_ASSIGNMENT_NOT_FOUND: " + running.assignmentId
                           else if adapter.None? then "AI_PROVIDER_ADAPTER_MISSING: " + running.provider
                           else "AI_PROVIDER_ADAPTER_MISMATCH: " + running.provider)))
  {
  }

  /** A claimed job still CLAIMED in the store starts, or is blocked when it is grounded; otherwise the worker gives up. */
  lemma ClaimedJobStarts(s: State, w: nat, claimed: Job, now: string)
    requires Inv(s) && s.PhaseOf(w) == HasClaim(claimed)
    ensures var t := Apply(s, Step.Start(w, now));
            var started := claimed.(status := Running, updatedAt := now);
            var blocked := claimed.(status := BlockedExecution, updatedAt := now, error := Some(
              if claimed.provider == "PROVIDER_DISABLED" && claimed.groundedSha.Some? && IsSha256(claimed.groundedSha.value)
                 && claimed.executionKey == Some("grounded-prepared:" + claimed.groundedSha.value)
              then "AI_GROUNDED_PROVIDER_EXECUTION_DISABLED" else "AI_GROUNDED_QUEUE_IDENTITY_INVALID"));
            && claimed.id in s.store && t.calls == s.calls
            && if s.store[claimed.id].status != Claimed then t.store == s.store && t.PhaseOf(w) == Idle
               else if claimed.executionMode == Some(GroundedPrepared) then
                 t.store == s.store[claimed.id := blocked] && t.PhaseOf(w) == Idle
               else t.store == s.store[claimed.id := started] && t.PhaseOf(w) == Owns(started)
  {
    hide Inv, Consistent, GroundedBlockReason, MarkExecutionBlocked, MarkRunning, Hits, Write;
    HeldClaim(s, w);
    StartIs(claimed, now);
    WriteIs(s, claimed.(status := Running, updatedAt := now), Claimed);
    WriteIs(s, claimed.(status := BlockedExecution, updatedAt := now, error := Some(GroundedBlockReason(claimed))), Claimed);
    HitsAre(s.store, claimed.(status := Running, updatedAt := now), Claimed);
  }

  lemma HitsAre(store: map<string, Job>, next: Job, expected: Status)
    requires next.id in store && next.Identity() == store[next.id].Identity()
    ensures Hits(store, next, expected) <==> store[next.id].status == expected
  {
  }

  lemma StartIs(claimed: Job, now: string)
    requires claimed.status == Claimed
    ensures MarkRunning(claimed, now) == Ok(claimed.(status := Running, updatedAt := now))
    ensures var reason := GroundedBlockReason(claimed);
            && MarkExecutionBlocked(claimed, reason, now) == Ok(claimed.(status := BlockedExecution, updatedAt := now, error := Some(reason)))
            && reason == (if claimed.provider == "PROVIDER_DISABLED" && claimed.groundedSha.Some? && IsSha256(claimed.groundedSha.value)
                             && claimed.executionKey == Some("grounded-prepared:" + claimed.groundedSha.value)
                          then "AI_GROUNDED_PROVIDER_EXECUTION_DISABLED" else "AI_GROUNDED_QUEUE_IDENTITY_INVALID")
  {
    hide IsSha256;
  }

  /** An idle worker claims a queued job, and nothing else. */
  lemma QueuedJobIsClaimed(s: State, w: nat, id: string, now: string)
    requires s.PhaseOf(w) == Idle
    ensures var t := Apply(s, ClaimNext(w, id, now));
            if id in s.store && s.store[id].status == Queued then
              var claimed := s.store[id].(status := Claimed, updatedAt := now);
              t == s.(store := s.store[id := claimed]).Goto(w, HasClaim(claimed))
            else t == s
  {
  }

  // ---------------------------------------------------------------- the recovery sweep

  /** The sweep's write for one listed job, if it attempts one. */
  function RecoveredAs(job: Job, retryPending: bool, credentialBlocked: bool, stale: bool, now: string): Option<Job> {
    if (job.status == RetryPending && retryPending) || (job.status == BlockedCredential && credentialBlocked) || (job.status == Claimed && stale)
    then Some(job.(status := Queued, error := None, updatedAt := now))
    else if job.status == Running && stale
    then Some(job.(status := BlockedRecovery, error := Some("AI_STALE_RUNNING_REQUIRES_RECONCILIATION"), updatedAt := now))
    else None
  }

  /** A sweep requeues the retry-pending, credential-blocked and stale claimed jobs it was asked for and blocks stale
      running ones, each if its status is still the listed one, and touches nothing else. */
  lemma SweptJobEnds(s: State, r: nat, retryPending: bool, credentialBlocked: bool, stale: bool, now: string)
    requires Inv(s) && r in s.sweeps && s.sweeps[r] != []
    ensures var job, t := s.sweeps[r][0], Apply(s, Recover(r, retryPending, credentialBlocked, stale, now));
            var next := RecoveredAs(job, retryPending, credentialBlocked, stale, now);
            && job.id in s.store && t.sweeps == s.sweeps[r := s.sweeps[r][1..]] && t.workers == s.workers && t.calls == s.calls
            && t.store == if next.Some? && s.store[job.id].status == job.status then s.store[job.id := next.value] else s.store
  {
    hide Inv, Consistent, Recovery, RecoveredAs, Hits, Write;
    var job := s.sweeps[r][0];
    MoveOnKeeps(s, r);
    RecoveryIs(job, retryPending, credentialBlocked, stale, now);
    var next := RecoveredAs(job, retryPending, credentialBlocked, stale, now);
    if next.Some? {
      WriteIs(s.(sweeps := s.sweeps[r := s.sweeps[r][1..]]), next.value, job.status);
    }
  }

  lemma WriteIs(s: State, next: Job, expected: Status)
    requires next.id in s.store && next.Identity() == s.store[next.id].Identity()
    ensures Write(s, next, expected) == if s.store[next.id].status == expected then s.(store := s.store[next.id := next]) else s
  {
  }

  lemma RecoveryIs(job: Job, retryPending: bool, credentialBlocked: bool, stale: bool, now: string)
    ensures Recovery(job, retryPending, credentialBlocked, stale, now) == RecoveredAs(job, retryPending, credentialBlocked, stale, now)
    ensures var next := RecoveredAs(job, retryPending, credentialBlocked, stale, now); next.Some? ==> next.value.Identity() == job.Identity()
  {
  }

  // ---------------------------------------------------------------- success

  /** From the queue to success: a legacy job of a supported provider whose assignment, adapter, provider and sink all
      answer as they should succeeds with its three artifacts. */
  lemma HealthyJobSucceeds(s: State, w: nat, id: string, now: string, artifactId: string, raw: string, markdown: string)
    requires Inv(s) && s.PhaseOf(w) == Idle && id in s.store && s.store[id].status == Queued
    requires s.store[id].ModeOf() == LegacyProvider && s.store[id].provider in {"DEEPSEEK", "OPENAI"}
    requires artifactId != raw && artifactId != markdown && raw != markdown
    ensures var job := s.store[id];
            var steps := [ClaimNext(w, id, now), Step.Start(w, now), Call(w, true, Some(job.provider), now),
                          Return(w, Acquisition(job.assignmentId, job.provider, job.provider, artifactId), now),
                          Sink(w, Persisted(raw, markdown), now), Close(w)];
            Run(s, steps).store == s.store[id := job.(status := Succeeded, artifactIds := [artifactId, raw, markdown], error := None, updatedAt := now)]
  {
    hide Apply, Run, Inv;
    var job := s.store[id];
    ClaimAndStart(s, w, id, now);
    var started := Apply(Apply(s, ClaimNext(w, id, now)), Step.Start(w, now));
    CallAndClose(started, w, job.(status := Running, updatedAt := now), now, artifactId, raw, markdown);
    RunSix(s, ClaimNext(w, id, now), Step.Start(w, now), Call(w, true, Some(job.provider), now),
           Return(w, Acquisition(job.assignmentId, job.provider, job.provider, artifactId), now), Sink(w, Persisted(raw, markdown), now), Close(w));
  }

  lemma ClaimAndStart(s: State, w: nat, id: string, now: string)
    requires Inv(s) && s.PhaseOf(w) == Idle && id in s.store && s.store[id].status == Queued && s.store[id].ModeOf() == LegacyProvider
    ensures var t := Apply(Apply(s, ClaimNext(w, id, now)), Step.Start(w, now));
            var running := s.store[id].(status := Running, updatedAt := now);
            Inv(t) && running.id == id && t.PhaseOf(w) == Owns(running) && t.store == s.store[id := running]
  {
    hide Apply, Inv;
    StoredUnderId(s, id);
    QueuedJobIsClaimed(s, w, id, now);
    StepKeepsInv(s, ClaimNext(w, id, now));
    var t := Apply(s, ClaimNext(w, id, now));
    ClaimedJobStarts(t, w, s.store[id].(status := Claimed, updatedAt := now), now);
    StepKeepsInv(t, Step.Start(w, now));
  }

  lemma CallAndClose(s: State, w: nat, running: Job, now: string, artifactId: string, raw: string, markdown: string)
    requires Inv(s) && s.PhaseOf(w) == Owns(running) && running.id in s.store && s.store[running.id] == running
    requires running.provider in {"DEEPSEEK", "OPENAI"} && artifactId != raw && artifactId != markdown && raw != markdown
    ensures var call, outcome := Call(w, true, Some(running.provider), now), Acquisition(running.assignmentId, running.provider, running.provider, artifactId);
            var answered := Apply(Apply(s, call), Return(w, outcome, now));
            Apply(Apply(answered, Sink(w, Persisted(raw, markdown), now)), Close(w)).store
            == s.store[running.id := running.(status := Succeeded, artifactIds := [artifactId, raw, markdown], error := None, updatedAt := now)]
  {
    hide Apply, Inv;
    var call, outcome := Call(w, true, Some(running.provider), now), Acquisition(running.assignmentId, running.provider, running.provider, artifactId);
    CalledOrFailed(s, w, running, true, Some(running.provider), now, []);
    StepKeepsInv(s, call);
    var called := Apply(s, call);
    var answered := Apply(called, Return(w, outcome, now));
    QuietAnswers(called, Return(w, outcome, now));
    QuietAnswers(answered, Sink(w, Persisted(raw, markdown), now));
    AcquiredJobEnds(called, w, running, artifactId, now, [], Persisted(raw, markdown), now, []);
    var sunk := Apply(answered, Sink(w, Persisted(raw, markdown), now));
    assert Run(answered, []) == answered && Run(sunk, []) == sunk;
  }

  lemma StoredUnderId(s: State, id: string)
    requires Inv(s) && id in s.store
    ensures s.store[id].id == id && Consistent(s.store[id])
  {
  }

  lemma QuietAnswers(s: State, step: Step)
    requires step.Return? || step.Sink?
    ensures Apply(s, step).store == s.store
  {
    hide AfterCall, AfterSink;
  }

  lemma RunSix(s: State, a: Step, b: Step, c: Step, d: Step, e: Step, f: Step)
    ensures Run(s, [a, b, c, d, e, f]) == Apply(Apply(Apply(Apply(Apply(Apply(s, a), b), c), d), e), f)
  {
    hide Apply;
    assert [a, b, c, d, e, f][1..] == [b, c, d, e, f] && [b, c, d, e, f][1..] == [c, d, e, f] && [c, d, e, f][1..] == [d, e, f];
    RunThree(Apply(Apply(Apply(s, a), b), c), d, e, f);
    assert Run(Apply(Apply(s, a), b), [c, d, e, f]) == Run(Apply(Apply(Apply(s, a), b), c), [d, e, f]);
    assert Run(Apply(s, a), [b, c, d, e, f]) == Run(Apply(Apply(s, a), b), [c, d, e, f]);
  }

  lemma RunThree(s: State, a: Step, b: Step, c: Step)
    ensures Run(s, [a, b, c]) == Apply(Apply(Apply(s, a), b), c)
  {
    hide Apply;
    var t := Apply(Apply(s, a), b);
    assert [a, b, c][1..] == [b, c] && [b, c][1..] == [c] && [c][1..] == [];
    assert Run(t, [c]) == Run(Apply(t, c), []) && Run(Apply(s, a), [b, c]) == Run(t, [c]);
  }

  /** A succeeded job's last call returned a result for its own assignment and provider, whose artifact it names first. */
  ghost predicate Earned(s: State) {
    forall id | id in s.store && s.store[id].status == Succeeded ::
      var calls := s.CallsOf(id);
      && s.store[id].artifactIds != [] && calls != []
      && IsMatch(s.store[id], s.store[id].artifactIds[0], calls[|calls| - 1])
  }

  lemma EarnedStep(s: State, step: Step)
    requires Inv(s) && Earned(s)
    ensures Earned(Apply(s, step))
  {
    hide Apply, Inv;
    var t := Apply(s, step);
    forall id | id in t.store && t.store[id].status == Succeeded
      ensures t.store[id].artifactIds != [] && t.CallsOf(id) != [] && IsMatch(t.store[id], t.store[id].artifactIds[0], t.CallsOf(id)[|t.CallsOf(id)| - 1])
    {
      if id in s.store && s.store[id].status == Succeeded {
        AbsorbingStep(s, step, id);
        SucceededIsLeft(s, step, id);
      } else {
        JustEarned(s, step, id);
      }
    }
  }

  lemma JustEarned(s: State, step: Step, id: string)
    requires Inv(s) && id in Apply(s, step).store && Apply(s, step).store[id].status == Succeeded
    requires id !in s.store || s.store[id].status != Succeeded
    ensures var t := Apply(s, step); var calls := t.CallsOf(id);
            t.store[id].artifactIds != [] && calls != [] && IsMatch(t.store[id], t.store[id].artifactIds[0], calls[|calls| - 1])
  {
    hide Apply, Inv, Written;
    WrittenIsTheEffect(s, step);
    SuccessIsClosed(s, step);
    CallsKept(s, step);
  }

  lemma SucceededIsLeft(s: State, step: Step, id: string)
    requires Inv(s) && id in s.store && s.store[id].status == Succeeded
    ensures Apply(s, step).CallsOf(id) == s.CallsOf(id)
  {
    hide Apply, Inv;
    if Apply(s, step).CallsOf(id) != s.CallsOf(id) {
      CallsStep(s, step, id);
      OwnersHoldRunning(s, step.w, id);
    }
  }

  lemma SuccessIsClosed(s: State, step: Step)
    requires Inv(s) && Written(s, step).Some? && Written(s, step).value.status == Succeeded
    ensures step.Close? && var next := Written(s, step).value; var calls := s.CallsOf(next.id);
            next.artifactIds != [] && calls != [] && IsMatch(next, next.artifactIds[0], calls[|calls| - 1])
  {
    if step.Close? {
      assert PhaseOk(s.store, s.CallsOf(PhaseJob(s.workers[step.w])), s.workers[step.w]);
    }
    hide Inv, Consistent;
  }

  lemma {:induction false} EarnedRun(s: State, steps: seq<Step>)
    requires Inv(s) && Earned(s)
    ensures Earned(Run(s, steps))
    decreases |steps|
  {
    hide Apply, Inv, Earned;
    if steps != [] {
      EarnedStep(s, steps[0]);
      StepKeepsInv(s, steps[0]);
      EarnedRun(Apply(s, steps[0]), steps[1..]);
    }
  }

  /** However workers, sweeps and crashes interleave, no job succeeds unless the provider's last answer was a
      result for the job's own assignment and provider, and the job names that result's artifact first. */
  lemma SuccessIsEarned(steps: seq<Step>, id: string)
    requires var s := Run(EMPTY, steps); id in s.store && s.store[id].status == Succeeded
    ensures var s := Run(EMPTY, steps); var job, calls := s.store[id], s.CallsOf(id);
            && |job.artifactIds| == 3 && calls != []
            && calls[|calls| - 1] == Answered(Acquisition(job.assignmentId, job.provider, job.provider, job.artifactIds[0]))
  {
    EarnedRun(EMPTY, steps);
    StoredJobsConsistent(steps, id);
  }

  /** A call that timed out, lost its connection, broke off, or returned a result is the job's last: no continuation
      of any run calls the provider for that job again. */
  lemma UncertainCallIsLast(prior: seq<Step>, steps: seq<Step>, id: string, k: nat)
    requires k < |Run(EMPTY, prior).CallsOf(id)| && Run(EMPTY, prior).CallsOf(id)[k].Answered?
    requires match Run(EMPTY, prior).CallsOf(id)[k].outcome
             case AcquisitionError(code, _, retryable) =>
               code == "AI_PROVIDER_TIMEOUT" || code == "AI_PROVIDER_NETWORK_ERROR"
               || (!retryable && code != "AI_PROVIDER_CREDENTIAL_MISSING")
             case _ => true
    ensures k + 1 == |Run(EMPTY, prior).CallsOf(id)| && Run(Run(EMPTY, prior), steps).CallsOf(id) == Run(EMPTY, prior).CallsOf(id)
  {
    var s := Run(EMPTY, prior);
    ReachableInv(prior);
    hide Run, Inv;
    if k + 1 < |s.CallsOf(id)| {
      OnlyLastCallIndefinite(prior, id, k);
    }
    assert Settled(s, id);
    NoCallAfterSettled(s, steps, id);
  }
}
