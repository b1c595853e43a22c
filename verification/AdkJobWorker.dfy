/** The concurrent job protocol (`apps/worker/src/adk-knowledge-job-worker.ts`): any number of
    workers and recovery sweeps over one store, interleaved at every store call and every
    provider or sink call. A `Step` carries all the nondeterminism: which participant moves, the
    clock, what the outside world answered, and crashes. `Apply` is the step function; a step its
    participant cannot take leaves the state alone. */
module AdkJobWorker {
  import opened Common
  import opened AdkJobQueue
  import opened AdkJobStore

  /** Where one `processNextAdkKnowledgeJob` call stands. */
  datatype Phase =
    | Idle
    | HasClaim(claimed: Job)
    | Owns(running: Job)
    | Calling(running: Job)
    | Acquired(running: Job, artifactId: string)
    | Closing(running: Job, next: Job)

  /** What a provider call ended with: an `AiKnowledgeAcquisitionError`, another exception, or a result. */
  datatype ProviderOutcome =
    | AcquisitionError(code: string, message: string, retryable: bool)
    | OtherException(message: string)
    | Acquisition(assignmentId: string, submissionProvider: string, artifactProvider: string, artifactId: string)

  /** A provider call, with its answer once there is one. */
  datatype Call = Pending | Answered(outcome: ProviderOutcome)

  datatype SinkOutcome = SinkFails(message: string) | Persisted(rawId: string, markdownId: string)

  datatype State = State(
    store: map<string, Job>,
    workers: map<nat, Phase>,
    sweeps: map<nat, seq<Job>>,
    calls: map<string, seq<Call>>)
  {
    function PhaseOf(w: nat): Phase {
      if w in workers then workers[w] else Idle
    }

    function CallsOf(id: string): seq<Call> {
      if id in calls then calls[id] else []
    }

    function Goto(w: nat, phase: Phase): State {
      this.(workers := workers[w := phase])
    }
  }

  datatype Step =
    | Enqueue(job: Job)
    | ClaimNext(w: nat, id: string, now: string)
    | Start(w: nat, now: string)
    | Call(w: nat, assignmentFound: bool, adapter: Option<string>, now: string)
    | Return(w: nat, outcome: ProviderOutcome, now: string)
    | Sink(w: nat, sunk: SinkOutcome, now: string)
    | Close(w: nat)
    | Crash(w: nat)
    | List(sweep: nat, jobs: seq<Job>)
    | Recover(sweep: nat, retryPending: bool, credentialBlocked: bool, stale: bool, now: string)

  /** `saveIfStatus` writes: the row exists, its identity agrees and its status is the expected one. */
  predicate Hits(store: map<string, Job>, next: Job, expected: Status) {
    next.id in store && SameIdentity(store[next.id], next) && store[next.id].status == expected
  }

  function Write(s: State, next: Job, expected: Status): State {
    if Hits(s.store, next, expected) then s.(store := CompareAndSet(s.store, next, expected)) else s
  }

  function GroundedBlockReason(job: Job): string {
    if GroundedIdentity(job) then "AI_GROUNDED_PROVIDER_EXECUTION_DISABLED" else "AI_GROUNDED_QUEUE_IDENTITY_INVALID"
  }

  predicate SupportedProvider(provider: string) {
    provider == "DEEPSEEK" || provider == "OPENAI"
  }

  // ---------------------------------------------------------------- the worker's steps

  function ApplyClaim(s: State, w: nat, id: string, now: string): State {
    if s.PhaseOf(w) != Idle || id !in s.store || s.store[id].status != Queued then s
    else
      var claimed := ClaimJob(s.store[id], now).value;
      s.(store := s.store[id := claimed]).Goto(w, HasClaim(claimed))
  }

  function ApplyStart(s: State, w: nat, now: string): State {
    var phase := s.PhaseOf(w);
    if !phase.HasClaim? || phase.claimed.status != Claimed then s
    else if phase.claimed.ModeOf() == GroundedPrepared then
      var next := MarkExecutionBlocked(phase.claimed, GroundedBlockReason(phase.claimed), now).value;
      Write(s, next, Claimed).Goto(w, Idle)
    else
      var next := MarkRunning(phase.claimed, now).value;
      Write(s, next, Claimed).Goto(w, if Hits(s.store, next, Claimed) then Owns(next) else Idle)
  }

  /** Why the provider is not called at all; `adapter` is the provider the registered adapter names. */
  function Refusal(running: Job, assignmentFound: bool, adapter: Option<string>): Option<string> {
    if !SupportedProvider(running.provider) then Some("AI_PROVIDER_UNSUPPORTED: " + running.provider)
    else if !assignmentFound then Some("AI_ASSIGNMENT_NOT_FOUND: " + running.assignmentId)
    else if adapter.None? then Some("AI_PROVIDER_ADAPTER_MISSING: " + running.provider)
    else if adapter.value != running.provider then Some("AI_PROVIDER_ADAPTER_MISMATCH: " + running.provider)
    else None
  }

  /** The checks before the provider call, then the call itself. */
  function ApplyCall(s: State, w: nat, assignmentFound: bool, adapter: Option<string>, now: string): State {
    var phase := s.PhaseOf(w);
    if !phase.Owns? || phase.running.status != Running then s
    else
      var refusal := Refusal(phase.running, assignmentFound, adapter);
      if refusal.Some? then s.Goto(w, Closing(phase.running, FailJob(phase.running, refusal.value, false, now).value))
      else
        var id := phase.running.id;
        s.(calls := s.calls[id := s.CallsOf(id) + [Pending]]).Goto(w, Calling(phase.running))
  }

  /** Errors after which the request may have been carried out all the same. */
  const DELIVERY_UNCERTAIN: set<string> := {"AI_PROVIDER_TIMEOUT", "AI_PROVIDER_NETWORK_ERROR"}

  function AfterCall(running: Job, outcome: ProviderOutcome, now: string): Phase
    requires running.status == Running
  {
    match outcome
    case AcquisitionError(code, m, retryable) =>
      var message := code + ": " + m;
      if code == "AI_PROVIDER_CREDENTIAL_MISSING" then Closing(running, MarkCredentialBlocked(running, message, now).value)
      else if code in DELIVERY_UNCERTAIN then
        Closing(running, BlockJobForRecovery(running, "AI_PROVIDER_DELIVERY_UNCERTAIN: " + message, now).value)
      else Closing(running, FailJob(running, message, retryable, now).value)
    case OtherException(m) =>
      Closing(running, BlockJobForRecovery(running, "AI_PROVIDER_EXECUTION_UNCERTAIN: " + m, now).value)
    case Acquisition(assignmentId, submissionProvider, artifactProvider, artifactId) =>
      if assignmentId != running.assignmentId || submissionProvider != running.provider || artifactProvider != running.provider
      then Closing(running, FailJob(running, "AI_ACQUISITION_LINEAGE_MISMATCH", false, now).value)
      else Acquired(running, artifactId)
  }

  function ApplyReturn(s: State, w: nat, outcome: ProviderOutcome, now: string): State {
    var phase := s.PhaseOf(w);
    if !phase.Calling? || phase.running.status != Running || s.CallsOf(phase.running.id) == [] then s
    else
      var id := phase.running.id;
      var history := s.calls[id];
      s.(calls := s.calls[id := history[|history| - 1 := Answered(outcome)]]).Goto(w, AfterCall(phase.running, outcome, now))
  }

  function AfterSink(running: Job, artifactId: string, sunk: SinkOutcome, now: string): Job
    requires running.status == Running
  {
    match sunk
    case SinkFails(m) => BlockJobForRecovery(running, "AI_ARTIFACT_PERSISTENCE_UNCERTAIN: " + m, now).value
    case Persisted(rawId, markdownId) =>
      var ids := [artifactId, rawId, markdownId];
      if !ThreeDistinct(ids) then BlockJobForRecovery(running, "AI_ACQUISITION_LINEAGE_REQUIRES_RECONCILIATION", now).value
      else CompleteJob(running, ids, now).value
  }

  function ApplySink(s: State, w: nat, sunk: SinkOutcome, now: string): State {
    var phase := s.PhaseOf(w);
    if !phase.Acquired? || phase.running.status != Running then s
    else s.Goto(w, Closing(phase.running, AfterSink(phase.running, phase.artifactId, sunk, now)))
  }

  function ApplyClose(s: State, w: nat): State {
    var phase := s.PhaseOf(w);
    if !phase.Closing? then s else Write(s, phase.next, Running).Goto(w, Idle)
  }

  // ---------------------------------------------------------------- the recovery sweep

  /** The transition a sweep attempts for one listed job, with the status it expects to find. */
  function Recovery(job: Job, retryPending: bool, credentialBlocked: bool, stale: bool, now: string): Option<Job> {
    match job.status
    case RetryPending => if retryPending then Some(RequeueJob(job, now).value) else None
    case BlockedCredential => if credentialBlocked then Some(RequeueCredentialBlockedJob(job, now).value) else None
    case Claimed => if stale then Some(RecoverClaimedJob(job, now).value) else None
    case Running =>
      if stale then Some(BlockJobForRecovery(job, "AI_STALE_RUNNING_REQUIRES_RECONCILIATION", now).value) else None
    case _ => None
  }

  function ApplyRecover(s: State, r: nat, retryPending: bool, credentialBlocked: bool, stale: bool, now: string): State {
    if r !in s.sweeps || s.sweeps[r] == [] then s
    else
      var job := s.sweeps[r][0];
      var rest := s.(sweeps := s.sweeps[r := s.sweeps[r][1..]]);
      var next := Recovery(job, retryPending, credentialBlocked, stale, now);
      if next.None? then rest else Write(rest, next.value, job.status)
  }

  /** A sweep works on a snapshot of stored jobs, which others may overtake. */
  predicate Listed(store: map<string, Job>, jobs: seq<Job>) {
    forall job <- jobs :: job.id in store && store[job.id] == job
  }

  function Apply(s: State, step: Step): State {
    match step
    case Enqueue(job) =>
      if Fresh(job) && job.id !in s.store then s.(store := s.store[job.id := job]) else s
    case ClaimNext(w, id, now) => ApplyClaim(s, w, id, now)
    case Start(w, now) => ApplyStart(s, w, now)
    case Call(w, assignmentFound, adapter, now) =>
      ApplyCall(s, w, assignmentFound, adapter, now)
    case Return(w, outcome, now) => ApplyReturn(s, w, outcome, now)
    case Sink(w, sunk, now) => ApplySink(s, w, sunk, now)
    case Close(w) => ApplyClose(s, w)
    case Crash(w) => s.Goto(w, Idle)
    case List(r, jobs) => if Listed(s.store, jobs) then s.(sweeps := s.sweeps[r := jobs]) else s
    case Recover(r, retryPending, credentialBlocked, stale, now) =>
      ApplyRecover(s, r, retryPending, credentialBlocked, stale, now)
  }

  function Run(s: State, steps: seq<Step>): State
    decreases |steps|
  {
    if steps == [] then s else Run(Apply(s, steps[0]), steps[1..])
  }

  const EMPTY := State(map[], map[], map[], map[])

  // ---------------------------------------------------------------- the invariant

  /** The provider reported that it had no credential. */
  predicate NoCredential(call: Call) {
    call.Answered? && call.outcome.AcquisitionError? && call.outcome.code == "AI_PROVIDER_CREDENTIAL_MISSING"
  }

  /** The provider reported that it may be asked again, and the request is known not to have been carried out. */
  predicate Retryable(call: Call) {
    && call.Answered? && call.outcome.AcquisitionError? && call.outcome.retryable
    && call.outcome.code != "AI_PROVIDER_CREDENTIAL_MISSING"
    && call.outcome.code != "AI_PROVIDER_TIMEOUT" && call.outcome.code != "AI_PROVIDER_NETWORK_ERROR"
  }

  /** After this outcome the same job may be called again. */
  predicate Definite(call: Call) {
    Retryable(call) || NoCredential(call)
  }

  predicate AllDefinite(calls: seq<Call>) {
    forall call <- calls :: Definite(call)
  }

  predicate PriorDefinite(calls: seq<Call>) {
    calls == [] || AllDefinite(calls[..|calls| - 1])
  }

  /** The job whose RUNNING status the phase answers for. */
  function Owned(phase: Phase): Option<string> {
    match phase
    case Idle => None
    case HasClaim(_) => None
    case Owns(running) => Some(running.id)
    case Calling(running) => Some(running.id)
    case Acquired(running, _) => Some(running.id)
    case Closing(running, _) => Some(running.id)
  }

  ghost predicate StoreOk(store: map<string, Job>) {
    forall id | id in store :: store[id].id == id && Consistent(store[id])
  }

  /** A snapshot is a consistent record of a stored job, possibly outdated. */
  ghost predicate Snapshot(store: map<string, Job>, job: Job) {
    job.id in store && job.Identity() == store[job.id].Identity() && Consistent(job)
  }

  /** What is stored under an owned id: the owner's own document, or what the sweep left. */
  ghost predicate OwnEra(store: map<string, Job>, running: Job) {
    && Snapshot(store, running) && running.status == Running
    && (store[running.id] == running || store[running.id].status == BlockedRecovery)
  }

  ghost predicate Reopens(status: Status) {
    status == RetryPending || status == BlockedCredential
  }

  /** The call returned a result for this job's assignment and provider, with this artifact. */
  predicate IsMatch(job: Job, artifactId: string, call: Call) {
    call == Answered(Acquisition(job.assignmentId, job.provider, job.provider, artifactId))
  }

  ghost predicate PhaseOk(store: map<string, Job>, calls: seq<Call>, phase: Phase) {
    match phase
    case Idle => true
    case HasClaim(claimed) => Snapshot(store, claimed) && claimed.status == Claimed
    case Owns(running) => OwnEra(store, running) && AllDefinite(calls)
    case Calling(running) => OwnEra(store, running) && calls != [] && calls[|calls| - 1] == Pending
    case Acquired(running, artifactId) => OwnEra(store, running) && calls != [] && IsMatch(running, artifactId, calls[|calls| - 1])
    case Closing(running, next) =>
      && OwnEra(store, running) && Snapshot(store, next) && next.id == running.id
      && running.attempts <= next.attempts <= running.attempts + 1
      && (Absorbing(next.status) || (Reopens(next.status) && AllDefinite(calls)))
      && (calls != [] ==> calls[|calls| - 1] != Pending)
      && (next.status == Succeeded ==> next.artifactIds != [] && calls != [] && IsMatch(running, next.artifactIds[0], calls[|calls| - 1]))
  }

  function PhaseJob(phase: Phase): string {
    match phase
    case Idle => ""
    case HasClaim(claimed) => claimed.id
    case Owns(running) => running.id
    case Calling(running) => running.id
    case Acquired(running, _) => running.id
    case Closing(running, _) => running.id
  }

  ghost predicate WorkersOk(s: State) {
    forall w | w in s.workers :: PhaseOk(s.store, s.CallsOf(PhaseJob(s.workers[w])), s.workers[w])
  }

  ghost predicate Exclusive(workers: map<nat, Phase>) {
    forall v, w | v in workers && w in workers && Owned(workers[v]).Some? && Owned(workers[v]) == Owned(workers[w]) :: v == w
  }

  ghost predicate SweepsOk(s: State) {
    forall r, k | r in s.sweeps && 0 <= k < |s.sweeps[r]| :: Snapshot(s.store, s.sweeps[r][k])
  }

  ghost predicate CallsOk(s: State) {
    forall id | id in s.calls ::
      && id in s.store
      && PriorDefinite(s.calls[id])
      && (s.store[id].status in {Queued, Claimed, RetryPending, BlockedCredential} ==> AllDefinite(s.calls[id]))
      && (s.calls[id] != [] ==> s.store[id].ModeOf() == LegacyProvider)
  }

  ghost predicate Inv(s: State) {
    StoreOk(s.store) && WorkersOk(s) && Exclusive(s.workers) && SweepsOk(s) && CallsOk(s)
  }

  // ---------------------------------------------------------------- what the steps keep

  lemma OwnersHoldRunning(s: State, w: nat, id: string)
    requires Inv(s) && w in s.workers && Owned(s.workers[w]) == Some(id)
    ensures id in s.store && s.store[id].status in {Running, BlockedRecovery}
  {
  }

  ghost predicate Unowned(workers: map<nat, Phase>, id: string) {
    forall w | w in workers :: Owned(workers[w]) != Some(id)
  }

  /** A worker may move to any phase that is in order, if nobody else owns its job. */
  lemma GotoKeeps(s: State, w: nat, phase: Phase)
    requires Inv(s) && PhaseOk(s.store, s.CallsOf(PhaseJob(phase)), phase)
    requires forall v, id | v in s.workers && v != w && Owned(phase) == Some(id) :: Owned(s.workers[v]) != Some(id)
    ensures Inv(s.Goto(w, phase))
  {
    var t := s.Goto(w, phase);
    forall v | v in t.workers ensures PhaseOk(t.store, t.CallsOf(PhaseJob(t.workers[v])), t.workers[v]) {
      if v != w {
        assert PhaseOk(s.store, s.CallsOf(PhaseJob(s.workers[v])), s.workers[v]);
      }
    }
  }

  /** A worker's phase stays in order when a document is replaced under the same identity, or added. */
  lemma PhaseStays(store: map<string, Job>, next: Job, calls: seq<Call>, phase: Phase)
    requires PhaseOk(store, calls, phase)
    requires next.id in store ==> next.Identity() == store[next.id].Identity()
    requires next.id in store && Owned(phase) == Some(next.id) ==> next.status == BlockedRecovery
    ensures PhaseOk(store[next.id := next], calls, phase)
  {
    hide Consistent, AllDefinite, Absorbing, Reopens;
  }

  /** Writing a document keeps everything in order when nobody owns the job, or when it turns
      RUNNING into BLOCKED_RECOVERY. */
  lemma WriteKeeps(s: State, next: Job)
    requires Inv(s) && Snapshot(s.store, next)
    requires Unowned(s.workers, next.id) || next.status == BlockedRecovery
    requires next.status in {Queued, Claimed, RetryPending, BlockedCredential} ==> AllDefinite(s.CallsOf(next.id))
    ensures Inv(s.(store := s.store[next.id := next]))
  {
    hide PhaseOk, Exclusive, Consistent, AllDefinite, PriorDefinite;
    var t := s.(store := s.store[next.id := next]);
    forall v | v in t.workers ensures PhaseOk(t.store, t.CallsOf(PhaseJob(t.workers[v])), t.workers[v]) {
      assert PhaseOk(s.store, s.CallsOf(PhaseJob(s.workers[v])), s.workers[v]);
      PhaseStays(s.store, next, s.CallsOf(PhaseJob(s.workers[v])), s.workers[v]);
    }
    forall r, k | r in t.sweeps && 0 <= k < |t.sweeps[r]| ensures Snapshot(t.store, t.sweeps[r][k]) {
      assert Snapshot(s.store, s.sweeps[r][k]);
    }
  }

  /** The owner of a job may rewrite its call history together with its own phase. */
  lemma HistoryKeeps(s: State, w: nat, id: string, history: seq<Call>, phase: Phase)
    requires Inv(s) && w in s.workers && Owned(s.workers[w]) == Some(id) == Owned(phase)
    requires PhaseOk(s.store, history, phase) && PriorDefinite(history)
    requires s.store[id].ModeOf() == LegacyProvider
    ensures Inv(s.(calls := s.calls[id := history]).Goto(w, phase))
  {
    var t := s.(calls := s.calls[id := history]).Goto(w, phase);
    OwnersHoldRunning(s, w, id);
    hide PhaseOk, Consistent, Snapshot, PriorDefinite, AllDefinite;
    OthersKeep(s, t, w, id, history, phase);
    assert SweepsOk(t) by {
      assert forall r, k | r in s.sweeps && 0 <= k < |s.sweeps[r]| :: Snapshot(s.store, s.sweeps[r][k]);
    }
  }

  lemma OthersKeep(s: State, t: State, w: nat, id: string, history: seq<Call>, phase: Phase)
    requires WorkersOk(s) && Exclusive(s.workers) && w in s.workers && Owned(s.workers[w]) == Some(id) == Owned(phase)
    requires t == s.(calls := s.calls[id := history]).Goto(w, phase) && PhaseOk(s.store, history, phase)
    ensures WorkersOk(t) && Exclusive(t.workers)
  {
    hide Consistent, Snapshot, OwnEra;
    forall v | v in t.workers ensures PhaseOk(t.store, t.CallsOf(PhaseJob(t.workers[v])), t.workers[v]) {
      if v != w {
        assert PhaseOk(s.store, s.CallsOf(PhaseJob(s.workers[v])), s.workers[v]);
        assert Owned(s.workers[v]) != Some(id);
      }
    }
  }

  lemma UnownedUnlessRunning(s: State, id: string)
    requires Inv(s) && id in s.store && s.store[id].status !in {Running, BlockedRecovery}
    ensures Unowned(s.workers, id)
  {
    forall w | w in s.workers ensures Owned(s.workers[w]) != Some(id) {
      if Owned(s.workers[w]) == Some(id) {
        OwnersHoldRunning(s, w, id);
      }
    }
  }

  lemma ClaimKeepsInv(s: State, w: nat, id: string, now: string)
    requires Inv(s)
    ensures Inv(ApplyClaim(s, w, id, now))
  {
    if s.PhaseOf(w) == Idle && id in s.store && s.store[id].status == Queued {
      var claimed := ClaimJob(s.store[id], now).value;
      UnownedUnlessRunning(s, id);
      WriteKeeps(s, claimed);
      GotoKeeps(s.(store := s.store[id := claimed]), w, HasClaim(claimed));
    }
  }

  /** Starting a claimed job makes it RUNNING, or BLOCKED_EXECUTION when it is grounded. */
  lemma StartShape(claimed: Job, now: string)
    requires claimed.status == Claimed && Consistent(claimed)
    ensures var started := if claimed.ModeOf() == GroundedPrepared
                           then MarkExecutionBlocked(claimed, GroundedBlockReason(claimed), now)
                           else MarkRunning(claimed, now);
            && started.Ok? && var next := started.value;
            && Consistent(next) && next.Identity() == claimed.Identity() && next.id == claimed.id && next.attempts == claimed.attempts
            && next.status == if claimed.ModeOf() == GroundedPrepared then BlockedExecution else Running
  {
  }

  lemma HeldClaim(s: State, w: nat)
    requires Inv(s) && s.PhaseOf(w).HasClaim?
    ensures w in s.workers && Snapshot(s.store, s.PhaseOf(w).claimed) && s.PhaseOf(w).claimed.status == Claimed
  {
    var phase := s.PhaseOf(w);
    assert PhaseOk(s.store, s.CallsOf(PhaseJob(phase)), phase);
  }

  lemma OpenIsDefinite(s: State, id: string)
    requires Inv(s) && id in s.store && s.store[id].status == Claimed
    ensures AllDefinite(s.CallsOf(id))
  {
  }

  lemma StartKeepsInv(s: State, w: nat, now: string)
    requires Inv(s)
    ensures Inv(ApplyStart(s, w, now))
  {
    hide Inv, Exclusive, Consistent, AllDefinite, MarkRunning, MarkExecutionBlocked, GroundedBlockReason;
    var phase := s.PhaseOf(w);
    if phase.HasClaim? && phase.claimed.status == Claimed {
      var claimed := phase.claimed;
      HeldClaim(s, w);
      StartShape(claimed, now);
      var started := if claimed.ModeOf() == GroundedPrepared
                     then MarkExecutionBlocked(claimed, GroundedBlockReason(claimed), now)
                     else MarkRunning(claimed, now);
      var next := started.value;
      GotoKeeps(s, w, Idle);
      if Hits(s.store, next, Claimed) {
        var t := s.(store := s.store[next.id := next]);
        UnownedUnlessRunning(s, next.id);
        WriteKeeps(s, next);
        OpenIsDefinite(s, next.id);
        GotoKeeps(t, w, if claimed.ModeOf() == GroundedPrepared then Idle else Owns(next));
      }
    }
  }

  /** A worker that refuses to call closes with a failure. */
  lemma RefusedShape(store: map<string, Job>, history: seq<Call>, running: Job, error: string, now: string)
    requires OwnEra(store, running) && AllDefinite(history)
    ensures PhaseOk(store, history, Closing(running, FailJob(running, error, false, now).value))
  {
    assert history != [] ==> history[|history| - 1] in history;
  }

  lemma CalledShape(store: map<string, Job>, history: seq<Call>, running: Job)
    requires OwnEra(store, running) && AllDefinite(history)
    ensures PhaseOk(store, history + [Pending], Calling(running)) && PriorDefinite(history + [Pending])
  {
    var called := history + [Pending];
    assert called[..|called| - 1] == history;
  }

  lemma OwnedIsLegacy(s: State, w: nat)
    requires Inv(s) && s.PhaseOf(w).Owns?
    ensures var running := s.PhaseOf(w).running;
            && w in s.workers && OwnEra(s.store, running) && AllDefinite(s.CallsOf(running.id))
            && s.store[running.id].ModeOf() == LegacyProvider
            && forall v | v in s.workers && v != w :: Owned(s.workers[v]) != Some(running.id)
  {
    var phase := s.PhaseOf(w);
    assert PhaseOk(s.store, s.CallsOf(PhaseJob(phase)), phase);
  }

  lemma CallKeepsInv(s: State, w: nat, assignmentFound: bool, adapter: Option<string>, now: string)
    requires Inv(s)
    ensures Inv(ApplyCall(s, w, assignmentFound, adapter, now))
  {
    var phase := s.PhaseOf(w);
    if phase.Owns? && phase.running.status == Running {
      var running, history := phase.running, s.CallsOf(phase.running.id);
      OwnedIsLegacy(s, w);
      hide Inv, PhaseOk, OwnEra, AllDefinite, PriorDefinite, Refusal, FailJob;
      var refusal := Refusal(running, assignmentFound, adapter);
      if refusal.Some? {
        RefusedShape(s.store, history, running, refusal.value, now);
        GotoKeeps(s, w, Closing(running, FailJob(running, refusal.value, false, now).value));
      } else {
        CalledShape(s.store, history, running);
        HistoryKeeps(s, w, running.id, history + [Pending], Calling(running));
      }
    }
  }

  lemma AfterCallShape(store: map<string, Job>, calls: seq<Call>, running: Job, outcome: ProviderOutcome, now: string)
    requires OwnEra(store, running)
    requires calls != [] && calls[|calls| - 1] == Answered(outcome)
    requires Definite(Answered(outcome)) ==> AllDefinite(calls)
    ensures PhaseOk(store, calls, AfterCall(running, outcome, now))
    ensures Owned(AfterCall(running, outcome, now)) == Some(running.id)
  {
    hide AllDefinite;
    if outcome.AcquisitionError? {
      ErrorShape(store, calls, running, outcome, now);
    }
  }

  lemma ErrorShape(store: map<string, Job>, calls: seq<Call>, running: Job, outcome: ProviderOutcome, now: string)
    requires OwnEra(store, running) && outcome.AcquisitionError?
    requires calls != [] && calls[|calls| - 1] == Answered(outcome)
    requires Definite(Answered(outcome)) ==> AllDefinite(calls)
    ensures PhaseOk(store, calls, AfterCall(running, outcome, now))
    ensures Owned(AfterCall(running, outcome, now)) == Some(running.id)
  {
    hide AllDefinite, IsMatch;
  }

  /** The last call's ending comes to be known. */
  lemma LastRecorded(history: seq<Call>, ending: Call)
    requires history != [] && PriorDefinite(history)
    ensures var updated := history[|history| - 1 := ending]; PriorDefinite(updated) && (Definite(ending) ==> AllDefinite(updated))
  {
    var last := |history| - 1;
    var updated := history[last := ending];
    assert updated[..last] == history[..last];
    assert updated == updated[..last] + [ending];
  }

  lemma ReturnKeepsInv(s: State, w: nat, outcome: ProviderOutcome, now: string)
    requires Inv(s)
    ensures Inv(ApplyReturn(s, w, outcome, now))
  {
    hide AfterCall, StoreOk, SweepsOk, Exclusive, Definite, AllDefinite, PriorDefinite, Consistent;
    var phase := s.PhaseOf(w);
    if phase.Calling? && phase.running.status == Running && s.CallsOf(phase.running.id) != [] {
      var running := phase.running;
      assert PhaseOk(s.store, s.CallsOf(PhaseJob(phase)), phase);
      var history := s.calls[running.id];
      var last := |history| - 1;
      var updated := history[last := Answered(outcome)];
      LastRecorded(history, Answered(outcome));
      AfterCallShape(s.store, updated, running, outcome, now);
      HistoryKeeps(s, w, running.id, updated, AfterCall(running, outcome, now));
    }
  }

  lemma AfterSinkShape(running: Job, artifactId: string, sunk: SinkOutcome, now: string)
    requires running.status == Running && Consistent(running)
    ensures var next := AfterSink(running, artifactId, sunk, now);
            && Consistent(next) && next.Identity() == running.Identity() && Absorbing(next.status) && next.attempts == running.attempts
            && (next.status == Succeeded ==> next.artifactIds != [] && next.artifactIds[0] == artifactId)
  {
    if sunk.Persisted? {
      var ids := [artifactId, sunk.rawId, sunk.markdownId];
      if ThreeDistinct(ids) {
        assert AfterSink(running, artifactId, sunk, now) == running.(status := Succeeded, artifactIds := ids, error := None, updatedAt := now);
      }
    }
  }

  lemma SinkKeepsInv(s: State, w: nat, sunk: SinkOutcome, now: string)
    requires Inv(s)
    ensures Inv(ApplySink(s, w, sunk, now))
  {
    var phase := s.PhaseOf(w);
    if phase.Acquired? && phase.running.status == Running {
      assert PhaseOk(s.store, s.CallsOf(PhaseJob(phase)), phase);
      AfterSinkShape(phase.running, phase.artifactId, sunk, now);
      hide AfterSink, Consistent;
      GotoKeeps(s, w, Closing(phase.running, AfterSink(phase.running, phase.artifactId, sunk, now)));
    }
  }

  lemma CloseKeepsInv(s: State, w: nat)
    requires Inv(s)
    ensures Inv(ApplyClose(s, w))
  {
    var phase := s.PhaseOf(w);
    if phase.Closing? {
      assert PhaseOk(s.store, s.CallsOf(PhaseJob(phase)), phase);
      var t := s.Goto(w, Idle);
      GotoKeeps(s, w, Idle);
      if Hits(s.store, phase.next, Running) {
        assert Unowned(t.workers, phase.next.id);
        WriteKeeps(t, phase.next);
      }
    }
  }

  /** The sweep moves on to its next listed job. */
  lemma MoveOnKeeps(s: State, r: nat)
    requires Inv(s) && r in s.sweeps && s.sweeps[r] != []
    ensures Inv(s.(sweeps := s.sweeps[r := s.sweeps[r][1..]])) && Snapshot(s.store, s.sweeps[r][0])
  {
    hide StoreOk, CallsOk, Exclusive, PhaseOk, Snapshot;
    var rest := s.(sweeps := s.sweeps[r := s.sweeps[r][1..]]);
    assert WorkersOk(rest) by {
      assert forall w | w in s.workers :: PhaseOk(s.store, s.CallsOf(PhaseJob(s.workers[w])), s.workers[w]);
    }
    assert CallsOk(rest) by {
      CallsOkIgnoresSweeps(s, rest);
    }
    forall q, k | q in rest.sweeps && 0 <= k < |rest.sweeps[q]| ensures Snapshot(rest.store, rest.sweeps[q][k]) {
      assert Snapshot(s.store, s.sweeps[q][if q == r then k + 1 else k]);
    }
  }

  lemma CallsOkIgnoresSweeps(s: State, t: State)
    requires CallsOk(s) && t.store == s.store && t.calls == s.calls
    ensures CallsOk(t)
  {
  }

  /** What a sweep writes: the listed job back in the queue, or BLOCKED_RECOVERY for a running one. */
  lemma RecoveryShape(job: Job, retryPending: bool, credentialBlocked: bool, stale: bool, now: string)
    requires Consistent(job) && Recovery(job, retryPending, credentialBlocked, stale, now).Some?
    ensures var next := Recovery(job, retryPending, credentialBlocked, stale, now).value;
            && Consistent(next) && next.Identity() == job.Identity() && next.id == job.id
            && (if job.status == Running then next.status == BlockedRecovery
                else next.status == Queued && job.status in {Claimed, RetryPending, BlockedCredential})
  {
  }

  lemma RecoverKeepsInv(s: State, r: nat, retryPending: bool, credentialBlocked: bool, stale: bool, now: string)
    requires Inv(s)
    ensures Inv(ApplyRecover(s, r, retryPending, credentialBlocked, stale, now))
  {
    if r in s.sweeps && s.sweeps[r] != [] {
      var job := s.sweeps[r][0];
      var rest := s.(sweeps := s.sweeps[r := s.sweeps[r][1..]]);
      MoveOnKeeps(s, r);
      var next := Recovery(job, retryPending, credentialBlocked, stale, now);
      if next.Some? && Hits(rest.store, next.value, job.status) {
        RecoveryShape(job, retryPending, credentialBlocked, stale, now);
        if job.status != Running {
          UnownedUnlessRunning(rest, job.id);
        }
        hide Recovery, Consistent, WorkersOk, SweepsOk, Exclusive, StoreOk;
        WriteKeeps(rest, next.value);
      }
    }
  }

  lemma StepKeepsInv(s: State, step: Step)
    requires Inv(s)
    ensures Inv(Apply(s, step))
  {
    match step
    case Enqueue(job) =>
      if Fresh(job) && job.id !in s.store {
        EnqueueKeepsInv(s, job);
      }
    case ClaimNext(w, id, now) => ClaimKeepsInv(s, w, id, now);
    case Start(w, now) => StartKeepsInv(s, w, now);
    case Call(w, assignmentFound, adapter, now) =>
      CallKeepsInv(s, w, assignmentFound, adapter, now);
    case Return(w, outcome, now) => ReturnKeepsInv(s, w, outcome, now);
    case Sink(w, sunk, now) => SinkKeepsInv(s, w, sunk, now);
    case Close(w) => CloseKeepsInv(s, w);
    case Crash(w) => GotoKeeps(s, w, Idle);
    case List(r, jobs) =>
      if Listed(s.store, jobs) {
        ListKeepsInv(s, r, jobs);
      }
    case Recover(r, retryPending, credentialBlocked, stale, now) =>
      RecoverKeepsInv(s, r, retryPending, credentialBlocked, stale, now);
  }

  lemma FreshIsConsistent(job: Job)
    requires Fresh(job)
    ensures Consistent(job)
  {
  }

  lemma EnqueueKeepsInv(s: State, job: Job)
    requires Inv(s) && Fresh(job) && job.id !in s.store
    ensures Inv(s.(store := s.store[job.id := job]))
  {
    hide PhaseOk, Exclusive, Consistent, AllDefinite, PriorDefinite;
    assert Consistent(job) by { FreshIsConsistent(job); }
    var t := s.(store := s.store[job.id := job]);
    forall v | v in t.workers ensures PhaseOk(t.store, t.CallsOf(PhaseJob(t.workers[v])), t.workers[v]) {
      assert PhaseOk(s.store, s.CallsOf(PhaseJob(s.workers[v])), s.workers[v]);
      PhaseStays(s.store, job, s.CallsOf(PhaseJob(s.workers[v])), s.workers[v]);
    }
    forall r, k | r in t.sweeps && 0 <= k < |t.sweeps[r]| ensures Snapshot(t.store, t.sweeps[r][k]) {
      assert Snapshot(s.store, s.sweeps[r][k]);
    }
  }

  lemma ListKeepsInv(s: State, r: nat, jobs: seq<Job>)
    requires Inv(s) && Listed(s.store, jobs)
    ensures Inv(s.(sweeps := s.sweeps[r := jobs]))
  {
    var t := s.(sweeps := s.sweeps[r := jobs]);
    forall q, k | q in t.sweeps && 0 <= k < |t.sweeps[q]| ensures Snapshot(t.store, t.sweeps[q][k]) {
      if q == r {
        assert jobs[k] in jobs;
      } else {
        assert Snapshot(s.store, s.sweeps[q][k]);
      }
    }
  }

  /** Every state any interleaving reaches is in order. */
  lemma {:induction false} RunKeepsInv(s: State, steps: seq<Step>)
    requires Inv(s)
    ensures Inv(Run(s, steps))
    decreases |steps|
  {
    if steps != [] {
      StepKeepsInv(s, steps[0]);
      RunKeepsInv(Apply(s, steps[0]), steps[1..]);
    }
  }
}
