/** The AI knowledge job record and its status transitions
    (`apps/worker/src/adk-knowledge-job-queue.ts`). A transition asked of a job in the
    wrong status throws in the source; here it returns `Err`. The clock is the argument `now`. */
module AdkJobQueue {
  import opened Common

  datatype Status =
    | Queued | Claimed | Running | Succeeded | Failed
    | RetryPending | BlockedCredential | BlockedRecovery | BlockedExecution

  datatype Mode = LegacyProvider | GroundedPrepared

  datatype Job = Job(
    id: string,
    assignmentId: string,
    provider: string,
    executionMode: Option<Mode>,
    groundedSha: Option<string>,
    status: Status,
    attempts: int,
    maxAttempts: Option<int>,
    executionKey: Option<string>,
    createdAt: string,
    updatedAt: string,
    artifactIds: seq<string>,
    error: Option<string>)
  {
    function ModeOf(): Mode {
      if executionMode.Some? then executionMode.value else LegacyProvider
    }

    function Limit(): int {
      if maxAttempts.Some? then maxAttempts.value else 3
    }

    /** The fields that never change once a job is stored, `maxAttempts` included. */
    function Identity(): (string, string, string, Option<Mode>, Option<string>, Option<int>, Option<string>, string) {
      (id, assignmentId, provider, executionMode, groundedSha, maxAttempts, executionKey, createdAt)
    }
  }

  // ---------------------------------------------------------------- transitions

  function ClaimJob(job: Job, now: string): Result<Job> {
    if job.status != Queued then Err("Only queued jobs can be claimed")
    else Ok(job.(status := Claimed, updatedAt := now))
  }

  function MarkCredentialBlocked(job: Job, error: string, now: string): Result<Job> {
    if job.status != Claimed && job.status != Running
    then Err("Only claimed or running jobs can be credential-blocked")
    else Ok(job.(status := BlockedCredential, error := Some(error), updatedAt := now))
  }

  function MarkExecutionBlocked(job: Job, error: string, now: string): Result<Job> {
    if job.status != Claimed then Err("Only claimed jobs can be execution-blocked")
    else Ok(job.(status := BlockedExecution, error := Some(error), updatedAt := now))
  }

  function MarkRunning(job: Job, now: string): Result<Job> {
    if job.status != Claimed then Err("Only claimed jobs can start running")
    else Ok(job.(status := Running, updatedAt := now))
  }

  function FailJob(job: Job, error: string, retryable: bool, now: string): Result<Job> {
    if job.status != Running then Err("Only running jobs can fail")
    else
      var attempts := job.attempts + 1;
      Ok(job.(attempts := attempts,
              status := if retryable && attempts < job.Limit() then RetryPending else Failed,
              error := Some(error),
              updatedAt := now))
  }

  function RequeueJob(job: Job, now: string): Result<Job> {
    if job.status != RetryPending then Err("Only retry-pending jobs can be requeued")
    else Ok(job.(status := Queued, error := None, updatedAt := now))
  }

  function RequeueCredentialBlockedJob(job: Job, now: string): Result<Job> {
    if job.status != BlockedCredential then Err("Only credential-blocked jobs can be requeued")
    else Ok(job.(status := Queued, error := None, updatedAt := now))
  }

  function RecoverClaimedJob(job: Job, now: string): Result<Job> {
    if job.status != Claimed then Err("Only claimed jobs can be recovered safely")
    else Ok(job.(status := Queued, error := None, updatedAt := now))
  }

  function BlockJobForRecovery(job: Job, error: string, now: string): Result<Job> {
    if job.status != Running then Err("Only running jobs can be blocked for recovery")
    else Ok(job.(status := BlockedRecovery, error := Some(error), updatedAt := now))
  }

  function CompleteJob(job: Job, artifactIds: seq<string>, now: string): Result<Job> {
    if job.status != Running then Err("Only running jobs can complete")
    else if artifactIds == [] then Err("Successful jobs require at least one artifact")
    else Ok(job.(status := Succeeded, artifactIds := artifactIds, error := None, updatedAt := now))
  }

  /** Every request a caller can make of a job. */
  datatype Request =
    | Claim
    | BlockCredential(error: string)
    | BlockExecution(error: string)
    | Start
    | Fail(error: string, retryable: bool)
    | RequeueRetry
    | RequeueCredential
    | RecoverClaimed
    | BlockRecovery(error: string)
    | Complete(artifactIds: seq<string>)

  function Transition(job: Job, request: Request, now: string): Result<Job> {
    match request
    case Claim => ClaimJob(job, now)
    case BlockCredential(error) => MarkCredentialBlocked(job, error, now)
    case BlockExecution(error) => MarkExecutionBlocked(job, error, now)
    case Start => MarkRunning(job, now)
    case Fail(error, retryable) => FailJob(job, error, retryable, now)
    case RequeueRetry => RequeueJob(job, now)
    case RequeueCredential => RequeueCredentialBlockedJob(job, now)
    case RecoverClaimed => RecoverClaimedJob(job, now)
    case BlockRecovery(error) => BlockJobForRecovery(job, error, now)
    case Complete(artifactIds) => CompleteJob(job, artifactIds, now)
  }

  // ---------------------------------------------------------------- the record invariant

  /** Statuses from which no transition leads. */
  predicate Absorbing(status: Status) {
    status in {Succeeded, Failed, BlockedRecovery, BlockedExecution}
  }

  predicate CarriesError(status: Status) {
    status in {Failed, RetryPending, BlockedCredential, BlockedRecovery, BlockedExecution}
  }

  predicate ThreeDistinct(ids: seq<string>) {
    |ids| == 3 && ids[0] != ids[1] && ids[0] != ids[2] && ids[1] != ids[2]
  }

  /** What every job record in the system satisfies, stored or held as a snapshot. */
  predicate Consistent(job: Job) {
    && 0 <= job.attempts <= job.Limit()
    && (!Absorbing(job.status) ==> job.attempts < job.Limit())
    && (job.error.Some? <==> CarriesError(job.status))
    && (if job.status == Succeeded then ThreeDistinct(job.artifactIds) else job.artifactIds == [])
    && (job.ModeOf() == GroundedPrepared ==> job.status in {Queued, Claimed, BlockedExecution})
  }

  /** What an enqueue puts into the store. */
  predicate Fresh(job: Job) {
    job.status == Queued && job.attempts == 0 && 1 <= job.Limit() && job.error.None? && job.artifactIds == []
  }

  /** The requests the worker and the recovery sweep make: grounded jobs are not started,
      and a completion names three distinct artifacts. */
  predicate Disciplined(job: Job, request: Request) {
    && (request.Start? || request.BlockCredential? ==> job.ModeOf() == LegacyProvider)
    && (request.Complete? ==> ThreeDistinct(request.artifactIds))
  }

  /** Absorbing statuses are exactly those every request is refused in. */
  lemma AbsorbingMeansNoTransition(job: Job, now: string)
    ensures Absorbing(job.status) <==> forall request: Request :: Transition(job, request, now).Err?
  {
    if !Absorbing(job.status) {
      var request := match job.status
        case Queued => Claim
        case Claimed => RecoverClaimed
        case Running => BlockRecovery("")
        case RetryPending => RequeueRetry
        case _ => RequeueCredential;
      assert Transition(job, request, now).Ok?;
    }
  }

  /** Each accepted request keeps the identity and the record invariant; only a failure
      counts an attempt, and it adds exactly one. */
  lemma TransitionKeepsRecord(job: Job, request: Request, now: string)
    requires Consistent(job) && Disciplined(job, request)
    requires Transition(job, request, now).Ok?
    ensures var next := Transition(job, request, now).value;
            Consistent(next) && next.Identity() == job.Identity() && next.status != job.status
    ensures Transition(job, request, now).value.attempts == job.attempts + if request.Fail? then 1 else 0
    ensures var next := Transition(job, request, now).value;
            && next.updatedAt == now
            && next.artifactIds == (if request.Complete? then request.artifactIds else job.artifactIds)
            && next.error == (if CarriesError(next.status) then ErrorIn(request) else None)
  {
  }

  function ErrorIn(request: Request): Option<string> {
    match request
    case BlockCredential(error) => Some(error)
    case BlockExecution(error) => Some(error)
    case Fail(error, _) => Some(error)
    case BlockRecovery(error) => Some(error)
    case _ => None
  }

  /** The twelve arrows of the job machine. */
  predicate Arrow(from: Status, to: Status) {
    match from
    case Queued => to == Claimed
    case Claimed => to == Running || to == Queued || to == BlockedCredential || to == BlockedExecution
    case Running => to == Succeeded || to == Failed || to == RetryPending || to == BlockedCredential || to == BlockedRecovery
    case RetryPending => to == Queued
    case BlockedCredential => to == Queued
    case _ => false
  }

  /** What a request leads to, were it accepted. */
  ghost predicate Leads(from: Status, to: Status, job: Job, request: Request, now: string) {
    job.status == from && Transition(job, request, now).Ok? && Transition(job, request, now).value.status == to
  }

  lemma NoOtherArrow(job: Job, request: Request, now: string)
    requires Transition(job, request, now).Ok?
    ensures Arrow(job.status, Transition(job, request, now).value.status)
  {
  }

  lemma ArrowIsTaken(from: Status, to: Status)
    requires Arrow(from, to)
    ensures exists job: Job, request: Request, now: string :: Leads(from, to, job, request, now)
  {
    var job := Job("", "", "", None, None, from, 0, None, None, "", "", [], None);
    var request := match to
      case Claimed => Claim
      case Running => Start
      case Queued => if from == Claimed then RecoverClaimed else if from == RetryPending then RequeueRetry else RequeueCredential
      case BlockedCredential => BlockCredential("")
      case BlockedExecution => BlockExecution("")
      case Succeeded => Complete([""])
      case Failed => Fail("", false)
      case RetryPending => Fail("", true)
      case BlockedRecovery => BlockRecovery("");
    assert Leads(from, to, job, request, "");
  }

  /** The machine has exactly these arrows: no request takes a job along any other. */
  lemma ArrowsExactly(from: Status, to: Status)
    ensures Arrow(from, to) <==> exists job: Job, request: Request, now: string :: Leads(from, to, job, request, now)
  {
    hide Transition;
    if Arrow(from, to) {
      ArrowIsTaken(from, to);
    }
    forall job: Job, request: Request, now: string | Leads(from, to, job, request, now) ensures Arrow(from, to) {
      NoOtherArrow(job, request, now);
    }
  }
}
