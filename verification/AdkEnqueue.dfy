/** Enqueueing into the SQLite store: provider jobs (`adk-knowledge-job-worker.ts`) and grounded
    PREPARED executions (`adk-grounded-queue-admission.ts`). `idOf` stands for the truncated
    SHA-256 of the execution key; `clock` gives the timestamps. */
module AdkEnqueue {
  import opened Common
  import opened AdkJobQueue
  import opened AdkJobStore

  /** `${assignmentId}:${provider}:${executionScope}` */
  function ProviderKey(assignmentId: string, provider: string, scope: string): string {
    assignmentId + ":" + provider + ":" + scope
  }

  function ProviderJob(id: string, key: string, assignmentId: string, provider: string, maxAttempts: int, now: string): Job {
    Job(id, assignmentId, provider, None, None, Queued, 0, Some(maxAttempts), Some(key), now, now, [], None)
  }

  function GroundedJob(id: string, assignmentId: string, sha: string, now: string): Job {
    Job(id, assignmentId, "PROVIDER_DISABLED", Some(GroundedPrepared), Some(sha), Queued, 0, Some(1),
        Some("grounded-prepared:" + sha), now, now, [], None)
  }

  /** `executionScope` wins over a revision, but only one of them may be given. */
  function ResolveExecutionScope(scope: Option<string>, revision: Option<int>): Result<string> {
    var explicit := if scope.Some? then Trim(JsSpace, scope.value) else "";
    if explicit != "" then
      if revision.Some? then Err("ADK executionScope and executionRevision cannot both be supplied")
      else if |explicit| > 128 then Err("ADK executionScope must contain at most 128 characters")
      else Ok(explicit)
    else
      var number := if revision.Some? then revision.value else 1;
      if number < 1 || number > MAX_SAFE_INTEGER then Err("ADK execution revision must be a positive integer")
      else Ok("r" + Digits(number))
  }

  /** Which scope it is: the trimmed text where there is one, of at most 128 characters and without a revision beside it;
      otherwise that of a revision from one to the largest safe integer, one if none is given. */
  lemma ScopeIsSettled(scope: Option<string>, revision: Option<int>)
    ensures var text := if scope.Some? then Trim(JsSpace, scope.value) else "";
            var number := if revision.Some? then revision.value else 1;
            && (ResolveExecutionScope(scope, revision).Ok? <==>
                  if text != "" then revision.None? && |text| <= 128 else 1 <= number <= 9007199254740991)
            && (ResolveExecutionScope(scope, revision).Ok? ==>
                  ResolveExecutionScope(scope, revision).value == if text != "" then text else "r" + Digits(number))
  {
    hide Trim;
  }

  function Power(k: nat): nat {
    if k == 0 then 1 else 10 * Power(k - 1)
  }

  lemma {:induction false} DigitsShort(n: nat, k: nat)
    requires k > 0 && n < Power(k)
    ensures |Digits(n)| <= k
  {
    if k > 1 && n >= 10 {
      DigitsShort(n / 10, k - 1);
    } else {
      assert Power(1) == 10 * Power(0);
    }
  }

  /** Different revisions have different scopes, and an explicit scope is that of a revision exactly
      when it spells it: `r2` and revision 2 enqueue the same jobs. */
  lemma ScopesCoincide(m: int, n: int, text: string)
    requires 1 <= m <= MAX_SAFE_INTEGER && 1 <= n <= MAX_SAFE_INTEGER
    ensures ResolveExecutionScope(None, Some(m)) == ResolveExecutionScope(None, Some(n)) <==> m == n
    ensures ResolveExecutionScope(Some(text), None) == ResolveExecutionScope(None, Some(n))
       <==> Trim(JsSpace, text) == "r" + Digits(n) || (Trim(JsSpace, text) == "" && n == 1)
  {
    hide Trim;
    assert ("r" + Digits(m))[1..] == Digits(m) && ("r" + Digits(n))[1..] == Digits(n) && ("r" + Digits(1))[1..] == Digits(1);
    DigitsValue(m);
    DigitsValue(n);
    DigitsValue(1);
    SafeIsShort(n);
  }

  lemma SafeIsShort(n: nat)
    requires n <= MAX_SAFE_INTEGER
    ensures |Digits(n)| <= 16
  {
    assert Power(4) == 10000 && Power(8) == 10000 * Power(4) && Power(12) == 10000 * Power(8) && Power(16) == 10000 * Power(12);
    DigitsShort(n, 16);
  }

  /** Some row already answers for this key: under its own id, or under the trimmed key. */
  ghost predicate Answered(rows: map<string, Row>, key: string, idOf: string -> string) {
    idOf(key) in rows || KeyTaken(rows, key) || KeyTaken(rows, Trim(JsSpace, key))
  }

  /** The first `n` providers of one assignment are answered for. */
  ghost predicate RowAnswered(rows: map<string, Row>, assignmentId: string, providers: seq<string>, n: nat,
                              scope: string, idOf: string -> string)
    requires n <= |providers|
  {
    forall j | 0 <= j < n :: Answered(rows, ProviderKey(assignmentId, providers[j], scope), idOf)
  }

  /** The first `n` assignments are answered for, with every provider. */
  ghost predicate AllAnswered(rows: map<string, Row>, assignmentIds: seq<string>, n: nat, providers: seq<string>,
                              scope: string, idOf: string -> string)
    requires n <= |assignmentIds|
  {
    forall i | 0 <= i < n :: RowAnswered(rows, assignmentIds[i], providers, |providers|, scope, idOf)
  }

  /** Rows are only added, never touched or removed. */
  ghost predicate Grown(before: map<string, Row>, after: map<string, Row>) {
    forall id | id in before :: id in after && after[id] == before[id]
  }

  /** What one enqueue asks for. */
  datatype Order = Order(assignmentIds: seq<string>, providers: seq<string>, scope: string, maxAttempts: int)

  /** A fresh queued provider job for one of the cells asked for, under that cell's own key. */
  ghost predicate IsOrdered(job: Job, order: Order) {
    && Fresh(job) && job.ModeOf() == LegacyProvider && job.maxAttempts == Some(order.maxAttempts)
    && job.assignmentId in order.assignmentIds && job.provider in order.providers
    && job.executionKey == Some(job.assignmentId + ":" + job.provider + ":" + order.scope)
  }

  /** Rows are only added, and each new one is an ordered job. */
  ghost predicate Enqueued(before: map<string, Row>, after: map<string, Row>, order: Order) {
    Grown(before, after) && forall id | id in after && id !in before :: IsOrdered(after[id].document, order)
  }

  lemma EnqueuedTransitive(a: map<string, Row>, b: map<string, Row>, c: map<string, Row>, order: Order)
    requires Enqueued(a, b, order) && Enqueued(b, c, order)
    ensures Enqueued(a, c, order)
  {
    hide IsOrdered;
    forall id | id in c && id !in a ensures IsOrdered(c[id].document, order) {
      if id in b {
        assert c[id] == b[id];
      }
    }
  }

  lemma RowAnsweredGrows(before: map<string, Row>, after: map<string, Row>, assignmentId: string,
                         providers: seq<string>, n: nat, scope: string, idOf: string -> string, order: Order)
    requires n <= |providers| && Enqueued(before, after, order) && RowAnswered(before, assignmentId, providers, n, scope, idOf)
    ensures RowAnswered(after, assignmentId, providers, n, scope, idOf)
  {
    forall j | 0 <= j < n ensures Answered(after, ProviderKey(assignmentId, providers[j], scope), idOf) {
      AnsweredGrows(before, after, ProviderKey(assignmentId, providers[j], scope), idOf);
    }
  }

  lemma RowAnsweredOneMore(rows: map<string, Row>, assignmentId: string, providers: seq<string>, n: nat,
                           scope: string, idOf: string -> string)
    requires n < |providers| && RowAnswered(rows, assignmentId, providers, n, scope, idOf)
    requires Answered(rows, ProviderKey(assignmentId, providers[n], scope), idOf)
    ensures RowAnswered(rows, assignmentId, providers, n + 1, scope, idOf)
  {
    hide Answered, ProviderKey;
  }

  lemma AllAnsweredOneMore(before: map<string, Row>, after: map<string, Row>, assignmentIds: seq<string>, n: nat,
                           providers: seq<string>, scope: string, idOf: string -> string, order: Order)
    requires n < |assignmentIds| && Enqueued(before, after, order)
    requires AllAnswered(before, assignmentIds, n, providers, scope, idOf)
    requires RowAnswered(after, assignmentIds[n], providers, |providers|, scope, idOf)
    ensures AllAnswered(after, assignmentIds, n + 1, providers, scope, idOf)
  {
    hide Answered, ProviderKey;
    forall k | 0 <= k < n ensures RowAnswered(after, assignmentIds[k], providers, |providers|, scope, idOf) {
      RowAnsweredGrows(before, after, assignmentIds[k], providers, |providers|, scope, idOf, order);
    }
  }

  lemma AnsweredGrows(before: map<string, Row>, after: map<string, Row>, key: string, idOf: string -> string)
    requires Grown(before, after) && Answered(before, key, idOf)
    ensures Answered(after, key, idOf)
  {
    if id :| id in before && (before[id].executionKey == key || before[id].executionKey == Trim(JsSpace, key)) {
      assert id in after && after[id] == before[id];
    }
  }

  /** The job returned for a key is the one stored under it. */
  ghost predicate AnswersFor(job: Job, key: string) {
    job.executionKey.Some? && (job.executionKey.value == key || Trim(JsSpace, job.executionKey.value) == key)
  }

  function RowKeys(assignmentId: string, providers: seq<string>, scope: string): seq<string> {
    seq(|providers|, j requires 0 <= j < |providers| => ProviderKey(assignmentId, providers[j], scope))
  }

  /** The keys of all cells, assignment by assignment. */
  function AllKeys(assignmentIds: seq<string>, providers: seq<string>, scope: string): seq<string> {
    if assignmentIds == [] then []
    else AllKeys(assignmentIds[..|assignmentIds| - 1], providers, scope)
         + RowKeys(assignmentIds[|assignmentIds| - 1], providers, scope)
  }

  ghost predicate JobsFor(jobs: seq<Job>, keys: seq<string>) {
    |jobs| == |keys| && forall k | 0 <= k < |jobs| :: AnswersFor(jobs[k], keys[k])
  }

  lemma JobsForAppend(jobs: seq<Job>, keys: seq<string>, more: seq<Job>, moreKeys: seq<string>)
    requires JobsFor(jobs, keys) && JobsFor(more, moreKeys)
    ensures JobsFor(jobs + more, keys + moreKeys)
  {
    hide AnswersFor;
  }

  /** A row found under the key answers for it. */
  lemma FoundAnswers(rows: map<string, Row>, job: Job, key: string, idOf: string -> string)
    requires Table(rows) && job.id in Documents(rows) && Documents(rows)[job.id] == job && rows[job.id].executionKey == key
    ensures Answered(rows, key, idOf) && AnswersFor(job, key) && rows[job.id].document == job
  {
    assert RowAgrees(job.id, rows[job.id]);
    hide Trim;
  }

  /** A put that succeeds leaves one fresh row more, or the same row, to answer for the key. */
  lemma PutAnswers(before: map<string, Row>, after: map<string, Row>, job: Job, key: string, idOf: string -> string, order: Order)
    requires job.executionKey == Some(key) && job.id == idOf(key) && IsOrdered(job, order)
    requires Documents(after) == Documents(before)[job.id := job]
    requires job.id in before ==> after == before
    requires job.id !in before ==> job.id in after && after == before[job.id := after[job.id]]
    ensures Enqueued(before, after, order) && Answered(after, key, idOf) && AnswersFor(job, key)
    ensures job.id in after && after[job.id].document == job
  {
    hide IsOrdered, Trim;
    assert job.id in after && after[job.id].document == Documents(after)[job.id];
  }

  lemma UnchangedEnqueued(rows: map<string, Row>, order: Order)
    ensures Enqueued(rows, rows, order)
  {
  }

  lemma CellIsOrdered(id: string, assignmentId: string, provider: string, now: string, order: Order)
    requires assignmentId in order.assignmentIds && provider in order.providers && 1 <= order.maxAttempts
    ensures IsOrdered(ProviderJob(id, ProviderKey(assignmentId, provider, order.scope), assignmentId, provider, order.maxAttempts, now), order)
  {
  }

  lemma LastColon(a: string, p: string)
    requires ':' !in p
    ensures var x := a + ":" + p; x[|a|] == ':' && forall k | |a| < k < |x| :: x[k] != ':'
  {
    var x := a + ":" + p;
    assert forall k | |a| < k < |x| :: x[k] == p[k - |a| - 1];
  }

  /** Cells have keys of their own: within one scope a key tells its assignment and its provider. */
  lemma KeyTellsCell(a: string, p: string, b: string, q: string, scope: string)
    requires ':' !in p && ':' !in q && ProviderKey(a, p, scope) == ProviderKey(b, q, scope)
    ensures a == b && p == q
  {
    var key := ProviderKey(a, p, scope);
    var x, y := a + ":" + p, b + ":" + q;
    assert key == x + (":" + scope) == y + (":" + scope);
    assert x == key[..|key| - |scope| - 1] == y;
    LastColon(a, p);
    LastColon(b, q);
    assert a == x[..|a|] && b == y[..|b|] && p == x[|a| + 1..] && q == y[|b| + 1..];
  }

  /** One (assignment, provider) cell of the enqueue loop. */
  method EnqueueCell(store: SqliteJobStore, assignmentId: string, provider: string, scope: string,
                     maxAttempts: int, now: string, idOf: string -> string, ghost order: Order)
    returns (r: Result<Job>)
    requires store.Valid() && 1 <= maxAttempts
    requires assignmentId in order.assignmentIds && provider in order.providers && scope == order.scope && maxAttempts == order.maxAttempts
    modifies store
    ensures store.Valid() && Enqueued(old(store.rows), store.rows, order)
    ensures Answered(old(store.rows), ProviderKey(assignmentId, provider, scope), idOf) ==> store.rows == old(store.rows)
    ensures r.Ok? ==> Answered(store.rows, ProviderKey(assignmentId, provider, scope), idOf)
    ensures r.Ok? ==> r.value.id in store.rows && store.rows[r.value.id].document == r.value
    ensures r.Ok? ==> AnswersFor(r.value, ProviderKey(assignmentId, provider, scope))
  {
    hide Enqueued, AnswersFor, Table, ProviderKey, Consistent, RowAgrees;
    UnchangedEnqueued(store.rows, order);
    var key := ProviderKey(assignmentId, provider, scope);
    var existing := store.GetByExecutionKey(key);
    if existing.Err? {
      return Err(existing.code);
    }
    if existing.value.Some? {
      FoundAnswers(store.rows, existing.value.value, key, idOf);
      return Ok(existing.value.value);
    }
    var job := ProviderJob(idOf(key), key, assignmentId, provider, maxAttempts, now);
    CellIsOrdered(idOf(key), assignmentId, provider, now, order);
    r := store.Put(job);
    if r.Ok? {
      PutAnswers(old(store.rows), store.rows, job, key, idOf, order);
    }
  }

  /** The inner loop: all providers of one assignment. */
  method EnqueueAssignment(store: SqliteJobStore, assignmentId: string, providers: seq<string>, scope: string,
                           maxAttempts: int, clock: nat -> string, done: nat, idOf: string -> string, ghost order: Order)
    returns (r: Result<seq<Job>>)
    requires store.Valid() && 1 <= maxAttempts
    requires assignmentId in order.assignmentIds && providers == order.providers && scope == order.scope && maxAttempts == order.maxAttempts
    modifies store
    ensures store.Valid() && Enqueued(old(store.rows), store.rows, order)
    ensures RowAnswered(old(store.rows), assignmentId, providers, |providers|, scope, idOf) ==> store.rows == old(store.rows)
    ensures r.Ok? ==> JobsFor(r.value, RowKeys(assignmentId, providers, scope)) && RowAnswered(store.rows, assignmentId, providers, |providers|, scope, idOf)
  {
    ghost var start := store.rows;
    EnqueuedTransitive(start, start, start, order);
    hide ProviderKey, AnswersFor, JobsFor, Enqueued, Answered, Table, Consistent;
    var queued: seq<Job> := [];
    ghost var keys := RowKeys(assignmentId, providers, scope);
    for j := 0 to |providers|
      invariant store.Valid() && Enqueued(start, store.rows, order) && JobsFor(queued, keys[..j])
      invariant RowAnswered(start, assignmentId, providers, |providers|, scope, idOf) ==> store.rows == start
      invariant RowAnswered(store.rows, assignmentId, providers, j, scope, idOf)
    {
      ghost var before := store.rows;
      var cell := EnqueueCell(store, assignmentId, providers[j], scope, maxAttempts, clock(done + j), idOf, order);
      EnqueuedTransitive(start, before, store.rows, order);
      if cell.Err? {
        return Err(cell.code);
      }
      CellEnqueued(before, store.rows, assignmentId, providers, j, scope, idOf, queued, cell.value, order);
      queued := queued + [cell.value];
    }
    assert keys[..|providers|] == keys;
    r := Ok(queued);
  }

  /** One cell more of a row is answered for and returned. */
  lemma CellEnqueued(before: map<string, Row>, after: map<string, Row>, assignmentId: string, providers: seq<string>, j: nat,
                     scope: string, idOf: string -> string, queued: seq<Job>, job: Job, order: Order)
    requires j < |providers| && Enqueued(before, after, order) && RowAnswered(before, assignmentId, providers, j, scope, idOf)
    requires Answered(after, ProviderKey(assignmentId, providers[j], scope), idOf)
    requires AnswersFor(job, ProviderKey(assignmentId, providers[j], scope))
    requires JobsFor(queued, RowKeys(assignmentId, providers, scope)[..j])
    ensures RowAnswered(after, assignmentId, providers, j + 1, scope, idOf)
    ensures JobsFor(queued + [job], RowKeys(assignmentId, providers, scope)[..j + 1])
  {
    RowAnsweredGrows(before, after, assignmentId, providers, j, scope, idOf, order);
    RowAnsweredOneMore(after, assignmentId, providers, j, scope, idOf);
    var keys := RowKeys(assignmentId, providers, scope);
    hide Answered, RowAnswered, Enqueued, AnswersFor;
    JobsForAppend(queued, keys[..j], [job], [keys[j]]);
    assert keys[..j] + [keys[j]] == keys[..j + 1];
  }

  /** The outer loop. Re-enqueueing what is answered for adds nothing, whatever statuses those
      jobs have reached; a successful call leaves every cell answered for. */
  method EnqueueProviderJobs(store: SqliteJobStore, assignmentIds: seq<string>, providers: seq<string>,
                             scope: string, maxAttempts: int, clock: nat -> string, idOf: string -> string)
    returns (r: Result<seq<Job>>)
    requires store.Valid()
    modifies store
    ensures store.Valid() && Enqueued(old(store.rows), store.rows, Order(assignmentIds, providers, scope, maxAttempts))
    ensures maxAttempts < 1 || maxAttempts > 9007199254740991 ==> r.Err? && store.rows == old(store.rows)
    ensures AllAnswered(old(store.rows), assignmentIds, |assignmentIds|, providers, scope, idOf) ==> store.rows == old(store.rows)
    ensures r.Ok? ==> JobsFor(r.value, AllKeys(assignmentIds, providers, scope)) && AllAnswered(store.rows, assignmentIds, |assignmentIds|, providers, scope, idOf)
  {
    ghost var order := Order(assignmentIds, providers, scope, maxAttempts);
    if maxAttempts < 1 || maxAttempts > MAX_SAFE_INTEGER {
      return Err("ADK maxAttempts must be a positive integer");
    }
    ghost var start := store.rows;
    EnqueuedTransitive(start, start, start, order);
    hide ProviderKey, AnswersFor, JobsFor, Enqueued, Answered, RowAnswered, Table, Consistent, AllAnswered;
    AllAnsweredNone(start, assignmentIds, providers, scope, idOf);
    AllKeysNone(assignmentIds, providers, scope);
    var queued: seq<Job> := [];
    for i := 0 to |assignmentIds|
      invariant store.Valid() && Enqueued(start, store.rows, order) && JobsFor(queued, AllKeys(assignmentIds[..i], providers, scope))
      invariant AllAnswered(start, assignmentIds, |assignmentIds|, providers, scope, idOf) ==> store.rows == start
      invariant AllAnswered(store.rows, assignmentIds, i, providers, scope, idOf)
    {
      ghost var before := store.rows;
      AllAnsweredAt(start, assignmentIds, i, providers, scope, idOf);
      var row := EnqueueAssignment(store, assignmentIds[i], providers, scope, maxAttempts, clock, |queued|, idOf, order);
      EnqueuedTransitive(start, before, store.rows, order);
      if row.Err? {
        return Err(row.code);
      }
      RowEnqueued(before, store.rows, assignmentIds, i, providers, scope, idOf, queued, row.value, order);
      queued := queued + row.value;
    }
    assert assignmentIds[..|assignmentIds|] == assignmentIds;
    r := Ok(queued);
  }

  /** `enqueueAdkKnowledgeJobs`: the scope is settled first, then the jobs of all cells. */
  method EnqueueAdkKnowledgeJobs(store: SqliteJobStore, assignmentIds: seq<string>, providers: seq<string>,
                                 executionScope: Option<string>, executionRevision: Option<int>, maxAttempts: int,
                                 clock: nat -> string, idOf: string -> string)
    returns (r: Result<seq<Job>>)
    requires store.Valid()
    modifies store
    ensures store.Valid()
    ensures var scope := ResolveExecutionScope(executionScope, executionRevision);
            if scope.Err? then r == Err(scope.code) && store.rows == old(store.rows)
            else
              && Enqueued(old(store.rows), store.rows, Order(assignmentIds, providers, scope.value, maxAttempts))
              && (AllAnswered(old(store.rows), assignmentIds, |assignmentIds|, providers, scope.value, idOf) ==> store.rows == old(store.rows))
              && (r.Ok? ==> JobsFor(r.value, AllKeys(assignmentIds, providers, scope.value))
                            && AllAnswered(store.rows, assignmentIds, |assignmentIds|, providers, scope.value, idOf))
  {
    hide Enqueued, AllAnswered, JobsFor, Table;
    var scope := ResolveExecutionScope(executionScope, executionRevision);
    if scope.Err? {
      return Err(scope.code);
    }
    r := EnqueueProviderJobs(store, assignmentIds, providers, scope.value, maxAttempts, clock, idOf);
  }

  // ---------------------------------------------------------------- whatever the jobs go through

  /** The same rows are there, with the same execution keys. */
  ghost predicate KeysKept(before: map<string, Row>, after: map<string, Row>) {
    after.Keys == before.Keys && forall id | id in before :: after[id].document.executionKey == before[id].document.executionKey
  }

  /** What is answered for stays answered for. */
  lemma AnsweredSurvives(before: map<string, Row>, after: map<string, Row>, key: string, idOf: string -> string)
    requires Table(before) && Table(after) && KeysKept(before, after) && Answered(before, key, idOf)
    ensures Answered(after, key, idOf)
  {
    hide Trim;
    if idOf(key) !in before {
      var id :| id in before && (before[id].executionKey == key || before[id].executionKey == Trim(JsSpace, key));
      assert RowAgrees(id, before[id]) && RowAgrees(id, after[id]);
      assert after[id].executionKey == before[id].executionKey;
    }
  }

  lemma AllAnsweredSurvive(before: map<string, Row>, after: map<string, Row>, assignmentIds: seq<string>, providers: seq<string>,
                           scope: string, idOf: string -> string)
    requires Table(before) && Table(after) && KeysKept(before, after)
    requires AllAnswered(before, assignmentIds, |assignmentIds|, providers, scope, idOf)
    ensures AllAnswered(after, assignmentIds, |assignmentIds|, providers, scope, idOf)
  {
    hide Table, KeysKept, Answered, ProviderKey;
    forall i, j | 0 <= i < |assignmentIds| && 0 <= j < |providers|
      ensures Answered(after, ProviderKey(assignmentIds[i], providers[j], scope), idOf)
    {
      assert RowAnswered(before, assignmentIds[i], providers, |providers|, scope, idOf);
      AnsweredSurvives(before, after, ProviderKey(assignmentIds[i], providers[j], scope), idOf);
    }
  }

  /** Replacing a stored job by one with the same key keeps all keys. */
  lemma ReplacedKeepsKeys(before: map<string, Row>, after: map<string, Row>, job: Job)
    requires job.id in before && before[job.id].document.executionKey == job.executionKey
    requires Documents(after) == Documents(before)[job.id := job]
    ensures KeysKept(before, after)
  {
    assert after.Keys == Documents(after).Keys == Documents(before).Keys;
    assert forall id | id in before :: after[id].document == Documents(after)[id] && before[id].document == Documents(before)[id];
  }

  lemma KeysKeptTransitive(a: map<string, Row>, b: map<string, Row>, c: map<string, Row>)
    ensures KeysKept(a, a)
    ensures KeysKept(a, b) && KeysKept(b, c) ==> KeysKept(a, c)
  {
  }

  /** What the workers and sweeps do to the store between two enqueues. */
  datatype Change = Claims(now: string) | SavesIf(job: Job, expected: Status) | Saves(job: Job)

  method ApplyChange(store: SqliteJobStore, change: Change)
    requires store.Valid()
    modifies store
    ensures store.Valid() && KeysKept(old(store.rows), store.rows)
  {
    ghost var before := store.rows;
    KeysKeptTransitive(before, before, before);
    DocumentsKeyed(before);
    hide KeysKept, Table, Trim, LeastQueued, KeyLeq, Parses;
    match change
    case Claims(now) =>
      var r := store.ClaimNext(now);
      if r.Ok? && r.value.Some? {
        ReplacedKeepsKeys(before, store.rows, r.value.value);
      }
    case SavesIf(job, expected) =>
      var r := store.SaveIfStatus(job, expected);
      if r.Ok? && r.value.Some? {
        ReplacedKeepsKeys(before, store.rows, job);
      } else if r.Ok? {
        SameDocuments(before, store.rows);
      }
    case Saves(job) =>
      var r := store.Save(job);
      if r.Ok? {
        ReplacedKeepsKeys(before, store.rows, job);
      }
  }

  lemma SameDocuments(before: map<string, Row>, after: map<string, Row>)
    requires Documents(after) == Documents(before)
    ensures KeysKept(before, after)
  {
    assert after.Keys == Documents(after).Keys == Documents(before).Keys;
    assert forall id | id in before :: after[id].document == Documents(after)[id] && before[id].document == Documents(before)[id];
  }

  /** Repeating an enqueue adds nothing, whatever has become of the jobs since the first one. */
  method EnqueueAgain(store: SqliteJobStore, assignmentIds: seq<string>, providers: seq<string>, scope: string, maxAttempts: int,
                      clock: nat -> string, idOf: string -> string, changes: seq<Change>)
    requires store.Valid() && AllAnswered(store.rows, assignmentIds, |assignmentIds|, providers, scope, idOf)
    modifies store
    ensures store.Valid() && KeysKept(old(store.rows), store.rows)
    ensures AllAnswered(store.rows, assignmentIds, |assignmentIds|, providers, scope, idOf)
  {
    hide Table, KeysKept, AllAnswered, Enqueued, JobsFor;
    ghost var start := store.rows;
    KeysKeptTransitive(start, start, start);
    for i := 0 to |changes|
      invariant store.Valid() && KeysKept(start, store.rows)
    {
      ghost var before := store.rows;
      ApplyChange(store, changes[i]);
      KeysKeptTransitive(start, before, store.rows);
    }
    AllAnsweredSurvive(start, store.rows, assignmentIds, providers, scope, idOf);
    var _ := EnqueueProviderJobs(store, assignmentIds, providers, scope, maxAttempts, clock, idOf);
  }

  lemma AllAnsweredNone(rows: map<string, Row>, assignmentIds: seq<string>, providers: seq<string>, scope: string, idOf: string -> string)
    ensures AllAnswered(rows, assignmentIds, 0, providers, scope, idOf)
  {
  }

  lemma AllKeysNone(assignmentIds: seq<string>, providers: seq<string>, scope: string)
    ensures JobsFor([], AllKeys(assignmentIds[..0], providers, scope))
  {
  }

  lemma AllAnsweredAt(rows: map<string, Row>, assignmentIds: seq<string>, i: nat, providers: seq<string>, scope: string, idOf: string -> string)
    requires i < |assignmentIds|
    ensures AllAnswered(rows, assignmentIds, |assignmentIds|, providers, scope, idOf) ==> RowAnswered(rows, assignmentIds[i], providers, |providers|, scope, idOf)
  {
  }

  /** One assignment more is answered for and returned. */
  lemma RowEnqueued(before: map<string, Row>, after: map<string, Row>, assignmentIds: seq<string>, i: nat, providers: seq<string>,
                    scope: string, idOf: string -> string, queued: seq<Job>, jobs: seq<Job>, order: Order)
    requires i < |assignmentIds| && Enqueued(before, after, order) && AllAnswered(before, assignmentIds, i, providers, scope, idOf)
    requires RowAnswered(after, assignmentIds[i], providers, |providers|, scope, idOf)
    requires JobsFor(queued, AllKeys(assignmentIds[..i], providers, scope)) && JobsFor(jobs, RowKeys(assignmentIds[i], providers, scope))
    ensures AllAnswered(after, assignmentIds, i + 1, providers, scope, idOf)
    ensures JobsFor(queued + jobs, AllKeys(assignmentIds[..i + 1], providers, scope))
  {
    AllAnsweredOneMore(before, after, assignmentIds, i, providers, scope, idOf, order);
    hide AllAnswered, RowAnswered, Enqueued, RowKeys, JobsFor;
    JobsForAppend(queued, AllKeys(assignmentIds[..i], providers, scope), jobs, RowKeys(assignmentIds[i], providers, scope));
    assert assignmentIds[..i + 1][..i] == assignmentIds[..i];
  }

  // ---------------------------------------------------------------- grounded admission

  predicate MatchesEvidence(existing: Job, assignmentId: string, sha: string) {
    && existing.ModeOf() == GroundedPrepared
    && existing.provider == "PROVIDER_DISABLED"
    && existing.assignmentId == assignmentId
    && existing.groundedSha == Some(sha)
    && existing.executionKey == Some("grounded-prepared:" + sha)
  }

  /** A grounded key is its own trimmed form. */
  lemma GroundedKeyTrimmed(sha: string)
    requires IsSha256(sha)
    ensures Trim(JsSpace, "grounded-prepared:" + sha) == "grounded-prepared:" + sha
  {
    var key := "grounded-prepared:" + sha;
    assert key[|key| - 1] == sha[63] && sha[63] in sha;
    TrimFixpoint(JsSpace, key);
  }

  /** Admission is idempotent per execution input: what comes back always carries the
      evidence's identity, and at most the one job for this input is added. */
  method EnqueueGroundedExecution(store: SqliteJobStore, assignmentId: string, sha: string, now: string, idOf: string -> string)
    returns (r: Result<Job>)
    requires store.Valid() && IsSha256(sha)
    modifies store
    ensures store.Valid() && FreshlyAdded(old(store.rows), store.rows)
    ensures r.Ok? ==> && MatchesEvidence(r.value, assignmentId, sha) && KeyTaken(store.rows, "grounded-prepared:" + sha)
                      && r.value.id in store.rows && store.rows[r.value.id].document == r.value
    ensures KeyTaken(old(store.rows), "grounded-prepared:" + sha) ==> store.rows == old(store.rows)
  {
    NothingAdded(store.rows);
    GroundedKeyTrimmed(sha);
    hide Table, Trim, FreshlyAdded, MatchesEvidence, Consistent;
    var key := "grounded-prepared:" + sha;
    var existing := store.GetByExecutionKey(key);
    if existing.Err? {
      return Err(existing.code);
    }
    if existing.value.Some? {
      var job := existing.value.value;
      FoundAnswers(store.rows, job, key, idOf);
      return if MatchesEvidence(job, assignmentId, sha) then Ok(job)
             else Err("Grounded PREPARED execution conflicts with an existing ADK queue job");
    }
    r := PutGrounded(store, idOf(key), assignmentId, sha, now);
  }

  /** The new job of one execution input. */
  method PutGrounded(store: SqliteJobStore, id: string, assignmentId: string, sha: string, now: string) returns (r: Result<Job>)
    requires store.Valid() && IsSha256(sha) && !KeyTaken(store.rows, "grounded-prepared:" + sha)
    modifies store
    ensures store.Valid() && FreshlyAdded(old(store.rows), store.rows)
    ensures r.Ok? ==> && MatchesEvidence(r.value, assignmentId, sha) && KeyTaken(store.rows, "grounded-prepared:" + sha)
                      && r.value.id in store.rows && store.rows[r.value.id].document == r.value
  {
    hide FreshlyAdded, Table, Parses, Fresh, MatchesEvidence, Trim, KeyTaken, Consistent;
    var job := GroundedJob(id, assignmentId, sha, now);
    GroundedJobIsFresh(id, assignmentId, sha, now);
    GroundedKeyOf(id, assignmentId, sha, now);
    NothingAdded(store.rows);
    r := store.Put(job);
    if r.Ok? {
      OneAdded(old(store.rows), store.rows, job, "grounded-prepared:" + sha);
    }
  }

  /** Rows are only added, and new ones hold fresh documents that parse. */
  ghost predicate FreshlyAdded(before: map<string, Row>, after: map<string, Row>) {
    Grown(before, after) && forall id | id in after && id !in before :: Fresh(after[id].document) && Parses(after[id].document)
  }

  lemma NothingAdded(rows: map<string, Row>)
    ensures FreshlyAdded(rows, rows)
  {
  }

  lemma KeyOfRow(rows: map<string, Row>, id: string, key: string, document: Job)
    requires Table(rows) && id in rows && document == Documents(rows)[id] && ExecutionKeyOf(document) == Ok(key)
    ensures rows[id].document == document && KeyTaken(rows, key)
  {
    hide ExecutionKeyOf;
    assert RowAgrees(id, rows[id]);
  }

  lemma OneAdded(before: map<string, Row>, after: map<string, Row>, job: Job, key: string)
    requires Fresh(job) && Parses(job) && Table(after) && ExecutionKeyOf(job) == Ok(key)
    requires Documents(after) == Documents(before)[job.id := job]
    requires job.id in before ==> after == before
    requires job.id !in before ==> job.id in after && after == before[job.id := after[job.id]]
    ensures FreshlyAdded(before, after) && KeyTaken(after, key)
    ensures job.id in after && after[job.id].document == job
  {
    hide Fresh, Parses, ExecutionKeyOf, Table, KeyTaken;
    KeyOfRow(after, job.id, key, Documents(after)[job.id]);
  }

  lemma GroundedKeyOf(id: string, assignmentId: string, sha: string, now: string)
    requires IsSha256(sha)
    ensures ExecutionKeyOf(GroundedJob(id, assignmentId, sha, now)) == Ok("grounded-prepared:" + sha)
  {
    GroundedKeyTrimmed(sha);
    hide Trim;
  }

  lemma GroundedJobIsFresh(id: string, assignmentId: string, sha: string, now: string)
    requires IsSha256(sha)
    ensures var job := GroundedJob(id, assignmentId, sha, now);
            Fresh(job) && Parses(job) && MatchesEvidence(job, assignmentId, sha)
  {
    hide IsSha256;
  }
}
