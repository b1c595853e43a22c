/** The two job stores (`apps/worker/src/adk-knowledge-job-queue-store.ts`). The SQLite table is
    a map from primary key to row; a stored document is the job that `JSON.parse` would give back. */
module AdkJobStore {
  import opened Common
  import opened AdkJobQueue

  predicate IsSha256(s: string) {
    |s| == 64 && forall c <- s :: 'a' <= c <= 'f' || '0' <= c <= '9'
  }

  predicate GroundedIdentity(job: Job) {
    && job.provider == "PROVIDER_DISABLED"
    && job.groundedSha.Some? && IsSha256(job.groundedSha.value)
    && job.executionKey == Some("grounded-prepared:" + job.groundedSha.value)
  }

  /** `parseJob` accepts the persisted document. */
  predicate Parses(job: Job) {
    && -MAX_SAFE_INTEGER <= job.attempts <= MAX_SAFE_INTEGER
    && if job.ModeOf() == GroundedPrepared then GroundedIdentity(job) else job.groundedSha.None?
  }

  function ExecutionKeyOf(job: Job): Result<string> {
    if job.executionKey.None? || Trim(JsSpace, job.executionKey.value) == ""
    then Err("AI knowledge jobs require a non-empty executionKey")
    else Ok(Trim(JsSpace, job.executionKey.value))
  }

  /** `assertImmutableIdentity` does not throw. */
  predicate SameIdentity(existing: Job, next: Job) {
    && existing.assignmentId == next.assignmentId
    && existing.provider == next.provider
    && existing.executionKey == next.executionKey
    && existing.ModeOf() == next.ModeOf()
    && existing.groundedSha == next.groundedSha
    && existing.createdAt == next.createdAt
  }

  // ---------------------------------------------------------------- specification

  /** The compare-and-set on status that both stores offer. */
  function CompareAndSet(docs: map<string, Job>, next: Job, expected: Status): map<string, Job> {
    if next.id in docs && docs[next.id].status == expected then docs[next.id := next] else docs
  }

  /** `ORDER BY created_at, id`. */
  predicate KeyLeq(a: Job, b: Job) {
    if a.createdAt == b.createdAt then LexLeq(a.id, b.id) else LexLeq(a.createdAt, b.createdAt)
  }

  ghost predicate LeastQueued(docs: map<string, Job>, id: string) {
    && id in docs && docs[id].status == Queued
    && forall other | other in docs && docs[other].status == Queued :: KeyLeq(docs[id], docs[other])
  }

  lemma KeyOrder(a: Job, b: Job, c: Job)
    ensures KeyLeq(a, a)
    ensures KeyLeq(a, b) || KeyLeq(b, a)
    ensures KeyLeq(a, b) && KeyLeq(b, c) ==> KeyLeq(a, c)
    ensures KeyLeq(a, b) && KeyLeq(b, a) ==> a.id == b.id
  {
    LexReflexive(a.id);
    LexTotal(a.id, b.id);
    LexTotal(a.createdAt, b.createdAt);
    if KeyLeq(a, b) && KeyLeq(b, c) {
      if a.createdAt == b.createdAt == c.createdAt {
        LexTransitive(a.id, b.id, c.id);
      } else if a.createdAt != b.createdAt && b.createdAt != c.createdAt {
        LexTransitive(a.createdAt, b.createdAt, c.createdAt);
        if a.createdAt == c.createdAt {
          LexAntisymmetric(a.createdAt, b.createdAt);
        }
      }
    }
    if KeyLeq(a, b) && KeyLeq(b, a) {
      if a.createdAt == b.createdAt {
        LexAntisymmetric(a.id, b.id);
      } else {
        LexAntisymmetric(a.createdAt, b.createdAt);
      }
    }
  }

  // ---------------------------------------------------------------- the SQLite store

  datatype Row = Row(
    id: string, assignmentId: string, provider: string, status: Status, attempts: int,
    executionKey: string, document: Job, createdAt: string, updatedAt: string)

  /** The columns repeat what the document says; the key column holds the trimmed key. */
  ghost predicate RowAgrees(id: string, row: Row) {
    && row.id == id == row.document.id
    && row.assignmentId == row.document.assignmentId
    && row.provider == row.document.provider
    && row.status == row.document.status
    && row.attempts == row.document.attempts >= 0
    && ExecutionKeyOf(row.document) == Ok(row.executionKey)
    && row.createdAt == row.document.createdAt
    && row.updatedAt == row.document.updatedAt
  }

  /** Every row agrees with its document, and no two rows share an execution key. */
  ghost predicate Table(rows: map<string, Row>) {
    && (forall id | id in rows :: RowAgrees(id, rows[id]))
    && (forall a, b | a in rows && b in rows && rows[a].executionKey == rows[b].executionKey :: a == b)
  }

  ghost function Documents(rows: map<string, Row>): (docs: map<string, Job>)
    ensures docs.Keys == rows.Keys
  {
    map id | id in rows :: rows[id].document
  }

  ghost predicate KeyTaken(rows: map<string, Row>, key: string) {
    exists id :: id in rows && rows[id].executionKey == key
  }

  /** Writing one agreeing row whose key no other row holds keeps the table and changes one document. */
  lemma WriteRow(rows: map<string, Row>, id: string, row: Row)
    requires Table(rows) && RowAgrees(id, row)
    requires forall other | other in rows && other != id :: rows[other].executionKey != row.executionKey
    ensures Table(rows[id := row])
    ensures Documents(rows[id := row]) == Documents(rows)[id := row.document]
  {
    hide RowAgrees, ExecutionKeyOf;
  }

  lemma DocumentsKeyed(rows: map<string, Row>)
    requires Table(rows)
    ensures forall id | id in rows :: rows[id].document == Documents(rows)[id] && rows[id].document.id == id
  {
    assert forall id | id in rows :: RowAgrees(id, rows[id]);
  }

  /** The smallest claimable row the query has seen so far. */
  function Better(best: Option<Row>, row: Row): Option<Row> {
    if row.status == Queued && (best.None? || !KeyLeq(best.value.document, row.document))
    then Some(row) else best
  }

  lemma BetterIsBest(best: Option<Row>, row: Row, other: Row)
    requires best.Some? ==> best.value.status == Queued
    requires other.status == Queued
    requires other == row || (best.Some? && KeyLeq(best.value.document, other.document))
    ensures Better(best, row).Some? && KeyLeq(Better(best, row).value.document, other.document)
  {
    KeyOrder(row.document, row.document, row.document);
    if best.Some? {
      KeyOrder(row.document, best.value.document, other.document);
    }
  }

  /** `best` is the least queued row among those in `seen`. */
  ghost predicate BestOf(rows: map<string, Row>, seen: set<string>, best: Option<Row>) {
    && (best.Some? ==> best.value.id in rows && best.value == rows[best.value.id] && best.value.status == Queued)
    && forall id | id in seen && id in rows && rows[id].status == Queued ::
         best.Some? && KeyLeq(best.value.document, rows[id].document)
  }

  lemma NoneSeen(rows: map<string, Row>)
    ensures BestOf(rows, {}, None)
  {
  }

  lemma BestOfOneMore(rows: map<string, Row>, seen: set<string>, best: Option<Row>, id: string)
    requires Table(rows) && BestOf(rows, seen, best) && id in rows
    ensures BestOf(rows, seen + {id}, Better(best, rows[id]))
  {
    forall other | other in seen + {id} && other in rows && rows[other].status == Queued
      ensures Better(best, rows[id]).Some? && KeyLeq(Better(best, rows[id]).value.document, rows[other].document)
    {
      BetterIsBest(best, rows[id], rows[other]);
    }
  }

  lemma BestOfAll(rows: map<string, Row>, best: Option<Row>)
    requires Table(rows) && BestOf(rows, rows.Keys, best)
    ensures best.None? <==> forall id | id in Documents(rows) :: Documents(rows)[id].status != Queued
    ensures best.Some? ==> best.value.id in rows && rows[best.value.id] == best.value && LeastQueued(Documents(rows), best.value.id)
  {
    assert forall id | id in Documents(rows) :: Documents(rows)[id] == rows[id].document && RowAgrees(id, rows[id]);
    if best.Some? {
      assert Documents(rows)[best.value.id].status == Queued;
    }
  }

  class SqliteJobStore {
    var rows: map<string, Row>

    constructor ()
      ensures Valid() && rows == map[]
    {
      rows := map[];
    }

    ghost predicate Valid()
      reads this
    {
      Table(rows)
    }

    method Get(id: string) returns (r: Result<Option<Job>>)
      ensures r == if id !in Documents(rows) then Ok(None)
                   else if Parses(Documents(rows)[id]) then Ok(Some(Documents(rows)[id]))
                   else Err("Persisted AI knowledge job is invalid")
    {
      if id !in rows {
        return Ok(None);
      }
      var doc := rows[id].document;
      r := if Parses(doc) then Ok(Some(doc)) else Err("Persisted AI knowledge job is invalid");
    }

    method GetByExecutionKey(key: string) returns (r: Result<Option<Job>>)
      requires Valid()
      ensures r == Ok(None) <==> !KeyTaken(rows, key)
      ensures r.Ok? && r.value.Some? ==>
                var job := r.value.value;
                job.id in Documents(rows) && Documents(rows)[job.id] == job && rows[job.id].executionKey == key && Parses(job)
      ensures r.Err? ==> exists id :: id in rows && rows[id].executionKey == key && !Parses(rows[id].document)
    {
      var ids := rows.Keys;
      while ids != {}
        invariant ids <= rows.Keys
        invariant forall id | id in rows && rows[id].executionKey == key :: id in ids
        decreases |ids|
      {
        var id :| id in ids;
        ids := ids - {id};
        if rows[id].executionKey == key {
          var doc := rows[id].document;
          return if Parses(doc) then Ok(Some(doc)) else Err("Persisted AI knowledge job is invalid");
        }
      }
      r := Ok(None);
    }

    /** Insert-if-absent: succeeds exactly when the same document is already there, or neither
        its id nor its trimmed key is taken. Nothing that is stored is ever replaced. */
    method Put(job: Job) returns (r: Result<Job>)
      requires Valid()
      modifies this
      ensures Valid()
      ensures r.Ok? <==> && ExecutionKeyOf(job).Ok?
                         && if job.id in Documents(old(rows))
                            then Documents(old(rows))[job.id] == job && Parses(job)
                            else !KeyTaken(old(rows), ExecutionKeyOf(job).value) && 0 <= job.attempts
      ensures r.Ok? ==> r.value == job && Documents(rows) == Documents(old(rows))[job.id := job]
      ensures r.Err? || job.id in old(rows) ==> rows == old(rows)
      ensures r.Ok? && job.id !in old(rows) ==>
                job.id in rows && rows == old(rows)[job.id := rows[job.id]] && Ok(rows[job.id].executionKey) == ExecutionKeyOf(job)
    {
      var key := ExecutionKeyOf(job);
      if key.Err? {
        return Err(key.code);
      }
      var found := Get(job.id);
      if found == Ok(None) {
        found := GetByExecutionKey(key.value);
      }
      if found.Err? {
        return Err(found.code);
      }
      if found.value.Some? {
        return if found.value.value == job then Ok(job) else Err("execution key conflicts with existing job");
      }
      if job.attempts < 0 {
        return Err("CHECK constraint failed");
      }
      var row := Row(job.id, job.assignmentId, job.provider, job.status, job.attempts,
                     key.value, job, job.createdAt, job.updatedAt);
      WriteRow(rows, job.id, row);
      rows := rows[job.id := row];
      r := Ok(job);
    }

    ghost predicate Replaceable(next: Job)
      reads this
    {
      && ExecutionKeyOf(next).Ok?
      && next.id in rows && Parses(rows[next.id].document)
      && SameIdentity(rows[next.id].document, next)
    }

    method SaveIfStatus(next: Job, expected: Status) returns (r: Result<Option<Job>>)
      requires Valid()
      modifies this
      ensures Valid()
      ensures r.Ok? <==> old(Replaceable(next)) && (Documents(old(rows))[next.id].status == expected ==> 0 <= next.attempts)
      ensures r.Ok? ==> Documents(rows) == CompareAndSet(Documents(old(rows)), next, expected)
      ensures r.Ok? ==> r.value == if Documents(old(rows))[next.id].status == expected then Some(next) else None
      ensures r.Err? ==> rows == old(rows)
    {
      var found := Get(next.id);
      if ExecutionKeyOf(next).Err? || found.Err? || found.value.None? || !SameIdentity(found.value.value, next) {
        return Err("AI knowledge job immutable identity changed");
      }
      var row := rows[next.id];
      if row.status != expected {
        return Ok(None);
      }
      if next.attempts < 0 {
        return Err("CHECK constraint failed");
      }
      row := row.(status := next.status, attempts := next.attempts, document := next, updatedAt := next.updatedAt);
      WriteRow(rows, next.id, row);
      rows := rows[next.id := row];
      r := Ok(Some(next));
    }

    method Save(next: Job) returns (r: Result<Job>)
      requires Valid()
      modifies this
      ensures Valid()
      ensures r.Ok? <==> old(Replaceable(next)) && 0 <= next.attempts
      ensures r.Ok? ==> r.value == next && Documents(rows) == Documents(old(rows))[next.id := next]
      ensures r.Err? ==> rows == old(rows)
    {
      var found := Get(next.id);
      if ExecutionKeyOf(next).Err? || found.Err? || found.value.None? || !SameIdentity(found.value.value, next) {
        return Err("AI knowledge job immutable identity changed");
      }
      var saved := SaveIfStatus(next, found.value.value.status);
      r := if saved.Ok? then Ok(next) else Err(saved.code);
    }

    /** `SELECT ... WHERE status = 'QUEUED' ORDER BY created_at, id LIMIT 1`. */
    method SelectLeastQueued() returns (best: Option<Row>)
      requires Valid()
      ensures best.None? <==> forall id | id in Documents(rows) :: Documents(rows)[id].status != Queued
      ensures best.Some? ==> best.value.id in rows && rows[best.value.id] == best.value
      ensures best.Some? ==> LeastQueued(Documents(rows), best.value.id)
    {
      hide BestOf, Better, KeyLeq, LeastQueued, Table;
      var table := rows;
      var ids := table.Keys;
      best := None;
      NoneSeen(table);
      assert table.Keys - ids == {};
      while ids != {}
        invariant ids <= table.Keys
        invariant BestOf(table, table.Keys - ids, best)
        decreases |ids|
      {
        var id :| id in ids;
        BestOfOneMore(table, table.Keys - ids, best, id);
        assert table.Keys - (ids - {id}) == table.Keys - ids + {id};
        ids := ids - {id};
        best := Better(best, table[id]);
      }
      assert table.Keys - ids == table.Keys;
      BestOfAll(table, best);
    }

    /** Claims the least (createdAt, id) among the queued jobs and touches no other row. */
    method ClaimNext(now: string) returns (r: Result<Option<Job>>)
      requires Valid()
      modifies this
      ensures Valid()
      ensures r == Ok(None) <==> forall id | id in Documents(old(rows)) :: Documents(old(rows))[id].status != Queued
      ensures r.Ok? && r.value.Some? ==>
                var claimed := r.value.value;
                && LeastQueued(Documents(old(rows)), claimed.id)
                && ClaimJob(Documents(old(rows))[claimed.id], now) == Ok(claimed)
                && Documents(rows) == Documents(old(rows))[claimed.id := claimed]
      ensures r.Err? ==> exists id :: LeastQueued(Documents(old(rows)), id) && !Parses(Documents(old(rows))[id])
      ensures r.Err? || r.value.None? ==> rows == old(rows)
    {
      var best := SelectLeastQueued();
      if best.None? {
        return Ok(None);
      }
      var row := best.value;
      if !Parses(row.document) {
        return Err("Persisted AI knowledge job is invalid");
      }
      var claimed := ClaimJob(row.document, now).value;
      row := row.(status := claimed.status, document := claimed, updatedAt := claimed.updatedAt);
      WriteRow(rows, claimed.id, row);
      rows := rows[claimed.id := row];
      r := Ok(Some(claimed));
    }

    /** `ORDER BY created_at, id` over the whole table: every document once, in key order. */
    method List() returns (r: Result<seq<Job>>)
      requires Valid()
      ensures r.Ok? <==> forall id | id in rows :: Parses(rows[id].document)
      ensures r.Ok? ==> Listing(Documents(rows), rows.Keys, r.value)
    {
      r := ListTable(rows);
    }
  }

  /** The loop over the rows. */
  method ListTable(table: map<string, Row>) returns (r: Result<seq<Job>>)
    requires Table(table)
    ensures r.Ok? <==> forall id | id in table :: Parses(table[id].document)
    ensures r.Ok? ==> Listing(Documents(table), table.Keys, r.value)
  {
    ghost var docs := Documents(table);
    DocumentsKeyed(table);
    ListingOfNone(docs);
    hide KeyLeq, Parses, Table, InsertByKey, Listing, Documents, AllParse;
    var ids, jobs := table.Keys, [];
    NoneToParse(table);
    assert table.Keys - ids == {};
    while ids != {}
      invariant ids <= table.Keys
      invariant Listing(docs, table.Keys - ids, jobs)
      invariant AllParse(table, table.Keys - ids)
      decreases |ids|
    {
      var id :| id in ids;
      OneMoreParses(table, table.Keys - ids, id);
      if !Parses(table[id].document) {
        return Err("Persisted AI knowledge job is invalid");
      }
      ListingOneMore(docs, table.Keys - ids, jobs, id);
      OneLess(table.Keys, ids, id);
      ids, jobs := ids - {id}, InsertByKey(jobs, table[id].document);
    }
    assert table.Keys - ids == table.Keys;
    EveryRowParses(table);
    r := Ok(jobs);
  }

  lemma OneLess(all: set<string>, ids: set<string>, id: string)
    requires id in ids && ids <= all
    ensures all - (ids - {id}) == all - ids + {id}
  {
  }

  ghost predicate AllParse(table: map<string, Row>, ids: set<string>) {
    forall id | id in ids && id in table :: Parses(table[id].document)
  }

  lemma NoneToParse(table: map<string, Row>)
    ensures AllParse(table, {})
  {
  }

  lemma EveryRowParses(table: map<string, Row>)
    ensures AllParse(table, table.Keys) <==> forall id | id in table :: Parses(table[id].document)
  {
  }

  lemma OneMoreParses(table: map<string, Row>, ids: set<string>, id: string)
    requires id in table
    ensures AllParse(table, ids) && Parses(table[id].document) ==> AllParse(table, ids + {id})
    ensures !Parses(table[id].document) ==> !forall other | other in table :: Parses(table[other].document)
  {
    hide Parses;
  }

  // ---------------------------------------------------------------- key order on lists

  ghost predicate SortedByKey(jobs: seq<Job>) {
    forall i, j | 0 <= i < j < |jobs| :: KeyLeq(jobs[i], jobs[j])
  }

  function InsertByKey(jobs: seq<Job>, job: Job): seq<Job> {
    if jobs == [] || KeyLeq(job, jobs[0]) then [job] + jobs
    else [jobs[0]] + InsertByKey(jobs[1..], job)
  }

  /** Inserting puts the job at one place and keeps the order. */
  lemma {:induction false} InsertByKeyKeeps(jobs: seq<Job>, job: Job) returns (k: nat)
    requires SortedByKey(jobs)
    ensures k <= |jobs| && InsertByKey(jobs, job) == jobs[..k] + [job] + jobs[k..]
    ensures forall i | 0 <= i < k :: KeyLeq(jobs[i], job)
    ensures forall i | k <= i < |jobs| :: KeyLeq(job, jobs[i])
  {
    if jobs == [] {
      k := 0;
    } else if KeyLeq(job, jobs[0]) {
      k := 0;
      forall i | 0 <= i < |jobs| ensures KeyLeq(job, jobs[i]) {
        KeyOrder(job, jobs[0], jobs[i]);
        KeyOrder(jobs[i], jobs[i], jobs[i]);
      }
    } else {
      var rest := InsertByKeyKeeps(jobs[1..], job);
      KeyOrder(job, jobs[0], job);
      k := rest + 1;
      assert jobs[..k] == [jobs[0]] + jobs[1..][..rest];
      assert jobs[k..] == jobs[1..][rest..];
      forall i | 0 <= i < k ensures KeyLeq(jobs[i], job) {
        assert i > 0 ==> jobs[i] == jobs[1..][i - 1];
      }
      forall i | k <= i < |jobs| ensures KeyLeq(job, jobs[i]) {
        assert jobs[i] == jobs[1..][i - 1];
      }
    }
  }

  /** Inserting a job with a new id adds exactly that job and keeps order and distinctness. */
  lemma InsertByKeyAdds(jobs: seq<Job>, job: Job)
    requires SortedByKey(jobs) && DistinctIds(jobs)
    requires forall i | 0 <= i < |jobs| :: jobs[i].id != job.id
    ensures SortedByKey(InsertByKey(jobs, job)) && DistinctIds(InsertByKey(jobs, job))
    ensures forall x :: x in InsertByKey(jobs, job) <==> x == job || x in jobs
  {
    hide KeyLeq, InsertByKey;
    var k := InsertByKeyKeeps(jobs, job);
    var all := InsertByKey(jobs, job);
    InsertedInOrder(jobs, job, all, k);
    hide SortedByKey, DistinctIds;
    assert all == jobs[..k] + [job] + jobs[k..] && jobs == jobs[..k] + jobs[k..];
    forall x ensures x in all <==> x == job || x in jobs {
      assert x in jobs <==> x in jobs[..k] || x in jobs[k..];
    }
  }

  lemma InsertedInOrder(jobs: seq<Job>, job: Job, all: seq<Job>, k: nat)
    requires SortedByKey(jobs) && DistinctIds(jobs) && k <= |jobs| && all == jobs[..k] + [job] + jobs[k..]
    requires forall i | 0 <= i < |jobs| :: jobs[i].id != job.id
    requires forall i | 0 <= i < k :: KeyLeq(jobs[i], job)
    requires forall i | k <= i < |jobs| :: KeyLeq(job, jobs[i])
    ensures SortedByKey(all) && DistinctIds(all)
  {
    hide KeyLeq;
    forall i, j | 0 <= i < j < |all| ensures KeyLeq(all[i], all[j]) && all[i].id != all[j].id {
      var a, b := if i < k then i else i - 1, if j < k then j else j - 1;
      if i != k && j != k {
        assert a < b && all[i] == jobs[a] && all[j] == jobs[b];
      }
    }
  }

  /** `jobs` lists the documents of the rows in `ids`, each once, in key order. */
  ghost predicate Listing(docs: map<string, Job>, ids: set<string>, jobs: seq<Job>) {
    && SortedByKey(jobs)
    && DistinctIds(jobs)
    && (forall i | 0 <= i < |jobs| :: jobs[i].id in ids && jobs[i].id in docs && docs[jobs[i].id] == jobs[i])
    && forall id | id in ids && id in docs :: docs[id] in jobs
  }

  lemma ListingOfNone(docs: map<string, Job>)
    ensures Listing(docs, {}, [])
  {
  }

  lemma ListingOneMore(docs: map<string, Job>, ids: set<string>, jobs: seq<Job>, id: string)
    requires Listing(docs, ids, jobs) && id in docs && id !in ids && docs[id].id == id
    ensures Listing(docs, ids + {id}, InsertByKey(jobs, docs[id]))
  {
    InsertByKeyAdds(jobs, docs[id]);
    var all := InsertByKey(jobs, docs[id]);
    forall i | 0 <= i < |all| ensures all[i].id in ids + {id} && all[i].id in docs && docs[all[i].id] == all[i] {
      assert all[i] in all;
      if all[i] != docs[id] {
        var j :| 0 <= j < |jobs| && jobs[j] == all[i];
      }
    }
  }

  // ---------------------------------------------------------------- the memory store

  /** A JavaScript `Map`: entries in insertion order, one per id. */
  ghost predicate DistinctIds(jobs: seq<Job>) {
    forall i, j | 0 <= i < j < |jobs| :: jobs[i].id != jobs[j].id
  }

  class MemoryJobStore {
    var jobs: seq<Job>

    constructor ()
      ensures Valid() && jobs == []
    {
      jobs := [];
    }

    ghost predicate Valid()
      reads this
    {
      DistinctIds(jobs)
    }

    method Find(id: string) returns (at: Option<nat>)
      ensures at.Some? ==> at.value < |jobs| && jobs[at.value].id == id
      ensures at.None? ==> forall i | 0 <= i < |jobs| :: jobs[i].id != id
    {
      for i := 0 to |jobs|
        invariant forall k | 0 <= k < i :: jobs[k].id != id
      {
        if jobs[i].id == id {
          return Some(i);
        }
      }
      at := None;
    }

    /** The key is compared untrimmed with the trimmed key asked for. */
    method FindByKey(key: string) returns (at: Option<nat>)
      ensures at.Some? ==> at.value < |jobs| && jobs[at.value].executionKey == Some(key)
      ensures at.Some? ==> forall i | 0 <= i < at.value :: jobs[i].executionKey != Some(key)
      ensures at.None? ==> forall i | 0 <= i < |jobs| :: jobs[i].executionKey != Some(key)
    {
      for i := 0 to |jobs|
        invariant forall k | 0 <= k < i :: jobs[k].executionKey != Some(key)
      {
        if jobs[i].executionKey == Some(key) {
          return Some(i);
        }
      }
      at := None;
    }

    method Put(job: Job) returns (r: Result<Job>)
      requires Valid()
      modifies this
      ensures Valid()
      ensures r.Ok? ==> r.value == job && jobs == if job in old(jobs) then old(jobs) else old(jobs) + [job]
      ensures r.Err? ==> jobs == old(jobs)
      ensures r.Ok? <==> && ExecutionKeyOf(job).Ok?
                         && (job in old(jobs) ||
                             forall i | 0 <= i < |old(jobs)| ::
                               old(jobs)[i].id != job.id && old(jobs)[i].executionKey != Some(ExecutionKeyOf(job).value))
    {
      var key := ExecutionKeyOf(job);
      if key.Err? {
        return Err(key.code);
      }
      var at := Find(job.id);
      if at.None? {
        at := FindByKey(key.value);
      }
      if at.None? {
        jobs := jobs + [job];
        return Ok(job);
      }
      r := if jobs[at.value] == job then Ok(job) else Err("execution key conflicts with existing job");
    }

    method SaveIfStatus(next: Job, expected: Status) returns (r: Result<Option<Job>>)
      requires Valid()
      modifies this
      ensures Valid()
      ensures r.Ok? <==> exists i :: 0 <= i < |old(jobs)| && old(jobs)[i].id == next.id && SameIdentity(old(jobs)[i], next)
      ensures r.Err? ==> jobs == old(jobs)
      ensures r.Ok? ==> |jobs| == |old(jobs)|
      ensures r.Ok? ==> (r == Ok(Some(next)) || r == Ok(None)) && (r.value.Some? <==> exists i :: 0 <= i < |old(jobs)| && old(jobs)[i].id == next.id && old(jobs)[i].status == expected)
      ensures r.Ok? ==> forall i | 0 <= i < |jobs| ::
                jobs[i] == if old(jobs)[i].id == next.id && old(jobs)[i].status == expected then next else old(jobs)[i]
    {
      var at := Find(next.id);
      if at.None? || !SameIdentity(jobs[at.value], next) {
        return Err("AI knowledge job immutable identity changed");
      }
      if jobs[at.value].status != expected {
        return Ok(None);
      }
      jobs := jobs[at.value := next];
      r := Ok(Some(next));
    }

    /** Claims the first queued job in insertion order. */
    method ClaimNext(now: string) returns (claimed: Option<Job>)
      requires Valid()
      modifies this
      ensures Valid()
      ensures claimed.None? <==> forall i | 0 <= i < |old(jobs)| :: old(jobs)[i].status != Queued
      ensures claimed.None? ==> jobs == old(jobs)
      ensures claimed.Some? ==>
                exists i :: FirstQueued(old(jobs), i) && ClaimJob(old(jobs)[i], now) == Ok(claimed.value)
                            && jobs == old(jobs)[i := claimed.value]
    {
      for i := 0 to |jobs|
        invariant jobs == old(jobs)
        invariant forall k | 0 <= k < i :: jobs[k].status != Queued
      {
        if jobs[i].status == Queued {
          assert FirstQueued(jobs, i);
          claimed := Some(ClaimJob(jobs[i], now).value);
          jobs := jobs[i := claimed.value];
          return;
        }
      }
      claimed := None;
    }
  }

  // ---------------------------------------------------------------- the two claim orders

  ghost predicate FirstQueued(jobs: seq<Job>, i: int) {
    && 0 <= i < |jobs| && jobs[i].status == Queued
    && forall k | 0 <= k < i :: jobs[k].status != Queued
  }

  function WithStatuses(jobs: seq<Job>, statuses: seq<Status>): (r: seq<Job>)
    requires |jobs| == |statuses|
  {
    seq(|jobs|, i requires 0 <= i < |jobs| => jobs[i].(status := statuses[i]))
  }

  /** Insertion order and key order pick the same queued job. */
  ghost predicate SameClaim(jobs: seq<Job>) {
    forall i, j | FirstQueued(jobs, i) && 0 <= j < |jobs| && jobs[j].status == Queued :: KeyLeq(jobs[i], jobs[j])
  }

  /** The memory store and the SQLite store claim alike, whatever statuses the jobs have
      reached, exactly when the jobs were inserted in (createdAt, id) order. */
  lemma ClaimOrdersAgree(jobs: seq<Job>)
    ensures SortedByKey(jobs) <==>
            forall statuses: seq<Status> | |statuses| == |jobs| :: SameClaim(WithStatuses(jobs, statuses))
  {
    if forall statuses: seq<Status> | |statuses| == |jobs| :: SameClaim(WithStatuses(jobs, statuses)) {
      forall i, j | 0 <= i < j < |jobs| ensures KeyLeq(jobs[i], jobs[j]) {
        var statuses := seq(|jobs|, k => if k < i then Failed else Queued);
        assert SameClaim(WithStatuses(jobs, statuses));
        assert FirstQueued(WithStatuses(jobs, statuses), i);
        assert KeyLeq(WithStatuses(jobs, statuses)[i], WithStatuses(jobs, statuses)[j]);
      }
    }
    if SortedByKey(jobs) {
      forall statuses: seq<Status> | |statuses| == |jobs| ensures SameClaim(WithStatuses(jobs, statuses)) {
        var all := WithStatuses(jobs, statuses);
        forall i, j | FirstQueued(all, i) && 0 <= j < |jobs| && all[j].status == Queued
          ensures KeyLeq(all[i], all[j])
        {
          if i < j {
            assert KeyLeq(jobs[i], jobs[j]);
          } else {
            KeyOrder(jobs[i], jobs[i], jobs[i]);
          }
        }
      }
    }
  }

  const LATE := Job("b", "a", "OPENAI", None, None, Queued, 0, None, Some("k"), "2", "2", [], None)

  const EARLY := Job("a", "a", "OPENAI", None, None, Queued, 0, None, Some("l"), "1", "1", [], None)

  /** Two queued jobs, the younger inserted first: the memory store takes it, the SQLite store the other. */
  lemma ClaimsDiffer()
    ensures FirstQueued([LATE, EARLY], 0) && !KeyLeq(LATE, EARLY) && !SameClaim([LATE, EARLY])
    ensures LeastQueued(map[LATE.id := LATE, EARLY.id := EARLY], EARLY.id)
  {
    assert LATE.createdAt == "2" && EARLY.createdAt == "1" && "2"[0] > "1"[0];
    assert !LexLeq("2", "1") && LexLeq("1", "2");
    assert LATE.id == "b" && EARLY.id == "a" && "a"[0] != "b"[0];
    KeyOrder(EARLY, LATE, EARLY);
    var jobs := [LATE, EARLY];
    assert FirstQueued(jobs, 0) && jobs[1].status == Queued && !KeyLeq(jobs[0], jobs[1]);
  }
}
