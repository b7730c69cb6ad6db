/**
 The durable job queue (app/workers/db_queue.py) over the table pipeline_jobs.

 The first half says what each statement does to the table, as functions from
 table to table.  The class Queue is the module's own stateful form: every method
 is proved against those functions.  The pipeline protocol uses the same functions.

 Times are counted in microseconds, the resolution of the stored timestamps.
 */
module JobQueue {
  import opened Prelude

  type Time = int

  const SECOND: Time := 1_000_000
  const LOCK_TIMEOUT: Time := 5 * 60 * SECOND
  const RETENTION: Time := 7 * 24 * 3600 * SECOND

  datatype Stage = Ingest | Embed | Index | Purge

  datatype JobStatus = Pending | Processing | Done | Failed

  datatype Job = Job(
    doc: nat,
    stage: Stage,
    status: JobStatus,
    attempt: nat,
    maxAttempts: nat,
    scheduledAt: Time,
    lockedAt: Option<Time>,
    createdAt: Time)
  {
    predicate Live() {
      status == Pending || status == Processing
    }

    predicate Due(s: Stage, now: Time) {
      stage == s && status == Pending && scheduledAt <= now
    }

    /** What recover_stale_jobs looks for: it never reads attempt. */
    predicate Stale(now: Time) {
      status == Processing && lockedAt.Some? && lockedAt.value <= now - LOCK_TIMEOUT
    }

    predicate Expired(now: Time) {
      !Live() && createdAt <= now - RETENTION
    }
  }

  type Table = map<nat, Job>

  function Pow2(n: nat): (r: nat)
    ensures r >= 1
  {
    if n == 0 then 1 else 2 * Pow2(n - 1)
  }

  function NewJob(doc: nat, stage: Stage, maxAttempts: nat, now: Time): Job {
    Job(doc, stage, Pending, 0, maxAttempts, now, None, now)
  }

  /** The row that SELECT ... ORDER BY scheduled_at LIMIT 1 may return; ties are open. */
  predicate Claimable(jobs: Table, id: nat, stage: Stage, now: Time) {
    && id in jobs
    && jobs[id].Due(stage, now)
    && forall k | k in jobs && jobs[k].Due(stage, now) :: jobs[id].scheduledAt <= jobs[k].scheduledAt
  }

  function Claimed(job: Job, now: Time): Job {
    job.(status := Processing, lockedAt := Some(now), attempt := job.attempt + 1)
  }

  function Acked(jobs: Table, id: nat): Table {
    if id in jobs then jobs[id := jobs[id].(status := Done, lockedAt := None)] else jobs
  }

  function BackoffDelay(attempt: nat): Time {
    Pow2(attempt) * 10 * SECOND
  }

  function Nack(job: Job, now: Time): Job {
    if job.attempt >= job.maxAttempts then
      job.(status := Failed, lockedAt := None)
    else
      job.(status := Pending, lockedAt := None, scheduledAt := now + BackoffDelay(job.attempt))
  }

  function Nacked(jobs: Table, id: nat, now: Time): Table {
    if id in jobs then jobs[id := Nack(jobs[id], now)] else jobs
  }

  function Recovered(jobs: Table, now: Time): Table {
    map id | id in jobs :: if jobs[id].Stale(now) then jobs[id].(status := Pending, lockedAt := None) else jobs[id]
  }

  function CleanedUp(jobs: Table, now: Time): Table {
    map id | id in jobs && !jobs[id].Expired(now) :: jobs[id]
  }

  /** ON DELETE CASCADE of pipeline_jobs.document_id. */
  function Cascaded(jobs: Table, doc: nat): Table {
    map id | id in jobs && jobs[id].doc != doc :: jobs[id]
  }

  /** A stage with a due job always has one that claim may return. */
  lemma SomeClaimable(jobs: Table, stage: Stage, now: Time, due: set<nat>)
    requires due != {}
    requires due == set k | k in jobs && jobs[k].Due(stage, now)
    ensures exists id :: Claimable(jobs, id, stage, now)
  {
    var id := Earliest(jobs, due);
    assert Claimable(jobs, id, stage, now);
  }

  lemma {:induction false} Earliest(jobs: Table, ids: set<nat>) returns (id: nat)
    requires ids != {} && ids <= jobs.Keys
    ensures id in ids && forall k | k in ids :: jobs[id].scheduledAt <= jobs[k].scheduledAt
    decreases ids
  {
    id :| id in ids;
    if ids != {id} {
      var other := Earliest(jobs, ids - {id});
      if jobs[other].scheduledAt < jobs[id].scheduledAt {
        id := other;
      }
    }
  }

  lemma ExpiredLeave(jobs: Table, now: Time, expired: set<nat>, rest: Table)
    requires expired == (set id | id in jobs && jobs[id].Expired(now)) && rest == jobs - expired
    ensures rest == CleanedUp(jobs, now) && expired == jobs.Keys - rest.Keys
  {
  }

  /** The table pipeline_jobs together with the keys its foreign key refers to. */
  class Queue {
    var jobs: Table
    var documents: set<nat>
    var nextId: nat

    ghost predicate Valid()
      reads this
    {
      forall id | id in jobs :: id < nextId && jobs[id].doc in documents
    }

    constructor (documents: set<nat>)
      ensures Valid() && jobs == map[] && this.documents == documents
    {
      this.documents := documents;
      jobs := map[];
      nextId := 0;
    }

    /** Adds a pending job, or reports None and changes nothing when the document is gone. */
    method Enqueue(stage: Stage, doc: nat, now: Time, maxAttempts: nat := 3)
      returns (id: Option<nat>)
      requires Valid()
      modifies this`jobs, this`nextId
      ensures Valid()
      ensures doc in documents ==>
        && id == Some(old(nextId)) && old(nextId) !in old(jobs) && nextId > old(nextId)
        && jobs == old(jobs)[old(nextId) := Job(doc, stage, Pending, 0, maxAttempts, now, None, now)]
      ensures doc !in documents ==> id == None && jobs == old(jobs) && nextId == old(nextId)
    {
      if doc !in documents {
        return None;
      }
      id := Some(nextId);
      jobs := jobs[nextId := NewJob(doc, stage, maxAttempts, now)];
      nextId := nextId + 1;
    }

    /** Hands out an earliest due job of the stage; None exactly when no job is due. */
    method Claim(stage: Stage, now: Time) returns (id: Option<nat>)
      requires Valid()
      modifies this`jobs
      ensures Valid()
      ensures id.Some? ==>
        && Claimable(old(jobs), id.value, stage, now)
        && jobs == old(jobs)[id.value := Claimed(old(jobs)[id.value], now)]
      ensures id.Some? ==> id.value in old(jobs) && id.value in jobs
      ensures id.Some? ==>
        var row := old(jobs)[id.value];
        && row.stage == stage && row.status == Pending && row.scheduledAt <= now
        && jobs[id.value] == row.(status := Processing, lockedAt := Some(now), attempt := row.attempt + 1)
        && forall k | k in old(jobs) && old(jobs)[k].stage == stage && old(jobs)[k].status == Pending ::
          row.scheduledAt <= old(jobs)[k].scheduledAt || old(jobs)[k].scheduledAt > now
      ensures id == None ==> jobs == old(jobs)
      ensures id == None <==> forall k | k in old(jobs) && old(jobs)[k].stage == stage ::
        old(jobs)[k].status == Pending ==> old(jobs)[k].scheduledAt > now
    {
      var due := set k | k in jobs && jobs[k].Due(stage, now);
      if due == {} {
        assert forall k | k in jobs :: jobs[k].Due(stage, now) ==> k in due;
        return None;
      }
      SomeClaimable(jobs, stage, now, due);
      var row :| row in jobs && Claimable(jobs, row, stage, now);
      jobs := jobs[row := Claimed(jobs[row], now)];
      id := Some(row);
    }

    /** Safe on a missing row: nothing changes then. */
    method Ack(id: nat)
      requires Valid()
      modifies this`jobs
      ensures Valid() && jobs == Acked(old(jobs), id)
      ensures id !in old(jobs) ==> jobs == old(jobs)
      ensures id in old(jobs) ==> jobs == old(jobs)[id := old(jobs)[id].(status := Done, lockedAt := None)]
    {
      if id in jobs {
        jobs := jobs[id := jobs[id].(status := Done, lockedAt := None)];
      }
    }

    /** One more failed attempt: rescheduled with a doubled delay, or failed for good. */
    method NackJob(id: nat, now: Time)
      requires Valid()
      modifies this`jobs
      ensures Valid() && jobs == Nacked(old(jobs), id, now)
      ensures id !in old(jobs) ==> jobs == old(jobs)
      ensures id in old(jobs) ==>
        var row := old(jobs)[id];
        jobs == old(jobs)[id :=
          if row.attempt >= row.maxAttempts then row.(status := Failed, lockedAt := None)
          else row.(status := Pending, lockedAt := None, scheduledAt := now + 10_000_000 * Pow2(row.attempt))]
    {
      if id !in jobs {
        return;
      }
      var row := jobs[id];
      if row.attempt >= row.maxAttempts {
        jobs := jobs[id := row.(status := Failed, lockedAt := None)];
      } else {
        var delay := Pow2(row.attempt) * 10 * SECOND;
        jobs := jobs[id := row.(status := Pending, lockedAt := None, scheduledAt := now + delay)];
      }
    }

    /** Puts back every job locked for at least LOCK_TIMEOUT and reports how many. */
    method RecoverStaleJobs(now: Time) returns (count: nat)
      requires Valid()
      modifies this`jobs
      ensures Valid() && jobs == Recovered(old(jobs), now)
      ensures jobs.Keys == old(jobs).Keys
      ensures forall id | id in jobs ::
        var row := old(jobs)[id];
        jobs[id] ==
          if row.status == Processing && row.lockedAt.Some? && now - row.lockedAt.value >= 300_000_000
          then row.(status := Pending, lockedAt := None)
          else row
      ensures count == |set id | id in old(jobs) && jobs[id] != old(jobs)[id]|
    {
      var stale := set id | id in jobs && jobs[id].Stale(now);
      count := |stale|;
      jobs := map id | id in jobs :: if id in stale then jobs[id].(status := Pending, lockedAt := None) else jobs[id];
      assert stale == set id | id in old(jobs) && jobs[id] != old(jobs)[id];
    }

    /** Deletes finished jobs created at least RETENTION ago; live jobs always stay. */
    method CleanupOldJobs(now: Time) returns (count: nat)
      requires Valid()
      modifies this`jobs
      ensures Valid() && jobs == CleanedUp(old(jobs), now)
      ensures count == |old(jobs).Keys - jobs.Keys|
      ensures forall id | id in jobs :: id in old(jobs) && jobs[id] == old(jobs)[id]
      ensures forall id | id in old(jobs) ::
        var row := old(jobs)[id];
        id !in jobs <==> (row.status == Done || row.status == Failed) && now - row.createdAt >= 604_800_000_000
    {
      var expired := set id | id in jobs && jobs[id].Expired(now);
      count := |expired|;
      ghost var before := jobs;
      jobs := jobs - expired;
      ExpiredLeave(before, now, expired, jobs);
    }

    /** The cascade that a deleted document sets off. */
    method DeleteDocument(doc: nat)
      requires Valid()
      modifies this`jobs, this`documents
      ensures Valid() && jobs == Cascaded(old(jobs), doc) && documents == old(documents) - {doc}
      ensures forall id :: id in jobs <==> id in old(jobs) && old(jobs)[id].doc != doc
      ensures forall id | id in jobs :: jobs[id] == old(jobs)[id]
    {
      jobs := map id | id in jobs && jobs[id].doc != doc :: jobs[id];
      documents := documents - {doc};
    }
  }

  // ---- Backoff and polling -------------------------------------------------

  /** Delay that nack adds up over the failed attempts 1 .. attempts. */
  function TotalBackoff(attempts: nat): Time {
    if attempts == 0 then 0 else TotalBackoff(attempts - 1) + BackoffDelay(attempts)
  }

  /** 20 seconds after the first attempt, and twice as long after each further one. */
  lemma BackoffDoubles(attempt: nat)
    ensures BackoffDelay(1) == 20_000_000
    ensures BackoffDelay(attempt + 1) == 2 * BackoffDelay(attempt)
  {
  }

  lemma {:induction false} TotalBackoffClosedForm(attempts: nat)
    ensures TotalBackoff(attempts) == 10 * SECOND * (Pow2(attempts + 1) - 2)
  {
    if attempts > 0 {
      TotalBackoffClosedForm(attempts - 1);
    }
  }

  const POLL_MIN: real := 0.5
  const POLL_MAX: real := 5.0
  const POLL_FACTOR: real := 1.5

  function PowReal(b: real, n: nat): real {
    if n == 0 then 1.0 else b * PowReal(b, n - 1)
  }

  /** Sleep after the k-th empty poll in a row, counting from 0. */
  function PollSleep(k: nat): real {
    var s := POLL_MIN * PowReal(POLL_FACTOR, k);
    if s < POLL_MAX then s else POLL_MAX
  }

  function TotalSleep(polls: nat): real {
    if polls == 0 then 0.0 else TotalSleep(polls - 1) + PollSleep(polls - 1)
  }

  function Grown(sleep: real): real {
    if sleep * POLL_FACTOR < POLL_MAX then sleep * POLL_FACTOR else POLL_MAX
  }

  /** polls holds the results of successive claims; the loop stops at the first hit. */
  method WaitForJob(polls: seq<Option<nat>>) returns (job: Option<nat>, sleeps: seq<real>)
    ensures |sleeps| <= |polls|
    ensures forall k | 0 <= k < |sleeps| :: polls[k] == None && sleeps[k] == PollSleep(k)
    ensures sleeps != [] ==> sleeps[0] == 0.5
    ensures forall k | 0 <= k < |sleeps| - 1 ::
      sleeps[k + 1] == if sleeps[k] * 1.5 < 5.0 then sleeps[k] * 1.5 else 5.0
    ensures job.Some? ==> |sleeps| < |polls| && job == polls[|sleeps|]
    ensures job == None ==> |sleeps| == |polls|
  {
    var sleep := POLL_MIN;
    sleeps := [];
    while |sleeps| < |polls|
      invariant |sleeps| <= |polls|
      invariant sleep == PollSleep(|sleeps|)
      invariant forall k | 0 <= k < |sleeps| :: polls[k] == None && sleeps[k] == PollSleep(k)
      invariant sleep == if sleeps == [] then 0.5 else Grown(sleeps[|sleeps| - 1])
      invariant sleeps != [] ==> sleeps[0] == 0.5
      invariant forall k | 0 <= k < |sleeps| - 1 :: sleeps[k + 1] == Grown(sleeps[k])
      decreases |polls| - |sleeps|
    {
      job := polls[|sleeps|];
      if job.Some? {
        return job, sleeps;
      }
      PowGrows(|sleeps|);
      sleeps := sleeps + [sleep];
      sleep := Grown(sleep);
    }
    job := None;
  }

  lemma PowGrows(k: nat)
    ensures PowReal(POLL_FACTOR, k) >= 1.0
    ensures PollSleep(k + 1) == Grown(PollSleep(k))
  {
    if k > 0 {
      PowGrows(k - 1);
    }
  }

  lemma {:induction false} SleepsReachTheCap(k: nat)
    requires k >= 6
    ensures PollSleep(k) == POLL_MAX
  {
    if k == 6 {
      assert PowReal(POLL_FACTOR, 6) == 1.5 * (1.5 * (1.5 * (1.5 * (1.5 * 1.5)))) by {
        assert PowReal(POLL_FACTOR, 1) == 1.5;
        assert PowReal(POLL_FACTOR, 2) == 2.25;
        assert PowReal(POLL_FACTOR, 4) == 1.5 * (1.5 * PowReal(POLL_FACTOR, 2));
      }
    } else {
      SleepsReachTheCap(k - 1);
      PowGrows(k - 1);
    }
  }

  /** The first six sleeps together fall short of the cap by less than 20 seconds. */
  lemma {:induction false} SleepsAddUp(polls: nat)
    ensures TotalSleep(polls) > POLL_MAX * polls as real - 20.0
  {
    if polls <= 6 {
      FirstSleeps();
    } else {
      SleepsAddUp(polls - 1);
      SleepsReachTheCap(polls - 1);
    }
  }

  lemma FirstSleeps()
    ensures forall n: nat | n <= 6 :: TotalSleep(n) > POLL_MAX * n as real - 20.0
  {
    assert PollSleep(0) == 0.5;
    PowGrows(0);
    PowGrows(1);
    PowGrows(2);
    PowGrows(3);
    PowGrows(4);
    assert TotalSleep(1) == 0.5;
    assert TotalSleep(2) == 1.25;
    assert TotalSleep(3) == 2.375;
    assert TotalSleep(4) == 4.0625;
    assert TotalSleep(5) == 6.59375;
    assert TotalSleep(6) == 10.390625;
  }

  lemma {:induction false} SleepsGrow(i: nat, j: nat)
    requires i <= j
    ensures PollSleep(i) <= PollSleep(j)
    decreases j
  {
    if i < j {
      SleepsGrow(i, j - 1);
      PowGrows(j - 1);
    }
  }

  lemma {:induction false} LaterSleepsAreNoShorter(a: nat, n: nat)
    ensures TotalSleep(a + n) - TotalSleep(a) >= TotalSleep(n)
  {
    if n > 0 {
      LaterSleepsAreNoShorter(a, n - 1);
      SleepsGrow(n - 1, a + n - 1);
    }
  }

  /** Polls happen at the times TotalSleep(0), TotalSleep(1), ...: any idle stretch of
      length t, from some poll a to a poll b, sees at most t/5 + 5 of them. */
  lemma IdlePollsAreFew(t: real, a: nat, b: nat)
    requires a <= b && TotalSleep(b) - TotalSleep(a) <= t
    ensures (b - a + 1) as real <= t / 5.0 + 5.0
  {
    LaterSleepsAreNoShorter(a, b - a);
    SleepsAddUp(b - a);
  }
}
