/** How a job row may change in one step, and what follows for whole runs:
    exclusive ownership, finished jobs, retries and their timing, permanent purges. */
module Ownership {
  import opened Prelude
  import opened JobQueue
  import opened Pipeline
  import opened Consistency

  // ---- One step of one job row ---------------------------------------------

  ghost predicate Evolves(s: State, s1: State, j: nat)
    requires j in s1.jobs
  {
    var row := s1.jobs[j];
    if j !in s.jobs then
      && s.nextJob <= j < s1.nextJob
      && row == NewJob(row.doc, row.stage, s.maxAttempts, s.now)
      && Recoveries(s1, j) == Recoveries(s, j)
    else
      var old_row := s.jobs[j];
      || (Recoveries(s1, j) == Recoveries(s, j) && Moves(old_row, row, s.now))
      || (Recoveries(s1, j) == Recoveries(s, j) + 1 && old_row.Stale(s.now)
          && row == old_row.(status := Pending, lockedAt := None))
  }

  ghost predicate Moves(before: Job, row: Job, now: Time) {
    || row == before
    || (before.Due(before.stage, now) && row == Claimed(before, now))
    || (before.status == Processing && row == before.(status := Done, lockedAt := None))
    || (before.status == Processing && row == Nack(before, now))
  }

  ghost predicate AllEvolve(s: State, s1: State) {
    && s1.now >= s.now && s1.maxAttempts == s.maxAttempts && s1.nextJob >= s.nextJob
    && s1.nextDoc >= s.nextDoc
    && (forall d | d in s1.docs :: d in s.docs || d >= s.nextDoc)
    && (forall j | j in s1.recoveries :: j in s.recoveries || j in s.jobs)
    && forall j | j in s1.jobs :: Evolves(s, s1, j)
  }

  lemma PerformEvolves(s: State, op: Op, k: Worker)
    requires Consistent(s) && Holds(s, k)
    requires op.OpInsert? ==> k.doc in s.docs
    ensures AllEvolve(s, Perform(s, op, k.job, k.doc))
  {
  }

  /** What requests leave alone: existing documents and jobs stay, new ones are fresh,
      and chunks, vectors and workers are untouched. */
  ghost predicate OnlyAddsJobs(s: State, s1: State) {
    && s1.chunks == s.chunks && s1.nextChunk == s.nextChunk && s1.vectors == s.vectors && s1.workers == s.workers
    && s1.phase == s.phase && s.docs.Keys <= s1.docs.Keys
    && s1.now == s.now && s1.maxAttempts == s.maxAttempts && s1.recoveries == s.recoveries
    && s1.nextJob >= s.nextJob && s1.nextDoc >= s.nextDoc
    && (forall d | d in s1.docs :: d in s.docs || d >= s.nextDoc)
    && (forall j | j in s1.jobs && j in s.jobs :: s1.jobs[j] == s.jobs[j])
    && (forall j | j in s1.jobs && j !in s.jobs ::
        s.nextJob <= j < s1.nextJob && s1.jobs[j] == NewJob(s1.jobs[j].doc, s1.jobs[j].stage, s.maxAttempts, s.now))
  }

  lemma RequestsOnlyAddJobs(s: State, d: nat)
    requires FreshIds(s)
    ensures OnlyAddsJobs(s, RequestPurge(s, d)) && OnlyAddsJobs(s, Requeue(s, d))
  {
  }

  lemma AddDocumentOnlyAddsJobs(s: State, tenant: string, filename: string, checksum: string)
    requires FreshIds(s)
    ensures OnlyAddsJobs(s, AddDocument(s, tenant, filename, checksum))
  {
  }

  lemma PlanOnlyAddsJobs(s: State, plan: UploadPlan, tenant: string, filename: string, checksum: string,
                         fileStored: bool)
    requires Consistent(s)
    requires plan.Replace? ==> plan.previous in s.docs
    ensures OnlyAddsJobs(s, FollowPlan(s, plan, tenant, filename, checksum, fileStored))
  {
    match plan
    case Ignore =>
    case Retry(d) => RequestsOnlyAddJobs(s, d);
    case Add => AddDocumentOnlyAddsJobs(s, tenant, filename, checksum);
    case Replace(d) =>
      RequestsOnlyAddJobs(s, d);
      RequestPurgeKeepsConsistency(s, d);
      var s1 := if s.docs[d].checksum != checksum then RequestPurge(s, d) else s;
      AddDocumentOnlyAddsJobs(s1, tenant, filename, checksum);
      AddingIsTransitive(s, s1, AddDocument(s1, tenant, filename, checksum));
  }

  lemma AddingIsTransitive(s: State, s1: State, s2: State)
    requires OnlyAddsJobs(s, s1) && OnlyAddsJobs(s1, s2) && FreshIds(s)
    ensures OnlyAddsJobs(s, s2)
  {
  }

  lemma AddingEvolves(s: State, s1: State)
    requires OnlyAddsJobs(s, s1)
    ensures AllEvolve(s, s1)
  {
  }

  predicate IsRequest(e: Event) {
    e.UploadRequest? || e.ReprocessRequest? || e.DeleteRequest?
  }

  lemma RequestOnlyAddsJobs(s: State, e: Event)
    requires Consistent(s) && Enabled(s, e) && IsRequest(e)
    ensures OnlyAddsJobs(s, Apply(s, e))
  {
    match e
    case UploadRequest(tenant, filename, checksum, fileStored) =>
      PlanOnlyAddsJobs(s, PlanUpload(s, tenant, filename, checksum), tenant, filename, checksum, fileStored);
    case ReprocessRequest(d) => RequestsOnlyAddJobs(s, d);
    case DeleteRequest(d) => RequestsOnlyAddJobs(s, d);
  }

  lemma RestartEvolves(s: State, e: Event)
    requires Consistent(s) && Enabled(s, e)
    requires !IsRequest(e) && !e.Commit? && !e.Raise?
    ensures AllEvolve(s, Apply(s, e))
  {
  }

  lemma StepEvolves(s: State, e: Event)
    requires Consistent(s) && Enabled(s, e)
    ensures AllEvolve(s, Apply(s, e))
  {
    if IsRequest(e) {
      RequestOnlyAddsJobs(s, e);
      AddingEvolves(s, Apply(s, e));
    } else if e.Commit? {
      CommitEvolves(s, e.w);
    } else if e.Raise? {
      RaiseEvolves(s, e.w, e.written, e.late);
    } else {
      RestartEvolves(s, e);
    }
  }

  lemma CommitEvolves(s: State, w: nat)
    requires Consistent(s) && Enabled(s, Commit(w))
    ensures AllEvolve(s, Apply(s, Commit(w)))
  {
    var k := s.workers[w];
    PerformEvolves(s, OpAt(k.pc), k);
  }

  lemma RaiseEvolves(s: State, w: nat, written: set<nat>, late: bool)
    requires Consistent(s) && Enabled(s, Raise(w, written, late))
    ensures AllEvolve(s, Apply(s, Raise(w, written, late)))
  {
    var k := s.workers[w];
    var op := if late then OpAt(k.pc) else OpUpsert(written);
    PerformEvolves(s, op, k);
  }

  // ---- Steps as statements -------------------------------------------------

  /** A statement of a job writes no other row, and adds none but a hand-off's. */
  lemma PerformRows(s: State, op: Op, job: nat, doc: nat, j: nat)
    requires FreshIds(s) && (op.OpInsert? ==> doc in s.docs)
    requires j in Perform(s, op, job, doc).jobs
    ensures var row := Perform(s, op, job, doc).jobs[j];
      if j in s.jobs then
        && row.doc == s.jobs[j].doc && row.stage == s.jobs[j].stage && (j != job ==> row == s.jobs[j])
        && (j == job && op.OpAck? ==> row.status == Done)
        && (j == job && !op.OpAck? && !op.OpNack? ==> row == s.jobs[j])
      else op.OpHandOff? && doc in s.docs && j == s.nextJob && row.doc == doc && row.stage == op.stage
           && row.status == Pending
  {
  }

  lemma RaiseApplied(s: State, w: nat, written: set<nat>, late: bool) returns (op: Op)
    requires Enabled(s, Raise(w, written, late))
    ensures if late then op == OpAt(s.workers[w].pc) else op == OpUpsert(written)
    ensures op.OpHandOff? || op.OpUpsert?
    ensures var k := s.workers[w];
      Apply(s, Raise(w, written, late)) == Goto(Perform(s, op, k.job, k.doc), w, k, OnRaise(k.pc))
  {
    op := if late then OpAt(s.workers[w].pc) else OpUpsert(written);
  }

  lemma ResultApplied(s: State, e: Event, w: nat) returns (pc: Pc)
    requires Enabled(s, e) && (e.Parsed? || e.Split?) && e.w == w
    ensures s.workers[w].pc == Fetch || s.workers[w].pc == MakeChunks
    ensures pc == EmptyStage || pc == ParseDone || pc == NoChunksStage || pc.StoreChunks?
    ensures var k := s.workers[w]; Apply(s, e) == Goto(Perform(s, OpNone, k.job, k.doc), w, k, Some(pc))
  {
    pc := Apply(s, e).workers[w].pc;
  }

  // ---- Runs ----------------------------------------------------------------

  lemma {:induction false} RunKeepsConsistency(s: State, es: seq<Event>)
    requires Consistent(s) && CanRun(s, es)
    ensures Consistent(Run(s, es))
    decreases es
  {
    if es != [] {
      StepKeepsConsistency(s, es[0]);
      RunKeepsConsistency(Apply(s, es[0]), es[1..]);
    }
  }

  lemma ReachableConsistent(s: State)
    requires Reachable(s)
    ensures Consistent(s)
  {
    var s0, es :| Init(s0) && CanRun(s0, es) && Run(s0, es) == s;
    RunKeepsConsistency(s0, es);
  }

  /** Over any number of crashes and restarts no two workers hold the same job, and a
      held job is processing for as long as its row exists. */
  lemma ExclusiveOwnership(s: State)
    requires Reachable(s)
    ensures forall v, w | v in s.workers && w in s.workers && s.workers[v].job == s.workers[w].job :: v == w
    ensures forall w | w in s.workers && s.workers[w].job in s.jobs :: s.jobs[s.workers[w].job].status == Processing
  {
    ReachableConsistent(s);
    assert forall w | w in s.workers :: Holds(s, s.workers[w]);
  }

  /** Every row of every table always belongs to an existing document. */
  lemma RowsBelongToDocuments(s: State)
    requires Reachable(s)
    ensures forall k | k in s.chunks :: k.0 in s.docs
    ensures forall k | k in s.stages :: k.0 in s.docs
    ensures forall j | j in s.jobs :: s.jobs[j].doc in s.docs
  {
    ReachableConsistent(s);
  }

  /** A done or failed job stays exactly as it is until its row is deleted, for good. */
  lemma {:induction false} FinishedJobsStay(s: State, es: seq<Event>, j: nat)
    requires Consistent(s) && CanRun(s, es)
    requires j < s.nextJob && (j in s.jobs ==> !s.jobs[j].Live())
    ensures j in Run(s, es).jobs ==> j in s.jobs && Run(s, es).jobs[j] == s.jobs[j]
    decreases es
  {
    if es != [] {
      var s1 := Apply(s, es[0]);
      StepKeepsConsistency(s, es[0]);
      StepEvolves(s, es[0]);
      assert j in s1.jobs ==> Evolves(s, s1, j);
      FinishedJobsStay(s1, es[1..], j);
    }
  }

  lemma {:induction false} AbsentStaysAbsent(s: State, es: seq<Event>, d: nat)
    requires Consistent(s) && CanRun(s, es)
    requires d < s.nextDoc && d !in s.docs
    ensures d !in Run(s, es).docs
    decreases es
  {
    if es != [] {
      StepKeepsConsistency(s, es[0]);
      StepEvolves(s, es[0]);
      AbsentStaysAbsent(Apply(s, es[0]), es[1..], d);
    }
  }

  /** Once the purge transaction has committed, no document, chunk, stage or job row
      with that id exists ever again, whatever workers in flight do next. */
  lemma PurgeIsPermanent(s: State, w: nat, es: seq<Event>)
    requires Reachable(s)
    requires w in s.workers && s.workers[w].pc == PurgeDelete
    requires CanRun(Apply(s, Commit(w)), es)
    ensures var d, t := s.workers[w].doc, Run(Apply(s, Commit(w)), es);
      && d !in t.docs
      && (forall k | k in t.chunks :: k.0 != d)
      && (forall k | k in t.stages :: k.0 != d)
      && (forall j | j in t.jobs :: t.jobs[j].doc != d)
  {
    ReachableConsistent(s);
    StepKeepsConsistency(s, Commit(w));
    var s1 := Apply(s, Commit(w));
    AbsentStaysAbsent(s1, es, s.workers[w].doc);
    RunKeepsConsistency(s1, es);
  }

  // ---- Retries -------------------------------------------------------------

  /** The attempt bound counts recoveries, and backoff adds up between attempts. */
  ghost predicate RetryInv(s: State) {
    && s.maxAttempts >= 1
    && (forall j | j in s.recoveries :: j < s.nextJob)
    && (forall j | j in s.jobs :: s.jobs[j].maxAttempts == s.maxAttempts && RowInv(s, s.jobs[j], Recoveries(s, j)))
  }

  ghost predicate RowInv(s: State, row: Job, recoveries: nat) {
    && row.attempt <= row.maxAttempts + recoveries
    && (row.status == Pending ==> row.attempt < row.maxAttempts + recoveries)
    && (recoveries == 0 ==> WaitedFor(row, s.now))
  }

  ghost predicate WaitedFor(row: Job, now: Time) {
    match row.status
    case Pending => row.scheduledAt >= row.createdAt + TotalBackoff(row.attempt)
    case Processing =>
      && row.attempt >= 1 && row.lockedAt.Some?
      && row.createdAt + TotalBackoff(row.attempt - 1) <= row.lockedAt.value <= now
    case Done => true
    case Failed =>
      row.attempt == row.maxAttempts && row.attempt >= 1 && row.createdAt + TotalBackoff(row.attempt - 1) <= now
  }

  lemma MoveKeepsRowInv(s: State, s1: State, before: Job, row: Job, recoveries: nat)
    requires s1.now >= s.now && before.maxAttempts >= 1
    requires RowInv(s, before, recoveries) && Moves(before, row, s.now)
    ensures RowInv(s1, row, recoveries)
  {
  }

  lemma StepKeepsRetryInv(s: State, e: Event)
    requires Consistent(s) && RetryInv(s) && Enabled(s, e)
    ensures RetryInv(Apply(s, e))
  {
    var s1 := Apply(s, e);
    StepEvolves(s, e);
    forall j | j in s1.jobs
      ensures s1.jobs[j].maxAttempts == s1.maxAttempts && RowInv(s1, s1.jobs[j], Recoveries(s1, j))
    {
      EvolvingKeepsRowInv(s, s1, j);
    }
  }

  lemma EvolvingKeepsRowInv(s: State, s1: State, j: nat)
    requires RetryInv(s) && FreshIds(s) && AllEvolve(s, s1) && j in s1.jobs
    ensures s1.jobs[j].maxAttempts == s1.maxAttempts && RowInv(s1, s1.jobs[j], Recoveries(s1, j))
  {
    assert Evolves(s, s1, j);
    if j in s.jobs && Moves(s.jobs[j], s1.jobs[j], s.now) && Recoveries(s1, j) == Recoveries(s, j) {
      MoveKeepsRowInv(s, s1, s.jobs[j], s1.jobs[j], Recoveries(s, j));
    }
  }

  lemma {:induction false} RunKeepsRetryInv(s: State, es: seq<Event>)
    requires Consistent(s) && RetryInv(s) && CanRun(s, es)
    ensures RetryInv(Run(s, es))
    decreases es
  {
    if es != [] {
      StepKeepsConsistency(s, es[0]);
      StepKeepsRetryInv(s, es[0]);
      RunKeepsRetryInv(Apply(s, es[0]), es[1..]);
    }
  }

  lemma ReachableRetryInv(s: State)
    requires Reachable(s)
    ensures RetryInv(s)
  {
    var s0, es :| Init(s0) && CanRun(s0, es) && Run(s0, es) == s;
    RunKeepsRetryInv(s0, es);
  }

  /** No job is attempted more often than max_attempts plus its recoveries. */
  lemma AttemptsBounded(s: State, j: nat)
    requires Reachable(s) && j in s.jobs
    ensures s.jobs[j].attempt <= s.maxAttempts + Recoveries(s, j)
  {
    ReachableRetryInv(s);
  }

  /** A job that failed for good without a recovery has used all its attempts and has
      waited out at least 10 * (2^max_attempts - 2) seconds since it was created. */
  lemma FailureTakesPatience(s: State, j: nat)
    requires Reachable(s) && j in s.jobs
    requires s.jobs[j].status == Failed && Recoveries(s, j) == 0
    ensures s.jobs[j].attempt == s.maxAttempts
    ensures s.now - s.jobs[j].createdAt >= 10 * SECOND * (Pow2(s.maxAttempts) - 2)
  {
    ReachableRetryInv(s);
    assert WaitedFor(s.jobs[j], s.now);
    TotalBackoffClosedForm(s.maxAttempts - 1);
  }
}
