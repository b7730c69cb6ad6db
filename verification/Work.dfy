/**
 Bounded work: the pipeline does a bounded number of claims for one upload.

 Every job is worth the claims it can still cause, its children's included; a worker
 before its hand-off carries the worth of the child it may still enqueue.  No step but
 a restart or a reprocess request adds worth, and every claim uses up at least one.
 */
module Work {
  import opened Prelude
  import opened JobQueue
  import opened Pipeline
  import opened Consistency
  import opened Ownership

  // ---- Worth of a job ------------------------------------------------------

  /** Claims that one claim of the stage can cause, itself included. */
  function ClaimCost(stage: Stage, m: nat): nat {
    match stage
    case Ingest => 1 + ChildCost(Ingest, m)
    case Embed => 1 + ChildCost(Embed, m)
    case Index => 1
    case Purge => 0
  }

  /** Claims that the job enqueued by a run of the stage can cause. */
  function ChildCost(stage: Stage, m: nat): nat {
    match stage
    case Ingest => m * (1 + m)
    case Embed => m
    case _ => 0
  }

  function Next(stage: Stage): Stage
    requires stage == Ingest || stage == Embed
  {
    if stage == Ingest then Embed else Index
  }

  lemma FreshChildCost(stage: Stage, m: nat)
    requires stage == Ingest || stage == Embed
    ensures m * ClaimCost(Next(stage), m) == ChildCost(stage, m)
  {
  }

  /** Attempts a job has left; a pending one has at least one, even past its limit. */
  function Left(row: Job): nat {
    match row.status
    case Pending => if row.attempt < row.maxAttempts then row.maxAttempts - row.attempt else 1
    case Processing => if row.attempt < row.maxAttempts then row.maxAttempts - row.attempt else 0
    case _ => 0
  }

  /** The statements up to and including the hand-off of ingest and embed jobs. */
  predicate BeforeHandOff(pc: Pc) {
    match pc
    case ParseProcessing | StatusParsing | Fetch | ParseDone | ChunkProcessing | MakeChunks
       | StoreChunks(_) | ChunkDone | EnqueueEmbed => true
    case Guard | EmbedProcessing | StatusEmbedding | ReadChunks | Upsert(_) | StoreVectorIds(_)
       | EmbedDone | EnqueueIndex => true
    case _ => false
  }

  ghost predicate MayHandOff(s: State, j: nat) {
    exists w :: w in s.workers && s.workers[w].job == j && BeforeHandOff(s.workers[w].pc)
  }

  /** Worth of job j to document d: 0 for other documents. */
  ghost function Worth(s: State, j: nat, d: nat): nat {
    if j in s.jobs && s.jobs[j].doc == d then
      var row := s.jobs[j];
      Left(row) * ClaimCost(row.stage, s.maxAttempts)
      + if MayHandOff(s, j) then ChildCost(row.stage, s.maxAttempts) else 0
    else 0
  }

  ghost function TotalWorth(s: State, d: nat, n: nat): nat {
    if n == 0 then 0 else TotalWorth(s, d, n - 1) + Worth(s, n - 1, d)
  }

  ghost function Potential(s: State, d: nat): nat {
    TotalWorth(s, d, s.nextJob)
  }

  // ---- Sums ----------------------------------------------------------------

  lemma {:induction false} SumMonotone(s: State, s1: State, d: nat, n: nat)
    requires forall j: nat | j < n :: Worth(s1, j, d) <= Worth(s, j, d)
    ensures TotalWorth(s1, d, n) <= TotalWorth(s, d, n)
  {
    if n > 0 {
      SumMonotone(s, s1, d, n - 1);
    }
  }

  /** One summand drops by x, the others do not grow. */
  lemma {:induction false} SumDrops(s: State, s1: State, d: nat, n: nat, i: nat, x: nat)
    requires i < n
    requires forall j: nat | j < n && j != i :: Worth(s1, j, d) <= Worth(s, j, d)
    requires Worth(s1, i, d) + x <= Worth(s, i, d)
    ensures TotalWorth(s1, d, n) + x <= TotalWorth(s, d, n)
  {
    if i == n - 1 {
      SumMonotone(s, s1, d, n - 1);
    } else {
      SumDrops(s, s1, d, n - 1, i, x);
    }
  }

  lemma {:induction false} NothingBeyond(s: State, d: nat, n: nat, n': nat)
    requires n <= n' && forall j: nat | n <= j < n' :: Worth(s, j, d) == 0
    ensures TotalWorth(s, d, n') == TotalWorth(s, d, n)
  {
    if n < n' {
      NothingBeyond(s, d, n, n' - 1);
    }
  }

  // ---- Steps ---------------------------------------------------------------

  lemma LeftTimesCost(left: nat, left': nat, cost: nat)
    requires left' <= left
    ensures left' * cost <= left * cost
    ensures left' + 1 == left ==> left' * cost + cost == left * cost
  {
  }

  /** A row that may hand off no more than before and has no more attempts left. */
  lemma WorthShrinks(s: State, s1: State, j: nat, d: nat)
    requires s1.maxAttempts == s.maxAttempts
    requires j in s1.jobs ==>
      && j in s.jobs && s1.jobs[j].doc == s.jobs[j].doc && s1.jobs[j].stage == s.jobs[j].stage
      && Left(s1.jobs[j]) <= Left(s.jobs[j])
      && (MayHandOff(s1, j) ==> MayHandOff(s, j))
    ensures Worth(s1, j, d) <= Worth(s, j, d)
    ensures j in s1.jobs && s.jobs[j].doc == d && MayHandOff(s, j) && !MayHandOff(s1, j) ==>
      Worth(s1, j, d) + ChildCost(s.jobs[j].stage, s.maxAttempts) <= Worth(s, j, d)
  {
    if j in s1.jobs && s.jobs[j].doc == d {
      LeftTimesCost(Left(s.jobs[j]), Left(s1.jobs[j]), ClaimCost(s.jobs[j].stage, s.maxAttempts));
    }
  }

  /** Workers as before but for w, which may hand off only if it could before. */
  lemma MayHandOffFrame(s: State, s1: State, w: nat, j: nat)
    requires forall v | v in s1.workers && v != w :: v in s.workers && s1.workers[v] == s.workers[v]
    requires w in s1.workers && s1.workers[w].job == j && BeforeHandOff(s1.workers[w].pc) ==> MayHandOff(s, j)
    ensures MayHandOff(s1, j) ==> MayHandOff(s, j)
  {
  }

  lemma StatementWorthOf(s: State, w: nat, op: Op, pc: Option<Pc>, j: nat, d: nat)
    requires Consistent(s) && RetryInv(s) && w in s.workers
    requires op.OpInsert? ==> s.workers[w].doc in s.docs
    requires pc.Some? && BeforeHandOff(pc.value) ==> BeforeHandOff(s.workers[w].pc)
    requires !op.OpHandOff? && j < s.nextJob
    ensures var k := s.workers[w]; Worth(Goto(Perform(s, op, k.job, k.doc), w, k, pc), j, d) <= Worth(s, j, d)
  {
    var k := s.workers[w];
    var s1 := Goto(Perform(s, op, k.job, k.doc), w, k, pc);
    MayHandOffFrame(s, s1, w, j);
    if j in s1.jobs {
      StatementRow(s, op, k, j);
    }
    WorthShrinks(s, s1, j, d);
  }

  lemma StatementRow(s: State, op: Op, k: Worker, j: nat)
    requires RetryInv(s) && Holds(s, k) && !op.OpHandOff? && (op.OpInsert? ==> k.doc in s.docs)
    requires j in Perform(s, op, k.job, k.doc).jobs
    ensures var row := Perform(s, op, k.job, k.doc).jobs[j];
      j in s.jobs && row.doc == s.jobs[j].doc && row.stage == s.jobs[j].stage && Left(row) <= Left(s.jobs[j])
  {
  }

  lemma StatementWorth(s: State, w: nat, op: Op, pc: Option<Pc>, d: nat)
    requires Consistent(s) && RetryInv(s) && w in s.workers
    requires op.OpInsert? ==> s.workers[w].doc in s.docs
    requires pc.Some? && BeforeHandOff(pc.value) ==> BeforeHandOff(s.workers[w].pc)
    requires !op.OpHandOff?
    ensures var k := s.workers[w]; Potential(Goto(Perform(s, op, k.job, k.doc), w, k, pc), d) <= Potential(s, d)
  {
    var k := s.workers[w];
    var s1 := Goto(Perform(s, op, k.job, k.doc), w, k, pc);
    forall j: nat | j < s.nextJob ensures Worth(s1, j, d) <= Worth(s, j, d) {
      StatementWorthOf(s, w, op, pc, j, d);
    }
    SumMonotone(s, s1, d, s.nextJob);
  }

  lemma HandOffWorth(s: State, w: nat, pc: Option<Pc>, d: nat)
    requires Consistent(s) && RetryInv(s) && w in s.workers && OpAt(s.workers[w].pc).OpHandOff?
    requires pc.Some? ==> !BeforeHandOff(pc.value)
    ensures var k := s.workers[w]; Potential(Goto(Effect(s, k), w, k, pc), d) <= Potential(s, d)
  {
    var k := s.workers[w];
    var s1 := Goto(AddJob(s, k.doc, Next(KindOf(k.pc))), w, k, pc);
    var n, m := s.nextJob, s.maxAttempts;
    assert BeforeHandOff(k.pc) && Effect(s, k) == AddJob(s, k.doc, Next(KindOf(k.pc)));
    assert Holds(s, k);
    assert MayHandOff(s, k.job);
    forall j: nat | j < n ensures Worth(s1, j, d) <= Worth(s, j, d) {
      MayHandOffFrame(s, s1, w, j);
      WorthShrinks(s, s1, j, d);
    }
    if k.doc !in s.docs || k.doc != d {
      SumMonotone(s, s1, d, n);
    } else {
      ChildIsPaidFor(s, s1, k, d);
    }
  }

  /** The child's worth is what its parent loses with the permission to hand off. */
  lemma ChildIsPaidFor(s: State, s1: State, k: Worker, d: nat)
    requires k.job in s.jobs && k.job < s.nextJob && k.doc == d && MayHandOff(s, k.job) && !MayHandOff(s1, k.job)
    requires s.jobs[k.job].doc == d && s.jobs[k.job].stage == KindOf(k.pc)
    requires BeforeHandOff(k.pc) && s1.maxAttempts == s.maxAttempts && s.maxAttempts >= 1
    requires s1.jobs == s.jobs[s.nextJob := NewJob(d, Next(KindOf(k.pc)), s.maxAttempts, s.now)]
      && s1.nextJob == s.nextJob + 1
    requires forall v | v in s1.workers :: s1.workers[v].job != s.nextJob
    requires forall j: nat | j < s.nextJob :: Worth(s1, j, d) <= Worth(s, j, d)
    ensures Potential(s1, d) <= Potential(s, d)
  {
    var n, m := s.nextJob, s.maxAttempts;
    WorthShrinks(s, s1, k.job, d);
    SumDrops(s, s1, d, n, k.job, ChildCost(KindOf(k.pc), m));
    FreshChildCost(KindOf(k.pc), m);
    assert !MayHandOff(s1, n) && s1.jobs[n] == NewJob(d, Next(KindOf(k.pc)), m, s.now);
    assert Worth(s1, n, d) == ChildCost(KindOf(k.pc), m);
  }

  lemma ClaimWorth(s: State, w: nat, j: nat, d: nat)
    requires Consistent(s) && RetryInv(s) && Enabled(s, Claim(w, j))
    ensures Potential(Apply(s, Claim(w, j)), d) + Spent(s, Claim(w, j), d) <= Potential(s, d)
  {
    var s1 := Apply(s, Claim(w, j));
    assert forall v | v in s.workers :: Holds(s, s.workers[v]);
    forall i: nat | i < s.nextJob && i != j ensures Worth(s1, i, d) <= Worth(s, i, d) {
      MayHandOffFrame(s, s1, w, i);
      WorthShrinks(s, s1, i, d);
    }
    var row := s.jobs[j];
    LeftTimesCost(Left(row), Left(s1.jobs[j]), ClaimCost(row.stage, s.maxAttempts));
    assert !MayHandOff(s, j);
    SumDrops(s, s1, d, s.nextJob, j, Spent(s, Claim(w, j), d));
  }

  /** 1 for a claim of an ingest, embed or index job of the document. */
  ghost function Spent(s: State, e: Event, d: nat): nat
    requires Enabled(s, e)
  {
    if e.Claim? && s.jobs[e.job].doc == d && s.jobs[e.job].stage != Purge then 1 else 0
  }

  /** A request that enqueues a new ingest job for an existing document. */
  ghost predicate Requeues(s: State, e: Event, d: nat) {
    || e == ReprocessRequest(d)
    || (e.UploadRequest? && PlanUpload(s, e.tenant, e.filename, e.checksum) == Retry(d))
  }

  lemma PlanAddsNoWork(s: State, plan: UploadPlan, tenant: string, filename: string, checksum: string,
                       fileStored: bool, d: nat)
    requires plan.Replace? ==> plan.previous in s.docs
    requires d < s.nextDoc && plan != Retry(d)
    ensures var s1 := FollowPlan(s, plan, tenant, filename, checksum, fileStored);
      forall j | j in s1.jobs && j !in s.jobs :: s1.jobs[j].doc != d || s1.jobs[j].stage == Purge
  {
  }

  /** Added jobs that are worth nothing to the document leave its potential alone. */
  lemma AddingWorth(s: State, s1: State, d: nat)
    requires Consistent(s) && OnlyAddsJobs(s, s1)
    requires forall j | j in s1.jobs && j !in s.jobs :: s1.jobs[j].doc != d || s1.jobs[j].stage == Purge
    ensures Potential(s1, d) <= Potential(s, d)
  {
    forall j: nat | j < s.nextJob ensures Worth(s1, j, d) <= Worth(s, j, d) {
      WorthShrinks(s, s1, j, d);
    }
    SumMonotone(s, s1, d, s.nextJob);
    assert forall v | v in s.workers :: Holds(s, s.workers[v]);
    assert forall j: nat | s.nextJob <= j < s1.nextJob :: Worth(s1, j, d) == 0;
    NothingBeyond(s1, d, s.nextJob, s1.nextJob);
  }

  lemma RequestWorth(s: State, e: Event, d: nat)
    requires Consistent(s) && Enabled(s, e) && IsRequest(e) && !Requeues(s, e, d) && d < s.nextDoc
    ensures Potential(Apply(s, e), d) <= Potential(s, d)
  {
    RequestOnlyAddsJobs(s, e);
    if e.UploadRequest? {
      PlanAddsNoWork(s, PlanUpload(s, e.tenant, e.filename, e.checksum), e.tenant, e.filename, e.checksum,
                     e.fileStored, d);
    }
    AddingWorth(s, Apply(s, e), d);
  }

  lemma PauseWorth(s: State, e: Event, d: nat)
    requires Consistent(s) && Enabled(s, e)
    requires e.Tick? || e.Crash? || e.Cleanup?
    ensures Potential(Apply(s, e), d) <= Potential(s, d)
  {
    var s1 := Apply(s, e);
    forall j: nat | j < s.nextJob ensures Worth(s1, j, d) <= Worth(s, j, d) {
      WorthShrinks(s, s1, j, d);
    }
    SumMonotone(s, s1, d, s.nextJob);
  }

  lemma PcHandOffs(s: State, k: Worker)
    ensures After(s, k).Some? && BeforeHandOff(After(s, k).value) ==> BeforeHandOff(k.pc) && !OpAt(k.pc).OpHandOff?
    ensures OpAt(k.pc).OpHandOff? ==> After(s, k).Some? && !BeforeHandOff(After(s, k).value)
    ensures OnRaise(k.pc).Some? ==> !BeforeHandOff(OnRaise(k.pc).value)
  {
  }

  lemma WorkerWorth(s: State, e: Event, w: nat, d: nat)
    requires Consistent(s) && RetryInv(s) && Enabled(s, e)
    requires (e.Commit? || e.Raise?) && e.w == w
    ensures Potential(Apply(s, e), d) <= Potential(s, d)
  {
    var k := s.workers[w];
    PcHandOffs(s, k);
    var pc := if e.Commit? then After(s, k) else OnRaise(k.pc);
    if OpAt(k.pc).OpHandOff? && (e.Commit? || e.late) {
      HandOffWorth(s, w, pc, d);
    } else {
      StatementWorth(s, w, if e.Commit? then OpAt(k.pc) else OpUpsert(e.written), pc, d);
    }
  }

  lemma ResultWorth(s: State, e: Event, w: nat, d: nat)
    requires Consistent(s) && RetryInv(s) && Enabled(s, e)
    requires (e.Parsed? || e.Split?) && e.w == w
    ensures Potential(Apply(s, e), d) <= Potential(s, d)
  {
    var pc := ResultApplied(s, e, w);
    StatementWorth(s, w, OpNone, Some(pc), d);
  }

  /** Every claim is paid for; nothing but a restart or a requeue adds to the worth. */
  lemma StepWorth(s: State, e: Event, d: nat)
    requires Consistent(s) && RetryInv(s) && Enabled(s, e)
    requires e != Recover && !Requeues(s, e, d) && d < s.nextDoc
    ensures Potential(Apply(s, e), d) + Spent(s, e, d) <= Potential(s, d)
  {
    if IsRequest(e) {
      RequestWorth(s, e, d);
    } else if e.Claim? {
      ClaimWorth(s, e.w, e.job, d);
    } else if e.Commit? || e.Raise? {
      WorkerWorth(s, e, e.w, d);
    } else if e.Parsed? || e.Split? {
      ResultWorth(s, e, e.w, d);
    } else {
      PauseWorth(s, e, d);
    }
  }

  // ---- Runs ----------------------------------------------------------------

  ghost predicate Undisturbed(s: State, es: seq<Event>, d: nat)
    requires CanRun(s, es)
    decreases es
  {
    es != [] ==> es[0] != Recover && !Requeues(s, es[0], d) && Undisturbed(Apply(s, es[0]), es[1..], d)
  }

  /** Claims of ingest, embed and index jobs of the document along the run. */
  ghost function Claims(s: State, es: seq<Event>, d: nat): nat
    requires CanRun(s, es)
    decreases es
  {
    if es == [] then 0 else Spent(s, es[0], d) + Claims(Apply(s, es[0]), es[1..], d)
  }

  lemma {:induction false} ClaimsBoundedByWorth(s: State, es: seq<Event>, d: nat)
    requires Consistent(s) && RetryInv(s) && d < s.nextDoc
    requires CanRun(s, es) && Undisturbed(s, es, d)
    ensures Claims(s, es, d) + Potential(Run(s, es), d) <= Potential(s, d)
    decreases es
  {
    if es != [] {
      StepWorth(s, es[0], d);
      StepKeepsConsistency(s, es[0]);
      StepKeepsRetryInv(s, es[0]);
      StepEvolves(s, es[0]);
      ClaimsBoundedByWorth(Apply(s, es[0]), es[1..], d);
    }
  }

  lemma NewDocumentWorth(s: State, tenant: string, filename: string, checksum: string)
    requires Consistent(s) && s.maxAttempts >= 1
    ensures var m := s.maxAttempts;
      Potential(AddDocument(s, tenant, filename, checksum), s.nextDoc) == m + m * m + m * m * m
  {
    var s1, d, n, m := AddDocument(s, tenant, filename, checksum), s.nextDoc, s.nextJob, s.maxAttempts;
    assert forall v | v in s1.workers :: Holds(s, s1.workers[v]);
    NothingBeyond(s1, d, 0, n);
    assert Worth(s1, n, d) == m * ClaimCost(Ingest, m);
    assert m * (1 + m * (1 + m)) == m + m * m + m * m * m;
  }

  lemma PlannedDocumentWorth(s: State, plan: UploadPlan, tenant: string, filename: string, checksum: string,
                             fileStored: bool)
    requires Consistent(s) && s.maxAttempts >= 1
    requires plan.Replace? ==> plan.previous in s.docs
    requires s.nextDoc in FollowPlan(s, plan, tenant, filename, checksum, fileStored).docs
    ensures var m := s.maxAttempts;
      Potential(FollowPlan(s, plan, tenant, filename, checksum, fileStored), s.nextDoc) == m + m * m + m * m * m
  {
    if plan.Replace? {
      var d := plan.previous;
      RequestPurgeKeepsConsistency(s, d);
      NewDocumentWorth(if s.docs[d].checksum != checksum then RequestPurge(s, d) else s, tenant, filename, checksum);
    } else {
      NewDocumentWorth(s, tenant, filename, checksum);
    }
  }

  /** An upload that adds a document causes at most m + m*m + m*m*m claims of its ingest,
      embed and index jobs, whatever fails and whatever else goes on, as long as the
      server is not restarted and nobody requeues the document. */
  lemma OneUploadBoundedWork(s: State, e: Event, es: seq<Event>)
    requires Reachable(s) && e.UploadRequest? && Enabled(s, e)
    requires s.nextDoc in Apply(s, e).docs
    requires CanRun(Apply(s, e), es) && Undisturbed(Apply(s, e), es, s.nextDoc)
    ensures var m := s.maxAttempts; Claims(Apply(s, e), es, s.nextDoc) <= m + m * m + m * m * m
  {
    ReachableRetryInv(s);
    ReachableConsistent(s);
    var plan := PlanUpload(s, e.tenant, e.filename, e.checksum);
    PlannedDocumentWorth(s, plan, e.tenant, e.filename, e.checksum, e.fileStored);
    StepKeepsConsistency(s, e);
    StepKeepsRetryInv(s, e);
    UploadAddsNextDoc(s, plan, e.tenant, e.filename, e.checksum, e.fileStored);
    ClaimsBoundedByWorth(Apply(s, e), es, s.nextDoc);
  }

  lemma UploadAddsNextDoc(s: State, plan: UploadPlan, tenant: string, filename: string, checksum: string,
                          fileStored: bool)
    requires FreshIds(s)
    requires plan.Replace? ==> plan.previous in s.docs
    requires s.nextDoc in FollowPlan(s, plan, tenant, filename, checksum, fileStored).docs
    ensures FollowPlan(s, plan, tenant, filename, checksum, fileStored).nextDoc == s.nextDoc + 1
  {
  }
}
