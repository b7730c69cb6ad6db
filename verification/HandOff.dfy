/**
 No hand-off is lost: every document keeps a live job or shows how it ended.

 A worker stops being accountable for its document once it has enqueued the next
 stage or written its outcome; from then on something else must speak for the
 document.  Two statements can break that, and StepLoses says exactly when.
 */
module HandOff {
  import opened Prelude
  import opened JobQueue
  import opened Pipeline
  import opened Consistency
  import opened Ownership
  import opened ChunkRows

  /** The document ended as 'indexed' or with one of the failure statuses. */
  predicate StatusTells(s: State, d: nat) {
    d in s.docs && (s.docs[d].status == Indexed || FailedStatus(s.docs[d].status))
  }

  predicate StageFailedAt(s: State, d: nat, name: StageName) {
    (d, name) in s.stages && s.stages[(d, name)] == StageFailed
  }

  ghost predicate StageTells(s: State, d: nat) {
    exists name :: StageFailedAt(s, d, name)
  }

  /** What an operator can see: work in progress, or how the work ended. */
  ghost predicate Accounted(s: State, d: nat) {
    || (exists j :: j in s.jobs && s.jobs[j].doc == d && s.jobs[j].Live())
    || StatusTells(s, d)
    || StageTells(s, d)
  }

  /** Places from which a worker can do no more than finish its job or give it back. */
  predicate Final(pc: Pc) {
    match pc
    case IndexDone | IngestAck | EmbedAck | IndexAck | IngestNack | EmbedNack | IndexNack | PurgeNack(_) => true
    case _ => false
  }

  /** A worker at pc can do no more than end the job for good: a nack does so when the
      attempts are used up. */
  predicate Finishes(row: Job, pc: Pc) {
    Final(pc) && (OpAt(pc).OpNack? ==> Exhausted(row))
  }

  predicate Exhausted(row: Job) {
    row.attempt >= row.maxAttempts
  }

  /** A live job that no worker is about to end. */
  ghost predicate Supports(s: State, j: nat, d: nat) {
    && j in s.jobs && s.jobs[j].doc == d && s.jobs[j].Live()
    && forall w | w in s.workers && s.workers[w].job == j :: !Finishes(s.jobs[j], s.workers[w].pc)
  }

  ghost predicate Supported(s: State, d: nat) {
    (exists j :: Supports(s, j, d)) || StatusTells(s, d) || StageTells(s, d)
  }

  /** index_worker.py:42 overwrites the failed index row that another index job has left,
      when that row is all the document has. */
  ghost predicate FlagErased(s: State, k: Worker) {
    && k.pc == IndexDone && StageFailedAt(s, k.doc, IndexStage)
    && !StatusTells(s, k.doc)
    && (forall name | name != IndexStage :: !StageFailedAt(s, k.doc, name))
    && !exists j :: Supports(s, j, k.doc)
  }

  /** purge_worker.py:70-77 passes over the failing status update, and the job is out of
      attempts. */
  ghost predicate PurgeGivenUp(s: State, k: Worker) {
    && k.pc == PurgeErrorStatus
    && k.job in s.jobs && Exhausted(s.jobs[k.job])
    && !StatusTells(s, k.doc) && !StageTells(s, k.doc)
    && !exists j :: j != k.job && Supports(s, j, k.doc)
  }

  /** The statement index_worker.py:42 commits, or purge_worker.py:72-75 raises. */
  ghost predicate StepLoses(s: State, e: Event, d: nat)
    requires Enabled(s, e)
  {
    || (e.Commit? && s.workers[e.w].doc == d && FlagErased(s, s.workers[e.w]))
    || (e.Raise? && s.workers[e.w].doc == d && PurgeGivenUp(s, s.workers[e.w]))
  }

  /** What the argument needs of a state: no statement ever writes 'deleted'. */
  ghost predicate Inv(s: State) {
    Consistent(s) && RowsPresent(s) && NoneDeleted(s)
  }

  ghost predicate NoneDeleted(s: State) {
    forall d | d in s.docs :: s.docs[d].status != Deleted
  }

  // ---- Requests, claims and restarts ---------------------------------------

  lemma NewJobSupports(s: State, d: nat, stage: Stage)
    requires FreshIds(s) && d in s.docs
    ensures Supports(AddJob(s, d, stage), s.nextJob, d)
  {
  }

  /** Rows of other documents and their supporters are as before. */
  ghost predicate SameFor(s: State, s1: State, d: nat) {
    && (d in s.docs && d in s1.docs ==> s1.docs[d].status == s.docs[d].status)
    && (forall name :: StageFailedAt(s, d, name) ==> StageFailedAt(s1, d, name))
    && (forall j | Supports(s, j, d) :: Supports(s1, j, d))
  }

  lemma SameKeepsSupport(s: State, s1: State, d: nat)
    requires SameFor(s, s1, d) && Supported(s, d) && d in s.docs && d in s1.docs
    ensures Supported(s1, d)
  {
    if j :| Supports(s, j, d) {
      assert Supports(s1, j, d);
    } else if StageTells(s, d) {
      var name :| StageFailedAt(s, d, name);
      assert StageFailedAt(s1, d, name);
    }
  }

  lemma PurgeRequestSupports(s: State, r: nat, d: nat)
    requires FreshIds(s) && d in s.docs && Supported(s, d) && r in s.docs
    ensures Supported(RequestPurge(s, r), d)
  {
    var s0 := WriteStatus(s, r, Deleting).(purgeRequested := s.purgeRequested + {r});
    if d == r {
      NewJobSupports(s0, r, Purge);
    } else {
      assert SameFor(s, RequestPurge(s, r), d);
      SameKeepsSupport(s, RequestPurge(s, r), d);
    }
  }

  lemma RequeueSupports(s: State, r: nat, d: nat)
    requires FreshIds(s) && d in s.docs && Supported(s, d) && r in s.docs
    ensures Supported(Requeue(s, r), d)
  {
    if d == r {
      NewJobSupports(s.(docs := WithStatus(s.docs, d, DocPending), stages := ResetStages(s, d)), d, Ingest);
    } else {
      assert SameFor(s, Requeue(s, r), d);
      SameKeepsSupport(s, Requeue(s, r), d);
    }
  }

  lemma AddDocumentSupports(s: State, tenant: string, filename: string, checksum: string, d: nat)
    requires FreshIds(s) && d in AddDocument(s, tenant, filename, checksum).docs
    requires d in s.docs ==> Supported(s, d)
    ensures Supported(AddDocument(s, tenant, filename, checksum), d)
  {
    var s1 := AddDocument(s, tenant, filename, checksum);
    if d == s.nextDoc {
      assert Supports(s1, s.nextJob, d);
    } else {
      assert SameFor(s, s1, d);
      SameKeepsSupport(s, s1, d);
    }
  }

  lemma RequestSupports(s: State, e: Event, d: nat)
    requires Consistent(s) && Enabled(s, e) && IsRequest(e)
    requires d in Apply(s, e).docs && (d in s.docs ==> Supported(s, d))
    ensures Supported(Apply(s, e), d)
  {
    match e
    case ReprocessRequest(r) => RequeueSupports(s, r, d);
    case DeleteRequest(r) => PurgeRequestSupports(s, r, d);
    case UploadRequest(tenant, filename, checksum, fileStored) =>
      PlanSupports(s, PlanUpload(s, tenant, filename, checksum), tenant, filename, checksum, fileStored, d);
  }

  lemma PlanSupports(s: State, plan: UploadPlan, tenant: string, filename: string, checksum: string, fileStored: bool,
                     d: nat)
    requires Consistent(s)
    requires plan.Replace? ==> plan.previous in s.docs
    requires plan.Retry? ==> plan.doc in s.docs
    requires d in FollowPlan(s, plan, tenant, filename, checksum, fileStored).docs && (d in s.docs ==> Supported(s, d))
    ensures Supported(FollowPlan(s, plan, tenant, filename, checksum, fileStored), d)
  {
    match plan
    case Ignore =>
    case Retry(r) => RequeueSupports(s, r, d);
    case Add =>
      if fileStored {
        AddDocumentSupports(s, tenant, filename, checksum, d);
      }
    case Replace(r) =>
      var s1 := if s.docs[r].checksum != checksum then RequestPurge(s, r) else s;
      RequestPurgeKeepsConsistency(s, r);
      if d in s.docs {
        PurgeRequestSupports(s, r, d);
      }
      if fileStored {
        AddDocumentSupports(s1, tenant, filename, checksum, d);
      }
  }

  lemma RestartSupports(s: State, e: Event, d: nat)
    requires Consistent(s) && Enabled(s, e) && d in s.docs && Supported(s, d)
    requires e.Tick? || e.Crash? || e.Recover? || e.Cleanup?
    ensures Supported(Apply(s, e), d)
  {
    assert SameFor(s, Apply(s, e), d);
    SameKeepsSupport(s, Apply(s, e), d);
  }

  lemma ClaimSupports(s: State, w: nat, j: nat, d: nat)
    requires Consistent(s) && Enabled(s, Claim(w, j)) && d in s.docs && Supported(s, d)
    ensures Supported(Apply(s, Claim(w, j)), d)
  {
    var s1 := Apply(s, Claim(w, j));
    assert SameFor(s, s1, d);
    SameKeepsSupport(s, s1, d);
  }

  // ---- Workers -------------------------------------------------------------

  lemma OtherRowsSame(s: State, op: Op, job: nat, doc: nat, d: nat)
    requires doc != d && d in s.docs && (op.OpInsert? ==> doc in s.docs)
    ensures var t := Perform(s, op, job, doc);
      && d in t.docs && t.docs[d].status == s.docs[d].status
      && forall name :: StageFailedAt(s, d, name) ==> StageFailedAt(t, d, name)
  {
  }

  lemma OtherJobsSame(s: State, op: Op, job: nat, doc: nat, d: nat)
    requires FreshIds(s) && doc != d && (op.OpInsert? ==> doc in s.docs)
    requires job in s.jobs ==> s.jobs[job].doc == doc
    ensures var t := Perform(s, op, job, doc);
      forall j | j in s.jobs && s.jobs[j].doc == d :: j in t.jobs && t.jobs[j] == s.jobs[j]
  {
  }

  /** A statement for another document leaves this one as it was. */
  lemma OtherDocumentKeeps(s: State, w: nat, op: Op, pc: Option<Pc>, d: nat)
    requires Consistent(s) && w in s.workers && s.workers[w].doc != d
    requires d in s.docs && Supported(s, d)
    requires op.OpInsert? ==> s.workers[w].doc in s.docs
    ensures var k := s.workers[w]; Supported(Goto(Perform(s, op, k.job, k.doc), w, k, pc), d)
  {
    var k := s.workers[w];
    assert Holds(s, k);
    OtherRowsSame(s, op, k.job, k.doc, d);
    OtherJobsSame(s, op, k.job, k.doc, d);
    OtherWorkersSame(s, Perform(s, op, k.job, k.doc), w, k, pc, d);
  }

  lemma OtherWorkersSame(s: State, t: State, w: nat, k: Worker, pc: Option<Pc>, d: nat)
    requires w in s.workers && k == s.workers[w] && t.workers == s.workers && Supported(s, d)
    requires k.job in s.jobs ==> s.jobs[k.job].doc != d
    requires d in s.docs && d in t.docs && t.docs[d].status == s.docs[d].status
    requires forall name :: StageFailedAt(s, d, name) ==> StageFailedAt(t, d, name)
    requires forall j | j in s.jobs && s.jobs[j].doc == d :: j in t.jobs && t.jobs[j] == s.jobs[j]
    ensures Supported(Goto(t, w, k, pc), d)
  {
    var s1 := Goto(t, w, k, pc);
    forall j | Supports(s, j, d) ensures Supports(s1, j, d) {
    }
    forall name | StageFailedAt(s, d, name) ensures StageFailedAt(s1, d, name) {
      assert StageFailedAt(t, d, name);
    }
    SameKeepsSupport(s, s1, d);
  }

  /** A worker that does not end its job, or has gone without ending it, leaves a job
      that speaks for the document. */
  lemma OwnJobSupports(s: State, w: nat, op: Op, pc: Option<Pc>)
    requires Consistent(s) && w in s.workers && s.workers[w].doc in s.docs
    requires !op.OpAck? && !op.OpNack? && !op.OpDelete?
    requires pc.Some? && Final(pc.value) ==>
      OpAt(pc.value).OpNack? && s.workers[w].job in s.jobs && !Exhausted(s.jobs[s.workers[w].job])
    ensures var k := s.workers[w]; Supports(Goto(Perform(s, op, k.job, k.doc), w, k, pc), k.job, k.doc)
  {
    assert Holds(s, s.workers[w]);
    OwnRowStays(s, op, s.workers[w]);
  }

  lemma OwnRowStays(s: State, op: Op, k: Worker)
    requires FreshIds(s) && k.job in s.jobs && (op.OpInsert? ==> k.doc in s.docs)
    requires !op.OpAck? && !op.OpNack? && !op.OpDelete?
    ensures var t := Perform(s, op, k.job, k.doc); k.job in t.jobs && t.jobs[k.job] == s.jobs[k.job]
  {
  }

  /** Statements that write the outcome just before the worker ends its job. */
  predicate WritesOutcome(pc: Pc) {
    match pc
    case EmptyStatus | NoChunksStatus | IngestErrorStatus | NoRowsStatus | EmbedErrorStatus
       | MarkIndexed | IndexErrorStage | PurgeErrorStatus => true
    case _ => false
  }

  lemma LastAccountable(s: State, k: Worker)
    requires !Final(k.pc) && After(s, k).Some? && Final(After(s, k).value)
    ensures OpAt(k.pc).OpHandOff? || WritesOutcome(k.pc) || k.pc == Guard || k.pc.StoreVectorIds?
  {
  }

  lemma OutcomeOps(pc: Pc)
    requires WritesOutcome(pc)
    ensures if pc == IndexErrorStage then OpAt(pc) == OpStage(IndexStage, StageFailed)
      else OpAt(pc).OpStatus? && (OpAt(pc).status == Indexed || FailedStatus(OpAt(pc).status))
  {
  }

  lemma OutcomeTells(s: State, w: nat)
    requires Enabled(s, Commit(w)) && s.workers[w].doc in s.docs && WritesOutcome(s.workers[w].pc)
    ensures Supported(Apply(s, Commit(w)), s.workers[w].doc)
  {
    var s1, d := Apply(s, Commit(w)), s.workers[w].doc;
    OutcomeOps(s.workers[w].pc);
    if s.workers[w].pc == IndexErrorStage {
      assert StageFailedAt(s1, d, IndexStage);
    } else {
      assert StatusTells(s1, d);
    }
  }

  lemma HandOffSupports(s: State, w: nat)
    requires Consistent(s) && Enabled(s, Commit(w)) && s.workers[w].doc in s.docs && OpAt(s.workers[w].pc).OpHandOff?
    ensures Supports(Apply(s, Commit(w)), s.nextJob, s.workers[w].doc)
  {
  }

  /** What a worker leaves behind before it comes to a final statement. */
  lemma ReleaseLeavesATrace(s: State, w: nat)
    requires Inv(s) && Enabled(s, Commit(w)) && s.workers[w].doc in s.docs
    requires var k := s.workers[w]; !Final(k.pc) && After(s, k).Some? && Final(After(s, k).value)
    ensures Supported(Apply(s, Commit(w)), s.workers[w].doc)
  {
    var k := s.workers[w];
    LastAccountable(s, k);
    if OpAt(k.pc).OpHandOff? {
      HandOffSupports(s, w);
    } else if WritesOutcome(k.pc) {
      OutcomeTells(s, w);
    } else {
      RowsAreThere(s, k);
    }
  }

  /** With the document in place neither the guard nor the update of the vector ids sends an
      embed worker to its ack. */
  lemma RowsAreThere(s: State, k: Worker)
    requires NoneDeleted(s) && k.doc in s.docs && RowsOf(k.pc) <= RowIds(s, k.doc)
    requires k.pc == Guard || k.pc.StoreVectorIds?
    ensures After(s, k).Some? && !Final(After(s, k).value)
  {
  }

  /** A job supports as before when its row is as before and its holder, if it moved, was
      about to end it and still is. */
  lemma SupportersSame(s: State, s1: State, w: nat, k: Worker, pc: Option<Pc>, j: nat, d: nat)
    requires w in s.workers && k == s.workers[w]
    requires s1.workers == if pc.Some? then s.workers[w := k.(pc := pc.value)] else s.workers - {w}
    requires j in s.jobs <==> j in s1.jobs
    requires j in s.jobs ==> s.jobs[j] == s1.jobs[j]
    requires k.job != j || (j in s.jobs && pc.Some? && Finishes(s.jobs[j], k.pc) && Finishes(s.jobs[j], pc.value))
    ensures Supports(s, j, d) <==> Supports(s1, j, d)
  {
    if Supports(s1, j, d) {
      forall v | v in s.workers && s.workers[v].job == j ensures !Finishes(s.jobs[j], s.workers[v].pc) {
        assert v in s1.workers && s1.workers[v].job == j;
      }
    }
  }

  /** Status and failed stages of the document read the same. */
  ghost predicate TellsSame(s: State, s1: State, d: nat) {
    StatusTells(s, d) == StatusTells(s1, d) && forall name :: StageFailedAt(s, d, name) == StageFailedAt(s1, d, name)
  }

  ghost predicate SupportSame(s: State, s1: State, d: nat) {
    forall j: nat :: Supports(s, j, d) <==> Supports(s1, j, d)
  }

  lemma SameSupported(s: State, s1: State, d: nat)
    requires TellsSame(s, s1, d) && SupportSame(s, s1, d)
    ensures Supported(s, d) <==> Supported(s1, d)
  {
    if name :| StageFailedAt(s, d, name) {
      assert StageFailedAt(s1, d, name);
    }
    if name :| StageFailedAt(s1, d, name) {
      assert StageFailedAt(s, d, name);
    }
  }

  /** index_worker.py:42 */
  lemma IndexDoneStep(s: State, w: nat)
    requires Enabled(s, Commit(w)) && s.workers[w].doc in s.docs && s.workers[w].pc == IndexDone
    requires Supported(s, s.workers[w].doc)
    ensures Supported(Apply(s, Commit(w)), s.workers[w].doc) <==> !FlagErased(s, s.workers[w])
  {
    var k, d := s.workers[w], s.workers[w].doc;
    var s1 := Apply(s, Commit(w));
    IndexDoneEffect(s, w);
    if StageTells(s1, d) {
      var name :| StageFailedAt(s1, d, name);
      assert StageFailedAt(s, d, name) && name != IndexStage;
    }
    if StageTells(s, d) {
      var name :| StageFailedAt(s, d, name);
      assert name == IndexStage || StageFailedAt(s1, d, name);
    }
  }

  lemma IndexDoneApplied(s: State, w: nat)
    requires Enabled(s, Commit(w)) && s.workers[w].pc == IndexDone
    ensures Apply(s, Commit(w)) ==
      Goto(WriteStage(s, s.workers[w].doc, IndexStage, StageDone), w, s.workers[w], Some(IndexAck))
  {
  }

  lemma IndexDoneEffect(s: State, w: nat)
    requires Enabled(s, Commit(w)) && s.workers[w].doc in s.docs && s.workers[w].pc == IndexDone
    ensures var d, s1 := s.workers[w].doc, Apply(s, Commit(w));
      && SupportSame(s, s1, d)
      && StatusTells(s, d) == StatusTells(s1, d)
      && !StageFailedAt(s1, d, IndexStage)
      && forall name | name != IndexStage :: StageFailedAt(s, d, name) == StageFailedAt(s1, d, name)
  {
    IndexDoneApplied(s, w);
    IndexDoneSupport(s, w, s.workers[w], Apply(s, Commit(w)));
  }

  lemma IndexDoneSupport(s: State, w: nat, k: Worker, s1: State)
    requires w in s.workers && k == s.workers[w] && k.pc == IndexDone
    requires s1 == Goto(WriteStage(s, k.doc, IndexStage, StageDone), w, k, Some(IndexAck))
    ensures SupportSame(s, s1, k.doc)
  {
    forall j: nat ensures Supports(s, j, k.doc) <==> Supports(s1, j, k.doc) {
      if j in s.jobs {
        SupportersSame(s, s1, w, k, Some(IndexAck), j, k.doc);
      }
    }
  }

  lemma AckIsFinal(pc: Pc)
    requires OpAt(pc).OpAck?
    ensures pc == IngestAck || pc == EmbedAck || pc == IndexAck
  {
  }

  lemma AckApplied(s: State, w: nat)
    requires w in s.workers && Enabled(s, Commit(w)) && OpAt(s.workers[w].pc).OpAck?
    ensures var k := s.workers[w]; Apply(s, Commit(w)) == Goto(s.(jobs := Acked(s.jobs, k.job)), w, k, None)
  {
    AckIsFinal(s.workers[w].pc);
  }

  lemma NackIsFinal(pc: Pc)
    requires OpAt(pc).OpNack?
    ensures pc == IngestNack || pc == EmbedNack || pc == IndexNack || pc.PurgeNack?
  {
  }

  lemma NackApplied(s: State, w: nat)
    requires w in s.workers && Enabled(s, Commit(w)) && OpAt(s.workers[w].pc).OpNack?
    ensures var k := s.workers[w]; Apply(s, Commit(w)) == Goto(s.(jobs := Nacked(s.jobs, k.job, s.now)), w, k, None)
  {
    NackReturns(s, s.workers[w]);
  }

  lemma NackReturns(s: State, k: Worker)
    requires OpAt(k.pc).OpNack?
    ensures After(s, k) == None
  {
    NackIsFinal(k.pc);
  }

  lemma HolderFacts(s: State, w: nat)
    requires Consistent(s) && w in s.workers && s.workers[w].doc in s.docs
    ensures var k := s.workers[w];
      && k.job in s.jobs && s.jobs[k.job].doc == k.doc && s.jobs[k.job].Live()
      && forall v | v in s.workers && v != w :: s.workers[v].job != k.job
  {
    assert Holds(s, s.workers[w]);
  }

  /** A worker that ends its job for good takes no support away. */
  lemma EndingEffect(s: State, w: nat, k: Worker, jobs: Table)
    requires w in s.workers && k == s.workers[w] && k.job in s.jobs && Finishes(s.jobs[k.job], k.pc)
    requires jobs.Keys == s.jobs.Keys && !jobs[k.job].Live()
    requires forall j | j in jobs && j != k.job :: jobs[j] == s.jobs[j]
    ensures var s1 := Goto(s.(jobs := jobs), w, k, None); TellsSame(s, s1, k.doc) && SupportSame(s, s1, k.doc)
  {
    var s1 := Goto(s.(jobs := jobs), w, k, None);
    forall j: nat ensures Supports(s, j, k.doc) <==> Supports(s1, j, k.doc) {
      if j != k.job {
        SupportersSame(s, s1, w, k, None, j, k.doc);
      }
    }
  }

  lemma AckEffect(s: State, w: nat)
    requires Consistent(s) && Enabled(s, Commit(w)) && s.workers[w].doc in s.docs && OpAt(s.workers[w].pc).OpAck?
    ensures var d, s1 := s.workers[w].doc, Apply(s, Commit(w)); TellsSame(s, s1, d) && SupportSame(s, s1, d)
  {
    var k := s.workers[w];
    HolderFacts(s, w);
    AckApplied(s, w);
    EndingEffect(s, w, k, Acked(s.jobs, k.job));
  }

  lemma LastNackEffect(s: State, w: nat)
    requires Consistent(s) && Enabled(s, Commit(w)) && s.workers[w].doc in s.docs && OpAt(s.workers[w].pc).OpNack?
    requires s.workers[w].job in s.jobs && Exhausted(s.jobs[s.workers[w].job])
    ensures var d, s1 := s.workers[w].doc, Apply(s, Commit(w)); TellsSame(s, s1, d) && SupportSame(s, s1, d)
  {
    var k := s.workers[w];
    HolderFacts(s, w);
    NackApplied(s, w);
    EndingEffect(s, w, k, Nacked(s.jobs, k.job, s.now));
  }

  lemma RetryEffect(s: State, w: nat)
    requires Consistent(s) && Enabled(s, Commit(w)) && s.workers[w].doc in s.docs && OpAt(s.workers[w].pc).OpNack?
    requires s.workers[w].job in s.jobs && !Exhausted(s.jobs[s.workers[w].job])
    ensures Supports(Apply(s, Commit(w)), s.workers[w].job, s.workers[w].doc)
  {
    HolderFacts(s, w);
    NackApplied(s, w);
  }

  lemma EndsByAckOrNack(pc: Pc)
    requires Final(pc) && pc != IndexDone
    ensures OpAt(pc).OpAck? || OpAt(pc).OpNack?
  {
  }

  lemma FinalCommit(s: State, w: nat)
    requires Consistent(s) && Enabled(s, Commit(w)) && s.workers[w].doc in s.docs && Supported(s, s.workers[w].doc)
    requires Final(s.workers[w].pc) && s.workers[w].pc != IndexDone
    ensures Supported(Apply(s, Commit(w)), s.workers[w].doc)
  {
    var k, s1 := s.workers[w], Apply(s, Commit(w));
    HolderFacts(s, w);
    EndsByAckOrNack(k.pc);
    if OpAt(k.pc).OpAck? {
      AckEffect(s, w);
      SameSupported(s, s1, k.doc);
    } else if Exhausted(s.jobs[k.job]) {
      LastNackEffect(s, w);
      SameSupported(s, s1, k.doc);
    } else {
      RetryEffect(s, w);
    }
  }

  lemma AccountableCommit(s: State, w: nat)
    requires Inv(s) && Enabled(s, Commit(w)) && !Final(s.workers[w].pc)
    requires s.workers[w].doc in s.docs && s.workers[w].doc in Apply(s, Commit(w)).docs
    ensures Supported(Apply(s, Commit(w)), s.workers[w].doc)
  {
    var k := s.workers[w];
    if After(s, k).Some? && Final(After(s, k).value) {
      ReleaseLeavesATrace(s, w);
    } else {
      OwnJobSupports(s, w, OpAt(k.pc), After(s, k));
    }
  }

  /** Only one committing statement can lose a document. */
  lemma OnlyIndexDoneLoses(s: State, w: nat)
    requires Enabled(s, Commit(w))
    ensures StepLoses(s, Commit(w), s.workers[w].doc) <==> FlagErased(s, s.workers[w])
    ensures s.workers[w].pc != IndexDone ==> !StepLoses(s, Commit(w), s.workers[w].doc)
  {
  }

  lemma OwnCommit(s: State, w: nat)
    requires Inv(s) && Enabled(s, Commit(w)) && Supported(s, s.workers[w].doc)
    requires s.workers[w].doc in s.docs && s.workers[w].doc in Apply(s, Commit(w)).docs
    ensures Supported(Apply(s, Commit(w)), s.workers[w].doc) <==> !StepLoses(s, Commit(w), s.workers[w].doc)
  {
    OnlyIndexDoneLoses(s, w);
    if s.workers[w].pc == IndexDone {
      IndexDoneStep(s, w);
    } else {
      OtherOwnCommit(s, w);
    }
  }

  lemma OtherOwnCommit(s: State, w: nat)
    requires Inv(s) && Enabled(s, Commit(w)) && Supported(s, s.workers[w].doc) && s.workers[w].pc != IndexDone
    requires s.workers[w].doc in s.docs && s.workers[w].doc in Apply(s, Commit(w)).docs
    ensures Supported(Apply(s, Commit(w)), s.workers[w].doc)
  {
    if Final(s.workers[w].pc) {
      FinalCommit(s, w);
    } else {
      AccountableCommit(s, w);
    }
  }

  lemma CommitStep(s: State, w: nat, d: nat)
    requires Inv(s) && Enabled(s, Commit(w)) && d in s.docs && Supported(s, d) && d in Apply(s, Commit(w)).docs
    ensures Supported(Apply(s, Commit(w)), d) <==> !StepLoses(s, Commit(w), d)
  {
    var k := s.workers[w];
    if k.doc == d {
      OwnCommit(s, w);
    } else {
      OtherDocumentKeeps(s, w, OpAt(k.pc), After(s, k), d);
    }
  }

  lemma ResultStep(s: State, e: Event, w: nat, d: nat)
    requires Inv(s) && Enabled(s, e) && d in s.docs && Supported(s, d)
    requires (e.Parsed? || e.Split?) && e.w == w
    ensures Supported(Apply(s, e), d)
  {
    var pc := ResultApplied(s, e, w);
    if s.workers[w].doc == d {
      OwnJobSupports(s, w, OpNone, Some(pc));
    } else {
      OtherDocumentKeeps(s, w, OpNone, Some(pc), d);
    }
  }

  lemma RaiseLands(pc: Pc)
    ensures OnRaise(pc) == Some(PurgeNack(false)) <==> pc == PurgeErrorStatus
    ensures OnRaise(pc) == None || OnRaise(pc) == Some(PurgeNack(false)) ||
      OnRaise(pc).value in {IngestErrorStage, EmbedErrorStage, IndexErrorStage, PurgeFiles, PurgeDelete,
                            PurgeErrorStatus}
  {
  }

  lemma RaisingIsNotFinal(pc: Pc)
    ensures OnRaise(pc).Some? && Final(OnRaise(pc).value) ==> pc == PurgeErrorStatus
  {
    RaiseLands(pc);
  }

  /** purge_worker.py:76-77 */
  lemma PurgeReportFails(s: State, w: nat)
    requires Consistent(s) && Enabled(s, Raise(w, {}, false)) && s.workers[w].pc == PurgeErrorStatus
    requires s.workers[w].doc in s.docs && Supported(s, s.workers[w].doc)
    ensures Supported(Apply(s, Raise(w, {}, false)), s.workers[w].doc) <==> !PurgeGivenUp(s, s.workers[w])
  {
    HolderFacts(s, w);
    PurgeReportApplied(s, w);
    PurgeReportEffect(s, w, s.workers[w], Apply(s, Raise(w, {}, false)));
  }

  lemma PurgeReportApplied(s: State, w: nat)
    requires Enabled(s, Raise(w, {}, false)) && s.workers[w].pc == PurgeErrorStatus
    ensures Apply(s, Raise(w, {}, false)) == Goto(s, w, s.workers[w], Some(PurgeNack(false)))
  {
    assert AddPoints(s, s.workers[w].doc, {}) == s;
  }

  lemma PurgeReportEffect(s: State, w: nat, k: Worker, s1: State)
    requires w in s.workers && k == s.workers[w] && k.pc == PurgeErrorStatus && Supported(s, k.doc)
    requires k.job in s.jobs && s.jobs[k.job].doc == k.doc && s.jobs[k.job].Live()
    requires forall v | v in s.workers && v != w :: s.workers[v].job != k.job
    requires s1 == Goto(s, w, k, Some(PurgeNack(false)))
    ensures Supported(s1, k.doc) <==> !PurgeGivenUp(s, k)
  {
    var d := k.doc;
    TellingIsTheSame(s, s1, d);
    if Exhausted(s.jobs[k.job]) {
      assert s1.workers[w].job == k.job && Finishes(s1.jobs[k.job], s1.workers[w].pc);
      forall j: nat ensures j != k.job && Supports(s, j, d) <==> Supports(s1, j, d) {
        if j != k.job {
          SupportersSame(s, s1, w, k, Some(PurgeNack(false)), j, d);
        }
      }
    } else {
      assert Supports(s1, k.job, d);
    }
  }

  lemma TellingIsTheSame(s: State, s1: State, d: nat)
    requires TellsSame(s, s1, d)
    ensures StatusTells(s, d) == StatusTells(s1, d) && StageTells(s, d) == StageTells(s1, d)
  {
    if name :| StageFailedAt(s, d, name) {
      assert StageFailedAt(s1, d, name);
    }
    if name :| StageFailedAt(s1, d, name) {
      assert StageFailedAt(s, d, name);
    }
  }

  lemma RaiseStep(s: State, w: nat, written: set<nat>, late: bool, d: nat)
    requires Inv(s) && Enabled(s, Raise(w, written, late)) && d in s.docs && Supported(s, d)
    ensures Supported(Apply(s, Raise(w, written, late)), d) <==> !StepLoses(s, Raise(w, written, late), d)
  {
    var k := s.workers[w];
    if k.doc == d && k.pc == PurgeErrorStatus {
      PurgeReportFails(s, w);
    } else {
      var op := RaiseApplied(s, w, written, late);
      if k.doc == d {
        RaisingIsNotFinal(k.pc);
        OwnJobSupports(s, w, op, OnRaise(k.pc));
      } else {
        OtherDocumentKeeps(s, w, op, OnRaise(k.pc), d);
      }
    }
  }

  lemma OldDocument(s: State, e: Event, d: nat)
    requires Consistent(s) && Enabled(s, e) && !IsRequest(e) && d in Apply(s, e).docs
    ensures d in s.docs
  {
  }

  lemma NonCommitStep(s: State, e: Event, d: nat)
    requires Inv(s) && Enabled(s, e) && !e.Commit? && !e.Raise? && !IsRequest(e) && d in s.docs && Supported(s, d)
    ensures Supported(Apply(s, e), d)
  {
    match e
    case Claim(w, j) => ClaimSupports(s, w, j, d);
    case Parsed(w, _) => ResultStep(s, e, w, d);
    case Split(w, _) => ResultStep(s, e, w, d);
    case Tick(_) => RestartSupports(s, e, d);
    case Crash => RestartSupports(s, e, d);
    case Recover => RestartSupports(s, e, d);
    case Cleanup => RestartSupports(s, e, d);
  }

  /** A step takes the last word on a document away exactly when it is one of the two
      losing statements; every new document starts with a job. */
  lemma LossExactly(s: State, e: Event, d: nat)
    requires Inv(s) && Enabled(s, e) && d in Apply(s, e).docs
    requires d in s.docs ==> Supported(s, d)
    ensures Supported(Apply(s, e), d) <==> !(d in s.docs && StepLoses(s, e, d))
  {
    if IsRequest(e) {
      RequestSupports(s, e, d);
    } else {
      OldDocument(s, e, d);
      if e.Commit? {
        CommitStep(s, e.w, d);
      } else if e.Raise? {
        RaiseStep(s, e.w, e.written, e.late, d);
      } else {
        NonCommitStep(s, e, d);
      }
    }
  }

  // ---- Runs ----------------------------------------------------------------

  lemma StepKeepsNoneDeleted(s: State, e: Event)
    requires NoneDeleted(s) && Enabled(s, e)
    ensures NoneDeleted(Apply(s, e))
  {
    if e.UploadRequest? {
      PlanKeepsNoneDeleted(s, PlanUpload(s, e.tenant, e.filename, e.checksum), e.tenant, e.filename, e.checksum,
                           e.fileStored);
    } else if e.Commit? {
      PerformKeepsNoneDeleted(s, OpAt(s.workers[e.w].pc), s.workers[e.w]);
    } else if e.Raise? {
      PerformKeepsNoneDeleted(s, if e.late then OpAt(s.workers[e.w].pc) else OpUpsert(e.written), s.workers[e.w]);
    }
  }

  lemma PerformKeepsNoneDeleted(s: State, op: Op, k: Worker)
    requires NoneDeleted(s) && op != OpStatus(Deleted)
    requires op.OpInsert? ==> k.doc in s.docs
    ensures NoneDeleted(Perform(s, op, k.job, k.doc))
  {
  }

  lemma PlanKeepsNoneDeleted(s: State, plan: UploadPlan, tenant: string, filename: string, checksum: string,
                             fileStored: bool)
    requires NoneDeleted(s)
    requires plan.Replace? ==> plan.previous in s.docs
    ensures NoneDeleted(FollowPlan(s, plan, tenant, filename, checksum, fileStored))
  {
  }

  lemma StepKeepsInv(s: State, e: Event)
    requires Inv(s) && Enabled(s, e)
    ensures Inv(Apply(s, e))
  {
    StepKeepsConsistency(s, e);
    StepKeepsRowsPresent(s, e);
    StepKeepsNoneDeleted(s, e);
  }

  lemma {:induction false} RunKeepsInv(s: State, es: seq<Event>)
    requires Inv(s) && CanRun(s, es)
    ensures Inv(Run(s, es))
    decreases es
  {
    if es != [] {
      StepKeepsInv(s, es[0]);
      RunKeepsInv(Apply(s, es[0]), es[1..]);
    }
  }

  /** Whatever happened so far, the exact conditions above and below apply. */
  lemma ReachableInv(s: State)
    requires Reachable(s)
    ensures Inv(s)
  {
    var s0, es :| Init(s0) && CanRun(s0, es) && Run(s0, es) == s;
    RunKeepsInv(s0, es);
  }

  /** No step of the run is a losing one for the document. */
  ghost predicate Lossless(s: State, es: seq<Event>, d: nat)
    requires CanRun(s, es)
    decreases es
  {
    es != [] ==> !StepLoses(s, es[0], d) && Lossless(Apply(s, es[0]), es[1..], d)
  }

  lemma {:induction false} LosslessRunSupports(s: State, es: seq<Event>, d: nat)
    requires Inv(s) && CanRun(s, es) && Lossless(s, es, d) && d in Run(s, es).docs
    requires d in s.docs ==> Supported(s, d)
    ensures Inv(Run(s, es)) && Supported(Run(s, es), d)
    decreases es
  {
    if es == [] {
      return;
    }
    var s1 := Apply(s, es[0]);
    StepKeepsInv(s, es[0]);
    if d in s1.docs {
      LossExactly(s, es[0], d);
    }
    LosslessRunSupports(s1, es[1..], d);
  }

  /** In every run without a losing step, over all interleavings, failures, crashes,
      deletions and reprocess requests, an existing document has a job in progress or
      shows how it ended. */
  lemma NoHandOffLost(s0: State, es: seq<Event>, d: nat)
    requires Init(s0) && CanRun(s0, es) && Lossless(s0, es, d)
    requires d in Run(s0, es).docs
    ensures Accounted(Run(s0, es), d)
  {
    LosslessRunSupports(s0, es, d);
    SupportedIsAccounted(Run(s0, es), d);
  }

  // ---- The converse --------------------------------------------------------

  function LiveJobs(s: State, d: nat): set<nat> {
    set j | j in s.jobs && s.jobs[j].doc == d && s.jobs[j].Live()
  }

  function AtIndexDone(s: State, d: nat): set<nat> {
    set w | w in s.workers && s.workers[w].doc == d && s.workers[w].pc == IndexDone
  }

  /** Statements that workers of an unsupported document still have to commit. */
  function StillToEnd(s: State, d: nat): nat {
    |LiveJobs(s, d)| + |AtIndexDone(s, d)|
  }

  lemma LosingIsSupported(s: State, e: Event, d: nat)
    requires Consistent(s) && Enabled(s, e) && d in s.docs && StepLoses(s, e, d)
    ensures Supported(s, d)
  {
    if e.Raise? {
      HolderFacts(s, e.w);
      assert Supports(s, s.workers[e.w].job, d);
    } else {
      assert StageFailedAt(s, d, IndexStage);
    }
  }

  lemma SupportShrinks(s: State, s1: State, d: nat)
    requires SupportSame(s, s1, d) && StatusTells(s, d) == StatusTells(s1, d)
    requires forall name :: StageFailedAt(s1, d, name) ==> StageFailedAt(s, d, name)
    ensures Supported(s1, d) ==> Supported(s, d)
  {
    if StageTells(s1, d) {
      var name :| StageFailedAt(s1, d, name);
      assert StageFailedAt(s, d, name);
    }
  }

  lemma IndexDoneEnds(s: State, w: nat)
    requires Consistent(s) && w in s.workers && s.workers[w].doc in s.docs && s.workers[w].pc == IndexDone
    requires !Supported(s, s.workers[w].doc)
    ensures var d, s1 := s.workers[w].doc, Apply(s, Commit(w));
      d in s1.docs && !Supported(s1, d) && StillToEnd(s1, d) < StillToEnd(s, d)
  {
    var k, d, s1 := s.workers[w], s.workers[w].doc, Apply(s, Commit(w));
    IndexDoneEffect(s, w);
    SupportShrinks(s, s1, d);
    IndexDoneApplied(s, w);
    OneWorkerFurther(s, w, k);
  }

  lemma OneWorkerFurther(s: State, w: nat, k: Worker)
    requires w in s.workers && k == s.workers[w] && k.pc == IndexDone
    ensures var s1 := Goto(WriteStage(s, k.doc, IndexStage, StageDone), w, k, Some(IndexAck));
      StillToEnd(s1, k.doc) < StillToEnd(s, k.doc)
  {
    var d, s1 := k.doc, Goto(WriteStage(s, k.doc, IndexStage, StageDone), w, k, Some(IndexAck));
    assert LiveJobs(s1, d) == LiveJobs(s, d);
    assert w in AtIndexDone(s, d) && w !in AtIndexDone(s1, d);
    SubsetSize(AtIndexDone(s1, d), AtIndexDone(s, d));
  }

  lemma LastWordEnds(s: State, w: nat)
    requires Consistent(s) && w in s.workers && s.workers[w].doc in s.docs && s.workers[w].pc != IndexDone
    requires s.workers[w].job in s.jobs && Finishes(s.jobs[s.workers[w].job], s.workers[w].pc)
    requires Enabled(s, Commit(w)) && !Supported(s, s.workers[w].doc)
    ensures var d, s1 := s.workers[w].doc, Apply(s, Commit(w));
      d in s1.docs && !Supported(s1, d) && StillToEnd(s1, d) < StillToEnd(s, d)
  {
    var k, d, s1 := s.workers[w], s.workers[w].doc, Apply(s, Commit(w));
    HolderFacts(s, w);
    if OpAt(k.pc).OpAck? {
      AckEffect(s, w);
      AckApplied(s, w);
      OneJobLess(s, w, k, Acked(s.jobs, k.job));
    } else {
      LastNackEffect(s, w);
      NackApplied(s, w);
      OneJobLess(s, w, k, Nacked(s.jobs, k.job, s.now));
    }
    SameSupported(s, s1, d);
  }

  lemma OneJobLess(s: State, w: nat, k: Worker, jobs: Table)
    requires w in s.workers && k == s.workers[w] && k.job in s.jobs && s.jobs[k.job].Live()
    requires s.jobs[k.job].doc == k.doc && jobs.Keys == s.jobs.Keys && !jobs[k.job].Live()
    requires forall j | j in jobs && j != k.job :: jobs[j] == s.jobs[j]
    ensures StillToEnd(Goto(s.(jobs := jobs), w, k, None), k.doc) < StillToEnd(s, k.doc)
  {
    var d, s1 := k.doc, Goto(s.(jobs := jobs), w, k, None);
    assert k.job in LiveJobs(s, d) && k.job !in LiveJobs(s1, d);
    SubsetSize(LiveJobs(s1, d), LiveJobs(s, d));
    SubsetSize(AtIndexDone(s1, d), AtIndexDone(s, d));
  }

  lemma FinalCommits(s: State, w: nat)
    requires w in s.workers && Final(s.workers[w].pc)
    ensures Enabled(s, Commit(w))
  {
  }

  /** A document that nothing supports is lost as soon as the workers about to end its
      jobs go on; no further losing statement is needed. */
  lemma {:induction false} UnsupportedIsLost(s: State, d: nat) returns (es: seq<Event>)
    requires Inv(s) && d in s.docs && !Supported(s, d)
    ensures CanRun(s, es) && Lossless(s, es, d) && d in Run(s, es).docs && !Accounted(Run(s, es), d)
    decreases StillToEnd(s, d)
  {
    if j :| j in LiveJobs(s, d) {
      assert !Supports(s, j, d);
      var w :| w in s.workers && s.workers[w].job == j && Finishes(s.jobs[j], s.workers[w].pc);
      assert s.workers[w].doc == d by {
        assert Holds(s, s.workers[w]);
      }
      FinalCommits(s, w);
      assert !StepLoses(s, Commit(w), d) by {
        if StepLoses(s, Commit(w), d) {
          LosingIsSupported(s, Commit(w), d);
        }
      }
      if s.workers[w].pc == IndexDone {
        IndexDoneEnds(s, w);
      } else {
        LastWordEnds(s, w);
      }
      StepKeepsInv(s, Commit(w));
      var rest := UnsupportedIsLost(Apply(s, Commit(w)), d);
      es := InFront(s, Commit(w), rest, d);
    } else {
      es := [];
      assert forall j | j in s.jobs && s.jobs[j].doc == d && s.jobs[j].Live() :: j in LiveJobs(s, d);
    }
  }

  lemma InFront(s: State, e: Event, rest: seq<Event>, d: nat) returns (es: seq<Event>)
    requires Enabled(s, e) && !StepLoses(s, e, d) && CanRun(Apply(s, e), rest) && Lossless(Apply(s, e), rest, d)
    ensures CanRun(s, es) && Lossless(s, es, d) && Run(s, es) == Run(Apply(s, e), rest)
  {
    es := [e] + rest;
    assert es[1..] == rest;
  }

  /** Support is exactly what keeps a document accounted for: it is supported if and only
      if every continuation without a losing statement leaves it accounted for. */
  lemma SupportedExactly(s: State, d: nat)
    requires Inv(s) && d in s.docs
    ensures Supported(s, d) <==>
      forall es | CanRun(s, es) && Lossless(s, es, d) && d in Run(s, es).docs :: Accounted(Run(s, es), d)
  {
    if Supported(s, d) {
      forall es | CanRun(s, es) && Lossless(s, es, d) && d in Run(s, es).docs ensures Accounted(Run(s, es), d) {
        LosslessRunSupports(s, es, d);
        SupportedIsAccounted(Run(s, es), d);
      }
    } else {
      var es := UnsupportedIsLost(s, d);
    }
  }

  // ---- A condition on the run alone ----------------------------------------

  /** The index worker never gets to report a failure of this document, and the last
      attempt to purge it, if it fails, gets to report that. */
  ghost predicate Steady(s: State, e: Event, d: nat)
    requires Enabled(s, e)
  {
    && (e.Commit? && s.workers[e.w].doc == d ==> s.workers[e.w].pc != IndexErrorStage)
    && (e.Raise? && s.workers[e.w].doc == d && s.workers[e.w].pc == PurgeErrorStatus && s.workers[e.w].job in s.jobs ==>
          !Exhausted(s.jobs[s.workers[e.w].job]))
  }

  ghost predicate SteadyRun(s: State, es: seq<Event>, d: nat)
    requires CanRun(s, es)
    decreases es
  {
    es != [] ==> Steady(s, es[0], d) && SteadyRun(Apply(s, es[0]), es[1..], d)
  }

  lemma SteadyStepLosesNothing(s: State, e: Event, d: nat)
    requires Enabled(s, e) && Steady(s, e, d) && !StageFailedAt(s, d, IndexStage)
    ensures !StepLoses(s, e, d)
  {
  }

  lemma PerformKeepsIndexRow(s: State, op: Op, job: nat, doc: nat, d: nat)
    requires !StageFailedAt(s, d, IndexStage)
    requires op != OpStage(IndexStage, StageFailed) || doc != d
    requires op.OpInsert? ==> doc in s.docs
    ensures !StageFailedAt(Perform(s, op, job, doc), d, IndexStage)
  {
  }

  lemma PlanKeepsIndexRow(s: State, plan: UploadPlan, tenant: string, filename: string, checksum: string,
                          fileStored: bool, d: nat)
    requires !StageFailedAt(s, d, IndexStage)
    requires plan.Replace? ==> plan.previous in s.docs
    ensures !StageFailedAt(FollowPlan(s, plan, tenant, filename, checksum, fileStored), d, IndexStage)
  {
  }

  lemma SteadyStepKeepsIndexRow(s: State, e: Event, d: nat)
    requires Enabled(s, e) && Steady(s, e, d) && !StageFailedAt(s, d, IndexStage)
    ensures !StageFailedAt(Apply(s, e), d, IndexStage)
  {
    if e.UploadRequest? {
      PlanKeepsIndexRow(s, PlanUpload(s, e.tenant, e.filename, e.checksum), e.tenant, e.filename, e.checksum,
                        e.fileStored, d);
    } else if e.Commit? {
      PerformKeepsIndexRow(s, OpAt(s.workers[e.w].pc), s.workers[e.w].job, s.workers[e.w].doc, d);
    } else if e.Raise? {
      PerformKeepsIndexRow(s, if e.late then OpAt(s.workers[e.w].pc) else OpUpsert(e.written), s.workers[e.w].job,
                           s.workers[e.w].doc, d);
    }
  }

  lemma {:induction false} SteadyRunIsLossless(s: State, es: seq<Event>, d: nat)
    requires Inv(s) && CanRun(s, es) && SteadyRun(s, es, d)
    requires !StageFailedAt(s, d, IndexStage) && (d in s.docs ==> Supported(s, d))
    ensures d in Run(s, es).docs ==> Supported(Run(s, es), d)
    decreases es
  {
    if es == [] {
      return;
    }
    var s1 := Apply(s, es[0]);
    StepKeepsInv(s, es[0]);
    SteadyStepKeepsIndexRow(s, es[0], d);
    if d in s.docs {
      SteadyStepLosesNothing(s, es[0], d);
    }
    if d in s1.docs {
      LossExactly(s, es[0], d);
    }
    SteadyRunIsLossless(s1, es[1..], d);
  }

  /** Where neither of two statements is reached for a document, its hand-offs are safe. */
  lemma NoHandOffLostWhenSteady(s0: State, es: seq<Event>, d: nat)
    requires Init(s0) && CanRun(s0, es) && SteadyRun(s0, es, d)
    requires d in Run(s0, es).docs
    ensures Accounted(Run(s0, es), d)
  {
    SteadyRunIsLossless(s0, es, d);
    SupportedIsAccounted(Run(s0, es), d);
  }

  lemma SupportedIsAccounted(s: State, d: nat)
    requires Supported(s, d)
    ensures Accounted(s, d)
  {
    if j :| Supports(s, j, d) {
      assert j in s.jobs && s.jobs[j].doc == d && s.jobs[j].Live();
    }
  }
}
