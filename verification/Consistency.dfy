/** What every step of the pipeline keeps: foreign keys, fresh ids, exclusive ownership. */
module Consistency {
  import opened Prelude
  import opened JobQueue
  import opened Pipeline

  /** Every row refers to an existing document. */
  ghost predicate ForeignKeys(s: State) {
    && (forall k | k in s.chunks :: k.0 in s.docs)
    && (forall k | k in s.stages :: k.0 in s.docs)
    && (forall j | j in s.jobs :: s.jobs[j].doc in s.docs)
  }

  /** Ids in use are below the counters that hand out new ones. */
  ghost predicate FreshIds(s: State) {
    && (forall d | d in s.docs :: d < s.nextDoc)
    && (forall k | k in s.chunks :: s.chunks[k].id < s.nextChunk)
    && (forall j | j in s.jobs :: j < s.nextJob)
    && (forall w | w in s.workers :: s.workers[w].job < s.nextJob && s.workers[w].doc < s.nextDoc)
  }

  /** A busy worker holds a processing job of its kind and document, unless that
      document is gone; no two workers hold the same job. */
  ghost predicate Ownership(s: State) {
    && (s.phase != Up ==> s.workers == map[])
    && (forall w | w in s.workers :: Holds(s, s.workers[w]))
    && (forall v, w | v in s.workers && w in s.workers && v != w :: s.workers[v].job != s.workers[w].job)
  }

  ghost predicate Holds(s: State, k: Worker) {
    HoldsIn(s.jobs, s.docs.Keys, k)
  }

  ghost predicate HoldsIn(jobs: Table, docs: set<nat>, k: Worker) {
    if k.job in jobs then
      jobs[k.job].status == Processing && jobs[k.job].doc == k.doc && jobs[k.job].stage == KindOf(k.pc)
    else
      k.doc !in docs
  }

  ghost predicate Consistent(s: State) {
    ForeignKeys(s) && FreshIds(s) && Ownership(s)
  }

  lemma PcKeepsKind(s: State, k: Worker)
    ensures After(s, k).Some? ==> KindOf(After(s, k).value) == KindOf(k.pc)
    ensures OnRaise(k.pc).Some? ==> KindOf(OnRaise(k.pc).value) == KindOf(k.pc)
  {
  }

  /** Tables in order, and no worker other than the holder of job loses its hold. */
  ghost predicate Keeps(s: State, s1: State, job: nat) {
    && ForeignKeys(s1) && FreshIds(s1)
    && forall k: Worker | k.job != job && k.job < s.nextJob && Holds(s, k) :: Holds(s1, k)
  }

  lemma RowWritesKeep(s: State, op: Op, job: nat, d: nat)
    requires ForeignKeys(s) && FreshIds(s)
    requires op.OpStage? || op.OpStatus? || op.OpUpsert? || op.OpDropVectors? || op.OpNone?
    ensures Keeps(s, Perform(s, op, job, d), job)
  {
  }

  lemma InsertKeeps(s: State, texts: seq<string>, job: nat, d: nat)
    requires ForeignKeys(s) && FreshIds(s) && d in s.docs
    ensures Keeps(s, WriteChunks(s, d, texts), job)
  {
    assert WriteChunks(s, d, texts).docs.Keys == s.docs.Keys;
  }

  lemma VectorIdsKeep(s: State, rows: set<nat>, job: nat, d: nat)
    requires ForeignKeys(s) && FreshIds(s)
    ensures Keeps(s, WriteVectorIds(s, d, rows), job)
  {
    assert WriteVectorIds(s, d, rows).docs.Keys == s.docs.Keys;
  }

  lemma DeleteKeeps(s: State, job: nat, d: nat)
    requires ForeignKeys(s) && FreshIds(s)
    ensures Keeps(s, DeleteDoc(s, d), job)
  {
    assert DeleteDoc(s, d).docs.Keys == s.docs.Keys - {d};
  }

  lemma JobWritesKeep(s: State, op: Op, job: nat, d: nat)
    requires ForeignKeys(s) && FreshIds(s)
    requires op.OpHandOff? || op.OpAck? || op.OpNack?
    ensures Keeps(s, Perform(s, op, job, d), job)
  {
  }

  /** The worker's own hold survives every statement but the three that end its job. */
  lemma PerformKeepsOwnJob(s: State, op: Op, k: Worker)
    requires ForeignKeys(s) && FreshIds(s) && Holds(s, k) && k.job < s.nextJob
    requires op.OpInsert? ==> k.doc in s.docs
    requires !op.OpAck? && !op.OpNack? && !op.OpDelete?
    ensures Holds(Perform(s, op, k.job, k.doc), k)
  {
  }

  lemma GotoKeeps(s: State, w: nat, k: Worker, pc: Option<Pc>)
    requires ForeignKeys(s) && FreshIds(s) && s.phase == Up
    requires w in s.workers && k.job == s.workers[w].job && k.doc == s.workers[w].doc
    requires forall v | v in s.workers && v != w :: Holds(s, s.workers[v]) && s.workers[v].job != k.job
    requires forall u, v | u in s.workers && v in s.workers && u != v :: s.workers[u].job != s.workers[v].job
    requires pc.Some? ==> Holds(s, k.(pc := pc.value))
    ensures Consistent(Goto(s, w, k, pc))
  {
    var s1 := Goto(s, w, k, pc);
    forall v | v in s1.workers ensures Holds(s1, s1.workers[v]) {
      assert v != w ==> Holds(s, s.workers[v]);
    }
  }

  lemma StatementKeepsConsistency(s: State, w: nat, op: Op, pc: Option<Pc>)
    requires Consistent(s) && w in s.workers
    requires op.OpInsert? ==> s.workers[w].doc in s.docs
    requires pc.Some? ==> KindOf(pc.value) == KindOf(s.workers[w].pc)
    requires op.OpAck? || op.OpNack? || op.OpDelete? ==> pc == None
    ensures var k := s.workers[w]; Consistent(Goto(Perform(s, op, k.job, k.doc), w, k, pc))
  {
    var k := s.workers[w];
    match op {
      case OpInsert(texts) => InsertKeeps(s, texts, k.job, k.doc);
      case OpVectorIds(rows) => VectorIdsKeep(s, rows, k.job, k.doc);
      case OpHandOff(_) => JobWritesKeep(s, op, k.job, k.doc);
      case OpAck => JobWritesKeep(s, op, k.job, k.doc);
      case OpNack => JobWritesKeep(s, op, k.job, k.doc);
      case OpDelete => DeleteKeeps(s, k.job, k.doc);
      case _ => RowWritesKeep(s, op, k.job, k.doc);
    }
    if pc.Some? {
      PerformKeepsOwnJob(s, op, k);
    }
    GotoKeeps(Perform(s, op, k.job, k.doc), w, k, pc);
  }

  lemma WritesKeepConsistency(s: State, d: nat, name: StageName, stage: StageStatus, status: DocStatus)
    requires Consistent(s)
    ensures Consistent(WriteStage(s, d, name, stage)) && Consistent(WriteStatus(s, d, status))
  {
    assert WriteStatus(s, d, status).docs.Keys == s.docs.Keys;
  }

  lemma AddJobKeepsConsistency(s: State, d: nat, stage: Stage)
    requires Consistent(s)
    ensures Consistent(AddJob(s, d, stage))
  {
  }

  lemma RequestPurgeKeepsConsistency(s: State, d: nat)
    requires Consistent(s)
    ensures Consistent(RequestPurge(s, d))
  {
    WritesKeepConsistency(s, d, ParseStage, StagePending, Deleting);
    AddJobKeepsConsistency(WriteStatus(s, d, Deleting).(purgeRequested := s.purgeRequested + {d}), d, Purge);
  }

  lemma RequeueKeepsConsistency(s: State, d: nat)
    requires Consistent(s)
    ensures Consistent(Requeue(s, d))
  {
    var s1 := s.(docs := WithStatus(s.docs, d, DocPending), stages := ResetStages(s, d));
    assert Consistent(s1) by {
      assert s1.docs.Keys == s.docs.Keys;
    }
    AddJobKeepsConsistency(s1, d, Ingest);
  }

  lemma AddDocumentKeepsConsistency(s: State, tenant: string, filename: string, checksum: string)
    requires Consistent(s) && s.phase == Up
    ensures Consistent(AddDocument(s, tenant, filename, checksum))
  {
  }

  lemma PlanKeepsConsistency(s: State, plan: UploadPlan, tenant: string, filename: string, checksum: string,
                             fileStored: bool)
    requires Consistent(s) && s.phase == Up
    requires plan.Replace? ==> plan.previous in s.docs
    ensures Consistent(FollowPlan(s, plan, tenant, filename, checksum, fileStored))
  {
    match plan
    case Ignore =>
    case Retry(d) => RequeueKeepsConsistency(s, d);
    case Add => AddDocumentKeepsConsistency(s, tenant, filename, checksum);
    case Replace(d) =>
      RequestPurgeKeepsConsistency(s, d);
      var s1 := if s.docs[d].checksum != checksum then RequestPurge(s, d) else s;
      AddDocumentKeepsConsistency(s1, tenant, filename, checksum);
  }

  lemma StepKeepsConsistency(s: State, e: Event)
    requires Consistent(s) && Enabled(s, e)
    ensures Consistent(Apply(s, e))
  {
    match e
    case UploadRequest(tenant, filename, checksum, fileStored) =>
      PlanKeepsConsistency(s, PlanUpload(s, tenant, filename, checksum), tenant, filename, checksum, fileStored);
    case ReprocessRequest(d) => RequeueKeepsConsistency(s, d);
    case DeleteRequest(d) => RequestPurgeKeepsConsistency(s, d);
    case Commit(w) =>
      CommitKeepsConsistency(s, w);
    case Parsed(w, _) => ResultKeepsConsistency(s, e, w);
    case Split(w, _) => ResultKeepsConsistency(s, e, w);
    case Raise(w, written, late) =>
      RaiseKeepsConsistency(s, w, written, late);
    case Claim(w, j) => ClaimKeepsConsistency(s, w, j);
    case _ => RestartKeepsConsistency(s, e);
  }

  lemma RestartKeepsConsistency(s: State, e: Event)
    requires Consistent(s) && Enabled(s, e)
    requires e.Tick? || e.Crash? || e.Recover? || e.Cleanup?
    ensures Consistent(Apply(s, e))
  {
  }

  lemma CommitKeepsConsistency(s: State, w: nat)
    requires Consistent(s) && Enabled(s, Commit(w))
    ensures Consistent(Apply(s, Commit(w)))
  {
    var k := s.workers[w];
    PcKeepsKind(s, k);
    StatementKeepsConsistency(s, w, OpAt(k.pc), After(s, k));
  }

  lemma ResultKeepsConsistency(s: State, e: Event, w: nat)
    requires Consistent(s) && Enabled(s, e)
    requires (e.Parsed? || e.Split?) && e.w == w
    ensures Consistent(Apply(s, e))
  {
    var pc := Apply(s, e).workers[w].pc;
    assert KindOf(pc) == Ingest;
    GotoKeeps(s, w, s.workers[w], Some(pc));
  }

  lemma RaiseKeepsConsistency(s: State, w: nat, written: set<nat>, late: bool)
    requires Consistent(s) && Enabled(s, Raise(w, written, late))
    ensures Consistent(Apply(s, Raise(w, written, late)))
  {
    var k := s.workers[w];
    PcKeepsKind(s, k);
    StatementKeepsConsistency(s, w, if late then OpAt(k.pc) else OpUpsert(written), OnRaise(k.pc));
  }

  lemma ClaimKeepsConsistency(s: State, w: nat, j: nat)
    requires Consistent(s) && Enabled(s, Claim(w, j))
    ensures Consistent(Apply(s, Claim(w, j)))
  {
    var s1 := Apply(s, Claim(w, j));
    forall v | v in s1.workers ensures Holds(s1, s1.workers[v]) {
      if v != w {
        assert Holds(s, s.workers[v]);
      }
    }
    forall u, v | u in s1.workers && v in s1.workers && u != v ensures s1.workers[u].job != s1.workers[v].job {
      assert u != w ==> Holds(s, s.workers[u]);
      assert v != w ==> Holds(s, s.workers[v]);
    }
  }
}
