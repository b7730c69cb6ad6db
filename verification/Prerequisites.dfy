/**
 Stage prerequisites: an embed job finds chunks, an index job finds every chunk stored
 with its vector.

 The statements are about one document d that nobody has asked to purge, in runs where
 parsing and chunking it always gives the same list T.
 */
module Prerequisites {
  import opened Prelude
  import opened JobQueue
  import opened Pipeline
  import opened Consistency
  import opened Ownership
  import opened ChunkRows
  import H = HandOff

  // ---- Invariants about all documents --------------------------------------

  /** The ids a worker has read were never given to a row of another document. */
  ghost predicate RowIdsOwned(s: State, k: Worker) {
    forall id | id in RowsOf(k.pc) ::
      id < s.nextChunk && forall r | r in s.chunks && s.chunks[r].id == id :: r.0 == k.doc
  }

  ghost predicate Grounded(s: State) {
    && Consistent(s) && WellIndexed(s.chunks)
    && (forall w | w in s.workers :: RowIdsOwned(s, s.workers[w]))
    && PurgesRequested(s.jobs, s.purgeRequested)
  }

  lemma StepKeepsRowIdsOwned(s: State, e: Event)
    requires Grounded(s) && Enabled(s, e)
    ensures forall w | w in Apply(s, e).workers :: RowIdsOwned(Apply(s, e), Apply(s, e).workers[w])
  {
    var s1 := Apply(s, e);
    StepKeepsConsistency(s, e);
    StepEvolvesChunks(s, e);
    forall w | w in s1.workers ensures RowsMove(s, s1, w) {
      WorkerMoves(s, e, w);
    }
    AllRowsStayOwned(s, s1);
  }

  lemma AllRowsStayOwned(s: State, s1: State)
    requires Grounded(s) && ChunksEvolve(s, s1) && ForeignKeys(s1)
    requires forall w | w in s1.workers :: RowsMove(s, s1, w)
    ensures forall w | w in s1.workers :: RowIdsOwned(s1, s1.workers[w])
  {
    forall w | w in s1.workers ensures RowIdsOwned(s1, s1.workers[w]) {
      if RowsOf(s1.workers[w].pc) != {} {
        RowsStayOwned(s, s1, s.workers[w], s1.workers[w]);
      }
    }
  }

  lemma RowsStayOwned(s: State, s1: State, k: Worker, k1: Worker)
    requires Consistent(s) && WellIndexed(s.chunks) && ChunksEvolve(s, s1) && ForeignKeys(s1)
    requires RowIdsOwned(s, k) && k1.doc == k.doc
    requires RowsOf(k1.pc) == RowsOf(k.pc) || RowsOf(k1.pc) == RowIds(s, k.doc)
    ensures RowIdsOwned(s1, k1)
  {
  }

  /** Whoever enqueues a purge job has recorded the request. */
  ghost predicate PurgesRequested(jobs: Table, requested: set<nat>) {
    forall j | j in jobs && jobs[j].stage == Purge :: jobs[j].doc in requested
  }

  lemma PerformKeepsPurges(s: State, op: Op, k: Worker)
    requires PurgesRequested(s.jobs, s.purgeRequested) && op != OpHandOff(Purge)
    requires op.OpInsert? ==> k.doc in s.docs
    ensures PurgesRequested(Perform(s, op, k.job, k.doc).jobs, s.purgeRequested)
  {
  }

  lemma PlanKeepsPurges(s: State, plan: UploadPlan, tenant: string, filename: string, checksum: string,
                        fileStored: bool)
    requires PurgesRequested(s.jobs, s.purgeRequested)
    requires plan.Replace? ==> plan.previous in s.docs
    ensures var s1 := FollowPlan(s, plan, tenant, filename, checksum, fileStored);
      PurgesRequested(s1.jobs, s1.purgeRequested) && s.purgeRequested <= s1.purgeRequested
  {
  }

  lemma StepKeepsPurges(s: State, e: Event)
    requires PurgesRequested(s.jobs, s.purgeRequested) && Enabled(s, e)
    ensures PurgesRequested(Apply(s, e).jobs, Apply(s, e).purgeRequested)
    ensures s.purgeRequested <= Apply(s, e).purgeRequested
  {
    if e.UploadRequest? {
      PlanKeepsPurges(s, PlanUpload(s, e.tenant, e.filename, e.checksum), e.tenant, e.filename, e.checksum,
                      e.fileStored);
    } else if e.Commit? {
      PerformKeepsPurges(s, OpAt(s.workers[e.w].pc), s.workers[e.w]);
    } else if e.Raise? {
      var op := RaiseApplied(s, e.w, e.written, e.late);
      PerformKeepsPurges(s, op, s.workers[e.w]);
    }
  }

  lemma StepKeepsGrounded(s: State, e: Event)
    requires Grounded(s) && Enabled(s, e)
    ensures Grounded(Apply(s, e))
  {
    StepKeepsConsistency(s, e);
    StepKeepsWellIndexed(s, e);
    StepKeepsRowIdsOwned(s, e);
    StepKeepsPurges(s, e);
  }

  // ---- Invariants about one document ---------------------------------------

  ghost predicate Empty(s: State, d: nat) {
    forall k | k in s.chunks :: k.0 != d
  }

  /** The document has exactly the chunks of T. */
  ghost predicate Full(s: State, d: nat, T: seq<string>) {
    && T != []
    && (forall i: nat | i < |T| :: (d, i) in s.chunks && s.chunks[(d, i)].text == T[i])
    && (forall k | k in s.chunks && k.0 == d :: k.1 < |T|)
  }

  predicate Stored(s: State, d: nat, id: nat) {
    id in s.vectors && s.vectors[id] == d
  }

  /** Every chunk row carries its own id as vector_id and has a point under that id. */
  ghost predicate Vectorised(s: State, d: nat) {
    forall k | k in s.chunks && k.0 == d ::
      s.chunks[k].vectorId == Some(s.chunks[k].id) && Stored(s, d, s.chunks[k].id)
  }

  ghost predicate WorkerOk(s: State, pc: Pc, d: nat, T: seq<string>) {
    match pc
    case StoreChunks(texts) => texts == T && T != []
    case ChunkDone | EnqueueEmbed => Full(s, d, T)
    case Upsert(rows) => Full(s, d, T) && rows == RowIds(s, d)
    case StoreVectorIds(rows) => Full(s, d, T) && rows == RowIds(s, d) && forall id | id in rows :: Stored(s, d, id)
    case EmbedDone | EnqueueIndex => Full(s, d, T) && Vectorised(s, d)
    case _ => JobOk(s, KindOf(pc), d, T)
  }

  ghost predicate JobOk(s: State, stage: Stage, d: nat, T: seq<string>) {
    match stage
    case Ingest => true
    case Embed => Full(s, d, T)
    case Index => Full(s, d, T) && Vectorised(s, d)
    case Purge => false
  }

  ghost predicate Ready(s: State, d: nat, T: seq<string>) {
    && (Empty(s, d) || Full(s, d, T))
    && (forall w | w in s.workers && s.workers[w].doc == d :: WorkerOk(s, s.workers[w].pc, d, T))
    && (forall j | j in s.jobs && s.jobs[j].doc == d :: JobOk(s, s.jobs[j].stage, d, T))
  }

  /** Chunks, once there, and their points stay. */
  ghost predicate Stable(s: State, s1: State, d: nat, T: seq<string>) {
    && (Empty(s1, d) || Full(s1, d, T))
    && (Full(s, d, T) ==> Full(s1, d, T) && RowIds(s1, d) == RowIds(s, d))
    && (Full(s, d, T) && Vectorised(s, d) ==> Vectorised(s1, d))
    && (forall id | id in RowIds(s, d) && Stored(s, d, id) :: Stored(s1, d, id))
  }

  lemma SameTablesStable(s: State, s1: State, d: nat, T: seq<string>)
    requires s1.chunks == s.chunks && s1.vectors == s.vectors && (Empty(s, d) || Full(s, d, T))
    ensures Stable(s, s1, d, T)
  {
  }

  lemma InsertElsewhere(s: State, d: nat, T: seq<string>, k: Worker, texts: seq<string>)
    requires (Empty(s, d) || Full(s, d, T)) && k.doc in s.docs && k.doc != d
    ensures Stable(s, WriteChunks(s, k.doc, texts), d, T)
  {
    var s1 := WriteChunks(s, k.doc, texts);
    assert forall r | r in s1.chunks && r.0 == d :: r in s.chunks && s1.chunks[r] == s.chunks[r];
    assert RowIds(s1, d) == RowIds(s, d);
  }

  lemma InsertStable(s: State, d: nat, T: seq<string>, k: Worker, texts: seq<string>)
    requires (Empty(s, d) || Full(s, d, T)) && k.doc in s.docs && (k.doc == d ==> texts == T && T != [])
    ensures Stable(s, WriteChunks(s, k.doc, texts), d, T)
    ensures k.doc == d ==> Full(WriteChunks(s, k.doc, texts), d, T)
  {
    var s1 := WriteChunks(s, k.doc, texts);
    if k.doc != d {
      InsertElsewhere(s, d, T, k, texts);
    } else if Full(s, d, T) {
      assert s1.chunks.Keys == s.chunks.Keys;
      assert s1.chunks == s.chunks;
    } else {
      assert forall i: nat | i < |T| :: (d, i) in ChunkKeys(d, |T|);
    }
  }

  lemma UpsertStable(s: State, d: nat, T: seq<string>, k: Worker, rows: set<nat>)
    requires (Empty(s, d) || Full(s, d, T)) && RowIdsOwned(s, k) && rows <= RowsOf(k.pc)
    ensures Stable(s, AddPoints(s, k.doc, rows), d, T)
    ensures k.doc == d ==> forall id | id in rows :: Stored(AddPoints(s, k.doc, rows), d, id)
  {
    var s1 := AddPoints(s, k.doc, rows);
    assert forall id | id in RowIds(s, d) && Stored(s, d, id) :: Stored(s1, d, id);
    if Full(s, d, T) && Vectorised(s, d) {
      forall r | r in s.chunks && r.0 == d ensures Stored(s1, d, s.chunks[r].id) {
        assert s.chunks[r].id in RowIds(s, d);
      }
    }
  }

  lemma VectorIdsStable(s: State, d: nat, T: seq<string>, k: Worker, rows: set<nat>)
    requires (Empty(s, d) || Full(s, d, T)) && RowIdsOwned(s, k) && rows <= RowsOf(k.pc)
    ensures Stable(s, WriteVectorIds(s, k.doc, rows), d, T)
    ensures k.doc == d && rows == RowIds(s, d) && (forall id | id in rows :: Stored(s, d, id)) ==>
      Vectorised(WriteVectorIds(s, k.doc, rows), d)
  {
    var s1 := WriteVectorIds(s, k.doc, rows);
    assert forall r | r in s.chunks && r.0 == d :: s.chunks[r].id in RowIds(s, d);
    assert RowIds(s1, d) == RowIds(s, d);
  }

  lemma DeletionStable(s: State, d: nat, T: seq<string>, other: nat)
    requires (Empty(s, d) || Full(s, d, T)) && other != d
    ensures Stable(s, DeleteDoc(s, other), d, T)
    ensures Stable(s, s.(vectors := map id | id in s.vectors && s.vectors[id] != other :: s.vectors[id]), d, T)
  {
    var s1 := DeleteDoc(s, other);
    assert forall r | r in s.chunks && r.0 == d :: r in s1.chunks;
    assert RowIds(s1, d) == RowIds(s, d);
  }

  lemma PerformStable(s: State, d: nat, T: seq<string>, op: Op, k: Worker)
    requires (Empty(s, d) || Full(s, d, T)) && RowIdsOwned(s, k)
    requires op.OpInsert? ==> k.doc in s.docs && (k.doc == d ==> op.texts == T && T != [])
    requires op.OpUpsert? || op.OpVectorIds? ==> op.rows <= RowsOf(k.pc)
    requires op.OpDelete? || op.OpDropVectors? ==> k.doc != d
    ensures Stable(s, Perform(s, op, k.job, k.doc), d, T)
  {
    match op
    case OpInsert(texts) => InsertStable(s, d, T, k, texts);
    case OpUpsert(rows) => UpsertStable(s, d, T, k, rows);
    case OpVectorIds(rows) =>
      VectorIdsStable(s, d, T, k, rows);
      SameTablesStable(s, s, d, T);
    case OpDropVectors => DeletionStable(s, d, T, k.doc);
    case OpDelete => DeletionStable(s, d, T, k.doc);
    case _ => SameTablesStable(s, Perform(s, op, k.job, k.doc), d, T);
  }

  lemma OkStays(s: State, s1: State, pc: Pc, d: nat, T: seq<string>)
    requires WorkerOk(s, pc, d, T) && Stable(s, s1, d, T)
    ensures WorkerOk(s1, pc, d, T)
  {
  }

  // ---- Steps ---------------------------------------------------------------

  /** The parse and chunk statement gives T for this document. */
  ghost predicate Deterministic(s: State, e: Event, d: nat, T: seq<string>)
    requires Enabled(s, e)
  {
    e.Split? && s.workers[e.w].doc == d ==> e.texts == T
  }

  /** What the next statement relies on, the current one has established. */
  lemma CommitOk(s: State, k: Worker, d: nat, T: seq<string>)
    requires k.doc == d && d in s.docs && WorkerOk(s, k.pc, d, T) && (Empty(s, d) || Full(s, d, T))
    requires RowIdsOwned(s, k) && (JobOk(s, KindOf(k.pc), d, T))
    requires k.pc != Fetch && k.pc != MakeChunks && After(s, k).Some?
    ensures WorkerOk(Effect(s, k), After(s, k).value, d, T)
  {
    if WritesChunkData(k.pc) {
      WritingCommitOk(s, k, d, T);
    } else {
      PlainCommitOk(s, k, d, T);
    }
  }

  lemma WritingCommitOk(s: State, k: Worker, d: nat, T: seq<string>)
    requires k.doc == d && d in s.docs && WorkerOk(s, k.pc, d, T) && (Empty(s, d) || Full(s, d, T))
    requires RowIdsOwned(s, k) && JobOk(s, KindOf(k.pc), d, T) && WritesChunkData(k.pc)
    ensures After(s, k).Some? ==> WorkerOk(Effect(s, k), After(s, k).value, d, T)
  {
    NotPurging(s, k.pc, d, T);
    if k.pc.StoreChunks? {
      StoreChunksOk(s, k, d, T);
    } else if k.pc.Upsert? {
      UpsertOk(s, k, d, T);
    } else {
      StoreVectorIdsOk(s, k, d, T);
    }
  }

  lemma NotPurging(s: State, pc: Pc, d: nat, T: seq<string>)
    requires JobOk(s, KindOf(pc), d, T)
    ensures pc != PurgeVectors && pc != PurgeDelete
  {
  }

  lemma StoreChunksOk(s: State, k: Worker, d: nat, T: seq<string>)
    requires k.doc == d && d in s.docs && k.pc.StoreChunks? && WorkerOk(s, k.pc, d, T) && (Empty(s, d) || Full(s, d, T))
    ensures WorkerOk(Effect(s, k), After(s, k).value, d, T)
  {
    InsertStable(s, d, T, k, k.pc.texts);
  }

  lemma UpsertOk(s: State, k: Worker, d: nat, T: seq<string>)
    requires k.doc == d && k.pc.Upsert? && WorkerOk(s, k.pc, d, T) && RowIdsOwned(s, k)
    ensures WorkerOk(Effect(s, k), After(s, k).value, d, T)
  {
    UpsertStable(s, d, T, k, k.pc.rows);
  }

  lemma StoreVectorIdsOk(s: State, k: Worker, d: nat, T: seq<string>)
    requires k.doc == d && k.pc.StoreVectorIds? && WorkerOk(s, k.pc, d, T) && RowIdsOwned(s, k)
    ensures WorkerOk(Effect(s, k), After(s, k).value, d, T)
  {
    VectorIdsStable(s, d, T, k, k.pc.rows);
  }

  predicate WritesChunkData(pc: Pc) {
    pc.StoreChunks? || pc.Upsert? || pc.StoreVectorIds? || pc == PurgeDelete || pc == PurgeVectors
  }

  lemma PlainCommitOk(s: State, k: Worker, d: nat, T: seq<string>)
    requires k.doc == d && d in s.docs && WorkerOk(s, k.pc, d, T) && (Empty(s, d) || Full(s, d, T))
    requires JobOk(s, KindOf(k.pc), d, T) && !WritesChunkData(k.pc)
    requires k.pc != Fetch && k.pc != MakeChunks && After(s, k).Some?
    ensures WorkerOk(Effect(s, k), After(s, k).value, d, T)
  {
    SameTablesStable(s, Effect(s, k), d, T);
    NextPcOk(s, k, d, T);
    OkStays(s, Effect(s, k), After(s, k).value, d, T);
  }

  lemma NextPcOk(s: State, k: Worker, d: nat, T: seq<string>)
    requires k.doc == d && d in s.docs && WorkerOk(s, k.pc, d, T) && JobOk(s, KindOf(k.pc), d, T)
    requires !WritesChunkData(k.pc) && k.pc != Fetch && k.pc != MakeChunks && After(s, k).Some?
    ensures WorkerOk(s, After(s, k).value, d, T)
  {
    if KindOf(k.pc) == Embed {
      NextEmbedPcOk(s, k, d, T);
    } else {
      assert KindOf(After(s, k).value) == KindOf(k.pc);
    }
  }

  lemma NextEmbedPcOk(s: State, k: Worker, d: nat, T: seq<string>)
    requires k.doc == d && d in s.docs && WorkerOk(s, k.pc, d, T) && Full(s, d, T) && KindOf(k.pc) == Embed
    requires !k.pc.Upsert? && !k.pc.StoreVectorIds? && After(s, k).Some?
    ensures WorkerOk(s, After(s, k).value, d, T)
  {
  }

  lemma OpFacts(s: State, k: Worker, d: nat, T: seq<string>)
    requires WorkerOk(s, k.pc, d, T) && k.doc == d
    requires k.pc.StoreChunks? ==> d in s.docs
    ensures !OpAt(k.pc).OpDelete? && !OpAt(k.pc).OpDropVectors?
    ensures OpAt(k.pc).OpInsert? ==> OpAt(k.pc).texts == T && T != []
    ensures OpAt(k.pc).OpHandOff? ==> OpAt(k.pc).stage != Purge && JobOk(s, OpAt(k.pc).stage, d, T)
    ensures OnRaise(k.pc).Some? ==> WorkerOk(s, OnRaise(k.pc).value, d, T) || !JobOk(s, KindOf(k.pc), d, T)
  {
  }

  lemma OpRows(pc: Pc)
    ensures OpAt(pc).OpUpsert? || OpAt(pc).OpVectorIds? ==> OpAt(pc).rows == RowsOf(pc)
  {
  }

  /** A job of the document that a busy worker holds justifies the worker's kind. */
  lemma HeldJobOk(s: State, k: Worker, d: nat, T: seq<string>)
    requires Holds(s, k) && k.doc == d && d in s.docs
    requires forall j | j in s.jobs && s.jobs[j].doc == d :: JobOk(s, s.jobs[j].stage, d, T)
    ensures JobOk(s, KindOf(k.pc), d, T)
  {
  }

  /** Worker w does op and moves to pc, both fine for the document; the rest stays. */
  lemma StatementKeepsReady(s: State, w: nat, op: Op, pc: Option<Pc>, d: nat, T: seq<string>)
    requires Grounded(s) && w in s.workers && d in s.docs && Ready(s, d, T)
    requires op.OpInsert? ==> s.workers[w].doc in s.docs
    requires var k := s.workers[w];
      && (op.OpInsert? && k.doc == d ==> op.texts == T && T != [])
      && (op.OpUpsert? || op.OpVectorIds? ==> op.rows <= RowsOf(k.pc))
      && (op.OpDelete? || op.OpDropVectors? ==> k.doc != d)
      && (op.OpHandOff? && k.doc == d ==> JobOk(s, op.stage, d, T))
      && (k.doc == d && pc.Some? ==> WorkerOk(Perform(s, op, k.job, k.doc), pc.value, d, T))
    ensures var k := s.workers[w]; Ready(Goto(Perform(s, op, k.job, k.doc), w, k, pc), d, T)
  {
    var k := s.workers[w];
    var s0 := Perform(s, op, k.job, k.doc);
    PerformStable(s, d, T, op, k);
    PerformEvolves(s, op, k);
    StableKeepsReady(s, s0, d, T);
    GotoKeepsReady(s0, w, k, pc, d, T);
  }

  lemma GotoKeepsReady(s0: State, w: nat, k: Worker, pc: Option<Pc>, d: nat, T: seq<string>)
    requires Ready(s0, d, T) && w in s0.workers && s0.workers[w] == k
    requires k.doc == d && pc.Some? ==> WorkerOk(s0, pc.value, d, T)
    ensures Ready(Goto(s0, w, k, pc), d, T)
  {
    var s1 := Goto(s0, w, k, pc);
    SameTablesStable(s0, s1, d, T);
    forall v | v in s1.workers && s1.workers[v].doc == d ensures WorkerOk(s1, s1.workers[v].pc, d, T) {
      OkStays(s0, s1, s1.workers[v].pc, d, T);
    }
    forall j | j in s1.jobs && s1.jobs[j].doc == d ensures JobOk(s1, s1.jobs[j].stage, d, T) {
      JobOkStays(s0, s1, s1.jobs[j].stage, d, T);
    }
  }

  lemma JobOkStays(s: State, s1: State, stage: Stage, d: nat, T: seq<string>)
    requires JobOk(s, stage, d, T) && Stable(s, s1, d, T)
    ensures JobOk(s1, stage, d, T)
  {
  }

  /** Old jobs keep their stage, new ones must be justified, workers are as before. */
  lemma StableKeepsReady(s: State, s1: State, d: nat, T: seq<string>)
    requires Ready(s, d, T) && Stable(s, s1, d, T) && AllEvolve(s, s1)
    requires forall w | w in s1.workers :: w in s.workers && s1.workers[w] == s.workers[w]
    requires forall j | j in s1.jobs && j !in s.jobs && s1.jobs[j].doc == d :: JobOk(s, s1.jobs[j].stage, d, T)
    ensures Ready(s1, d, T)
  {
    forall w | w in s1.workers && s1.workers[w].doc == d ensures WorkerOk(s1, s1.workers[w].pc, d, T) {
      OkStays(s, s1, s1.workers[w].pc, d, T);
    }
    forall j | j in s1.jobs && s1.jobs[j].doc == d ensures JobOk(s1, s1.jobs[j].stage, d, T) {
      if j in s.jobs {
        assert Evolves(s, s1, j);
        assert s1.jobs[j].stage == s.jobs[j].stage && s1.jobs[j].doc == s.jobs[j].doc;
      }
      JobOkStays(s, s1, s1.jobs[j].stage, d, T);
    }
  }

  lemma CommitKeepsReady(s: State, w: nat, d: nat, T: seq<string>)
    requires Grounded(s) && Enabled(s, Commit(w)) && d in s.docs && Ready(s, d, T)
    ensures Ready(Apply(s, Commit(w)), d, T)
  {
    var k := s.workers[w];
    assert Holds(s, k) && RowIdsOwned(s, k);
    OpRows(k.pc);
    if k.doc == d {
      HeldJobOk(s, k, d, T);
      OpFacts(s, k, d, T);
      if After(s, k).Some? {
        CommitOk(s, k, d, T);
      }
    }
    StatementKeepsReady(s, w, OpAt(k.pc), After(s, k), d, T);
  }

  lemma RaisedOk(s: State, k: Worker, op: Op, d: nat, T: seq<string>)
    requires Ready(s, d, T) && d in s.docs && Holds(s, k) && RowIdsOwned(s, k) && k.doc == d
    requires WorkerOk(s, k.pc, d, T) && (k.pc.StoreChunks? ==> d in s.docs)
    requires (op == OpAt(k.pc) && op.OpHandOff?) || (op.OpUpsert? && op.rows <= RowsOf(k.pc))
    ensures op.OpHandOff? ==> JobOk(s, op.stage, d, T)
    ensures OnRaise(k.pc).Some? ==> WorkerOk(Perform(s, op, k.job, d), OnRaise(k.pc).value, d, T)
  {
    HeldJobOk(s, k, d, T);
    OpFacts(s, k, d, T);
    OwnRaiseOk(s, k, op, d, T);
  }

  lemma RaiseKeepsReady(s: State, w: nat, written: set<nat>, late: bool, d: nat, T: seq<string>)
    requires Grounded(s) && Enabled(s, Raise(w, written, late)) && d in s.docs && Ready(s, d, T)
    ensures Ready(Apply(s, Raise(w, written, late)), d, T)
  {
    var k := s.workers[w];
    var op := RaiseApplied(s, w, written, late);
    RaisedRows(s, w, written, late);
    if k.doc == d {
      RaisedOk(s, k, op, d, T);
    }
    StatementKeepsReady(s, w, op, OnRaise(k.pc), d, T);
  }

  /** All that a raising statement may have done is a hand-off or a part of its upsert. */
  lemma RaisedRows(s: State, w: nat, written: set<nat>, late: bool)
    requires Grounded(s) && Enabled(s, Raise(w, written, late))
    ensures var k := s.workers[w]; Holds(s, k) && RowIdsOwned(s, k) && written <= RowsOf(k.pc)
    ensures late ==> OpAt(s.workers[w].pc).OpHandOff?
  {
  }

  lemma OwnRaiseOk(s: State, k: Worker, op: Op, d: nat, T: seq<string>)
    requires k.doc == d && (Empty(s, d) || Full(s, d, T)) && RowIdsOwned(s, k)
    requires op.OpHandOff? || (op.OpUpsert? && op.rows <= RowsOf(k.pc))
    requires OnRaise(k.pc).Some? ==> WorkerOk(s, OnRaise(k.pc).value, d, T)
    ensures OnRaise(k.pc).Some? ==> WorkerOk(Perform(s, op, k.job, d), OnRaise(k.pc).value, d, T)
  {
    if OnRaise(k.pc).Some? {
      PerformStable(s, d, T, op, k);
      OkStays(s, Perform(s, op, k.job, d), OnRaise(k.pc).value, d, T);
    }
  }

  lemma ResultKeepsReady(s: State, e: Event, w: nat, d: nat, T: seq<string>)
    requires Grounded(s) && Enabled(s, e) && Deterministic(s, e, d, T) && d in s.docs && Ready(s, d, T)
    requires (e.Parsed? || e.Split?) && e.w == w
    ensures Ready(Apply(s, e), d, T)
  {
    GotoKeepsReady(s, w, s.workers[w], Some(Apply(s, e).workers[w].pc), d, T);
  }

  lemma StartOk(s: State, stage: Stage, d: nat, T: seq<string>)
    requires JobOk(s, stage, d, T)
    ensures WorkerOk(s, Start(stage), d, T)
  {
  }

  lemma ClaimKeepsReady(s: State, w: nat, j: nat, d: nat, T: seq<string>)
    requires Enabled(s, Claim(w, j)) && Ready(s, d, T)
    ensures Ready(Apply(s, Claim(w, j)), d, T)
  {
    var s1 := Apply(s, Claim(w, j));
    SameTablesStable(s, s1, d, T);
    forall v | v in s1.workers && s1.workers[v].doc == d ensures WorkerOk(s1, s1.workers[v].pc, d, T) {
      if v == w {
        StartOk(s, s.jobs[j].stage, d, T);
      }
      OkStays(s, s1, s1.workers[v].pc, d, T);
    }
    forall i | i in s1.jobs && s1.jobs[i].doc == d ensures JobOk(s1, s1.jobs[i].stage, d, T) {
      JobOkStays(s, s1, s1.jobs[i].stage, d, T);
    }
  }

  lemma PauseKeepsReady(s: State, e: Event, d: nat, T: seq<string>)
    requires Grounded(s) && Enabled(s, e) && d in s.docs && Ready(s, d, T)
    requires e.Tick? || e.Crash? || e.Recover? || e.Cleanup?
    ensures Ready(Apply(s, e), d, T)
  {
    SameTablesStable(s, Apply(s, e), d, T);
    StepEvolves(s, e);
    StableKeepsReady(s, Apply(s, e), d, T);
  }

  /** A request adds ingest jobs, or purge jobs of documents that are then on record. */
  lemma RequestJobs(s: State, e: Event)
    requires Grounded(s) && Enabled(s, e) && IsRequest(e)
    ensures forall j | j in Apply(s, e).jobs && j !in s.jobs ::
      Apply(s, e).jobs[j].stage == Ingest || Apply(s, e).jobs[j].doc in Apply(s, e).purgeRequested
  {
    if e.UploadRequest? {
      PlanJobs(s, PlanUpload(s, e.tenant, e.filename, e.checksum), e.tenant, e.filename, e.checksum, e.fileStored);
    }
  }

  lemma PlanJobs(s: State, plan: UploadPlan, tenant: string, filename: string, checksum: string, fileStored: bool)
    requires plan.Replace? ==> plan.previous in s.docs
    ensures var s1 := FollowPlan(s, plan, tenant, filename, checksum, fileStored);
      forall j | j in s1.jobs && j !in s.jobs :: s1.jobs[j].stage == Ingest || s1.jobs[j].doc in s1.purgeRequested
  {
  }

  lemma RequestKeepsReady(s: State, e: Event, d: nat, T: seq<string>)
    requires Grounded(s) && Enabled(s, e) && IsRequest(e) && (d in s.docs ==> Ready(s, d, T))
    requires d in Apply(s, e).docs && d !in Apply(s, e).purgeRequested
    ensures Ready(Apply(s, e), d, T)
  {
    RequestOnlyAddsJobs(s, e);
    RequestJobs(s, e);
    AddingKeepsReady(s, Apply(s, e), d, T);
  }

  lemma AddingKeepsReady(s: State, s1: State, d: nat, T: seq<string>)
    requires Grounded(s) && OnlyAddsJobs(s, s1) && (d in s.docs ==> Ready(s, d, T)) && d in s1.docs
    requires forall j | j in s1.jobs && j !in s.jobs && s1.jobs[j].doc == d :: s1.jobs[j].stage == Ingest
    ensures Ready(s1, d, T)
  {
    if d in s.docs {
      SameTablesStable(s, s1, d, T);
      AddingEvolves(s, s1);
      StableKeepsReady(s, s1, d, T);
    } else {
      assert d >= s.nextDoc;
      assert Empty(s1, d);
    }
  }

  lemma StepKeepsReady(s: State, e: Event, d: nat, T: seq<string>)
    requires Grounded(s) && Enabled(s, e) && Deterministic(s, e, d, T)
    requires d in s.docs ==> Ready(s, d, T)
    requires d in Apply(s, e).docs && d !in Apply(s, e).purgeRequested
    ensures Ready(Apply(s, e), d, T)
  {
    if IsRequest(e) {
      RequestKeepsReady(s, e, d, T);
    } else {
      H.OldDocument(s, e, d);
      match e
      case Claim(w, j) => ClaimKeepsReady(s, w, j, d, T);
      case Commit(w) => CommitKeepsReady(s, w, d, T);
      case Raise(w, written, late) => RaiseKeepsReady(s, w, written, late, d, T);
      case Parsed(w, _) => ResultKeepsReady(s, e, w, d, T);
      case Split(w, _) => ResultKeepsReady(s, e, w, d, T);
      case Tick(_) => PauseKeepsReady(s, e, d, T);
      case Crash => PauseKeepsReady(s, e, d, T);
      case Recover => PauseKeepsReady(s, e, d, T);
      case Cleanup => PauseKeepsReady(s, e, d, T);
    }
  }

  // ---- Runs ----------------------------------------------------------------

  /** Parsing and chunking the document gives T whenever it is done. */
  ghost predicate AlwaysSplits(s: State, es: seq<Event>, d: nat, T: seq<string>)
    requires CanRun(s, es)
    decreases es
  {
    es != [] ==> Deterministic(s, es[0], d, T) && AlwaysSplits(Apply(s, es[0]), es[1..], d, T)
  }

  lemma {:induction false} RunKeepsReady(s: State, es: seq<Event>, d: nat, T: seq<string>)
    requires Grounded(s) && CanRun(s, es) && AlwaysSplits(s, es, d, T)
    requires d in s.docs && d !in s.purgeRequested ==> Ready(s, d, T)
    requires d in Run(s, es).docs && d !in Run(s, es).purgeRequested
    ensures Ready(Run(s, es), d, T)
    decreases es
  {
    if es != [] {
      var s1 := Apply(s, es[0]);
      StepKeepsGrounded(s, es[0]);
      PurgeRequestsStay(s1, es[1..]);
      if d in s1.docs {
        StepKeepsPurges(s, es[0]);
        StepKeepsReady(s, es[0], d, T);
      }
      RunKeepsReady(s1, es[1..], d, T);
    }
  }

  lemma {:induction false} PurgeRequestsStay(s: State, es: seq<Event>)
    requires Grounded(s) && CanRun(s, es)
    ensures s.purgeRequested <= Run(s, es).purgeRequested
    decreases es
  {
    if es != [] {
      StepKeepsGrounded(s, es[0]);
      StepKeepsPurges(s, es[0]);
      PurgeRequestsStay(Apply(s, es[0]), es[1..]);
    }
  }

  /** For a document nobody has asked to purge and whose parsing always gives T: an
      embed job, whatever became of it, means that the chunks of T are stored; an index
      job means that each of them has its own id as vector_id and a point under it. */
  lemma StagePrerequisites(s0: State, es: seq<Event>, d: nat, T: seq<string>, j: nat)
    requires Init(s0) && CanRun(s0, es) && AlwaysSplits(s0, es, d, T)
    requires var s := Run(s0, es); d in s.docs && d !in s.purgeRequested && j in s.jobs && s.jobs[j].doc == d
    ensures var s := Run(s0, es);
      && (s.jobs[j].stage == Embed ==> Full(s, d, T))
      && (s.jobs[j].stage == Index ==> Full(s, d, T) && Vectorised(s, d))
  {
    RunKeepsReady(s0, es, d, T);
  }
}
