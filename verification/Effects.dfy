/** What the statements of the workers do to the tables, row by row. */
module Effects {
  import opened Prelude
  import opened JobQueue
  import opened Pipeline

  /** update_stage writes one row, or nothing when the document is gone. */
  lemma StageWritten(s: State, job: nat, d: nat, name: StageName, status: StageStatus)
    ensures var t := Perform(s, OpStage(name, status), job, d);
      t == if d in s.docs then s.(stages := s.stages[(d, name) := status]) else s
  {
  }

  /** Only the status of the document changes. */
  lemma StatusWritten(s: State, job: nat, d: nat, status: DocStatus)
    ensures var t := Perform(s, OpStatus(status), job, d);
      t == if d in s.docs then s.(docs := s.docs[d := s.docs[d].(status := status)]) else s
  {
  }

  /** The document is 'chunked'; indices that had no row have one with their text, an id of
      its own and no vector; nothing else changes. */
  lemma ChunksStored(s: State, job: nat, d: nat, texts: seq<string>)
    requires d in s.docs
    ensures var t := Perform(s, OpInsert(texts), job, d);
      && t == s.(docs := s.docs[d := s.docs[d].(status := Chunked)], chunks := t.chunks, nextChunk := t.nextChunk)
      && (forall k | k in s.chunks :: k in t.chunks && t.chunks[k] == s.chunks[k])
      && (forall k: (nat, nat) :: k in t.chunks && k !in s.chunks <==> k.0 == d && k.1 < |texts| && k !in s.chunks)
      && forall k | k in t.chunks && k !in s.chunks ::
        && t.chunks[k].text == texts[k.1] && t.chunks[k].vectorId == None
        && s.nextChunk <= t.chunks[k].id < t.nextChunk
        && forall other | other in t.chunks && other !in s.chunks && t.chunks[other].id == t.chunks[k].id :: other == k
  {
  }

  /** Points of the rows belong to the document; others stay. */
  lemma PointsUpserted(s: State, job: nat, d: nat, rows: set<nat>)
    ensures var t := Perform(s, OpUpsert(rows), job, d);
      && t == s.(vectors := t.vectors)
      && (forall id :: id in t.vectors <==> id in s.vectors || id in rows)
      && forall id | id in t.vectors :: t.vectors[id] == if id in rows then d else s.vectors[id]
  {
  }

  /** Status 'embedded' and the vector ids of the rows, unless one of them is gone. */
  lemma VectorIdsStored(s: State, job: nat, d: nat, rows: set<nat>)
    requires d in s.docs
    ensures var t := Perform(s, OpVectorIds(rows), job, d);
      if forall id | id in rows :: exists k :: k in s.chunks && s.chunks[k].id == id
      then
        && t == s.(docs := s.docs[d := s.docs[d].(status := Embedded)], chunks := t.chunks)
        && t.chunks.Keys == s.chunks.Keys
        && forall k | k in s.chunks ::
          t.chunks[k] == if s.chunks[k].id in rows then s.chunks[k].(vectorId := Some(s.chunks[k].id)) else s.chunks[k]
      else t == s
  {
  }

  /** A pending job of the stage that is due at once, unless the document is gone. */
  lemma NextStageEnqueued(s: State, job: nat, d: nat, stage: Stage)
    ensures var t := Perform(s, OpHandOff(stage), job, d);
      t == if d in s.docs
           then s.(jobs := s.jobs[s.nextJob := Job(d, stage, Pending, 0, s.maxAttempts, s.now, None, s.now)],
                   nextJob := s.nextJob + 1)
           else s
  {
  }

  lemma JobAcked(s: State, job: nat, d: nat)
    ensures var t := Perform(s, OpAck, job, d);
      t == if job in s.jobs then s.(jobs := s.jobs[job := s.jobs[job].(status := Done, lockedAt := None)]) else s
  {
  }

  /** 10 * 2^attempt seconds from now, or never again. */
  lemma JobNacked(s: State, job: nat, d: nat)
    requires job in s.jobs
    ensures var t, row := Perform(s, OpNack, job, d), s.jobs[job];
      t == s.(jobs := s.jobs[job :=
        if row.attempt >= row.maxAttempts then row.(status := Failed, lockedAt := None)
        else row.(status := Pending, lockedAt := None, scheduledAt := s.now + 10_000_000 * Pow2(row.attempt))])
  {
  }

  /** No point of the document is left; others stay. */
  lemma PointsDropped(s: State, job: nat, d: nat)
    ensures var t := Perform(s, OpDropVectors, job, d);
      && t == s.(vectors := t.vectors)
      && (forall id | id in t.vectors :: id in s.vectors && t.vectors[id] == s.vectors[id] && t.vectors[id] != d)
      && forall id | id in s.vectors && s.vectors[id] != d :: id in t.vectors
  {
  }

  /** The document, its chunks, its stages and its jobs are gone, and nothing else is. */
  lemma DocumentDeleted(s: State, job: nat, d: nat)
    ensures var t := Perform(s, OpDelete, job, d);
      && t == s.(docs := t.docs, chunks := t.chunks, stages := t.stages, jobs := t.jobs)
      && (forall k :: k in t.docs <==> k in s.docs && k != d) && (forall k | k in t.docs :: t.docs[k] == s.docs[k])
      && (forall k :: k in t.chunks <==> k in s.chunks && k.0 != d)
      && (forall k | k in t.chunks :: t.chunks[k] == s.chunks[k])
      && (forall k :: k in t.stages <==> k in s.stages && k.0 != d)
      && (forall k | k in t.stages :: t.stages[k] == s.stages[k])
      && (forall j :: j in t.jobs <==> j in s.jobs && s.jobs[j].doc != d)
      && forall j | j in t.jobs :: t.jobs[j] == s.jobs[j]
  {
  }

  // ---- Claims and restarts -------------------------------------------------

  /** A job of the stage that is due and scheduled earliest goes to a free worker, which
      starts at the first statement of its procedure. */
  lemma JobClaimed(s: State, w: nat, j: nat)
    requires Enabled(s, Claim(w, j))
    ensures w !in s.workers && j in s.jobs && s.jobs[j].status == Pending && s.jobs[j].scheduledAt <= s.now
    ensures forall k | k in s.jobs && s.jobs[k].stage == s.jobs[j].stage && s.jobs[k].status == Pending ::
      s.jobs[j].scheduledAt <= s.jobs[k].scheduledAt || s.jobs[k].scheduledAt > s.now
    ensures var row := s.jobs[j];
      Apply(s, Claim(w, j)) == s.(
        jobs := s.jobs[j := row.(status := Processing, lockedAt := Some(s.now), attempt := row.attempt + 1)],
        workers := s.workers[w := Worker(j, row.doc,
          match row.stage
          case Ingest => ParseProcessing
          case Embed => Guard
          case Index => IndexProcessing
          case Purge => PurgeVectors)])
  {
    forall k | k in s.jobs && s.jobs[k].stage == s.jobs[j].stage && s.jobs[k].status == Pending
      ensures s.jobs[j].scheduledAt <= s.jobs[k].scheduledAt || s.jobs[k].scheduledAt > s.now
    {
      assert s.jobs[k].scheduledAt <= s.now ==> s.jobs[k].Due(s.jobs[j].stage, s.now);
    }
  }

  /** Workers and nothing else are lost. */
  lemma Crashed(s: State)
    ensures Apply(s, Crash) == s.(phase := Down, workers := map[])
  {
  }

  /** A start gives back the jobs locked for five minutes or more, then deletes the
      finished ones that are seven days old. */
  lemma Restarted(s: State)
    requires s.phase == Down
    ensures var t := Apply(s, Recover);
      && t == s.(phase := Recovering, jobs := t.jobs, recoveries := t.recoveries) && t.jobs.Keys == s.jobs.Keys
      && forall j | j in t.jobs ::
        var row := s.jobs[j];
        t.jobs[j] ==
          if row.status == Processing && row.lockedAt.Some? && s.now - row.lockedAt.value >= 300_000_000
          then row.(status := Pending, lockedAt := None)
          else row
  {
  }

  lemma CleanedAtStart(s: State)
    requires s.phase == Recovering
    ensures var t := Apply(s, Cleanup);
      && t == s.(phase := Up, jobs := t.jobs)
      && (forall j | j in t.jobs :: j in s.jobs && t.jobs[j] == s.jobs[j])
      && forall j | j in s.jobs ::
        var row := s.jobs[j];
        j !in t.jobs <==> (row.status == Done || row.status == Failed) && s.now - row.createdAt >= 604_800_000_000
  {
  }

  // ---- Where the answers lead ----------------------------------------------

  /** The embed worker goes on unless the document is gone or 'deleted'. */
  lemma GuardAnswers(s: State, w: nat)
    requires Enabled(s, Commit(w)) && s.workers[w].pc == Guard
    ensures var k := s.workers[w];
      var alive := k.doc in s.docs && s.docs[k.doc].status != Deleted;
      Apply(s, Commit(w)) == s.(workers := s.workers[w := k.(pc := if alive then EmbedProcessing else EmbedAck)])
  {
  }

  /** It upserts exactly the chunk rows of its document, and gives up when there is none. */
  lemma RowsRead(s: State, w: nat)
    requires Enabled(s, Commit(w)) && s.workers[w].pc == ReadChunks
    ensures var t := Apply(s, Commit(w));
      && t == s.(workers := t.workers) && t.workers == s.workers[w := s.workers[w].(pc := t.workers[w].pc)]
      && if forall k | k in s.chunks :: k.0 != s.workers[w].doc then t.workers[w].pc == NoRowsStage
         else
           && t.workers[w].pc.Upsert?
           && forall id :: id in t.workers[w].pc.rows <==>
             exists k :: k in s.chunks && k.0 == s.workers[w].doc && s.chunks[k].id == id
  {
    var d := s.workers[w].doc;
    if k :| k in s.chunks && k.0 == d {
      assert s.chunks[k].id in RowIds(s, d);
    }
  }

  /** It goes on only if every row was still there. */
  lemma RowsStillThere(s: State, w: nat)
    requires Enabled(s, Commit(w)) && s.workers[w].pc.StoreVectorIds?
    ensures w in Apply(s, Commit(w)).workers
    ensures Apply(s, Commit(w)).workers[w].pc ==
      if forall id | id in s.workers[w].pc.rows :: exists k :: k in s.chunks && s.chunks[k].id == id
      then EmbedDone else EmbedAck
  {
  }

  // ---- The points of a purged document -------------------------------------

  ghost predicate NoPoint(s: State, d: nat) {
    forall id | id in s.vectors :: s.vectors[id] != d
  }

  /** purge_worker.py:29: no point of the document is left, and every other stays. */
  lemma VectorsDropped(s: State, w: nat)
    requires Enabled(s, Commit(w)) && s.workers[w].pc == PurgeVectors
    ensures var d, t := s.workers[w].doc, Apply(s, Commit(w));
      && (forall id | id in t.vectors :: t.vectors[id] != d)
      && (forall id | id in s.vectors && s.vectors[id] != d :: id in t.vectors)
      && forall id | id in t.vectors :: id in s.vectors && t.vectors[id] == s.vectors[id]
  {
    PointsDropped(s, s.workers[w].job, s.workers[w].doc);
  }

  /** An embed worker stores points of the document, all of them or some before it raises. */
  predicate Upserts(s: State, e: Event, d: nat) {
    && (e.Commit? || (e.Raise? && e.written != {}))
    && e.w in s.workers && s.workers[e.w].doc == d && s.workers[e.w].pc.Upsert?
  }

  lemma StepAddsNoPoint(s: State, e: Event, d: nat)
    requires Enabled(s, e) && NoPoint(s, d) && !Upserts(s, e, d)
    ensures NoPoint(Apply(s, e), d)
  {
    if e.UploadRequest? {
      PlanKeepsVectors(s, PlanUpload(s, e.tenant, e.filename, e.checksum), e.tenant, e.filename, e.checksum,
                       e.fileStored);
    } else if e.Commit? {
      CommitAddsNoPoint(s, s.workers[e.w], d);
    } else if e.Raise? && e.late {
      CommitAddsNoPoint(s, s.workers[e.w], d);
    }
  }

  lemma CommitAddsNoPoint(s: State, k: Worker, d: nat)
    requires (k.pc.StoreChunks? ==> k.doc in s.docs) && NoPoint(s, d) && !(k.pc.Upsert? && k.doc == d)
    ensures NoPoint(Effect(s, k), d)
  {
    UpsertPcs(k.pc);
    StatementAddsNoPoint(s, OpAt(k.pc), k.job, k.doc, d);
  }

  lemma UpsertPcs(pc: Pc)
    ensures OpAt(pc).OpUpsert? <==> pc.Upsert?
    ensures OpAt(pc).OpInsert? <==> pc.StoreChunks?
  {
  }

  lemma StatementAddsNoPoint(s: State, op: Op, job: nat, doc: nat, d: nat)
    requires (op.OpInsert? ==> doc in s.docs) && NoPoint(s, d) && !(op.OpUpsert? && doc == d)
    ensures NoPoint(Perform(s, op, job, doc), d)
  {
  }

  lemma PlanKeepsVectors(s: State, plan: UploadPlan, tenant: string, filename: string, checksum: string,
                         fileStored: bool)
    requires plan.Replace? ==> plan.previous in s.docs
    ensures FollowPlan(s, plan, tenant, filename, checksum, fileStored).vectors == s.vectors
  {
  }

  ghost predicate NoUpserts(s: State, es: seq<Event>, d: nat)
    requires CanRun(s, es)
    decreases es
  {
    es != [] ==> !Upserts(s, es[0], d) && NoUpserts(Apply(s, es[0]), es[1..], d)
  }

  /** Points come back only through an embed worker that is still at work. */
  lemma {:induction false} PointsStayGone(s: State, es: seq<Event>, d: nat)
    requires CanRun(s, es) && NoPoint(s, d) && NoUpserts(s, es, d)
    ensures NoPoint(Run(s, es), d)
    decreases es
  {
    if es != [] {
      StepAddsNoPoint(s, es[0], d);
      PointsStayGone(Apply(s, es[0]), es[1..], d);
    }
  }
}
