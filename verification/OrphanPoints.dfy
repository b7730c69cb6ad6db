/**
 Points that outlive their document: an embed worker that has read its rows may store them
 after the purge, and nothing ever removes them.
 */
module OrphanPoints {
  import opened Prelude
  import opened JobQueue
  import opened Pipeline
  import opened Consistency
  import opened Ownership
  import opened ChunkRows
  import opened Effects
  import opened Runs
  import L = LostDocuments

  // ---- Whose id it is ------------------------------------------------------

  /** No other document has a chunk row or a worker with the id, nor ever will. */
  ghost predicate IdOf(s: State, id: nat, d: nat) {
    && id < s.nextChunk
    && (forall r | r in s.chunks && s.chunks[r].id == id :: r.0 == d)
    && forall w | w in s.workers && id in RowsOf(s.workers[w].pc) :: s.workers[w].doc == d
  }

  /** Every id in use belongs to the document it is used for. */
  ghost predicate IdsOwned(s: State) {
    && (forall r | r in s.chunks :: IdOf(s, s.chunks[r].id, r.0))
    && (forall w, id | w in s.workers && id in RowsOf(s.workers[w].pc) :: IdOf(s, id, s.workers[w].doc))
    && forall id | id in s.vectors :: IdOf(s, id, s.vectors[id])
  }

  /** What one step does to rows and to the ids that workers hold. */
  ghost predicate Follows(s: State, s1: State) {
    && Consistent(s) && Consistent(s1) && ChunksEvolve(s, s1)
    && forall w | w in s1.workers :: RowsMove(s, s1, w)
  }

  lemma StepFollows(s: State, e: Event)
    requires Consistent(s) && Enabled(s, e)
    ensures Follows(s, Apply(s, e))
  {
    StepKeepsConsistency(s, e);
    StepEvolvesChunks(s, e);
    forall w | w in Apply(s, e).workers ensures RowsMove(s, Apply(s, e), w) {
      WorkerMoves(s, e, w);
    }
  }

  lemma IdStays(s: State, s1: State, id: nat, d: nat)
    requires Follows(s, s1) && IdOf(s, id, d)
    ensures IdOf(s1, id, d)
  {
    forall r | r in s1.chunks && s1.chunks[r].id == id ensures r.0 == d {
      assert r in s.chunks ==> s.chunks[r].id == id;
    }
    forall w | w in s1.workers && id in RowsOf(s1.workers[w].pc) ensures s1.workers[w].doc == d {
      assert RowsMove(s, s1, w);
      if id !in RowsOf(s.workers[w].pc) {
        var r :| r in s.chunks && r.0 == s1.workers[w].doc && s.chunks[r].id == id;
      }
    }
  }

  lemma NewRowOwned(s: State, s1: State, r: (nat, nat))
    requires Follows(s, s1) && IdsOwned(s) && WellIndexed(s1.chunks) && r in s1.chunks
    ensures IdOf(s1, s1.chunks[r].id, r.0)
  {
    var id := s1.chunks[r].id;
    if r in s.chunks {
      assert s.chunks[r].id == id;
      IdStays(s, s1, id, r.0);
    } else {
      forall w | w in s1.workers ensures id !in RowsOf(s1.workers[w].pc) {
        NewIdNotHeld(s, s1, w, id);
      }
    }
  }

  lemma HeldIdsAreOld(s: State, s1: State, w: nat, id: nat)
    requires Follows(s, s1) && IdsOwned(s) && w in s1.workers && id in RowsOf(s1.workers[w].pc)
    ensures id < s.nextChunk && IdOf(s, id, s1.workers[w].doc)
  {
    assert RowsMove(s, s1, w);
    if id !in RowsOf(s.workers[w].pc) {
      var r :| r in s.chunks && r.0 == s1.workers[w].doc && s.chunks[r].id == id;
    }
  }

  lemma NewIdNotHeld(s: State, s1: State, w: nat, id: nat)
    requires Follows(s, s1) && IdsOwned(s) && w in s1.workers
    ensures id in RowsOf(s1.workers[w].pc) ==> id < s.nextChunk
  {
    if id in RowsOf(s1.workers[w].pc) {
      HeldIdsAreOld(s, s1, w, id);
    }
  }

  /** A point is as before, or a worker of the document has stored it. */
  ghost predicate PointsFrom(s: State, s1: State) {
    forall id | id in s1.vectors ::
      || (id in s.vectors && s.vectors[id] == s1.vectors[id])
      || exists w :: w in s.workers && s.workers[w].doc == s1.vectors[id] && id in RowsOf(s.workers[w].pc)
  }

  lemma StepPointsFrom(s: State, e: Event)
    requires Consistent(s) && Enabled(s, e)
    ensures PointsFrom(s, Apply(s, e))
  {
    if IsRequest(e) {
      RequestOnlyAddsJobs(s, e);
    } else if e.Commit? {
      UpsertPcs(s.workers[e.w].pc);
      StatementPointsFrom(s, e.w, OpAt(s.workers[e.w].pc));
    } else if e.Raise? {
      var op := RaiseApplied(s, e.w, e.written, e.late);
      StatementPointsFrom(s, e.w, op);
    }
  }

  lemma StatementPointsFrom(s: State, w: nat, op: Op)
    requires w in s.workers && (op.OpInsert? ==> s.workers[w].doc in s.docs)
    requires op.OpUpsert? ==> op.rows <= RowsOf(s.workers[w].pc)
    ensures PointsFrom(s, Perform(s, op, s.workers[w].job, s.workers[w].doc))
  {
  }

  lemma StepKeepsIdsOwned(s: State, e: Event)
    requires Consistent(s) && WellIndexed(s.chunks) && IdsOwned(s) && Enabled(s, e)
    ensures IdsOwned(Apply(s, e))
  {
    var s1 := Apply(s, e);
    StepFollows(s, e);
    StepPointsFrom(s, e);
    StepKeepsWellIndexed(s, e);
    forall r | r in s1.chunks ensures IdOf(s1, s1.chunks[r].id, r.0) {
      NewRowOwned(s, s1, r);
    }
    forall w, id | w in s1.workers && id in RowsOf(s1.workers[w].pc) ensures IdOf(s1, id, s1.workers[w].doc) {
      HeldIdsAreOld(s, s1, w, id);
      IdStays(s, s1, id, s1.workers[w].doc);
    }
    forall id | id in s1.vectors ensures IdOf(s1, id, s1.vectors[id]) {
      IdStays(s, s1, id, s1.vectors[id]);
    }
  }

  lemma {:induction false} RunKeepsIdsOwned(s: State, es: seq<Event>)
    requires Consistent(s) && WellIndexed(s.chunks) && IdsOwned(s) && CanRun(s, es)
    ensures IdsOwned(Run(s, es))
    decreases es
  {
    if es != [] {
      StepKeepsConsistency(s, es[0]);
      StepKeepsWellIndexed(s, es[0]);
      StepKeepsIdsOwned(s, es[0]);
      RunKeepsIdsOwned(Apply(s, es[0]), es[1..]);
    }
  }

  lemma ReachableIdsOwned(s: State)
    requires Reachable(s)
    ensures IdsOwned(s)
  {
    var s0, es :| Init(s0) && CanRun(s0, es) && Run(s0, es) == s;
    RunKeepsIdsOwned(s0, es);
  }

  // ---- Orphans -------------------------------------------------------------

  /** The point's document is gone, and no purge of it is still to drop its points. */
  ghost predicate Orphaned(s: State, id: nat, d: nat) {
    && d < s.nextDoc && d !in s.docs && id in s.vectors && s.vectors[id] == d
    && forall w | w in s.workers && s.workers[w].doc == d :: s.workers[w].pc != PurgeVectors
  }

  lemma StepKeepsOrphaned(s: State, e: Event, id: nat, d: nat)
    requires Consistent(s) && IdsOwned(s) && Enabled(s, e) && Orphaned(s, id, d)
    ensures Orphaned(Apply(s, e), id, d)
  {
    if IsRequest(e) {
      RequestOnlyAddsJobs(s, e);
    } else if e.Commit? {
      CommitKeepsOrphaned(s, e.w, id, d);
    } else if e.Raise? {
      RaiseKeepsOrphaned(s, e.w, e.written, e.late, id, d);
    } else if e.Claim? {
      ClaimKeepsOrphaned(s, e.w, e.job, id, d);
    } else if e.Parsed? || e.Split? {
      var pc := ResultApplied(s, e, e.w);
      GotoKeepsOrphaned(s, e.w, Some(pc), id, d);
    }
  }

  lemma ClaimKeepsOrphaned(s: State, w: nat, j: nat, id: nat, d: nat)
    requires Consistent(s) && Enabled(s, Claim(w, j)) && Orphaned(s, id, d)
    ensures Orphaned(Apply(s, Claim(w, j)), id, d)
  {
    JobClaimed(s, w, j);
    assert s.jobs[j].doc in s.docs;
  }

  lemma GotoKeepsOrphaned(t: State, w: nat, pc: Option<Pc>, id: nat, d: nat)
    requires Orphaned(t, id, d) && w in t.workers && pc != Some(PurgeVectors)
    ensures Orphaned(Goto(t, w, t.workers[w], pc), id, d)
  {
  }

  lemma StatementKeepsOrphaned(s: State, w: nat, op: Op, id: nat, d: nat)
    requires IdsOwned(s) && Orphaned(s, id, d) && w in s.workers && (op.OpInsert? ==> s.workers[w].doc in s.docs)
    requires op.OpUpsert? ==> op.rows <= RowsOf(s.workers[w].pc)
    requires op.OpDropVectors? ==> s.workers[w].doc != d
    ensures Orphaned(Perform(s, op, s.workers[w].job, s.workers[w].doc), id, d)
  {
    StatementKeepsPoint(s, w, op, id, d);
  }

  lemma CommitKeepsOrphaned(s: State, w: nat, id: nat, d: nat)
    requires Consistent(s) && IdsOwned(s) && Enabled(s, Commit(w)) && Orphaned(s, id, d)
    ensures Orphaned(Apply(s, Commit(w)), id, d)
  {
    var k := s.workers[w];
    UpsertPcs(k.pc);
    UpsertRows(k.pc);
    DropPcs(s, k);
    StatementKeepsOrphaned(s, w, OpAt(k.pc), id, d);
    GotoKeepsOrphaned(Effect(s, k), w, After(s, k), id, d);
  }

  lemma UpsertRows(pc: Pc)
    ensures OpAt(pc).OpUpsert? ==> OpAt(pc).rows == RowsOf(pc)
  {
  }

  lemma RaiseKeepsOrphaned(s: State, w: nat, written: set<nat>, late: bool, id: nat, d: nat)
    requires Consistent(s) && IdsOwned(s) && Enabled(s, Raise(w, written, late)) && Orphaned(s, id, d)
    ensures Orphaned(Apply(s, Raise(w, written, late)), id, d)
  {
    var k := s.workers[w];
    var op := RaiseApplied(s, w, written, late);
    RaiseNeverDrops(k.pc);
    StatementKeepsOrphaned(s, w, op, id, d);
    GotoKeepsOrphaned(Perform(s, op, k.job, k.doc), w, OnRaise(k.pc), id, d);
  }

  lemma DropPcs(s: State, k: Worker)
    ensures OpAt(k.pc).OpDropVectors? <==> k.pc == PurgeVectors
    ensures After(s, k) != Some(PurgeVectors)
  {
  }

  lemma RaiseNeverDrops(pc: Pc)
    ensures OnRaise(pc) != Some(PurgeVectors)
  {
  }

  lemma StatementKeepsPoint(s: State, w: nat, op: Op, id: nat, d: nat)
    requires IdsOwned(s) && w in s.workers && (op.OpInsert? ==> s.workers[w].doc in s.docs)
    requires op.OpUpsert? ==> op.rows <= RowsOf(s.workers[w].pc)
    requires op.OpDropVectors? ==> s.workers[w].doc != d
    requires id in s.vectors && s.vectors[id] == d
    ensures var t := Perform(s, op, s.workers[w].job, s.workers[w].doc); id in t.vectors && t.vectors[id] == d
  {
    assert IdOf(s, id, d);
  }

  /** There is no sweep: an orphaned point is in the store in every continuation. */
  lemma OrphansStay(s: State, es: seq<Event>, id: nat, d: nat)
    requires Reachable(s) && Orphaned(s, id, d) && CanRun(s, es)
    ensures id in Run(s, es).vectors && Run(s, es).vectors[id] == d && d !in Run(s, es).docs
  {
    ReachableConsistent(s);
    ReachableWellIndexed(s);
    ReachableIdsOwned(s);
    RunKeepsOrphaned(s, es, id, d);
  }

  lemma {:induction false} RunKeepsOrphaned(s: State, es: seq<Event>, id: nat, d: nat)
    requires Consistent(s) && WellIndexed(s.chunks) && IdsOwned(s) && Orphaned(s, id, d) && CanRun(s, es)
    ensures Orphaned(Run(s, es), id, d)
    decreases es
  {
    if es != [] {
      StepKeepsConsistency(s, es[0]);
      StepKeepsWellIndexed(s, es[0]);
      StepKeepsIdsOwned(s, es[0]);
      StepKeepsOrphaned(s, es[0], id, d);
      RunKeepsOrphaned(Apply(s, es[0]), es[1..], id, d);
    }
  }

  // ---- A run ---------------------------------------------------------------

  /** The embed worker of document 0 has read its rows when the document is asked to go. */
  lemma EmbeddingWhenAskedToGo(R: iset<State>, m: nat) returns (t: State, id: nat)
    requires Closed(R) && m >= 1
    ensures t in R && t.phase == Up && 0 in t.docs && t.maxAttempts == m
    ensures t.workers.Keys == {0} && t.workers[0].doc == 0 && t.workers[0].pc.Upsert? && id in t.workers[0].pc.rows
    ensures 2 in t.jobs && t.jobs[2] == NewJob(0, Purge, m, t.now)
    ensures forall j | j in t.jobs && t.jobs[j].stage == Purge :: j == 2
  {
    var s := L.Uploaded(R, m);
    var s1 := L.IngestPasses(R, s, 0, 0, 0);
    var s2 := L.Begin(R, s1, 0, 1, 0);
    var s3 := L.EmbedReads(R, s2, 0, 1, 0);
    var s4 := L.RowsRead(R, s3, 0, 0);
    id := s3.chunks[(0, 0)].id;
    t := L.DeleteRequested(R, s4, 0);
  }

  /** Worker 1 drops the points, the files and the row. */
  lemma PurgedMeanwhile(R: iset<State>, s: State) returns (t: State)
    requires Closed(R) && s in R && s.phase == Up && 0 in s.docs && s.workers.Keys == {0}
    requires 2 in s.jobs && s.jobs[2].doc == 0 && s.jobs[2].stage == Purge && Enabled(s, Claim(1, 2))
    ensures t in R && 0 !in t.docs && t.workers == s.workers && t.nextDoc == s.nextDoc && t.maxAttempts == s.maxAttempts
  {
    StepStays(R, s, Claim(1, 2));
    var s1 := Apply(s, Claim(1, 2));
    JobClaimed(s, 1, 2);
    t := PurgeRuns(R, s1);
    assert t.workers == s.workers;
  }

  lemma PurgeRuns(R: iset<State>, s: State) returns (t: State)
    requires Closed(R) && s in R && 1 in s.workers && s.workers[1] == Worker(2, 0, PurgeVectors)
    ensures t in R && 0 !in t.docs && t.workers == s.workers - {1} && t.nextDoc == s.nextDoc
    ensures t.maxAttempts == s.maxAttempts
  {
    var s1 := StoresDropped(R, s);
    StepStays(R, s1, Commit(1));
    t := Apply(s1, Commit(1));
    assert t.workers == s.workers - {1};
  }

  lemma StoresDropped(R: iset<State>, s: State) returns (t: State)
    requires Closed(R) && s in R && 1 in s.workers && s.workers[1] == Worker(2, 0, PurgeVectors)
    ensures t in R && t.workers == s.workers[1 := Worker(2, 0, PurgeDelete)] && t.nextDoc == s.nextDoc
    ensures t.maxAttempts == s.maxAttempts
  {
    StepStays(R, s, Commit(1));
    var s1 := Apply(s, Commit(1));
    StepStays(R, s1, Commit(1));
    t := Apply(s1, Commit(1));
  }

  /** The embed worker goes on. */
  lemma StoresOrphan(R: iset<State>, s: State, id: nat) returns (t: State)
    requires Closed(R) && s in R && 0 !in s.docs && s.nextDoc > 0 && s.workers.Keys == {0}
    requires s.workers[0].doc == 0 && s.workers[0].pc.Upsert? && id in s.workers[0].pc.rows
    ensures t in R && t.maxAttempts == s.maxAttempts && Orphaned(t, id, 0)
  {
    StepStays(R, s, Commit(0));
    t := Apply(s, Commit(0));
  }

  lemma OrphanMade(R: iset<State>, m: nat) returns (t: State, id: nat)
    requires Closed(R) && m >= 1 && forall s | s in R :: Reachable(s)
    ensures t in R && t.maxAttempts == m && Orphaned(t, id, 0)
  {
    var s;
    s, id := EmbeddingWhenAskedToGo(R, m);
    OnlyPurgeIsDue(s, m);
    ReachableConsistent(s);
    var s1 := PurgedMeanwhile(R, s);
    t := StoresOrphan(R, s1, id);
  }

  lemma OnlyPurgeIsDue(s: State, m: nat)
    requires s.phase == Up && s.workers.Keys == {0} && 2 in s.jobs && s.jobs[2] == NewJob(0, Purge, m, s.now)
    requires forall j | j in s.jobs && s.jobs[j].stage == Purge :: j == 2
    ensures Enabled(s, Claim(1, 2))
  {
  }

  /** app/workers/embed_worker.py:141-142: the points do become orphans. */
  lemma PurgeLeavesOrphans(m: nat)
    requires m >= 1
    ensures exists s, id, d :: Reachable(s) && s.maxAttempts == m && Orphaned(s, id, d)
  {
    var t, id := OrphanMade(ReachableStates(), m);
    assert Reachable(t) && t.maxAttempts == m && Orphaned(t, id, 0);
  }
}
