/** The chunk table over whole runs: rows keep their index and text, indices have no
    gaps, ids never clash, and a worker's rows are there as long as its document is. */
module ChunkRows {
  import opened Prelude
  import opened JobQueue
  import opened Pipeline
  import opened Consistency
  import opened Ownership

  /** A row stays with its document; only vector_id may be set, to the row's own id. */
  ghost predicate ChunksEvolve(s: State, s1: State) {
    && s1.nextChunk >= s.nextChunk
    && (forall k | k in s.chunks && k.0 in s1.docs ::
        && k in s1.chunks && s1.chunks[k].id == s.chunks[k].id && s1.chunks[k].text == s.chunks[k].text
        && s1.chunks[k].vectorId in {s.chunks[k].vectorId, Some(s.chunks[k].id)})
    && (forall k | k in s1.chunks && k !in s.chunks ::
        && k.0 in s.docs && s1.chunks[k].vectorId == None
        && s1.chunks[k].id >= s.nextChunk)
  }

  lemma PerformEvolvesChunks(s: State, op: Op, job: nat, d: nat)
    requires op.OpInsert? ==> d in s.docs
    ensures ChunksEvolve(s, Perform(s, op, job, d))
  {
  }

  lemma StepEvolvesChunks(s: State, e: Event)
    requires Consistent(s) && Enabled(s, e)
    ensures ChunksEvolve(s, Apply(s, e))
  {
    if IsRequest(e) {
      RequestOnlyAddsJobs(s, e);
    } else if e.Commit? {
      PerformEvolvesChunks(s, OpAt(s.workers[e.w].pc), s.workers[e.w].job, s.workers[e.w].doc);
    } else if e.Raise? {
      PerformEvolvesChunks(s, if e.late then OpAt(s.workers[e.w].pc) else OpUpsert(e.written), s.workers[e.w].job,
                           s.workers[e.w].doc);
    }
  }

  /** UNIQUE (document_id, chunk_index) with indices 0, 1, 2, ... and no gap; ids differ. */
  ghost predicate WellIndexed(chunks: map<(nat, nat), ChunkRow>) {
    && (forall k, i: nat | k in chunks && i < k.1 :: (k.0, i) in chunks)
    && (forall a, b | a in chunks && b in chunks && chunks[a].id == chunks[b].id :: a == b)
  }

  lemma PerformKeepsWellIndexed(s: State, op: Op, job: nat, d: nat)
    requires WellIndexed(s.chunks) && FreshIds(s)
    requires op.OpInsert? ==> d in s.docs
    ensures WellIndexed(Perform(s, op, job, d).chunks)
  {
  }

  lemma StepKeepsWellIndexed(s: State, e: Event)
    requires Consistent(s) && WellIndexed(s.chunks) && Enabled(s, e)
    ensures WellIndexed(Apply(s, e).chunks)
  {
    if IsRequest(e) {
      RequestOnlyAddsJobs(s, e);
    } else if e.Commit? {
      PerformKeepsWellIndexed(s, OpAt(s.workers[e.w].pc), s.workers[e.w].job, s.workers[e.w].doc);
    } else if e.Raise? {
      PerformKeepsWellIndexed(s, if e.late then OpAt(s.workers[e.w].pc) else OpUpsert(e.written), s.workers[e.w].job,
                              s.workers[e.w].doc);
    }
  }

  lemma {:induction false} RunKeepsWellIndexed(s: State, es: seq<Event>)
    requires Consistent(s) && WellIndexed(s.chunks) && CanRun(s, es)
    ensures WellIndexed(Run(s, es).chunks)
    decreases es
  {
    if es != [] {
      StepKeepsConsistency(s, es[0]);
      StepKeepsWellIndexed(s, es[0]);
      RunKeepsWellIndexed(Apply(s, es[0]), es[1..]);
    }
  }

  lemma ReachableWellIndexed(s: State)
    requires Reachable(s)
    ensures WellIndexed(s.chunks)
  {
    var s0, es :| Init(s0) && CanRun(s0, es) && Run(s0, es) == s;
    RunKeepsWellIndexed(s0, es);
  }

  /** In every reachable state the chunk indices of a document are exactly 0 .. m-1. */
  lemma ChunkIndicesHaveNoGap(s: State, d: nat) returns (m: nat)
    requires Reachable(s)
    ensures forall i: nat :: (d, i) in s.chunks <==> i < m
  {
    ReachableWellIndexed(s);
    assert forall i: nat, i': nat :: (d, i) in s.chunks && i' < (d, i).1 ==> (d, i') in s.chunks;
    m := FirstFree(s, d, 0);
  }

  lemma {:induction false} FirstFree(s: State, d: nat, from: nat) returns (m: nat)
    requires forall i: nat | i < from :: (d, i) in s.chunks
    ensures (d, m) !in s.chunks && forall i: nat | i < m :: (d, i) in s.chunks
    decreases |set k | k in s.chunks && k.0 == d && k.1 >= from|
  {
    m := from;
    if (d, from) in s.chunks {
      var rest := set k | k in s.chunks && k.0 == d && k.1 >= from;
      var next := set k | k in s.chunks && k.0 == d && k.1 >= from + 1;
      assert (d, from) in rest && (d, from) !in next;
      SubsetSize(next, rest);
      m := FirstFree(s, d, from + 1);
    }
  }

  /** The first text stored at an index is never replaced while its document exists. */
  lemma {:induction false} FirstTextStays(s: State, es: seq<Event>, k: (nat, nat))
    requires Consistent(s) && CanRun(s, es) && k in s.chunks
    requires k.0 in Run(s, es).docs
    ensures k in Run(s, es).chunks && Run(s, es).chunks[k].text == s.chunks[k].text
    ensures Run(s, es).chunks[k].id == s.chunks[k].id
    decreases es
  {
    if es != [] {
      var s1 := Apply(s, es[0]);
      StepKeepsConsistency(s, es[0]);
      StepEvolves(s, es[0]);
      StepEvolvesChunks(s, es[0]);
      if k.0 !in s1.docs {
        AbsentStaysAbsent(s1, es[1..], k.0);
      }
      FirstTextStays(s1, es[1..], k);
    }
  }

  /** Inserting the same list again changes nothing, whatever ids it would hand out. */
  lemma ReinsertIsNeutral(chunks: map<(nat, nat), ChunkRow>, d: nat, texts: seq<string>, n: nat, n': nat)
    ensures var once := InsertedChunks(chunks, d, texts, n); InsertedChunks(once, d, texts, n') == once
  {
  }

  // ---- Rows held by embed workers ------------------------------------------

  function RowsOf(pc: Pc): set<nat> {
    match pc
    case Upsert(rows) => rows
    case StoreVectorIds(rows) => rows
    case _ => {}
  }

  /** The rows an embed worker has read are still rows of its document. */
  ghost predicate RowsPresent(s: State) {
    forall w | w in s.workers && s.workers[w].doc in s.docs :: RowsOf(s.workers[w].pc) <= RowIds(s, s.workers[w].doc)
  }

  lemma RowIdsGrow(s: State, s1: State, d: nat)
    requires ChunksEvolve(s, s1) && d in s1.docs
    ensures RowIds(s, d) <= RowIds(s1, d)
  {
    forall id | id in RowIds(s, d) ensures id in RowIds(s1, d) {
      var k :| k in s.chunks && k.0 == d && s.chunks[k].id == id;
      assert k in s1.chunks;
    }
  }

  lemma StepKeepsRowsPresent(s: State, e: Event)
    requires Consistent(s) && RowsPresent(s) && Enabled(s, e)
    ensures RowsPresent(Apply(s, e))
  {
    var s1 := Apply(s, e);
    StepEvolves(s, e);
    StepEvolvesChunks(s, e);
    forall w | w in s1.workers && s1.workers[w].doc in s1.docs
      ensures RowsOf(s1.workers[w].pc) <= RowIds(s1, s1.workers[w].doc)
    {
      var d := s1.workers[w].doc;
      RowIdsGrow(s, s1, d);
      WorkerMoves(s, e, w);
    }
  }

  lemma PcRows(s: State, k: Worker)
    ensures After(s, k).Some? ==>
      var rows := RowsOf(After(s, k).value); rows == {} || rows == RowsOf(k.pc) || rows == RowIds(s, k.doc)
    ensures OnRaise(k.pc).Some? ==> RowsOf(OnRaise(k.pc).value) == {}
  {
  }

  ghost predicate RowsMove(s: State, s1: State, w: nat)
    requires w in s1.workers
  {
    var k := s1.workers[w];
    || RowsOf(k.pc) == {}
    || (w in s.workers && s.workers[w].doc == k.doc
        && (RowsOf(k.pc) == RowsOf(s.workers[w].pc) || RowsOf(k.pc) == RowIds(s, k.doc)))
  }

  /** A worker gets its rows from reading them or keeps those it has. */
  lemma WorkerMoves(s: State, e: Event, w: nat)
    requires Consistent(s) && Enabled(s, e) && w in Apply(s, e).workers
    ensures RowsMove(s, Apply(s, e), w)
  {
    if IsRequest(e) {
      RequestOnlyAddsJobs(s, e);
    } else if e.Commit? {
      PcRows(s, s.workers[e.w]);
    } else if e.Raise? {
      PcRows(s, s.workers[e.w]);
      var op := RaiseApplied(s, e.w, e.written, e.late);
    } else if e.Parsed? || e.Split? {
      var pc := ResultApplied(s, e, e.w);
    }
  }
}
