/**
 What a worker procedure leaves behind when nobody else is at work: the effects of its
 statements, one after another.
 */
module Alone {
  import opened Prelude
  import opened JobQueue
  import opened Pipeline
  import opened Ownership
  import opened Trails
  import opened Effects

  /** An event of worker w; one that raises has no effect. */
  predicate Plain(e: Event, w: nat) {
    e == Commit(w) || e == Raise(w, {}, false) || (e.Parsed? && e.w == w) || (e.Split? && e.w == w)
  }

  predicate Undisturbed(es: seq<Event>, w: nat) {
    forall e | e in es :: Plain(e, w)
  }

  /** A raised statement does nothing, nor does an insert for a document that is gone. */
  function AfterStatement(s: State, st: Statement, job: nat, d: nat): State {
    if st.Did? && (st.op.OpInsert? ==> d in s.docs) then Perform(s, st.op, job, d) else s
  }

  function AfterLog(s: State, log: seq<Statement>, job: nat, d: nat): State
    decreases |log|
  {
    if log == [] then s else AfterLog(AfterStatement(s, log[0], job, d), log[1..], job, d)
  }

  function Without(s: State): State {
    s.(workers := map[])
  }

  // ---- A run is its statements ---------------------------------------------

  lemma PlainStep(s: State, e: Event, w: nat) returns (pc: Option<Pc>)
    requires Enabled(s, e) && Plain(e, w)
    ensures w in s.workers && BelongsTo(e, w)
    ensures var k := s.workers[w];
      && |StatementOf(s, e, w)| == 1
      && Apply(s, e) == Goto(AfterStatement(s, StatementOf(s, e, w)[0], k.job, k.doc), w, k, pc)
  {
    if e == Commit(w) {
      pc := CommitStep(s, w);
    } else if e.Raise? {
      pc := RaiseStep(s, w);
    } else {
      var next := ResultApplied(s, e, w);
      pc := Some(next);
    }
  }

  lemma CommitStep(s: State, w: nat) returns (pc: Option<Pc>)
    requires Enabled(s, Commit(w))
    ensures var k := s.workers[w];
      Apply(s, Commit(w)) == Goto(AfterStatement(s, Did(OpAt(k.pc)), k.job, k.doc), w, k, pc)
  {
    UpsertPcs(s.workers[w].pc);
    pc := After(s, s.workers[w]);
  }

  lemma RaiseStep(s: State, w: nat) returns (pc: Option<Pc>)
    requires Enabled(s, Raise(w, {}, false))
    ensures Apply(s, Raise(w, {}, false)) == Goto(s, w, s.workers[w], pc)
  {
    assert AddPoints(s, s.workers[w].doc, {}) == s;
    pc := OnRaise(s.workers[w].pc);
  }

  lemma WorkersDoNotMatter(s: State, t: State, st: Statement, job: nat, d: nat)
    requires Without(s) == Without(t)
    ensures Without(AfterStatement(s, st, job, d)) == Without(AfterStatement(t, st, job, d))
    ensures AfterStatement(s, st, job, d).workers == s.workers
  {
    assert t == s.(workers := t.workers);
    if st.Did? && (st.op.OpInsert? ==> d in s.docs) {
      PerformForOthers(s, t.workers, st.op, job, d);
    }
  }

  lemma PerformForOthers(s: State, workers: map<nat, Worker>, op: Op, job: nat, d: nat)
    requires op.OpInsert? ==> d in s.docs
    ensures Perform(s.(workers := workers), op, job, d) == Perform(s, op, job, d).(workers := workers)
  {
    if op.OpVectorIds? {
      SamePresent(s, workers, op.rows);
    }
  }

  lemma SamePresent(s: State, workers: map<nat, Worker>, rows: set<nat>)
    ensures AllPresent(s.(workers := workers), rows) <==> AllPresent(s, rows)
  {
    var t := s.(workers := workers);
    forall id | id in rows
      ensures (exists k :: k in t.chunks && t.chunks[k].id == id) <==> exists k :: k in s.chunks && s.chunks[k].id == id
    {
    }
  }

  lemma {:induction false} AfterLogWithout(s: State, t: State, log: seq<Statement>, job: nat, d: nat)
    requires Without(s) == Without(t)
    ensures Without(AfterLog(s, log, job, d)) == Without(AfterLog(t, log, job, d))
    decreases |log|
  {
    if log != [] {
      WorkersDoNotMatter(s, t, log[0], job, d);
      AfterLogWithout(AfterStatement(s, log[0], job, d), AfterStatement(t, log[0], job, d), log[1..], job, d);
    }
  }

  lemma NothingLeftToDo(s: State, es: seq<Event>, w: nat)
    requires CanRun(s, es) && Undisturbed(es, w) && w !in s.workers
    ensures es == []
  {
    if es != [] {
      assert es[0] in es;
      var pc := PlainStep(s, es[0], w);
    }
  }

  lemma GotoWithout(s: State, t: State, w: nat, k: Worker, pc: Option<Pc>)
    requires t.workers == s.workers && w in s.workers
    ensures var s1 := Goto(t, w, k, pc);
      Without(s1) == Without(t) && s1.workers - {w} == s.workers - {w}
      && if pc.Some? then w in s1.workers && s1.workers[w] == k.(pc := pc.value) else w !in s1.workers
  {
  }

  /** The tables after an undisturbed run are those after its statements. */
  lemma {:induction false} UndisturbedEffect(s: State, es: seq<Event>, w: nat, k: Worker)
    requires CanRun(s, es) && Undisturbed(es, w)
    requires w in s.workers && k.job == s.workers[w].job && k.doc == s.workers[w].doc
    ensures Without(Run(s, es)) == Without(AfterLog(s, Statements(s, es, w), k.job, k.doc))
    ensures Run(s, es).workers - {w} == s.workers - {w}
    decreases es
  {
    if es != [] {
      assert es[0] in es && forall e | e in es[1..] :: e in es;
      var pc := PlainStep(s, es[0], w);
      var s1, st := Apply(s, es[0]), StatementOf(s, es[0], w)[0];
      var t := AfterStatement(s, st, k.job, k.doc);
      WorkersDoNotMatter(s, s, st, k.job, k.doc);
      GotoWithout(s, t, w, s.workers[w], pc);
      assert Statements(s, es, w) == [st] + Statements(s1, es[1..], w);
      AfterLogFirst(s, st, Statements(s1, es[1..], w), k.job, k.doc);
      AfterLogWithout(s1, t, Statements(s1, es[1..], w), k.job, k.doc);
      if pc == None {
        NothingLeftToDo(s1, es[1..], w);
      } else {
        UndisturbedEffect(s1, es[1..], w, k);
      }
    }
  }

  lemma AfterLogFirst(s: State, st: Statement, rest: seq<Statement>, job: nat, d: nat)
    ensures AfterLog(s, [st] + rest, job, d) == AfterLog(AfterStatement(s, st, job, d), rest, job, d)
  {
    assert ([st] + rest)[1..] == rest;
  }

  // ---- Plans carried out ---------------------------------------------------

  /** The statements of a plan, all of which took effect. */
  function AfterPlan(s: State, plan: seq<Op>, job: nat, d: nat): State
    decreases |plan|
  {
    if plan == [] then s else AfterPlan(AfterStatement(s, Did(plan[0]), job, d), plan[1..], job, d)
  }

  lemma {:induction false} FollowedPlan(s: State, log: seq<Statement>, plan: seq<Op>, job: nat, d: nat)
    requires Follows([], log, plan, true)
    ensures AfterLog(s, log, job, d) == AfterPlan(s, plan, job, d)
    decreases |plan|
  {
    assert log[0..] == log;
    if plan != [] {
      assert Follows([], log[1..], plan[1..], true);
      FollowedPlan(AfterStatement(s, log[0], job, d), log[1..], plan[1..], job, d);
    }
  }

  lemma {:induction false} PlanInTwo(s: State, a: seq<Op>, b: seq<Op>, job: nat, d: nat)
    ensures AfterPlan(s, a + b, job, d) == AfterPlan(AfterPlan(s, a, job, d), b, job, d)
    decreases |a|
  {
    if a == [] {
      assert a + b == b;
    } else {
      assert (a + b)[1..] == a[1..] + b;
      PlanInTwo(AfterStatement(s, Did(a[0]), job, d), a[1..], b, job, d);
    }
  }

  lemma Two(s: State, a: Op, b: Op, job: nat, d: nat)
    ensures AfterPlan(s, [a, b], job, d) == AfterStatement(AfterStatement(s, Did(a), job, d), Did(b), job, d)
  {
    var s1 := AfterStatement(s, Did(a), job, d);
    assert [a, b][1..] == [b] && [b][1..] == [];
    assert AfterPlan(s1, [b], job, d) == AfterPlan(AfterStatement(s1, Did(b), job, d), [], job, d);
  }

  lemma Three(s: State, a: Op, b: Op, c: Op, job: nat, d: nat)
    ensures AfterPlan(s, [a, b, c], job, d) ==
      AfterStatement(AfterStatement(AfterStatement(s, Did(a), job, d), Did(b), job, d), Did(c), job, d)
  {
    assert [a, b, c][1..] == [b, c];
    Two(AfterStatement(s, Did(a), job, d), b, c, job, d);
  }

  /** Document and job have their rows, and the next job gets an id of its own. */
  predicate InPlace(s: State, job: nat, d: nat) {
    d in s.docs && job in s.jobs && forall j | j in s.jobs :: j < s.nextJob
  }

  function WithDoc(s: State, d: nat, status: DocStatus): map<nat, Doc>
    requires d in s.docs
  {
    s.docs[d := s.docs[d].(status := status)]
  }

  lemma AbandonLeaves(s: State, name: StageName, status: DocStatus, job: nat, d: nat)
    requires InPlace(s, job, d)
    ensures AfterPlan(s, AbandonPlan(name, status), job, d) ==
      s.(stages := s.stages[(d, name) := StageFailed], docs := WithDoc(s, d, status),
         jobs := s.jobs[job := s.jobs[job].(status := Done, lockedAt := None)])
  {
    Three(s, OpStage(name, StageFailed), OpStatus(status), OpAck, job, d);
    var s1 := s.(stages := s.stages[(d, name) := StageFailed]);
    StageWritten(s, job, d, name, StageFailed);
    StatusWritten(s1, job, d, status);
    JobAcked(s1.(docs := WithDoc(s, d, status)), job, d);
  }

  lemma ParsingLeaves(s: State, job: nat, d: nat)
    requires d in s.docs
    ensures AfterPlan(s, ParsePlan(), job, d) ==
      s.(stages := s.stages[(d, ParseStage) := StageProcessing], docs := WithDoc(s, d, Parsing))
  {
    Three(s, OpStage(ParseStage, StageProcessing), OpStatus(Parsing), OpNone, job, d);
    StageWritten(s, job, d, ParseStage, StageProcessing);
    StatusWritten(s.(stages := s.stages[(d, ParseStage) := StageProcessing]), job, d, Parsing);
  }

  lemma ChunkingLeaves(s: State, job: nat, d: nat)
    requires d in s.docs
    ensures AfterPlan(s, ChunkPlan(), job, d) ==
      s.(stages := s.stages[(d, ParseStage) := StageDone][(d, ChunkStage) := StageProcessing])
  {
    Three(s, OpStage(ParseStage, StageDone), OpStage(ChunkStage, StageProcessing), OpNone, job, d);
    StageWritten(s, job, d, ParseStage, StageDone);
    StageWritten(s.(stages := s.stages[(d, ParseStage) := StageDone]), job, d, ChunkStage, StageProcessing);
  }

  /** The next job is pending and this one done. */
  function PassedOn(s: State, job: nat, d: nat, next: Stage): map<nat, Job>
    requires job in s.jobs
  {
    s.jobs[job := s.jobs[job].(status := Done, lockedAt := None)]
          [s.nextJob := Job(d, next, Pending, 0, s.maxAttempts, s.now, None, s.now)]
  }

  lemma HandOverLeaves(s: State, name: StageName, next: Stage, job: nat, d: nat)
    requires InPlace(s, job, d)
    ensures AfterPlan(s, [OpStage(name, StageDone), OpHandOff(next), OpAck], job, d) ==
      s.(stages := s.stages[(d, name) := StageDone], jobs := PassedOn(s, job, d, next), nextJob := s.nextJob + 1)
  {
    Three(s, OpStage(name, StageDone), OpHandOff(next), OpAck, job, d);
    var s1 := s.(stages := s.stages[(d, name) := StageDone]);
    StageWritten(s, job, d, name, StageDone);
    NextStageEnqueued(s1, job, d, next);
    var s2 := s1.(jobs := s1.jobs[s1.nextJob := Job(d, next, Pending, 0, s1.maxAttempts, s1.now, None, s1.now)],
                  nextJob := s1.nextJob + 1);
    JobAcked(s2, job, d);
    assert s2.jobs[job := s2.jobs[job].(status := Done, lockedAt := None)] == PassedOn(s, job, d, next);
  }

  // ---- Ingest --------------------------------------------------------------

  lemma BlankLeaves(s: State, texts: seq<string>, job: nat, d: nat)
    requires InPlace(s, job, d)
    ensures AfterPlan(s, IngestPlan(true, texts), job, d) ==
      s.(stages := s.stages[(d, ParseStage) := StageFailed], docs := WithDoc(s, d, ParseFailed),
         jobs := s.jobs[job := s.jobs[job].(status := Done, lockedAt := None)])
  {
    PlanInTwo(s, ParsePlan(), AbandonPlan(ParseStage, ParseFailed), job, d);
    ParsingLeaves(s, job, d);
    var s1 := s.(stages := s.stages[(d, ParseStage) := StageProcessing], docs := WithDoc(s, d, Parsing));
    AbandonLeaves(s1, ParseStage, ParseFailed, job, d);
    Overwritten(s, s1, d, Parsing, ParseFailed);
    assert s1.stages[(d, ParseStage) := StageFailed] == s.stages[(d, ParseStage) := StageFailed];
  }

  /** Up to the point where the chunks are known. */
  lemma ChunkedLeaves(s: State, rest: seq<Op>, job: nat, d: nat)
    requires d in s.docs
    ensures AfterPlan(s, ParsePlan() + (ChunkPlan() + rest), job, d) ==
      AfterPlan(s.(stages := s.stages[(d, ParseStage) := StageDone][(d, ChunkStage) := StageProcessing],
                   docs := WithDoc(s, d, Parsing)), rest, job, d)
  {
    var s1 := s.(stages := s.stages[(d, ParseStage) := StageProcessing], docs := WithDoc(s, d, Parsing));
    PlanInTwo(s, ParsePlan(), ChunkPlan() + rest, job, d);
    ParsingLeaves(s, job, d);
    PlanInTwo(s1, ChunkPlan(), rest, job, d);
    ChunkingLeaves(s1, job, d);
    assert s1.stages[(d, ParseStage) := StageDone] == s.stages[(d, ParseStage) := StageDone];
  }

  lemma NoChunksLeaves(s: State, job: nat, d: nat)
    requires InPlace(s, job, d)
    ensures AfterPlan(s, IngestPlan(false, []), job, d) ==
      s.(stages := s.stages[(d, ParseStage) := StageDone][(d, ChunkStage) := StageFailed],
         docs := WithDoc(s, d, ChunkFailed),
         jobs := s.jobs[job := s.jobs[job].(status := Done, lockedAt := None)])
  {
    ChunkedLeaves(s, AbandonPlan(ChunkStage, ChunkFailed), job, d);
    var s1 := s.(stages := s.stages[(d, ParseStage) := StageDone][(d, ChunkStage) := StageProcessing],
                 docs := WithDoc(s, d, Parsing));
    AbandonLeaves(s1, ChunkStage, ChunkFailed, job, d);
    Overwritten(s, s1, d, Parsing, ChunkFailed);
    assert s1.stages[(d, ChunkStage) := StageFailed]
      == s.stages[(d, ParseStage) := StageDone][(d, ChunkStage) := StageFailed];
  }

  /** Rows of the document get the texts where there was none. */
  ghost predicate ChunksAdded(s: State, t: State, d: nat, texts: seq<string>) {
    && (forall k | k in s.chunks :: k in t.chunks && t.chunks[k] == s.chunks[k])
    && (forall k | k in t.chunks && k !in s.chunks :: k.0 == d && k.1 < |texts|)
    && (forall i: nat | i < |texts| :: (d, i) in t.chunks)
    && (forall k | k in t.chunks && k !in s.chunks ::
        t.chunks[k].text == texts[k.1] && t.chunks[k].vectorId == None && t.chunks[k].id >= s.nextChunk)
  }

  lemma StoringLeaves(s: State, texts: seq<string>, job: nat, d: nat)
    requires InPlace(s, job, d)
    ensures var t := AfterPlan(s, StorePlan(texts), job, d);
      && ChunksAdded(s, t, d, texts)
      && t == s.(stages := s.stages[(d, ChunkStage) := StageDone], docs := WithDoc(s, d, Chunked),
                 chunks := t.chunks, nextChunk := t.nextChunk,
                 jobs := PassedOn(s, job, d, Embed), nextJob := s.nextJob + 1)
  {
    var rest := [OpStage(ChunkStage, StageDone), OpHandOff(Embed), OpAck];
    assert StorePlan(texts)[1..] == rest;
    var s1 := Perform(s, OpInsert(texts), job, d);
    ChunksStored(s, job, d, texts);
    HandOverLeaves(s1, ChunkStage, Embed, job, d);
    assert PassedOn(s1, job, d, Embed) == PassedOn(s, job, d, Embed);
  }

  lemma IngestLeaves(s: State, texts: seq<string>, job: nat, d: nat)
    requires InPlace(s, job, d) && texts != []
    ensures var t := AfterPlan(s, IngestPlan(false, texts), job, d);
      && ChunksAdded(s, t, d, texts)
      && t == s.(stages := s.stages[(d, ParseStage) := StageDone][(d, ChunkStage) := StageDone],
                 docs := WithDoc(s, d, Chunked), chunks := t.chunks, nextChunk := t.nextChunk,
                 jobs := PassedOn(s, job, d, Embed), nextJob := s.nextJob + 1)
  {
    ChunkedLeaves(s, StorePlan(texts), job, d);
    var s1 := s.(stages := s.stages[(d, ParseStage) := StageDone][(d, ChunkStage) := StageProcessing],
                 docs := WithDoc(s, d, Parsing));
    StoringLeaves(s1, texts, job, d);
    var t := AfterPlan(s1, StorePlan(texts), job, d);
    SameChunksAdded(s1, s, t, d, texts);
    IngestCombined(s, s1, t, job, d);
  }

  lemma IngestCombined(s: State, s1: State, t: State, job: nat, d: nat)
    requires InPlace(s, job, d)
    requires s1 == s.(stages := s.stages[(d, ParseStage) := StageDone][(d, ChunkStage) := StageProcessing],
                      docs := WithDoc(s, d, Parsing))
    requires t == s1.(stages := s1.stages[(d, ChunkStage) := StageDone], docs := WithDoc(s1, d, Chunked),
                      chunks := t.chunks, nextChunk := t.nextChunk,
                      jobs := PassedOn(s1, job, d, Embed), nextJob := s1.nextJob + 1)
    ensures t == s.(stages := s.stages[(d, ParseStage) := StageDone][(d, ChunkStage) := StageDone],
                    docs := WithDoc(s, d, Chunked), chunks := t.chunks, nextChunk := t.nextChunk,
                    jobs := PassedOn(s, job, d, Embed), nextJob := s.nextJob + 1)
  {
    Overwritten(s, s1, d, Parsing, Chunked);
    assert t.stages == s.stages[(d, ParseStage) := StageDone][(d, ChunkStage) := StageDone];
  }

  lemma Overwritten(s: State, s1: State, d: nat, first: DocStatus, second: DocStatus)
    requires d in s.docs && s1.docs == WithDoc(s, d, first)
    ensures WithDoc(s1, d, second) == WithDoc(s, d, second)
  {
  }

  lemma SameChunksAdded(s: State, s1: State, t: State, d: nat, texts: seq<string>)
    requires s1.chunks == s.chunks && s1.nextChunk == s.nextChunk && ChunksAdded(s, t, d, texts)
    ensures ChunksAdded(s1, t, d, texts)
  {
  }

  // ---- Jobs given back -----------------------------------------------------

  /** What the statements before the report may have done. */
  ghost predicate StillInPlace(s: State, t: State, job: nat, d: nat) {
    && InPlace(s, job, d) && InPlace(t, job, d) && t.now == s.now && t.maxAttempts == s.maxAttempts
    && t.docs == s.docs[d := s.docs[d].(status := t.docs[d].status)]
    && s.nextJob <= t.nextJob && forall j | j in s.jobs :: j in t.jobs && t.jobs[j] == s.jobs[j]
  }

  predicate Ends(op: Op) {
    op == OpAck || op == OpNack || op == OpDelete
  }

  lemma StatementKeepsPlace(s: State, st: Statement, job: nat, d: nat)
    requires InPlace(s, job, d) && (st.Did? ==> !Ends(st.op))
    ensures StillInPlace(s, AfterStatement(s, st, job, d), job, d)
  {
    if st.Did? {
      match st.op
      case OpStatus(_) | OpInsert(_) | OpVectorIds(_) => WriteKeepsPlace(s, st.op, job, d);
      case OpHandOff(stage) => HandOffKeepsPlace(s, stage, job, d);
      case _ => RestKeepsPlace(s, st.op, job, d);
    }
  }

  lemma HandOffKeepsPlace(s: State, stage: Stage, job: nat, d: nat)
    requires InPlace(s, job, d)
    ensures StillInPlace(s, Perform(s, OpHandOff(stage), job, d), job, d)
  {
    NextStageEnqueued(s, job, d, stage);
  }

  /** Stage rows, points and reads leave documents and jobs alone. */
  lemma RestKeepsPlace(s: State, op: Op, job: nat, d: nat)
    requires InPlace(s, job, d) && (op.OpStage? || op.OpUpsert? || op.OpDropVectors? || op.OpNone?)
    ensures StillInPlace(s, Perform(s, op, job, d), job, d)
  {
  }

  lemma WriteKeepsPlace(s: State, op: Op, job: nat, d: nat)
    requires InPlace(s, job, d) && (op.OpStatus? || op.OpInsert? || op.OpVectorIds?)
    ensures StillInPlace(s, Perform(s, op, job, d), job, d)
  {
    match op
    case OpStatus(status) => StatusWritten(s, job, d, status);
    case OpInsert(texts) => ChunksStored(s, job, d, texts);
    case OpVectorIds(rows) => VectorIdsStored(s, job, d, rows);
  }

  lemma InPlaceChain(s: State, t: State, u: State, job: nat, d: nat)
    requires StillInPlace(s, t, job, d) && StillInPlace(t, u, job, d)
    ensures StillInPlace(s, u, job, d)
  {
    var row := s.docs[d].(status := u.docs[d].status);
    assert u.docs == s.docs[d := row];
  }

  lemma {:induction false} LogKeepsPlace(s: State, log: seq<Statement>, job: nat, d: nat)
    requires InPlace(s, job, d) && forall st | st in log && st.Did? :: !Ends(st.op)
    ensures StillInPlace(s, AfterLog(s, log, job, d), job, d)
    decreases |log|
  {
    if log != [] {
      assert log[0] in log && forall st | st in log[1..] :: st in log;
      var t := AfterStatement(s, log[0], job, d);
      StatementKeepsPlace(s, log[0], job, d);
      LogKeepsPlace(t, log[1..], job, d);
      InPlaceChain(s, t, AfterLog(t, log[1..], job, d), job, d);
    }
  }

  lemma {:induction false} LogInTwo(s: State, a: seq<Statement>, b: seq<Statement>, job: nat, d: nat)
    ensures AfterLog(s, a + b, job, d) == AfterLog(AfterLog(s, a, job, d), b, job, d)
    decreases |a|
  {
    if a == [] {
      assert a + b == b;
    } else {
      assert (a + b)[1..] == a[1..] + b;
      LogInTwo(AfterStatement(s, a[0], job, d), a[1..], b, job, d);
    }
  }

  /** The procedure raised somewhere before its end, and its handler ran through. */
  lemma HandlerLeaves(s: State, log: seq<Statement>, plan: seq<Op>, handler: seq<Op>, job: nat, d: nat)
    returns (t: State)
    requires InPlace(s, job, d) && Handled(log, plan, handler, WasNacked)
    requires forall i | 0 <= i < |plan| - 1 :: !Ends(plan[i])
    ensures StillInPlace(s, t, job, d) && AfterLog(s, log, job, d) == AfterPlan(t, handler, job, d)
  {
    var mid :| Follows([], mid, plan, false) && Follows(mid, log, handler, true);
    assert mid[0..] == mid;
    LogKeepsPlace(s, mid, job, d);
    t := AfterLog(s, mid, job, d);
    var rest := log[|mid|..];
    assert log == mid + rest && rest[0..] == rest;
    assert Follows([], rest, handler, true);
    LogInTwo(s, mid, rest, job, d);
    FollowedPlan(t, rest, handler, job, d);
  }

  /** 'failed' for good, or pending again after a while. */
  predicate GivenBack(before: Job, after: Job, now: Time) {
    after == if before.attempt >= before.maxAttempts then before.(status := Failed, lockedAt := None)
             else before.(status := Pending, lockedAt := None,
                          scheduledAt := now + 10_000_000 * Pow2(before.attempt))
  }

  /** The document has the failure status, the stage has failed and the job is given back. */
  ghost predicate Reported(s: State, t: State, name: StageName, job: nat, d: nat)
    requires InPlace(s, job, d)
  {
    && (d, name) in t.stages && t.stages[(d, name)] == StageFailed
    && job in t.jobs && GivenBack(s.jobs[job], t.jobs[job], s.now)
    && forall j | j in s.jobs && j != job :: j in t.jobs && t.jobs[j] == s.jobs[j]
  }

  lemma GiveBackLeaves(s: State, log: seq<Statement>, plan: seq<Op>, name: StageName, status: DocStatus, job: nat,
                       d: nat)
    requires InPlace(s, job, d) && Handled(log, plan, GiveBackPlan(name, status), WasNacked)
    requires forall i | 0 <= i < |plan| - 1 :: !Ends(plan[i])
    ensures var u := AfterLog(s, log, job, d);
      u.docs == WithDoc(s, d, status) && Reported(s, u, name, job, d)
  {
    var t := HandlerLeaves(s, log, plan, GiveBackPlan(name, status), job, d);
    ReportLeaves(t, name, status, job, d);
    assert WithDoc(t, d, status) == WithDoc(s, d, status);
  }

  lemma ReportLeaves(s: State, name: StageName, status: DocStatus, job: nat, d: nat)
    requires InPlace(s, job, d)
    ensures var u := AfterPlan(s, GiveBackPlan(name, status), job, d);
      u.docs == WithDoc(s, d, status) && Reported(s, u, name, job, d)
  {
    Three(s, OpStage(name, StageFailed), OpStatus(status), OpNack, job, d);
    var s1 := s.(stages := s.stages[(d, name) := StageFailed]);
    StageWritten(s, job, d, name, StageFailed);
    StatusWritten(s1, job, d, status);
    JobNacked(s1.(docs := WithDoc(s1, d, status)), job, d);
  }

  // ---- Index ---------------------------------------------------------------

  lemma IndexLeaves(s: State, job: nat, d: nat)
    requires InPlace(s, job, d)
    ensures AfterPlan(s, IndexPlan(), job, d) ==
      s.(stages := s.stages[(d, IndexStage) := StageDone], docs := WithDoc(s, d, Indexed),
         jobs := s.jobs[job := s.jobs[job].(status := Done, lockedAt := None)])
  {
    var s1 := s.(stages := s.stages[(d, IndexStage) := StageProcessing]);
    StageWritten(s, job, d, IndexStage, StageProcessing);
    assert IndexPlan()[1..] == [OpStatus(Indexed), OpStage(IndexStage, StageDone), OpAck];
    Three(s1, OpStatus(Indexed), OpStage(IndexStage, StageDone), OpAck, job, d);
    StatusWritten(s1, job, d, Indexed);
    var s2 := s1.(docs := WithDoc(s1, d, Indexed));
    StageWritten(s2, job, d, IndexStage, StageDone);
    JobAcked(s2.(stages := s2.stages[(d, IndexStage) := StageDone]), job, d);
    assert s2.stages[(d, IndexStage) := StageDone] == s.stages[(d, IndexStage) := StageDone];
  }

  lemma IndexReportLeaves(s: State, log: seq<Statement>, job: nat, d: nat)
    requires InPlace(s, job, d) && Handled(log, IndexPlan(), [OpStage(IndexStage, StageFailed), OpNack], WasNacked)
    ensures var u := AfterLog(s, log, job, d);
      && Reported(s, u, IndexStage, job, d)
      && d in u.docs && u.docs == WithDoc(s, d, u.docs[d].status)
  {
    var handler := [OpStage(IndexStage, StageFailed), OpNack];
    var t := HandlerLeaves(s, log, IndexPlan(), handler, job, d);
    Two(t, OpStage(IndexStage, StageFailed), OpNack, job, d);
    StageWritten(t, job, d, IndexStage, StageFailed);
    JobNacked(t.(stages := t.stages[(d, IndexStage) := StageFailed]), job, d);
  }

  // ---- Embed ---------------------------------------------------------------

  lemma LoadLeaves(s: State, rest: seq<Op>, job: nat, d: nat)
    requires d in s.docs
    ensures AfterPlan(s, [OpNone] + (LoadPlan() + rest), job, d) ==
      AfterPlan(s.(stages := s.stages[(d, EmbedStage) := StageProcessing], docs := WithDoc(s, d, Embedding)),
                rest, job, d)
  {
    assert ([OpNone] + (LoadPlan() + rest))[1..] == LoadPlan() + rest;
    PlanInTwo(s, LoadPlan(), rest, job, d);
    Three(s, OpStage(EmbedStage, StageProcessing), OpStatus(Embedding), OpNone, job, d);
    StageWritten(s, job, d, EmbedStage, StageProcessing);
    StatusWritten(s.(stages := s.stages[(d, EmbedStage) := StageProcessing]), job, d, Embedding);
  }

  lemma NoRowsLeaves(s: State, job: nat, d: nat)
    requires InPlace(s, job, d)
    ensures AfterPlan(s, EmbedPlan(Empty), job, d) ==
      s.(stages := s.stages[(d, EmbedStage) := StageFailed], docs := WithDoc(s, d, EmbedFailed),
         jobs := s.jobs[job := s.jobs[job].(status := Done, lockedAt := None)])
  {
    LoadLeaves(s, AbandonPlan(EmbedStage, EmbedFailed), job, d);
    var s1 := s.(stages := s.stages[(d, EmbedStage) := StageProcessing], docs := WithDoc(s, d, Embedding));
    AbandonLeaves(s1, EmbedStage, EmbedFailed, job, d);
    Overwritten(s, s1, d, Embedding, EmbedFailed);
    assert s1.stages[(d, EmbedStage) := StageFailed] == s.stages[(d, EmbedStage) := StageFailed];
  }

  /** The rows have their own ids as vector ids, and a point each. */
  ghost predicate RowsEmbedded(s: State, t: State, d: nat, rows: set<nat>) {
    && t.chunks.Keys == s.chunks.Keys
    && (forall k | k in s.chunks ::
        t.chunks[k] == if s.chunks[k].id in rows then s.chunks[k].(vectorId := Some(s.chunks[k].id)) else s.chunks[k])
    && (forall id :: id in t.vectors <==> id in s.vectors || id in rows)
    && forall id | id in t.vectors :: t.vectors[id] == if id in rows then d else s.vectors[id]
  }

  lemma VectorsLeave(s: State, rows: set<nat>, job: nat, d: nat)
    requires d in s.docs && AllPresent(s, rows)
    ensures var t := AfterPlan(s, UpsertPlan(rows), job, d);
      && RowsEmbedded(s, t, d, rows)
      && t == s.(docs := WithDoc(s, d, Embedded), chunks := t.chunks, vectors := t.vectors)
  {
    Two(s, OpUpsert(rows), OpVectorIds(rows), job, d);
    var s1 := Perform(s, OpUpsert(rows), job, d);
    PointsUpserted(s, job, d, rows);
    assert forall id | id in rows :: exists k :: k in s1.chunks && s1.chunks[k].id == id;
    VectorIdsStored(s1, job, d, rows);
  }

  lemma EmbeddingLeaves(s: State, rows: set<nat>, job: nat, d: nat)
    requires InPlace(s, job, d) && AllPresent(s, rows)
    ensures var t := AfterPlan(s, RowsPlan(Passes(rows)), job, d);
      && RowsEmbedded(s, t, d, rows)
      && t == s.(stages := s.stages[(d, EmbedStage) := StageDone], docs := WithDoc(s, d, Embedded),
                 chunks := t.chunks, vectors := t.vectors, jobs := PassedOn(s, job, d, Index), nextJob := s.nextJob + 1)
  {
    PlanInTwo(s, UpsertPlan(rows), [OpStage(EmbedStage, StageDone), OpHandOff(Index), OpAck], job, d);
    VectorsLeave(s, rows, job, d);
    var s1 := AfterPlan(s, UpsertPlan(rows), job, d);
    HandOverLeaves(s1, EmbedStage, Index, job, d);
  }

  lemma EmbedLeaves(s: State, rows: set<nat>, job: nat, d: nat)
    requires InPlace(s, job, d) && AllPresent(s, rows)
    ensures var t := AfterPlan(s, EmbedPlan(Passes(rows)), job, d);
      && RowsEmbedded(s, t, d, rows)
      && t == s.(stages := s.stages[(d, EmbedStage) := StageDone], docs := WithDoc(s, d, Embedded),
                 chunks := t.chunks, vectors := t.vectors, jobs := PassedOn(s, job, d, Index), nextJob := s.nextJob + 1)
  {
    LoadLeaves(s, RowsPlan(Passes(rows)), job, d);
    var s1 := s.(stages := s.stages[(d, EmbedStage) := StageProcessing], docs := WithDoc(s, d, Embedding));
    SameChunksPresent(s, s1, rows);
    EmbeddingLeaves(s1, rows, job, d);
    var t := AfterPlan(s1, RowsPlan(Passes(rows)), job, d);
    SameRowsEmbedded(s1, s, t, d, rows);
    EmbedCombined(s, s1, t, job, d);
  }

  lemma EmbedCombined(s: State, s1: State, t: State, job: nat, d: nat)
    requires InPlace(s, job, d)
    requires s1 == s.(stages := s.stages[(d, EmbedStage) := StageProcessing], docs := WithDoc(s, d, Embedding))
    requires t == s1.(stages := s1.stages[(d, EmbedStage) := StageDone], docs := WithDoc(s1, d, Embedded),
                      chunks := t.chunks, vectors := t.vectors,
                      jobs := PassedOn(s1, job, d, Index), nextJob := s1.nextJob + 1)
    ensures t == s.(stages := s.stages[(d, EmbedStage) := StageDone], docs := WithDoc(s, d, Embedded),
                    chunks := t.chunks, vectors := t.vectors,
                    jobs := PassedOn(s, job, d, Index), nextJob := s.nextJob + 1)
  {
    Overwritten(s, s1, d, Embedding, Embedded);
    assert t.stages == s.stages[(d, EmbedStage) := StageDone];
  }

  lemma SameRowsEmbedded(s: State, s1: State, t: State, d: nat, rows: set<nat>)
    requires s1.chunks == s.chunks && s1.vectors == s.vectors && RowsEmbedded(s, t, d, rows)
    ensures RowsEmbedded(s1, t, d, rows)
  {
  }

  lemma SameChunksPresent(s: State, t: State, rows: set<nat>)
    requires t.chunks == s.chunks && AllPresent(s, rows)
    ensures AllPresent(t, rows)
  {
  }

  /** An undisturbed run in which nothing raises. */
  ghost predicate Succeeds(s: State, es: seq<Event>, w: nat, k: Worker, log: seq<Statement>) {
    && CanRun(s, es) && Undisturbed(es, w) && w in s.workers && s.workers[w] == k
    && log == Statements(s, es, w) && forall st | st in log :: st.Did?
  }

  lemma NextStatement(s: State, es: seq<Event>, w: nat, k: Worker, log: seq<Statement>, next: Pc)
    returns (t: State, rest: seq<Event>)
    requires Succeeds(s, es, w, k, log) && log != []
    requires KindOf(k.pc) == Embed && After(s, k) == Some(next)
    ensures log[0] == Did(OpAt(k.pc)) && Succeeds(t, rest, w, k.(pc := next), log[1..])
    ensures !OpAt(k.pc).OpVectorIds? ==> t.chunks == s.chunks
  {
    assert es[0] in es && forall e | e in es[1..] :: e in es;
    assert log[0] in log && forall st | st in log[1..] :: st in log;
    var pc := PlainStep(s, es[0], w);
    assert log == StatementOf(s, es[0], w) + Statements(Apply(s, es[0]), es[1..], w);
    t, rest := Apply(s, es[0]), es[1..];
    assert log[1..] == Statements(t, rest, w);
    if !OpAt(k.pc).OpVectorIds? {
      EmbedKeepsChunks(s, k);
    }
  }

  lemma EmbedKeepsChunks(s: State, k: Worker)
    requires KindOf(k.pc) == Embed && !OpAt(k.pc).OpVectorIds?
    ensures !k.pc.StoreChunks? && Effect(s, k).chunks == s.chunks
  {
    EmbedOps(k.pc);
    OthersKeepChunks(s, OpAt(k.pc), k.job, k.doc);
  }

  lemma EmbedOps(pc: Pc)
    requires KindOf(pc) == Embed
    ensures !OpAt(pc).OpInsert? && !OpAt(pc).OpDelete? && !pc.StoreChunks?
  {
  }

  lemma OthersKeepChunks(s: State, op: Op, job: nat, d: nat)
    requires !op.OpInsert? && !op.OpVectorIds? && !op.OpDelete?
    ensures Perform(s, op, job, d).chunks == s.chunks
  {
  }

  /** The first two statements of an embed job whose document is there. */
  lemma GuardPassed(s: State, es: seq<Event>, w: nat, job: nat, d: nat, log: seq<Statement>)
    returns (t: State, rest: seq<Event>)
    requires Succeeds(s, es, w, Worker(job, d, Guard), log) && |log| >= 2
    requires d in s.docs && s.docs[d].status != Deleted
    ensures log[1] == Did(OpStage(EmbedStage, StageProcessing)) && t.chunks == s.chunks
    ensures Succeeds(t, rest, w, Worker(job, d, StatusEmbedding), log[2..])
  {
    var s1, es1 := NextStatement(s, es, w, Worker(job, d, Guard), log, EmbedProcessing);
    t, rest := NextStatement(s1, es1, w, Worker(job, d, EmbedProcessing), log[1..], StatusEmbedding);
    assert log[1..][1..] == log[2..];
  }

  /** The next two: the rows are read. */
  lemma RowsLoaded(s: State, es: seq<Event>, w: nat, job: nat, d: nat, log: seq<Statement>)
    returns (t: State, rest: seq<Event>)
    requires Succeeds(s, es, w, Worker(job, d, StatusEmbedding), log) && |log| >= 2
    ensures t.chunks == s.chunks
    ensures Succeeds(t, rest, w, Worker(job, d, if RowIds(s, d) == {} then NoRowsStage else Upsert(RowIds(s, d))),
                     log[2..])
  {
    var s1, es1 := NextStatement(s, es, w, Worker(job, d, StatusEmbedding), log, ReadChunks);
    SameRowIds(s, s1, d);
    t, rest := RowsReadNext(s1, es1, w, job, d, log[1..]);
    assert log[1..][1..] == log[2..];
  }

  lemma RowsReadNext(s: State, es: seq<Event>, w: nat, job: nat, d: nat, log: seq<Statement>)
    returns (t: State, rest: seq<Event>)
    requires Succeeds(s, es, w, Worker(job, d, ReadChunks), log) && log != []
    ensures t.chunks == s.chunks
    ensures Succeeds(t, rest, w, Worker(job, d, if RowIds(s, d) == {} then NoRowsStage else Upsert(RowIds(s, d))),
                     log[1..])
  {
    var next := if RowIds(s, d) == {} then NoRowsStage else Upsert(RowIds(s, d));
    assert After(s, Worker(job, d, ReadChunks)) == Some(next);
    t, rest := NextStatement(s, es, w, Worker(job, d, ReadChunks), log, next);
  }

  /** And the vectors stored. */
  lemma RowsStored(s: State, es: seq<Event>, w: nat, job: nat, d: nat, rows: set<nat>, log: seq<Statement>)
    requires Succeeds(s, es, w, Worker(job, d, Upsert(rows)), log) && |log| >= 3 && AllPresent(s, rows)
    ensures log[0] == Did(OpUpsert(rows)) && log[2] == Did(OpStage(EmbedStage, StageDone))
  {
    var s1, es1 := NextStatement(s, es, w, Worker(job, d, Upsert(rows)), log, StoreVectorIds(rows));
    assert s1.chunks == s.chunks;
    SameChunksPresent(s, s1, rows);
    IdsStored(s1, es1, w, job, d, rows, log[1..]);
  }

  lemma IdsStored(s: State, es: seq<Event>, w: nat, job: nat, d: nat, rows: set<nat>, log: seq<Statement>)
    requires Succeeds(s, es, w, Worker(job, d, StoreVectorIds(rows)), log) && |log| >= 2 && AllPresent(s, rows)
    ensures log[1] == Did(OpStage(EmbedStage, StageDone))
  {
    var k := Worker(job, d, StoreVectorIds(rows));
    assert After(s, k) == Some(EmbedDone);
    var s1, es1 := NextStatement(s, es, w, k, log, EmbedDone);
    DoneNext(s1, es1, w, job, d, log[1..]);
  }

  lemma DoneNext(s: State, es: seq<Event>, w: nat, job: nat, d: nat, log: seq<Statement>)
    requires Succeeds(s, es, w, Worker(job, d, EmbedDone), log) && log != []
    ensures log[0] == Did(OpStage(EmbedStage, StageDone))
  {
    var s1, es1 := NextStatement(s, es, w, Worker(job, d, EmbedDone), log, EnqueueIndex);
  }

  /** A document that is there is embedded when it has rows, all of them. */
  lemma EmbedAnswers(s: State, es: seq<Event>, w: nat, job: nat, d: nat, log: seq<Statement>, path: EmbedPath)
    requires Succeeds(s, es, w, Worker(job, d, Guard), log)
    requires d in s.docs && s.docs[d].status != Deleted && Follows([], log, EmbedPlan(path), true)
    ensures path == if RowIds(s, d) == {} then Empty else Passes(RowIds(s, d))
  {
    PlanIsLong(log, path);
    var s1, es1 := GuardPassed(s, es, w, job, d, log);
    RestOfPlan(log, path);
    var s2, es2 := RowsLoaded(s1, es1, w, job, d, log[2..]);
    assert log[2..][2..] == log[4..];
    SameRowIds(s, s1, d);
    SameRowIds(s, s2, d);
    RowsAnswered(s2, es2, w, job, d, path, RowIds(s, d), log[4..]);
  }

  lemma PlanIsLong(log: seq<Statement>, path: EmbedPath)
    requires Follows([], log, EmbedPlan(path), true)
    ensures |log| >= 2
  {
  }

  /** What follows once the document was found. */
  lemma RestOfPlan(log: seq<Statement>, path: EmbedPath)
    requires Follows([], log, EmbedPlan(path), true) && |log| >= 2
    requires log[1] == Did(OpStage(EmbedStage, StageProcessing))
    ensures path != Skips && |log| >= 4 && |log[4..]| == |RowsPlan(path)|
    ensures forall i | 0 <= i < |log| - 4 :: log[4..][i] == Did(RowsPlan(path)[i])
  {
    assert log[0..] == log;
    assert log[1] == Did(EmbedPlan(path)[1]);
    assert EmbedPlan(path) == [OpNone] + LoadPlan() + RowsPlan(path);
    forall i | 0 <= i < |log| - 4 ensures log[4..][i] == Did(RowsPlan(path)[i]) {
      assert log[i + 4] == Did(EmbedPlan(path)[i + 4]);
    }
  }

  lemma SameRowIds(s: State, t: State, d: nat)
    requires t.chunks == s.chunks
    ensures RowIds(t, d) == RowIds(s, d)
  {
  }

  lemma RowsAnswered(s: State, es: seq<Event>, w: nat, job: nat, d: nat, path: EmbedPath, rows: set<nat>,
                     log: seq<Statement>)
    requires Succeeds(s, es, w, Worker(job, d, if rows == {} then NoRowsStage else Upsert(rows)), log)
    requires path != Skips && rows == RowIds(s, d)
    requires |log| == |RowsPlan(path)| && forall i | 0 <= i < |log| :: log[i] == Did(RowsPlan(path)[i])
    ensures path == if rows == {} then Empty else Passes(rows)
  {
    if rows == {} {
      var s1, es1 := NextStatement(s, es, w, Worker(job, d, NoRowsStage), log, NoRowsStatus);
    } else {
      RowsStored(s, es, w, job, d, rows, log);
    }
  }

  // ---- Purge ---------------------------------------------------------------

  lemma LogOfThree(s: State, log: seq<Statement>, job: nat, d: nat)
    requires |log| == 3
    ensures AfterLog(s, log, job, d) ==
      AfterStatement(AfterStatement(AfterStatement(s, log[0], job, d), log[1], job, d), log[2], job, d)
  {
    var s1 := AfterStatement(s, log[0], job, d);
    var s2 := AfterStatement(s1, log[1], job, d);
    assert log[1..][0] == log[1] && log[1..][1..][0] == log[2] && log[1..][1..][1..] == [];
    assert AfterLog(s2, log[1..][1..], job, d) == AfterLog(AfterStatement(s2, log[2], job, d), [], job, d);
  }

  /** Nothing of the document is left, but for its points if the vector store raised. */
  ghost predicate Purged(s: State, t: State, d: nat, dropped: bool) {
    && t.docs == s.docs - {d}
    && (forall k :: k in t.chunks <==> k in s.chunks && k.0 != d)
    && (forall k | k in t.chunks :: t.chunks[k] == s.chunks[k])
    && (forall k :: k in t.stages <==> k in s.stages && k.0 != d)
    && (forall k | k in t.stages :: t.stages[k] == s.stages[k])
    && (forall j :: j in t.jobs <==> j in s.jobs && s.jobs[j].doc != d)
    && (forall j | j in t.jobs :: t.jobs[j] == s.jobs[j])
    && (forall id :: id in t.vectors <==> id in s.vectors && (dropped ==> s.vectors[id] != d))
    && forall id | id in t.vectors :: t.vectors[id] == s.vectors[id]
  }

  lemma PurgeLeaves(s: State, log: seq<Statement>, job: nat, d: nat)
    requires PurgeLog(log, WasAcked)
    ensures Purged(s, AfterLog(s, log, job, d), d, log[0].Did?)
  {
    LogOfThree(s, log, job, d);
    PointsDropped(s, job, d);
    DocumentDeleted(AfterStatement(s, log[0], job, d), job, d);
  }

  // ---- The procedures ------------------------------------------------------

  /** A procedure of worker k that nobody disturbs, and that has come to its end. */
  ghost predicate ByItself(s: State, t: Trail, w: nat, k: Worker) {
    && RanFrom(s, t, w) && Undisturbed(t.events, w)
    && w in s.workers && s.workers[w] == k && w !in t.db.workers && InPlace(s, k.job, k.doc)
  }

  lemma LeftBehind(s: State, t: Trail, w: nat, k: Worker)
    requires ByItself(s, t, w, k)
    ensures t.db == AfterLog(s, t.log, k.job, k.doc).(workers := s.workers - {w})
  {
    UndisturbedEffect(s, t.events, w, k);
    assert t.db.workers == t.db.workers - {w};
    assert t.db == Without(t.db).(workers := t.db.workers);
  }

  /** Ingest: the failed stage, or the chunks and a job for the next stage. */
  lemma IngestAlone(s: State, t: Trail, w: nat, k: Worker, blank: bool, texts: seq<string>)
    requires ByItself(s, t, w, k)
    requires Handled(t.log, IngestPlan(blank, texts), GiveBackPlan(ParseStage, DocError), WasAcked)
    ensures blank ==>
      t.db == s.(workers := s.workers - {w},
                 stages := s.stages[(k.doc, ParseStage) := StageFailed],
                 docs := s.docs[k.doc := s.docs[k.doc].(status := ParseFailed)],
                 jobs := s.jobs[k.job := s.jobs[k.job].(status := Done, lockedAt := None)])
    ensures !blank && texts == [] ==>
      t.db == s.(workers := s.workers - {w},
                 stages := s.stages[(k.doc, ParseStage) := StageDone][(k.doc, ChunkStage) := StageFailed],
                 docs := s.docs[k.doc := s.docs[k.doc].(status := ChunkFailed)],
                 jobs := s.jobs[k.job := s.jobs[k.job].(status := Done, lockedAt := None)])
    ensures !blank && texts != [] ==>
      && ChunksAdded(s, t.db, k.doc, texts)
      && t.db == s.(workers := s.workers - {w},
                    stages := s.stages[(k.doc, ParseStage) := StageDone][(k.doc, ChunkStage) := StageDone],
                    docs := s.docs[k.doc := s.docs[k.doc].(status := Chunked)],
                    chunks := t.db.chunks, nextChunk := t.db.nextChunk,
                    jobs := PassedOn(s, k.job, k.doc, Embed), nextJob := s.nextJob + 1)
  {
    LeftBehind(s, t, w, k);
    FollowedPlan(s, t.log, IngestPlan(blank, texts), k.job, k.doc);
    if blank {
      BlankLeaves(s, texts, k.job, k.doc);
    } else if texts == [] {
      NoChunksLeaves(s, k.job, k.doc);
    } else {
      IngestLeaves(s, texts, k.job, k.doc);
    }
  }

  lemma PlansEndOnce(blank: bool, texts: seq<string>, path: EmbedPath)
    ensures forall i | 0 <= i < |IngestPlan(blank, texts)| - 1 :: !Ends(IngestPlan(blank, texts)[i])
    ensures forall i | 0 <= i < |EmbedPlan(path)| - 1 :: !Ends(EmbedPlan(path)[i])
  {
  }

  /** When something raises, ingest reports 'error' and a failed parse stage, whichever it
      was, and gives the job back. */
  lemma IngestReportAlone(s: State, t: Trail, w: nat, k: Worker, blank: bool, texts: seq<string>)
    requires ByItself(s, t, w, k)
    requires Handled(t.log, IngestPlan(blank, texts), GiveBackPlan(ParseStage, DocError), WasNacked)
    ensures t.db.docs == s.docs[k.doc := s.docs[k.doc].(status := DocError)]
    ensures Reported(s, t.db, ParseStage, k.job, k.doc)
  {
    LeftBehind(s, t, w, k);
    PlansEndOnce(blank, texts, Skips);
    GiveBackLeaves(s, t.log, IngestPlan(blank, texts), ParseStage, DocError, k.job, k.doc);
  }

  lemma EmbedReportAlone(s: State, t: Trail, w: nat, k: Worker, path: EmbedPath)
    requires ByItself(s, t, w, k)
    requires Handled(t.log, EmbedPlan(path), GiveBackPlan(EmbedStage, EmbedFailed), WasNacked)
    ensures t.db.docs == s.docs[k.doc := s.docs[k.doc].(status := EmbedFailed)]
    ensures Reported(s, t.db, EmbedStage, k.job, k.doc)
  {
    LeftBehind(s, t, w, k);
    PlansEndOnce(true, [], path);
    GiveBackLeaves(s, t.log, EmbedPlan(path), EmbedStage, EmbedFailed, k.job, k.doc);
  }

  /** Embed: every chunk row of the document has its vector. */
  lemma EmbedAlone(s: State, t: Trail, w: nat, k: Worker, path: EmbedPath)
    requires ByItself(s, t, w, k) && k.pc == Guard && s.docs[k.doc].status != Deleted
    requires Handled(t.log, EmbedPlan(path), GiveBackPlan(EmbedStage, EmbedFailed), WasAcked)
    requires exists c :: c in s.chunks && c.0 == k.doc
    ensures RowsEmbedded(s, t.db, k.doc, set c | c in s.chunks && c.0 == k.doc :: s.chunks[c].id)
    ensures t.db == s.(workers := s.workers - {w},
                       stages := s.stages[(k.doc, EmbedStage) := StageDone],
                       docs := s.docs[k.doc := s.docs[k.doc].(status := Embedded)],
                       chunks := t.db.chunks, vectors := t.db.vectors,
                       jobs := PassedOn(s, k.job, k.doc, Index), nextJob := s.nextJob + 1)
  {
    LeftBehind(s, t, w, k);
    EmbedAcked(s, t, w, k, path);
    SomeRow(s, k.doc);
    var u := AfterLog(s, t.log, k.job, k.doc);
    SameTablesEmbedded(s, u, t.db, k.doc, RowIds(s, k.doc));
  }

  lemma SameTablesEmbedded(s: State, t: State, t1: State, d: nat, rows: set<nat>)
    requires t1.chunks == t.chunks && t1.vectors == t.vectors && RowsEmbedded(s, t, d, rows)
    ensures RowsEmbedded(s, t1, d, rows)
  {
  }

  /** Without a chunk row the stage has failed. */
  lemma EmptyEmbedAlone(s: State, t: Trail, w: nat, k: Worker, path: EmbedPath)
    requires ByItself(s, t, w, k) && k.pc == Guard && s.docs[k.doc].status != Deleted
    requires Handled(t.log, EmbedPlan(path), GiveBackPlan(EmbedStage, EmbedFailed), WasAcked)
    requires forall c | c in s.chunks :: c.0 != k.doc
    ensures t.db == s.(workers := s.workers - {w},
                       stages := s.stages[(k.doc, EmbedStage) := StageFailed],
                       docs := s.docs[k.doc := s.docs[k.doc].(status := EmbedFailed)],
                       jobs := s.jobs[k.job := s.jobs[k.job].(status := Done, lockedAt := None)])
  {
    LeftBehind(s, t, w, k);
    EmbedAcked(s, t, w, k, path);
    SomeRow(s, k.doc);
  }

  lemma SomeRow(s: State, d: nat)
    ensures RowIds(s, d) == {} <==> forall c | c in s.chunks :: c.0 != d
  {
    if c :| c in s.chunks && c.0 == d {
      assert s.chunks[c].id in RowIds(s, d);
    }
  }

  lemma EmbedAcked(s: State, t: Trail, w: nat, k: Worker, path: EmbedPath)
    requires ByItself(s, t, w, k) && k.pc == Guard && s.docs[k.doc].status != Deleted
    requires Follows([], t.log, EmbedPlan(path), true)
    ensures var rows, u := RowIds(s, k.doc), AfterLog(s, t.log, k.job, k.doc);
      if rows == {} then
        u == s.(stages := s.stages[(k.doc, EmbedStage) := StageFailed], docs := WithDoc(s, k.doc, EmbedFailed),
                jobs := s.jobs[k.job := s.jobs[k.job].(status := Done, lockedAt := None)])
      else
        && RowsEmbedded(s, u, k.doc, rows)
        && u == s.(stages := s.stages[(k.doc, EmbedStage) := StageDone], docs := WithDoc(s, k.doc, Embedded),
                   chunks := u.chunks, vectors := u.vectors,
                   jobs := PassedOn(s, k.job, k.doc, Index), nextJob := s.nextJob + 1)
  {
    assert t.log[0..] == t.log;
    FollowedPlan(s, t.log, EmbedPlan(path), k.job, k.doc);
    EmbedAnswers(s, t.events, w, k.job, k.doc, t.log, path);
    if RowIds(s, k.doc) == {} {
      NoRowsLeaves(s, k.job, k.doc);
    } else {
      EmbedLeaves(s, RowIds(s, k.doc), k.job, k.doc);
    }
  }

  /** Index: 'indexed', or the failed stage with the status left alone. */
  lemma IndexAlone(s: State, t: Trail, w: nat, k: Worker, exit: Exit)
    requires ByItself(s, t, w, k)
    requires Handled(t.log, IndexPlan(), [OpStage(IndexStage, StageFailed), OpNack], exit)
    ensures exit == WasAcked ==>
      t.db == s.(workers := s.workers - {w},
                 stages := s.stages[(k.doc, IndexStage) := StageDone],
                 docs := s.docs[k.doc := s.docs[k.doc].(status := Indexed)],
                 jobs := s.jobs[k.job := s.jobs[k.job].(status := Done, lockedAt := None)])
    ensures exit == WasNacked ==> Reported(s, t.db, IndexStage, k.job, k.doc)
  {
    LeftBehind(s, t, w, k);
    if exit == WasAcked {
      FollowedPlan(s, t.log, IndexPlan(), k.job, k.doc);
      IndexLeaves(s, k.job, k.doc);
    } else if exit == WasNacked {
      IndexReportLeaves(s, t.log, k.job, k.doc);
    }
  }

  /** Purge: nothing of the document is left, and nothing else is touched. */
  lemma PurgeAlone(s: State, t: Trail, w: nat, k: Worker)
    requires ByItself(s, t, w, k) && PurgeLog(t.log, WasAcked)
    ensures Purged(s, t.db, k.doc, t.log[0].Did?)
  {
    LeftBehind(s, t, w, k);
    PurgeLeaves(s, t.log, k.job, k.doc);
  }
}
