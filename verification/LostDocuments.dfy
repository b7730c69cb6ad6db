/**
 Two runs of the protocol after which a document has no job left and nothing that
 shows how it ended: the losing statements of HandOff do occur.
 */
module LostDocuments {
  import opened Prelude
  import opened JobQueue
  import opened Pipeline
  import opened Runs
  import opened HandOff

  /** The document is there and no stage of it has failed. */
  ghost predicate Fine(s: State, d: nat) {
    && s.phase == Up && d in s.docs && s.docs[d].status != Deleted
    && forall name :: !StageFailedAt(s, d, name)
  }

  /** Clock, limits and job table are as before. */
  predicate SameJobs(s: State, t: State) {
    t.jobs == s.jobs && t.nextJob == s.nextJob && t.now == s.now && t.maxAttempts == s.maxAttempts
  }

  /** Statements that neither touch the job table nor report a failure. */
  predicate Calm(op: Op) {
    match op
    case OpStage(_, status) => status != StageFailed
    case OpStatus(status) => status != Deleted
    case OpInsert(_) | OpUpsert(_) | OpVectorIds(_) | OpNone => true
    case _ => false
  }

  function StatusAfter(s: State, op: Op, d: nat): DocStatus
    requires d in s.docs
  {
    match op
    case OpStatus(status) => status
    case OpInsert(_) => Chunked
    case OpVectorIds(rows) => if AllPresent(s, rows) then Embedded else s.docs[d].status
    case _ => s.docs[d].status
  }

  lemma CalmEffect(s: State, op: Op, job: nat, d: nat)
    requires Fine(s, d) && Calm(op)
    ensures var t := Perform(s, op, job, d);
      && Fine(t, d) && SameJobs(s, t)
      && t.docs[d].status == StatusAfter(s, op, d)
      && t.chunks.Keys == s.chunks.Keys + (if op.OpInsert? then ChunkKeys(d, |op.texts|) else {})
      && (op.OpInsert? || op.OpVectorIds? || t.chunks == s.chunks)
  {
    CalmRows(s, op, job, d);
    CalmChunks(s, op, job, d);
  }

  lemma CalmRows(s: State, op: Op, job: nat, d: nat)
    requires Fine(s, d) && Calm(op)
    ensures var t := Perform(s, op, job, d);
      Fine(t, d) && SameJobs(s, t) && t.docs[d].status == StatusAfter(s, op, d)
  {
    var t := Perform(s, op, job, d);
    CalmStatus(s, op, job, d);
    forall name ensures !StageFailedAt(t, d, name) {
      assert !StageFailedAt(s, d, name);
    }
  }

  lemma CalmStatus(s: State, op: Op, job: nat, d: nat)
    requires d in s.docs && Calm(op)
    ensures var t := Perform(s, op, job, d);
      d in t.docs && SameJobs(s, t) && t.docs[d].status == StatusAfter(s, op, d)
  {
  }

  lemma CalmChunks(s: State, op: Op, job: nat, d: nat)
    requires d in s.docs && Calm(op)
    ensures var t := Perform(s, op, job, d);
      && t.chunks.Keys == s.chunks.Keys + (if op.OpInsert? then ChunkKeys(d, |op.texts|) else {})
      && (op.OpInsert? || op.OpVectorIds? || t.chunks == s.chunks)
  {
  }

  /** One statement of worker w, which then stands at pc. */
  lemma Advance(R: iset<State>, s: State, e: Event, w: nat, pc: Pc) returns (t: State)
    requires Closed(R) && s in R
    requires Enabled(s, e) && w in s.workers && Fine(s, s.workers[w].doc) && Calm(OpAt(s.workers[w].pc))
    requires
      || (e == Commit(w) && After(s, s.workers[w]) == Some(pc))
      || (e == Parsed(w, false) && pc == ParseDone)
      || (e == Split(w, ["x"]) && pc == StoreChunks(["x"]))
    ensures t in R && SameJobs(s, t) && t.workers == s.workers[w := s.workers[w].(pc := pc)]
    ensures var d, op := s.workers[w].doc, OpAt(s.workers[w].pc);
      && Fine(t, d) && t.docs[d].status == StatusAfter(s, op, d)
      && t.chunks.Keys == s.chunks.Keys + (if op.OpInsert? then ChunkKeys(d, |op.texts|) else {})
      && (op.OpInsert? || op.OpVectorIds? || t.chunks == s.chunks)
  {
    StepStays(R, s, e);
    CalmEffect(s, OpAt(s.workers[w].pc), s.workers[w].job, s.workers[w].doc);
    t := Apply(s, e);
    FineStays(Perform(s, OpAt(s.workers[w].pc), s.workers[w].job, s.workers[w].doc), t, s.workers[w].doc);
  }

  lemma FineStays(s: State, t: State, d: nat)
    requires Fine(s, d) && t.docs == s.docs && t.stages == s.stages && t.phase == s.phase
    ensures Fine(t, d)
  {
    forall name ensures !StageFailedAt(t, d, name) {
      assert !StageFailedAt(s, d, name);
    }
  }

  /** Worker w claims job j of document d. */
  lemma Begin(R: iset<State>, s: State, w: nat, j: nat, d: nat) returns (t: State)
    requires Closed(R) && s in R
    requires Fine(s, d) && w !in s.workers && Enabled(s, Claim(w, j)) && s.jobs[j].doc == d
    ensures t in R && Fine(t, d) && t.docs == s.docs && t.chunks == s.chunks
    ensures t.workers == s.workers[w := Worker(j, d, Start(s.jobs[j].stage))]
    ensures t.jobs == s.jobs[j := Claimed(s.jobs[j], s.now)]
    ensures t.nextJob == s.nextJob && t.now == s.now && t.maxAttempts == s.maxAttempts
  {
    StepStays(R, s, Claim(w, j));
    t := Apply(s, Claim(w, j));
    FineStays(s, t, d);
  }

  lemma NextEnqueued(R: iset<State>, s: State, w: nat, next: Stage, ack: Pc) returns (t: State)
    requires Closed(R) && s in R && w in s.workers && s.workers[w].doc in s.docs
    requires OpAt(s.workers[w].pc) == OpHandOff(next) && After(s, s.workers[w]) == Some(ack)
    ensures t in R && t == Goto(AddJob(s, s.workers[w].doc, next), w, s.workers[w], Some(ack))
  {
    StepStays(R, s, Commit(w));
    t := Apply(s, Commit(w));
  }

  /** The last two statements of a stage: enqueue the next one, then ack. */
  lemma HandOn(R: iset<State>, s: State, w: nat, next: Stage, ack: Pc) returns (t: State)
    requires Closed(R) && s in R
    requires w in s.workers && Fine(s, s.workers[w].doc) && s.nextJob !in s.jobs && s.workers[w].job in s.jobs
    requires OpAt(s.workers[w].pc) == OpHandOff(next) && After(s, s.workers[w]) == Some(ack) && OpAt(ack) == OpAck
    ensures t in R && Fine(t, s.workers[w].doc) && t.docs == s.docs && t.chunks == s.chunks
    ensures t.workers == s.workers - {w} && t.now == s.now && t.maxAttempts == s.maxAttempts
    ensures t.nextJob == s.nextJob + 1
    ensures t.jobs == Acked(s.jobs, s.workers[w].job)[s.nextJob := NewJob(s.workers[w].doc, next, s.maxAttempts, s.now)]
  {
    var k := s.workers[w];
    var s1 := NextEnqueued(R, s, w, next, ack);
    FineStays(s, s1, k.doc);
    t := AckLast(R, s1, w);
    FineStays(s1, t, k.doc);
    assert t.workers == s.workers - {w};
  }

  lemma AckLast(R: iset<State>, s: State, w: nat) returns (t: State)
    requires Closed(R) && s in R && w in s.workers && OpAt(s.workers[w].pc) == OpAck
    ensures t in R && t.docs == s.docs && t.chunks == s.chunks && t.stages == s.stages && t.phase == s.phase
    ensures t.workers == s.workers - {w} && t.now == s.now && t.maxAttempts == s.maxAttempts && t.nextJob == s.nextJob
    ensures t.jobs == Acked(s.jobs, s.workers[w].job)
  {
    StepStays(R, s, Commit(w));
    AckApplied(s, w);
    t := Apply(s, Commit(w));
  }

  /** What a stage that passes its document on leaves behind. */
  ghost predicate Passed(s: State, t: State, j: nat, d: nat, next: Stage)
    requires j in s.jobs
  {
    && Fine(t, d) && (d, 0) in t.chunks
    && t.workers == s.workers && t.now == s.now && t.maxAttempts == s.maxAttempts
    && t.nextJob == s.nextJob + 1
    && t.jobs == s.jobs[j := Claimed(s.jobs[j], s.now).(status := Done, lockedAt := None)]
                       [s.nextJob := NewJob(d, next, s.maxAttempts, s.now)]
  }

  /** Statements still to come before the ingest worker hands its document on. */
  function ToGo(pc: Pc): nat {
    match pc
    case ParseProcessing => 8
    case StatusParsing => 7
    case Fetch => 6
    case ParseDone => 5
    case ChunkProcessing => 4
    case MakeChunks => 3
    case StoreChunks(texts) => 2
    case ChunkDone => 1
    case _ => 0
  }

  function IngestNext(pc: Pc): (next: Pc)
    ensures ToGo(pc) > 0 ==> ToGo(next) == ToGo(pc) - 1 && (next == EnqueueEmbed || ToGo(next) > 0)
    ensures next.StoreChunks? ==> next.texts == ["x"]
  {
    match pc
    case ParseProcessing => StatusParsing
    case StatusParsing => Fetch
    case Fetch => ParseDone
    case ParseDone => ChunkProcessing
    case ChunkProcessing => MakeChunks
    case MakeChunks => StoreChunks(["x"])
    case StoreChunks(_) => ChunkDone
    case _ => EnqueueEmbed
  }

  /** The ingest worker proceeds, its document being one chunk long. */
  lemma {:induction false} IngestProceeds(R: iset<State>, s: State, w: nat) returns (t: State)
    requires Closed(R) && s in R
    requires w in s.workers && Fine(s, s.workers[w].doc)
    requires var pc := s.workers[w].pc;
      pc == EnqueueEmbed || (ToGo(pc) > 0 && (pc.StoreChunks? ==> pc.texts == ["x"]))
    requires ToGo(s.workers[w].pc) < 2 ==> (s.workers[w].doc, 0) in s.chunks
    ensures t in R && SameJobs(s, t) && Fine(t, s.workers[w].doc) && (s.workers[w].doc, 0) in t.chunks
    ensures t.workers == s.workers[w := s.workers[w].(pc := EnqueueEmbed)]
    decreases ToGo(s.workers[w].pc)
  {
    var k := s.workers[w];
    if k.pc == EnqueueEmbed {
      t := s;
    } else {
      var s1 := IngestStep(R, s, w);
      t := IngestProceeds(R, s1, w);
    }
  }

  lemma IngestStep(R: iset<State>, s: State, w: nat) returns (t: State)
    requires Closed(R) && s in R
    requires w in s.workers && Fine(s, s.workers[w].doc)
    requires var pc := s.workers[w].pc; ToGo(pc) > 0 && (pc.StoreChunks? ==> pc.texts == ["x"])
    requires ToGo(s.workers[w].pc) < 2 ==> (s.workers[w].doc, 0) in s.chunks
    ensures t in R && SameJobs(s, t) && Fine(t, s.workers[w].doc)
    ensures t.workers == s.workers[w := s.workers[w].(pc := IngestNext(s.workers[w].pc))]
    ensures ToGo(s.workers[w].pc) <= 2 ==> (s.workers[w].doc, 0) in t.chunks
  {
    var k := s.workers[w];
    if k.pc == Fetch {
      t := Advance(R, s, Parsed(w, false), w, ParseDone);
    } else if k.pc == MakeChunks {
      t := Advance(R, s, Split(w, ["x"]), w, StoreChunks(["x"]));
    } else {
      t := Advance(R, s, Commit(w), w, IngestNext(k.pc));
    }
  }

  lemma IngestPasses(R: iset<State>, s: State, w: nat, j: nat, d: nat) returns (t: State)
    requires Closed(R) && s in R
    requires Fine(s, d) && w !in s.workers && Enabled(s, Claim(w, j)) && s.jobs[j].doc == d
    requires s.jobs[j].stage == Ingest && s.nextJob !in s.jobs
    ensures t in R && Passed(s, t, j, d, Embed)
  {
    var s1 := Begin(R, s, w, j, d);
    var s2 := IngestProceeds(R, s1, w);
    t := HandOn(R, s2, w, Embed, IngestAck);
  }

  lemma EmbedReads(R: iset<State>, s: State, w: nat, j: nat, d: nat) returns (t: State)
    requires Closed(R) && s in R
    requires w in s.workers && s.workers[w] == Worker(j, d, Guard) && Fine(s, d)
    ensures t in R && SameJobs(s, t) && Fine(t, d) && t.chunks == s.chunks
    ensures t.workers == s.workers[w := Worker(j, d, ReadChunks)]
  {
    var s1 := Advance(R, s, Commit(w), w, EmbedProcessing);
    var s2 := Advance(R, s1, Commit(w), w, StatusEmbedding);
    t := Advance(R, s2, Commit(w), w, ReadChunks);
  }

  lemma EmbedStores(R: iset<State>, s: State, w: nat, j: nat, d: nat) returns (t: State)
    requires Closed(R) && s in R
    requires w in s.workers && s.workers[w] == Worker(j, d, ReadChunks) && Fine(s, d) && (d, 0) in s.chunks
    ensures t in R && SameJobs(s, t) && Fine(t, d) && t.docs[d].status == Embedded && t.chunks.Keys == s.chunks.Keys
    ensures t.workers == s.workers[w := Worker(j, d, EmbedDone)]
  {
    var s1 := RowsRead(R, s, w, d);
    t := EmbedUpserts(R, s1, w, RowIds(s, d));
  }

  lemma RowsRead(R: iset<State>, s: State, w: nat, d: nat) returns (t: State)
    requires Closed(R) && s in R
    requires w in s.workers && s.workers[w].doc == d && s.workers[w].pc == ReadChunks && Fine(s, d)
      && (d, 0) in s.chunks
    ensures t in R && SameJobs(s, t) && Fine(t, d) && t.chunks == s.chunks && AllPresent(t, RowIds(s, d))
    ensures t.workers == s.workers[w := s.workers[w].(pc := Upsert(RowIds(s, d)))]
  {
    assert s.chunks[(d, 0)].id in RowIds(s, d);
    t := Advance(R, s, Commit(w), w, Upsert(RowIds(s, d)));
  }

  lemma EmbedUpserts(R: iset<State>, s: State, w: nat, rows: set<nat>) returns (t: State)
    requires Closed(R) && s in R
    requires w in s.workers && s.workers[w].pc == Upsert(rows) && Fine(s, s.workers[w].doc) && AllPresent(s, rows)
    ensures t in R && SameJobs(s, t) && Fine(t, s.workers[w].doc) && t.docs[s.workers[w].doc].status == Embedded
    ensures t.chunks.Keys == s.chunks.Keys
    ensures t.workers == s.workers[w := s.workers[w].(pc := EmbedDone)]
  {
    var s1 := Advance(R, s, Commit(w), w, StoreVectorIds(rows));
    assert AllPresent(s1, rows);
    t := Advance(R, s1, Commit(w), w, EmbedDone);
  }

  lemma EmbedPasses(R: iset<State>, s: State, w: nat, j: nat, d: nat) returns (t: State)
    requires Closed(R) && s in R
    requires Fine(s, d) && w !in s.workers && Enabled(s, Claim(w, j)) && s.jobs[j].doc == d
    requires s.jobs[j].stage == Embed && s.nextJob !in s.jobs && (d, 0) in s.chunks
    ensures t in R && Passed(s, t, j, d, Index) && t.docs[d].status == Embedded
  {
    var s1 := Begin(R, s, w, j, d);
    t := EmbedCompletes(R, s1, w, j, d);
    assert t.workers == s.workers;
  }

  lemma EmbedCompletes(R: iset<State>, s: State, w: nat, j: nat, d: nat) returns (t: State)
    requires Closed(R) && s in R
    requires w in s.workers && s.workers[w] == Worker(j, d, Guard) && Fine(s, d) && (d, 0) in s.chunks
    requires j in s.jobs && s.nextJob !in s.jobs
    ensures t in R && Fine(t, d) && t.docs[d].status == Embedded && (d, 0) in t.chunks
    ensures t.workers == s.workers - {w} && t.now == s.now && t.maxAttempts == s.maxAttempts
    ensures t.nextJob == s.nextJob + 1
    ensures t.jobs == Acked(s.jobs, j)[s.nextJob := NewJob(d, Index, s.maxAttempts, s.now)]
  {
    var s1 := EmbedRuns(R, s, w, j, d);
    t := EmbedHandsOn(R, s1, w);
    assert t.workers == s.workers - {w};
  }

  lemma EmbedRuns(R: iset<State>, s: State, w: nat, j: nat, d: nat) returns (t: State)
    requires Closed(R) && s in R
    requires w in s.workers && s.workers[w] == Worker(j, d, Guard) && Fine(s, d) && (d, 0) in s.chunks
    ensures t in R && SameJobs(s, t) && Fine(t, d) && t.docs[d].status == Embedded && t.chunks.Keys == s.chunks.Keys
    ensures t.workers == s.workers[w := Worker(j, d, EmbedDone)]
  {
    var s1 := EmbedReads(R, s, w, j, d);
    t := EmbedStores(R, s1, w, j, d);
  }

  lemma EmbedHandsOn(R: iset<State>, s: State, w: nat) returns (t: State)
    requires Closed(R) && s in R
    requires w in s.workers && Fine(s, s.workers[w].doc) && s.nextJob !in s.jobs && s.workers[w].job in s.jobs
    requires s.workers[w].pc == EmbedDone
    ensures t in R && Fine(t, s.workers[w].doc) && t.docs == s.docs && t.chunks == s.chunks
    ensures t.workers == s.workers - {w} && t.now == s.now && t.maxAttempts == s.maxAttempts
    ensures t.nextJob == s.nextJob + 1
    ensures var k := s.workers[w];
      t.jobs == Acked(s.jobs, k.job)[s.nextJob := NewJob(k.doc, Index, s.maxAttempts, s.now)]
  {
    var s1 := EmbedStageDone(R, s, w);
    t := HandOn(R, s1, w, Index, EmbedAck);
  }

  lemma EmbedStageDone(R: iset<State>, s: State, w: nat) returns (t: State)
    requires Closed(R) && s in R
    requires w in s.workers && Fine(s, s.workers[w].doc) && s.workers[w].pc == EmbedDone
    ensures t in R && SameJobs(s, t) && Fine(t, s.workers[w].doc) && t.docs == s.docs && t.chunks == s.chunks
    ensures t.workers == s.workers[w := s.workers[w].(pc := EnqueueIndex)]
  {
    var d := s.workers[w].doc;
    StepStays(R, s, Commit(w));
    t := Apply(s, Commit(w));
    CalmEffect(s, OpStage(EmbedStage, StageDone), s.workers[w].job, d);
    FineStays(Perform(s, OpStage(EmbedStage, StageDone), s.workers[w].job, d), t, d);
  }

  /** An index job up to the statement after which the document is 'indexed'. */
  lemma IndexMarks(R: iset<State>, s: State, w: nat, j: nat, d: nat) returns (t: State)
    requires Closed(R) && s in R
    requires Fine(s, d) && w !in s.workers && Enabled(s, Claim(w, j)) && s.jobs[j].doc == d
    requires s.jobs[j].stage == Index && (d, 0) in s.chunks
    ensures t in R && Fine(t, d) && t.docs[d].status == Indexed && (d, 0) in t.chunks
    ensures t.workers == s.workers[w := Worker(j, d, IndexDone)]
    ensures t.jobs == s.jobs[j := Claimed(s.jobs[j], s.now)]
    ensures t.nextJob == s.nextJob && t.now == s.now && t.maxAttempts == s.maxAttempts
  {
    var s1 := Begin(R, s, w, j, d);
    t := IndexProceeds(R, s1, w, j, d);
  }

  lemma IndexProceeds(R: iset<State>, s: State, w: nat, j: nat, d: nat) returns (t: State)
    requires Closed(R) && s in R
    requires w in s.workers && s.workers[w] == Worker(j, d, IndexProcessing) && Fine(s, d)
    ensures t in R && SameJobs(s, t) && Fine(t, d) && t.docs[d].status == Indexed && t.chunks == s.chunks
    ensures t.workers == s.workers[w := Worker(j, d, IndexDone)]
  {
    var s1 := Advance(R, s, Commit(w), w, MarkIndexed);
    t := Advance(R, s1, Commit(w), w, IndexDone);
  }

  /** The last two statements of an index job. */
  lemma IndexFinishes(R: iset<State>, s: State, w: nat, d: nat) returns (t: State)
    requires Closed(R) && s in R
    requires w in s.workers && s.workers[w].doc == d && s.workers[w].pc == IndexDone && s.workers[w].job in s.jobs
      && d in s.docs
    ensures t in R && t.docs == s.docs && t.chunks == s.chunks && t.phase == s.phase
    ensures t.workers == s.workers - {w} && t.jobs == Acked(s.jobs, s.workers[w].job)
    ensures t.nextJob == s.nextJob && t.now == s.now && t.maxAttempts == s.maxAttempts
    ensures forall name :: StageFailedAt(t, d, name) <==> name != IndexStage && StageFailedAt(s, d, name)
  {
    StepStays(R, s, Commit(w));
    var s1 := Apply(s, Commit(w));
    assert s1 == Goto(WriteStage(s, d, IndexStage, StageDone), w, s.workers[w], Some(IndexAck));
    t := AckLast(R, s1, w);
    assert t.workers == s.workers - {w};
  }

  /** A started server with one uploaded document whose jobs get m attempts. */
  lemma Uploaded(R: iset<State>, m: nat) returns (t: State)
    requires Closed(R) && m >= 1
    ensures t in R && Fine(t, 0) && t.now == 0 && t.maxAttempts == m && t.workers == map[] && t.nextJob == 1
    ensures t.jobs == map[0 := NewJob(0, Ingest, m, 0)]
  {
    t := FirstUpload(R, m, "tenant", "name", "checksum");
  }

  /** The document passes ingest and embed, and index job 2 stands before its last write. */
  lemma NearlyIndexed(R: iset<State>, m: nat, w: nat) returns (t: State)
    requires Closed(R) && m >= 1
    ensures t in R && Fine(t, 0) && t.docs[0].status == Indexed && (0, 0) in t.chunks
    ensures t.now == 0 && t.maxAttempts == m && t.nextJob == 3
    ensures t.workers == map[w := Worker(2, 0, IndexDone)]
    ensures t.jobs.Keys == {0, 1, 2} && t.jobs[0].status == Done && t.jobs[1].status == Done
    ensures t.jobs[2] == Claimed(NewJob(0, Index, m, 0), 0)
  {
    var s := Uploaded(R, m);
    var s1 := IngestPasses(R, s, w, 0, 0);
    var s2 := EmbedPasses(R, s1, w, 1, 0);
    t := IndexMarks(R, s2, w, 2, 0);
  }

  // ---- Attempts that fail --------------------------------------------------

  /** The one pending job may be claimed once its time has come. */
  lemma Wait(R: iset<State>, s: State, w: nat, j: nat) returns (t: State)
    requires Closed(R) && s in R && s.phase == Up && w !in s.workers && j in s.jobs
    requires forall i | i in s.jobs :: s.jobs[i].status == Pending <==> i == j
    ensures t in R && t == s.(now := t.now) && Enabled(t, Claim(w, j))
  {
    var e := Tick(if s.jobs[j].scheduledAt > s.now then s.jobs[j].scheduledAt - s.now else 0);
    StepStays(R, s, e);
    t := s.(now := s.now + e.elapsed);
    assert forall i | i in t.jobs && t.jobs[i].status == Pending :: i == j;
  }

  /** One failed attempt of an index job: its row says 'failed', the status does not. */
  lemma IndexAttemptFails(R: iset<State>, s: State, w: nat, j: nat, d: nat) returns (t: State)
    requires Closed(R) && s in R && d in s.docs
    requires w !in s.workers && Enabled(s, Claim(w, j)) && s.jobs[j].doc == d && s.jobs[j].stage == Index
    ensures t in R && t.docs == s.docs && t.phase == s.phase && t.workers == s.workers && t.maxAttempts == s.maxAttempts
    ensures t.jobs == s.jobs[j := Nack(Claimed(s.jobs[j], s.now), s.now)]
    ensures forall name :: StageFailedAt(t, d, name) ==> name == IndexStage || StageFailedAt(s, d, name)
  {
    var s1 := IndexRaises(R, s, w, j, d);
    t := IndexReports(R, s1, w, j, d);
    assert t.workers == s.workers;
    forall name | StageFailedAt(t, d, name) ensures name == IndexStage || StageFailedAt(s, d, name) {
      assert name == IndexStage || StageFailedAt(s1, d, name);
    }
  }

  /** The job is claimed and its first statement raises. */
  lemma IndexRaises(R: iset<State>, s: State, w: nat, j: nat, d: nat) returns (t: State)
    requires Closed(R) && s in R
    requires w !in s.workers && Enabled(s, Claim(w, j)) && s.jobs[j].doc == d && s.jobs[j].stage == Index
    ensures t in R && t.docs == s.docs && t.stages == s.stages && t.phase == s.phase
    ensures t.now == s.now && t.maxAttempts == s.maxAttempts
    ensures t.workers == s.workers[w := Worker(j, d, IndexErrorStage)]
    ensures t.jobs == s.jobs[j := Claimed(s.jobs[j], s.now)]
  {
    StepStays(R, s, Claim(w, j));
    var s1 := Apply(s, Claim(w, j));
    StepStays(R, s1, Raise(w, {}, false));
    t := Apply(s1, Raise(w, {}, false));
  }

  lemma IndexFailureWritten(R: iset<State>, s: State, w: nat, j: nat, d: nat) returns (t: State)
    requires Closed(R) && s in R && d in s.docs
    requires w in s.workers && s.workers[w] == Worker(j, d, IndexErrorStage)
    ensures t in R
    ensures t == s.(stages := s.stages[(d, IndexStage) := StageFailed],
                    workers := s.workers[w := Worker(j, d, IndexNack)])
  {
    StepStays(R, s, Commit(w));
    t := Apply(s, Commit(w));
  }

  lemma IndexReports(R: iset<State>, s: State, w: nat, j: nat, d: nat) returns (t: State)
    requires Closed(R) && s in R && d in s.docs
    requires w in s.workers && s.workers[w] == Worker(j, d, IndexErrorStage)
    ensures t in R && t.docs == s.docs && t.phase == s.phase && t.workers == s.workers - {w}
      && t.maxAttempts == s.maxAttempts
    ensures t.jobs == Nacked(s.jobs, j, s.now)
    ensures forall name :: StageFailedAt(t, d, name) ==> name == IndexStage || StageFailedAt(s, d, name)
  {
    var s1 := IndexFailureWritten(R, s, w, j, d);
    t := NackLast(R, s1, w);
    assert t.workers == s.workers - {w};
    assert forall name | StageFailedAt(t, d, name) :: name == IndexStage || StageFailedAt(s, d, name);
  }

  lemma NackLast(R: iset<State>, s: State, w: nat) returns (t: State)
    requires Closed(R) && s in R && w in s.workers && OpAt(s.workers[w].pc) == OpNack
    ensures t in R && t.docs == s.docs && t.stages == s.stages && t.phase == s.phase && t.maxAttempts == s.maxAttempts
    ensures t.workers == s.workers - {w} && t.jobs == Nacked(s.jobs, s.workers[w].job, s.now)
  {
    NackApplied(s, w);
    StepStays(R, s, Commit(w));
    t := Apply(s, Commit(w));
  }

  /** An index job fails until its attempts are used up. */
  lemma {:induction false} IndexFails(R: iset<State>, s: State, w: nat, j: nat, d: nat) returns (t: State)
    requires Closed(R) && s in R && s.phase == Up && w !in s.workers && d in s.docs
    requires j in s.jobs && s.jobs[j].doc == d && s.jobs[j].stage == Index && !Exhausted(s.jobs[j])
    requires forall i | i in s.jobs :: s.jobs[i].status == Pending <==> i == j
    ensures t in R && t.docs == s.docs && t.phase == s.phase && t.workers == s.workers && t.maxAttempts == s.maxAttempts
    ensures j in t.jobs && t.jobs[j].status == Failed && t.jobs == s.jobs[j := t.jobs[j]]
    ensures forall name :: StageFailedAt(t, d, name) ==> name == IndexStage || StageFailedAt(s, d, name)
    decreases s.jobs[j].maxAttempts - s.jobs[j].attempt
  {
    var s1 := Wait(R, s, w, j);
    var s2 := IndexAttemptFails(R, s1, w, j, d);
    t := s2;
    if s2.jobs[j].status != Failed {
      t := IndexFails(R, s2, w, j, d);
    }
    forall name | StageFailedAt(t, d, name) ensures name == IndexStage || StageFailedAt(s, d, name) {
      assert StageFailedAt(s2, d, name) ==> name == IndexStage || StageFailedAt(s1, d, name);
    }
  }

  /** One attempt of a purge job in which every statement fails. */
  lemma PurgeAttemptFails(R: iset<State>, s: State, w: nat, j: nat, d: nat) returns (t: State)
    requires Closed(R) && s in R
    requires Fine(s, d) && w !in s.workers && Enabled(s, Claim(w, j)) && s.jobs[j].doc == d
    requires s.jobs[j].stage == Purge
    ensures t in R && Fine(t, d) && t.docs == s.docs && t.workers == s.workers && t.maxAttempts == s.maxAttempts
    ensures t.jobs == s.jobs[j := Nack(Claimed(s.jobs[j], s.now), s.now)]
  {
    var s1 := Begin(R, s, w, j, d);
    t := PurgeGoesWrong(R, s1, w);
    assert t.workers == s.workers;
  }

  lemma PurgeGoesWrong(R: iset<State>, s: State, w: nat) returns (t: State)
    requires Closed(R) && s in R
    requires w in s.workers && Fine(s, s.workers[w].doc) && s.workers[w].pc == PurgeVectors
    ensures t in R && Fine(t, s.workers[w].doc) && t.docs == s.docs && t.maxAttempts == s.maxAttempts
    ensures t.workers == s.workers - {w} && t.jobs == Nacked(s.jobs, s.workers[w].job, s.now)
  {
    var s1 := PurgeKeepsRaising(R, s, w, PurgeVectors);
    t := NackLast(R, s1, w);
    FineStays(s1, t, s.workers[w].doc);
    assert t.workers == s.workers - {w};
  }

  /** A purge job fails until its attempts are used up. */
  lemma {:induction false} PurgeFails(R: iset<State>, s: State, w: nat, j: nat, d: nat) returns (t: State)
    requires Closed(R) && s in R && Fine(s, d) && w !in s.workers
    requires j in s.jobs && s.jobs[j].doc == d && s.jobs[j].stage == Purge && !Exhausted(s.jobs[j])
    requires forall i | i in s.jobs :: s.jobs[i].status == Pending <==> i == j
    ensures t in R && Fine(t, d) && t.docs == s.docs && t.maxAttempts == s.maxAttempts
    ensures j in t.jobs && t.jobs[j].status == Failed && t.jobs == s.jobs[j := t.jobs[j]]
    decreases s.jobs[j].maxAttempts - s.jobs[j].attempt
  {
    var s1 := Wait(R, s, w, j);
    FineStays(s, s1, d);
    var s2 := PurgeAttemptFails(R, s1, w, j, d);
    t := s2;
    if s2.jobs[j].status != Failed {
      t := PurgeFails(R, s2, w, j, d);
    }
  }

  function PurgeToGo(pc: Pc): nat {
    match pc
    case PurgeVectors => 4
    case PurgeFiles => 3
    case PurgeDelete => 2
    case PurgeErrorStatus => 1
    case _ => 0
  }

  /** Every statement of the purge worker raises. */
  lemma {:induction false} PurgeKeepsRaising(R: iset<State>, s: State, w: nat, pc: Pc) returns (t: State)
    requires Closed(R) && s in R
    requires w in s.workers && Fine(s, s.workers[w].doc) && s.workers[w].pc == pc
    requires pc == PurgeNack(false) || PurgeToGo(pc) > 0
    ensures t in R && Fine(t, s.workers[w].doc) && t.docs == s.docs && SameJobs(s, t)
    ensures t.workers == s.workers[w := s.workers[w].(pc := PurgeNack(false))]
    decreases PurgeToGo(pc)
  {
    if pc == PurgeNack(false) {
      t := s;
    } else {
      var s1 := PurgeRaises(R, s, w);
      RaisingComesNearer(pc);
      t := PurgeKeepsRaising(R, s1, w, OnRaise(pc).value);
    }
  }

  lemma RaisingComesNearer(pc: Pc)
    requires PurgeToGo(pc) > 0
    ensures var next := OnRaise(pc);
      && next.Some? && PurgeToGo(next.value) < PurgeToGo(pc)
      && (next.value == PurgeNack(false) || PurgeToGo(next.value) > 0)
  {
  }

  lemma PurgeRaises(R: iset<State>, s: State, w: nat) returns (t: State)
    requires Closed(R) && s in R
    requires w in s.workers && Fine(s, s.workers[w].doc)
    requires PurgeToGo(s.workers[w].pc) > 0
    ensures t in R && Fine(t, s.workers[w].doc) && t.docs == s.docs && SameJobs(s, t)
    ensures t.workers == s.workers[w := s.workers[w].(pc := OnRaise(s.workers[w].pc).value)]
  {
    StepStays(R, s, Raise(w, {}, false));
    t := Apply(s, Raise(w, {}, false));
    FineStays(s, t, s.workers[w].doc);
  }

  lemma DeleteRequested(R: iset<State>, s: State, d: nat) returns (t: State)
    requires Closed(R) && s in R
    requires Fine(s, d)
    ensures t in R && Fine(t, d) && t.docs[d].status == Deleting && t.workers == s.workers
    ensures t.now == s.now && t.maxAttempts == s.maxAttempts
    ensures t.jobs == s.jobs[s.nextJob := NewJob(d, Purge, s.maxAttempts, s.now)]
  {
    StepStays(R, s, DeleteRequest(d));
    t := Apply(s, DeleteRequest(d));
    forall name ensures !StageFailedAt(t, d, name) {
      assert !StageFailedAt(s, d, name);
    }
  }

  lemma ReprocessRequested(R: iset<State>, s: State, d: nat) returns (t: State)
    requires Closed(R) && s in R
    requires Fine(s, d)
    ensures t in R && Fine(t, d) && t.workers == s.workers && t.chunks == s.chunks
    ensures t.now == s.now && t.maxAttempts == s.maxAttempts && t.nextJob == s.nextJob + 1
    ensures t.jobs == s.jobs[s.nextJob := NewJob(d, Ingest, s.maxAttempts, s.now)]
  {
    StepStays(R, s, ReprocessRequest(d));
    t := Apply(s, ReprocessRequest(d));
    forall name ensures !StageFailedAt(t, d, name) {
      assert !StageFailedAt(s, d, name);
    }
  }

  // ---- The two runs --------------------------------------------------------

  ghost predicate Lost(s: State, d: nat, status: DocStatus) {
    d in s.docs && s.docs[d].status == status && !Accounted(s, d)
  }

  lemma NothingLeft(s: State, d: nat)
    requires d in s.docs && !StatusTells(s, d) && forall name :: !StageFailedAt(s, d, name)
    requires forall j | j in s.jobs :: !s.jobs[j].Live()
    ensures !Accounted(s, d)
  {
  }

  lemma FineAgain(s: State, t: State, d: nat)
    requires Fine(s, d) && t.docs == s.docs && t.phase == s.phase
    requires forall name :: StageFailedAt(t, d, name) ==> StageFailedAt(s, d, name)
    ensures Fine(t, d)
  {
  }

  /** An indexed document with all its jobs done is asked to be deleted. */
  lemma DeletionRequested(R: iset<State>, m: nat) returns (t: State)
    requires Closed(R) && m >= 1
    ensures t in R && Fine(t, 0) && t.docs[0].status == Deleting && t.workers == map[] && t.maxAttempts == m
    ensures 3 in t.jobs && t.jobs[3] == NewJob(0, Purge, m, t.now)
    ensures forall j | j in t.jobs && j != 3 :: !t.jobs[j].Live()
  {
    var s := AllDone(R, m);
    t := DeleteRequested(R, s, 0);
  }

  /** The document is indexed and its three jobs are done. */
  lemma AllDone(R: iset<State>, m: nat) returns (t: State)
    requires Closed(R) && m >= 1
    ensures t in R && Fine(t, 0) && t.workers == map[] && t.maxAttempts == m && t.nextJob == 3
    ensures forall j | j in t.jobs :: !t.jobs[j].Live()
  {
    var s := NearlyIndexed(R, m, 0);
    t := IndexFinishes(R, s, 0, 0);
    FineAgain(s, t, 0);
    assert t.workers == map[];
  }

  lemma ForgetPurge(R: iset<State>, m: nat) returns (t: State)
    requires Closed(R) && m >= 1
    ensures t in R && t.maxAttempts == m && Lost(t, 0, Deleting)
  {
    var s := DeletionRequested(R, m);
    t := PurgeFails(R, s, 0, 3, 0);
    NothingLeft(t, 0);
  }

  /** Index job 2 waits before its last write while the document runs through the
      pipeline again, up to index job 5. */
  lemma IndexedAgain(R: iset<State>, m: nat) returns (t: State)
    requires Closed(R) && m >= 1
    ensures t in R && Fine(t, 0) && t.docs[0].status == Embedded && t.maxAttempts == m
    ensures t.workers == map[0 := Worker(2, 0, IndexDone)]
    ensures 2 in t.jobs && 5 in t.jobs && t.jobs[5] == NewJob(0, Index, m, t.now)
    ensures forall j | j in t.jobs && j != 5 :: t.jobs[j].status != Pending && (j != 2 ==> !t.jobs[j].Live())
  {
    var s := IngestedAgain(R, m);
    t := EmbedPasses(R, s, 1, 4, 0);
  }

  lemma IngestedAgain(R: iset<State>, m: nat) returns (t: State)
    requires Closed(R) && m >= 1
    ensures t in R && Fine(t, 0) && (0, 0) in t.chunks && t.maxAttempts == m && t.nextJob == 5 && 5 !in t.jobs
    ensures t.workers == map[0 := Worker(2, 0, IndexDone)]
    ensures 2 in t.jobs && 4 in t.jobs && t.jobs[4] == NewJob(0, Embed, m, t.now)
    ensures forall j | j in t.jobs && j != 4 :: t.jobs[j].status != Pending && (j != 2 ==> !t.jobs[j].Live())
  {
    var s := NearlyIndexed(R, m, 0);
    var s1 := ReprocessRequested(R, s, 0);
    t := IngestPasses(R, s1, 1, 3, 0);
  }

  lemma ForgetFailedIndex(R: iset<State>, m: nat) returns (t: State)
    requires Closed(R) && m >= 1
    ensures t in R && t.maxAttempts == m && Lost(t, 0, Embedded)
  {
    var s := IndexedAgain(R, m);
    var s1 := IndexFails(R, s, 1, 5, 0);
    t := IndexFinishes(R, s1, 0, 0);
    assert forall name :: !StageFailedAt(t, 0, name);
    NothingLeft(t, 0);
  }

  /** app/workers/purge_worker.py:70-78: whatever the number of attempts, a document asked
      to be deleted may stay 'deleting' for ever when the updates that should report the
      failures fail as well. */
  lemma PurgeIsForgotten(m: nat)
    requires m >= 1
    ensures exists s, d :: Reachable(s) && s.maxAttempts == m && Lost(s, d, Deleting)
  {
    var t := ForgetPurge(ReachableStates(), m);
    assert Reachable(t) && t.maxAttempts == m && Lost(t, 0, Deleting);
  }

  /** app/workers/index_worker.py:42: whatever the number of attempts, an index job delayed
      before its last write may erase the failure of the index job of a later reprocess
      request. */
  lemma FailedIndexIsForgotten(m: nat)
    requires m >= 1
    ensures exists s, d :: Reachable(s) && s.maxAttempts == m && Lost(s, d, Embedded)
  {
    var t := ForgetFailedIndex(ReachableStates(), m);
    assert Reachable(t) && t.maxAttempts == m && Lost(t, 0, Embedded);
  }
}
