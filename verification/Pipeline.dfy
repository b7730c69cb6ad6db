/**
 The document pipeline as a protocol: the Postgres tables, the vector store, the
 workers of the single server process, and every committed transaction as one step.

 A worker is somewhere inside its _process_*_job function; Pc names the statement it
 executes next.  OpAt says what that statement does, After where control goes when it
 succeeds, OnRaise where an exception lands.  Two statements of different workers,
 requests, crashes and restarts interleave freely.
 */
module Pipeline {
  import opened Prelude
  import opened JobQueue

  datatype DocStatus =
    | DocPending | Parsing | Chunked | Embedding | Embedded | Indexed
    | DocError | ParseFailed | ChunkFailed | EmbedFailed
    | Deleting | Deleted

  /** The members of _FAILED_STATUSES that some statement assigns. */
  predicate FailedStatus(status: DocStatus) {
    status in {DocError, ParseFailed, ChunkFailed, EmbedFailed}
  }

  datatype StageName = UploadStage | ParseStage | ChunkStage | EmbedStage | IndexStage

  datatype StageStatus = StagePending | StageProcessing | StageDone | StageFailed

  datatype Doc = Doc(tenant: string, filename: string, checksum: string, status: DocStatus)

  datatype ChunkRow = ChunkRow(id: nat, text: string, vectorId: Option<nat>)

  datatype Pc =
    // ingest_worker
    | ParseProcessing | StatusParsing | Fetch
    | EmptyStage | EmptyStatus
    | ParseDone | ChunkProcessing | MakeChunks
    | NoChunksStage | NoChunksStatus
    | StoreChunks(texts: seq<string>) | ChunkDone | EnqueueEmbed | IngestAck
    | IngestErrorStage | IngestErrorStatus | IngestNack
    // embed_worker; rows are the ids of the chunk rows it read
    | Guard | EmbedProcessing | StatusEmbedding | ReadChunks
    | NoRowsStage | NoRowsStatus
    | Upsert(rows: set<nat>) | StoreVectorIds(rows: set<nat>) | EmbedDone | EnqueueIndex | EmbedAck
    | EmbedErrorStage | EmbedErrorStatus | EmbedNack
    // index_worker
    | IndexProcessing | MarkIndexed | IndexDone | IndexAck
    | IndexErrorStage | IndexNack
    // purge_worker; flagged tells whether the status 'error' was written
    | PurgeVectors | PurgeFiles | PurgeDelete
    | PurgeErrorStatus | PurgeNack(flagged: bool)

  function KindOf(pc: Pc): Stage {
    match pc
    case Guard | EmbedProcessing | StatusEmbedding | ReadChunks | NoRowsStage | NoRowsStatus
       | Upsert(_) | StoreVectorIds(_) | EmbedDone | EnqueueIndex | EmbedAck
       | EmbedErrorStage | EmbedErrorStatus | EmbedNack => Embed
    case IndexProcessing | MarkIndexed | IndexDone | IndexAck | IndexErrorStage | IndexNack => Index
    case PurgeVectors | PurgeFiles | PurgeDelete | PurgeErrorStatus | PurgeNack(_) => Purge
    case _ => Ingest
  }

  function Start(stage: Stage): Pc {
    match stage
    case Ingest => ParseProcessing
    case Embed => Guard
    case Index => IndexProcessing
    case Purge => PurgeVectors
  }

  datatype Worker = Worker(job: nat, doc: nat, pc: Pc)

  datatype Phase = Down | Recovering | Up

  datatype State = State(
    phase: Phase,
    now: Time,
    maxAttempts: nat,
    docs: map<nat, Doc>,
    chunks: map<(nat, nat), ChunkRow>,
    stages: map<(nat, StageName), StageStatus>,
    jobs: Table,
    vectors: map<nat, nat>,
    workers: map<nat, Worker>,
    nextDoc: nat,
    nextChunk: nat,
    nextJob: nat,
    // history, read by no step
    purgeRequested: set<nat>,
    recoveries: map<nat, nat>)

  ghost predicate Init(s: State) {
    && s.phase == Down && s.maxAttempts >= 1
    && s.docs == map[] && s.chunks == map[] && s.stages == map[] && s.jobs == map[]
    && s.vectors == map[] && s.workers == map[]
    && s.purgeRequested == {} && s.recoveries == map[]
  }

  // ---- Committed transactions ----------------------------------------------

  /** update_stage: upsert, or silently nothing when the document is gone. */
  function WriteStage(s: State, d: nat, name: StageName, status: StageStatus): State {
    s.(stages := if d in s.docs then s.stages[(d, name) := status] else s.stages)
  }

  function WriteStatus(s: State, d: nat, status: DocStatus): State {
    s.(docs := WithStatus(s.docs, d, status))
  }

  function WithStatus(docs: map<nat, Doc>, d: nat, status: DocStatus): (r: map<nat, Doc>)
    ensures r.Keys == docs.Keys
    ensures forall k | k in r ::
      r[k] == if k == d then docs[k].(status := status) else docs[k]
  {
    if d in docs then docs[d := docs[d].(status := status)] else docs
  }

  /** INSERT ... ON CONFLICT (document_id, chunk_index) DO NOTHING: existing rows win. */
  function InsertedChunks(chunks: map<(nat, nat), ChunkRow>, d: nat, texts: seq<string>, nextChunk: nat)
    : (rows: map<(nat, nat), ChunkRow>)
    ensures rows.Keys == chunks.Keys + ChunkKeys(d, |texts|)
    ensures forall k | k in rows ::
      rows[k] == if k in chunks then chunks[k] else ChunkRow(nextChunk + k.1, texts[k.1], None)
  {
    (map k | k in ChunkKeys(d, |texts|) :: ChunkRow(nextChunk + k.1, texts[k.1], None)) + chunks
  }

  function ChunkKeys(d: nat, n: nat): (keys: set<(nat, nat)>)
    ensures forall k: (nat, nat) :: k in keys <==> k.0 == d && k.1 < n
  {
    set i | 0 <= i < n :: (d, i)
  }

  function WriteChunks(s: State, d: nat, texts: seq<string>): State
    requires d in s.docs
  {
    s.(
      docs := WithStatus(s.docs, d, Chunked),
      chunks := InsertedChunks(s.chunks, d, texts, s.nextChunk),
      nextChunk := s.nextChunk + |texts|)
  }

  function RowIds(s: State, d: nat): set<nat> {
    set k | k in s.chunks && k.0 == d :: s.chunks[k].id
  }

  /** UPDATE by primary key raises StaleDataError unless every row is still there. */
  predicate AllPresent(s: State, rows: set<nat>) {
    forall id | id in rows :: exists k :: k in s.chunks && s.chunks[k].id == id
  }

  function WriteVectorIds(s: State, d: nat, rows: set<nat>): State {
    s.(
      docs := WithStatus(s.docs, d, Embedded),
      chunks := WithVectorIds(s.chunks, rows))
  }

  /** vector_id := id on the given rows. */
  function WithVectorIds(chunks: map<(nat, nat), ChunkRow>, rows: set<nat>): (r: map<(nat, nat), ChunkRow>)
    ensures r.Keys == chunks.Keys
    ensures forall k | k in r :: r[k].id == chunks[k].id && r[k].text == chunks[k].text
  {
    map k | k in chunks :: if chunks[k].id in rows then chunks[k].(vectorId := Some(chunks[k].id)) else chunks[k]
  }

  function AddPoints(s: State, d: nat, rows: set<nat>): State {
    s.(vectors := s.vectors + map id | id in rows :: d)
  }

  function AddJob(s: State, d: nat, stage: Stage): State {
    s.(jobs := if d in s.docs then s.jobs[s.nextJob := NewJob(d, stage, s.maxAttempts, s.now)] else s.jobs,
       nextJob := if d in s.docs then s.nextJob + 1 else s.nextJob)
  }

  /** DELETE of a document row with its cascades. */
  function DeleteDoc(s: State, d: nat): State {
    s.(
      docs := map k | k in s.docs && k != d :: s.docs[k],
      chunks := map k | k in s.chunks && k.0 != d :: s.chunks[k],
      stages := map k | k in s.stages && k.0 != d :: s.stages[k],
      jobs := Cascaded(s.jobs, d))
  }

  // ---- Worker programs -----------------------------------------------------

  datatype Op =
    | OpStage(name: StageName, stageStatus: StageStatus)
    | OpStatus(status: DocStatus)
    | OpInsert(texts: seq<string>)
    | OpUpsert(rows: set<nat>)
    | OpVectorIds(rows: set<nat>)
    | OpHandOff(stage: Stage)
    | OpAck
    | OpNack
    | OpDropVectors
    | OpDelete
    | OpNone  // reads and computes, or calls a service this model does not store

  function OpAt(pc: Pc): Op {
    match pc
    case ParseProcessing => OpStage(ParseStage, StageProcessing)
    case StatusParsing => OpStatus(Parsing)
    case EmptyStage => OpStage(ParseStage, StageFailed)
    case EmptyStatus => OpStatus(ParseFailed)
    case ParseDone => OpStage(ParseStage, StageDone)
    case ChunkProcessing => OpStage(ChunkStage, StageProcessing)
    case NoChunksStage => OpStage(ChunkStage, StageFailed)
    case NoChunksStatus => OpStatus(ChunkFailed)
    case StoreChunks(texts) => OpInsert(texts)
    case ChunkDone => OpStage(ChunkStage, StageDone)
    case EnqueueEmbed => OpHandOff(Embed)
    case IngestErrorStage => OpStage(ParseStage, StageFailed)
    case IngestErrorStatus => OpStatus(DocError)
    case EmbedProcessing => OpStage(EmbedStage, StageProcessing)
    case StatusEmbedding => OpStatus(Embedding)
    case NoRowsStage => OpStage(EmbedStage, StageFailed)
    case NoRowsStatus => OpStatus(EmbedFailed)
    case Upsert(rows) => OpUpsert(rows)
    case StoreVectorIds(rows) => OpVectorIds(rows)
    case EmbedDone => OpStage(EmbedStage, StageDone)
    case EnqueueIndex => OpHandOff(Index)
    case EmbedErrorStage => OpStage(EmbedStage, StageFailed)
    case EmbedErrorStatus => OpStatus(EmbedFailed)
    case IndexProcessing => OpStage(IndexStage, StageProcessing)
    case MarkIndexed => OpStatus(Indexed)
    case IndexDone => OpStage(IndexStage, StageDone)
    case IndexErrorStage => OpStage(IndexStage, StageFailed)
    case PurgeVectors => OpDropVectors
    case PurgeDelete => OpDelete
    case PurgeErrorStatus => OpStatus(DocError)
    case IngestAck | EmbedAck | IndexAck => OpAck
    case IngestNack | EmbedNack | IndexNack | PurgeNack(_) => OpNack
    case Fetch | MakeChunks | Guard | ReadChunks | PurgeFiles => OpNone
  }

  /** Where control goes when the statement succeeds; None when the function returns. */
  function After(s: State, k: Worker): Option<Pc> {
    match k.pc
    case ParseProcessing => Some(StatusParsing)
    case StatusParsing => Some(Fetch)
    case Fetch => Some(ParseDone)
    case EmptyStage => Some(EmptyStatus)
    case EmptyStatus => Some(IngestAck)
    case ParseDone => Some(ChunkProcessing)
    case ChunkProcessing => Some(MakeChunks)
    case MakeChunks => Some(NoChunksStage)
    case NoChunksStage => Some(NoChunksStatus)
    case NoChunksStatus => Some(IngestAck)
    case StoreChunks(_) => Some(ChunkDone)
    case ChunkDone => Some(EnqueueEmbed)
    case EnqueueEmbed => Some(IngestAck)
    case IngestErrorStage => Some(IngestErrorStatus)
    case IngestErrorStatus => Some(IngestNack)
    case Guard => if k.doc in s.docs && s.docs[k.doc].status != Deleted then Some(EmbedProcessing) else Some(EmbedAck)
    case EmbedProcessing => Some(StatusEmbedding)
    case StatusEmbedding => Some(ReadChunks)
    case ReadChunks => var rows := RowIds(s, k.doc); if rows == {} then Some(NoRowsStage) else Some(Upsert(rows))
    case NoRowsStage => Some(NoRowsStatus)
    case NoRowsStatus => Some(EmbedAck)
    case Upsert(rows) => Some(StoreVectorIds(rows))
    case StoreVectorIds(rows) => if AllPresent(s, rows) then Some(EmbedDone) else Some(EmbedAck)
    case EmbedDone => Some(EnqueueIndex)
    case EnqueueIndex => Some(EmbedAck)
    case EmbedErrorStage => Some(EmbedErrorStatus)
    case EmbedErrorStatus => Some(EmbedNack)
    case IndexProcessing => Some(MarkIndexed)
    case MarkIndexed => Some(IndexDone)
    case IndexDone => Some(IndexAck)
    case IndexErrorStage => Some(IndexNack)
    case PurgeVectors => Some(PurgeFiles)
    case PurgeFiles => Some(PurgeDelete)
    case PurgeErrorStatus => Some(PurgeNack(true))
    case IngestAck | EmbedAck | IndexAck | IngestNack | EmbedNack | IndexNack | PurgeDelete | PurgeNack(_) => None
  }

  /** Where an exception lands; None when it leaves the function, which frees the
      worker and leaves the job as it is. */
  function OnRaise(pc: Pc): Option<Pc> {
    match pc
    case IngestErrorStage | IngestErrorStatus | IngestNack => None
    case EmbedErrorStage | EmbedErrorStatus | EmbedNack => None
    case IndexErrorStage | IndexNack => None
    case PurgeVectors => Some(PurgeFiles)
    case PurgeFiles => Some(PurgeDelete)
    case PurgeDelete => Some(PurgeErrorStatus)
    case PurgeErrorStatus => Some(PurgeNack(false))
    case PurgeNack(_) => None
    case _ =>
      match KindOf(pc)
      case Embed => Some(EmbedErrorStage)
      case Index => Some(IndexErrorStage)
      case _ => Some(IngestErrorStage)
  }

  /** What a statement does to the tables on behalf of a job and its document. */
  function Perform(s: State, op: Op, job: nat, d: nat): (r: State)
    requires op.OpInsert? ==> d in s.docs
    ensures r.phase == s.phase && r.now == s.now && r.maxAttempts == s.maxAttempts && r.workers == s.workers
    ensures r.nextDoc == s.nextDoc && r.nextChunk >= s.nextChunk && r.nextJob >= s.nextJob
    ensures r.purgeRequested == s.purgeRequested && r.recoveries == s.recoveries
    ensures r.docs.Keys == if op.OpDelete? then s.docs.Keys - {d} else s.docs.Keys
  {
    match op
    case OpStage(name, status) => WriteStage(s, d, name, status)
    case OpStatus(status) => WriteStatus(s, d, status)
    case OpInsert(texts) => WriteChunks(s, d, texts)
    case OpUpsert(rows) => AddPoints(s, d, rows)
    case OpVectorIds(rows) => if AllPresent(s, rows) then WriteVectorIds(s, d, rows) else s
    case OpHandOff(stage) => AddJob(s, d, stage)
    case OpAck => s.(jobs := Acked(s.jobs, job))
    case OpNack => s.(jobs := Nacked(s.jobs, job, s.now))
    case OpDropVectors => s.(vectors := map id | id in s.vectors && s.vectors[id] != d :: s.vectors[id])
    case OpDelete => DeleteDoc(s, d)
    case OpNone => s
  }

  function Effect(s: State, k: Worker): State
    requires k.pc.StoreChunks? ==> k.doc in s.docs
  {
    Perform(s, OpAt(k.pc), k.job, k.doc)
  }

  function Goto(s: State, w: nat, k: Worker, pc: Option<Pc>): State {
    s.(workers := if pc.Some? then s.workers[w := k.(pc := pc.value)] else s.workers - {w})
  }

  // ---- Requests ------------------------------------------------------------

  /** Status 'deleting' and a purge job. */
  function RequestPurge(s: State, d: nat): State {
    AddJob(WriteStatus(s, d, Deleting).(purgeRequested := s.purgeRequested + {d}), d, Purge)
  }

  /** Status and stages back to pending and a new ingest job. */
  function Requeue(s: State, d: nat): State {
    AddJob(s.(docs := WithStatus(s.docs, d, DocPending), stages := ResetStages(s, d)), d, Ingest)
  }

  function ResetStages(s: State, d: nat): map<(nat, StageName), StageStatus> {
    if d in s.docs then
      s.stages[(d, ParseStage) := StagePending][(d, ChunkStage) := StagePending]
              [(d, EmbedStage) := StagePending][(d, IndexStage) := StagePending]
    else s.stages
  }

  function AddDocument(s: State, tenant: string, filename: string, checksum: string): State {
    var d := s.nextDoc;
    AddJob(s.(docs := s.docs[d := Doc(tenant, filename, checksum, DocPending)],
              nextDoc := d + 1,
              stages := s.stages[(d, UploadStage) := StageDone]), d, Ingest)
  }

  function SameContent(s: State, tenant: string, checksum: string): set<nat> {
    set d | d in s.docs && s.docs[d].checksum == checksum && s.docs[d].tenant == tenant && s.docs[d].status != Deleted
  }

  function SameName(s: State, tenant: string, filename: string): set<nat> {
    set d | d in s.docs && s.docs[d].filename == filename && s.docs[d].tenant == tenant
            && s.docs[d].status != Deleted && s.docs[d].status != Deleting
  }

  datatype UploadPlan =
    | Ignore
    | Retry(doc: nat)
    | Add
    | Replace(previous: nat)

  /** The branch upload_document takes.  A query that finds several rows raises, and
      the request ends without effect. */
  function PlanUpload(s: State, tenant: string, filename: string, checksum: string): (plan: UploadPlan)
    ensures plan.Retry? ==> plan.doc in s.docs && FailedStatus(s.docs[plan.doc].status)
    ensures plan.Retry? ==> SameContent(s, tenant, checksum) == {plan.doc}
    ensures plan.Replace? ==> plan.previous in s.docs && SameName(s, tenant, filename) == {plan.previous}
    ensures plan.Add? || plan.Replace? ==> SameContent(s, tenant, checksum) == {}
    ensures plan.Add? <==> SameContent(s, tenant, checksum) == {} && SameName(s, tenant, filename) == {}
    ensures plan.Ignore? ==> SameContent(s, tenant, checksum) != {} || |SameName(s, tenant, filename)| >= 2
    ensures plan.Ignore? ==>
      forall d | d in SameContent(s, tenant, checksum) ::
        |SameContent(s, tenant, checksum)| >= 2 || !FailedStatus(s.docs[d].status)
  {
    var same := SameContent(s, tenant, checksum);
    var olds := SameName(s, tenant, filename);
    if same != {} then
      SeveralUnlessOne(same);
      if exists d | d in same :: same == {d} && FailedStatus(s.docs[d].status) then
        var d :| d in same && same == {d};
        Retry(d)
      else Ignore
    else if olds == {} then Add
    else if exists d | d in olds :: olds == {d} then
      var d :| d in olds && olds == {d};
      Replace(d)
    else
      SeveralUnlessOne(olds);
      Ignore
  }

  lemma SeveralUnlessOne(ids: set<nat>)
    ensures ids == {} || |ids| >= 2 || exists d | d in ids :: ids == {d}
  {
    if ids != {} {
      var d := SomeMember(ids);
      assert ids == {d} + (ids - {d});
    }
  }

  /** upload_document; fileStored is false when storing the file raises. */
  function Upload(s: State, tenant: string, filename: string, checksum: string, fileStored: bool): State {
    FollowPlan(s, PlanUpload(s, tenant, filename, checksum), tenant, filename, checksum, fileStored)
  }

  function FollowPlan(s: State, plan: UploadPlan, tenant: string, filename: string, checksum: string, fileStored: bool)
    : State
    requires plan.Replace? ==> plan.previous in s.docs
  {
    match plan
    case Ignore => s
    case Retry(d) => Requeue(s, d)
    case Add => if fileStored then AddDocument(s, tenant, filename, checksum) else s
    case Replace(d) =>
      // a row with this very checksum would have been found as a duplicate
      var s1 := if s.docs[d].checksum != checksum then RequestPurge(s, d) else s;
      if fileStored then AddDocument(s1, tenant, filename, checksum) else s1
  }

  // ---- Events --------------------------------------------------------------

  datatype Event =
    | Tick(elapsed: nat)
    | Crash
    | Recover
    | Cleanup
    | UploadRequest(tenant: string, filename: string, checksum: string, fileStored: bool)
    | ReprocessRequest(doc: nat)
    | DeleteRequest(doc: nat)
    | Claim(w: nat, job: nat)
    | Commit(w: nat)
    // the text is not blank, and the chunker returned some chunks or none
    | Parsed(w: nat, blank: bool)
    | Split(w: nat, texts: seq<string>)
    // written: points an upsert stored before it raised; late: a hand-off that
    // committed its row and raised afterwards
    | Raise(w: nat, written: set<nat>, late: bool)

  predicate Enabled(s: State, e: Event) {
    match e
    case Tick(_) => true
    case Crash => true
    case Recover => s.phase == Down
    case Cleanup => s.phase == Recovering
    case UploadRequest(_, _, _, _) => s.phase == Up
    case ReprocessRequest(d) => s.phase == Up && d in s.docs && s.docs[d].status != Deleted
    case DeleteRequest(d) => s.phase == Up && d in s.docs && s.docs[d].status != Deleted
    case Claim(w, j) => s.phase == Up && w !in s.workers && j in s.jobs && Claimable(s.jobs, j, s.jobs[j].stage, s.now)
    case Commit(w) =>
      && w in s.workers
      && s.workers[w].pc != Fetch && s.workers[w].pc != MakeChunks
      && (s.workers[w].pc.StoreChunks? ==> s.workers[w].doc in s.docs)
    case Parsed(w, _) => w in s.workers && s.workers[w].pc == Fetch
    case Split(w, _) => w in s.workers && s.workers[w].pc == MakeChunks
    case Raise(w, written, late) =>
      && w in s.workers
      && (if s.workers[w].pc.Upsert? then written <= s.workers[w].pc.rows else written == {})
      && (late ==> OpAt(s.workers[w].pc).OpHandOff?)
  }

  function Apply(s: State, e: Event): State
    requires Enabled(s, e)
  {
    match e
    case Tick(elapsed) => s.(now := s.now + elapsed)
    case Crash => s.(phase := Down, workers := map[])
    case Recover => s.(
      phase := Recovering,
      jobs := Recovered(s.jobs, s.now),
      recoveries := map j | j in s.jobs :: Recoveries(s, j) + if s.jobs[j].Stale(s.now) then 1 else 0)
    case Cleanup => s.(phase := Up, jobs := CleanedUp(s.jobs, s.now))
    case UploadRequest(tenant, filename, checksum, fileStored) => Upload(s, tenant, filename, checksum, fileStored)
    case ReprocessRequest(d) => Requeue(s, d)
    case DeleteRequest(d) => RequestPurge(s, d)
    case Claim(w, j) =>
      s.(jobs := s.jobs[j := Claimed(s.jobs[j], s.now)],
         workers := s.workers[w := Worker(j, s.jobs[j].doc, Start(s.jobs[j].stage))])
    case Commit(w) =>
      var k := s.workers[w];
      Goto(Effect(s, k), w, k, After(s, k))
    case Parsed(w, blank) => Goto(s, w, s.workers[w], Some(if blank then EmptyStage else ParseDone))
    case Split(w, texts) => Goto(s, w, s.workers[w], Some(if texts == [] then NoChunksStage else StoreChunks(texts)))
    case Raise(w, written, late) =>
      var k := s.workers[w];
      var s1 := if late then Effect(s, k) else AddPoints(s, k.doc, written);
      Goto(s1, w, k, OnRaise(k.pc))
  }

  function Recoveries(s: State, j: nat): nat {
    if j in s.recoveries then s.recoveries[j] else 0
  }

  // ---- Runs ----------------------------------------------------------------

  ghost predicate CanRun(s: State, es: seq<Event>)
    decreases es
  {
    es == [] || (Enabled(s, es[0]) && CanRun(Apply(s, es[0]), es[1..]))
  }

  ghost function Run(s: State, es: seq<Event>): State
    requires CanRun(s, es)
    decreases es
  {
    if es == [] then s else Run(Apply(s, es[0]), es[1..])
  }

  ghost predicate Reachable(s: State) {
    exists s0, es :: Init(s0) && CanRun(s0, es) && Run(s0, es) == s
  }
}
