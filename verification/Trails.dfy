/**
 Trails of worker procedures: the events that took the database from where it was to
 where it is, and the statements that the procedure itself has executed, compared with
 the statements that each procedure is to execute.
 */
module Trails {
  import opened Prelude
  import opened JobQueue
  import opened Pipeline
  import opened Effects
  import Runs

  /** How a procedure ends: job finished, job given back, or an exception that left the
      handler as well and the job still locked. */
  datatype Exit = WasAcked | WasNacked | Escaped

  predicate BelongsTo(e: Event, w: nat) {
    match e
    case Claim(v, _) => v == w
    case Commit(v) => v == w
    case Parsed(v, _) => v == w
    case Split(v, _) => v == w
    case Raise(v, _, _) => v == w
    case _ => false
  }

  lemma OthersKeepWorker(s: State, e: Event, w: nat)
    requires Enabled(s, e) && w in s.workers && !BelongsTo(e, w) && !e.Crash?
    ensures w in Apply(s, e).workers && Apply(s, e).workers[w] == s.workers[w]
  {
    if e.UploadRequest? {
      PlanKeepsWorkers(s, PlanUpload(s, e.tenant, e.filename, e.checksum), e.tenant, e.filename, e.checksum,
                       e.fileStored);
    }
  }

  lemma PlanKeepsWorkers(s: State, plan: UploadPlan, tenant: string, filename: string, checksum: string,
                         fileStored: bool)
    requires plan.Replace? ==> plan.previous in s.docs
    ensures FollowPlan(s, plan, tenant, filename, checksum, fileStored).workers == s.workers
  {
  }

  // ---- Trails --------------------------------------------------------------

  /** A statement of the procedure, committed or raised. */
  datatype Statement = Did(op: Op) | Raised(op: Op)

  datatype Trail = Trail(db: State, events: seq<Event>, log: seq<Statement>)

  /** What an event adds to the statements of worker w. */
  function StatementOf(s: State, e: Event, w: nat): seq<Statement> {
    if !BelongsTo(e, w) || w !in s.workers then []
    else [if e.Raise? then Raised(OpAt(s.workers[w].pc)) else Did(OpAt(s.workers[w].pc))]
  }

  /** The statements of worker w along a run. */
  ghost function Statements(s: State, es: seq<Event>, w: nat): seq<Statement>
    requires CanRun(s, es)
    decreases es
  {
    if es == [] then [] else StatementOf(s, es[0], w) + Statements(Apply(s, es[0]), es[1..], w)
  }

  /** The events are a run from s to the database without a crash, and the log lists the
      statements of worker w in it. */
  ghost predicate RanFrom(s: State, t: Trail, w: nat) {
    && CanRun(s, t.events) && t.db == Run(s, t.events)
    && (forall e | e in t.events :: !e.Crash?)
    && t.log == Statements(s, t.events, w)
  }

  ghost function Extend(t: Trail, e: Event, w: nat): Trail
    requires Enabled(t.db, e)
  {
    Trail(Apply(t.db, e), t.events + [e], t.log + StatementOf(t.db, e, w))
  }

  /** No event other than a crash leads out of the set of trails. */
  ghost predicate Closed(T: iset<Trail>, w: nat) {
    forall t, e {:trigger Extend(t, e, w)} | t in T && Enabled(t.db, e) && !e.Crash? :: Extend(t, e, w) in T
  }

  lemma ExtendStays(T: iset<Trail>, t: Trail, e: Event, w: nat)
    requires Closed(T, w) && t in T && Enabled(t.db, e) && !e.Crash?
    ensures Extend(t, e, w) in T
  {
  }

  ghost function TrailsFrom(s: State, w: nat): (T: iset<Trail>)
    ensures Closed(T, w) && Trail(s, [], []) in T
    ensures forall t :: t in T <==> RanFrom(s, t, w)
  {
    var T := iset t: Trail | RanFrom(s, t, w);
    assert Closed(T, w) by {
      forall t, e | t in T && Enabled(t.db, e) && !e.Crash? ensures Extend(t, e, w) in T {
        Runs.RunOneMore(s, t.events, e);
        StatementsOneMore(s, t.events, e, w);
      }
    }
    T
  }

  lemma {:induction false} StatementsOneMore(s: State, es: seq<Event>, e: Event, w: nat)
    requires CanRun(s, es) && CanRun(s, es + [e])
    ensures Statements(s, es + [e], w) == Statements(s, es, w) + StatementOf(Run(s, es), e, w)
    decreases es
  {
    if es == [] {
      assert [e][1..] == [];
    } else {
      assert (es + [e])[1..] == es[1..] + [e];
      StatementsOneMore(Apply(s, es[0]), es[1..], e, w);
    }
  }

  // ---- Points dropped ------------------------------------------------------

  /** Nobody stores points of the document once worker w has dropped them. */
  ghost predicate NoUpsertsSince(s: State, es: seq<Event>, w: nat, d: nat)
    requires CanRun(s, es)
    decreases es
  {
    es != [] ==>
      if es[0] == Commit(w) && s.workers[w].pc == PurgeVectors then NoUpserts(Apply(s, es[0]), es[1..], d)
      else NoUpsertsSince(Apply(s, es[0]), es[1..], w, d)
  }

  /** The statement took effect, and what it deleted has not come back. */
  lemma {:induction false} DroppedStayDropped(s: State, es: seq<Event>, w: nat)
    requires CanRun(s, es) && forall e | e in es :: !e.Crash?
    requires w in s.workers && s.workers[w].pc == PurgeVectors && NoUpsertsSince(s, es, w, s.workers[w].doc)
    requires Statements(s, es, w) != [] && Statements(s, es, w)[0] == Did(OpDropVectors)
    ensures NoPoint(Run(s, es), s.workers[w].doc)
    decreases es
  {
    assert es[0] in es && forall e | e in es[1..] :: e in es;
    if BelongsTo(es[0], w) {
      VectorsDropped(s, w);
      PointsStayGone(Apply(s, es[0]), es[1..], s.workers[w].doc);
    } else {
      OthersKeepWorker(s, es[0], w);
      DroppedStayDropped(Apply(s, es[0]), es[1..], w);
    }
  }

  // ---- Plans ---------------------------------------------------------------

  /** From before to after the statements of the plan were executed: all of them, or up to
      one that raised. */
  predicate Follows(before: seq<Statement>, after: seq<Statement>, plan: seq<Op>, ok: bool) {
    && before <= after
    && var mine := after[|before|..];
    && (if ok then |mine| == |plan| else 0 < |mine| <= |plan|)
    && forall i | 0 <= i < |mine| :: mine[i] == if ok || i < |mine| - 1 then Did(plan[i]) else Raised(plan[i])
  }

  lemma FollowsOn(a: seq<Statement>, b: seq<Statement>, c: seq<Statement>, plan: seq<Op>, rest: seq<Op>, ok: bool)
    requires Follows(a, b, plan, true) && Follows(b, c, rest, ok)
    ensures Follows(a, c, plan + rest, ok)
  {
    var mine := c[|a|..];
    assert mine[..|plan|] == b[|a|..] && mine[|plan|..] == c[|b|..];
    assert forall i | 0 <= i < |plan| :: mine[i] == b[|a|..][i];
    assert forall i | |plan| <= i < |mine| :: mine[i] == c[|b|..][i - |plan|];
  }

  lemma FailsEarly(a: seq<Statement>, b: seq<Statement>, plan: seq<Op>, rest: seq<Op>)
    requires Follows(a, b, plan, false)
    ensures Follows(a, b, plan + rest, false)
  {
  }

  /** The plan was carried out and the job acked; or a statement of it raised and then the
      handler's plan was carried out, or raised as well. */
  ghost predicate Handled(log: seq<Statement>, plan: seq<Op>, handler: seq<Op>, exit: Exit) {
    if exit == WasAcked then Follows([], log, plan, true)
    else exists mid :: Follows([], mid, plan, false) && Follows(mid, log, handler, exit == WasNacked)
  }

  /** An exit that trying again cannot help. */
  function AbandonPlan(name: StageName, status: DocStatus): seq<Op> {
    [OpStage(name, StageFailed), OpStatus(status), OpAck]
  }

  /** The except block of ingest and embed. */
  function GiveBackPlan(name: StageName, status: DocStatus): seq<Op> {
    [OpStage(name, StageFailed), OpStatus(status), OpNack]
  }

  function ParsePlan(): seq<Op> {
    [OpStage(ParseStage, StageProcessing), OpStatus(Parsing), OpNone]
  }

  function ChunkPlan(): seq<Op> {
    [OpStage(ParseStage, StageDone), OpStage(ChunkStage, StageProcessing), OpNone]
  }

  function StorePlan(texts: seq<string>): seq<Op> {
    [OpInsert(texts), OpStage(ChunkStage, StageDone), OpHandOff(Embed), OpAck]
  }

  function IngestPlan(blank: bool, texts: seq<string>): seq<Op> {
    ParsePlan()
    + if blank then AbandonPlan(ParseStage, ParseFailed)
      else ChunkPlan() + if texts == [] then AbandonPlan(ChunkStage, ChunkFailed) else StorePlan(texts)
  }

  /** The answers that steer an embed job: the document is gone, it has no chunks, its
      rows vanished meanwhile, or all goes well. */
  datatype EmbedPath = Skips | Empty | Stale(rows: set<nat>) | Passes(rows: set<nat>)

  function LoadPlan(): seq<Op> {
    [OpStage(EmbedStage, StageProcessing), OpStatus(Embedding), OpNone]
  }

  function UpsertPlan(rows: set<nat>): seq<Op> {
    [OpUpsert(rows), OpVectorIds(rows)]
  }

  /** What follows once the chunk rows are read. */
  function RowsPlan(path: EmbedPath): seq<Op>
    requires path != Skips
  {
    match path
    case Empty => AbandonPlan(EmbedStage, EmbedFailed)
    case Stale(rows) => UpsertPlan(rows) + [OpAck]
    case Passes(rows) => UpsertPlan(rows) + [OpStage(EmbedStage, StageDone), OpHandOff(Index), OpAck]
  }

  function EmbedPlan(path: EmbedPath): seq<Op> {
    [OpNone] + if path == Skips then [OpAck] else LoadPlan() + RowsPlan(path)
  }

  function IndexPlan(): seq<Op> {
    [OpStage(IndexStage, StageProcessing), OpStatus(Indexed), OpStage(IndexStage, StageDone), OpAck]
  }

  /** Vectors and files first, whether that raises or not; then the row, and if that raises
      the status, whether that raises or not, and the nack. */
  predicate PurgeLog(log: seq<Statement>, exit: Exit) {
    && |log| == (if exit == WasAcked then 3 else 5)
    && log[0].op == OpDropVectors && log[1].op == OpNone
    && if exit == WasAcked then log[2] == Did(OpDelete)
       else
         && log[2] == Raised(OpDelete) && log[3].op == OpStatus(DocError)
         && log[4] == Last(exit)
  }

  function Last(exit: Exit): Statement {
    if exit == WasNacked then Did(OpNack) else Raised(OpNack)
  }
}
