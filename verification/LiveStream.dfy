/**
 The pipeline and its event bus together: a worker commits a stage row and broadcasts it
 before it goes on.  While no step opens a second job of a document, its subscribers end
 on the rows of the stage table.
 */
module LiveStream {
  import opened Prelude
  import JobQueue
  import P = Pipeline
  import Consistency
  import Ownership
  import Trails
  import Writers
  import opened EventStream
  import opened StreamConvergence

  /** The server as seen by one tenant; telling holds the workers between the commit of a
      stage row and its broadcast. */
  datatype World = World(tenant: string, db: P.State, bus: Bus, telling: map<nat, StageEvent>)

  datatype Act =
    | Server(e: P.Event)
    | Tell(w: nat, i: nat)
    | View(step: Step)

  ghost predicate Init(a: World) {
    P.Init(a.db) && a.bus == Bus(map[], [], map[]) && a.telling == map[]
  }

  predicate OfWorker(e: P.Event, w: nat) {
    (e.Commit? || e.Parsed? || e.Split? || e.Raise?) && e.w == w
  }

  predicate Possible(a: World, act: Act) {
    match act
    case Server(e) => P.Enabled(a.db, e) && forall w | w in a.telling :: !OfWorker(e, w)
    case Tell(w, i) => w in a.telling && i < |a.bus.inflight| && a.bus.inflight[i] == a.telling[w]
    case View(step) => !step.Store? && !step.Broadcast? && Enabled(a.bus, step)
  }

  predicate OwnDocument(a: World, d: nat) {
    d in a.db.docs && a.db.docs[d].tenant == a.tenant
  }

  /** update_stage up to its commit; a document that is gone has no row to write. */
  predicate Writes(a: World, e: P.Event)
    requires P.Enabled(a.db, e)
  {
    e.Commit? && P.OpAt(a.db.workers[e.w].pc).OpStage? && OwnDocument(a, a.db.workers[e.w].doc)
  }

  function Row(k: P.Worker): StageEvent
    requires P.OpAt(k.pc).OpStage?
  {
    StageEvent(k.doc, P.OpAt(k.pc).name, P.OpAt(k.pc).stageStatus)
  }

  function Pending(d: nat): seq<StageEvent> {
    [StageEvent(d, P.ParseStage, P.StagePending), StageEvent(d, P.ChunkStage, P.StagePending),
     StageEvent(d, P.EmbedStage, P.StagePending), StageEvent(d, P.IndexStage, P.StagePending)]
  }

  /** Rows that a request commits and broadcasts. */
  function Announcements(a: World, e: P.Event): seq<StageEvent> {
    match e
    case ReprocessRequest(d) => if OwnDocument(a, d) then Pending(d) else []
    case UploadRequest(tenant, filename, checksum, fileStored) =>
      if tenant != a.tenant then []
      else (match P.PlanUpload(a.db, tenant, filename, checksum)
            case Ignore => []
            case Retry(d) => Pending(d)
            case _ => if fileStored then [StageEvent(a.db.nextDoc, P.UploadStage, P.StageDone)] else [])
    case _ => []
  }

  function AnnounceAll(bus: Bus, events: seq<StageEvent>): Bus
    decreases events
  {
    if events == [] then bus else AnnounceAll(Announced(bus, events[0]), events[1..])
  }

  function Next(a: World, act: Act): World
    requires Possible(a, act)
  {
    match act
    case Server(e) =>
      if Writes(a, e) then
        var row := Row(a.db.workers[e.w]);
        a.(db := P.Apply(a.db, e), bus := Apply(a.bus, Store(row)), telling := a.telling[e.w := row])
      else if e == P.Crash then
        a.(db := P.Apply(a.db, e), bus := Bus(a.bus.stored, [], map[]), telling := map[])
      else
        a.(db := P.Apply(a.db, e), bus := AnnounceAll(a.bus, Announcements(a, e)))
    case Tell(w, i) => a.(bus := Apply(a.bus, Broadcast(i)), telling := a.telling - {w})
    case View(step) => a.(bus := Apply(a.bus, step))
  }

  /** No subscriber of the document loses its last word to a full queue. */
  ghost predicate Heard(bus: Bus, i: nat, d: nat)
    requires i < |bus.inflight|
  {
    forall q, name | q in bus.subscribers && bus.subscribers[q].doc == d :: !StepLoses(bus, Broadcast(i), q, name)
  }

  ghost predicate AllHeard(bus: Bus, events: seq<StageEvent>, d: nat)
    decreases events
  {
    events != [] ==>
      && Heard(Apply(bus, Store(events[0])), |bus.inflight|, d)
      && AllHeard(Announced(bus, events[0]), events[1..], d)
  }

  /** No second job is opened for the document, and no last word is dropped. */
  ghost predicate Smooth(a: World, act: Act, d: nat)
    requires Possible(a, act)
  {
    match act
    case Server(e) => !Writers.StepDoubles(a.db, e, d) && AllHeard(a.bus, Announcements(a, e), d)
    case Tell(_, i) => Heard(a.bus, i, d)
    case View(_) => true
  }

  // ---- The invariant -------------------------------------------------------

  ghost predicate Tracked(a: World) {
    forall w | w in a.telling ::
      && w in a.db.workers && a.db.workers[w].doc == a.telling[w].doc
      && P.KindOf(a.db.workers[w].pc) != JobQueue.Purge && !Writers.HandedOver(a.db.workers[w].pc)
  }

  ghost predicate Covered(a: World, d: nat) {
    forall e | e in a.bus.inflight && e.doc == d :: exists w :: w in a.telling && a.telling[w] == e
  }

  /** At most one event of the document is in flight. */
  predicate AtMostOne(bus: Bus, d: nat) {
    forall i, j | 0 <= i < j < |bus.inflight| :: bus.inflight[i].doc != d || bus.inflight[j].doc != d
  }

  ghost predicate AllGood(bus: Bus, d: nat) {
    && (forall e | e in bus.inflight && e.doc == d :: e.status == StatusOf(bus.stored, d, e.stage))
    && forall q, name | q in bus.subscribers && bus.subscribers[q].doc == d :: Good(bus, q, name)
  }

  /** The rows of the document are this tenant's, or there are none yet. */
  predicate Followed(a: World, d: nat) {
    OwnDocument(a, d) || d >= a.db.nextDoc
  }

  type Rows = map<(nat, P.StageName), P.StageStatus>

  ghost predicate SameRows(s: Rows, s1: Rows, d: nat) {
    forall name :: StatusOf(s, d, name) == StatusOf(s1, d, name)
  }

  /** The bus knows the rows of the table. */
  ghost predicate Agrees(a: World, d: nat) {
    Followed(a, d) ==> SameRows(a.bus.stored, a.db.stages, d)
  }

  ghost predicate Live(a: World, d: nat) {
    && Consistency.Consistent(a.db) && Writers.OneOpen(a.db, d)
    && Tracked(a) && Covered(a, d) && AtMostOne(a.bus, d) && AllGood(a.bus, d) && Agrees(a, d)
  }

  predicate NoneInFlight(bus: Bus, d: nat) {
    forall e | e in bus.inflight :: e.doc != d
  }

  // ---- The bus -------------------------------------------------------------

  lemma StoreKeepsGood(bus: Bus, e: StageEvent, d: nat)
    requires AllGood(bus, d) && (e.doc == d ==> NoneInFlight(bus, d))
    ensures AllGood(Apply(bus, Store(e)), d)
  {
    var bus1 := Apply(bus, Store(e));
    forall q, name | q in bus1.subscribers && bus1.subscribers[q].doc == d ensures Good(bus1, q, name) {
      LossExactly(bus, Store(e), q, name);
    }
  }

  lemma BroadcastKeepsGood(bus: Bus, i: nat, d: nat)
    requires AllGood(bus, d) && i < |bus.inflight| && Heard(bus, i, d)
    ensures AllGood(Apply(bus, Broadcast(i)), d)
  {
    var bus1 := Apply(bus, Broadcast(i));
    WithoutOne(bus.inflight, i);
    assert bus1.inflight == Without(bus.inflight, i);
    forall q, name | q in bus1.subscribers && bus1.subscribers[q].doc == d ensures Good(bus1, q, name) {
      LossExactly(bus, Broadcast(i), q, name);
    }
  }

  lemma ViewKeepsGood(bus: Bus, step: Step, d: nat)
    requires AllGood(bus, d) && Enabled(bus, step) && !step.Store? && !step.Broadcast?
    ensures AllGood(Apply(bus, step), d)
  {
    var bus1 := Apply(bus, step);
    forall q, name | q in bus1.subscribers && bus1.subscribers[q].doc == d ensures Good(bus1, q, name) {
      if step.Subscribe? && step.q == q {
        NewcomerExactly(bus, q, d, name);
      } else {
        LossExactly(bus, step, q, name);
      }
    }
  }

  lemma {:induction false} AnnouncementsKeepGood(bus: Bus, events: seq<StageEvent>, d: nat)
    requires AllGood(bus, d) && AllHeard(bus, events, d)
    requires (exists e :: e in events && e.doc == d) ==> NoneInFlight(bus, d)
    ensures AllGood(AnnounceAll(bus, events), d) && AnnounceAll(bus, events).inflight == bus.inflight
    decreases events
  {
    if events != [] {
      var e := events[0];
      assert e in events && forall f | f in events[1..] :: f in events;
      AnnouncedEffect(bus, e);
      var mid := Apply(bus, Store(e));
      StoreKeepsGood(bus, e, d);
      assert mid.inflight[|bus.inflight|] == e && mid.subscribers == bus.subscribers;
      BroadcastKeepsGood(mid, |bus.inflight|, d);
      AnnouncementsKeepGood(Announced(bus, e), events[1..], d);
    }
  }

  // ---- Writers -------------------------------------------------------------

  lemma TellerIsBusy(a: World, w: nat)
    requires Tracked(a) && w in a.telling && a.telling[w].doc in a.db.docs
    ensures Writers.Busy(a.db, w, a.telling[w].doc)
  {
  }

  /** Nothing of the document is in flight when a worker writes one of its stages. */
  lemma WriterIsAlone(a: World, e: P.Event, d: nat)
    requires Live(a, d) && Possible(a, Server(e)) && Writes(a, e) && a.db.workers[e.w].doc == d
    ensures NoneInFlight(a.bus, d)
  {
    Writers.WriterIsBusy(a.db, e.w);
    Writers.OneOpenOneBusy(a.db, d);
    assert OfWorker(e, e.w);
    forall f | f in a.bus.inflight ensures f.doc != d {
      if f.doc == d {
        var w :| w in a.telling && a.telling[w] == f;
        TellerIsBusy(a, w);
      }
    }
  }

  lemma InFlightIsOpen(a: World, d: nat)
    requires Live(a, d) && d in a.db.docs && !NoneInFlight(a.bus, d)
    ensures exists j :: Writers.Open(a.db, j, d)
  {
    var f :| f in a.bus.inflight && f.doc == d;
    var w :| w in a.telling && a.telling[w] == f;
    TellerIsBusy(a, w);
    Writers.BusyIsOpen(a.db, w, d);
  }

  lemma InFlightIsOld(a: World, d: nat)
    requires Live(a, d) && d >= a.db.nextDoc
    ensures NoneInFlight(a.bus, d)
  {
  }

  lemma AnnouncedDocument(a: World, e: P.Event, d: nat)
    requires P.Enabled(a.db, e) && exists f :: f in Announcements(a, e) && f.doc == d
    ensures d == a.db.nextDoc || (d in a.db.docs && (e == P.ReprocessRequest(d) ||
      (e.UploadRequest? && P.PlanUpload(a.db, e.tenant, e.filename, e.checksum) == P.Retry(d))))
  {
  }

  /** Nor when a request does. */
  lemma RequestIsAlone(a: World, e: P.Event, d: nat)
    requires Live(a, d) && Possible(a, Server(e)) && !Writers.StepDoubles(a.db, e, d)
    ensures (exists f :: f in Announcements(a, e) && f.doc == d) ==> NoneInFlight(a.bus, d)
  {
    if exists f :: f in Announcements(a, e) && f.doc == d {
      AnnouncedDocument(a, e, d);
      if d == a.db.nextDoc {
        InFlightIsOld(a, d);
      } else if !NoneInFlight(a.bus, d) {
        InFlightIsOpen(a, d);
      }
    }
  }

  lemma TrackedStays(a: World, e: P.Event)
    requires Consistency.Consistent(a.db) && Tracked(a) && Possible(a, Server(e))
    ensures Tracked(Next(a, Server(e)))
  {
    var a1 := Next(a, Server(e));
    forall w | w in a1.telling
      ensures w in a1.db.workers && a1.db.workers[w].doc == a1.telling[w].doc
        && P.KindOf(a1.db.workers[w].pc) != JobQueue.Purge && !Writers.HandedOver(a1.db.workers[w].pc)
    {
      if OfWorker(e, w) {
        Writers.WriterIsBusy(a.db, w);
      } else {
        Trails.OthersKeepWorker(a.db, e, w);
      }
    }
  }

  // ---- Rows ----------------------------------------------------------------

  /** Rows stay but for those written by update_stage, a requeue or a new document. */
  lemma PerformKeepsRows(s: P.State, op: P.Op, job: nat, doc: nat, d: nat)
    requires op.OpInsert? ==> doc in s.docs
    requires op.OpStage? ==> doc != d || doc !in s.docs
    ensures !(op.OpDelete? && doc == d) ==> SameRows(s.stages, P.Perform(s, op, job, doc).stages, d)
  {
  }

  lemma PerformKeepsTenant(s: P.State, op: P.Op, job: nat, doc: nat, d: nat)
    requires op.OpInsert? ==> doc in s.docs
    requires d in P.Perform(s, op, job, doc).docs
    ensures d in s.docs && P.Perform(s, op, job, doc).docs[d].tenant == s.docs[d].tenant
    ensures !(op.OpDelete? && doc == d)
  {
  }

  lemma PlanRows(s: P.State, plan: P.UploadPlan, tenant: string, filename: string, checksum: string,
                 fileStored: bool)
    requires plan.Replace? ==> plan.previous in s.docs
    ensures P.FollowPlan(s, plan, tenant, filename, checksum, fileStored).stages ==
      match plan
      case Ignore => s.stages
      case Retry(r) => P.ResetStages(s, r)
      case _ => if fileStored then s.stages[(s.nextDoc, P.UploadStage) := P.StageDone] else s.stages
  {
  }

  lemma PlanNextDoc(s: P.State, plan: P.UploadPlan, tenant: string, filename: string, checksum: string,
                    fileStored: bool)
    requires plan.Replace? ==> plan.previous in s.docs
    ensures P.FollowPlan(s, plan, tenant, filename, checksum, fileStored).nextDoc ==
      s.nextDoc + if (plan.Add? || plan.Replace?) && fileStored then 1 else 0
  {
  }

  /** The document was there, for the same tenant. */
  predicate SameTenant(s: P.State, s1: P.State, d: nat) {
    d in s1.docs ==> d in s.docs && s1.docs[d].tenant == s.docs[d].tenant
  }

  lemma RequestsKeepTenant(s: P.State, r: nat, d: nat)
    ensures SameTenant(s, P.RequestPurge(s, r), d) && SameTenant(s, P.Requeue(s, r), d)
    ensures P.RequestPurge(s, r).nextDoc == s.nextDoc
  {
  }

  lemma AddingKeepsTenant(s: P.State, tenant: string, filename: string, checksum: string, d: nat)
    ensures var s1 := P.AddDocument(s, tenant, filename, checksum);
      if d == s.nextDoc then d in s1.docs && s1.docs[d].tenant == tenant else SameTenant(s, s1, d)
  {
  }

  lemma PlanDocs(s: P.State, plan: P.UploadPlan, tenant: string, filename: string, checksum: string,
                 fileStored: bool, d: nat)
    requires plan.Replace? ==> plan.previous in s.docs
    ensures var s1 := P.FollowPlan(s, plan, tenant, filename, checksum, fileStored);
      if d == s.nextDoc && (plan.Add? || plan.Replace?) && fileStored then d in s1.docs && s1.docs[d].tenant == tenant
      else SameTenant(s, s1, d)
  {
    match plan
    case Ignore =>
    case Retry(r) => RequestsKeepTenant(s, r, d);
    case Add => AddingKeepsTenant(s, tenant, filename, checksum, d);
    case Replace(r) =>
      RequestsKeepTenant(s, r, d);
      var s1 := if s.docs[r].checksum != checksum then P.RequestPurge(s, r) else s;
      AddingKeepsTenant(s1, tenant, filename, checksum, d);
  }

  function Put(rows: Rows, events: seq<StageEvent>): Rows
    decreases events
  {
    if events == [] then rows else Put(rows[(events[0].doc, events[0].stage) := events[0].status], events[1..])
  }

  lemma PutFirst(rows: Rows, e: StageEvent, events: seq<StageEvent>)
    ensures Put(rows, [e] + events) == Put(rows[(e.doc, e.stage) := e.status], events)
  {
    assert ([e] + events)[1..] == events;
  }

  lemma PutPending(rows: Rows, d: nat)
    ensures Put(rows, Pending(d)) ==
      rows[(d, P.ParseStage) := P.StagePending][(d, P.ChunkStage) := P.StagePending]
          [(d, P.EmbedStage) := P.StagePending][(d, P.IndexStage) := P.StagePending]
  {
    var e := Pending(d);
    var rows1 := rows[(d, P.ParseStage) := P.StagePending];
    var rows2 := rows1[(d, P.ChunkStage) := P.StagePending];
    assert e == [e[0]] + ([e[1]] + ([e[2]] + ([e[3]] + [])));
    PutFirst(rows, e[0], [e[1]] + ([e[2]] + ([e[3]] + [])));
    PutFirst(rows1, e[1], [e[2]] + ([e[3]] + []));
    PutFirst(rows2, e[2], [e[3]] + []);
    PutFirst(rows2[(d, P.EmbedStage) := P.StagePending], e[3], []);
  }

  lemma OneRowKeepsSame(a: Rows, b: Rows, e: StageEvent, d: nat)
    requires SameRows(a, b, d)
    ensures SameRows(a[(e.doc, e.stage) := e.status], b[(e.doc, e.stage) := e.status], d)
  {
    var a1, b1 := a[(e.doc, e.stage) := e.status], b[(e.doc, e.stage) := e.status];
    forall name ensures StatusOf(a1, d, name) == StatusOf(b1, d, name) {
      assert StatusOf(a, d, name) == StatusOf(b, d, name);
    }
  }

  lemma {:induction false} PutKeepsSame(a: Rows, b: Rows, events: seq<StageEvent>, d: nat)
    requires SameRows(a, b, d)
    ensures SameRows(Put(a, events), Put(b, events), d)
    decreases events
  {
    if events != [] {
      var e := events[0];
      OneRowKeepsSame(a, b, e, d);
      PutKeepsSame(a[(e.doc, e.stage) := e.status], b[(e.doc, e.stage) := e.status], events[1..], d);
    }
  }

  lemma {:induction false} AnnounceAllStores(bus: Bus, events: seq<StageEvent>)
    ensures AnnounceAll(bus, events).stored == Put(bus.stored, events)
    decreases events
  {
    if events != [] {
      AnnouncedEffect(bus, events[0]);
      AnnounceAllStores(Announced(bus, events[0]), events[1..]);
    }
  }

  /** Only a statement of a worker changes rows without a request. */
  predicate RunsStatement(e: P.Event) {
    e.Commit? || (e.Raise? && e.late)
  }

  lemma StatementTables(s: P.State, e: P.Event)
    requires P.Enabled(s, e) && RunsStatement(e)
    ensures P.Apply(s, e).stages == P.Effect(s, s.workers[e.w]).stages
    ensures P.Apply(s, e).docs == P.Effect(s, s.workers[e.w]).docs
  {
  }

  lemma OtherTables(s: P.State, e: P.Event)
    requires P.Enabled(s, e) && !RunsStatement(e) && !Ownership.IsRequest(e)
    ensures P.Apply(s, e).stages == s.stages && P.Apply(s, e).docs == s.docs
  {
  }

  lemma EffectKeepsTenant(s: P.State, k: P.Worker, d: nat)
    requires P.OpAt(k.pc).OpInsert? ==> k.doc in s.docs
    ensures SameTenant(s, P.Effect(s, k), d)
  {
    if d in P.Effect(s, k).docs {
      PerformKeepsTenant(s, P.OpAt(k.pc), k.job, k.doc, d);
    }
  }

  lemma TenantStays(s: P.State, e: P.Event, d: nat)
    requires P.Enabled(s, e) && !e.UploadRequest?
    ensures SameTenant(s, P.Apply(s, e), d)
  {
    if Ownership.IsRequest(e) {
      RequestsKeepTenant(s, e.doc, d);
    } else if RunsStatement(e) {
      StatementTables(s, e);
      EffectKeepsTenant(s, s.workers[e.w], d);
    } else {
      OtherTables(s, e);
    }
  }

  lemma FollowedBefore(a: World, e: P.Event, d: nat)
    requires Consistency.Consistent(a.db) && Possible(a, Server(e)) && Followed(Next(a, Server(e)), d)
    ensures Followed(a, d)
    ensures d == a.db.nextDoc && e.UploadRequest? && e.tenant != a.tenant ==> d !in P.Apply(a.db, e).docs
  {
    Ownership.StepEvolves(a.db, e);
    if e.UploadRequest? {
      PlanNextDoc(a.db, P.PlanUpload(a.db, e.tenant, e.filename, e.checksum), e.tenant, e.filename, e.checksum,
                  e.fileStored);
      PlanDocs(a.db, P.PlanUpload(a.db, e.tenant, e.filename, e.checksum), e.tenant, e.filename, e.checksum,
               e.fileStored, d);
    } else {
      TenantStays(a.db, e, d);
    }
  }

  /** A request writes what it announces. */
  lemma RequestPuts(a: World, e: P.Event, d: nat)
    requires Consistency.Consistent(a.db) && Possible(a, Server(e)) && Ownership.IsRequest(e)
    requires Followed(Next(a, Server(e)), d)
    ensures SameRows(P.Apply(a.db, e).stages, Put(a.db.stages, Announcements(a, e)), d)
  {
    FollowedBefore(a, e, d);
    match e
    case ReprocessRequest(r) => PutPending(a.db.stages, r);
    case DeleteRequest(r) =>
    case UploadRequest(tenant, filename, checksum, fileStored) =>
      var plan := P.PlanUpload(a.db, tenant, filename, checksum);
      PlanRows(a.db, plan, tenant, filename, checksum, fileStored);
      PlanNextDoc(a.db, plan, tenant, filename, checksum, fileStored);
      PlanDocs(a.db, plan, tenant, filename, checksum, fileStored, d);
      UploadPuts(a, plan, e, P.Apply(a.db, e), d);
  }

  lemma UploadPuts(a: World, plan: P.UploadPlan, e: P.Event, s1: P.State, d: nat)
    requires e.UploadRequest? && plan == P.PlanUpload(a.db, e.tenant, e.filename, e.checksum)
    requires s1.stages ==
      match plan
      case Ignore => a.db.stages
      case Retry(r) => P.ResetStages(a.db, r)
      case _ => if e.fileStored then a.db.stages[(a.db.nextDoc, P.UploadStage) := P.StageDone] else a.db.stages
    requires Followed(a, d) && Consistency.FreshIds(a.db)
    requires d == a.db.nextDoc && e.tenant != a.tenant ==> (plan.Add? || plan.Replace? ==> !e.fileStored)
    ensures SameRows(s1.stages, Put(a.db.stages, Announcements(a, e)), d)
  {
    if plan.Retry? {
      PutPending(a.db.stages, plan.doc);
      assert plan.doc in P.SameContent(a.db, e.tenant, e.checksum);
    } else if !plan.Ignore? && e.fileStored {
      var row := StageEvent(a.db.nextDoc, P.UploadStage, P.StageDone);
      PutFirst(a.db.stages, row, []);
      assert [row] + [] == [row];
    }
  }

  // ---- Steps ---------------------------------------------------------------

  lemma RequestAgrees(a: World, e: P.Event, d: nat)
    requires Consistency.Consistent(a.db) && Possible(a, Server(e)) && Ownership.IsRequest(e) && Agrees(a, d)
    ensures Agrees(Next(a, Server(e)), d)
  {
    var a1 := Next(a, Server(e));
    if Followed(a1, d) {
      FollowedBefore(a, e, d);
      RequestPuts(a, e, d);
      AnnounceAllStores(a.bus, Announcements(a, e));
      PutKeepsSame(a.bus.stored, a.db.stages, Announcements(a, e), d);
      SameRowsChain(a1.bus.stored, Put(a.db.stages, Announcements(a, e)), a1.db.stages, d);
    }
  }

  lemma SameRowsChain(a: Rows, b: Rows, c: Rows, d: nat)
    requires SameRows(a, b, d) && SameRows(c, b, d)
    ensures SameRows(a, c, d)
  {
    forall name ensures StatusOf(a, d, name) == StatusOf(c, d, name) {
      assert StatusOf(a, d, name) == StatusOf(b, d, name);
    }
  }

  lemma WriteAgrees(a: World, e: P.Event, d: nat)
    requires Consistency.Consistent(a.db) && Possible(a, Server(e)) && Writes(a, e) && Agrees(a, d)
    ensures Agrees(Next(a, Server(e)), d)
  {
    var a1 := Next(a, Server(e));
    if Followed(a1, d) {
      FollowedBefore(a, e, d);
      OneRowKeepsSame(a.bus.stored, a.db.stages, Row(a.db.workers[e.w]), d);
    }
  }

  lemma OtherStepAgrees(a: World, e: P.Event, d: nat)
    requires Consistency.Consistent(a.db) && Possible(a, Server(e)) && Agrees(a, d)
    requires !Writes(a, e) && !Ownership.IsRequest(e)
    ensures Agrees(Next(a, Server(e)), d)
  {
    var a1 := Next(a, Server(e));
    if Followed(a1, d) {
      FollowedBefore(a, e, d);
      OtherStepKeepsRows(a, e, d);
      assert a1.bus.stored == a.bus.stored;
      SameRowsChain(a.bus.stored, a.db.stages, a1.db.stages, d);
    }
  }

  lemma OtherStepKeepsRows(a: World, e: P.Event, d: nat)
    requires Possible(a, Server(e)) && !Writes(a, e) && !Ownership.IsRequest(e)
    requires Followed(a, d) && Followed(Next(a, Server(e)), d) && Consistency.FreshIds(a.db)
    ensures SameRows(P.Apply(a.db, e).stages, a.db.stages, d)
  {
    if RunsStatement(e) {
      StatementTables(a.db, e);
      EffectKeepsRows(a, a.db.workers[e.w], d);
    } else {
      OtherTables(a.db, e);
    }
  }

  lemma EffectKeepsRows(a: World, k: P.Worker, d: nat)
    requires P.OpAt(k.pc).OpInsert? ==> k.doc in a.db.docs
    requires P.OpAt(k.pc).OpStage? ==> !OwnDocument(a, k.doc)
    requires Followed(a, d) && Consistency.FreshIds(a.db) && k.doc < a.db.nextDoc
    requires d in P.Effect(a.db, k).docs || d >= a.db.nextDoc
    ensures SameRows(P.Effect(a.db, k).stages, a.db.stages, d)
  {
    PerformKeepsRows(a.db, P.OpAt(k.pc), k.job, k.doc, d);
  }

  lemma ServerStepKeepsLive(a: World, e: P.Event, d: nat)
    requires Live(a, d) && Possible(a, Server(e)) && Smooth(a, Server(e), d)
    ensures Live(Next(a, Server(e)), d)
  {
    Consistency.StepKeepsConsistency(a.db, e);
    Writers.DoublesExactly(a.db, e, d);
    TrackedStays(a, e);
    ServerStepKeepsStream(a, e, d);
    if Ownership.IsRequest(e) {
      RequestAgrees(a, e, d);
    } else if Writes(a, e) {
      WriteAgrees(a, e, d);
    } else {
      OtherStepAgrees(a, e, d);
    }
  }

  lemma WriteKeepsStream(a: World, e: P.Event, d: nat)
    requires Live(a, d) && Possible(a, Server(e)) && Writes(a, e)
    ensures Covered(Next(a, Server(e)), d) && AtMostOne(Next(a, Server(e)).bus, d)
    ensures AllGood(Next(a, Server(e)).bus, d)
  {
    var row := Row(a.db.workers[e.w]);
    if row.doc == d {
      WriterIsAlone(a, e, d);
    }
    StoreKeepsGood(a.bus, row, d);
    WriteKeepsCovered(a, e, d);
    StoreKeepsAtMostOne(a.bus, row, d);
  }

  lemma StoreKeepsAtMostOne(bus: Bus, e: StageEvent, d: nat)
    requires AtMostOne(bus, d) && (e.doc == d ==> NoneInFlight(bus, d))
    ensures AtMostOne(Apply(bus, Store(e)), d)
  {
  }

  lemma ServerStepKeepsStream(a: World, e: P.Event, d: nat)
    requires Live(a, d) && Possible(a, Server(e)) && Smooth(a, Server(e), d)
    ensures Covered(Next(a, Server(e)), d) && AtMostOne(Next(a, Server(e)).bus, d)
    ensures AllGood(Next(a, Server(e)).bus, d)
  {
    if Writes(a, e) {
      WriteKeepsStream(a, e, d);
    } else if e != P.Crash {
      RequestIsAlone(a, e, d);
      AnnouncementsKeepGood(a.bus, Announcements(a, e), d);
    }
  }

  lemma WriteKeepsCovered(a: World, e: P.Event, d: nat)
    requires Live(a, d) && Possible(a, Server(e)) && Writes(a, e)
    ensures Covered(Next(a, Server(e)), d)
  {
    var a1 := Next(a, Server(e));
    assert OfWorker(e, e.w);
    forall f | f in a1.bus.inflight && f.doc == d ensures exists w :: w in a1.telling && a1.telling[w] == f {
      if f in a.bus.inflight {
        var w :| w in a.telling && a.telling[w] == f;
        assert w in a1.telling && a1.telling[w] == f;
      } else {
        assert a1.telling[e.w] == f;
      }
    }
  }

  lemma TellKeepsLive(a: World, w: nat, i: nat, d: nat)
    requires Live(a, d) && Possible(a, Tell(w, i)) && Smooth(a, Tell(w, i), d)
    ensures Live(Next(a, Tell(w, i)), d)
  {
    BroadcastKeepsGood(a.bus, i, d);
    TellKeepsCovered(a, w, i, d);
  }

  lemma TellKeepsCovered(a: World, w: nat, i: nat, d: nat)
    requires Covered(a, d) && AtMostOne(a.bus, d) && Possible(a, Tell(w, i))
    ensures Covered(Next(a, Tell(w, i)), d) && AtMostOne(Next(a, Tell(w, i)).bus, d)
  {
    var a1 := Next(a, Tell(w, i));
    assert forall k | 0 <= k < |a1.bus.inflight| :: a1.bus.inflight[k] == a.bus.inflight[if k < i then k else k + 1];
    forall f | f in a1.bus.inflight && f.doc == d ensures exists v :: v in a1.telling && a1.telling[v] == f {
      var v :| v in a.telling && a.telling[v] == f;
      assert v != w ==> v in a1.telling && a1.telling[v] == f;
    }
  }

  lemma StepKeepsLive(a: World, act: Act, d: nat)
    requires Live(a, d) && Possible(a, act) && Smooth(a, act, d)
    ensures Live(Next(a, act), d)
  {
    match act
    case Server(e) => ServerStepKeepsLive(a, e, d);
    case Tell(w, i) => TellKeepsLive(a, w, i, d);
    case View(step) =>
      ViewKeepsGood(a.bus, step, d);
      assert Next(a, act).bus.inflight == a.bus.inflight && Next(a, act).bus.stored == a.bus.stored;
  }

  // ---- Runs ----------------------------------------------------------------

  ghost predicate CanDo(a: World, acts: seq<Act>)
    decreases acts
  {
    acts != [] ==> Possible(a, acts[0]) && CanDo(Next(a, acts[0]), acts[1..])
  }

  ghost function After(a: World, acts: seq<Act>): World
    requires CanDo(a, acts)
    decreases acts
  {
    if acts == [] then a else After(Next(a, acts[0]), acts[1..])
  }

  ghost predicate SmoothRun(a: World, acts: seq<Act>, d: nat)
    requires CanDo(a, acts)
    decreases acts
  {
    acts != [] ==> Smooth(a, acts[0], d) && SmoothRun(Next(a, acts[0]), acts[1..], d)
  }

  lemma {:induction false} SmoothRunKeepsLive(a: World, acts: seq<Act>, d: nat)
    requires Live(a, d) && CanDo(a, acts) && SmoothRun(a, acts, d)
    ensures Live(After(a, acts), d)
    decreases acts
  {
    if acts != [] {
      StepKeepsLive(a, acts[0], d);
      SmoothRunKeepsLive(Next(a, acts[0]), acts[1..], d);
    }
  }

  /** A subscriber with its snapshot and an empty queue shows the stage table of its
      document while no worker is about to broadcast for it. */
  lemma ViewersSeeTheTable(a0: World, acts: seq<Act>, q: nat, d: nat)
    requires Init(a0) && CanDo(a0, acts) && SmoothRun(a0, acts, d)
    requires var a := After(a0, acts);
      && OwnDocument(a, d) && (forall w | w in a.telling :: a.telling[w].doc != d)
      && q in a.bus.subscribers && a.bus.subscribers[q].doc == d
      && a.bus.subscribers[q].view.Some? && a.bus.subscribers[q].queue == []
    ensures var a := After(a0, acts);
      var view := a.bus.subscribers[q].view.value;
      forall name ::
        name in view && view[name] == if (d, name) in a.db.stages then a.db.stages[(d, name)] else P.StagePending
  {
    SmoothRunKeepsLive(a0, acts, d);
    var a := After(a0, acts);
    forall name
      ensures name in a.bus.subscribers[q].view.value
      ensures a.bus.subscribers[q].view.value[name] == StatusOf(a.db.stages, d, name)
    {
      assert StatusOf(a.bus.stored, d, name) == StatusOf(a.db.stages, d, name);
      SettledShows(a.bus, q, name);
    }
  }
}
