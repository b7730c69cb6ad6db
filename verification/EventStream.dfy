/**
 The in-process event bus (app/core/pipeline.py) and the stream that reads it
 (app/api/routes/status.py).

 The classes are the bus itself.  The state machine after them interleaves committed
 stage updates, their later broadcasts, subscriptions, snapshots and reads, for the
 subscribers of one tenant.
 */
module EventStream {
  import opened Prelude
  import opened Pipeline

  datatype StageEvent = StageEvent(doc: nat, stage: StageName, status: StageStatus)

  const QUEUE_SIZE: nat := 200

  /** put_nowait: a full queue drops the event. */
  function Offered(items: seq<StageEvent>, e: StageEvent): seq<StageEvent> {
    if |items| < QUEUE_SIZE then items + [e] else items
  }

  class EventQueue {
    var items: seq<StageEvent>

    constructor ()
      ensures items == []
    {
      items := [];
    }

    method PutNowait(e: StageEvent) returns (full: bool)
      modifies this
      ensures items == Offered(old(items), e)
      ensures full <==> |old(items)| >= 200
      ensures items == if full then old(items) else old(items) + [e]
    {
      full := |items| >= QUEUE_SIZE;
      if !full {
        items := items + [e];
      }
    }
  }

  ghost predicate Apart(a: seq<EventQueue>, b: seq<EventQueue>) {
    forall q | q in a :: q !in b
  }

  ghost predicate NoneTwice(a: seq<EventQueue>) {
    forall i, j | 0 <= i < j < |a| :: a[i] != a[j]
  }

  ghost predicate ListedOnce(lists: map<string, seq<EventQueue>>) {
    && (forall t | t in lists :: NoneTwice(lists[t]))
    && forall t, u | t in lists && u in lists && t != u :: Apart(lists[t], lists[u])
  }

  lemma RemovalKeepsListedOnce(lists: map<string, seq<EventQueue>>, tenant: string, i: nat)
    requires ListedOnce(lists) && tenant in lists && i < |lists[tenant]|
    ensures var subs := lists[tenant];
      var rest := subs[..i] + subs[i + 1..];
      subs[i] !in rest && ListedOnce(lists[tenant := rest])
  {
    var subs := lists[tenant];
    var rest := subs[..i] + subs[i + 1..];
    OneQueueLess(subs, i);
    assert forall j | 0 <= j < |rest| :: rest[j] in subs;
  }

  lemma OneQueueLess(subs: seq<EventQueue>, i: nat)
    requires i < |subs| && NoneTwice(subs)
    ensures var rest := subs[..i] + subs[i + 1..];
      && subs[i] !in rest
      && (forall j | 0 <= j < |rest| :: rest[j] == subs[if j < i then j else j + 1])
      && NoneTwice(rest)
  {
  }

  class EventBus {
    var subscribers: map<string, seq<EventQueue>>

    /** A queue is listed at most once, under one tenant. */
    ghost predicate Valid()
      reads this
    {
      ListedOnce(subscribers)
    }

    ghost function Queues(tenant: string): seq<EventQueue>
      reads this
    {
      if tenant in subscribers then subscribers[tenant] else []
    }

    constructor ()
      ensures Valid() && subscribers == map[]
    {
      subscribers := map[];
    }

    method Subscribe(tenant: string) returns (q: EventQueue)
      requires Valid()
      requires forall t, x | t in subscribers && x in subscribers[t] :: allocated(x)
      modifies this
      ensures Valid() && fresh(q) && q.items == []
      ensures subscribers == old(subscribers)[tenant := old(Queues(tenant)) + [q]]
    {
      q := new EventQueue();
      var listed := if tenant in subscribers then subscribers[tenant] else [];
      subscribers := subscribers[tenant := listed + [q]];
    }

    /** Removes the queue; other subscribers stay, in order. */
    method Unsubscribe(tenant: string, q: EventQueue)
      requires Valid()
      modifies this
      ensures Valid() && q !in Queues(tenant)
      ensures forall t | t != tenant :: Queues(t) == old(Queues(t))
      ensures q !in old(Queues(tenant)) ==> subscribers == old(subscribers)
      ensures forall i | 0 <= i < |old(Queues(tenant))| && old(Queues(tenant))[i] == q ::
        Queues(tenant) == old(Queues(tenant))[..i] + old(Queues(tenant))[i + 1..]
    {
      var subs := if tenant in subscribers then subscribers[tenant] else [];
      if q in subs {
        var i :| 0 <= i < |subs| && subs[i] == q;
        RemovalKeepsListedOnce(subscribers, tenant, i);
        subscribers := subscribers[tenant := subs[..i] + subs[i + 1..]];
      }
    }

    /** Offers the event to every queue of the tenant and to no other. */
    method Broadcast(tenant: string, e: StageEvent)
      requires Valid()
      modifies Queues(tenant)
      ensures forall q | q in Queues(tenant) :: q.items == Offered(old(q.items), e)
    {
      var subs := if tenant in subscribers then subscribers[tenant] else [];
      for i := 0 to |subs|
        invariant forall j | 0 <= j < i :: subs[j].items == Offered(old(subs[j].items), e)
        invariant forall j | i <= j < |subs| :: subs[j].items == old(subs[j].items)
      {
        var _ := subs[i].PutNowait(e);
      }
    }
  }

  /** The rows of pipeline_stages, with the keys their foreign key refers to. */
  class Tracker {
    const bus: EventBus
    var documents: set<nat>
    var rows: map<(nat, StageName), StageStatus>

    constructor (bus: EventBus, documents: set<nat>)
      ensures this.bus == bus && this.documents == documents && rows == map[]
    {
      this.bus := bus;
      this.documents := documents;
      rows := map[];
    }

    /** The state of the stream machine for the tenant; ids name its queues. */
    ghost predicate Mirrors(tenant: string, s: Bus, ids: seq<nat>)
      reads this, bus, bus.Queues(tenant)
    {
      var queues := bus.Queues(tenant);
      && s.stored == rows && |ids| == |queues|
      && (forall i, j | 0 <= i < j < |ids| :: ids[i] != ids[j])
      && (forall q :: q in s.subscribers <==> q in ids)
      && forall i | 0 <= i < |ids| :: s.subscribers[ids[i]].queue == queues[i].items
    }

    /** update_stage: upsert and broadcast; neither when the document is gone.  For the
        stream machine that is a Store followed by the Broadcast of the same event. */
    method UpdateStage(tenant: string, doc: nat, name: StageName, status: StageStatus)
      requires bus.Valid()
      modifies this`rows, bus.Queues(tenant)
      ensures rows == if doc in documents then old(rows)[(doc, name) := status] else old(rows)
      ensures forall q | q in bus.Queues(tenant) ::
        q.items == if doc in documents then Offered(old(q.items), StageEvent(doc, name, status)) else old(q.items)
      ensures forall s, ids | old(Mirrors(tenant, s, ids)) ::
        Mirrors(tenant, if doc in documents then Announced(s, StageEvent(doc, name, status)) else s, ids)
    {
      if doc !in documents {
        return;
      }
      rows := rows[(doc, name) := status];
      bus.Broadcast(tenant, StageEvent(doc, name, status));
      forall s, ids | old(Mirrors(tenant, s, ids))
        ensures Mirrors(tenant, Announced(s, StageEvent(doc, name, status)), ids)
      {
        AnnouncedEffect(s, StageEvent(doc, name, status));
      }
    }

    /** get_pipeline_status: None for a document that is gone. */
    method GetPipelineStatus(doc: nat) returns (view: Option<View>)
      ensures view == if doc in documents then Some(SnapshotOf(rows, doc)) else None
      ensures view.Some? <==> doc in documents
      ensures view.Some? ==> view.value.Keys == {UploadStage, ParseStage, ChunkStage, EmbedStage, IndexStage}
      ensures view.Some? ==> forall name | name in view.value ::
        view.value[name] == if (doc, name) in rows then rows[(doc, name)] else StagePending
    {
      if doc !in documents {
        return None;
      }
      var stages: View := map name | name in STAGES :: StagePending;
      var found := map name | name in STAGES && (doc, name) in rows :: rows[(doc, name)];
      assert stages + found == SnapshotOf(rows, doc) by {
        assert (stages + found).Keys == SnapshotOf(rows, doc).Keys;
      }
      view := Some(stages + found);
    }
  }

  // ---- What a subscriber shows ---------------------------------------------

  const STAGES: set<StageName> := {UploadStage, ParseStage, ChunkStage, EmbedStage, IndexStage}

  type View = map<StageName, StageStatus>

  function StatusOf(stored: map<(nat, StageName), StageStatus>, doc: nat, name: StageName): StageStatus {
    if (doc, name) in stored then stored[(doc, name)] else StagePending
  }

  /** get_pipeline_status: one status a stage, 'pending' where there is no row. */
  function SnapshotOf(stored: map<(nat, StageName), StageStatus>, doc: nat): View {
    map name | name in STAGES :: StatusOf(stored, doc, name)
  }

  /** One event of the stream; other documents' events are skipped. */
  function Shown(view: View, doc: nat, e: StageEvent): View {
    if e.doc == doc then view[e.stage := e.status] else view
  }

  function AllShown(view: View, doc: nat, events: seq<StageEvent>): View
    decreases events
  {
    if events == [] then view else AllShown(Shown(view, doc, events[0]), doc, events[1..])
  }

  /** Event i is about the document, and no later one is about the same stage of it. */
  predicate IsLastWord(events: seq<StageEvent>, i: int, doc: nat) {
    && 0 <= i < |events| && events[i].doc == doc
    && forall j | i < j < |events| :: events[j].doc != doc || events[j].stage != events[i].stage
  }

  lemma {:induction false} UnmentionedStays(view: View, doc: nat, events: seq<StageEvent>, name: StageName)
    requires forall j | 0 <= j < |events| :: events[j].doc != doc || events[j].stage != name
    ensures name in AllShown(view, doc, events) <==> name in view
    ensures name in view ==> AllShown(view, doc, events)[name] == view[name]
    decreases events
  {
    if events != [] {
      assert forall j | 0 <= j < |events| - 1 :: events[1..][j] == events[j + 1];
      UnmentionedStays(Shown(view, doc, events[0]), doc, events[1..], name);
    }
  }

  lemma {:induction false} LastWordIsShown(view: View, doc: nat, events: seq<StageEvent>, i: int)
    requires IsLastWord(events, i, doc)
    ensures events[i].stage in AllShown(view, doc, events)
    ensures AllShown(view, doc, events)[events[i].stage] == events[i].status
    decreases events
  {
    var view1 := Shown(view, doc, events[0]);
    assert forall j | 0 <= j < |events| - 1 :: events[1..][j] == events[j + 1];
    if i > 0 {
      LastWordIsShown(view1, doc, events[1..], i - 1);
    } else {
      UnmentionedStays(view1, doc, events[1..], events[0].stage);
    }
  }

  lemma LastWordsAreShown(start: View, doc: nat, events: seq<StageEvent>)
    ensures var view := AllShown(start, doc, events);
      && (forall i | IsLastWord(events, i, doc) ::
            events[i].stage in view && view[events[i].stage] == events[i].status)
      && forall name {:trigger name in view} |
        (forall j | 0 <= j < |events| :: events[j].doc != doc || events[j].stage != name) ::
          (name in view <==> name in start) && (name in view ==> view[name] == start[name])
  {
    var view := AllShown(start, doc, events);
    forall i | IsLastWord(events, i, doc)
      ensures events[i].stage in view && view[events[i].stage] == events[i].status
    {
      LastWordIsShown(start, doc, events, i);
    }
    forall name | forall j | 0 <= j < |events| :: events[j].doc != doc || events[j].stage != name
      ensures (name in view <==> name in start) && (name in view ==> view[name] == start[name])
    {
      UnmentionedStays(start, doc, events, name);
    }
  }

  /** The reading loop of _sse_generator until the queue is empty. */
  method Drain(q: EventQueue, doc: nat, start: View) returns (view: View)
    modifies q
    ensures q.items == [] && view == AllShown(start, doc, old(q.items))
    ensures forall i | IsLastWord(old(q.items), i, doc) ::
      var e := old(q.items)[i]; e.stage in view && view[e.stage] == e.status
    ensures forall name {:trigger name in view} |
      (forall j | 0 <= j < |old(q.items)| :: old(q.items)[j].doc != doc || old(q.items)[j].stage != name) ::
        (name in view <==> name in start) && (name in view ==> view[name] == start[name])
  {
    LastWordsAreShown(start, doc, q.items);
    view := start;
    while q.items != []
      invariant AllShown(view, doc, q.items) == AllShown(start, doc, old(q.items))
      decreases |q.items|
    {
      var event := q.items[0];
      q.items := q.items[1..];
      if event.doc == doc {
        view := view[event.stage := event.status];
      }
    }
  }

  // ---- Interleavings -------------------------------------------------------

  /** view is None until the snapshot has been sent. */
  datatype Subscriber = Subscriber(doc: nat, queue: seq<StageEvent>, view: Option<View>)

  /** inflight holds the updates that are committed and not yet broadcast. */
  datatype Bus = Bus(
    stored: map<(nat, StageName), StageStatus>,
    inflight: seq<StageEvent>,
    subscribers: map<nat, Subscriber>)

  datatype Step =
    | Store(event: StageEvent)
    | Broadcast(i: nat)
    | Subscribe(q: nat, doc: nat)
    | Snapshot(q: nat)
    | Read(q: nat)
    | Unsubscribe(q: nat)

  predicate Enabled(s: Bus, step: Step) {
    match step
    case Store(_) => true
    case Broadcast(i) => i < |s.inflight|
    case Subscribe(q, _) => q !in s.subscribers
    case Snapshot(q) => q in s.subscribers && s.subscribers[q].view == None
    case Read(q) => q in s.subscribers && s.subscribers[q].view.Some? && s.subscribers[q].queue != []
    case Unsubscribe(q) => q in s.subscribers
  }

  function Apply(s: Bus, step: Step): Bus
    requires Enabled(s, step)
  {
    match step
    case Store(e) => s.(stored := s.stored[(e.doc, e.stage) := e.status], inflight := s.inflight + [e])
    case Broadcast(i) =>
      s.(inflight := s.inflight[..i] + s.inflight[i + 1..],
         subscribers := map q | q in s.subscribers ::
           s.subscribers[q].(queue := Offered(s.subscribers[q].queue, s.inflight[i])))
    case Subscribe(q, doc) => s.(subscribers := s.subscribers[q := Subscriber(doc, [], None)])
    case Snapshot(q) =>
      var sub := s.subscribers[q];
      s.(subscribers := s.subscribers[q := sub.(view := Some(SnapshotOf(s.stored, sub.doc)))])
    case Read(q) =>
      var sub := s.subscribers[q];
      s.(subscribers := s.subscribers[q :=
        sub.(queue := sub.queue[1..], view := Some(Shown(sub.view.value, sub.doc, sub.queue[0])))])
    case Unsubscribe(q) => s.(subscribers := s.subscribers - {q})
  }

  /** A commit and its broadcast right after it. */
  function Announced(s: Bus, e: StageEvent): Bus {
    Apply(Apply(s, Store(e)), Broadcast(|s.inflight|))
  }

  lemma AnnouncedEffect(s: Bus, e: StageEvent)
    ensures var t := Announced(s, e);
      && t.stored == s.stored[(e.doc, e.stage) := e.status] && t.inflight == s.inflight
      && t.subscribers.Keys == s.subscribers.Keys
      && forall q | q in t.subscribers ::
        t.subscribers[q] == s.subscribers[q].(queue := Offered(s.subscribers[q].queue, e))
  {
  }

  predicate SameKey(a: StageEvent, b: StageEvent) {
    a.doc == b.doc && a.stage == b.stage
  }

  /** One writer for each stage of a document: no commit while an update of the same
      stage is in flight.  And no queue overflows. */
  ghost predicate Orderly(s: Bus, step: Step) {
    match step
    case Store(e) => forall f | f in s.inflight :: !SameKey(e, f)
    case Broadcast(_) => forall q | q in s.subscribers :: |s.subscribers[q].queue| < QUEUE_SIZE
    case _ => true
  }

  ghost predicate CanRun(s: Bus, steps: seq<Step>)
    decreases steps
  {
    steps != [] ==> Enabled(s, steps[0]) && CanRun(Apply(s, steps[0]), steps[1..])
  }

  ghost function Run(s: Bus, steps: seq<Step>): Bus
    requires CanRun(s, steps)
    decreases steps
  {
    if steps == [] then s else Run(Apply(s, steps[0]), steps[1..])
  }

  ghost predicate OrderlyRun(s: Bus, steps: seq<Step>)
    requires CanRun(s, steps)
    decreases steps
  {
    steps != [] ==> Orderly(s, steps[0]) && OrderlyRun(Apply(s, steps[0]), steps[1..])
  }
}
