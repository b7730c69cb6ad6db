/**
 When a stream ends on the stored statuses: the exact condition on every step and on
 every state, what follows for whole runs, and two runs in which it fails.
 */
module StreamConvergence {
  import opened Prelude
  import opened EventStream
  import Pipeline

  type StageName = Pipeline.StageName

  type StageStatus = Pipeline.StageStatus

  // ---- The last word -------------------------------------------------------

  /** Status carried by the last event for the stage of the document. */
  function Last(events: seq<StageEvent>, doc: nat, name: StageName): Option<StageStatus> {
    if events == [] then None
    else
      var e := events[|events| - 1];
      if e.doc == doc && e.stage == name then Some(e.status) else Last(events[..|events| - 1], doc, name)
  }

  lemma LastOfOneMore(events: seq<StageEvent>, e: StageEvent, doc: nat, name: StageName)
    ensures Last(events + [e], doc, name) ==
      if e.doc == doc && e.stage == name then Some(e.status) else Last(events, doc, name)
  {
    assert (events + [e])[..|events|] == events;
  }

  lemma {:induction false} LastOfConcat(a: seq<StageEvent>, b: seq<StageEvent>, doc: nat, name: StageName)
    ensures Last(a + b, doc, name) == if Last(b, doc, name).Some? then Last(b, doc, name) else Last(a, doc, name)
  {
    if b == [] {
      assert a + b == a;
    } else {
      var init := b[..|b| - 1];
      assert a + b == (a + init) + [b[|b| - 1]];
      LastOfOneMore(a + init, b[|b| - 1], doc, name);
      LastOfConcat(a, init, doc, name);
    }
  }

  lemma LastOfFront(e: StageEvent, events: seq<StageEvent>, doc: nat, name: StageName)
    ensures Last([e] + events, doc, name) ==
      if Last(events, doc, name).Some? then Last(events, doc, name)
      else if e.doc == doc && e.stage == name then Some(e.status) else None
  {
    LastOfConcat([e], events, doc, name);
    assert [e][..0] == [];
  }

  predicate Concerns(e: StageEvent, doc: nat, name: StageName) {
    e.doc == doc && e.stage == name
  }

  /** Once its queue is read, and after its snapshot, the subscriber shows the status; a
      subscriber without snapshot may still get it from there. */
  predicate EndsWith(sub: Subscriber, name: StageName, status: StageStatus) {
    var last := Last(sub.queue, sub.doc, name);
    if last.Some? then last.value == status
    else sub.view.Some? ==> name in sub.view.value && sub.view.value[name] == status
  }

  ghost predicate InFlight(s: Bus, doc: nat, name: StageName) {
    exists e :: e in s.inflight && Concerns(e, doc, name)
  }

  /** The subscriber will show the stored status of the stage: what is in flight for the
      stage carries it, or if nothing is, the subscriber ends with it. */
  ghost predicate Good(s: Bus, q: nat, name: StageName)
    requires q in s.subscribers
  {
    var sub := s.subscribers[q];
    var stored := StatusOf(s.stored, sub.doc, name);
    if InFlight(s, sub.doc, name) then forall e | e in s.inflight && Concerns(e, sub.doc, name) :: e.status == stored
    else EndsWith(sub, name, stored)
  }

  /** A commit while another status of the same stage is in flight, or a full queue that
      drops the one update of the stage still in flight and ends with another status. */
  ghost predicate StepLoses(s: Bus, step: Step, q: nat, name: StageName)
    requires Enabled(s, step) && q in s.subscribers
  {
    var sub := s.subscribers[q];
    match step
    case Store(e) =>
      Concerns(e, sub.doc, name) && exists f :: f in s.inflight && Concerns(f, sub.doc, name) && f.status != e.status
    case Broadcast(i) =>
      && Concerns(s.inflight[i], sub.doc, name) && OnlyOne(s.inflight, i, sub.doc, name)
      && |sub.queue| >= QUEUE_SIZE && !EndsWith(sub, name, s.inflight[i].status)
    case _ => false
  }

  predicate OnlyOne(inflight: seq<StageEvent>, i: nat, doc: nat, name: StageName) {
    forall j | 0 <= j < |inflight| && j != i :: !Concerns(inflight[j], doc, name)
  }

  // ---- Steps ---------------------------------------------------------------

  lemma StoreExactly(s: Bus, e: StageEvent, q: nat, name: StageName)
    requires q in s.subscribers && Good(s, q, name)
    ensures Good(Apply(s, Store(e)), q, name) <==> !StepLoses(s, Store(e), q, name)
  {
    var s1, sub := Apply(s, Store(e)), s.subscribers[q];
    assert e in s1.inflight;
    assert forall f | f in s.inflight :: f in s1.inflight;
    assert InFlight(s1, sub.doc, name) <==> InFlight(s, sub.doc, name) || Concerns(e, sub.doc, name);
  }

  function Without(inflight: seq<StageEvent>, i: nat): seq<StageEvent>
    requires i < |inflight|
  {
    inflight[..i] + inflight[i + 1..]
  }

  lemma WithoutOne(inflight: seq<StageEvent>, i: nat)
    requires i < |inflight|
    ensures forall e | e in Without(inflight, i) :: e in inflight
    ensures forall j | 0 <= j < |inflight| && j != i :: inflight[j] in Without(inflight, i)
    ensures forall e | e in inflight :: e in Without(inflight, i) || e == inflight[i]
  {
    var rest := Without(inflight, i);
    assert forall j | 0 <= j < |inflight| && j != i :: inflight[j] == rest[if j < i then j else j - 1];
  }

  lemma OthersOf(inflight: seq<StageEvent>, i: nat, doc: nat, name: StageName)
    requires i < |inflight|
    ensures (exists e :: e in Without(inflight, i) && Concerns(e, doc, name)) <==> !OnlyOne(inflight, i, doc, name)
  {
    var rest := Without(inflight, i);
    WithoutOne(inflight, i);
    if k :| 0 <= k < |rest| && Concerns(rest[k], doc, name) {
      assert rest[k] == inflight[if k < i then k else k + 1];
    }
  }

  lemma OfferedEndsWith(sub: Subscriber, e: StageEvent, name: StageName, status: StageStatus)
    ensures var sub1 := sub.(queue := Offered(sub.queue, e));
      EndsWith(sub1, name, status) <==>
        if Concerns(e, sub.doc, name) && |sub.queue| < QUEUE_SIZE then e.status == status
        else EndsWith(sub, name, status)
  {
    LastOfOneMore(sub.queue, e, sub.doc, name);
  }

  lemma BroadcastExactly(s: Bus, i: nat, q: nat, name: StageName)
    requires q in s.subscribers && i < |s.inflight| && Good(s, q, name)
    ensures Good(Apply(s, Broadcast(i)), q, name) <==> !StepLoses(s, Broadcast(i), q, name)
  {
    var s1, sub, e := Apply(s, Broadcast(i)), s.subscribers[q], s.inflight[i];
    WithoutOne(s.inflight, i);
    OthersOf(s.inflight, i, sub.doc, name);
    assert s1.inflight == Without(s.inflight, i);
    OfferedEndsWith(sub, e, name, StatusOf(s.stored, sub.doc, name));
    if Concerns(e, sub.doc, name) {
      assert InFlight(s, sub.doc, name);
      assert InFlight(s1, sub.doc, name) <==> !OnlyOne(s.inflight, i, sub.doc, name);
    } else {
      assert InFlight(s1, sub.doc, name) <==> InFlight(s, sub.doc, name);
    }
  }

  /** Snapshots and reads, the subscriber's own included, change nothing about it. */
  lemma QuietStep(s: Bus, step: Step, q: nat, name: StageName)
    requires q in s.subscribers && Enabled(s, step) && step != Unsubscribe(q)
    requires step.Subscribe? || step.Snapshot? || step.Read? || step.Unsubscribe?
    ensures q in Apply(s, step).subscribers
    ensures Good(Apply(s, step), q, name) <==> Good(s, q, name)
  {
    var s1, sub := Apply(s, step), s.subscribers[q];
    assert InFlight(s1, sub.doc, name) <==> InFlight(s, sub.doc, name);
    if step == Read(q) {
      assert sub.queue == [sub.queue[0]] + sub.queue[1..];
      LastOfFront(sub.queue[0], sub.queue[1..], sub.doc, name);
    }
  }

  /** A step takes away that a subscriber will show the stored status of a stage if and
      only if it is a losing one. */
  lemma LossExactly(s: Bus, step: Step, q: nat, name: StageName)
    requires q in s.subscribers && Enabled(s, step) && step != Unsubscribe(q) && Good(s, q, name)
    ensures q in Apply(s, step).subscribers && Apply(s, step).subscribers[q].doc == s.subscribers[q].doc
    ensures Good(Apply(s, step), q, name) <==> !StepLoses(s, step, q, name)
  {
    match step
    case Store(e) => StoreExactly(s, e, q, name);
    case Broadcast(i) => BroadcastExactly(s, i, q, name);
    case _ => QuietStep(s, step, q, name);
  }

  /** A new subscriber starts well if and only if what is in flight for the stage carries
      the stored status. */
  lemma NewcomerExactly(s: Bus, q: nat, doc: nat, name: StageName)
    requires Enabled(s, Subscribe(q, doc))
    ensures Good(Apply(s, Subscribe(q, doc)), q, name) <==>
      forall e | e in s.inflight && Concerns(e, doc, name) :: e.status == StatusOf(s.stored, doc, name)
  {
    var s1 := Apply(s, Subscribe(q, doc));
    assert InFlight(s1, doc, name) <==> InFlight(s, doc, name);
  }

  // ---- Continuations -------------------------------------------------------

  /** The subscriber stays and no step is a losing one for it. */
  ghost predicate Lossless(s: Bus, steps: seq<Step>, q: nat, name: StageName)
    requires CanRun(s, steps) && q in s.subscribers
    decreases steps
  {
    steps != [] ==>
      && steps[0] != Unsubscribe(q) && !StepLoses(s, steps[0], q, name)
      && Lossless(Apply(s, steps[0]), steps[1..], q, name)
  }

  /** Snapshot sent, queue read, nothing in flight for the stage. */
  ghost predicate Settled(s: Bus, q: nat, name: StageName) {
    && q in s.subscribers && s.subscribers[q].view.Some? && s.subscribers[q].queue == []
    && !InFlight(s, s.subscribers[q].doc, name)
  }

  predicate ShowsStored(s: Bus, q: nat, name: StageName) {
    && q in s.subscribers && s.subscribers[q].view.Some? && name in s.subscribers[q].view.value
    && var d := s.subscribers[q].doc;
      s.subscribers[q].view.value[name] == if (d, name) in s.stored then s.stored[(d, name)] else Pipeline.StagePending
  }

  lemma {:induction false} LosslessKeepsGood(s: Bus, steps: seq<Step>, q: nat, name: StageName)
    requires CanRun(s, steps) && q in s.subscribers && Lossless(s, steps, q, name) && Good(s, q, name)
    ensures q in Run(s, steps).subscribers && Good(Run(s, steps), q, name)
    decreases steps
  {
    if steps != [] {
      LossExactly(s, steps[0], q, name);
      LosslessKeepsGood(Apply(s, steps[0]), steps[1..], q, name);
    }
  }

  lemma SettledShows(s: Bus, q: nat, name: StageName)
    requires Settled(s, q, name)
    ensures Good(s, q, name) <==> ShowsStored(s, q, name)
  {
  }

  /** A wrong update in flight. */
  ghost predicate WrongAt(s: Bus, k: nat, q: nat, name: StageName)
    requires q in s.subscribers
  {
    && k < |s.inflight| && Concerns(s.inflight[k], s.subscribers[q].doc, name)
    && s.inflight[k].status != StatusOf(s.stored, s.subscribers[q].doc, name)
  }

  lemma SomeWrong(s: Bus, q: nat, name: StageName) returns (k: nat)
    requires q in s.subscribers && s.subscribers[q].view.Some? && s.subscribers[q].queue == []
    requires !Good(s, q, name) && !Settled(s, q, name)
    ensures WrongAt(s, k, q, name)
  {
    var doc := s.subscribers[q].doc;
    var e :| e in s.inflight && Concerns(e, doc, name) && e.status != StatusOf(s.stored, doc, name);
    k :| k < |s.inflight| && s.inflight[k] == e;
  }

  /** An update of the stage goes out to an empty queue, and a wrong one is the last. */
  lemma WrongStaysWrong(s: Bus, i: nat, k: nat, q: nat, name: StageName)
    requires q in s.subscribers && s.subscribers[q].queue == [] && WrongAt(s, k, q, name)
    requires i < |s.inflight| && (i == k <==> OnlyOne(s.inflight, k, s.subscribers[q].doc, name))
    ensures !Good(Apply(s, Broadcast(i)), q, name) && !StepLoses(s, Broadcast(i), q, name)
  {
    var s1, sub := Apply(s, Broadcast(i)), s.subscribers[q];
    if i == k {
      OthersOf(s.inflight, k, sub.doc, name);
      assert s1.inflight == Without(s.inflight, k);
      OfferedEndsWith(sub, s.inflight[k], name, StatusOf(s.stored, sub.doc, name));
    } else {
      assert s1.inflight[if k < i then k else k - 1] == s.inflight[k];
      assert s.inflight[k] in s1.inflight;
    }
  }

  /** The step to take next so that the wrong status comes out: the snapshot, then reads,
      then the updates of the stage with a wrong one last. */
  lemma Expose(s: Bus, q: nat, name: StageName) returns (step: Step)
    requires q in s.subscribers && !Good(s, q, name) && !Settled(s, q, name)
    ensures Enabled(s, step) && (step == Snapshot(q) || step == Read(q) || step.Broadcast?)
    ensures !Good(Apply(s, step), q, name) && !StepLoses(s, step, q, name)
  {
    var sub := s.subscribers[q];
    if sub.view == None || sub.queue != [] {
      step := if sub.view == None then Snapshot(q) else Read(q);
      QuietStep(s, step, q, name);
    } else {
      var k := SomeWrong(s, q, name);
      var i: nat := k;
      if !OnlyOne(s.inflight, k, sub.doc, name) {
        i :| 0 <= i < |s.inflight| && i != k && Concerns(s.inflight[i], sub.doc, name);
      }
      step := Broadcast(i);
      WrongStaysWrong(s, i, k, q, name);
    }
  }

  function NoView(s: Bus, q: nat): nat
    requires q in s.subscribers
  {
    if s.subscribers[q].view == None then 1 else 0
  }

  lemma {:induction false} BadComesOut(s: Bus, q: nat, name: StageName) returns (steps: seq<Step>)
    requires q in s.subscribers && !Good(s, q, name)
    ensures CanRun(s, steps) && Lossless(s, steps, q, name)
    ensures Settled(Run(s, steps), q, name) && !ShowsStored(Run(s, steps), q, name)
    decreases NoView(s, q), |s.inflight|, |s.subscribers[q].queue|
  {
    if Settled(s, q, name) {
      steps := [];
      SettledShows(s, q, name);
    } else {
      var step := Expose(s, q, name);
      var rest := BadComesOut(Apply(s, step), q, name);
      steps := [step] + rest;
      assert steps[1..] == rest;
    }
  }

  /** A subscriber will show the stored status if and only if every continuation without a
      losing step that settles the stage shows it. */
  lemma GoodExactly(s: Bus, q: nat, name: StageName)
    requires q in s.subscribers
    ensures Good(s, q, name) <==>
      forall steps | CanRun(s, steps) && Lossless(s, steps, q, name) && Settled(Run(s, steps), q, name) ::
        ShowsStored(Run(s, steps), q, name)
  {
    if Good(s, q, name) {
      forall steps | CanRun(s, steps) && Lossless(s, steps, q, name) && Settled(Run(s, steps), q, name)
        ensures ShowsStored(Run(s, steps), q, name)
      {
        LosslessKeepsGood(s, steps, q, name);
        SettledShows(Run(s, steps), q, name);
      }
    } else {
      var steps := BadComesOut(s, q, name);
    }
  }

  // ---- Runs ----------------------------------------------------------------

  ghost predicate Current(s: Bus) {
    forall e | e in s.inflight :: e.status == StatusOf(s.stored, e.doc, e.stage)
  }

  /** Every update in flight carries the stored status, and every subscriber will show it. */
  ghost predicate Inv(s: Bus) {
    && Current(s)
    && (forall q, name | q in s.subscribers :: Good(s, q, name))
  }

  /** No commit while another status of the same stage is in flight, and no subscriber
      loses its last word. */
  ghost predicate Calm(s: Bus, step: Step)
    requires Enabled(s, step)
  {
    && (step.Store? ==> forall f | f in s.inflight && SameKey(f, step.event) :: f.status == step.event.status)
    && (forall q, name | q in s.subscribers :: !StepLoses(s, step, q, name))
  }

  ghost predicate CalmRun(s: Bus, steps: seq<Step>)
    requires CanRun(s, steps)
    decreases steps
  {
    steps != [] ==> Calm(s, steps[0]) && CalmRun(Apply(s, steps[0]), steps[1..])
  }

  lemma InflightStaysCurrent(s: Bus, step: Step)
    requires Enabled(s, step) && Current(s)
    ensures Current(Apply(s, step)) <==>
      (step.Store? ==> forall f | f in s.inflight && SameKey(f, step.event) :: f.status == step.event.status)
  {
    var s1 := Apply(s, step);
    if step.Broadcast? {
      WithoutOne(s.inflight, step.i);
      assert s1.inflight == Without(s.inflight, step.i);
    } else if step.Store? {
      assert s1.inflight == s.inflight + [step.event];
      assert forall f :: f in s1.inflight <==> f in s.inflight || f == step.event;
    }
  }

  /** The invariant survives a step if and only if the step is calm. */
  lemma StepKeepsInv(s: Bus, step: Step)
    requires Inv(s) && Enabled(s, step)
    ensures Inv(Apply(s, step)) <==> Calm(s, step)
  {
    var s1 := Apply(s, step);
    InflightStaysCurrent(s, step);
    forall q, name | q in s.subscribers && step != Unsubscribe(q)
      ensures q in s1.subscribers && (Good(s1, q, name) <==> !StepLoses(s, step, q, name))
    {
      LossExactly(s, step, q, name);
    }
    if step.Subscribe? {
      forall name ensures Good(s1, step.q, name) {
        NewcomerExactly(s, step.q, step.doc, name);
      }
    }
  }

  lemma {:induction false} RunKeepsInv(s: Bus, steps: seq<Step>)
    requires Inv(s) && CanRun(s, steps) && CalmRun(s, steps)
    ensures Inv(Run(s, steps))
    decreases steps
  {
    if steps != [] {
      StepKeepsInv(s, steps[0]);
      RunKeepsInv(Apply(s, steps[0]), steps[1..]);
    }
  }

  /** Whatever the interleaving, as long as no step loses a last word: a subscriber that has
      its snapshot and an empty queue, while no update of its document is in flight, shows
      what is stored. */
  lemma StreamConverges(s0: Bus, steps: seq<Step>, q: nat)
    requires s0.inflight == [] && s0.subscribers == map[]
    requires CanRun(s0, steps) && CalmRun(s0, steps) && q in Run(s0, steps).subscribers
    requires var s, sub := Run(s0, steps), Run(s0, steps).subscribers[q];
      sub.view.Some? && sub.queue == [] && forall e | e in s.inflight :: e.doc != sub.doc
    ensures forall name :: ShowsStored(Run(s0, steps), q, name)
  {
    RunKeepsInv(s0, steps);
    forall name ensures ShowsStored(Run(s0, steps), q, name) {
      SettledShows(Run(s0, steps), q, name);
    }
  }

  lemma OrderlyIsCalm(s: Bus, step: Step)
    requires Enabled(s, step) && Orderly(s, step)
    ensures Calm(s, step)
  {
  }

  lemma {:induction false} OrderlyRunIsCalm(s: Bus, steps: seq<Step>)
    requires CanRun(s, steps) && OrderlyRun(s, steps)
    ensures CalmRun(s, steps)
    decreases steps
  {
    if steps != [] {
      OrderlyIsCalm(s, steps[0]);
      OrderlyRunIsCalm(Apply(s, steps[0]), steps[1..]);
    }
  }

  /** In particular with one writer for each stage of a document and no full queue. */
  lemma StreamConvergesWhenOrderly(s0: Bus, steps: seq<Step>, q: nat)
    requires s0.inflight == [] && s0.subscribers == map[]
    requires CanRun(s0, steps) && OrderlyRun(s0, steps) && q in Run(s0, steps).subscribers
    requires var s, sub := Run(s0, steps), Run(s0, steps).subscribers[q];
      sub.view.Some? && sub.queue == [] && forall e | e in s.inflight :: e.doc != sub.doc
    ensures forall name :: ShowsStored(Run(s0, steps), q, name)
  {
    OrderlyRunIsCalm(s0, steps);
    StreamConverges(s0, steps, q);
  }

  // ---- Two writers ---------------------------------------------------------

  /** With two writers of one stage the broadcasts may arrive in the other order, and
      the stream ends on a status that is not the stored one. */
  lemma TwoWritersDiverge(doc: nat)
    ensures exists steps :: var s0 := Bus(map[], [], map[]);
      && CanRun(s0, steps) && 0 in Run(s0, steps).subscribers
      && var s, sub := Run(s0, steps), Run(s0, steps).subscribers[0];
      && sub.doc == doc && sub.queue == [] && s.inflight == []
      && sub.view.Some? && Pipeline.ParseStage in sub.view.value
      && sub.view.value[Pipeline.ParseStage] != StatusOf(s.stored, doc, Pipeline.ParseStage)
  {
    var e := StageEvent(doc, Pipeline.ParseStage, Pipeline.StageProcessing);
    var f := StageEvent(doc, Pipeline.ParseStage, Pipeline.StageDone);
    var s0 := Bus(map[], [], map[]);
    var s2 := Apply(Apply(s0, Subscribe(0, doc)), Snapshot(0));
    var s4 := Apply(Apply(s2, Store(e)), Store(f));
    assert s4.inflight == [e, f];
    var s5 := Apply(s4, Broadcast(1));
    assert s5.inflight == [e];
    var s6 := Apply(s5, Broadcast(0));
    assert s6.subscribers[0].queue == [f, e];
    var s8 := Apply(Apply(s6, Read(0)), Read(0));
    var steps := RunCons(s6, Read(0), RunCons(Apply(s6, Read(0)), Read(0), []));
    steps := RunCons(s4, Broadcast(1), RunCons(s5, Broadcast(0), steps));
    steps := RunCons(s2, Store(e), RunCons(Apply(s2, Store(e)), Store(f), steps));
    steps := RunCons(s0, Subscribe(0, doc), RunCons(Apply(s0, Subscribe(0, doc)), Snapshot(0), steps));
    assert Run(s0, steps) == s8;
  }

  /** A run with one more step in front. */
  ghost function RunCons(s: Bus, step: Step, rest: seq<Step>): (steps: seq<Step>)
    requires Enabled(s, step) && CanRun(Apply(s, step), rest)
    ensures CanRun(s, steps) && Run(s, steps) == Run(Apply(s, step), rest)
  {
    assert ([step] + rest)[1..] == rest;
    [step] + rest
  }

  /** The reading loop of a stream is a run of reads. */
  lemma {:induction false} DrainIsReads(s: Bus, q: nat) returns (steps: seq<Step>)
    requires q in s.subscribers && s.subscribers[q].view.Some?
    ensures CanRun(s, steps) && OrderlyRun(s, steps)
    ensures var sub := s.subscribers[q];
      Run(s, steps) == s.(subscribers := s.subscribers[q :=
        sub.(queue := [], view := Some(AllShown(sub.view.value, sub.doc, sub.queue)))])
    decreases |s.subscribers[q].queue|
  {
    var sub := s.subscribers[q];
    if sub.queue == [] {
      steps := [];
      assert s.subscribers[q := sub] == s.subscribers;
    } else {
      var rest := DrainIsReads(Apply(s, Read(q)), q);
      steps := [Read(q)] + rest;
      assert steps[1..] == rest;
    }
  }

  // ---- A full queue --------------------------------------------------------

  /** One writer for each stage of a document; queues may overflow. */
  ghost predicate OneWriter(s: Bus, step: Step) {
    step.Store? ==> forall f | f in s.inflight :: !SameKey(step.event, f)
  }

  ghost predicate OneWriterRun(s: Bus, steps: seq<Step>)
    requires CanRun(s, steps)
    decreases steps
  {
    steps != [] ==> OneWriter(s, steps[0]) && OneWriterRun(Apply(s, steps[0]), steps[1..])
  }

  /** A run of one writer that ends in t. */
  ghost predicate Takes(s: Bus, steps: seq<Step>, t: Bus) {
    CanRun(s, steps) && OneWriterRun(s, steps) && Run(s, steps) == t
  }

  lemma InFront(s: Bus, step: Step, rest: seq<Step>, t: Bus) returns (steps: seq<Step>)
    requires Enabled(s, step) && OneWriter(s, step) && Takes(Apply(s, step), rest, t)
    ensures Takes(s, steps, t)
  {
    steps := [step] + rest;
    assert steps[1..] == rest;
  }

  function Copies(e: StageEvent, n: nat): seq<StageEvent> {
    seq(n, i => e)
  }

  /** One subscriber with n unread copies of the event 'processing', which it shows; the
      stored status is the given one. */
  function Flooded(doc: nat, n: nat, status: StageStatus): Bus {
    var busy := StageEvent(doc, Pipeline.ParseStage, Pipeline.StageProcessing);
    var seen := SnapshotOf(map[(doc, Pipeline.ParseStage) := Pipeline.StageProcessing], doc);
    Bus(map[(doc, Pipeline.ParseStage) := status], [], map[0 := Subscriber(doc, Copies(busy, n), Some(seen))])
  }

  lemma ReadOneCopy(doc: nat, n: nat)
    requires n > 0
    ensures Enabled(Flooded(doc, n, Pipeline.StageDone), Read(0))
    ensures Apply(Flooded(doc, n, Pipeline.StageDone), Read(0)) == Flooded(doc, n - 1, Pipeline.StageDone)
  {
    var sub := Flooded(doc, n, Pipeline.StageDone).subscribers[0];
    assert sub.queue[1..] == Copies(sub.queue[0], n - 1);
    assert Shown(sub.view.value, doc, sub.queue[0]) == sub.view.value;
  }

  lemma {:induction false} ReadCopies(doc: nat, n: nat) returns (steps: seq<Step>)
    ensures Takes(Flooded(doc, n, Pipeline.StageDone), steps, Flooded(doc, 0, Pipeline.StageDone))
  {
    steps := [];
    if n > 0 {
      ReadOneCopy(doc, n);
      steps := ReadCopies(doc, n - 1);
      steps := InFront(Flooded(doc, n, Pipeline.StageDone), Read(0), steps, Flooded(doc, 0, Pipeline.StageDone));
    }
  }

  /** Stores and broadcasts one event; a full queue drops it. */
  lemma StoreAndBroadcast(doc: nat, n: nat, status: StageStatus, rest: seq<Step>, t: Bus) returns (steps: seq<Step>)
    requires n < QUEUE_SIZE ==> status == Pipeline.StageProcessing
    requires Takes(Flooded(doc, if n < QUEUE_SIZE then n + 1 else n, status), rest, t)
    ensures Takes(Flooded(doc, n, Pipeline.StageProcessing), steps, t)
  {
    var e := StageEvent(doc, Pipeline.ParseStage, status);
    var s := Flooded(doc, n, Pipeline.StageProcessing);
    var s1 := Apply(s, Store(e));
    assert s1.inflight == [e];
    var s2 := Apply(s1, Broadcast(0));
    assert s2.inflight == [];
    assert n < QUEUE_SIZE ==> Copies(e, n) + [e] == Copies(e, n + 1);
    assert s2 == Flooded(doc, if n < QUEUE_SIZE then n + 1 else n, status);
    steps := InFront(s1, Broadcast(0), rest, t);
    steps := InFront(s, Store(e), steps, t);
  }

  lemma {:induction false} FloodAndRead(doc: nat, n: nat) returns (steps: seq<Step>)
    requires n <= QUEUE_SIZE
    ensures Takes(Flooded(doc, n, Pipeline.StageProcessing), steps, Flooded(doc, 0, Pipeline.StageDone))
    decreases QUEUE_SIZE - n
  {
    if n < QUEUE_SIZE {
      steps := FloodAndRead(doc, n + 1);
      steps := StoreAndBroadcast(doc, n, Pipeline.StageProcessing, steps, Flooded(doc, 0, Pipeline.StageDone));
    } else {
      steps := ReadCopies(doc, n);
      steps := StoreAndBroadcast(doc, n, Pipeline.StageDone, steps, Flooded(doc, 0, Pipeline.StageDone));
    }
  }

  /** With one writer but a reader that falls QUEUE_SIZE events behind, the stream ends on
      a status that is not the stored one. */
  lemma OverflowDiverges(doc: nat)
    ensures exists steps :: Takes(Bus(map[], [], map[]), steps, Flooded(doc, 0, Pipeline.StageDone))
    ensures var s := Flooded(doc, 0, Pipeline.StageDone);
      s.inflight == [] && s.subscribers[0].queue == []
      && s.subscribers[0].view.value[Pipeline.ParseStage] != StatusOf(s.stored, doc, Pipeline.ParseStage)
  {
    var e := StageEvent(doc, Pipeline.ParseStage, Pipeline.StageProcessing);
    var t := Flooded(doc, 0, Pipeline.StageDone);
    var s0 := Bus(map[], [], map[]);
    var s1 := Apply(s0, Store(e));
    assert s1.inflight == [e];
    var s2 := Apply(s1, Broadcast(0));
    assert s2 == Bus(map[(doc, Pipeline.ParseStage) := Pipeline.StageProcessing], [], map[]);
    var s3 := Apply(s2, Subscribe(0, doc));
    assert Copies(e, 0) == [];
    assert Apply(s3, Snapshot(0)) == Flooded(doc, 0, Pipeline.StageProcessing);
    var steps := FloodAndRead(doc, 0);
    steps := InFront(s3, Snapshot(0), steps, t);
    steps := InFront(s2, Subscribe(0, doc), steps, t);
    steps := InFront(s1, Broadcast(0), steps, t);
    steps := InFront(s0, Store(e), steps, t);
  }
}
