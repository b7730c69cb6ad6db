/**
 Which runs leave a single worker on each document.

 A job is open while it waits or its worker has not handed over; one open job at a time
 means one writer of the stages of the document.  StepDoubles says exactly which
 steps open a second one.
 */
module Writers {
  import opened Prelude
  import opened JobQueue
  import opened Pipeline
  import opened Consistency
  import opened Ownership

  /** The next stage is enqueued, or there is none to come. */
  predicate HandedOver(pc: Pc) {
    pc == IngestAck || pc == EmbedAck
  }

  ghost predicate AtWork(s: State, j: nat) {
    exists w :: w in s.workers && s.workers[w].job == j && !HandedOver(s.workers[w].pc)
  }

  /** An ingest, embed or index job that may still write a stage of the document. */
  ghost predicate Open(s: State, j: nat, d: nat) {
    && j in s.jobs && s.jobs[j].doc == d && s.jobs[j].stage != Purge
    && (s.jobs[j].status == Pending || AtWork(s, j))
  }

  ghost predicate OneOpen(s: State, d: nat) {
    forall i, j | Open(s, i, d) && Open(s, j, d) :: i == j
  }

  /** Waiting once recover_stale_jobs has run. */
  predicate Reopens(s: State, j: nat, d: nat) {
    && j in s.jobs && s.jobs[j].doc == d && s.jobs[j].stage != Purge
    && (s.jobs[j].status == Pending || s.jobs[j].Stale(s.now))
  }

  /** A requeue while a job is open; a restart that finds two jobs; a hand-off that
      committed and raised; an ack that raised after it while the next job is open. */
  ghost predicate StepDoubles(s: State, e: Event, d: nat)
    requires Enabled(s, e)
  {
    match e
    case UploadRequest(tenant, filename, checksum, _) =>
      PlanUpload(s, tenant, filename, checksum) == Retry(d) && exists j :: Open(s, j, d)
    case ReprocessRequest(r) => r == d && exists j :: Open(s, j, d)
    case Recover => exists i, j :: i != j && Reopens(s, i, d) && Reopens(s, j, d)
    case Raise(w, _, late) =>
      var k := s.workers[w];
      && k.doc == d && d in s.docs
      && (late || (HandedOver(k.pc) && exists j :: j != k.job && Open(s, j, d)))
    case _ => false
  }

  // ---- Steps ---------------------------------------------------------------

  ghost predicate OpensNothing(s: State, s1: State, d: nat) {
    forall j | Open(s1, j, d) :: Open(s, j, d)
  }

  /** Workers as before but for one, which has moved on. */
  lemma OthersAtWork(s: State, t: State, w: nat, k: Worker, pc: Option<Pc>, j: nat)
    requires Consistent(s) && w in s.workers && k == s.workers[w] && t.workers == s.workers
    ensures j != k.job ==> (AtWork(Goto(t, w, k, pc), j) <==> AtWork(s, j))
    ensures AtWork(Goto(t, w, k, pc), k.job) <==> pc.Some? && !HandedOver(pc.value)
    ensures !HandedOver(k.pc) ==> AtWork(s, k.job)
  {
    var s1 := Goto(t, w, k, pc);
    if j != k.job && AtWork(s, j) {
      var v :| v in s.workers && s.workers[v].job == j && !HandedOver(s.workers[v].pc);
      assert v in s1.workers && s1.workers[v] == s.workers[v];
    }
    if pc.Some? && !HandedOver(pc.value) {
      assert w in s1.workers && s1.workers[w].job == k.job;
    }
  }

  /** Any statement but a hand-off, or one for another document. */
  lemma StatementOpensNothing(s: State, w: nat, op: Op, pc: Option<Pc>, d: nat)
    requires Consistent(s) && w in s.workers && (op.OpInsert? ==> s.workers[w].doc in s.docs)
    requires op.OpAck? ==> pc == None
    requires s.workers[w].doc != d || (!op.OpHandOff? && (HandedOver(s.workers[w].pc) ==> op.OpAck?))
    ensures var k := s.workers[w]; OpensNothing(s, Goto(Perform(s, op, k.job, k.doc), w, k, pc), d)
  {
    var k := s.workers[w];
    var t := Perform(s, op, k.job, k.doc);
    var s1 := Goto(t, w, k, pc);
    assert Holds(s, k);
    forall j | Open(s1, j, d) ensures Open(s, j, d) {
      PerformRows(s, op, k.job, k.doc, j);
      OthersAtWork(s, t, w, k, pc, j);
    }
  }

  /** The next job opens, and its parent closes unless the hand-off raises. */
  lemma HandOffOpensNext(s: State, w: nat, pc: Pc, d: nat)
    requires Consistent(s) && w in s.workers && s.workers[w].doc == d && d in s.docs
    requires OpAt(s.workers[w].pc).OpHandOff?
    ensures var k := s.workers[w];
      var s1 := Goto(Effect(s, k), w, k, Some(pc));
      && Open(s, k.job, d) && k.job != s.nextJob && Open(s1, s.nextJob, d)
      && (Open(s1, k.job, d) <==> !HandedOver(pc))
      && forall j | j != k.job && j != s.nextJob :: Open(s1, j, d) <==> Open(s, j, d)
  {
    var k := s.workers[w];
    var t := Effect(s, k);
    assert Holds(s, k);
    HandOffRow(s, k);
    forall j ensures j != k.job ==> (AtWork(Goto(t, w, k, Some(pc)), j) <==> AtWork(s, j)) {
      OthersAtWork(s, t, w, k, Some(pc), j);
    }
    OthersAtWork(s, t, w, k, Some(pc), k.job);
  }

  lemma HandOffRow(s: State, k: Worker)
    requires FreshIds(s) && OpAt(k.pc).OpHandOff? && k.doc in s.docs
    ensures KindOf(k.pc) != Purge && OpAt(k.pc).stage != Purge && !HandedOver(k.pc)
    ensures Effect(s, k) == AddJob(s, k.doc, OpAt(k.pc).stage)
    ensures Effect(s, k).jobs == s.jobs[s.nextJob := NewJob(k.doc, OpAt(k.pc).stage, s.maxAttempts, s.now)]
  {
  }

  lemma CommitDoubles(s: State, w: nat, d: nat)
    requires Consistent(s) && Enabled(s, Commit(w)) && OneOpen(s, d)
    ensures OneOpen(Apply(s, Commit(w)), d)
  {
    var k := s.workers[w];
    AckEnds(s, k);
    if k.doc == d && OpAt(k.pc).OpHandOff? && d in s.docs {
      HandOffDoubles(s, w, After(s, k).value, d);
    } else if k.doc == d && OpAt(k.pc).OpHandOff? {
      HandOffForGone(s, k);
      StatementOpensNothing(s, w, OpNone, After(s, k), d);
    } else {
      StatementOpensNothing(s, w, OpAt(k.pc), After(s, k), d);
    }
  }

  lemma HandOffDoubles(s: State, w: nat, pc: Pc, d: nat)
    requires Consistent(s) && w in s.workers && OneOpen(s, d) && d in s.docs
    requires s.workers[w].doc == d && OpAt(s.workers[w].pc).OpHandOff? && HandedOver(pc)
    ensures OneOpen(Goto(Effect(s, s.workers[w]), w, s.workers[w], Some(pc)), d)
  {
    HandOffOpensNext(s, w, pc, d);
  }

  lemma HandOffForGone(s: State, k: Worker)
    requires OpAt(k.pc).OpHandOff? && k.doc !in s.docs
    ensures Effect(s, k) == Perform(s, OpNone, k.job, k.doc)
  {
  }

  lemma AckEnds(s: State, k: Worker)
    ensures HandedOver(k.pc) ==> OpAt(k.pc).OpAck?
    ensures OpAt(k.pc).OpAck? ==> After(s, k) == None
    ensures OpAt(k.pc).OpHandOff? ==> After(s, k).Some? && HandedOver(After(s, k).value)
  {
  }

  lemma HandlerAwaits(pc: Pc)
    requires OpAt(pc).OpHandOff? || HandedOver(pc)
    ensures OnRaise(pc).Some? && !HandedOver(OnRaise(pc).value) && KindOf(pc) != Purge
  {
    assert pc == EnqueueEmbed || pc == EnqueueIndex || pc == IngestAck || pc == EmbedAck;
  }

  lemma LateHandOffDoubles(s: State, w: nat, d: nat)
    requires Consistent(s) && Enabled(s, Raise(w, {}, true)) && s.workers[w].doc == d && d in s.docs
    ensures !OneOpen(Apply(s, Raise(w, {}, true)), d)
  {
    HandlerAwaits(s.workers[w].pc);
    HandOffOpensNext(s, w, OnRaise(s.workers[w].pc).value, d);
  }

  lemma RaiseDoubles(s: State, w: nat, written: set<nat>, late: bool, d: nat)
    requires Consistent(s) && Enabled(s, Raise(w, written, late)) && OneOpen(s, d)
    ensures OneOpen(Apply(s, Raise(w, written, late)), d) <==> !StepDoubles(s, Raise(w, written, late), d)
  {
    var k := s.workers[w];
    if k.doc != d || d !in s.docs || (!late && !HandedOver(k.pc)) {
      PlainRaise(s, w, written, late, d);
    } else if late {
      LateHandOffDoubles(s, w, d);
    } else {
      AckRaises(s, w, d);
    }
  }

  lemma PlainRaise(s: State, w: nat, written: set<nat>, late: bool, d: nat)
    requires Consistent(s) && Enabled(s, Raise(w, written, late)) && OneOpen(s, d)
    requires s.workers[w].doc != d || d !in s.docs || (!late && !HandedOver(s.workers[w].pc))
    ensures OneOpen(Apply(s, Raise(w, written, late)), d)
  {
    var op := RaiseApplied(s, w, written, late);
    if s.workers[w].doc == d && d !in s.docs {
      NothingOpenWithoutRow(Apply(s, Raise(w, written, late)), d);
    } else {
      StatementOpensNothing(s, w, op, OnRaise(s.workers[w].pc), d);
    }
  }

  lemma NothingOpenWithoutRow(s: State, d: nat)
    requires ForeignKeys(s) && d !in s.docs
    ensures forall j :: !Open(s, j, d)
  {
  }

  /** The worker goes to its handler, so that its job is open again. */
  lemma AckRaises(s: State, w: nat, d: nat)
    requires Consistent(s) && Enabled(s, Raise(w, {}, false)) && HandedOver(s.workers[w].pc)
    requires s.workers[w].doc == d && d in s.docs
    ensures var s1 := Apply(s, Raise(w, {}, false));
      Open(s1, s.workers[w].job, d) && forall j | j != s.workers[w].job :: Open(s1, j, d) <==> Open(s, j, d)
  {
    var k := s.workers[w];
    HandlerAwaits(k.pc);
    assert Holds(s, k);
    var t := AddPoints(s, d, {});
    forall j ensures j != k.job ==> (AtWork(Goto(t, w, k, OnRaise(k.pc)), j) <==> AtWork(s, j)) {
      OthersAtWork(s, t, w, k, OnRaise(k.pc), j);
    }
    OthersAtWork(s, t, w, k, OnRaise(k.pc), k.job);
  }

  lemma ResultDoublesNothing(s: State, e: Event, w: nat, d: nat)
    requires Consistent(s) && Enabled(s, e) && (e.Parsed? || e.Split?) && e.w == w
    ensures OpensNothing(s, Apply(s, e), d)
  {
    var pc := ResultApplied(s, e, w);
    StatementOpensNothing(s, w, OpNone, Some(pc), d);
  }

  lemma ClaimOpensNothing(s: State, w: nat, j: nat, d: nat)
    requires Consistent(s) && Enabled(s, Claim(w, j))
    ensures OpensNothing(s, Apply(s, Claim(w, j)), d)
  {
    var s1 := Apply(s, Claim(w, j));
    forall i | Open(s1, i, d) ensures Open(s, i, d) {
      if i != j && AtWork(s1, i) {
        var v :| v in s1.workers && s1.workers[v].job == i && !HandedOver(s1.workers[v].pc);
        assert v in s.workers && s.workers[v] == s1.workers[v];
      }
    }
  }

  lemma PauseOpensNothing(s: State, e: Event, d: nat)
    requires Consistent(s) && Enabled(s, e) && (e.Tick? || e.Crash? || e.Cleanup?)
    ensures OpensNothing(s, Apply(s, e), d)
  {
    forall j | Open(Apply(s, e), j, d) ensures Open(s, j, d) {
      assert AtWork(Apply(s, e), j) ==> AtWork(s, j);
    }
  }

  lemma RecoveryDoubles(s: State, d: nat)
    requires Consistent(s) && Enabled(s, Recover)
    ensures OneOpen(Apply(s, Recover), d) <==> !StepDoubles(s, Recover, d)
  {
    assert forall j :: Open(Apply(s, Recover), j, d) <==> Reopens(s, j, d);
  }

  // ---- Requests ------------------------------------------------------------

  lemma PurgeRequestOpensNothing(s: State, r: nat, d: nat)
    requires FreshIds(s)
    ensures OpensNothing(s, RequestPurge(s, r), d)
  {
    assert forall j :: AtWork(RequestPurge(s, r), j) <==> AtWork(s, j);
  }

  lemma RequeueOpens(s: State, r: nat, d: nat)
    requires FreshIds(s) && r in s.docs
    ensures s.nextJob !in s.jobs
    ensures forall j :: Open(Requeue(s, r), j, d) <==> Open(s, j, d) || (r == d && j == s.nextJob)
  {
    assert forall j :: AtWork(Requeue(s, r), j) <==> AtWork(s, j);
  }

  lemma AddDocumentOpens(s: State, tenant: string, filename: string, checksum: string, d: nat)
    requires Consistent(s) && OneOpen(s, d)
    ensures OneOpen(AddDocument(s, tenant, filename, checksum), d)
  {
    var s1 := AddDocument(s, tenant, filename, checksum);
    assert forall j :: AtWork(s1, j) <==> AtWork(s, j);
    assert forall j | Open(s1, j, d) :: if d == s.nextDoc then j == s.nextJob else Open(s, j, d);
  }

  lemma PlanDoubles(s: State, plan: UploadPlan, tenant: string, filename: string, checksum: string, fileStored: bool,
                    d: nat)
    requires Consistent(s) && OneOpen(s, d)
    requires plan.Replace? ==> plan.previous in s.docs
    requires plan.Retry? ==> plan.doc in s.docs
    ensures OneOpen(FollowPlan(s, plan, tenant, filename, checksum, fileStored), d) <==>
      !(plan == Retry(d) && exists j :: Open(s, j, d))
  {
    match plan
    case Ignore =>
    case Retry(r) => RequeueDoubles(s, r, d);
    case Add => AddDocumentOpens(s, tenant, filename, checksum, d);
    case Replace(r) =>
      PurgeRequestOpensNothing(s, r, d);
      RequestPurgeKeepsConsistency(s, r);
      var s1 := if s.docs[r].checksum != checksum then RequestPurge(s, r) else s;
      AddDocumentOpens(s1, tenant, filename, checksum, d);
  }

  lemma RequeueDoubles(s: State, r: nat, d: nat)
    requires Consistent(s) && OneOpen(s, d) && r in s.docs
    ensures OneOpen(Requeue(s, r), d) <==> !(r == d && exists j :: Open(s, j, d))
  {
    RequeueOpens(s, r, d);
    var s1 := Requeue(s, r);
    if j :| r == d && Open(s, j, d) {
      assert Open(s1, j, d) && Open(s1, s.nextJob, d) && j != s.nextJob;
    }
  }

  lemma RequestDoubles(s: State, e: Event, d: nat)
    requires Consistent(s) && Enabled(s, e) && IsRequest(e) && OneOpen(s, d)
    ensures OneOpen(Apply(s, e), d) <==> !StepDoubles(s, e, d)
  {
    match e
    case UploadRequest(tenant, filename, checksum, fileStored) =>
      PlanDoubles(s, PlanUpload(s, tenant, filename, checksum), tenant, filename, checksum, fileStored, d);
    case ReprocessRequest(r) => RequeueDoubles(s, r, d);
    case DeleteRequest(r) => PurgeRequestOpensNothing(s, r, d);
  }

  /** A step opens a second job of a document if and only if it is one of the four. */
  lemma DoublesExactly(s: State, e: Event, d: nat)
    requires Consistent(s) && Enabled(s, e) && OneOpen(s, d)
    ensures OneOpen(Apply(s, e), d) <==> !StepDoubles(s, e, d)
  {
    if IsRequest(e) {
      RequestDoubles(s, e, d);
    } else if e.Commit? {
      CommitDoubles(s, e.w, d);
    } else if e.Raise? {
      RaiseDoubles(s, e.w, e.written, e.late, d);
    } else if e.Parsed? || e.Split? {
      ResultDoublesNothing(s, e, e.w, d);
    } else if e.Claim? {
      ClaimOpensNothing(s, e.w, e.job, d);
    } else if e == Recover {
      RecoveryDoubles(s, d);
    } else {
      PauseOpensNothing(s, e, d);
    }
  }

  // ---- Runs ----------------------------------------------------------------

  ghost predicate SingleRun(s: State, es: seq<Event>, d: nat)
    requires CanRun(s, es)
    decreases es
  {
    es != [] ==> !StepDoubles(s, es[0], d) && SingleRun(Apply(s, es[0]), es[1..], d)
  }

  lemma {:induction false} SingleRunKeepsOneOpen(s: State, es: seq<Event>, d: nat)
    requires Consistent(s) && OneOpen(s, d) && CanRun(s, es) && SingleRun(s, es, d)
    ensures Consistent(Run(s, es)) && OneOpen(Run(s, es), d)
    decreases es
  {
    if es != [] {
      StepKeepsConsistency(s, es[0]);
      DoublesExactly(s, es[0], d);
      SingleRunKeepsOneOpen(Apply(s, es[0]), es[1..], d);
    }
  }

  /** The worker may write a stage of the document, or has just written one. */
  ghost predicate Busy(s: State, w: nat, d: nat) {
    && w in s.workers && s.workers[w].doc == d && d in s.docs
    && KindOf(s.workers[w].pc) != Purge && !HandedOver(s.workers[w].pc)
  }

  lemma BusyIsOpen(s: State, w: nat, d: nat)
    requires Consistent(s) && Busy(s, w, d)
    ensures Open(s, s.workers[w].job, d)
  {
    assert Holds(s, s.workers[w]);
  }

  /** A worker is busy when it writes a stage and still is when it has. */
  lemma WriterIsBusy(s: State, w: nat)
    requires Consistent(s) && Enabled(s, Commit(w)) && OpAt(s.workers[w].pc).OpStage?
    requires s.workers[w].doc in s.docs
    ensures Busy(s, w, s.workers[w].doc) && Busy(Apply(s, Commit(w)), w, s.workers[w].doc)
  {
    WritingGoesOn(s, s.workers[w]);
  }

  lemma WritingGoesOn(s: State, k: Worker)
    requires OpAt(k.pc).OpStage?
    ensures KindOf(k.pc) != Purge && !HandedOver(k.pc)
    ensures After(s, k).Some? && KindOf(After(s, k).value) != Purge && !HandedOver(After(s, k).value)
  {
  }

  /** Without a doubling step a document has one writer at a time, whatever stage it is. */
  lemma OneWriter(s0: State, es: seq<Event>, d: nat)
    requires Init(s0) && CanRun(s0, es) && SingleRun(s0, es, d)
    ensures forall v, w | Busy(Run(s0, es), v, d) && Busy(Run(s0, es), w, d) :: v == w
  {
    SingleRunKeepsOneOpen(s0, es, d);
    OneOpenOneBusy(Run(s0, es), d);
  }

  lemma OneOpenOneBusy(s: State, d: nat)
    requires Consistent(s) && OneOpen(s, d)
    ensures forall v, w | Busy(s, v, d) && Busy(s, w, d) :: v == w
  {
    forall v, w | Busy(s, v, d) && Busy(s, w, d) ensures v == w {
      BusyIsOpen(s, v, d);
      BusyIsOpen(s, w, d);
    }
  }
}
