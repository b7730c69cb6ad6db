/**
 What a restart does for the jobs that were being processed: five minutes after their
 claim it gives them back, and before that it leaves them to nobody.
 */
module Restart {
  import opened Prelude
  import opened JobQueue
  import opened Pipeline
  import opened Consistency
  import opened Ownership

  // ---- Locks ---------------------------------------------------------------

  ghost predicate Locked(s: State) {
    forall j | j in s.jobs && s.jobs[j].status == Processing ::
      s.jobs[j].lockedAt.Some? && s.jobs[j].lockedAt.value <= s.now
  }

  lemma StepKeepsLocked(s: State, e: Event)
    requires Consistent(s) && Locked(s) && Enabled(s, e)
    ensures Locked(Apply(s, e))
  {
    var s1 := Apply(s, e);
    StepEvolves(s, e);
    forall j | j in s1.jobs && s1.jobs[j].status == Processing
      ensures s1.jobs[j].lockedAt.Some? && s1.jobs[j].lockedAt.value <= s1.now
    {
      EvolvingKeepsLocked(s, s1, j);
    }
  }

  lemma EvolvingKeepsLocked(s: State, s1: State, j: nat)
    requires Locked(s) && AllEvolve(s, s1) && j in s1.jobs && s1.jobs[j].status == Processing
    ensures s1.jobs[j].lockedAt.Some? && s1.jobs[j].lockedAt.value <= s1.now
  {
    assert Evolves(s, s1, j);
  }

  lemma {:induction false} RunKeepsLocked(s: State, es: seq<Event>)
    requires Consistent(s) && Locked(s) && CanRun(s, es)
    ensures Locked(Run(s, es))
    decreases es
  {
    if es != [] {
      StepKeepsLocked(s, es[0]);
      StepKeepsConsistency(s, es[0]);
      RunKeepsLocked(Apply(s, es[0]), es[1..]);
    }
  }

  lemma ReachableLocked(s: State)
    requires Reachable(s)
    ensures Locked(s)
  {
    var s0, es :| Init(s0) && CanRun(s0, es) && Run(s0, es) == s;
    RunKeepsLocked(s0, es);
  }

  // ---- The recovery --------------------------------------------------------

  /** A recovery gives back exactly the processing jobs locked for five minutes or more,
      with the attempts they have used; every other row stays. */
  lemma RecoveryGivesBackExactly(s: State, j: nat)
    requires Reachable(s) && Enabled(s, Recover) && j in s.jobs
    ensures j in Apply(s, Recover).jobs
    ensures var before, after := s.jobs[j], Apply(s, Recover).jobs[j];
      if before.status == Processing && before.lockedAt.Some? && s.now - before.lockedAt.value >= 300_000_000
      then after == before.(status := Pending, lockedAt := None)
      else after == before
    ensures Apply(s, Recover).jobs[j].status == Processing <==>
      s.jobs[j].status == Processing && s.jobs[j].lockedAt.Some? && s.now - s.jobs[j].lockedAt.value < 300_000_000
  {
    ReachableLocked(s);
  }

  lemma DownStep(s: State, e: Event)
    requires s.phase == Down && s.workers == map[] && Enabled(s, e) && e != Recover
    ensures e.Tick? || e.Crash?
    ensures var u := Apply(s, e); u.phase == Down && u.workers == map[] && u.jobs == s.jobs && u.now >= s.now
  {
  }

  /** Nothing else can happen while the server is down. */
  lemma {:induction false} DownChangesNothing(s: State, es: seq<Event>)
    requires s.phase == Down && s.workers == map[] && CanRun(s, es) && Recover !in es
    ensures var u := Run(s, es); u.phase == Down && u.workers == map[] && u.jobs == s.jobs && u.now >= s.now
    decreases es
  {
    if es != [] {
      assert es[0] in es && forall e | e in es[1..] :: e in es;
      DownStep(s, es[0]);
      DownChangesNothing(Apply(s, es[0]), es[1..]);
    }
  }

  /** Started again five minutes or more after a crash, the server has no job left that
      looks as if it were being processed; those that were are pending. */
  lemma CrashThenRestart(s: State, es: seq<Event>)
    requires Reachable(s) && CanRun(Apply(s, Crash), es) && Recover !in es
    requires Run(Apply(s, Crash), es).now - s.now >= 300_000_000
    ensures var u := Run(Apply(s, Crash), es);
      && Enabled(u, Recover) && Apply(u, Recover).jobs.Keys == s.jobs.Keys
      && forall j | j in s.jobs ::
        Apply(u, Recover).jobs[j] ==
          if s.jobs[j].status == Processing then s.jobs[j].(status := Pending, lockedAt := None) else s.jobs[j]
  {
    ReachableLocked(s);
    DownChangesNothing(Apply(s, Crash), es);
  }

  // ---- Jobs of nobody ------------------------------------------------------

  ghost predicate Orphan(s: State, j: nat) {
    && j in s.jobs && s.jobs[j].status == Processing
    && forall w | w in s.workers :: s.workers[w].job != j
  }

  lemma StatementKeepsOrphan(s: State, w: nat, op: Op, pc: Option<Pc>, j: nat)
    requires Consistent(s) && Orphan(s, j) && w in s.workers && (op.OpInsert? ==> s.workers[w].doc in s.docs)
    ensures var k := s.workers[w];
      var s1 := Goto(Perform(s, op, k.job, k.doc), w, k, pc);
      j in s1.jobs ==> Orphan(s1, j) && s1.jobs[j] == s.jobs[j]
  {
    var k := s.workers[w];
    if j in Perform(s, op, k.job, k.doc).jobs {
      PerformRows(s, op, k.job, k.doc, j);
    }
  }

  lemma StepKeepsOrphan(s: State, e: Event, j: nat)
    requires Consistent(s) && Orphan(s, j) && Enabled(s, e) && e != Recover
    ensures j in Apply(s, e).jobs ==> Orphan(Apply(s, e), j) && Apply(s, e).jobs[j] == s.jobs[j]
  {
    if IsRequest(e) {
      RequestOnlyAddsJobs(s, e);
    } else if e.Commit? {
      var k := s.workers[e.w];
      StatementKeepsOrphan(s, e.w, OpAt(k.pc), After(s, k), j);
    } else if e.Raise? {
      var op := RaiseApplied(s, e.w, e.written, e.late);
      StatementKeepsOrphan(s, e.w, op, OnRaise(s.workers[e.w].pc), j);
    } else if e.Parsed? || e.Split? {
      var pc := ResultApplied(s, e, e.w);
      StatementKeepsOrphan(s, e.w, OpNone, Some(pc), j);
    }
  }

  lemma {:induction false} OrphanStays(s: State, es: seq<Event>, j: nat)
    requires Consistent(s) && (j in s.jobs ==> Orphan(s, j)) && j < s.nextJob && CanRun(s, es) && Recover !in es
    ensures j in Run(s, es).jobs ==> j in s.jobs && Run(s, es).jobs[j] == s.jobs[j]
    decreases es
  {
    if es != [] {
      assert es[0] in es && forall e | e in es[1..] :: e in es;
      var s1 := Apply(s, es[0]);
      StepKeepsConsistency(s, es[0]);
      StepEvolves(s, es[0]);
      if j in s.jobs {
        StepKeepsOrphan(s, es[0], j);
      } else {
        assert j in s1.jobs ==> Evolves(s, s1, j);
      }
      OrphanStays(s1, es[1..], j);
    }
  }

  /** A job claimed less than five minutes before a restart is not given back, and then
      stays as it is, with no worker, until another restart or until its document goes. */
  lemma StuckUntilNextRestart(s: State, es: seq<Event>, j: nat)
    requires Reachable(s) && Enabled(s, Recover) && j in s.jobs && s.jobs[j].status == Processing
    requires s.jobs[j].lockedAt.Some? && s.now - s.jobs[j].lockedAt.value < 300_000_000
    requires CanRun(Apply(s, Recover), es) && Recover !in es
    ensures j in Run(Apply(s, Recover), es).jobs ==> Run(Apply(s, Recover), es).jobs[j] == s.jobs[j]
  {
    ReachableConsistent(s);
    StepKeepsConsistency(s, Recover);
    OrphanStays(Apply(s, Recover), es, j);
  }
}
