/** A due job is overtaken only by the jobs that were scheduled no later than it. */
module Fairness {
  import opened Prelude
  import opened JobQueue
  import opened Pipeline
  import opened Consistency
  import opened Ownership

  /** Pending jobs of the stage of j that claim may prefer to j. */
  ghost function Ahead(s: State, j: nat): set<nat>
    requires j in s.jobs
  {
    set k | k in s.jobs && k != j && s.jobs[k].status == Pending && s.jobs[k].stage == s.jobs[j].stage
            && s.jobs[k].scheduledAt <= s.jobs[j].scheduledAt
  }

  predicate Waiting(s: State, j: nat) {
    j in s.jobs && s.jobs[j].status == Pending && s.jobs[j].scheduledAt < s.now
  }

  predicate Overtakes(s: State, e: Event, j: nat)
    requires j in s.jobs
  {
    e.Claim? && e.job in s.jobs && e.job != j && s.jobs[e.job].stage == s.jobs[j].stage
  }

  lemma OnlyRecoverCounts(s: State, e: Event)
    requires Consistent(s) && Enabled(s, e) && e != Recover
    ensures Apply(s, e).recoveries == s.recoveries
  {
    if IsRequest(e) {
      RequestOnlyAddsJobs(s, e);
    }
  }

  /** New and rescheduled jobs rank behind a waiting job. */
  lemma NobodyCutsIn(s: State, s1: State, j: nat)
    requires Waiting(s, j) && AllEvolve(s, s1) && s1.recoveries == s.recoveries
    requires j in s1.jobs && s1.jobs[j].status == Pending
    ensures s1.jobs[j] == s.jobs[j] && Ahead(s1, j) <= Ahead(s, j)
  {
    assert Evolves(s, s1, j);
    forall k | k in Ahead(s1, j) ensures k in Ahead(s, j) {
      assert Evolves(s, s1, k);
    }
  }

  lemma ClaimTakesFromAhead(s: State, w: nat, k: nat, j: nat)
    requires Enabled(s, Claim(w, k)) && Waiting(s, j) && Overtakes(s, Claim(w, k), j)
    ensures k in Ahead(s, j) && k !in Ahead(Apply(s, Claim(w, k)), j)
  {
    assert s.jobs[j].Due(s.jobs[j].stage, s.now);
  }

  /** A step leaves the waiting job's row and rank alone; an overtaking claim leaves one
      job fewer ahead of it. */
  lemma StepKeepsRank(s: State, e: Event, j: nat)
    requires Consistent(s) && Enabled(s, e) && e != Recover
    requires Waiting(s, j) && j in Apply(s, e).jobs && Apply(s, e).jobs[j].status == Pending
    ensures Apply(s, e).jobs[j] == s.jobs[j]
    ensures |Ahead(Apply(s, e), j)| + (if Overtakes(s, e, j) then 1 else 0) <= |Ahead(s, j)|
  {
    StepEvolves(s, e);
    OnlyRecoverCounts(s, e);
    NobodyCutsIn(s, Apply(s, e), j);
    SubsetSize(Ahead(Apply(s, e), j), Ahead(s, j));
    if Overtakes(s, e, j) {
      ClaimTakesFromAhead(s, e.w, e.job, j);
    }
  }

  /** Stale jobs of the stage of j that were scheduled no later than it. */
  ghost function Revived(s: State, j: nat): set<nat>
    requires j in s.jobs
  {
    set k | k in s.jobs && s.jobs[k].Stale(s.now) && s.jobs[k].stage == s.jobs[j].stage
            && s.jobs[k].scheduledAt <= s.jobs[j].scheduledAt
  }

  /** A recovery puts exactly these in front of a waiting job, hence somebody if and only
      if there is one. */
  lemma RecoveryCutsInIff(s: State, j: nat)
    requires Waiting(s, j) && Enabled(s, Recover)
    ensures j in Apply(s, Recover).jobs && Apply(s, Recover).jobs[j] == s.jobs[j]
    ensures Ahead(Apply(s, Recover), j) == Ahead(s, j) + Revived(s, j)
    ensures |Ahead(Apply(s, Recover), j)| == |Ahead(s, j)| + |Revived(s, j)|
    ensures |Ahead(Apply(s, Recover), j)| > |Ahead(s, j)| <==>
      exists k | k in s.jobs && s.jobs[k].Stale(s.now) ::
        s.jobs[k].stage == s.jobs[j].stage && s.jobs[k].scheduledAt <= s.jobs[j].scheduledAt
  {
    RecoveryAddsRevived(s, j);
    var before, revived := Ahead(s, j), Revived(s, j);
    assert |before + revived| == |before| + |revived|;
    if k :| k in s.jobs && s.jobs[k].Stale(s.now) && s.jobs[k].stage == s.jobs[j].stage
            && s.jobs[k].scheduledAt <= s.jobs[j].scheduledAt {
      assert k in revived;
    } else {
      assert revived == {};
    }
  }

  lemma RecoveryAddsRevived(s: State, j: nat)
    requires Waiting(s, j) && Enabled(s, Recover)
    ensures j in Apply(s, Recover).jobs && Apply(s, Recover).jobs[j] == s.jobs[j]
    ensures Ahead(Apply(s, Recover), j) == Ahead(s, j) + Revived(s, j) && Ahead(s, j) !! Revived(s, j)
  {
  }

  /** The run has no restart, and the job is still pending in each of its states. */
  ghost predicate PendingThroughout(s: State, es: seq<Event>, j: nat)
    requires CanRun(s, es)
    decreases es
  {
    && j in s.jobs && s.jobs[j].status == Pending
    && (es != [] ==> es[0] != Recover && PendingThroughout(Apply(s, es[0]), es[1..], j))
  }

  ghost function Overtakings(s: State, es: seq<Event>, j: nat): nat
    requires CanRun(s, es) && PendingThroughout(s, es, j)
    decreases es
  {
    if es == [] then 0
    else (if Overtakes(s, es[0], j) then 1 else 0) + Overtakings(Apply(s, es[0]), es[1..], j)
  }

  /** While a due job waits, at most as many other jobs of its stage are claimed as were
      pending and scheduled no later than it. */
  lemma {:induction false} ClaimFairness(s: State, es: seq<Event>, j: nat)
    requires Consistent(s) && CanRun(s, es)
    requires PendingThroughout(s, es, j) && Waiting(s, j)
    ensures Overtakings(s, es, j) <= |Ahead(s, j)|
    decreases es
  {
    if es != [] {
      StepKeepsRank(s, es[0], j);
      StepKeepsConsistency(s, es[0]);
      StepEvolves(s, es[0]);
      ClaimFairness(Apply(s, es[0]), es[1..], j);
    }
  }

  /** With nobody ahead, the next claim of the stage takes the waiting job. */
  lemma FirstInLineIsNext(s: State, w: nat, k: nat, j: nat)
    requires Waiting(s, j) && Ahead(s, j) == {}
    requires Enabled(s, Claim(w, k)) && s.jobs[k].stage == s.jobs[j].stage
    ensures k == j
  {
    assert s.jobs[j].Due(s.jobs[j].stage, s.now);
    var ahead := Ahead(s, j);
    assert k != j ==> k in ahead;
  }
}
