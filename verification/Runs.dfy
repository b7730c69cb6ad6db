/** Sets of states that contain the initial states and that no step leaves: a way to
    speak of runs without their events. */
module Runs {
  import opened Pipeline

  ghost predicate Closed(R: iset<State>) {
    && (forall s {:trigger Init(s)} | Init(s) :: s in R)
    && forall s, e {:trigger Apply(s, e)} | s in R && Enabled(s, e) :: Apply(s, e) in R
  }

  lemma StepStays(R: iset<State>, s: State, e: Event)
    requires Closed(R) && s in R && Enabled(s, e)
    ensures Apply(s, e) in R
  {
  }

  ghost function ReachableStates(): (R: iset<State>)
    ensures Closed(R)
    ensures forall s :: s in R <==> Reachable(s)
  {
    assert forall s | Init(s) :: CanRun(s, []) && Run(s, []) == s;
    assert forall s, e | Reachable(s) && Enabled(s, e) :: Reachable(Apply(s, e)) by {
      forall s, e | Reachable(s) && Enabled(s, e) ensures Reachable(Apply(s, e)) {
        StepIsReachable(s, e);
      }
    }
    iset s | Reachable(s)
  }

  lemma StepIsReachable(s: State, e: Event)
    requires Reachable(s) && Enabled(s, e)
    ensures Reachable(Apply(s, e))
  {
    var s0, es :| Init(s0) && CanRun(s0, es) && Run(s0, es) == s;
    RunOneMore(s0, es, e);
  }

  lemma {:induction false} RunOneMore(s: State, es: seq<Event>, e: Event)
    requires CanRun(s, es) && Enabled(Run(s, es), e)
    ensures CanRun(s, es + [e]) && Run(s, es + [e]) == Apply(Run(s, es), e)
    decreases es
  {
    if es == [] {
      assert [e][1..] == [];
    } else {
      RunOneMore(Apply(s, es[0]), es[1..], e);
      assert (es + [e])[1..] == es[1..] + [e];
    }
  }

  /** A server that has just started on an empty database; jobs get m attempts. */
  function Started(m: nat): State {
    State(Up, 0, m, map[], map[], map[], map[], map[], map[], 0, 0, 0, {}, map[])
  }

  lemma FirstUpload(R: iset<State>, m: nat, tenant: string, filename: string, checksum: string) returns (t: State)
    requires Closed(R) && m >= 1
    ensures t in R && t == AddDocument(Started(m), tenant, filename, checksum)
  {
    var s0 := Started(m).(phase := Down);
    assert Init(s0);
    StepStays(R, s0, Recover);
    var s1 := Apply(s0, Recover);
    assert s1 == s0.(phase := Recovering);
    StepStays(R, s1, Cleanup);
    var s2 := Apply(s1, Cleanup);
    assert s2 == Started(m);
    assert SameContent(s2, tenant, checksum) == {} && SameName(s2, tenant, filename) == {};
    var e := UploadRequest(tenant, filename, checksum, true);
    StepStays(R, s2, e);
    t := Apply(s2, e);
  }
}
