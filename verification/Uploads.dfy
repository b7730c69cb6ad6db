/**
 What an upload request does in a reachable state, and when it is turned away.

 Both queries of upload_document ask for at most one row and raise when they find more
 (app/api/routes/ingest.py:107, :169).  The first never does; the second can.
 */
module Uploads {
  import opened Prelude
  import opened JobQueue
  import opened Pipeline
  import opened Runs
  import Ownership
  import D = Dedup

  /** Content that is stored already belongs to one document: it is requeued exactly when
      it failed.  New content is turned away exactly when several documents carry its
      file name, all but one of them asked to be purged; otherwise it is added, in place
      of the one document that has the name. */
  lemma UploadOutcome(s: State, tenant: string, filename: string, checksum: string)
    requires Reachable(s)
    ensures var plan := PlanUpload(s, tenant, filename, checksum);
      var same, named := SameContent(s, tenant, checksum), SameName(s, tenant, filename);
      && (forall d | d in same :: same == {d} && plan == if FailedStatus(s.docs[d].status) then Retry(d) else Ignore)
      && (same == {} ==> (plan == Ignore <==> |named| >= 2))
      && (same == {} ==> (plan == Add <==> named == {}))
      && (forall d | same == {} && d in named && |named| == 1 :: plan == Replace(d))
      && (forall a, b | a in named && b in named && a != b :: a in s.purgeRequested || b in s.purgeRequested)
  {
    var same, named := SameContent(s, tenant, checksum), SameName(s, tenant, filename);
    forall a, b | a in s.docs && b in s.docs && a != b && s.docs[a].tenant == s.docs[b].tenant
      ensures s.docs[a].checksum != s.docs[b].checksum
      ensures a !in s.purgeRequested && b !in s.purgeRequested ==> s.docs[a].filename != s.docs[b].filename
    {
      D.DocumentsAreDistinct(s, a, b);
    }
    forall d | d in same ensures same == {d} {
      assert forall x | x in same :: x == d;
    }
    OneOrMore(named);
  }

  lemma OneOrMore(ids: set<nat>)
    ensures |ids| >= 2 <==> ids != {} && forall d :: ids != {d}
    ensures forall d | d in ids && |ids| == 1 :: ids == {d}
  {
    if ids != {} {
      var d := SomeMember(ids);
      assert ids == {d} + (ids - {d});
      if ids != {d} {
        assert ids - {d} != {};
      }
      forall x | x in ids && |ids| == 1 ensures ids == {x} {
        SubsetSize({x}, ids);
      }
    }
  }

  /** A worker that writes its status over 'deleting' makes the replaced document count
      as one in use again, and a third version of the file is turned away. */
  lemma ThirdVersionTurnedAway(m: nat)
    requires m >= 1
    ensures exists s :: Reachable(s) && s.maxAttempts == m && TurnsAway(s, "tenant", "name", "third")
  {
    var s := TwoVersions(ReachableStates(), m);
    assert Reachable(s) && s.maxAttempts == m;
    UploadOutcome(s, "tenant", "name", "third");
    SubsetSize({0, 1}, SameName(s, "tenant", "name"));
    assert TurnsAway(s, "tenant", "name", "third");
  }

  /** The content is new and the request has no effect all the same. */
  ghost predicate TurnsAway(s: State, tenant: string, filename: string, checksum: string) {
    SameContent(s, tenant, checksum) == {} && PlanUpload(s, tenant, filename, checksum) == Ignore
  }

  lemma TwoVersions(R: iset<State>, m: nat) returns (t: State)
    requires Closed(R) && m >= 1
    ensures t in R && t.maxAttempts == m && SameContent(t, "tenant", "third") == {}
      && {0, 1} <= SameName(t, "tenant", "name")
  {
    var s := FirstVersionReplaced(R, m);
    StepStays(R, s, Commit(0));
    t := Apply(s, Commit(0));
    assert t.docs.Keys == {0, 1};
  }

  lemma FirstVersionReplaced(R: iset<State>, m: nat) returns (t: State)
    requires Closed(R) && m >= 1
    ensures t in R && t.maxAttempts == m && t.workers == map[0 := Worker(0, 0, StatusParsing)]
    ensures t.docs ==
      map[0 := Doc("tenant", "name", "first", Deleting), 1 := Doc("tenant", "name", "second", DocPending)]
  {
    var s := FirstVersionBusy(R, m);
    SecondReplacesFirst(s);
    StepStays(R, s, UploadRequest("tenant", "name", "second", true));
    t := Apply(s, UploadRequest("tenant", "name", "second", true));
  }

  lemma SecondReplacesFirst(s: State)
    requires s.docs == map[0 := Doc("tenant", "name", "first", DocPending)]
    ensures Upload(s, "tenant", "name", "second", true) == AddDocument(RequestPurge(s, 0), "tenant", "name", "second")
  {
    assert SameContent(s, "tenant", "second") == {} && 0 in SameName(s, "tenant", "name");
    assert SameName(s, "tenant", "name") == {0};
  }

  /** The ingest worker of document 0 is about to write its status. */
  lemma FirstVersionBusy(R: iset<State>, m: nat) returns (t: State)
    requires Closed(R) && m >= 1
    ensures t in R && t.maxAttempts == m && t.phase == Up && t.nextDoc == 1
    ensures t.docs == map[0 := Doc("tenant", "name", "first", DocPending)]
    ensures t.workers == map[0 := Worker(0, 0, StatusParsing)]
  {
    var s := FirstUpload(R, m, "tenant", "name", "first");
    StepStays(R, s, Claim(0, 0));
    var s1 := Apply(s, Claim(0, 0));
    StepStays(R, s1, Commit(0));
    t := Apply(s1, Commit(0));
  }
}
