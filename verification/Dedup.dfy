/** Uploads never store the same content twice, and a name has one document in use. */
module Dedup {
  import opened Prelude
  import opened JobQueue
  import opened Pipeline
  import opened Consistency
  import opened Ownership
  import H = HandOff

  ghost predicate DistinctContent(s: State) {
    forall a, b | a in s.docs && b in s.docs && a != b ::
      s.docs[a].tenant != s.docs[b].tenant || s.docs[a].checksum != s.docs[b].checksum
  }

  ghost predicate OnePerName(s: State) {
    forall a, b | InUse(s, a) && InUse(s, b) && a != b ::
      s.docs[a].tenant != s.docs[b].tenant || s.docs[a].filename != s.docs[b].filename
  }

  /** Nobody has asked for the document to be purged. */
  predicate InUse(s: State, d: nat) {
    d in s.docs && d !in s.purgeRequested
  }

  ghost predicate Inv(s: State) {
    && DistinctContent(s) && OnePerName(s) && H.NoneDeleted(s)
    && (forall d | InUse(s, d) :: s.docs[d].status != Deleting)
    && (forall d | d in s.purgeRequested :: d < s.nextDoc)
  }

  /** No document is added, none changes its owner, name or content, and only a purge
      request writes 'deleting'. */
  ghost predicate DocsEvolve(s: State, s1: State) {
    && s1.nextDoc == s.nextDoc && s.purgeRequested <= s1.purgeRequested
    && (forall d | d in s1.purgeRequested :: d in s.purgeRequested || d in s.docs)
    && forall d | d in s1.docs ::
      && d in s.docs
      && s1.docs[d].tenant == s.docs[d].tenant && s1.docs[d].filename == s.docs[d].filename
      && s1.docs[d].checksum == s.docs[d].checksum
      && (s1.docs[d].status == Deleting ==> s.docs[d].status == Deleting || d in s1.purgeRequested)
      && s1.docs[d].status != Deleted
  }

  lemma PerformEvolvesDocs(s: State, op: Op, k: Worker)
    requires H.NoneDeleted(s) && op != OpStatus(Deleted) && op != OpStatus(Deleting)
    requires op.OpInsert? ==> k.doc in s.docs
    ensures DocsEvolve(s, Perform(s, op, k.job, k.doc))
  {
    var t := Perform(s, op, k.job, k.doc);
    if op.OpStatus? {
      StatusEvolvesDocs(s, t, k.doc, op.status);
    } else if op.OpInsert? {
      StatusEvolvesDocs(s, t, k.doc, Chunked);
    } else if op.OpVectorIds? && AllPresent(s, op.rows) {
      StatusEvolvesDocs(s, t, k.doc, Embedded);
    } else {
      assert forall d | d in t.docs :: d in s.docs && t.docs[d] == s.docs[d];
    }
  }

  lemma StatusEvolvesDocs(s: State, t: State, doc: nat, status: DocStatus)
    requires H.NoneDeleted(s) && status != Deleted && status != Deleting
    requires t.docs == WithStatus(s.docs, doc, status)
    requires t.nextDoc == s.nextDoc && t.purgeRequested == s.purgeRequested
    ensures DocsEvolve(s, t)
  {
  }

  lemma NonUploadEvolvesDocs(s: State, e: Event)
    requires H.NoneDeleted(s) && Enabled(s, e) && !e.UploadRequest?
    ensures DocsEvolve(s, Apply(s, e))
  {
    if e.Commit? {
      PerformEvolvesDocs(s, OpAt(s.workers[e.w].pc), s.workers[e.w]);
    } else if e.Raise? {
      PerformEvolvesDocs(s, if e.late then OpAt(s.workers[e.w].pc) else OpUpsert(e.written), s.workers[e.w]);
    }
  }

  lemma EvolvingKeepsInv(s: State, s1: State)
    requires Inv(s) && FreshIds(s) && DocsEvolve(s, s1)
    ensures Inv(s1)
  {
    assert forall d | InUse(s1, d) :: InUse(s, d);
  }

  /** A new document joins when its content is new and no document in use has its name. */
  lemma AddingKeepsInv(s: State, tenant: string, filename: string, checksum: string)
    requires Inv(s) && FreshIds(s)
    requires SameContent(s, tenant, checksum) == {}
    requires forall d | d in SameName(s, tenant, filename) :: d in s.purgeRequested
    ensures Inv(AddDocument(s, tenant, filename, checksum))
  {
    var s1 := AddDocument(s, tenant, filename, checksum);
    forall d | d in s.docs
      ensures s.docs[d].tenant != tenant || s.docs[d].checksum != checksum
      ensures InUse(s, d) ==> s.docs[d].tenant != tenant || s.docs[d].filename != filename
    {
      assert d !in SameContent(s, tenant, checksum);
      assert InUse(s, d) ==> d !in SameName(s, tenant, filename);
    }
    assert forall d | InUse(s1, d) && d != s.nextDoc :: InUse(s, d);
  }

  lemma PlanKeepsInv(s: State, plan: UploadPlan, tenant: string, filename: string, checksum: string, fileStored: bool)
    requires Inv(s) && FreshIds(s)
    requires plan.Retry? ==> plan.doc in s.docs
    requires plan.Replace? ==> plan.previous in s.docs && SameName(s, tenant, filename) == {plan.previous}
    requires plan.Add? ==> SameName(s, tenant, filename) == {}
    requires plan.Add? || plan.Replace? ==> SameContent(s, tenant, checksum) == {}
    ensures Inv(FollowPlan(s, plan, tenant, filename, checksum, fileStored))
  {
    match plan
    case Ignore =>
    case Retry(d) => EvolvingKeepsInv(s, Requeue(s, d));
    case Add =>
      if fileStored {
        AddingKeepsInv(s, tenant, filename, checksum);
      }
    case Replace(d) =>
      assert d in SameName(s, tenant, filename);
      assert s.docs[d].checksum != checksum by {
        assert d !in SameContent(s, tenant, checksum);
      }
      var s1 := RequestPurge(s, d);
      EvolvingKeepsInv(s, s1);
      assert SameContent(s1, tenant, checksum) <= SameContent(s, tenant, checksum);
      assert SameName(s1, tenant, filename) <= SameName(s, tenant, filename);
      if fileStored {
        AddingKeepsInv(s1, tenant, filename, checksum);
      }
  }

  lemma StepKeepsInv(s: State, e: Event)
    requires Inv(s) && Consistent(s) && Enabled(s, e)
    ensures Inv(Apply(s, e))
  {
    if e.UploadRequest? {
      PlanKeepsInv(s, PlanUpload(s, e.tenant, e.filename, e.checksum), e.tenant, e.filename, e.checksum, e.fileStored);
    } else {
      NonUploadEvolvesDocs(s, e);
      EvolvingKeepsInv(s, Apply(s, e));
    }
  }

  lemma {:induction false} RunKeepsInv(s: State, es: seq<Event>)
    requires Inv(s) && Consistent(s) && CanRun(s, es)
    ensures Inv(Run(s, es))
    decreases es
  {
    if es != [] {
      StepKeepsInv(s, es[0]);
      StepKeepsConsistency(s, es[0]);
      RunKeepsInv(Apply(s, es[0]), es[1..]);
    }
  }

  /** In every reachable state two documents of a tenant differ in content, and two
      documents that nobody asked to purge differ in name. */
  lemma DocumentsAreDistinct(s: State, a: nat, b: nat)
    requires Reachable(s) && a in s.docs && b in s.docs && a != b
    requires s.docs[a].tenant == s.docs[b].tenant
    ensures s.docs[a].checksum != s.docs[b].checksum
    ensures a !in s.purgeRequested && b !in s.purgeRequested ==> s.docs[a].filename != s.docs[b].filename
  {
    var s0, es :| Init(s0) && CanRun(s0, es) && Run(s0, es) == s;
    RunKeepsInv(s0, es);
  }
}
