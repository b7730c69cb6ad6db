/** What the requests do to the tables, row by row. */
module Requests {
  import opened Prelude
  import opened JobQueue
  import opened Pipeline

  /** The content is there already. */
  predicate Stores(doc: Doc, tenant: string, checksum: string) {
    doc.tenant == tenant && doc.checksum == checksum && doc.status != Deleted
  }

  /** The file name is in use. */
  predicate Named(doc: Doc, tenant: string, filename: string) {
    doc.tenant == tenant && doc.filename == filename && doc.status != Deleted && doc.status != Deleting
  }

  /** The document starts over: status and the four stages after the upload are pending,
      and there is a new ingest job. */
  ghost predicate StartsOver(s: State, t: State, d: nat) {
    && d in s.docs
    && t == s.(docs := s.docs[d := s.docs[d].(status := DocPending)],
               stages := s.stages[(d, ParseStage) := StagePending][(d, ChunkStage) := StagePending]
                                 [(d, EmbedStage) := StagePending][(d, IndexStage) := StagePending],
               jobs := s.jobs[s.nextJob := Job(d, Ingest, Pending, 0, s.maxAttempts, s.now, None, s.now)],
               nextJob := s.nextJob + 1)
  }

  /** The document is 'deleting', and there is a purge job. */
  ghost predicate IsToGo(s: State, t: State, d: nat) {
    && d in s.docs
    && t == s.(docs := s.docs[d := s.docs[d].(status := Deleting)],
               jobs := s.jobs[s.nextJob := Job(d, Purge, Pending, 0, s.maxAttempts, s.now, None, s.now)],
               nextJob := s.nextJob + 1,
               purgeRequested := s.purgeRequested + {d})
  }

  /** A pending document under a new id, its upload done, with an ingest job. */
  ghost predicate IsNew(s: State, t: State, tenant: string, filename: string, checksum: string) {
    t == s.(docs := s.docs[s.nextDoc := Doc(tenant, filename, checksum, DocPending)],
            stages := s.stages[(s.nextDoc, UploadStage) := StageDone],
            jobs := s.jobs[s.nextJob := Job(s.nextDoc, Ingest, Pending, 0, s.maxAttempts, s.now, None, s.now)],
            nextDoc := s.nextDoc + 1, nextJob := s.nextJob + 1)
  }

  lemma RequeueStartsOver(s: State, d: nat)
    requires d in s.docs
    ensures StartsOver(s, Requeue(s, d), d)
  {
  }

  lemma PurgeRequestGoes(s: State, d: nat)
    requires d in s.docs
    ensures IsToGo(s, RequestPurge(s, d), d)
  {
  }

  lemma AddedIsNew(s: State, tenant: string, filename: string, checksum: string)
    ensures IsNew(s, AddDocument(s, tenant, filename, checksum), tenant, filename, checksum)
  {
  }

  // ---- Uploads -------------------------------------------------------------

  /** Several documents answer one of the queries, which raises then. */
  ghost predicate StoredTwice(s: State, tenant: string, checksum: string) {
    exists a, b | a in s.docs && b in s.docs && a != b ::
      Stores(s.docs[a], tenant, checksum) && Stores(s.docs[b], tenant, checksum)
  }

  ghost predicate NamedTwice(s: State, tenant: string, filename: string) {
    exists a, b | a in s.docs && b in s.docs && a != b ::
      Named(s.docs[a], tenant, filename) && Named(s.docs[b], tenant, filename)
  }

  /** Content that is stored starts over when its one document has failed, and is ignored
      otherwise. */
  lemma StoredContent(s: State, tenant: string, filename: string, checksum: string, fileStored: bool, d: nat)
    requires d in s.docs && Stores(s.docs[d], tenant, checksum)
    ensures var t := Upload(s, tenant, filename, checksum, fileStored);
      if !StoredTwice(s, tenant, checksum) && s.docs[d].status in {DocError, ParseFailed, ChunkFailed, EmbedFailed}
      then StartsOver(s, t, d)
      else t == s
  {
    var same, plan := SameContent(s, tenant, checksum), PlanUpload(s, tenant, filename, checksum);
    assert d in same;
    if StoredTwice(s, tenant, checksum) {
      var a, b :| a in s.docs && b in s.docs && a != b
        && Stores(s.docs[a], tenant, checksum) && Stores(s.docs[b], tenant, checksum);
      assert a in same && b in same;
    } else {
      assert forall x | x in same :: x == d;
      assert same == {d};
      RequeueStartsOver(s, d);
    }
  }

  /** New content under a new name is added, if its file could be stored. */
  lemma NewName(s: State, tenant: string, filename: string, checksum: string, fileStored: bool)
    requires forall d | d in s.docs :: !Stores(s.docs[d], tenant, checksum) && !Named(s.docs[d], tenant, filename)
    ensures var t := Upload(s, tenant, filename, checksum, fileStored);
      if fileStored then IsNew(s, t, tenant, filename, checksum) else t == s
  {
    assert SameContent(s, tenant, checksum) == {} && SameName(s, tenant, filename) == {};
    AddedIsNew(s, tenant, filename, checksum);
  }

  /** New content under a name in use: the one document with the name is to go, and the new
      one is added if its file could be stored; with several such documents nothing happens. */
  lemma NameInUse(s: State, tenant: string, filename: string, checksum: string, fileStored: bool, d: nat)
    requires forall x | x in s.docs :: !Stores(s.docs[x], tenant, checksum)
    requires d in s.docs && Named(s.docs[d], tenant, filename)
    ensures var t := Upload(s, tenant, filename, checksum, fileStored);
      if NamedTwice(s, tenant, filename) then t == s
      else
        exists mid :: IsToGo(s, mid, d) && if fileStored then IsNew(mid, t, tenant, filename, checksum) else t == mid
  {
    var named, plan := SameName(s, tenant, filename), PlanUpload(s, tenant, filename, checksum);
    assert SameContent(s, tenant, checksum) == {} && d in named;
    if NamedTwice(s, tenant, filename) {
      var a, b :| a in s.docs && b in s.docs && a != b
        && Named(s.docs[a], tenant, filename) && Named(s.docs[b], tenant, filename);
      assert a in named && b in named;
    } else {
      assert forall x | x in named :: x == d;
      assert named == {d} && plan == Replace(d);
      PurgeRequestGoes(s, d);
      AddedIsNew(RequestPurge(s, d), tenant, filename, checksum);
    }
  }

  /** The three cases together. */
  ghost predicate Uploaded(s: State, t: State, tenant: string, filename: string, checksum: string, fileStored: bool) {
    && (forall d | d in s.docs && Stores(s.docs[d], tenant, checksum) ::
          if !StoredTwice(s, tenant, checksum) && s.docs[d].status in {DocError, ParseFailed, ChunkFailed, EmbedFailed}
          then StartsOver(s, t, d)
          else t == s)
    && ((forall d | d in s.docs :: !Stores(s.docs[d], tenant, checksum)) ==>
          NewContentUploaded(s, t, tenant, filename, checksum, fileStored))
  }

  ghost predicate NewContentUploaded(s: State, t: State, tenant: string, filename: string, checksum: string,
                                     fileStored: bool) {
    && (forall d | d in s.docs && Named(s.docs[d], tenant, filename) ::
          if NamedTwice(s, tenant, filename) then t == s
          else
            exists mid :: IsToGo(s, mid, d)
              && if fileStored then IsNew(mid, t, tenant, filename, checksum) else t == mid)
    && ((forall d | d in s.docs :: !Named(s.docs[d], tenant, filename)) ==>
          if fileStored then IsNew(s, t, tenant, filename, checksum) else t == s)
  }

  lemma UploadDoes(s: State, tenant: string, filename: string, checksum: string, fileStored: bool)
    ensures Uploaded(s, Upload(s, tenant, filename, checksum, fileStored), tenant, filename, checksum, fileStored)
  {
    var t := Upload(s, tenant, filename, checksum, fileStored);
    if forall d | d in s.docs :: !Stores(s.docs[d], tenant, checksum) {
      NewContentDoes(s, tenant, filename, checksum, fileStored);
    } else {
      forall d | d in s.docs && Stores(s.docs[d], tenant, checksum)
        ensures
          if !StoredTwice(s, tenant, checksum) && s.docs[d].status in {DocError, ParseFailed, ChunkFailed, EmbedFailed}
          then StartsOver(s, t, d)
          else t == s
      {
        StoredContent(s, tenant, filename, checksum, fileStored, d);
      }
    }
  }

  lemma NewContentDoes(s: State, tenant: string, filename: string, checksum: string, fileStored: bool)
    requires forall d | d in s.docs :: !Stores(s.docs[d], tenant, checksum)
    ensures NewContentUploaded(s, Upload(s, tenant, filename, checksum, fileStored), tenant, filename, checksum,
                               fileStored)
  {
    var t := Upload(s, tenant, filename, checksum, fileStored);
    if forall d | d in s.docs :: !Named(s.docs[d], tenant, filename) {
      NewName(s, tenant, filename, checksum, fileStored);
    } else {
      forall d | d in s.docs && Named(s.docs[d], tenant, filename)
        ensures
          if NamedTwice(s, tenant, filename) then t == s
          else
            exists mid :: IsToGo(s, mid, d)
              && if fileStored then IsNew(mid, t, tenant, filename, checksum) else t == mid
      {
        NameInUse(s, tenant, filename, checksum, fileStored, d);
      }
    }
  }
}
