/**
 The request handlers and the worker procedures as the imperative code they are, each
 statement a method that may be interleaved with everybody else's and may raise.

 A procedure leaves a trail: the events that took the database from where it was to
 where it is, its own and everybody else's, and the statements it has executed itself.
 The contracts say that the events are a run of the protocol, and spell out the
 statements, one after another.
 */
module Server {
  import opened Prelude
  import opened JobQueue
  import opened Pipeline
  import opened Effects
  import opened Requests
  import opened Trails

  /** Reads that steer a procedure. */
  predicate Steers(pc: Pc) {
    pc == Fetch || pc == MakeChunks || pc == Guard || pc == ReadChunks || pc.StoreVectorIds?
  }

  lemma AfterIsFixed(s: State, t: State, k: Worker)
    requires !Steers(k.pc)
    ensures After(s, k) == After(t, k)
  {
  }

  class Server {
    var db: State
    /** What happened since the procedure at hand began. */
    ghost var events: seq<Event>
    ghost var log: seq<Statement>

    ghost function Now(): Trail
      reads this
    {
      Trail(db, events, log)
    }

    predicate At(w: nat, k: Worker)
      reads this
    {
      w in db.workers && db.workers[w] == k
    }

    /** Worker w has gone on to pc, or returned. */
    predicate Stands(w: nat, k: Worker, pc: Option<Pc>)
      reads this
    {
      if pc.Some? then At(w, k.(pc := pc.value)) else w !in db.workers
    }

    // ---- Requests ----------------------------------------------------------

    method UploadDocument(tenant: string, filename: string, checksum: string, fileStored: bool)
      requires db.phase == Up
      modifies this
      ensures db == Apply(old(db), UploadRequest(tenant, filename, checksum, fileStored))
      ensures Uploaded(old(db), db, tenant, filename, checksum, fileStored)
    {
      UploadDoes(db, tenant, filename, checksum, fileStored);
      var duplicates := SameContent(db, tenant, checksum);
      if duplicates != {} {
        if exists d | d in duplicates :: duplicates == {d} && FailedStatus(db.docs[d].status) {
          var d :| d in duplicates && duplicates == {d};
          db := Requeue(db, d);
        }
        return;
      }
      var namesakes := SameName(db, tenant, filename);
      if namesakes != {} {
        if !exists d | d in namesakes :: namesakes == {d} {
          return;
        }
        var d :| d in namesakes && namesakes == {d};
        if db.docs[d].checksum != checksum {
          MarkForPurge(d);
        }
      }
      if fileStored {
        db := AddDocument(db, tenant, filename, checksum);
      }
    }

    /** Status 'deleting' first, then the purge job. */
    method MarkForPurge(d: nat)
      modifies this
      ensures db == RequestPurge(old(db), d)
    {
      db := WriteStatus(db, d, Deleting).(purgeRequested := db.purgeRequested + {d});
      db := AddJob(db, d, Purge);
    }

    /** 404 and no effect unless the document is there and not 'deleted'. */
    method DeleteDocument(d: nat) returns (accepted: bool)
      requires db.phase == Up
      modifies this
      ensures accepted <==> d in old(db).docs && old(db).docs[d].status != Deleted
      ensures accepted ==> Enabled(old(db), DeleteRequest(d)) && db == Apply(old(db), DeleteRequest(d))
      ensures accepted ==> IsToGo(old(db), db, d)
      ensures !accepted ==> db == old(db)
    {
      accepted := d in db.docs && db.docs[d].status != Deleted;
      if accepted {
        MarkForPurge(d);
      }
    }

    /** Likewise; the stages are reset one by one before the ingest job is enqueued. */
    method ReprocessDocument(d: nat) returns (accepted: bool)
      requires db.phase == Up
      modifies this
      ensures accepted <==> d in old(db).docs && old(db).docs[d].status != Deleted
      ensures accepted ==> Enabled(old(db), ReprocessRequest(d)) && db == Apply(old(db), ReprocessRequest(d))
      ensures accepted ==> StartsOver(old(db), db, d)
      ensures !accepted ==> db == old(db)
    {
      accepted := d in db.docs && db.docs[d].status != Deleted;
      if accepted {
        db := WriteStatus(db, d, DocPending);
        db := WriteStage(db, d, ParseStage, StagePending);
        db := WriteStage(db, d, ChunkStage, StagePending);
        db := WriteStage(db, d, EmbedStage, StagePending);
        db := WriteStage(db, d, IndexStage, StagePending);
        db := AddJob(db, d, Ingest);
      }
    }

    // ---- Statements --------------------------------------------------------

    /** Whatever the other workers and the requests do meanwhile. */
    method Others(w: nat, ghost T: iset<Trail>)
      requires Closed(T, w) && Now() in T && w in db.workers
      modifies this
      ensures Now() in T && At(w, old(db.workers[w])) && log == old(log)
    {
      var n: int := *;
      for i := 0 to if n < 0 then 0 else n
        invariant Now() in T && At(w, old(db.workers[w])) && log == old(log)
      {
        OneOther(w, T);
      }
    }

    /** At most one event, of somebody else. */
    method OneOther(w: nat, ghost T: iset<Trail>)
      requires Closed(T, w) && Now() in T && w in db.workers
      modifies this
      ensures Now() in T && At(w, old(db.workers[w])) && log == old(log)
    {
      var e: Event := *;
      if Enabled(db, e) && !BelongsTo(e, w) && !e.Crash? {
        OthersKeepWorker(db, e, w);
        ExtendStays(T, Now(), e, w);
        ghost var next := Extend(Now(), e, w);
        db := Apply(db, e);
        events, log := next.events, next.log;
      }
    }

    /** An event of the worker itself. */
    method Happen(w: nat, e: Event, ghost T: iset<Trail>)
      requires Closed(T, w) && Now() in T && Enabled(db, e) && BelongsTo(e, w) && w in db.workers
      modifies this
      ensures Now() in T && db == Apply(old(db), e)
      ensures log == old(log) + StatementOf(old(db), e, w)
    {
      ghost var next := Extend(Now(), e, w);
      db := Apply(db, e);
      events, log := next.events, next.log;
    }

    /** The statement raises: control is in the handler, or the procedure is left. */
    method Fail(w: nat, k: Worker, ghost T: iset<Trail>)
      requires Closed(T, w) && Now() in T && At(w, k)
      modifies this
      ensures Now() in T && Stands(w, k, OnRaise(k.pc)) && log == old(log) + [Raised(OpAt(k.pc))]
    {
      var written: set<nat> := *;
      var late: bool := *;
      var e := Raise(w, written, late);
      if !Enabled(db, e) {
        e := Raise(w, {}, false);
      }
      Happen(w, e, T);
    }

    /** One statement: others run, then it takes effect or raises. */
    method Do(w: nat, k: Worker, op: Op, ghost T: iset<Trail>) returns (ok: bool)
      requires Closed(T, w) && Now() in T && At(w, k) && OpAt(k.pc) == op && !Steers(k.pc)
      modifies this
      ensures Now() in T && Stands(w, k, if ok then After(old(db), k) else OnRaise(k.pc))
      ensures log == old(log) + [if ok then Did(op) else Raised(op)]
      ensures ok ==> Settled(db.jobs, k.job, op)
    {
      Others(w, T);
      AfterIsFixed(old(db), db, k);
      ok := *;
      ok := ok && (op.OpInsert? ==> k.doc in db.docs);
      if ok {
        Happen(w, Commit(w), T);
      } else {
        Fail(w, k, T);
      }
    }

    /** Parsing the file or chunking the text. */
    method Compute(w: nat, k: Worker, e: Event, ghost T: iset<Trail>) returns (ok: bool)
      requires Closed(T, w) && Now() in T && At(w, k)
      requires (e.Parsed? && e.w == w && k.pc == Fetch) || (e.Split? && e.w == w && k.pc == MakeChunks)
      modifies this
      ensures Now() in T && At(w, k.(pc := if ok then ResultPc(e) else IngestErrorStage))
      ensures log == old(log) + [if ok then Did(OpNone) else Raised(OpNone)]
    {
      Others(w, T);
      ok := *;
      if ok {
        Happen(w, e, T);
      } else {
        Fail(w, k, T);
      }
    }

    /** A query of the embed worker, or its update of the vector ids: the answer decides
        where it goes on. */
    method Query(w: nat, k: Worker, ghost T: iset<Trail>) returns (ok: bool, next: Pc)
      requires Closed(T, w) && Now() in T && At(w, k)
      requires k.pc == Guard || k.pc == ReadChunks || k.pc.StoreVectorIds?
      modifies this
      ensures Now() in T && At(w, k.(pc := if ok then next else EmbedErrorStage))
      ensures log == old(log) + [if ok then Did(OpAt(k.pc)) else Raised(OpAt(k.pc))]
      ensures ok ==> Answers(k.pc, next)
    {
      Others(w, T);
      ok := *;
      next := EmbedErrorStage;
      if ok {
        next := After(db, k).value;
        Happen(w, Commit(w), T);
      } else {
        Fail(w, k, T);
      }
    }

    // ---- Exits -------------------------------------------------------------

    /** The failed stage row, then the failure status. */
    method Record(w: nat, k: Worker, name: StageName, status: DocStatus, ghost T: iset<Trail>) returns (ok: bool)
      requires Closed(T, w) && Now() in T && At(w, k)
      requires Reports(k.pc) && OpAt(k.pc) == OpStage(name, StageFailed) && OpAt(StatusPc(k.pc)) == OpStatus(status)
      modifies this
      ensures Now() in T && Stands(w, k, if ok then Some(LastPc(k.pc)) else OnRaise(k.pc))
      ensures Follows(old(log), log, [OpStage(name, StageFailed), OpStatus(status)], ok)
    {
      ReportSteps(db, k);
      ok := Do(w, k, OpStage(name, StageFailed), T);
      if ok {
        ReportSteps(db, k);
        ok := Do(w, k.(pc := StatusPc(k.pc)), OpStatus(status), T);
      }
    }

    /** The work cannot be done by trying again: the failed row and the status are written
        before the ack. */
    method Abandon(w: nat, k: Worker, name: StageName, status: DocStatus, ghost T: iset<Trail>) returns (ok: bool)
      requires Closed(T, w) && Now() in T && At(w, k)
      requires
        || (k.pc == EmptyStage && name == ParseStage && status == ParseFailed)
        || (k.pc == NoChunksStage && name == ChunkStage && status == ChunkFailed)
        || (k.pc == NoRowsStage && name == EmbedStage && status == EmbedFailed)
      modifies this
      ensures Now() in T && Stands(w, k, if ok then None else OnRaise(k.pc))
      ensures Follows(old(log), log, AbandonPlan(name, status), ok)
      ensures ok ==> Settled(db.jobs, k.job, OpAck)
    {
      ok := Record(w, k, name, status, T);
      if ok {
        ok := Do(w, k.(pc := LastPc(k.pc)), OpAck, T);
      }
    }

    /** The next stage gets its job before this one is acked. */
    method HandOn(w: nat, k: Worker, next: Stage, ghost T: iset<Trail>) returns (ok: bool)
      requires Closed(T, w) && Now() in T && At(w, k)
      requires (k.pc == EnqueueEmbed && next == Embed) || (k.pc == EnqueueIndex && next == Index)
      modifies this
      ensures Now() in T && Stands(w, k, if ok then None else OnRaise(k.pc))
      ensures Follows(old(log), log, [OpHandOff(next), OpAck], ok)
      ensures ok ==> Settled(db.jobs, k.job, OpAck)
    {
      ok := Do(w, k, OpHandOff(next), T);
      if ok {
        ok := Do(w, db.workers[w], OpAck, T);
      }
    }

    /** The except block of the ingest and embed workers: the failed row and the status are
        written before the nack, and nothing is acked. */
    method GiveBack(w: nat, k: Worker, name: StageName, status: DocStatus, ghost T: iset<Trail>) returns (exit: Exit)
      requires Closed(T, w) && Now() in T && At(w, k)
      requires
        || (k.pc == IngestErrorStage && name == ParseStage && status == DocError)
        || (k.pc == EmbedErrorStage && name == EmbedStage && status == EmbedFailed)
      modifies this
      ensures Now() in T && w !in db.workers && Ended(db.jobs, k.job, exit) && exit != WasAcked
      ensures Follows(old(log), log, GiveBackPlan(name, status), exit == WasNacked)
    {
      var ok := Record(w, k, name, status, T);
      if ok {
        ok := Do(w, k.(pc := LastPc(k.pc)), OpNack, T);
      }
      exit := if ok then WasNacked else Escaped;
    }

    // ---- ingest_worker -----------------------------------------------------

    /** blank and texts are what parsing and chunking this document give. */
    method ProcessIngestJob(w: nat, k: Worker, blank: bool, texts: seq<string>) returns (exit: Exit)
      requires At(w, k) && k.pc == ParseProcessing
      modifies this
      ensures RanFrom(old(db), Now(), w) && w !in db.workers && Ended(db.jobs, k.job, exit)
      ensures Handled(log, IngestPlan(blank, texts), GiveBackPlan(ParseStage, DocError), exit)
    {
      events, log := [], [];
      ghost var T := TrailsFrom(db, w);
      var ok := TryIngest(w, k, blank, texts, T);
      exit := WasAcked;
      if !ok {
        exit := GiveBack(w, k.(pc := IngestErrorStage), ParseStage, DocError, T);
      }
    }

    /** The tabular path: one text, the summary of the table. */
    method ProcessTabularJob(w: nat, k: Worker, summary: string) returns (exit: Exit)
      requires At(w, k) && k.pc == ParseProcessing
      modifies this
      ensures RanFrom(old(db), Now(), w) && w !in db.workers && Ended(db.jobs, k.job, exit)
      ensures Handled(log, ParsePlan() + (ChunkPlan() + StorePlan([summary])), GiveBackPlan(ParseStage, DocError), exit)
    {
      events, log := [], [];
      ghost var T := TrailsFrom(db, w);
      var ok := Parse(w, k, false, T);
      if ok {
        ghost var parsed := log;
        ok := ChunkAndStore(w, k.(pc := ParseDone), [summary], T);
        FollowsOn([], parsed, log, ParsePlan(), ChunkPlan() + StorePlan([summary]), ok);
      } else {
        FailsEarly([], log, ParsePlan(), ChunkPlan() + StorePlan([summary]));
      }
      exit := WasAcked;
      if !ok {
        exit := GiveBack(w, k.(pc := IngestErrorStage), ParseStage, DocError, T);
      }
    }

    /** The try block of the ingest worker; false when it raised. */
    method TryIngest(w: nat, k: Worker, blank: bool, texts: seq<string>, ghost T: iset<Trail>) returns (ok: bool)
      requires Closed(T, w) && Now() in T && At(w, k) && k.pc == ParseProcessing
      modifies this
      ensures Now() in T && Stands(w, k, if ok then None else Some(IngestErrorStage))
      ensures Follows(old(log), log, IngestPlan(blank, texts), ok)
      ensures ok ==> Settled(db.jobs, k.job, OpAck)
    {
      ghost var rest := IngestPlan(blank, texts)[|ParsePlan()|..];
      assert IngestPlan(blank, texts) == ParsePlan() + rest;
      ok := Parse(w, k, blank, T);
      if ok {
        ghost var parsed := log;
        if blank {
          ok := Abandon(w, k.(pc := EmptyStage), ParseStage, ParseFailed, T);
        } else {
          ok := ChunkAndStore(w, k.(pc := ParseDone), texts, T);
        }
        FollowsOn(old(log), parsed, log, ParsePlan(), rest, ok);
      } else {
        FailsEarly(old(log), log, ParsePlan(), rest);
      }
    }

    method Parse(w: nat, k: Worker, blank: bool, ghost T: iset<Trail>) returns (ok: bool)
      requires Closed(T, w) && Now() in T && At(w, k) && k.pc == ParseProcessing
      modifies this
      ensures Now() in T
      ensures At(w, k.(pc := if !ok then IngestErrorStage else if blank then EmptyStage else ParseDone))
      ensures Follows(old(log), log, ParsePlan(), ok)
    {
      ok := Do(w, k, OpStage(ParseStage, StageProcessing), T);
      if ok {
        ok := Do(w, k.(pc := StatusParsing), OpStatus(Parsing), T);
        if ok {
          ok := Compute(w, k.(pc := Fetch), Parsed(w, blank), T);
        }
      }
    }

    method ChunkAndStore(w: nat, k: Worker, texts: seq<string>, ghost T: iset<Trail>) returns (ok: bool)
      requires Closed(T, w) && Now() in T && At(w, k) && k.pc == ParseDone
      modifies this
      ensures Now() in T && Stands(w, k, if ok then None else Some(IngestErrorStage))
      ensures Follows(old(log), log,
                      ChunkPlan() + if texts == [] then AbandonPlan(ChunkStage, ChunkFailed) else StorePlan(texts), ok)
      ensures ok ==> Settled(db.jobs, k.job, OpAck)
    {
      ghost var rest := if texts == [] then AbandonPlan(ChunkStage, ChunkFailed) else StorePlan(texts);
      ok := Chunk(w, k, texts, T);
      if ok {
        ghost var chunked := log;
        if texts == [] {
          ok := Abandon(w, k.(pc := NoChunksStage), ChunkStage, ChunkFailed, T);
        } else {
          ok := Store(w, k.(pc := StoreChunks(texts)), texts, T);
        }
        FollowsOn(old(log), chunked, log, ChunkPlan(), rest, ok);
      } else {
        FailsEarly(old(log), log, ChunkPlan(), rest);
      }
    }

    method Chunk(w: nat, k: Worker, texts: seq<string>, ghost T: iset<Trail>) returns (ok: bool)
      requires Closed(T, w) && Now() in T && At(w, k) && k.pc == ParseDone
      modifies this
      ensures Now() in T
      ensures At(w, k.(pc := if ok then ResultPc(Split(w, texts)) else IngestErrorStage))
      ensures Follows(old(log), log, ChunkPlan(), ok)
    {
      ok := Do(w, k, OpStage(ParseStage, StageDone), T);
      if ok {
        ok := Do(w, k.(pc := ChunkProcessing), OpStage(ChunkStage, StageProcessing), T);
        if ok {
          ok := Compute(w, k.(pc := MakeChunks), Split(w, texts), T);
        }
      }
    }

    method Store(w: nat, k: Worker, texts: seq<string>, ghost T: iset<Trail>) returns (ok: bool)
      requires Closed(T, w) && Now() in T && At(w, k) && k.pc == StoreChunks(texts)
      modifies this
      ensures Now() in T && Stands(w, k, if ok then None else Some(IngestErrorStage))
      ensures Follows(old(log), log, StorePlan(texts), ok)
      ensures ok ==> Settled(db.jobs, k.job, OpAck)
    {
      ok := Do(w, k, OpInsert(texts), T);
      if ok {
        ok := FinishIngest(w, k.(pc := ChunkDone), T);
      }
    }

    method FinishIngest(w: nat, k: Worker, ghost T: iset<Trail>) returns (ok: bool)
      requires Closed(T, w) && Now() in T && At(w, k) && k.pc == ChunkDone
      modifies this
      ensures Now() in T && Stands(w, k, if ok then None else Some(IngestErrorStage))
      ensures Follows(old(log), log, [OpStage(ChunkStage, StageDone), OpHandOff(Embed), OpAck], ok)
      ensures ok ==> Settled(db.jobs, k.job, OpAck)
    {
      ok := Do(w, k, OpStage(ChunkStage, StageDone), T);
      if ok {
        ok := HandOn(w, k.(pc := EnqueueEmbed), Embed, T);
      }
    }

    // ---- embed_worker ------------------------------------------------------

    /** path tells the answers that the procedure got; after an exception it may not have
        got all of them. */
    method ProcessEmbedJob(w: nat, k: Worker) returns (exit: Exit, path: EmbedPath)
      requires At(w, k) && k.pc == Guard
      modifies this
      ensures RanFrom(old(db), Now(), w) && w !in db.workers && Ended(db.jobs, k.job, exit)
      ensures Handled(log, EmbedPlan(path), GiveBackPlan(EmbedStage, EmbedFailed), exit)
    {
      events, log := [], [];
      ghost var T := TrailsFrom(db, w);
      var ok;
      ok, path := TryEmbed(w, k, T);
      exit := WasAcked;
      if !ok {
        exit := GiveBack(w, k.(pc := EmbedErrorStage), EmbedStage, EmbedFailed, T);
      }
    }

    /** The try block of the embed worker; false when it raised. */
    method TryEmbed(w: nat, k: Worker, ghost T: iset<Trail>) returns (ok: bool, path: EmbedPath)
      requires Closed(T, w) && Now() in T && At(w, k) && k.pc == Guard
      modifies this
      ensures Now() in T && Stands(w, k, if ok then None else Some(EmbedErrorStage))
      ensures Follows(old(log), log, EmbedPlan(path), ok)
      ensures ok ==> Settled(db.jobs, k.job, OpAck)
    {
      var next;
      path := Skips;
      ok, next := Query(w, k, T);
      ghost var guarded := log;
      if ok && next == EmbedAck {
        ok := Do(w, k.(pc := EmbedAck), OpAck, T);
      } else if ok {
        ok, path := EmbedRows(w, k.(pc := EmbedProcessing), T);
        FollowsOn(old(log), guarded, log, [OpNone], LoadPlan() + RowsPlan(path), ok);
      }
    }

    method EmbedRows(w: nat, k: Worker, ghost T: iset<Trail>) returns (ok: bool, path: EmbedPath)
      requires Closed(T, w) && Now() in T && At(w, k) && k.pc == EmbedProcessing
      modifies this
      ensures Now() in T && Stands(w, k, if ok then None else Some(EmbedErrorStage))
      ensures path != Skips && Follows(old(log), log, LoadPlan() + RowsPlan(path), ok)
      ensures ok ==> Settled(db.jobs, k.job, OpAck)
    {
      var next;
      path := Empty;
      ok, next := Load(w, k, T);
      if ok {
        ghost var loaded := log;
        ok, path := EmbedLoaded(w, k.(pc := next), T);
        FollowsOn(old(log), loaded, log, LoadPlan(), RowsPlan(path), ok);
      } else {
        FailsEarly(old(log), log, LoadPlan(), RowsPlan(path));
      }
    }

    method EmbedLoaded(w: nat, k: Worker, ghost T: iset<Trail>) returns (ok: bool, path: EmbedPath)
      requires Closed(T, w) && Now() in T && At(w, k) && (k.pc == NoRowsStage || k.pc.Upsert?)
      modifies this
      ensures Now() in T && Stands(w, k, if ok then None else Some(EmbedErrorStage))
      ensures path != Skips && Follows(old(log), log, RowsPlan(path), ok)
      ensures ok ==> Settled(db.jobs, k.job, OpAck)
    {
      if k.pc == NoRowsStage {
        path := Empty;
        ok := Abandon(w, k, EmbedStage, EmbedFailed, T);
      } else {
        ok, path := StoreVectors(w, k, k.pc.rows, T);
      }
    }

    /** Announce the work and read the chunk rows. */
    method Load(w: nat, k: Worker, ghost T: iset<Trail>) returns (ok: bool, next: Pc)
      requires Closed(T, w) && Now() in T && At(w, k) && k.pc == EmbedProcessing
      modifies this
      ensures Now() in T && At(w, k.(pc := if ok then next else EmbedErrorStage))
      ensures ok ==> next == NoRowsStage || next.Upsert?
      ensures Follows(old(log), log, LoadPlan(), ok)
    {
      next := EmbedErrorStage;
      ok := Announce(w, k, T);
      if ok {
        ok, next := Query(w, k.(pc := ReadChunks), T);
      }
    }

    method Announce(w: nat, k: Worker, ghost T: iset<Trail>) returns (ok: bool)
      requires Closed(T, w) && Now() in T && At(w, k) && k.pc == EmbedProcessing
      modifies this
      ensures Now() in T && At(w, k.(pc := if ok then ReadChunks else EmbedErrorStage))
      ensures Follows(old(log), log, LoadPlan()[..2], ok)
    {
      ok := Do(w, k, OpStage(EmbedStage, StageProcessing), T);
      if ok {
        ok := Do(w, k.(pc := StatusEmbedding), OpStatus(Embedding), T);
      }
    }

    /** Points first, then the vector ids; rows that vanished meanwhile end the job. */
    method StoreVectors(w: nat, k: Worker, rows: set<nat>, ghost T: iset<Trail>) returns (ok: bool, path: EmbedPath)
      requires Closed(T, w) && Now() in T && At(w, k) && k.pc == Upsert(rows)
      modifies this
      ensures Now() in T && Stands(w, k, if ok then None else Some(EmbedErrorStage))
      ensures path == Stale(rows) || path == Passes(rows)
      ensures Follows(old(log), log, RowsPlan(path), ok)
      ensures ok ==> Settled(db.jobs, k.job, OpAck)
    {
      var next;
      path := Stale(rows);
      ok, next := WriteVectors(w, k, rows, T);
      ghost var stored := log;
      if ok && next == EmbedAck {
        ok := Do(w, k.(pc := EmbedAck), OpAck, T);
        FollowsOn(old(log), stored, log, UpsertPlan(rows), [OpAck], ok);
      } else if ok {
        path := Passes(rows);
        ok := Conclude(w, k.(pc := EmbedDone), T);
        FollowsOn(old(log), stored, log, UpsertPlan(rows), [OpStage(EmbedStage, StageDone), OpHandOff(Index), OpAck],
                  ok);
      } else {
        FailsEarly(old(log), log, UpsertPlan(rows), [OpAck]);
      }
    }

    method WriteVectors(w: nat, k: Worker, rows: set<nat>, ghost T: iset<Trail>) returns (ok: bool, next: Pc)
      requires Closed(T, w) && Now() in T && At(w, k) && k.pc == Upsert(rows)
      modifies this
      ensures Now() in T && At(w, k.(pc := if ok then next else EmbedErrorStage))
      ensures ok ==> next == EmbedDone || next == EmbedAck
      ensures Follows(old(log), log, UpsertPlan(rows), ok)
    {
      next := EmbedErrorStage;
      ok := Do(w, k, OpUpsert(rows), T);
      if ok {
        ok, next := Query(w, k.(pc := StoreVectorIds(rows)), T);
      }
    }

    method Conclude(w: nat, k: Worker, ghost T: iset<Trail>) returns (ok: bool)
      requires Closed(T, w) && Now() in T && At(w, k) && k.pc == EmbedDone
      modifies this
      ensures Now() in T && Stands(w, k, if ok then None else Some(EmbedErrorStage))
      ensures Follows(old(log), log, [OpStage(EmbedStage, StageDone), OpHandOff(Index), OpAck], ok)
      ensures ok ==> Settled(db.jobs, k.job, OpAck)
    {
      ok := Do(w, k, OpStage(EmbedStage, StageDone), T);
      if ok {
        ok := HandOn(w, k.(pc := EnqueueIndex), Index, T);
      }
    }

    // ---- index_worker ------------------------------------------------------

    method ProcessIndexJob(w: nat, k: Worker) returns (exit: Exit)
      requires At(w, k) && k.pc == IndexProcessing
      modifies this
      ensures RanFrom(old(db), Now(), w) && w !in db.workers && Ended(db.jobs, k.job, exit)
      ensures Handled(log, IndexPlan(), [OpStage(IndexStage, StageFailed), OpNack], exit)
    {
      events, log := [], [];
      ghost var T := TrailsFrom(db, w);
      var ok := MarkDocument(w, k, T);
      exit := WasAcked;
      if !ok {
        exit := ReportIndex(w, k.(pc := IndexErrorStage), T);
      }
    }

    /** The except block: the status of the document is left alone. */
    method ReportIndex(w: nat, k: Worker, ghost T: iset<Trail>) returns (exit: Exit)
      requires Closed(T, w) && Now() in T && At(w, k) && k.pc == IndexErrorStage
      modifies this
      ensures Now() in T && w !in db.workers && Ended(db.jobs, k.job, exit) && exit != WasAcked
      ensures Follows(old(log), log, [OpStage(IndexStage, StageFailed), OpNack], exit == WasNacked)
    {
      var ok := Do(w, k, OpStage(IndexStage, StageFailed), T);
      if ok {
        ok := Do(w, k.(pc := IndexNack), OpNack, T);
      }
      exit := if ok then WasNacked else Escaped;
    }

    method MarkDocument(w: nat, k: Worker, ghost T: iset<Trail>) returns (ok: bool)
      requires Closed(T, w) && Now() in T && At(w, k) && k.pc == IndexProcessing
      modifies this
      ensures Now() in T && Stands(w, k, if ok then None else Some(IndexErrorStage))
      ensures Follows(old(log), log, IndexPlan(), ok)
      ensures ok ==> Settled(db.jobs, k.job, OpAck)
    {
      ok := Do(w, k, OpStage(IndexStage, StageProcessing), T);
      if ok {
        ok := MarkAndFinish(w, k.(pc := MarkIndexed), T);
      }
    }

    method MarkAndFinish(w: nat, k: Worker, ghost T: iset<Trail>) returns (ok: bool)
      requires Closed(T, w) && Now() in T && At(w, k) && k.pc == MarkIndexed
      modifies this
      ensures Now() in T && Stands(w, k, if ok then None else Some(IndexErrorStage))
      ensures Follows(old(log), log, [OpStatus(Indexed), OpStage(IndexStage, StageDone), OpAck], ok)
      ensures ok ==> Settled(db.jobs, k.job, OpAck)
    {
      ok := Do(w, k, OpStatus(Indexed), T);
      if ok {
        ok := FinishIndex(w, k.(pc := IndexDone), T);
      }
    }

    method FinishIndex(w: nat, k: Worker, ghost T: iset<Trail>) returns (ok: bool)
      requires Closed(T, w) && Now() in T && At(w, k) && k.pc == IndexDone
      modifies this
      ensures Now() in T && Stands(w, k, if ok then None else Some(IndexErrorStage))
      ensures Follows(old(log), log, [OpStage(IndexStage, StageDone), OpAck], ok)
      ensures ok ==> Settled(db.jobs, k.job, OpAck)
    {
      ok := Do(w, k, OpStage(IndexStage, StageDone), T);
      if ok {
        ok := Do(w, k.(pc := IndexAck), OpAck, T);
      }
    }

    // ---- purge_worker ------------------------------------------------------

    /** Vectors and files are deleted as far as possible; only the row counts.  A purge
        that succeeds deletes its own job with the document and acks nothing. */
    method ProcessPurgeJob(w: nat, k: Worker) returns (exit: Exit)
      requires At(w, k) && k.pc == PurgeVectors
      modifies this
      ensures RanFrom(old(db), Now(), w) && w !in db.workers && PurgeLog(log, exit)
      ensures exit == WasAcked ==> k.doc !in db.docs && forall j | j in db.jobs :: db.jobs[j].doc != k.doc
      ensures exit != WasAcked ==> Ended(db.jobs, k.job, exit)
      ensures log[0] == Did(OpDropVectors) && NoUpsertsSince(old(db), events, w, k.doc) ==>
        forall id | id in db.vectors :: db.vectors[id] != k.doc
    {
      events, log := [], [];
      ghost var T := TrailsFrom(db, w);
      DropStores(w, k, T);
      exit := PurgeRow(w, k.(pc := PurgeDelete), T);
      if log[0] == Did(OpDropVectors) && NoUpsertsSince(old(db), events, w, k.doc) {
        DroppedStayDropped(old(db), events, w);
      }
    }

    /** The row, or else the report. */
    method PurgeRow(w: nat, k: Worker, ghost T: iset<Trail>) returns (exit: Exit)
      requires Closed(T, w) && Now() in T && At(w, k) && k.pc == PurgeDelete
      requires |log| == 2 && log[0].op == OpDropVectors && log[1].op == OpNone
      modifies this
      ensures Now() in T && w !in db.workers && PurgeLog(log, exit)
      ensures exit == WasAcked ==> k.doc !in db.docs && forall j | j in db.jobs :: db.jobs[j].doc != k.doc
      ensures exit != WasAcked ==> Ended(db.jobs, k.job, exit)
    {
      var ok := DeleteRow(w, k, T);
      exit := WasAcked;
      if !ok {
        exit := ReportPurge(w, k.(pc := PurgeErrorStatus), T);
      }
    }

    /** Vector store, MindsDB and MinIO; exceptions are passed over. */
    method DropStores(w: nat, k: Worker, ghost T: iset<Trail>)
      requires Closed(T, w) && Now() in T && At(w, k) && k.pc == PurgeVectors && log == []
      modifies this
      ensures Now() in T && At(w, k.(pc := PurgeDelete))
      ensures |log| == 2 && log[0].op == OpDropVectors && log[1].op == OpNone
    {
      var ok := Do(w, k, OpDropVectors, T);
      ok := Do(w, k.(pc := PurgeFiles), OpNone, T);
    }

    /** The except block; a status update that raises is passed over. */
    method ReportPurge(w: nat, k: Worker, ghost T: iset<Trail>) returns (exit: Exit)
      requires Closed(T, w) && Now() in T && At(w, k) && k.pc == PurgeErrorStatus
      modifies this
      ensures Now() in T && w !in db.workers && Ended(db.jobs, k.job, exit) && exit != WasAcked
      ensures exists s: Statement :: s.op == OpStatus(DocError) && log == old(log) + [s, Last(exit)]
    {
      var flagged := Do(w, k, OpStatus(DocError), T);
      ghost var first := log[|log| - 1];
      var ok := Do(w, k.(pc := PurgeNack(flagged)), OpNack, T);
      exit := if ok then WasNacked else Escaped;
      assert log == old(log) + [first, Last(exit)];
    }

    /** The transaction with its cascades. */
    method DeleteRow(w: nat, k: Worker, ghost T: iset<Trail>) returns (ok: bool)
      requires Closed(T, w) && Now() in T && At(w, k) && k.pc == PurgeDelete
      modifies this
      ensures Now() in T && Stands(w, k, if ok then None else Some(PurgeErrorStatus))
      ensures log == old(log) + [if ok then Did(OpDelete) else Raised(OpDelete)]
      ensures ok ==> k.doc !in db.docs && forall j | j in db.jobs :: db.jobs[j].doc != k.doc
    {
      Others(w, T);
      ok := *;
      if ok {
        Happen(w, Commit(w), T);
      } else {
        Fail(w, k, T);
      }
    }
  }

  predicate Answers(pc: Pc, next: Pc) {
    match pc
    case Guard => next == EmbedProcessing || next == EmbedAck
    case ReadChunks => next == NoRowsStage || next.Upsert?
    case StoreVectorIds(_) => next == EmbedDone || next == EmbedAck
    case _ => false
  }

  /** What ack and nack leave behind for a job that still has a row. */
  predicate Settled(jobs: Table, j: nat, op: Op) {
    && (op == OpAck && j in jobs ==> jobs[j].status == Done)
    && (op == OpNack && j in jobs ==> jobs[j].status in {Pending, Failed})
  }

  /** Places where a failed stage row is written, to be followed by a failure status. */
  predicate Reports(pc: Pc) {
    pc in {EmptyStage, NoChunksStage, NoRowsStage, IngestErrorStage, EmbedErrorStage}
  }

  function StatusPc(pc: Pc): Pc
    requires Reports(pc)
  {
    match pc
    case EmptyStage => EmptyStatus
    case NoChunksStage => NoChunksStatus
    case NoRowsStage => NoRowsStatus
    case IngestErrorStage => IngestErrorStatus
    case EmbedErrorStage => EmbedErrorStatus
  }

  /** The ack or nack after the report. */
  function LastPc(pc: Pc): Pc
    requires Reports(pc)
  {
    match pc
    case EmptyStage => IngestAck
    case NoChunksStage => IngestAck
    case NoRowsStage => EmbedAck
    case IngestErrorStage => IngestNack
    case EmbedErrorStage => EmbedNack
  }

  lemma ReportSteps(s: State, k: Worker)
    requires Reports(k.pc)
    ensures After(s, k) == Some(StatusPc(k.pc)) && After(s, k.(pc := StatusPc(k.pc))) == Some(LastPc(k.pc))
    ensures OnRaise(StatusPc(k.pc)) == OnRaise(k.pc) && !Steers(k.pc) && !Steers(StatusPc(k.pc))
  {
  }

  predicate Ended(jobs: Table, j: nat, exit: Exit) {
    match exit
    case WasAcked => Settled(jobs, j, OpAck)
    case WasNacked => Settled(jobs, j, OpNack)
    case Escaped => true
  }

  function ResultPc(e: Event): Pc
    requires e.Parsed? || e.Split?
  {
    match e
    case Parsed(_, blank) => if blank then EmptyStage else ParseDone
    case Split(_, texts) => if texts == [] then NoChunksStage else StoreChunks(texts)
  }
}
