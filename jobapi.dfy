/** The job endpoints: `JobApi.put`, `post` and `delete`, `JobsApi.delete`
    and `run_job`. A handler's outcome is the HTTP status with the JSON
    body; an exception a handler does not catch is a 500 without a body. */
module JobApi {
  import opened Values
  import opened Store
  import opened Mongo
  import opened Data
  import opened Scripts
  import opened Processes
  import Jobs
  import Queries
  import Clock

  /** An HTTP answer: the status code and the JSON body. */
  datatype Reply = Reply(http: int, body: Value)

  /** `{'status': code, 'message': message}`. */
  function Status(code: int, message: string): Value {
    VDict(map["status" := VInt(code), "message" := VStr(message)])
  }

  /** Flask's answer to an exception the handler lets through. */
  const Uncaught := Reply(500, VNone)

  /** The digest `Job` records never use; `Job.get` passes it to no one. */
  function NoHash(s: string): string { s }

  /** `Job.get(job_id)`'s lookup of the text from the URL. */
  function Lookup(db: Database, jobId: string): Result<Option<Doc>>
    reads db
  {
    FindById(Some("jobs"), db, VStr(jobId), map[])
  }

  /** A job whose record keeps `started` once it was written: no record, or
      one whose `started` is set. */
  predicate StartedOrAbsent(recs: seq<Doc>, o: ObjectId) {
    match FindOne(recs, IdFilter(VId(o)))
    case None => true
    case Some(r) => Get(r, "started") != VNone
  }

  /** Saving a stored job whose `started` is set: the identity stays, a
      successful save leaves `started` set in its record (or no record), a
      failed one writes nothing. */
  lemma SaveKeepsStarted(o: ObjectId, doc: Doc, recs: seq<Doc>, t: int, newId: ObjectId)
    requires Get(doc, "started") != VNone
    ensures var e := SaveSpec(JobKind, Some(o), doc, recs, t, newId);
      && e.id == Some(o)
      && (e.err.None? ==> StartedOrAbsent(e.records, o))
      && (e.err.Some? ==> e.records == recs)
  {
    var e := SaveSpec(JobKind, Some(o), doc, recs, t, newId);
    if e.err.None? {
      UpdatedIsFound(JobKind, Some(o), doc, recs, t, map[]);
      assert !("started" in {"edited"});
      assert Get(e.doc, "started") == Get(doc, "started");
    }
  }

  /** As written, where `Job.update` hands None to `dict.update`: for a
      stored job whose record has `started` None, the save that follows
      stamping `started` (the first save of `Process.run`, and equally the
      save at the end of `start`) raises a TypeError and writes nothing.
      The record keeps `started` None, so every later `run_job` launches
      the job again, and a launched `run_job` ends in that exception. */
  lemma RunGuardNeverEngagesAsWritten(o: ObjectId, doc: Doc, recs: seq<Doc>, t: int, newId: ObjectId)
    requires !StartedOrAbsent(recs, o)
    ensures var e := Jobs.SaveAsWritten(Some(o), doc["started" := VTime(t)], recs, t, newId);
      && e.err.Some? && ClassOf(e.err.value) == TypeErrorClass
      && e.records == recs && !StartedOrAbsent(e.records, o)
  {
    Jobs.SaveOfStoredJobRaises(o, doc["started" := VTime(t)], recs, t, newId);
  }

  /** `run_job(job_id)`: a missing job is a 404; a job whose `started` is
      None is started and answered with its stringified dictionary and 202;
      one already started is a 409 and nothing changes. Exceptions from
      `get` and `start` are not caught; one raised by `start` after the
      process was launched leaves it launched. */
  method RunJob(jobId: string, db: Database, clock: Clock.Clock, fs: FileSystem, scripts: Namespace,
                globals: map<string, Namespace>, render: real -> string, show: Value -> string, newId: ObjectId)
    returns (reply: Reply, launched: Option<Process>, ghost outcome: Option<Jobs.StartResult>)
    modifies db, clock
    ensures var f := old(Lookup(db, jobId));
      && (f.Ok? && f.value.None? ==>
            reply == Reply(404, Status(404, "No Job of id " + jobId)) && db.collections == old(db.collections))
      && (f.Ok? && f.value.Some? && Get(f.value.value, "started") != VNone ==>
            launched.None? && outcome.None? && db.collections == old(db.collections) &&
            (Jobs.Accepts(f.value.value) ==> reply == Reply(409, Status(409, "The job " + jobId + " was already started"))))
      && (outcome.Some? <==>
            f.Ok? && f.value.Some? && Get(f.value.value, "started") == VNone && Jobs.Accepts(f.value.value))
      && (launched.Some? <==> outcome.Some? && outcome.value.Launched?)
      && (outcome.Some? ==>
            var doc := Jobs.InitDoc(f.value.value);
            var dm := Jobs.LoadInputData(doc, fs);
            (outcome.value.Launched? <==> dm.Ok? && Jobs.ResolveProcess(doc, dm.value, fs, scripts, globals).Ok?))
      && (launched.Some? ==> launched.value == outcome.value.proc)
      && (reply.http == 202 <==> outcome.Some? && outcome.value.Launched? && outcome.value.after.None?)
    ensures outcome.None? ==> db.collections == old(db.collections)
  {
    outcome := None;
    launched := None;
    var g := Queries.GetById(JobKind, db, VStr(jobId), map[], NoHash);
    if g.Err? {
      return Uncaught, None, None;
    }
    if g.value.None? {
      return Reply(404, Status(404, "No Job of id " + jobId)), None, None;
    }
    var job := g.value.value;
    ghost var rec := Lookup(db, jobId).value.value;
    Jobs.InitDefaults(rec);
    if job.Attr("started") == VNone {
      var r := Jobs.Start(job, db, clock, fs, scripts, globals, render, newId);
      outcome := Some(r);
      match r
      case NotLaunched(_) =>
        reply := Uncaught;
      case Launched(p, after) =>
        launched := Some(p);
        if after.Some? {
          reply := Uncaught;
        } else {
          var d := job.ToDict(true, show);
          reply := Reply(202, d);
        }
    } else {
      reply := Reply(409, Status(409, "The job " + jobId + " was already started"));
    }
  }

  /** `Process.run` on a stored job: once its first save succeeded, the
      job's record has `started` set (or there is no record), whatever the
      function and the second save do. */
  method RunRecordsStarted(p: Process, o: ObjectId, db: Database, clock: Clock.Clock, invoke: Invoker,
                           frameToDict: Frame -> Value, newId: ObjectId)
    returns (err: Option<Error>, ghost mid: Effect)
    requires p.job.kind == JobKind && p.job.id == Some(o)
    modifies p.job, db, clock
    ensures mid.err.None? ==> StartedOrAbsent(db.Records("jobs"), o)
  {
    ghost var started, saved, finished;
    ghost var doc1 := p.job.doc["started" := VTime(0)];
    ghost var recs0 := db.Records("jobs");
    err, started, saved, mid, finished := Processes.Run(p, db, clock, invoke, frameToDict, newId);
    doc1 := old(p.job.doc)["started" := VTime(started)];
    SaveKeepsStarted(o, doc1, recs0, saved, newId);
    if mid.err.None? && Call(p, invoke).Ok? {
      SaveKeepsFields(JobKind, Some(o), doc1, recs0, saved, newId, "started");
      var doc2 := mid.doc["finished" := VTime(finished)]["time_sec" := VInt(finished - started)]
                         ["result" := Normalise(Call(p, invoke).value, frameToDict)];
      assert Get(doc2, "started") == Get(mid.doc, "started");
      SaveKeepsStarted(o, doc2, mid.records, clock.now, newId);
    }
  }

  /** A job is launched at most once: once its run has written `started`
      (the first save of `Process.run` succeeded), a later `run_job` for the
      same identity launches nothing, whatever the run did afterwards. */
  method RunThenRequest(p: Process, jobId: string, o: ObjectId, db: Database, clock: Clock.Clock, invoke: Invoker,
                        frameToDict: Frame -> Value, fs: FileSystem, scripts: Namespace,
                        globals: map<string, Namespace>, render: real -> string, show: Value -> string,
                        newId: ObjectId)
    returns (reply: Reply, launched: Option<Process>, ghost mid: Effect)
    requires p.job.kind == JobKind && p.job.id == Some(o) && ParseObjectId(jobId) == Some(o)
    modifies p.job, db, clock
    ensures mid.err.None? ==> launched.None? && reply.http != 202
  {
    var err;
    err, mid := RunRecordsStarted(p, o, db, clock, invoke, frameToDict, newId);
    assert IdFromValue(VStr(jobId)) == Ok(o);
    assert map[]["_id" := VId(o)] == IdFilter(VId(o));
    ghost var outcome;
    reply, launched, outcome := RunJob(jobId, db, clock, fs, scripts, globals, render, show, newId);
  }

  /** `put`'s keyword dictionary: a missing body is `{}`; a body that is no
      dictionary, or one naming `_id` a second time, is a TypeError. */
  function PutData(body: Value): (r: Result<Doc>)
    ensures body == VNone ==> r == Ok(map[])
    ensures body.VDict? && "_id" !in body.fields ==> r == Ok(body.fields)
    ensures r.Err? <==> (body != VNone && !body.VDict?) || (body.VDict? && "_id" in body.fields)
    ensures r.Err? ==> ClassOf(r.error) == TypeErrorClass
  {
    match body
    case VNone => Ok(map[])
    case VDict(d) =>
      if "_id" in d then Err(BadArguments("got multiple values for keyword argument '_id'")) else Ok(d)
    case _ => Err(BadArguments("argument after ** must be a mapping"))
  }

  /** The answer to an exception `put` catches: an InvalidId is a 505, any other a 500. */
  function Failure(e: Error, explain: Error -> string): Reply {
    var code := if ClassOf(e) == InvalidIdClass then 505 else 500;
    Reply(code, Status(code, explain(e)))
  }

  /** `put(job_id)`: an existing id is a 409 and creates nothing; a text
      that is no ObjectId raises from `id_exists`, uncaught. Otherwise
      `Job(_id=job_id, **data)` is created: an InvalidId is answered 505,
      any other exception 500, success 201 with the new job. */
  method Put(jobId: string, body: Value, db: Database, clock: Clock.Clock, show: Value -> string,
             explain: Error -> string, newId: ObjectId) returns (reply: Reply, ghost created: Option<Effect>)
    modifies db, clock
    ensures ParseObjectId(jobId).None? ==> reply == Uncaught && db.collections == old(db.collections)
    ensures old(IdExists(JobKind, db, jobId)) == Ok(true) ==>
      reply == Reply(409, Status(409, "A job of id " + jobId + " already exists")) &&
      db.collections == old(db.collections)
    ensures old(IdExists(JobKind, db, jobId)) == Ok(false) && PutData(body).Err? ==>
      reply == Reply(500, Status(500, explain(PutData(body).error))) && db.collections == old(db.collections)
    ensures reply.http == 201 ==>
      (old(IdExists(JobKind, db, jobId)) == Ok(false) && PutData(body).Ok? &&
       Jobs.Accepts(PutData(body).value["_id" := VStr(jobId)]) &&
       |db.Records("jobs")| == |old(db.Records("jobs"))| + 1 &&
       db.Records("jobs")[..|old(db.Records("jobs"))|] == old(db.Records("jobs")))
    ensures reply.http == 201 && (forall k :: k in PutData(body).value ==> !IsIdKey(k)) ==>
      Get(db.Records("jobs")[|old(db.Records("jobs"))|], "_id") == VId(ParseObjectId(jobId).value)
    ensures created.Some? ==> old(IdExists(JobKind, db, jobId)) == Ok(false) && PutData(body).Ok?
    ensures old(IdExists(JobKind, db, jobId)) == Ok(false) && PutData(body).Ok? ==>
      var kw := PutData(body).value["_id" := VStr(jobId)];
      && (created.Some? <==> Jobs.Accepts(kw))
      && ("self" in kw ==> reply.http == 500 && db.collections == old(db.collections))
      && (!Jobs.Accepts(kw) && "self" !in kw ==>
            db.collections == old(db.collections) &&
            exists k :: k in Jobs.Rest(kw) && IsIdKey(k) && IdFromValue(Jobs.Rest(kw)[k]).Err? &&
              reply == Failure(IdFromValue(Jobs.Rest(kw)[k]).error, explain))
      && (created.Some? ==>
            db.Records("jobs") == created.value.records &&
            exists id :: IdFrom(Jobs.Rest(kw), id) &&
              created.value == CreateSpec(JobKind, id, Jobs.InitDoc(kw), old(db.Records("jobs")), clock.now, newId))
      && (created.Some? && created.value.err.None? ==> reply.http == 201)
      && (created.Some? && created.value.err.Some? ==> reply == Failure(created.value.err.value, explain))
    ensures forall n :: n != "jobs" ==> db.Records(n) == old(db.Records(n))
  {
    created := None;
    var exists_ := IdExists(JobKind, db, jobId);
    if exists_.Err? {
      return Uncaught, None;
    }
    if exists_.value {
      return Reply(409, Status(409, "A job of id " + jobId + " already exists")), None;
    }
    var data := PutData(body);
    if data.Err? {
      return Reply(500, Status(500, explain(data.error))), None;
    }
    var kw := data.value["_id" := VStr(jobId)];
    var job := Jobs.New(kw);
    if job.Err? {
      return Failure(job.error, explain), None;
    }
    ghost var recs0 := db.Records("jobs");
    ghost var doc0 := job.value.doc;
    ghost var id0 := job.value.id;
    var err := job.value.Create(db, clock, newId);
    created := Some(Effect(job.value.id, job.value.doc, db.Records("jobs"), err));
    if err.Some? {
      return Failure(err.value, explain), created;
    }
    PutCreates(jobId, data.value, id0, doc0, recs0, clock.now, newId);
    var d := job.value.ToDict(true, show);
    reply := Reply(201, d);
  }

  /** The record `put` adds: appended, and stored under the URL's identity
      when the body names no identity of its own. */
  lemma PutCreates(jobId: string, data: Doc, id: Option<ObjectId>, doc: Doc, recs: seq<Doc>, t: int, newId: ObjectId)
    requires ParseObjectId(jobId).Some?
    requires IdFrom(Jobs.Rest(data["_id" := VStr(jobId)]), id)
    requires CreateSpec(JobKind, id, doc, recs, t, newId).err.None?
    ensures var e := CreateSpec(JobKind, id, doc, recs, t, newId);
      |e.records| == |recs| + 1 && e.records[..|recs|] == recs
    ensures (forall k :: k in data ==> !IsIdKey(k)) ==>
      Get(CreateSpec(JobKind, id, doc, recs, t, newId).records[|recs|], "_id") == VId(ParseObjectId(jobId).value)
  {
    var kw := Jobs.Rest(data["_id" := VStr(jobId)]);
    assert "_id" in kw && IsIdKey("_id");
    assert HasIdKeyIn(kw, kw.Keys);
    var o := id.value;
    CreateKeepsPresetId(JobKind, o, doc, recs, t, newId);
    if forall k :: k in data ==> !IsIdKey(k) {
      var k :| k in kw && IsIdKey(k) && IdFromValue(kw[k]) == Ok(o);
      assert k == "_id";
    }
  }

  /** `post(job_id)`: a missing job is answered with status 404 in a 200;
      the body must be a dictionary (anything else raises, uncaught); an
      empty one is a 412 whose body spells its key `stauts`. Otherwise the
      job is updated, started or not, and an exception from the update is
      reported as status 500 in a 200. */
  method Post(jobId: string, body: Value, db: Database, clock: Clock.Clock, show: Value -> string,
              explain: Error -> string) returns (reply: Reply, ghost upd: Option<Effect>)
    modifies db, clock
    ensures var f := old(Lookup(db, jobId));
      && (f.Ok? && f.value.None? ==>
            reply == Reply(200, Status(404, "No Job of id " + jobId)) && db.collections == old(db.collections))
      && (f.Ok? && f.value.Some? && Jobs.Accepts(f.value.value) && !body.VDict? ==>
            reply == Uncaught && db.collections == old(db.collections))
      && (f.Ok? && f.value.Some? && Jobs.Accepts(f.value.value) && body == VDict(map[]) ==>
            reply == Reply(412, VDict(map["stauts" := VInt(412), "message" := VStr("No data received.")])) &&
            db.collections == old(db.collections))
      && (upd.Some? <==>
            f.Ok? && f.value.Some? && Jobs.Accepts(f.value.value) && body.VDict? && body.fields != map[])
      && (upd.Some? ==>
            reply.http == 200 && db.Records("jobs") == upd.value.records &&
            exists id: Option<ObjectId>, t: int :: IdFrom(Jobs.Rest(f.value.value), id) &&
              upd.value == UpdateSpec(JobKind, id, Jobs.InitDoc(f.value.value), old(db.Records("jobs")), t, body.fields))
      && (upd.Some? && upd.value.err.Some? ==> reply == Reply(200, Status(500, explain(upd.value.err.value))))
    ensures upd.None? ==> db.collections == old(db.collections)
    ensures forall n :: n != "jobs" ==> db.Records(n) == old(db.Records(n))
  {
    upd := None;
    var g := Queries.GetById(JobKind, db, VStr(jobId), map[], NoHash);
    if g.Err? {
      return Uncaught, None;
    }
    if g.value.None? {
      return Reply(200, Status(404, "No Job of id " + jobId)), None;
    }
    var job := g.value.value;
    if !body.VDict? {
      return Uncaught, None;
    }
    if body.fields == map[] {
      return Reply(412, VDict(map["stauts" := VInt(412), "message" := VStr("No data received.")])), None;
    }
    ghost var id0 := job.id;
    ghost var recs0 := db.Records("jobs");
    var err := job.Update(db, clock, body.fields);
    upd := Some(Effect(job.id, job.doc, db.Records("jobs"), err));
    if err.Some? {
      return Reply(200, Status(500, explain(err.value))), upd;
    }
    var d := job.ToDict(true, show);
    reply := Reply(200, d);
  }

  /** `JobApi.delete(job_id)`: a missing job is a 404; otherwise 200 when
      `delete()` removed a record and 500 when it did not. A record whose
      only identity-named key is its `_id` is always removed. */
  method Delete(jobId: string, db: Database) returns (reply: Reply, ghost id: Option<ObjectId>)
    modifies db
    ensures var f := old(Lookup(db, jobId));
      && (f.Ok? && f.value.None? ==>
            reply == Reply(404, Status(404, "No job of id " + jobId + " found")) && db.collections == old(db.collections))
      && (f.Ok? && f.value.Some? && Jobs.Accepts(f.value.value) ==>
            (IdFrom(Jobs.Rest(f.value.value), id) &&
             var (recs, del) := DeleteFirst(old(db.Records("jobs")), IdFilter(IdValue(id)));
             db.Records("jobs") == recs && (reply.http == 200 <==> del) && (!del ==> reply.http == 500)))
      && ((f.Ok? && f.value.Some? && Jobs.Accepts(f.value.value) &&
           (forall k :: k in f.value.value && IsIdKey(k) ==> k == "_id")) ==> reply.http == 200)
    ensures forall n :: n != "jobs" ==> db.Records(n) == old(db.Records(n))
  {
    id := None;
    var g := Queries.GetById(JobKind, db, VStr(jobId), map[], NoHash);
    if g.Err? {
      return Uncaught, None;
    }
    if g.value.None? {
      return Reply(404, Status(404, "No job of id " + jobId + " found")), None;
    }
    var job := g.value.value;
    id := job.id;
    ghost var rec := Lookup(db, jobId).value.value;
    ghost var recs0 := db.Records("jobs");
    if forall k :: k in rec && IsIdKey(k) ==> k == "_id" {
      var o := IdFromValue(VStr(jobId)).value;
      Queries.RebuiltIdentity(JobKind, rec, o, id);
      Queries.MatchesIdFilter(rec, VId(o));
      assert FirstMatch(recs0, IdFilter(VId(o))).Some?;
    }
    var deleted := job.Delete(db);
    if deleted {
      reply := Reply(200, VDict(map["status" := VInt(200), "acknowledged" := VBool(true),
                                    "message" := VStr("Job of ID " + jobId + " deleted.")]));
    } else {
      reply := Reply(500, Status(500, "Something went horribly wrong."));
    }
  }

  /** `JobsApi.delete()`: every job is deleted; `acknowledged` says whether
      all deletes succeeded. In a well-keyed collection they all do and the
      collection ends empty. */
  method DeleteAllJobs(db: Database, show: Value -> string) returns (reply: Reply, ghost counts: Option<(nat, nat)>)
    modifies db
    ensures counts.None? ==> reply == Uncaught && db.collections == old(db.collections)
    ensures counts.Some? ==>
      (reply.http == 200 && reply.body.VDict? &&
       Get(reply.body.fields, "acknowledged") == VBool(counts.value.0 == counts.value.1) &&
       Get(reply.body.fields, "deleted") == VInt(counts.value.0) &&
       Get(reply.body.fields, "total") == VInt(counts.value.1) &&
       counts.value.0 <= counts.value.1 == |old(db.Records("jobs"))|)
    ensures counts.Some? && Queries.WellKeyed(old(db.Records("jobs"))) ==>
      Get(reply.body.fields, "acknowledged") == VBool(true) && db.Records("jobs") == []
    ensures forall n :: n != "jobs" ==> db.Records(n) == old(db.Records(n))
  {
    ghost var recs0 := db.Records("jobs");
    var r := Queries.DeleteAll(JobKind, db, map[], NoHash);
    if r.Err? {
      return Uncaught, None;
    }
    var (s, t) := r.value;
    counts := Some((s, t));
    AllMatchEmpty(recs0);
    if Queries.WellKeyed(recs0) {
      NothingLeft(db.Records("jobs"));
    }
    reply := Reply(200, VDict(DeletedBody(s, t, show)));
  }

  /** The body `JobsApi.delete` answers with. */
  function DeletedBody(s: nat, t: nat, show: Value -> string): (b: Doc)
    ensures Get(b, "acknowledged") == VBool(s == t) && Get(b, "deleted") == VInt(s) && Get(b, "total") == VInt(t)
  {
    map["status" := VInt(200), "acknowledged" := VBool(s == t), "deleted" := VInt(s), "total" := VInt(t),
        "message" := VStr("Deleted " + show(VInt(s)) + " of " + show(VInt(t)) + " Jobs")]
  }

  /** The empty filter matches every record. */
  lemma AllMatchEmpty(c: seq<Doc>)
    ensures Store.FindAll(c, map[]) == c
  {
    if c != [] {
      assert Matches(c[0], map[]);
      AllMatchEmpty(c[1..]);
      assert c == [c[0]] + c[1..];
    }
  }

  /** A list with no members is empty. */
  lemma NothingLeft(c: seq<Doc>)
    ensures (forall d :: d in c ==> !Matches(d, map[])) ==> c == []
  {
    if c != [] {
      assert Matches(c[0], map[]);
    }
  }
}
