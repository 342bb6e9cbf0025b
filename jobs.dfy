/** The `Job` model (collection `jobs`): a `MongoModel` describing which
    script to run on which data. `start` resolves both descriptors, hands
    the resulting `Process` over to be run, and records what it resolved. */
module Jobs {
  import opened Values
  import opened Store
  import opened Mongo
  import opened Data
  import opened Scripts
  import opened Processes
  import Clock

  /** The keywords of `Job.__init__` other than its named parameters. */
  function Rest(kw: Doc): Doc {
    kw - {"created", "started", "finished", "result"}
  }

  /** `Job(**kw)` succeeds: no `self` keyword, and every identity-named keyword parses. */
  predicate Accepts(kw: Doc) {
    "self" !in kw && IdKeysValid(Rest(kw))
  }

  /** The document `Job(**kw)` builds: `created`, `started`, `finished` and
      `result` (None unless given), then the other keywords. */
  function InitDoc(kw: Doc): Doc {
    map["created" := Get(kw, "created"), "started" := Get(kw, "started"),
        "finished" := Get(kw, "finished"), "result" := Get(kw, "result")] + DocPart(Rest(kw))
  }

  /** `Job(**kw)`. */
  method New(kw: Doc) returns (r: Result<MongoModel>)
    ensures r.Ok? <==> Accepts(kw)
    ensures r.Ok? ==>
      (fresh(r.value) && r.value.kind == JobKind && r.value.doc == InitDoc(kw) && IdFrom(Rest(kw), r.value.id))
    ensures r.Err? ==> ClassOf(r.error) in {TypeErrorClass, InvalidIdClass}
    ensures "self" in kw ==> r.Err? && ClassOf(r.error) == TypeErrorClass
    ensures r.Err? && "self" !in kw ==>
      exists k :: k in Rest(kw) && IsIdKey(k) && IdFromValue(Rest(kw)[k]) == Err(r.error)
  {
    if "self" in kw {
      return Err(BadArguments("got multiple values for argument 'self'"));
    }
    var job := new MongoModel(JobKind);
    var _ := job.SetAttr("created", Get(kw, "created"));
    var _ := job.SetAttr("started", Get(kw, "started"));
    var _ := job.SetAttr("finished", Get(kw, "finished"));
    var _ := job.SetAttr("result", Get(kw, "result"));
    var e := job.SetAll(Rest(kw));
    if e.Some? {
      return Err(e.value);
    }
    r := Ok(job);
  }

  /** A new job has `created`, `started`, `finished` and `result`, all None
      unless given; a record read back keeps them. */
  lemma InitDefaults(kw: Doc)
    ensures forall k :: k in {"created", "started", "finished", "result"} ==> Get(InitDoc(kw), k) == Get(kw, k)
    ensures InitDoc(map[]) == map["created" := VNone, "started" := VNone, "finished" := VNone, "result" := VNone]
  {
    assert Rest(map[]) == map[];
    assert DocPart(map[]) == map[];
    forall k | k in {"created", "started", "finished", "result"} ensures Get(InitDoc(kw), k) == Get(kw, k) {
      assert k !in DocPart(Rest(kw));
    }
  }

  /** `load_input_data()`: a dictionary `data` comes first; its `type`
      selects `DataFile` or `BaseDataModel`, built from its other keys, and
      any other type gives None (the ValueError is constructed, not raised).
      Without one, a `datafile` name is looked up in the data directory;
      then a `raw_data` value is wrapped; with none of the three it raises. */
  function LoadInputData(doc: Doc, fs: FileSystem): (r: Result<Option<DataModel>>)
    ensures r == Err(NoDataSetting) <==>
      !Get(doc, "data").VDict? && Get(doc, "datafile") == VNone && Get(doc, "raw_data") == VNone
    ensures !Get(doc, "data").VDict? && Get(doc, "datafile") == VNone && Get(doc, "raw_data") != VNone ==>
      r == Ok(Some(BaseData(Get(doc, "raw_data"))))
  {
    match Get(doc, "data")
    case VDict(d) =>
      var rest := d - {"type"};
      if Get(d, "type") == VStr("datafile") then
        (match NewFile(rest) case Ok(m) => Ok(Some(m)) case Err(e) => Err(e))
      else if Get(d, "type") == VStr("raw_data") then
        (match NewBase(rest) case Ok(m) => Ok(Some(m)) case Err(e) => Err(e))
      else Ok(None)
    case _ =>
      if Get(doc, "datafile") != VNone then GetFromName(fs, Get(doc, "datafile"))
      else if Get(doc, "raw_data") != VNone then Ok(Some(BaseData(Get(doc, "raw_data"))))
      else Err(NoDataSetting)
  }

  /** A dictionary `data` decides alone: `datafile` and `raw_data` are not looked at. */
  lemma DataDictWins(doc: Doc, fs: FileSystem, datafile: Value, rawData: Value)
    requires Get(doc, "data").VDict?
    ensures LoadInputData(doc["datafile" := datafile]["raw_data" := rawData], fs) == LoadInputData(doc, fs)
  {
    assert Get(doc["datafile" := datafile]["raw_data" := rawData], "data") == Get(doc, "data");
  }

  /** Without a dictionary `data`, a set `datafile` wins over `raw_data`. */
  lemma DatafileBeforeRawData(doc: Doc, fs: FileSystem, rawData: Value)
    requires !Get(doc, "data").VDict? && Get(doc, "datafile") != VNone
    ensures LoadInputData(doc["raw_data" := rawData], fs) == GetFromName(fs, Get(doc, "datafile"))
  {
    assert Get(doc["raw_data" := rawData], "data") == Get(doc, "data");
    assert Get(doc["raw_data" := rawData], "datafile") == Get(doc, "datafile");
  }

  /** The typed dictionary: `type` is dropped and the remaining keys are the
      constructor's keywords; a missing or unknown type gives None. */
  lemma DataDictTypes(doc: Doc, fs: FileSystem)
    requires Get(doc, "data").VDict?
    ensures var d := Get(doc, "data").fields;
      && (Get(d, "type") == VStr("datafile") ==>
            LoadInputData(doc, fs) == (match NewFile(d - {"type"}) case Ok(m) => Ok(Some(m)) case Err(e) => Err(e)))
      && (Get(d, "type") == VStr("raw_data") && (d - {"type"}).Keys <= {"data"} ==>
            LoadInputData(doc, fs) == Ok(Some(BaseData(Get(d, "data")))))
      && (Get(d, "type") != VStr("datafile") && Get(d, "type") != VStr("raw_data") ==>
            LoadInputData(doc, fs) == Ok(None))
  {
    var d := Get(doc, "data").fields;
    assert Get(d - {"type"}, "data") == Get(d, "data");
  }

  /** `data.read()` on the resolved data model; there is none when
      `load_input_data` gave None. */
  function ReadPayload(data: Option<DataModel>, fs: FileSystem): (r: Result<Value>)
    ensures data.None? ==> r.Err? && ClassOf(r.error) == AttributeErrorClass
    ensures data.Some? ==> r == Read(data.value, fs)
  {
    match data
    case None => Err(NoAttribute("'NoneType' object has no attribute 'read'"))
    case Some(m) => Read(m, fs)
  }

  /** What `load_process` resolves: the function, the payload and the arguments. */
  datatype Plan = Plan(f: Func, data: Value, args: Value, kwargs: Value)

  /** `load_process(data)` on the job's document. A dictionary `script`
      wins: its `type` defaults to `function`, whose `name` is required and
      looked up in `scripts`; `file` and `eval` are not implemented; any
      other type is a ValueError. Otherwise a `script_name` is looked up and
      run with no arguments. Without either it raises. */
  function ResolveProcess(doc: Doc, data: Option<DataModel>, fs: FileSystem, scripts: Namespace,
                          globals: map<string, Namespace>): (r: Result<Plan>)
    ensures Get(doc, "script").VDict? ==>
      var s := Get(doc, "script").fields;
      var kind := GetOr(s, "type", VStr("function"));
      && (kind == VStr("file") || kind == VStr("eval") ==> r.Err? && ClassOf(r.error) == NotImplementedErrorClass)
      && (kind != VStr("function") && kind != VStr("file") && kind != VStr("eval") ==> r == Err(ScriptTypeUnknown(kind)))
      && (kind == VStr("function") && "name" !in s ==> r == Err(MissingKey("name")))
      && (kind == VStr("function") && "name" in s ==>
            var f := LoadScriptFunc("scripts", s["name"], scripts, globals);
            && (f.Err? ==> r == Err(f.error))
            && (f.Ok? && ReadPayload(data, fs).Err? ==> r == Err(ReadPayload(data, fs).error))
            && (f.Ok? && ReadPayload(data, fs).Ok? ==> r.Ok?))
      && (r.Ok? ==>
            (kind == VStr("function") && "name" in s &&
             Ok(r.value.f) == LoadScriptFunc("scripts", s["name"], scripts, globals) &&
             Ok(r.value.data) == ReadPayload(data, fs) &&
             r.value.args == GetOr(s, "args", VList([])) && r.value.kwargs == GetOr(s, "kwargs", VDict(map[]))))
    ensures !Get(doc, "script").VDict? && Get(doc, "script_name") != VNone ==>
      var f := LoadScriptFunc("scripts", Get(doc, "script_name"), scripts, globals);
      && (f.Err? ==> r == Err(f.error))
      && (f.Ok? && ReadPayload(data, fs).Err? ==> r == Err(ReadPayload(data, fs).error))
      && (f.Ok? && ReadPayload(data, fs).Ok? ==> r.Ok?)
    ensures !Get(doc, "script").VDict? && Get(doc, "script_name") != VNone && r.Ok? ==>
      Ok(r.value.f) == LoadScriptFunc("scripts", Get(doc, "script_name"), scripts, globals) &&
      Ok(r.value.data) == ReadPayload(data, fs) && r.value.args == VList([]) && r.value.kwargs == VDict(map[])
    ensures r == Err(NoScript) <==> !Get(doc, "script").VDict? && Get(doc, "script_name") == VNone
    ensures r.Ok? ==> data.Some?
  {
    match Get(doc, "script")
    case VDict(s) =>
      var kind := GetOr(s, "type", VStr("function"));
      if kind == VStr("function") then
        if "name" !in s then Err(MissingKey("name"))
        else
          var f :- LoadScriptFunc("scripts", s["name"], scripts, globals);
          var payload :- ReadPayload(data, fs);
          Ok(Plan(f, payload, GetOr(s, "args", VList([])), GetOr(s, "kwargs", VDict(map[]))))
      else if kind == VStr("file") then Err(ScriptTypeUnsupported("file"))
      else if kind == VStr("eval") then Err(ScriptTypeUnsupported("eval"))
      else Err(ScriptTypeUnknown(kind))
    case _ =>
      if Get(doc, "script_name") != VNone then
        var f :- LoadScriptFunc("scripts", Get(doc, "script_name"), scripts, globals);
        var payload :- ReadPayload(data, fs);
        Ok(Plan(f, payload, VList([]), VDict(map[])))
      else Err(NoScript)
  }

  /** A dictionary `script` decides alone: `script_name` is not looked at. */
  lemma ScriptDictWins(doc: Doc, name: Value, data: Option<DataModel>, fs: FileSystem, scripts: Namespace,
                       globals: map<string, Namespace>)
    requires Get(doc, "script").VDict?
    ensures ResolveProcess(doc["script_name" := name], data, fs, scripts, globals) ==
            ResolveProcess(doc, data, fs, scripts, globals)
  {
    assert Get(doc["script_name" := name], "script") == Get(doc, "script");
  }

  /** A script dictionary without `type` is a `function` script. */
  lemma DefaultTypeIsFunction(doc: Doc, data: Option<DataModel>, fs: FileSystem, scripts: Namespace,
                              globals: map<string, Namespace>)
    requires Get(doc, "script").VDict? && "type" !in Get(doc, "script").fields
    ensures var s := Get(doc, "script").fields;
      ResolveProcess(doc, data, fs, scripts, globals) ==
      ResolveProcess(doc["script" := VDict(s["type" := VStr("function")])], data, fs, scripts, globals)
  {
  }

  /** `load_process(data)`: the resolved process, bound to this job. */
  function LoadProcess(job: MongoModel, data: Option<DataModel>, fs: FileSystem, scripts: Namespace,
                       globals: map<string, Namespace>): (r: Result<Process>)
    reads job
    ensures ResolveProcess(job.doc, data, fs, scripts, globals).Err? <==> r.Err?
    ensures r.Ok? ==> var p := ResolveProcess(job.doc, data, fs, scripts, globals).value;
      r.value == Process(p.f, p.data, p.args, p.kwargs, job)
  {
    match ResolveProcess(job.doc, data, fs, scripts, globals)
    case Err(e) => Err(e)
    case Ok(p) => Ok(Process(p.f, p.data, p.args, p.kwargs, job))
  }

  /** `proc_dict.update(proc.to_dict())` on the job's `script` (an empty
      dict when None): its other keys stay, `name`, `args` and `kwargs` are
      overwritten. A `script` of another type has no `update`. */
  function MergeScript(script: Value, procDict: Doc): (r: Result<Value>)
    ensures script == VNone ==> r == Ok(VDict(procDict))
    ensures script.VDict? ==> r.Ok? && r.value.VDict? && r.value.fields.Keys == script.fields.Keys + procDict.Keys
    ensures script.VDict? ==> forall k :: k in r.value.fields ==>
      r.value.fields[k] == if k in procDict then procDict[k] else script.fields[k]
    ensures script != VNone && !script.VDict? ==> r.Err? && ClassOf(r.error) == AttributeErrorClass
  {
    match script
    case VNone => Ok(VDict(procDict))
    case VDict(s) => Ok(VDict(s + procDict))
    case _ => Err(NoAttribute("object has no attribute 'update'"))
  }

  /** After `start`, `script` holds exactly `name`, `args` and `kwargs` of
      the process when it was None before. */
  lemma StartedScriptKeys(p: Process)
    ensures MergeScript(VNone, Processes.ToDict(p).fields).Ok?
    ensures MergeScript(VNone, Processes.ToDict(p).fields).value.fields.Keys == {"name", "args", "kwargs"}
  {
  }

  /** The state `start` leaves once the process is launched and `data` has
      become `dd`: the process's `to_dict()` merged into the old `script`
      either raised (with `data` set and nothing saved) or was stored in
      `script`, and the job was saved. `doc0`, `id0`, `cols0` and `recs0`
      are the job's document and id, the collections and the `jobs`
      records before; `doc`, `id`, `cols` and `recs` the same after. */
  ghost predicate Recorded(doc0: Doc, id0: Option<ObjectId>, cols0: map<string, seq<Doc>>, recs0: seq<Doc>,
                           dd: Value, p: Process, after: Option<Error>,
                           doc: Doc, id: Option<ObjectId>, cols: map<string, seq<Doc>>, recs: seq<Doc>,
                           t: int, newId: ObjectId)
  {
    match MergeScript(Get(doc0, "script"), Processes.ToDict(p).fields)
    case Err(e) => after == Some(e) && doc == doc0["data" := dd] && id == id0 && cols == cols0
    case Ok(sd) => Effect(id, doc, recs, after) == SaveSpec(JobKind, id0, doc0["data" := dd]["script" := sd], recs0, t, newId)
  }

  /** The outcome of `start`: an exception before the thread is launched,
      or the launched process and the exception raised afterwards, if any. */
  datatype StartResult = NotLaunched(error: Error) | Launched(proc: Process, after: Option<Error>)

  /** `start()`: resolve the data and the process, launch the process, then
      set `data` to the data model's `to_dict()` and merge the process's
      `to_dict()` into `script`, and save. The process itself runs later,
      by `Processes.Run`. */
  method Start(job: MongoModel, db: Database, clock: Clock.Clock, fs: FileSystem, scripts: Namespace,
               globals: map<string, Namespace>, render: real -> string, newId: ObjectId)
    returns (r: StartResult)
    requires job.kind == JobKind
    modifies job, db, clock
    ensures var dm := LoadInputData(old(job.doc), fs);
      && (dm.Err? ==> r == NotLaunched(dm.error))
      && (dm.Ok? && ResolveProcess(old(job.doc), dm.value, fs, scripts, globals).Err? ==>
            r == NotLaunched(ResolveProcess(old(job.doc), dm.value, fs, scripts, globals).error))
      && (r.Launched? ==>
            (dm.Ok? && dm.value.Some? &&
             var p := ResolveProcess(old(job.doc), dm.value, fs, scripts, globals);
             p.Ok? && r.proc == Process(p.value.f, p.value.data, p.value.args, p.value.kwargs, job)))
    ensures (LoadInputData(old(job.doc), fs).Ok? &&
             ResolveProcess(old(job.doc), LoadInputData(old(job.doc), fs).value, fs, scripts, globals).Ok?) ==>
      r.Launched?
    ensures r.NotLaunched? ==> job.doc == old(job.doc) && job.id == old(job.id) && db.collections == old(db.collections)
    ensures r.Launched? ==>
      var m := LoadInputData(old(job.doc), fs).value.value;
      match DictOf(m, fs, render)
      case Err(e) => r.after == Some(e) && job.doc == old(job.doc) && job.id == old(job.id) && db.collections == old(db.collections)
      case Ok(dd) =>
        Recorded(old(job.doc), old(job.id), old(db.collections), old(db.Records("jobs")), dd, r.proc,
                 r.after, job.doc, job.id, db.collections, db.Records("jobs"), clock.now, newId)
    ensures forall n :: n != "jobs" ==> db.Records(n) == old(db.Records(n))
  {
    var data := LoadInputData(job.doc, fs);
    if data.Err? {
      return NotLaunched(data.error);
    }
    var proc := LoadProcess(job, data.value, fs, scripts, globals);
    if proc.Err? {
      return NotLaunched(proc.error);
    }
    // The thread running `proc.run` starts here.
    var after := RecordStart(job, db, clock, data.value.value, proc.value, fs, render, newId);
    r := Launched(proc.value, after);
  }

  /** The part of `start` after the launch: `data` becomes the data model's
      `to_dict()`, the process's `to_dict()` is merged into `script`, and
      the job is saved; the exception raised on the way, if any. */
  method RecordStart(job: MongoModel, db: Database, clock: Clock.Clock, m: DataModel, p: Process, fs: FileSystem,
                     render: real -> string, newId: ObjectId) returns (after: Option<Error>)
    requires job.kind == JobKind
    modifies job, db, clock
    ensures DictOf(m, fs, render).Err? ==>
      after == Some(DictOf(m, fs, render).error) && job.doc == old(job.doc) && job.id == old(job.id) &&
      db.collections == old(db.collections)
    ensures DictOf(m, fs, render).Ok? ==>
      Recorded(old(job.doc), old(job.id), old(db.collections), old(db.Records("jobs")), DictOf(m, fs, render).value, p,
               after, job.doc, job.id, db.collections, db.Records("jobs"), clock.now, newId)
    ensures forall n :: n != "jobs" ==> db.Records(n) == old(db.Records(n))
  {
    var dd := DictOf(m, fs, render);
    if dd.Err? {
      return Some(dd.error);
    }
    after := MergeAndSave(job, db, clock, dd.value, p, newId);
  }

  /** `self.data = data.to_dict()`, then the merge into `script` and the save. */
  method MergeAndSave(job: MongoModel, db: Database, clock: Clock.Clock, dd: Value, p: Process, newId: ObjectId)
    returns (after: Option<Error>)
    requires job.kind == JobKind
    modifies job, db, clock
    ensures Recorded(old(job.doc), old(job.id), old(db.collections), old(db.Records("jobs")), dd, p,
                     after, job.doc, job.id, db.collections, db.Records("jobs"), clock.now, newId)
    ensures forall n :: n != "jobs" ==> db.Records(n) == old(db.Records(n))
  {
    ghost var doc0 := job.doc;
    var _ := job.SetAttr("data", dd);
    var script := job.Attr("script");
    assert script == Get(doc0, "script") by {
      assert job.doc == doc0["data" := dd] && "script" != "data";
    }
    var sd := MergeScript(script, Processes.ToDict(p).fields);
    if sd.Err? {
      return Some(sd.error);
    }
    after := SaveWithScript(job, db, clock, sd.value, newId);
  }

  /** `self.script = proc_dict` and `self.save()`. */
  method SaveWithScript(job: MongoModel, db: Database, clock: Clock.Clock, sd: Value, newId: ObjectId)
    returns (after: Option<Error>)
    requires job.kind == JobKind
    modifies job, db, clock
    ensures Effect(job.id, job.doc, db.Records("jobs"), after) ==
      SaveSpec(JobKind, old(job.id), old(job.doc)["script" := sd], old(db.Records("jobs")), clock.now, newId)
    ensures forall n :: n != "jobs" ==> db.Records(n) == old(db.Records(n))
  {
    var _ := job.SetAttr("script", sd);
    after := job.Save(db, clock, newId);
  }

  /** `Job.update(data=None)` as written: `data` defaults to None, and
      `MongoModel.update` passes it to `dict.update`, which raises a
      TypeError for None, after `edited` has been stamped. */
  function UpdateAsWritten(id: Option<ObjectId>, doc: Doc, recs: seq<Doc>, t: int, data: Option<Doc>): Effect {
    match data
    case None => Effect(id, doc["edited" := VTime(t)], recs, Some(BadArguments("'NoneType' object is not iterable")))
    case Some(d) => UpdateSpec(JobKind, id, doc, recs, t, d)
  }

  /** `save()` on a job as written: it calls `self.update()` without data. */
  function SaveAsWritten(id: Option<ObjectId>, doc: Doc, recs: seq<Doc>, t: int, newId: ObjectId): Effect {
    if id.Some? then UpdateAsWritten(id, doc, recs, t, None) else CreateSpec(JobKind, id, doc, recs, t, newId)
  }

  /** As written, saving a job that has an identity always raises a
      TypeError and writes nothing, so the saves in `start` and in
      `Process.run` fail for every stored job. */
  lemma SaveOfStoredJobRaises(o: ObjectId, doc: Doc, recs: seq<Doc>, t: int, newId: ObjectId)
    ensures var e := SaveAsWritten(Some(o), doc, recs, t, newId);
      e.err.Some? && ClassOf(e.err.value) == TypeErrorClass && e.records == recs
  {
  }

  /** With `update()` merging nothing, as `MongoModel.update` does by
      default, saving a stored job writes its document over its record. */
  lemma SaveOfStoredJobWrites(o: ObjectId, doc: Doc, recs: seq<Doc>, t: int, newId: ObjectId)
    requires FindOne(recs, IdFilter(VId(o))).Some?
    requires "_id" !in doc || doc["_id"] == VId(o)
    ensures var e := SaveSpec(JobKind, Some(o), doc, recs, t, newId);
      e.err.None? && e.id == Some(o) &&
      FindOne(e.records, IdFilter(VId(o))) == Some(FindOne(recs, IdFilter(VId(o))).value + doc["edited" := VTime(t)])
  {
    var f := IdFilter(VId(o));
    var i := FirstMatch(recs, f).value;
    assert "_id" in f && Get(recs[i], "_id") == VId(o);
    UpdatedIsFound(JobKind, Some(o), doc, recs, t, map[]);
    assert doc["edited" := VTime(t)] + map[] == doc["edited" := VTime(t)];
  }
}
