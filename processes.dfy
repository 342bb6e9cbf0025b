/** `Process`: one run of a script function on a job's data, recording the
    run's start, end, duration and result on the job. */
module Processes {
  import opened Values
  import opened Store
  import opened Mongo
  import opened Scripts
  import Clock

  /** `Process(f, data, args, kwargs, job)`: the function, the payload it is
      given, the extra positional and keyword arguments, and the job that
      records the run. */
  datatype Process = Process(f: Func, data: Value, args: Value, kwargs: Value, job: MongoModel)

  /** Calling a script function with positional and keyword arguments. */
  type Invoker = (Func, seq<Value>, Doc) -> Result<Value>

  /** `to_dict()`: the function's name and the arguments the process was built with, nothing else. */
  function ToDict(p: Process): (r: Value)
    ensures r.VDict? && r.fields.Keys == {"name", "args", "kwargs"}
    ensures r.fields["name"] == VStr(p.f.name) && r.fields["args"] == p.args && r.fields["kwargs"] == p.kwargs
  {
    VDict(map["name" := VStr(p.f.name), "args" := p.args, "kwargs" := p.kwargs])
  }

  /** `self.f(self.data, *self.args, **self.kwargs)`: the payload is the
      first positional argument, the process's `args` follow it, and its
      `kwargs` are the keyword arguments. Unpacking needs a list and a
      dictionary; anything else is a TypeError before the call. */
  function Call(p: Process, invoke: Invoker): (r: Result<Value>)
    ensures !p.args.VList? || !p.kwargs.VDict? ==> r.Err? && ClassOf(r.error) == TypeErrorClass
    ensures p.args.VList? && p.kwargs.VDict? ==> r == invoke(p.f, [p.data] + p.args.items, p.kwargs.fields)
  {
    if !p.args.VList? then Err(BadArguments("argument after * must be an iterable"))
    else if !p.kwargs.VDict? then Err(BadArguments("argument after ** must be a mapping"))
    else invoke(p.f, [p.data] + p.args.items, p.kwargs.fields)
  }

  /** A DataFrame result is replaced by its `to_dict()`; any other result is kept. */
  function Normalise(output: Value, frameToDict: Frame -> Value): (r: Value)
    ensures output.VFrame? ==> r == frameToDict(output.frame)
    ensures !output.VFrame? ==> r == output
  {
    if output.VFrame? then frameToDict(output.frame) else output
  }

  /** Saving the job in the middle of a run: the effect is `save`'s, and
      the fields a run writes keep their values. */
  method SaveRun(job: MongoModel, db: Database, clock: Clock.Clock, newId: ObjectId) returns (err: Option<Error>)
    requires job.kind == JobKind
    modifies job, db, clock
    ensures old(clock.now) <= clock.now
    ensures Effect(job.id, job.doc, db.Records("jobs"), err) ==
      SaveSpec(JobKind, old(job.id), old(job.doc), old(db.Records("jobs")), clock.now, newId)
    ensures Get(job.doc, "started") == old(Get(job.doc, "started")) && Get(job.doc, "finished") == old(Get(job.doc, "finished"))
    ensures Get(job.doc, "time_sec") == old(Get(job.doc, "time_sec")) && Get(job.doc, "result") == old(Get(job.doc, "result"))
    ensures forall n :: n != "jobs" ==> db.Records(n) == old(db.Records(n))
  {
    err := job.Save(db, clock, newId);
    SaveKeepsFields(JobKind, old(job.id), old(job.doc), old(db.Records("jobs")), clock.now, newId, "started");
    SaveKeepsFields(JobKind, old(job.id), old(job.doc), old(db.Records("jobs")), clock.now, newId, "finished");
    SaveKeepsFields(JobKind, old(job.id), old(job.doc), old(db.Records("jobs")), clock.now, newId, "time_sec");
    SaveKeepsFields(JobKind, old(job.id), old(job.doc), old(db.Records("jobs")), clock.now, newId, "result");
  }

  /** The first half of `run()`: stamp `started` and save. */
  method Begin(job: MongoModel, db: Database, clock: Clock.Clock, newId: ObjectId)
    returns (err: Option<Error>, ghost started: int)
    requires job.kind == JobKind
    modifies job, db, clock
    ensures old(clock.now) <= started <= clock.now
    ensures Effect(job.id, job.doc, db.Records("jobs"), err) ==
      SaveSpec(JobKind, old(job.id), old(job.doc)["started" := VTime(started)], old(db.Records("jobs")), clock.now, newId)
    ensures Get(job.doc, "started") == VTime(started)
    ensures Get(job.doc, "finished") == Get(old(job.doc), "finished")
    ensures Get(job.doc, "time_sec") == Get(old(job.doc), "time_sec")
    ensures Get(job.doc, "result") == Get(old(job.doc), "result")
    ensures forall n :: n != "jobs" ==> db.Records(n) == old(db.Records(n))
  {
    var t := clock.UtcNow();
    started := t;
    var _ := job.SetAttr("started", VTime(t));
    err := SaveRun(job, db, clock, newId);
  }

  /** Writing `finished`, `time_sec` (from the recorded `started`) and `result`. */
  method Record(job: MongoModel, f: int, result: Value)
    requires Get(job.doc, "started").VTime?
    modifies job
    ensures job.id == old(job.id)
    ensures job.doc == old(job.doc)["finished" := VTime(f)]["time_sec" := VInt(f - old(Get(job.doc, "started")).t)]
                                   ["result" := result]
    ensures Get(job.doc, "started") == old(Get(job.doc, "started")) && Get(job.doc, "finished") == VTime(f)
    ensures Get(job.doc, "time_sec") == VInt(f - old(Get(job.doc, "started")).t) && Get(job.doc, "result") == result
  {
    var _ := job.SetAttr("finished", VTime(f));
    var st := job.Attr("started");
    var _ := job.SetAttr("time_sec", VInt(f - st.t));
    var _ := job.SetAttr("result", result);
  }

  /** The second half of `run()`: stamp `finished`, store the duration since
      the recorded `started` and the result, and save. */
  method Finish(job: MongoModel, db: Database, clock: Clock.Clock, result: Value, newId: ObjectId)
    returns (err: Option<Error>, ghost finished: int)
    requires job.kind == JobKind && Get(job.doc, "started").VTime?
    modifies job, db, clock
    ensures old(clock.now) <= finished <= clock.now
    ensures Effect(job.id, job.doc, db.Records("jobs"), err) ==
      SaveSpec(JobKind, old(job.id),
        old(job.doc)["finished" := VTime(finished)]["time_sec" := VInt(finished - old(Get(job.doc, "started")).t)]
                    ["result" := result],
        old(db.Records("jobs")), clock.now, newId)
    ensures Get(job.doc, "started") == old(Get(job.doc, "started"))
    ensures Get(job.doc, "finished") == VTime(finished)
    ensures Get(job.doc, "time_sec") == VInt(finished - old(Get(job.doc, "started")).t)
    ensures Get(job.doc, "result") == result
    ensures forall n :: n != "jobs" ==> db.Records(n) == old(db.Records(n))
  {
    var f := clock.UtcNow();
    finished := f;
    Record(job, f, result);
    err := SaveRun(job, db, clock, newId);
  }

  /** `run()`: `started` is stamped and the job saved before the function
      is called; after a normal return `finished`, `time_sec` and `result`
      are set and the job is saved again. Nothing is caught: an exception
      from the first save or from the function ends the run with `started`
      recorded and `finished`, `time_sec` and `result` as they were. The
      ghost results name the clock readings and the state after the first
      save. */
  method Run(p: Process, db: Database, clock: Clock.Clock, invoke: Invoker, frameToDict: Frame -> Value, newId: ObjectId)
    returns (err: Option<Error>, ghost started: int, ghost saved: int, ghost mid: Effect, ghost finished: int)
    requires p.job.kind == JobKind
    modifies p.job, db, clock
    ensures old(clock.now) <= started <= saved <= clock.now
    ensures mid == SaveSpec(JobKind, old(p.job.id), old(p.job.doc)["started" := VTime(started)], old(db.Records("jobs")), saved, newId)
    ensures mid.err.Some? ==> Effect(p.job.id, p.job.doc, db.Records("jobs"), err) == mid
    ensures mid.err.None? && Call(p, invoke).Err? ==>
      Effect(p.job.id, p.job.doc, db.Records("jobs"), err) == mid.(err := Some(Call(p, invoke).error))
    ensures mid.err.None? && Call(p, invoke).Ok? ==>
      saved <= finished &&
      Effect(p.job.id, p.job.doc, db.Records("jobs"), err) ==
        SaveSpec(JobKind, mid.id,
          mid.doc["finished" := VTime(finished)]["time_sec" := VInt(finished - started)]
                 ["result" := Normalise(Call(p, invoke).value, frameToDict)],
          mid.records, clock.now, newId)
    ensures Get(p.job.doc, "started") == VTime(started)
    ensures mid.err.Some? || Call(p, invoke).Err? ==>
      (err.Some? && Get(p.job.doc, "finished") == Get(old(p.job.doc), "finished") &&
       Get(p.job.doc, "time_sec") == Get(old(p.job.doc), "time_sec") &&
       Get(p.job.doc, "result") == Get(old(p.job.doc), "result"))
    ensures mid.err.None? && Call(p, invoke).Ok? ==>
      (Get(p.job.doc, "finished") == VTime(finished) && Get(p.job.doc, "time_sec") == VInt(finished - started) &&
       finished - started >= 0 && Get(p.job.doc, "result") == Normalise(Call(p, invoke).value, frameToDict))
    ensures forall n :: n != "jobs" ==> db.Records(n) == old(db.Records(n))
  {
    err, started := Begin(p.job, db, clock, newId);
    saved := clock.now;
    mid := Effect(p.job.id, p.job.doc, db.Records("jobs"), err);
    if err.Some? {
      finished := saved;
      return;
    }
    var output := Call(p, invoke);
    if output.Err? {
      err := Some(output.error);
      finished := saved;
      return;
    }
    err, finished := Finish(p.job, db, clock, Normalise(output.value, frameToDict), newId);
  }
}
