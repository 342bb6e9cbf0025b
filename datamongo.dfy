/** `DataMongo` (collection `data`): a `MongoModel` that holds a data
    payload in its `data` field and says in `datatype` how to read it. */
module DataMongo {
  import opened Values
  import opened Mongo

  /** The keywords `DataMongo.__init__` passes on to `MongoModel.__init__`. */
  function Rest(kw: Doc): Doc {
    kw - {"data", "datatype"}
  }

  /** `DataMongo(**kw)` succeeds: no `self` keyword, and every
      identity-named keyword parses. */
  predicate Accepts(kw: Doc) {
    "self" !in kw && IdKeysValid(Rest(kw))
  }

  /** The document `DataMongo(**kw)` builds: the other keywords, then `data`
      and `datatype`, both None unless given. */
  function InitDoc(kw: Doc): Doc {
    DocPart(Rest(kw))["data" := Get(kw, "data")]["datatype" := Get(kw, "datatype")]
  }

  /** `DataMongo(**kw)`. */
  method New(kw: Doc) returns (r: Result<MongoModel>)
    ensures r.Ok? <==> Accepts(kw)
    ensures r.Ok? ==>
      (fresh(r.value) && r.value.kind == DataKind && r.value.doc == InitDoc(kw) && IdFrom(Rest(kw), r.value.id))
    ensures r.Err? ==> ClassOf(r.error) in {TypeErrorClass, InvalidIdClass}
  {
    if "self" in kw {
      return Err(BadArguments("got multiple values for argument 'self'"));
    }
    var m := new MongoModel(DataKind);
    var e := m.SetAll(Rest(kw));
    if e.Some? {
      return Err(e.value);
    }
    assert m.doc == DocPart(Rest(kw));
    var _ := m.SetAttr("data", Get(kw, "data"));
    var _ := m.SetAttr("datatype", Get(kw, "datatype"));
    r := Ok(m);
  }

  /** A record read back into a `DataMongo` keeps its `data` and `datatype`
      fields, None when the record has none. */
  lemma FieldsDefaultToNone(kw: Doc)
    ensures Get(InitDoc(kw), "data") == Get(kw, "data")
    ensures Get(InitDoc(kw), "datatype") == Get(kw, "datatype")
    ensures InitDoc(map[]) == map["data" := VNone, "datatype" := VNone]
  {
    assert DocPart(map[]) == map[];
  }

  /** `read()`: `timeseries` and `dataframe` turn the payload into a
      DataFrame; any other `datatype`, None included, returns it unchanged. */
  function Read(m: MongoModel): (r: Value)
    reads m
    ensures m.Attr("datatype") in {VStr("timeseries"), VStr("dataframe")} ==> r == VFrame(FrameOf(m.Attr("data")))
    ensures m.Attr("datatype") !in {VStr("timeseries"), VStr("dataframe")} ==> r == m.Attr("data")
  {
    var t := m.Attr("datatype");
    if t == VNone then m.Attr("data")
    else if t == VStr("timeseries") || t == VStr("dataframe") then VFrame(FrameOf(m.Attr("data")))
    else m.Attr("data")
  }

  /** `DataMongo.update(data)` stamps `edited` and then merges as
      `MongoModel.update` does; `create` stamps `created` only when unset. */
  lemma Stamps(id: Option<ObjectId>, doc: Doc, recs: seq<Doc>, t: int, data: Doc, newId: ObjectId)
    ensures UpdateSpec(DataKind, id, doc, recs, t, data) == BaseUpdateSpec(id, doc["edited" := VTime(t)], recs, data)
    ensures Get(doc, "created") != VNone ==>
      CreateSpec(DataKind, id, doc, recs, t, newId) == BaseCreateSpec(id, doc, recs, newId)
    ensures Get(doc, "created") == VNone ==>
      CreateSpec(DataKind, id, doc, recs, t, newId) == BaseCreateSpec(id, doc["created" := VTime(t)], recs, newId)
  {
  }
}
