/** `MongoModel`: an attribute bag backed by one MongoDB document. Writing
    an attribute either sets the identity slot (names `_id`/`id` in any case)
    or a key of the document; reading one looks it up in the document.
    `Job`, `User` and `DataMongo` subclass it and override `create` and
    `update`; `save` reaches the override through `self`. Here the class
    carries a `kind` tag and `Create`/`Update` select the override by it. */
module Mongo {
  import opened Values
  import opened Store
  import Clock

  /** The subclass an instance belongs to. */
  datatype Kind = JobKind | UserKind | DataKind

  /** The class attribute `collection` of each subclass. */
  function Collection(k: Kind): string {
    match k
    case JobKind => "jobs"
    case UserKind => "users"
    case DataKind => "data"
  }

  /** `key.lower() == '_id' or key.lower() == 'id'`: the names of the identity slot. */
  predicate IsIdKey(key: string) {
    || (|key| == 3 && key[0] == '_' && LowerChar(key[1]) == 'i' && LowerChar(key[2]) == 'd')
    || (|key| == 2 && LowerChar(key[0]) == 'i' && LowerChar(key[1]) == 'd')
  }

  /** `IsIdKey` is the comparison of the lower-cased name. */
  lemma IsIdKeyLower(key: string)
    ensures IsIdKey(key) <==> Lower(key) == "_id" || Lower(key) == "id"
  {
    if Lower(key) == "_id" {
      assert LowerChar(key[0]) == '_';
    }
    if IsIdKey(key) && |key| == 3 {
      assert Lower(key) == "_id";
    }
    if IsIdKey(key) && |key| == 2 {
      assert Lower(key) == "id";
    }
  }

  /** The entries among `keys` that a keyword loop writes to the document. */
  function DocPartOn(kw: Doc, keys: set<string>): Doc {
    map k | k in keys && k in kw && !IsIdKey(k) :: kw[k]
  }

  /** The entries of a keyword dictionary that land in the document. */
  function DocPart(kw: Doc): Doc {
    DocPartOn(kw, kw.Keys)
  }

  predicate HasIdKeyIn(kw: Doc, keys: set<string>) {
    exists k :: k in keys && k in kw && IsIdKey(k)
  }

  /** The identity a keyword loop leaves on a fresh instance: none without
      an identity-named entry, else the parse of one of them. */
  predicate IdFrom(kw: Doc, id: Option<ObjectId>) {
    && (!HasIdKeyIn(kw, kw.Keys) ==> id == None)
    && (HasIdKeyIn(kw, kw.Keys) ==> id.Some? && exists k :: k in kw && IsIdKey(k) && IdFromValue(kw[k]) == Ok(id.value))
  }

  /** Every identity-named entry holds something `ObjectId(...)` accepts. */
  predicate IdKeysValid(kw: Doc) {
    forall k :: k in kw && IsIdKey(k) ==> IdFromValue(kw[k]).Ok?
  }

  /** `to_dict(stringify=True)`'s `_stringify`: dictionaries keep their keys
      and are converted value by value, every other value becomes its `str`. */
  function Stringify(v: Value, show: Value -> string): (r: Value)
    ensures v.VDict? <==> r.VDict?
    ensures v.VDict? ==> r.fields.Keys == v.fields.Keys
  {
    match v
    case VDict(m) => VDict(map k | k in m :: Stringify(m[k], show))
    case _ => VStr(Str(v, show))
  }

  /** Every leaf of a value is a string. */
  predicate AllStrings(v: Value) {
    match v
    case VDict(m) => forall k :: k in m ==> AllStrings(m[k])
    case VStr(_) => true
    case _ => false
  }

  /** A stringified value has only string leaves. */
  lemma {:induction false} StringifyGivesStrings(v: Value, show: Value -> string)
    ensures AllStrings(Stringify(v, show))
  {
    match v
    case VDict(m) =>
      forall k | k in m ensures AllStrings(Stringify(v, show).fields[k]) {
        StringifyGivesStrings(m[k], show);
      }
    case _ =>
  }

  /** Stringifying twice is stringifying once. */
  lemma {:induction false} StringifyIdempotent(v: Value, show: Value -> string)
    ensures Stringify(Stringify(v, show), show) == Stringify(v, show)
  {
    match v
    case VDict(m) =>
      var once := Stringify(v, show);
      forall k | k in m ensures Stringify(once.fields[k], show) == once.fields[k] {
        StringifyIdempotent(m[k], show);
      }
      assert Stringify(once, show).fields == once.fields;
    case _ =>
  }

  /** A value with string leaves only is left as it is by stringifying. */
  lemma {:induction false} StringifyKeepsStrings(v: Value, show: Value -> string)
    requires AllStrings(v)
    ensures Stringify(v, show) == v
  {
    match v
    case VDict(m) =>
      forall k | k in m ensures Stringify(m[k], show) == m[k] {
        StringifyKeepsStrings(m[k], show);
      }
      assert Stringify(v, show).fields == m;
    case VStr(_) =>
  }

  /** The state a persisting call leaves: the identity slot, the document,
      the records of the model's collection, and the exception raised, if any. */
  datatype Effect = Effect(id: Option<ObjectId>, doc: Doc, records: seq<Doc>, err: Option<Error>)

  /** `MongoModel.create`: a set id is copied into the document as `_id`;
      `insert_one` adds a generated `_id` when there is none and writes the
      document; the inserted `_id` then becomes the identity (through
      `__setattr__`, so it is parsed again). */
  function BaseCreateSpec(id: Option<ObjectId>, doc: Doc, recs: seq<Doc>, newId: ObjectId): Effect {
    var d := if id.Some? then doc["_id" := VId(id.value)] else doc;
    var stored := WithId(d, newId);
    match Insert(recs, stored)
    case Err(e) => Effect(id, stored, recs, Some(e))
    case Ok(recs') =>
      match IdFromValue(stored["_id"])
      case Ok(o) => Effect(Some(o), stored, recs', None)
      case Err(e) => Effect(id, stored, recs', Some(e))
  }

  /** `MongoModel.update(data)`: `data` is merged into the document, incoming
      keys winning, and the whole document is `$set` on the record whose
      `_id` is the identity. */
  function BaseUpdateSpec(id: Option<ObjectId>, doc: Doc, recs: seq<Doc>, data: Doc): Effect {
    var d := doc + data;
    match UpdateFirst(recs, IdFilter(IdValue(id)), d)
    case Ok(r) => Effect(id, d, r, None)
    case Err(e) => Effect(id, d, recs, Some(e))
  }

  /** `create` as the subclass overrides it: `Job` and `DataMongo` stamp
      `created` with the clock reading `t` when it is None; `User` refuses an
      e-mail that a record of the collection already has. */
  function CreateSpec(kind: Kind, id: Option<ObjectId>, doc: Doc, recs: seq<Doc>, t: int, newId: ObjectId): Effect {
    match kind
    case UserKind =>
      var email := Get(doc, "email");
      if FirstMatch(recs, map["email" := email]).Some? then Effect(id, doc, recs, Some(EmailTaken(email)))
      else BaseCreateSpec(id, doc, recs, newId)
    case _ =>
      var d := if Get(doc, "created") == VNone then doc["created" := VTime(t)] else doc;
      BaseCreateSpec(id, d, recs, newId)
  }

  /** `update(data)` as the subclass overrides it: `Job` and `DataMongo` stamp
      `edited` with the clock reading `t`; `User` looks up its own record
      (an AttributeError when there is none) and refuses a new e-mail that
      differs from the stored one and is registered already. */
  function UpdateSpec(kind: Kind, id: Option<ObjectId>, doc: Doc, recs: seq<Doc>, t: int, data: Doc): Effect {
    match kind
    case UserKind =>
      var newMail := GetOr(data, "email", Get(doc, "email"));
      (match FindOne(recs, IdFilter(IdValue(id)))
       case None => Effect(id, doc, recs, Some(NoAttribute("'NoneType' object has no attribute 'get'")))
       case Some(rec) =>
         if Get(rec, "email") != newMail && FirstMatch(recs, map["email" := newMail]).Some?
         then Effect(id, doc, recs, Some(EmailTaken(newMail)))
         else BaseUpdateSpec(id, doc, recs, data))
    case _ => BaseUpdateSpec(id, doc["edited" := VTime(t)], recs, data)
  }

  /** `save`: update when the identity is set, create otherwise. */
  function SaveSpec(kind: Kind, id: Option<ObjectId>, doc: Doc, recs: seq<Doc>, t: int, newId: ObjectId): (e: Effect)
    ensures id.Some? ==> e == UpdateSpec(kind, id, doc, recs, t, map[])
    ensures id.None? ==> e == CreateSpec(kind, id, doc, recs, t, newId)
  {
    if id.Some? then UpdateSpec(kind, id, doc, recs, t, map[]) else CreateSpec(kind, id, doc, recs, t, newId)
  }

  /** After a create without error, the identity is set and a lookup by it
      finds exactly the local document. */
  lemma CreatedIsFound(kind: Kind, id: Option<ObjectId>, doc: Doc, recs: seq<Doc>, t: int, newId: ObjectId)
    requires CreateSpec(kind, id, doc, recs, t, newId).err.None?
    ensures var e := CreateSpec(kind, id, doc, recs, t, newId);
      e.id.Some? && "_id" in e.doc && FindOne(e.records, IdFilter(e.doc["_id"])) == Some(e.doc)
  {
    var d := if kind == UserKind then doc
             else if Get(doc, "created") == VNone then doc["created" := VTime(t)] else doc;
    var d0 := if id.Some? then d["_id" := VId(id.value)] else d;
    FindAfterInsert(recs, WithId(d0, newId));
  }

  /** A preset identity is the `_id` the record is stored under, and stays the identity. */
  lemma CreateKeepsPresetId(kind: Kind, o: ObjectId, doc: Doc, recs: seq<Doc>, t: int, newId: ObjectId)
    requires CreateSpec(kind, Some(o), doc, recs, t, newId).err.None?
    ensures var e := CreateSpec(kind, Some(o), doc, recs, t, newId);
      e.id == Some(o) && e.doc["_id"] == VId(o) && e.records == recs + [e.doc]
  {
  }

  /** `created` is stamped only when it was None: a supplied value survives `create`. */
  lemma CreateKeepsCreated(kind: Kind, id: Option<ObjectId>, doc: Doc, recs: seq<Doc>, t: int, newId: ObjectId)
    requires kind != UserKind
    ensures var e := CreateSpec(kind, id, doc, recs, t, newId);
      Get(e.doc, "created") == (if Get(doc, "created") == VNone then VTime(t) else Get(doc, "created"))
  {
  }

  /** `save` touches no field except the stamps `created` and `edited` and
      the `_id` a create writes. */
  lemma SaveKeepsFields(kind: Kind, id: Option<ObjectId>, doc: Doc, recs: seq<Doc>, t: int, newId: ObjectId, k: string)
    requires k != "created" && k != "edited" && k != "_id"
    ensures Get(SaveSpec(kind, id, doc, recs, t, newId).doc, k) == Get(doc, k)
  {
    if id.Some? {
      var d := if kind == UserKind then doc else doc["edited" := VTime(t)];
      assert Get(d, k) == Get(doc, k);
      UpdateWithoutDataKeeps(id, d, recs, k);
    } else if kind != UserKind {
      var d := if Get(doc, "created") == VNone then doc["created" := VTime(t)] else doc;
      assert Get(d, k) == Get(doc, k);
      CreateKeepsOtherKeys(id, d, recs, newId, k);
    } else {
      CreateKeepsOtherKeys(id, doc, recs, newId, k);
    }
  }

  /** The base create writes no key of the document but `_id`. */
  lemma CreateKeepsOtherKeys(id: Option<ObjectId>, doc: Doc, recs: seq<Doc>, newId: ObjectId, k: string)
    requires k != "_id"
    ensures Get(BaseCreateSpec(id, doc, recs, newId).doc, k) == Get(doc, k)
  {
    var d := if id.Some? then doc["_id" := VId(id.value)] else doc;
    assert Get(d, k) == Get(doc, k);
    assert Get(WithId(d, newId), k) == Get(d, k);
  }

  /** The base update with no data keeps the document as it is. */
  lemma UpdateWithoutDataKeeps(id: Option<ObjectId>, doc: Doc, recs: seq<Doc>, k: string)
    ensures Get(BaseUpdateSpec(id, doc, recs, map[]).doc, k) == Get(doc, k)
  {
    assert doc + map[] == doc;
  }

  /** After an update without error, a lookup by the identity finds the old
      record with every field of the local document written over it. */
  lemma UpdatedIsFound(kind: Kind, id: Option<ObjectId>, doc: Doc, recs: seq<Doc>, t: int, data: Doc)
    requires UpdateSpec(kind, id, doc, recs, t, data).err.None?
    ensures var e := UpdateSpec(kind, id, doc, recs, t, data);
      e.id == id &&
      FindOne(e.records, IdFilter(IdValue(id))) ==
        (match FindOne(recs, IdFilter(IdValue(id))) case None => None case Some(r) => Some(r + e.doc))
  {
    var d := if kind == UserKind then doc + data else doc["edited" := VTime(t)] + data;
    FindAfterUpdate(recs, IdValue(id), d);
  }

  /** The `e-mail` is the `users` collection's uniqueness key. */
  predicate EmailRegistered(db: Database, email: Value)
    reads db
  {
    db.Any("users", map["email" := email])
  }

  /** `get`'s lookup: a class without a collection is a ValueError; an
      ObjectId is used as it is, a string that does not parse as one finds
      nothing, any other value is a TypeError. The caller's filter, with
      `_id` set to the parsed identity, selects the first matching record. */
  function FindById(collection: Option<string>, db: Database, key: Value, filter: Doc): (r: Result<Option<Doc>>)
    reads db
    ensures collection.None? <==> r == Err(NoCollection)
    ensures collection.Some? && key.VStr? && ParseObjectId(key.s).None? ==> r == Ok(None)
    ensures collection.Some? && !key.VStr? && !key.VId? ==> r.Err? && ClassOf(r.error) == TypeErrorClass
    ensures r.Ok? && r.value.Some? ==>
      (r.value.value in db.Records(collection.value) && Get(r.value.value, "_id") == VId(IdFromValue(key).value) &&
       Matches(r.value.value, filter["_id" := VId(IdFromValue(key).value)]))
    ensures collection.Some? && IdFromValue(key).Ok? ==>
      (r.Ok? && r.value.None? <==>
       forall d :: d in db.Records(collection.value) ==> !Matches(d, filter["_id" := VId(IdFromValue(key).value)]))
  {
    match collection
    case None => Err(NoCollection)
    case Some(c) =>
      match IdFromValue(key)
      case Err(e) => if key.VStr? then Ok(None) else Err(e)
      case Ok(o) =>
        var f := filter["_id" := VId(o)];
        var res := FindOne(db.Records(c), f);
        assert res.Some? ==> Get(res.value, "_id") == f["_id"];
        Ok(res)
  }

  /** `id_exists`: the text must parse as an ObjectId (InvalidId otherwise);
      then whether a record has that `_id`. */
  function IdExists(kind: Kind, db: Database, idText: string): (r: Result<bool>)
    reads db
    ensures ParseObjectId(idText).None? <==> r == Err(InvalidObjectId)
    ensures r.Ok? ==> (r.value <==> exists d :: d in db.Records(Collection(kind)) && Get(d, "_id") == VId(ParseObjectId(idText).value))
  {
    match ParseObjectId(idText)
    case None => Err(InvalidObjectId)
    case Some(o) =>
      var f := IdFilter(VId(o));
      var r := FirstMatch(db.Records(Collection(kind)), f);
      assert forall d :: d in db.Records(Collection(kind)) && Get(d, "_id") == VId(o) ==> Matches(d, f);
      Ok(r.Some?)
  }

  /** `get_all`'s query: every record that matches the filter, in order. */
  function FindAllIn(collection: Option<string>, db: Database, filter: Doc): (r: Result<seq<Doc>>)
    reads db
    ensures collection.None? <==> r.Err?
    ensures r.Ok? ==> forall d :: d in r.value <==> d in db.Records(collection.value) && Matches(d, filter)
  {
    match collection
    case None => Err(NoCollection)
    case Some(c) => Ok(FindAll(db.Records(c), filter))
  }

  class MongoModel {
    const kind: Kind
    /** The identity slot (`self.__dict__['_id']`). */
    var id: Option<ObjectId>
    /** The document (`self.__dict__['_doc']`). */
    var doc: Doc

    /** `MongoModel.__init__()` without keywords: no identity, an empty document. */
    constructor (kind: Kind)
      ensures this.kind == kind && id == None && doc == map[]
    {
      this.kind := kind;
      id := None;
      doc := map[];
    }

    /** `__getattr__`: an attribute never written and one written as None read the same. */
    function Attr(name: string): (v: Value)
      reads this
      ensures v == VNone <==> name !in doc || doc[name] == VNone
      ensures name in doc ==> v == doc[name]
    {
      Get(doc, name)
    }

    /** `__setattr__`: an identity name parses the value into the identity
      slot (an ObjectId is kept; anything else must parse) and leaves the
      document alone; any other name writes that key of the document only. */
    method SetAttr(key: string, value: Value) returns (err: Option<Error>)
      modifies this
      ensures IsIdKey(key) ==> doc == old(doc)
      ensures IsIdKey(key) && IdFromValue(value).Ok? ==> err == None && id == Some(IdFromValue(value).value)
      ensures IsIdKey(key) && IdFromValue(value).Err? ==> err == Some(IdFromValue(value).error) && id == old(id)
      ensures !IsIdKey(key) ==> err == None && id == old(id) && doc == old(doc)[key := value]
    {
      if IsIdKey(key) {
        var o := IdFromValue(value);
        if o.Err? {
          return Some(o.error);
        }
        id := Some(o.value);
      } else {
        doc := doc[key := value];
      }
      err := None;
    }

    /** `__delattr__`: the identity cannot be deleted; any other name removes
      that key, a KeyError when it is absent. */
    method DelAttr(key: string) returns (err: Option<Error>)
      modifies this
      ensures id == old(id)
      ensures IsIdKey(key) ==> err == Some(DeleteIdentity) && doc == old(doc)
      ensures !IsIdKey(key) && key in old(doc) ==> err == None && doc == old(doc) - {key}
      ensures !IsIdKey(key) && key !in old(doc) ==> err == Some(MissingKey(key)) && doc == old(doc)
    {
      if IsIdKey(key) {
        return Some(DeleteIdentity);
      }
      if key !in doc {
        return Some(MissingKey(key));
      }
      doc := doc - {key};
      err := None;
    }

    /** The keyword loop of `__init__`: `setattr(self, key, kw[key])` for each
      key. The order of a Python dict is not modelled, so keys are taken in
      any order; the document's result does not depend on it, and the
      identity ends up parsed from one of the identity-named entries. */
    method SetAll(kw: Doc) returns (err: Option<Error>)
      modifies this
      ensures err.None? <==> IdKeysValid(kw)
      ensures err.Some? ==> exists k :: k in kw && IsIdKey(k) && IdFromValue(kw[k]) == Err(err.value)
      ensures err.None? ==> doc == old(doc) + DocPart(kw)
      ensures err.None? && !HasIdKeyIn(kw, kw.Keys) ==> id == old(id)
      ensures err.None? && HasIdKeyIn(kw, kw.Keys) ==>
        id.Some? && exists k :: k in kw && IsIdKey(k) && IdFromValue(kw[k]) == Ok(id.value)
    {
      var rest := kw.Keys;
      ghost var done: set<string> := {};
      while rest != {}
        invariant rest + done == kw.Keys && rest !! done
        invariant doc == old(doc) + DocPartOn(kw, done)
        invariant forall k :: k in done && IsIdKey(k) ==> IdFromValue(kw[k]).Ok?
        invariant !HasIdKeyIn(kw, done) ==> id == old(id)
        invariant HasIdKeyIn(kw, done) ==>
          id.Some? && exists k :: k in done && IsIdKey(k) && IdFromValue(kw[k]) == Ok(id.value)
        decreases rest
      {
        var k :| k in rest;
        var e := SetAttr(k, kw[k]);
        if e.Some? {
          assert IdFromValue(kw[k]) == Err(e.value);
          return e;
        }
        assert DocPartOn(kw, done + {k}) == if IsIdKey(k) then DocPartOn(kw, done) else DocPartOn(kw, done)[k := kw[k]];
        rest := rest - {k};
        done := done + {k};
      }
      err := None;
    }

    /** `MongoModel.create`. */
    method BaseCreate(db: Database, newId: ObjectId) returns (err: Option<Error>)
      modifies this, db
      ensures Effect(id, doc, db.Records(Collection(kind)), err) ==
        BaseCreateSpec(old(id), old(doc), old(db.Records(Collection(kind))), newId)
      ensures forall n :: n != Collection(kind) ==> db.Records(n) == old(db.Records(n))
    {
      var c := Collection(kind);
      if id.Some? {
        doc := doc["_id" := VId(id.value)];
      }
      var r := db.InsertOne(c, doc, newId);
      doc := WithId(doc, newId);
      if r.Err? {
        return Some(r.error);
      }
      err := SetAttr("_id", r.value["_id"]);
    }

    /** `MongoModel.update(data)`. */
    method BaseUpdate(db: Database, data: Doc) returns (err: Option<Error>)
      modifies this, db
      ensures Effect(id, doc, db.Records(Collection(kind)), err) ==
        BaseUpdateSpec(old(id), old(doc), old(db.Records(Collection(kind))), data)
      ensures forall n :: n != Collection(kind) ==> db.Records(n) == old(db.Records(n))
    {
      doc := doc + data;
      err := db.UpdateOne(Collection(kind), IdFilter(IdValue(id)), doc);
    }

    /** `create`, reaching the subclass override. */
    method Create(db: Database, clock: Clock.Clock, newId: ObjectId) returns (err: Option<Error>)
      modifies this, db, clock
      ensures old(clock.now) <= clock.now
      ensures Effect(id, doc, db.Records(Collection(kind)), err) ==
        CreateSpec(kind, old(id), old(doc), old(db.Records(Collection(kind))), clock.now, newId)
      ensures forall n :: n != Collection(kind) ==> db.Records(n) == old(db.Records(n))
    {
      if kind == UserKind {
        var email := Attr("email");
        if db.Any("users", map["email" := email]) {
          return Some(EmailTaken(email));
        }
      } else if Attr("created") == VNone {
        var t := clock.UtcNow();
        var _ := SetAttr("created", VTime(t));
      }
      err := BaseCreate(db, newId);
    }

    /** `update(data)`, reaching the subclass override. */
    method Update(db: Database, clock: Clock.Clock, data: Doc) returns (err: Option<Error>)
      modifies this, db, clock
      ensures old(clock.now) <= clock.now
      ensures Effect(id, doc, db.Records(Collection(kind)), err) ==
        UpdateSpec(kind, old(id), old(doc), old(db.Records(Collection(kind))), clock.now, data)
      ensures forall n :: n != Collection(kind) ==> db.Records(n) == old(db.Records(n))
    {
      if kind == UserKind {
        var newMail := GetOr(data, "email", Attr("email"));
        var remote := FindOne(db.Records("users"), IdFilter(IdValue(id)));
        if remote.None? {
          return Some(NoAttribute("'NoneType' object has no attribute 'get'"));
        }
        if Get(remote.value, "email") != newMail && db.Any("users", map["email" := newMail]) {
          return Some(EmailTaken(newMail));
        }
      } else {
        var t := clock.UtcNow();
        var _ := SetAttr("edited", VTime(t));
      }
      err := BaseUpdate(db, data);
    }

    /** `save`: update when the identity is set, create otherwise. */
    method Save(db: Database, clock: Clock.Clock, newId: ObjectId) returns (err: Option<Error>)
      modifies this, db, clock
      ensures old(clock.now) <= clock.now
      ensures Effect(id, doc, db.Records(Collection(kind)), err) ==
        SaveSpec(kind, old(id), old(doc), old(db.Records(Collection(kind))), clock.now, newId)
      ensures forall n :: n != Collection(kind) ==> db.Records(n) == old(db.Records(n))
    {
      if id.Some? {
        err := Update(db, clock, map[]);
      } else {
        err := Create(db, clock, newId);
      }
    }

    /** `to_dict(stringify)`: with an identity, `_id` is written into the
      document itself (not a copy); the result is the document, stringified on request. */
    method ToDict(stringify: bool, show: Value -> string) returns (r: Value)
      modifies this
      ensures id == old(id)
      ensures doc == (if old(id).Some? then old(doc)["_id" := VId(old(id).value)] else old(doc))
      ensures r == (if stringify then Stringify(VDict(doc), show) else VDict(doc))
    {
      if id.Some? {
        doc := doc["_id" := VId(id.value)];
      }
      r := if stringify then Stringify(VDict(doc), show) else VDict(doc);
    }

    /** `delete`: `delete_one` by the identity; True iff a record was removed. */
    method Delete(db: Database) returns (deleted: bool)
      modifies db
      ensures var (recs, del) := DeleteFirst(old(db.Records(Collection(kind))), IdFilter(IdValue(id)));
        deleted == del && db.Records(Collection(kind)) == recs
      ensures forall n :: n != Collection(kind) ==> db.Records(n) == old(db.Records(n))
    {
      deleted := db.DeleteOne(Collection(kind), IdFilter(IdValue(id)));
    }
  }
}
