/** The class methods of `MongoModel` that turn records back into models:
    `get`, `get_all` and `delete_all`, with the constructor (`cls(**doc)`)
    chosen by the model's kind. */
module Queries {
  import opened Values
  import opened Store
  import opened Mongo
  import Users
  import Jobs
  import DataMongo

  /** The keywords the kind's constructor passes on to `MongoModel.__init__`. */
  function Rest(kind: Kind, kw: Doc): Doc {
    match kind
    case JobKind => Jobs.Rest(kw)
    case UserKind => Users.Rest(kw)
    case DataKind => DataMongo.Rest(kw)
  }

  /** `cls(**kw)` succeeds. */
  predicate Accepts(kind: Kind, kw: Doc) {
    match kind
    case JobKind => Jobs.Accepts(kw)
    case UserKind => Users.Accepts(kw)
    case DataKind => DataMongo.Accepts(kw)
  }

  /** The document `cls(**kw)` builds. */
  function InitDoc(kind: Kind, kw: Doc, hash: string -> string): Doc
    requires Accepts(kind, kw)
  {
    match kind
    case JobKind => Jobs.InitDoc(kw)
    case UserKind => Users.InitDoc(kw, hash)
    case DataKind => DataMongo.InitDoc(kw)
  }

  /** `cls(**kw)`. */
  method Build(kind: Kind, kw: Doc, hash: string -> string) returns (r: Result<MongoModel>)
    ensures r.Ok? <==> Accepts(kind, kw)
    ensures r.Ok? ==>
      (fresh(r.value) && r.value.kind == kind && r.value.doc == InitDoc(kind, kw, hash) &&
       IdFrom(Rest(kind, kw), r.value.id))
  {
    match kind
    case JobKind => r := Jobs.New(kw);
    case UserKind => r := Users.New(kw, hash);
    case DataKind => r := DataMongo.New(kw);
  }

  /** `m` is the object `cls(**kw)` builds. */
  predicate BuiltFrom(kind: Kind, kw: Doc, hash: string -> string, m: MongoModel)
    reads m
  {
    m.kind == kind && Accepts(kind, kw) && m.doc == InitDoc(kind, kw, hash) && IdFrom(Rest(kind, kw), m.id)
  }

  /** A record whose only identity-named key is `_id`, holding an ObjectId,
      is rebuilt with exactly that identity. */
  lemma RebuiltIdentity(kind: Kind, kw: Doc, o: ObjectId, id: Option<ObjectId>)
    requires Get(kw, "_id") == VId(o)
    requires forall k :: k in kw && IsIdKey(k) ==> k == "_id"
    requires IdFrom(Rest(kind, kw), id)
    ensures id == Some(o)
  {
    var rest := Rest(kind, kw);
    assert "_id" in rest && IsIdKey("_id");
    assert HasIdKeyIn(rest, rest.Keys);
    var k :| k in rest && IsIdKey(k) && IdFromValue(rest[k]) == Ok(id.value);
    assert k == "_id";
  }

  /** `get(_id, filter)`: the first record with that identity matching the
      filter, rebuilt by the class's constructor; None when the text is not
      an ObjectId or nothing matches. */
  method GetById(kind: Kind, db: Database, key: Value, filter: Doc, hash: string -> string)
    returns (r: Result<Option<MongoModel>>)
    ensures var f := FindById(Some(Collection(kind)), db, key, filter);
      && (f.Err? ==> r == Err(f.error))
      && (f.Ok? && f.value.None? ==> r == Ok(None))
      && (f.Ok? && f.value.Some? ==> (r.Ok? <==> Accepts(kind, f.value.value)))
      && (f.Ok? && f.value.Some? && r.Ok? ==> r.value.Some?)
      && (r.Ok? && r.value.Some? ==>
            (f.Ok? && f.value.Some? && fresh(r.value.value) && r.value.value.kind == kind &&
             Accepts(kind, f.value.value) && r.value.value.doc == InitDoc(kind, f.value.value, hash) &&
             IdFrom(Rest(kind, f.value.value), r.value.value.id)))
  {
    var f := FindById(Some(Collection(kind)), db, key, filter);
    if f.Err? {
      return Err(f.error);
    }
    if f.value.None? {
      return Ok(None);
    }
    var m := Build(kind, f.value.value, hash);
    if m.Err? {
      return Err(m.error);
    }
    r := Ok(Some(m.value));
  }

  /** `[cls(**kw) for kw in recs]`: the first record the constructor
      refuses raises. */
  method BuildAll(kind: Kind, recs: seq<Doc>, hash: string -> string) returns (r: Result<seq<MongoModel>>)
    ensures r.Ok? <==> forall i :: 0 <= i < |recs| ==> Accepts(kind, recs[i])
    ensures r.Ok? ==>
      |r.value| == |recs| &&
      forall i :: 0 <= i < |recs| ==> fresh(r.value[i]) && BuiltFrom(kind, recs[i], hash, r.value[i])
  {
    var models: seq<MongoModel> := [];
    var i := 0;
    while i < |recs|
      invariant 0 <= i <= |recs| && |models| == i
      invariant forall j :: 0 <= j < i ==> fresh(models[j]) && BuiltFrom(kind, recs[j], hash, models[j])
    {
      var m := Build(kind, recs[i], hash);
      if m.Err? {
        return Err(m.error);
      }
      models := models + [m.value];
      i := i + 1;
    }
    r := Ok(models);
  }

  /** `get_all(filter)`: every matching record in collection order, each
      rebuilt by the class's constructor; the first record the constructor
      refuses raises. */
  method GetAll(kind: Kind, db: Database, filter: Doc, hash: string -> string) returns (r: Result<seq<MongoModel>>)
    ensures var recs := FindAll(db.Records(Collection(kind)), filter);
      && (r.Ok? <==> forall i :: 0 <= i < |recs| ==> Accepts(kind, recs[i]))
      && (r.Ok? ==>
            (|r.value| == |recs| &&
             forall i :: 0 <= i < |recs| ==> fresh(r.value[i]) && BuiltFrom(kind, recs[i], hash, r.value[i])))
  {
    var recs := FindAll(db.Records(Collection(kind)), filter);
    r := BuildAll(kind, recs, hash);
    assert recs == FindAll(db.Records(Collection(kind)), filter);
  }

  /** No two records of the list share an `_id`. */
  predicate DistinctIds(c: seq<Doc>) {
    forall i, j :: 0 <= i < j < |c| ==> Get(c[i], "_id") != Get(c[j], "_id")
  }

  /** The collections this model writes: every record has an ObjectId `_id`,
      no two share one, and no record holds another identity-named key. */
  predicate WellKeyed(c: seq<Doc>) {
    && DistinctIds(c)
    && (forall d :: d in c ==> Get(d, "_id").VId?)
    && (forall d, k :: d in c && k in d && IsIdKey(k) ==> k == "_id")
  }

  /** `insert_one` keeps a collection well keyed when the new record has an
      ObjectId `_id` and no other identity-named key. */
  lemma InsertKeepsWellKeyed(c: seq<Doc>, d: Doc)
    requires WellKeyed(c) && Get(d, "_id").VId? && (forall k :: k in d && IsIdKey(k) ==> k == "_id")
    requires Insert(c, d).Ok?
    ensures WellKeyed(Insert(c, d).value)
  {
    var c' := Insert(c, d).value;
    assert c' == c + [d];
    forall i, j | 0 <= i < j < |c'| ensures Get(c'[i], "_id") != Get(c'[j], "_id") {
      if j == |c| {
        assert c'[i] == c[i];
      }
    }
  }

  /** `create` keeps a collection well keyed: the model's document holds no
      identity-named key but an ObjectId `_id`, and the insert refuses a
      duplicate. */
  lemma CreateKeepsWellKeyed(kind: Kind, id: Option<ObjectId>, doc: Doc, recs: seq<Doc>, t: int, newId: ObjectId)
    requires WellKeyed(recs)
    requires forall k :: k in doc && IsIdKey(k) ==> k == "_id"
    requires "_id" in doc ==> doc["_id"].VId?
    ensures WellKeyed(CreateSpec(kind, id, doc, recs, t, newId).records)
  {
    var d0 := if kind != UserKind && Get(doc, "created") == VNone then doc["created" := VTime(t)] else doc;
    var d := if id.Some? then d0["_id" := VId(id.value)] else d0;
    var stored := WithId(d, newId);
    assert !IsIdKey("created");
    assert forall k :: k in stored && IsIdKey(k) ==> k == "_id";
    assert Get(stored, "_id").VId?;
    if Insert(recs, stored).Ok? {
      InsertKeepsWellKeyed(recs, stored);
    }
  }

  /** Writing `d` over record `i` keeps a collection well keyed when `d`
      keeps that record's `_id` and holds no other identity-named key. */
  lemma ReplaceKeepsWellKeyed(recs: seq<Doc>, i: nat, d: Doc)
    requires WellKeyed(recs) && i < |recs|
    requires "_id" in d ==> d["_id"] == Get(recs[i], "_id")
    requires forall k :: k in d && IsIdKey(k) ==> k == "_id"
    ensures WellKeyed(recs[i := recs[i] + d])
  {
    var c' := recs[i := recs[i] + d];
    assert Get(c'[i], "_id") == Get(recs[i], "_id");
    assert forall j :: 0 <= j < |c'| ==> Get(c'[j], "_id") == Get(recs[j], "_id");
    assert recs[i] in recs;
    forall e | e in c' ensures Get(e, "_id").VId? && forall k :: k in e && IsIdKey(k) ==> k == "_id" {
      var j :| 0 <= j < |c'| && c'[j] == e;
      assert recs[j] in recs;
    }
  }

  /** `MongoModel.update` keeps a collection well keyed when the merged
      document holds no identity-named key but `_id`. */
  lemma BaseUpdateKeepsWellKeyed(id: Option<ObjectId>, doc: Doc, recs: seq<Doc>, data: Doc)
    requires WellKeyed(recs)
    requires forall k :: k in doc + data && IsIdKey(k) ==> k == "_id"
    ensures WellKeyed(BaseUpdateSpec(id, doc, recs, data).records)
  {
    var d := doc + data;
    match FirstMatch(recs, IdFilter(IdValue(id)))
    case None =>
    case Some(i) =>
      if !("_id" in d && d["_id"] != Get(recs[i], "_id")) {
        ReplaceKeepsWellKeyed(recs, i, d);
      }
  }

  /** `update` keeps a collection well keyed when the merged document holds
      no identity-named key but `_id`: the `_id` of the record cannot change. */
  lemma UpdateKeepsWellKeyed(kind: Kind, id: Option<ObjectId>, doc: Doc, recs: seq<Doc>, t: int, data: Doc)
    requires WellKeyed(recs)
    requires forall k :: k in doc + data && IsIdKey(k) ==> k == "_id"
    ensures WellKeyed(UpdateSpec(kind, id, doc, recs, t, data).records)
  {
    if kind == UserKind {
      BaseUpdateKeepsWellKeyed(id, doc, recs, data);
    } else {
      assert !IsIdKey("edited");
      assert forall k :: k in doc["edited" := VTime(t)] + data && IsIdKey(k) ==> k == "_id";
      BaseUpdateKeepsWellKeyed(id, doc["edited" := VTime(t)], recs, data);
    }
  }

  /** A record matches the filter `{'_id': v}` exactly when its `_id` is `v`. */
  lemma MatchesIdFilter(d: Doc, v: Value)
    ensures Matches(d, IdFilter(v)) <==> Get(d, "_id") == v
  {
    assert "_id" in IdFilter(v);
  }

  /** Removing one entry keeps the identities distinct. */
  lemma RemoveKeepsDistinct(c: seq<Doc>, i: nat)
    requires DistinctIds(c) && i < |c|
    ensures DistinctIds(c[..i] + c[i + 1..])
  {
    var n := c[..i] + c[i + 1..];
    forall p, q | 0 <= p < q < |n| ensures Get(n[p], "_id") != Get(n[q], "_id") {
      var p' := if p < i then p else p + 1;
      var q' := if q < i then q else q + 1;
      assert n[p] == c[p'] && n[q] == c[q'] && p' < q';
    }
  }

  /** With distinct identities, removing entry `i` removes exactly the
      records with its identity. */
  lemma RemoveMembers(c: seq<Doc>, i: nat)
    requires DistinctIds(c) && i < |c|
    ensures forall d :: d in c[..i] + c[i + 1..] <==> d in c && Get(d, "_id") != Get(c[i], "_id")
  {
    var n := c[..i] + c[i + 1..];
    forall d | d in c && Get(d, "_id") != Get(c[i], "_id") ensures d in n {
      var q :| 0 <= q < |c| && c[q] == d;
      if q < i { assert n[q] == d; } else { assert n[q - 1] == d; }
    }
    forall d | d in n ensures d in c && Get(d, "_id") != Get(c[i], "_id") {
      var p :| 0 <= p < |n| && n[p] == d;
      var p' := if p < i then p else p + 1;
      assert c[p'] == d && p' != i;
    }
  }

  /** Deleting by the `_id` of a record of a list with distinct identities
      removes exactly that record. */
  lemma DeleteById(c: seq<Doc>, k: nat)
    requires DistinctIds(c) && k < |c|
    ensures var (n, del) := DeleteFirst(c, IdFilter(Get(c[k], "_id")));
      del && DistinctIds(n) && (forall d :: d in n <==> d in c && Get(d, "_id") != Get(c[k], "_id"))
  {
    var v := Get(c[k], "_id");
    MatchesIdFilter(c[k], v);
    var i := FirstMatch(c, IdFilter(v)).value;
    MatchesIdFilter(c[i], v);
    assert i == k;
    RemoveKeepsDistinct(c, i);
    RemoveMembers(c, i);
  }

  /** Distinct identities of a list with a head entry. */
  lemma DistinctCons(x: Doc, t: seq<Doc>)
    ensures DistinctIds([x] + t) <==> DistinctIds(t) && forall d :: d in t ==> Get(d, "_id") != Get(x, "_id")
  {
    var c := [x] + t;
    if DistinctIds(c) {
      forall i, j | 0 <= i < j < |t| ensures Get(t[i], "_id") != Get(t[j], "_id") {
        assert t[i] == c[i + 1] && t[j] == c[j + 1];
      }
      forall d | d in t ensures Get(d, "_id") != Get(x, "_id") {
        var q :| 0 <= q < |t| && t[q] == d;
        assert c[0] == x && c[q + 1] == d;
      }
    }
    if DistinctIds(t) && forall d :: d in t ==> Get(d, "_id") != Get(x, "_id") {
      forall i, j | 0 <= i < j < |c| ensures Get(c[i], "_id") != Get(c[j], "_id") {
        if i == 0 {
          assert c[j] == t[j - 1];
        } else {
          assert c[i] == t[i - 1] && c[j] == t[j - 1];
        }
      }
    }
  }

  /** The matches of a list with distinct identities have distinct identities. */
  lemma {:induction false} FindAllDistinct(c: seq<Doc>, filter: Doc)
    requires DistinctIds(c)
    ensures DistinctIds(FindAll(c, filter))
  {
    if c != [] {
      var t := c[1..];
      assert c == [c[0]] + t;
      DistinctCons(c[0], t);
      FindAllDistinct(t, filter);
      if Matches(c[0], filter) {
        assert FindAll(c, filter) == [c[0]] + FindAll(t, filter);
        DistinctCons(c[0], FindAll(t, filter));
      } else {
        assert FindAll(c, filter) == FindAll(t, filter);
      }
    }
  }

  /** In a list with distinct identities, the identities of the matches are
      those of the records that match. */
  lemma MatchedIds(c: seq<Doc>, filter: Doc, d: Doc)
    requires DistinctIds(c) && d in c
    ensures var recs := FindAll(c, filter);
      Get(d, "_id") in IdsOf(recs, |recs|) <==> Matches(d, filter)
  {
    var recs := FindAll(c, filter);
    var ids := IdsOf(recs, |recs|);
    if Matches(d, filter) {
      var q :| 0 <= q < |recs| && recs[q] == d;
      assert Get(recs[q], "_id") in ids;
    }
    if Get(d, "_id") in ids {
      var q :| 0 <= q < |recs| && Get(recs[q], "_id") == Get(d, "_id");
      assert recs[q] in recs;
      assert recs[q] in c && Matches(recs[q], filter);
      var a :| 0 <= a < |c| && c[a] == d;
      var b :| 0 <= b < |c| && c[b] == recs[q];
      assert Get(c[a], "_id") == Get(c[b], "_id");
      assert a == b;
      assert d == recs[q];
    }
  }

  /** The identities of the first `n` records of the list. */
  function IdsOf(recs: seq<Doc>, n: nat): set<Value>
    requires n <= |recs|
  {
    set j | 0 <= j < n :: Get(recs[j], "_id")
  }

  /** The identities of the first `i + 1` matches. */
  lemma GoneGrows(recs: seq<Doc>, i: nat)
    requires i < |recs|
    ensures IdsOf(recs, i) + {Get(recs[i], "_id")} == IdsOf(recs, i + 1)
  {
  }

  /** With distinct identities, the `i`-th match's identity is none of the earlier ones. */
  lemma NotYetGone(recs: seq<Doc>, i: nat)
    requires DistinctIds(recs) && i < |recs|
    ensures Get(recs[i], "_id") !in IdsOf(recs, i)
  {
  }

  /** One step of `delete_all`'s deleting loop on a well-keyed collection:
      the `i`-th match is still there and is the one record removed. */
  lemma DeleteAllStep(kind: Kind, c0: seq<Doc>, recs: seq<Doc>, before: seq<Doc>, gone: set<Value>, i: nat,
                      id: Option<ObjectId>)
    requires WellKeyed(c0) && DistinctIds(recs) && i < |recs| && recs[i] in c0
    requires Get(recs[i], "_id") !in gone
    requires DistinctIds(before) && forall d :: d in before <==> d in c0 && Get(d, "_id") !in gone
    requires IdFrom(Rest(kind, recs[i]), id)
    ensures DeleteFirst(before, IdFilter(IdValue(id))).1
    ensures DistinctIds(DeleteFirst(before, IdFilter(IdValue(id))).0)
    ensures forall d :: d in DeleteFirst(before, IdFilter(IdValue(id))).0 <==>
      d in c0 && Get(d, "_id") !in gone + {Get(recs[i], "_id")}
  {
    var v := Get(recs[i], "_id");
    RebuiltIdentity(kind, recs[i], v.oid, id);
    assert IdValue(id) == v;
    assert recs[i] in before;
    var k :| 0 <= k < |before| && before[k] == recs[i];
    DeleteById(before, k);
  }

  /** `delete_all`'s second half, `[job.delete() for job in jobs]`: each
      model deletes by its identity, and the successes are counted. When the
      models were rebuilt from distinct matches of a well-keyed collection,
      every delete succeeds and exactly those records go. */
  method DeleteEach(kind: Kind, models: seq<MongoModel>, db: Database, ghost recs: seq<Doc>) returns (suc: nat)
    requires |models| == |recs|
    requires forall j :: 0 <= j < |models| ==> models[j].kind == kind && IdFrom(Rest(kind, recs[j]), models[j].id)
    modifies db
    ensures suc <= |models|
    ensures WellKeyed(old(db.Records(Collection(kind)))) && DistinctIds(recs) &&
            (forall j :: 0 <= j < |recs| ==> recs[j] in old(db.Records(Collection(kind)))) ==>
      (suc == |models| &&
       forall d :: d in db.Records(Collection(kind)) <==>
         d in old(db.Records(Collection(kind))) && Get(d, "_id") !in IdsOf(recs, |recs|))
    ensures forall n :: n != Collection(kind) ==> db.Records(n) == old(db.Records(n))
  {
    ghost var c := Collection(kind);
    ghost var c0 := db.Records(c);
    ghost var wk := WellKeyed(c0) && DistinctIds(recs) && forall j :: 0 <= j < |recs| ==> recs[j] in c0;
    ghost var gone: set<Value> := {};
    suc := 0;
    var i := 0;
    while i < |models|
      invariant 0 <= suc <= i <= |models|
      invariant forall n :: n != c ==> db.Records(n) == old(db.Records(n))
      invariant wk ==> suc == i && DistinctIds(db.Records(c)) && gone == IdsOf(recs, i)
      invariant wk ==> forall d :: d in db.Records(c) <==> d in c0 && Get(d, "_id") !in gone
    {
      ghost var before := db.Records(c);
      var deleted := models[i].Delete(db);
      if wk {
        NotYetGone(recs, i);
        DeleteAllStep(kind, c0, recs, before, gone, i, models[i].id);
        GoneGrows(recs, i);
        gone := gone + {Get(recs[i], "_id")};
      }
      if deleted {
        suc := suc + 1;
      }
      i := i + 1;
    }
  }

  /** `delete_all(filter)`: `get_all(filter)` first (a record the
      constructor refuses raises before anything is deleted), then each
      model deletes by its identity; the result is (successes, attempts).
      In a well-keyed collection every matched record is deleted and
      nothing else. */
  method DeleteAll(kind: Kind, db: Database, filter: Doc, hash: string -> string) returns (r: Result<(nat, nat)>)
    modifies db
    ensures var recs := FindAll(old(db.Records(Collection(kind))), filter);
      && (r.Ok? <==> forall i :: 0 <= i < |recs| ==> Accepts(kind, recs[i]))
      && (r.Err? ==> db.collections == old(db.collections))
      && (r.Ok? ==> r.value.0 <= r.value.1 == |recs|)
      && (r.Ok? && WellKeyed(old(db.Records(Collection(kind)))) ==>
            (r.value.0 == r.value.1 &&
             forall d :: d in db.Records(Collection(kind)) <==>
               d in old(db.Records(Collection(kind))) && !Matches(d, filter)))
    ensures forall n :: n != Collection(kind) ==> db.Records(n) == old(db.Records(n))
  {
    var all := GetAll(kind, db, filter, hash);
    if all.Err? {
      return Err(all.error);
    }
    ghost var c0 := db.Records(Collection(kind));
    ghost var recs := FindAll(c0, filter);
    if WellKeyed(c0) {
      FindAllDistinct(c0, filter);
    }
    var suc := DeleteEach(kind, all.value, db, recs);
    if WellKeyed(c0) {
      forall d | d in c0 ensures d in db.Records(Collection(kind)) <==> !Matches(d, filter) {
        MatchedIds(c0, filter, d);
      }
    }
    r := Ok((suc, |all.value|));
  }
}
