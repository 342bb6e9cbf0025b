/** The MongoDB database the models persist to, as an in-memory map from
    collection name to its documents in insertion order. Only the pymongo
    calls the job server makes are modelled: `find`, `find_one`,
    `count_documents`, `insert_one`, `update_one` with `$set`, `delete_one`. */
module Store {
  import opened Values

  /** Equality match of a query filter: every filter key holds the filter's
      value; a missing field compares equal to None, as `{field: None}` does. */
  predicate Matches(d: Doc, filter: Doc) {
    forall k :: k in filter ==> Get(d, k) == filter[k]
  }

  /** The filter `{'_id': v}`. */
  function IdFilter(v: Value): Doc {
    map["_id" := v]
  }

  /** `find(filter)`: the matching documents, in collection order. */
  function FindAll(c: seq<Doc>, filter: Doc): (r: seq<Doc>)
    ensures |r| <= |c|
    ensures forall d :: d in r ==> d in c && Matches(d, filter)
    ensures forall d :: d in c && Matches(d, filter) ==> d in r
  {
    if c == [] then []
    else (if Matches(c[0], filter) then [c[0]] else []) + FindAll(c[1..], filter)
  }

  /** The position of the first matching document, which `find_one`,
      `update_one` and `delete_one` act on. */
  function FirstMatch(c: seq<Doc>, filter: Doc): (r: Option<nat>)
    ensures r.Some? ==> r.value < |c| && Matches(c[r.value], filter)
    ensures r.Some? ==> forall j :: 0 <= j < r.value ==> !Matches(c[j], filter)
    ensures r.None? <==> forall j :: 0 <= j < |c| ==> !Matches(c[j], filter)
  {
    if c == [] then None
    else if Matches(c[0], filter) then Some(0)
    else match FirstMatch(c[1..], filter)
      case None => None
      case Some(i) => Some(i + 1)
  }

  /** `find_one(filter)`. */
  function FindOne(c: seq<Doc>, filter: Doc): Option<Doc> {
    match FirstMatch(c, filter)
    case None => None
    case Some(i) => Some(c[i])
  }

  /** `insert_one` gives a document without `_id` a freshly generated one,
      and writes it into the caller's dictionary. */
  function WithId(d: Doc, newId: ObjectId): (r: Doc)
    ensures "_id" in r
    ensures forall k :: k in d ==> k in r && (k != "_id" ==> r[k] == d[k])
    ensures "_id" in d ==> r == d
    ensures "_id" !in d ==> r == d["_id" := VId(newId)]
  {
    if "_id" in d then d else d["_id" := VId(newId)]
  }

  /** `insert_one(d)` for a document that carries its `_id`: refused when
      another document has that `_id`, else appended. */
  function Insert(c: seq<Doc>, d: Doc): (r: Result<seq<Doc>>)
    requires "_id" in d
    ensures r.Ok? <==> forall j :: 0 <= j < |c| ==> Get(c[j], "_id") != d["_id"]
    ensures r.Ok? ==> r.value == c + [d]
    ensures r.Err? ==> r.error == DuplicateKey
  {
    if FirstMatch(c, IdFilter(d["_id"])).Some? then Err(DuplicateKey) else Ok(c + [d])
  }

  /** `update_one(filter, {'$set': upd})`: the first match takes every field
      of `upd` and keeps its others; no match changes nothing; an `upd` that
      would change the matched document's `_id` is refused. */
  function UpdateFirst(c: seq<Doc>, filter: Doc, upd: Doc): (r: Result<seq<Doc>>)
    ensures FirstMatch(c, filter).None? ==> r == Ok(c)
    ensures r.Err? ==> r.error == ImmutableId
    ensures r.Ok? ==> |r.value| == |c|
  {
    match FirstMatch(c, filter)
    case None => Ok(c)
    case Some(i) =>
      if "_id" in upd && upd["_id"] != Get(c[i], "_id") then Err(ImmutableId)
      else Ok(c[i := c[i] + upd])
  }

  /** `delete_one(filter)`: removes the first match, and says whether there was one. */
  function DeleteFirst(c: seq<Doc>, filter: Doc): (r: (seq<Doc>, bool))
    ensures r.1 <==> FirstMatch(c, filter).Some?
    ensures r.1 ==> |r.0| == |c| - 1
    ensures !r.1 ==> r.0 == c
  {
    match FirstMatch(c, filter)
    case None => (c, false)
    case Some(i) => (c[..i] + c[i + 1..], true)
  }

  /** A document inserted under a fresh `_id` is what a lookup by that `_id` finds. */
  lemma FindAfterInsert(c: seq<Doc>, d: Doc)
    requires "_id" in d && Insert(c, d).Ok?
    ensures FindOne(Insert(c, d).value, IdFilter(d["_id"])) == Some(d)
  {
    var c' := c + [d];
    forall j | 0 <= j < |c| ensures !Matches(c'[j], IdFilter(d["_id"])) {
      assert Get(c[j], "_id") != d["_id"];
    }
    assert Matches(c'[|c|], IdFilter(d["_id"]));
    assert FirstMatch(c', IdFilter(d["_id"])) == Some(|c|);
  }

  /** After a successful update by `_id`, the same lookup finds the merged document. */
  lemma FindAfterUpdate(c: seq<Doc>, v: Value, upd: Doc)
    requires UpdateFirst(c, IdFilter(v), upd).Ok?
    ensures FindOne(UpdateFirst(c, IdFilter(v), upd).value, IdFilter(v)) ==
      (match FindOne(c, IdFilter(v)) case None => None case Some(d) => Some(d + upd))
  {
    var f := IdFilter(v);
    match FirstMatch(c, f)
    case None =>
    case Some(i) =>
      var c' := c[i := c[i] + upd];
      assert "_id" in f && Get(c[i], "_id") == v;
      assert Get(c'[i], "_id") == v;
      assert Matches(c'[i], f);
      forall j | 0 <= j < i ensures !Matches(c'[j], f) {
        assert c'[j] == c[j];
      }
      assert FirstMatch(c', f) == Some(i);
  }

  /** `delete_one` removes only its first match: every other document stays. */
  lemma DeleteKeepsOthers(c: seq<Doc>, filter: Doc, d: Doc)
    requires d in c && !Matches(d, filter)
    ensures d in DeleteFirst(c, filter).0
  {
    match FirstMatch(c, filter)
    case None =>
    case Some(i) =>
      var j :| 0 <= j < |c| && c[j] == d;
      assert j != i;
      if j < i {
        assert c[..i][j] == d;
      } else {
        assert c[i + 1..][j - i - 1] == d;
      }
  }

  /** The database: one document list per collection; a collection never
      written to is empty. */
  class Database {
    var collections: map<string, seq<Doc>>

    constructor ()
      ensures collections == map[]
    {
      collections := map[];
    }

    function Records(name: string): seq<Doc>
      reads this
    {
      if name in collections then collections[name] else []
    }

    /** `count_documents(filter) > 0`. */
    predicate Any(name: string, filter: Doc)
      reads this
    {
      FirstMatch(Records(name), filter).Some?
    }

    method InsertOne(name: string, d: Doc, newId: ObjectId) returns (r: Result<Doc>)
      modifies this
      ensures var stored := WithId(d, newId);
        match Insert(old(Records(name)), stored)
        case Ok(c) => r == Ok(stored) && collections == old(collections)[name := c]
        case Err(e) => r == Err(e) && collections == old(collections)
      ensures forall n :: n != name ==> Records(n) == old(Records(n))
    {
      var stored := WithId(d, newId);
      var c := Insert(Records(name), stored);
      if c.Ok? {
        collections := collections[name := c.value];
        r := Ok(stored);
      } else {
        r := Err(c.error);
      }
    }

    method UpdateOne(name: string, filter: Doc, upd: Doc) returns (err: Option<Error>)
      modifies this
      ensures match UpdateFirst(old(Records(name)), filter, upd)
        case Ok(c) => err == None && collections == old(collections)[name := c]
        case Err(e) => err == Some(e) && collections == old(collections)
      ensures forall n :: n != name ==> Records(n) == old(Records(n))
    {
      var c := UpdateFirst(Records(name), filter, upd);
      if c.Err? {
        err := Some(c.error);
      } else {
        err := None;
        collections := collections[name := c.value];
      }
    }

    method DeleteOne(name: string, filter: Doc) returns (deleted: bool)
      modifies this
      ensures var (c, del) := DeleteFirst(old(Records(name)), filter);
        deleted == del && Records(name) == c
      ensures forall n :: n != name ==> Records(n) == old(Records(n))
    {
      var (c, del) := DeleteFirst(Records(name), filter);
      deleted := del;
      if del {
        collections := collections[name := c];
      }
    }
  }
}
