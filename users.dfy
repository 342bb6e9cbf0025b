/** The account model `User` (collection `users`): a `MongoModel` whose
    e-mail is stored lower-cased, whose password is kept only as a digest,
    and whose `activated` field runs from False through a pending token
    string to True. */
module Users {
  import opened Values
  import opened Store
  import opened Mongo
  import Clock

  /** The keywords `User.__init__` passes on to `MongoModel.__init__`. */
  function Rest(kw: Doc): Doc {
    kw - {"email", "password", "activated"}
  }

  /** `User(**kw)` succeeds: `email` is given, as a string; no `self`
      keyword; every identity-named keyword parses; a given password is a string. */
  predicate Accepts(kw: Doc) {
    && "self" !in kw
    && "email" in kw && kw["email"].VStr?
    && IdKeysValid(Rest(kw))
    && (GetOr(kw, "password", VNone) == VNone || GetOr(kw, "password", VNone).VStr?)
  }

  /** The document `User(**kw)` builds: the other keywords, the lower-cased
      e-mail, the password's digest when one is given, and `activated`
      (False unless given). */
  function InitDoc(kw: Doc, hash: string -> string): Doc
    requires Accepts(kw)
  {
    var d := DocPart(Rest(kw))["email" := VStr(Lower(kw["email"].s))];
    var d' := if GetOr(kw, "password", VNone) == VNone then d
              else d["_pw_hash" := VStr(hash(kw["password"].s))];
    d'["activated" := GetOr(kw, "activated", VBool(false))]
  }

  /** `User.__setattr__`: `password` is stored as the hex digest of its
      UTF-8 bytes under `_pw_hash`, never as itself; every other name goes
      to `MongoModel.__setattr__`. */
  method SetAttr(u: MongoModel, key: string, value: Value, hash: string -> string) returns (err: Option<Error>)
    modifies u
    ensures key == "password" && value.VStr? ==>
      err == None && u.id == old(u.id) && u.doc == old(u.doc)["_pw_hash" := VStr(hash(value.s))]
    ensures key == "password" && !value.VStr? ==>
      err.Some? && ClassOf(err.value) == AttributeErrorClass && u.id == old(u.id) && u.doc == old(u.doc)
    ensures key != "password" && !IsIdKey(key) ==> err == None && u.id == old(u.id) && u.doc == old(u.doc)[key := value]
    ensures key != "password" && IsIdKey(key) ==>
      (u.doc == old(u.doc) && (err.None? <==> IdFromValue(value).Ok?) &&
       (err.None? ==> u.id == Some(IdFromValue(value).value)) && (err.Some? ==> u.id == old(u.id)))
  {
    if key == "password" {
      if !value.VStr? {
        return Some(NoAttribute("object has no attribute 'encode'"));
      }
      err := u.SetAttr("_pw_hash", VStr(hash(value.s)));
    } else {
      err := u.SetAttr(key, value);
    }
  }

  /** `User(**kw)`. */
  method New(kw: Doc, hash: string -> string) returns (r: Result<MongoModel>)
    ensures r.Ok? <==> Accepts(kw)
    ensures r.Ok? ==>
      (fresh(r.value) && r.value.kind == UserKind &&
       r.value.doc == InitDoc(kw, hash) && IdFrom(Rest(kw), r.value.id))
    ensures r.Err? ==> ClassOf(r.error) in {TypeErrorClass, AttributeErrorClass, InvalidIdClass}
  {
    if "self" in kw || "email" !in kw {
      return Err(BadArguments("missing or repeated argument"));
    }
    var u := new MongoModel(UserKind);
    var e := u.SetAll(Rest(kw));
    if e.Some? {
      return Err(e.value);
    }
    assert u.doc == DocPart(Rest(kw));
    if !kw["email"].VStr? {
      return Err(NoAttribute("object has no attribute 'lower'"));
    }
    // `email` and `activated` pass `User.__setattr__` unchanged.
    var _ := u.SetAttr("email", VStr(Lower(kw["email"].s)));
    ghost var d := u.doc;
    var password := GetOr(kw, "password", VNone);
    if password != VNone {
      if !password.VStr? {
        return Err(NoAttribute("object has no attribute 'encode'"));
      }
      SetPassword(u, password.s, hash);
    }
    assert u.doc == if password == VNone then d else d["_pw_hash" := VStr(hash(kw["password"].s))];
    var _ := u.SetAttr("activated", GetOr(kw, "activated", VBool(false)));
    r := Ok(u);
  }

  /** A user built from an e-mail and a password: the e-mail is lower-cased,
      the account is not activated, and the plain password is stored nowhere. */
  lemma NewAccount(email: string, password: string, hash: string -> string)
    ensures var kw := map["email" := VStr(email), "password" := VStr(password)];
      Accepts(kw) &&
      InitDoc(kw, hash) == map["email" := VStr(Lower(email)), "_pw_hash" := VStr(hash(password)), "activated" := VBool(false)]
  {
    var kw := map["email" := VStr(email), "password" := VStr(password)];
    assert Rest(kw) == map[];
    assert DocPart(map[]) == map[];
  }

  /** The `password` property: `'*****'` when a digest is stored, None otherwise. */
  function Password(u: MongoModel): (r: Value)
    reads u
    ensures r == VNone || r == VStr("*****")
    ensures r == VNone <==> Get(u.doc, "_pw_hash") == VNone
  {
    if Get(u.doc, "_pw_hash") != VNone then VStr("*****") else VNone
  }

  /** `verify_password(p)`: the digest of `p` equals the stored one. */
  predicate VerifyPassword(u: MongoModel, p: string, hash: string -> string)
    reads u
  {
    VStr(hash(p)) == Get(u.doc, "_pw_hash")
  }

  /** Right after the password is set to `p`, exactly the passwords with the
      digest of `p` verify, `p` among them, and the property shows the mask. */
  method SetPassword(u: MongoModel, p: string, hash: string -> string)
    modifies u
    ensures u.id == old(u.id) && u.doc == old(u.doc)["_pw_hash" := VStr(hash(p))]
    ensures VerifyPassword(u, p, hash) && Password(u) == VStr("*****")
    ensures forall q :: VerifyPassword(u, q, hash) <==> hash(q) == hash(p)
  {
    var _ := SetAttr(u, "password", VStr(p), hash);
  }

  /** `is_activated()`: `activated is True`, so a pending token string is not activation. */
  predicate IsActivated(u: MongoModel)
    reads u
  {
    Get(u.doc, "activated") == VBool(true)
  }

  /** `str(self.id)`: the hexadecimal digits, or `None` without an identity. */
  function IdText(id: Option<ObjectId>): (r: string)
    ensures id.Some? ==> r == id.value.hex
    ensures id.None? ==> r == "None"
  {
    match id
    case Some(o) => o.hex
    case None => "None"
  }

  /** `get_activation_token()`: `activated` becomes `'<id>::<hex>'`, where
      `hex` is the random `uuid4().hex`; the user is saved and the token
      returned. An activated user is de-activated by it. */
  method GetActivationToken(u: MongoModel, db: Database, clock: Clock.Clock, hex: string, newId: ObjectId)
    returns (r: Result<string>)
    requires u.kind == UserKind
    modifies u, db, clock
    ensures var token := IdText(old(u.id)) + "::" + hex;
      && Effect(u.id, u.doc, db.Records("users"), if r.Ok? then None else Some(r.error)) ==
         SaveSpec(UserKind, old(u.id), old(u.doc)["activated" := VStr(token)], old(db.Records("users")), clock.now, newId)
      && (r.Ok? ==> r.value == token)
      && Get(u.doc, "activated") == VStr(token)
    ensures !IsActivated(u)
    ensures forall n :: n != "users" ==> db.Records(n) == old(db.Records(n))
  {
    var token := IdText(u.id) + "::" + hex;
    var _ := u.SetAttr("activated", VStr(token));
    ghost var before := u.doc;
    var err := u.Save(db, clock, newId);
    SaveKeepsFields(UserKind, old(u.id), before, old(db.Records("users")), clock.now, newId, "activated");
    r := if err.None? then Ok(token) else Err(err.value);
  }

  /** `activate(token)`: a token equal to the pending one activates and saves
      the user; anything else changes nothing and gives False. */
  method Activate(u: MongoModel, db: Database, clock: Clock.Clock, token: Value, newId: ObjectId)
    returns (r: Result<bool>)
    requires u.kind == UserKind
    modifies u, db, clock
    ensures Get(old(u.doc), "activated") != token ==>
      r == Ok(false) && u.doc == old(u.doc) && u.id == old(u.id) && db.collections == old(db.collections)
    ensures Get(old(u.doc), "activated") == token ==>
      Effect(u.id, u.doc, db.Records("users"), if r.Ok? then None else Some(r.error)) ==
        SaveSpec(UserKind, old(u.id), old(u.doc)["activated" := VBool(true)], old(db.Records("users")), clock.now, newId) &&
      (r.Ok? ==> r.value) && IsActivated(u)
    ensures forall n :: n != "users" ==> db.Records(n) == old(db.Records(n))
  {
    if Get(u.doc, "activated") != token {
      return Ok(false);
    }
    var _ := u.SetAttr("activated", VBool(true));
    ghost var before := u.doc;
    var err := u.Save(db, clock, newId);
    SaveKeepsFields(UserKind, old(u.id), before, old(db.Records("users")), clock.now, newId, "activated");
    r := if err.None? then Ok(true) else Err(err.value);
  }

  /** The activation state machine: a fresh token activates a not yet
      activated user once; the same token then fails, because `activated`
      is True, which no string equals. */
  method ActivationRoundTrip(u: MongoModel, db: Database, clock: Clock.Clock, hex: string, newId: ObjectId)
    returns (first: Result<bool>, second: Result<bool>)
    requires u.kind == UserKind
    modifies u, db, clock
    ensures first.Ok? ==> first.value && IsActivated(u)
    ensures first.Ok? ==> second == Ok(false)
  {
    var token := GetActivationToken(u, db, clock, hex, newId);
    if token.Err? {
      return Err(token.error), Err(token.error);
    }
    first := Activate(u, db, clock, VStr(token.value), newId);
    second := Activate(u, db, clock, VStr(token.value), newId);
  }

  /** `update(data)` writes `data` into the document as it is: a `password`
      entry is stored in plain text, not through the digest. */
  lemma UpdateStoresPasswordAsGiven(id: Option<ObjectId>, doc: Doc, recs: seq<Doc>, t: int, p: string)
    requires UpdateSpec(UserKind, id, doc, recs, t, map["password" := VStr(p)]).err.None?
    ensures UpdateSpec(UserKind, id, doc, recs, t, map["password" := VStr(p)]).doc["password"] == VStr(p)
  {
  }

  /** `User.create` refuses an e-mail some record already has, before writing anything. */
  lemma CreateRefusesTakenEmail(id: Option<ObjectId>, doc: Doc, recs: seq<Doc>, t: int, newId: ObjectId, j: nat)
    requires j < |recs| && Get(recs[j], "email") == Get(doc, "email")
    ensures CreateSpec(UserKind, id, doc, recs, t, newId) == Effect(id, doc, recs, Some(EmailTaken(Get(doc, "email"))))
  {
    assert Matches(recs[j], map["email" := Get(doc, "email")]);
  }

  /** `User.update` raises only for a changed e-mail that another record has;
      keeping the stored e-mail, or moving to a free one, merges as the base update does. */
  lemma UpdateEmailRule(id: Option<ObjectId>, doc: Doc, recs: seq<Doc>, t: int, data: Doc)
    requires FindOne(recs, IdFilter(IdValue(id))).Some?
    ensures var newMail := GetOr(data, "email", Get(doc, "email"));
      var stored := Get(FindOne(recs, IdFilter(IdValue(id))).value, "email");
      var e := UpdateSpec(UserKind, id, doc, recs, t, data);
      && (e.err == Some(EmailTaken(newMail)) <==>
           stored != newMail && exists j :: 0 <= j < |recs| && Get(recs[j], "email") == newMail)
      && (stored == newMail || (forall j :: 0 <= j < |recs| ==> Get(recs[j], "email") != newMail) ==>
           e == BaseUpdateSpec(id, doc, recs, data))
  {
    var newMail := GetOr(data, "email", Get(doc, "email"));
    var f := map["email" := newMail];
    assert forall j :: 0 <= j < |recs| ==> (Matches(recs[j], f) <==> Get(recs[j], "email") == newMail);
    var e := UpdateSpec(UserKind, id, doc, recs, t, data);
    if e.err == Some(EmailTaken(newMail)) {
      assert e != BaseUpdateSpec(id, doc, recs, data) by {
        var b := BaseUpdateSpec(id, doc, recs, data);
        match UpdateFirst(recs, IdFilter(IdValue(id)), doc + data)
        case Ok(_) =>
        case Err(_) =>
      }
    }
  }

  /** `User.get_by_email(email)`: the first record with that e-mail, as a user. */
  method GetByEmail(db: Database, email: Value, hash: string -> string) returns (r: Result<Option<MongoModel>>)
    ensures FindOne(db.Records("users"), map["email" := email]).None? ==> r == Ok(None)
    ensures FindOne(db.Records("users"), map["email" := email]).Some? ==>
      (r.Ok? <==> Accepts(FindOne(db.Records("users"), map["email" := email]).value)) && (r.Ok? ==> r.value.Some?)
    ensures r.Ok? && r.value.Some? ==>
      var rec := FindOne(db.Records("users"), map["email" := email]).value;
      fresh(r.value.value) && r.value.value.kind == UserKind && Accepts(rec) &&
      r.value.value.doc == InitDoc(rec, hash) && Get(rec, "email") == email
  {
    var rec := FindOne(db.Records("users"), map["email" := email]);
    if rec.None? {
      return Ok(None);
    }
    var u := New(rec.value, hash);
    if u.Err? {
      return Err(u.error);
    }
    r := Ok(Some(u.value));
  }
}
