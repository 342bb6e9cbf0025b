/** Authorization decisions: the login checks, the `login_required`,
    `role_required` and `user_route` gates, and the `Authorization` header
    dispatch for Basic (RFC 7617) and Bearer (RFC 6750) credentials. */
module Authorization {
  import opened Values
  import opened Store
  import opened Mongo
  import Users
  import Queries

  /** The outcome of `check_user_logged_in`: a refusal with its status, or the user. */
  datatype Login = Denied(code: int, message: string) | LoggedIn(user: MongoModel)

  /** `check_user_logged_in(user, password, check_activation)`, in this
      order: no user is a 404; an inactive user a 405 when activation is
      checked; a wrong password, when one is given, a 405. */
  function CheckUserLoggedIn(user: MongoModel?, password: Option<string>, checkActivation: bool,
                             hash: string -> string): (r: Login)
    reads user
    ensures user == null <==> r == Denied(404, "User not found.")
    ensures user != null && checkActivation && !Users.IsActivated(user) ==>
      r == Denied(405, "Your account has not been activated.")
    ensures user != null && (!checkActivation || Users.IsActivated(user)) && password.Some? &&
            !Users.VerifyPassword(user, password.value, hash) ==>
      r == Denied(405, "The password was incorrect")
    ensures r.LoggedIn? <==>
      user != null && (!checkActivation || Users.IsActivated(user)) &&
      (password.None? || Users.VerifyPassword(user, password.value, hash))
    ensures r.LoggedIn? ==> r.user == user
  {
    if user == null then Denied(404, "User not found.")
    else if checkActivation && !Users.IsActivated(user) then Denied(405, "Your account has not been activated.")
    else if password.Some? && !Users.VerifyPassword(user, password.value, hash) then
      Denied(405, "The password was incorrect")
    else LoggedIn(user)
  }

  /** Without a password the digest is never consulted: the outcome is the
      same under any hash function. */
  lemma NoPasswordSkipsVerification(user: MongoModel?, checkActivation: bool, hash: string -> string,
                                    other: string -> string)
    ensures CheckUserLoggedIn(user, None, checkActivation, hash) == CheckUserLoggedIn(user, None, checkActivation, other)
  {
  }

  /** A route: called with the request's positional and keyword arguments. */
  type Route = (seq<Value>, Doc) -> Value

  /** A gate's outcome: a refusal with its status, or the route's answer. */
  datatype Gate = Refuse(code: int, message: string) | Pass(result: Value)

  /** `login_required(route)`: without a current user a 405; otherwise the
      route, called with the arguments unchanged. */
  function LoginRequired(user: MongoModel?, route: Route, args: seq<Value>, kwargs: Doc): (r: Gate)
    ensures user == null <==> r == Refuse(405, "Login required")
    ensures user != null ==> r == Pass(route(args, kwargs))
  {
    if user == null then Refuse(405, "Login required") else Pass(route(args, kwargs))
  }

  /** The roles the gates admit unless told otherwise. */
  const DefaultRoles: seq<string> := ["admin"]

  /** `g.user.role == 'superuser' or g.user.role in roles`; a missing role is None. */
  predicate Privileged(user: MongoModel, roles: seq<string>)
    reads user
  {
    var role := user.Attr("role");
    role == VStr("superuser") || (role.VStr? && role.s in roles)
  }

  /** `role_required(route, roles)`: the route is reached exactly by a
      present user with the `superuser` role or one of `roles`. */
  function RoleRequired(user: MongoModel?, roles: seq<string>, route: Route, args: seq<Value>, kwargs: Doc): (r: Gate)
    reads user
    ensures r.Pass? <==> user != null && Privileged(user, roles)
    ensures r.Pass? ==> r.result == route(args, kwargs)
    ensures user == null ==> r == Refuse(405, "Login required")
    ensures user != null && !Privileged(user, roles) ==> r == Refuse(405, "Unauthorized. Your role is not permitted")
  {
    if user == null then Refuse(405, "Login required")
    else if Privileged(user, roles) then Pass(route(args, kwargs))
    else Refuse(405, "Unauthorized. Your role is not permitted")
  }

  /** With the default roles, exactly `superuser` and `admin` are admitted. */
  lemma DefaultRolesAdmit(user: MongoModel, route: Route, args: seq<Value>, kwargs: Doc)
    ensures RoleRequired(user, DefaultRoles, route, args, kwargs).Pass? <==>
      user.Attr("role") in {VStr("superuser"), VStr("admin")}
  {
  }

  /** `user_route(route, roles)` as written: past the login and role checks
      it calls `kwargs.geet`, which a dict does not have. */
  function UserRouteAsWritten(user: MongoModel?, roles: seq<string>, route: Route, args: seq<Value>,
                              kwargs: Doc): Result<Gate>
    reads user
  {
    if user == null then Ok(Refuse(405, "Login required"))
    else if Privileged(user, roles) then Ok(Pass(route(args, kwargs)))
    else Err(NoAttribute("'dict' object has no attribute 'geet'"))
  }

  /** As written, a user without a privileged role never reaches the
      route, not even on their own `user_id`: the request raises an
      AttributeError. */
  lemma OwnerBranchUnreachable(user: MongoModel, roles: seq<string>, route: Route, args: seq<Value>, kwargs: Doc)
    requires !Privileged(user, roles)
    requires Get(kwargs, "user_id") == VStr(Users.IdText(user.id))
    ensures UserRouteAsWritten(user, roles, route, args, kwargs).Err?
    ensures ClassOf(UserRouteAsWritten(user, roles, route, args, kwargs).error) == AttributeErrorClass
  {
  }

  /** `user_route(route, roles)` as intended, with `kwargs.get`: a missing
      `user_id` is a 404, another user's a 405, the user's own id reaches
      the route. */
  function UserRoute(user: MongoModel?, roles: seq<string>, route: Route, args: seq<Value>, kwargs: Doc): (r: Gate)
    reads user
    ensures r.Pass? <==>
      user != null && (Privileged(user, roles) || Get(kwargs, "user_id") == VStr(Users.IdText(user.id)))
    ensures r.Pass? ==> r.result == route(args, kwargs)
    ensures user == null ==> r == Refuse(405, "Login required")
    ensures user != null && !Privileged(user, roles) && Get(kwargs, "user_id") == VNone ==>
      r == Refuse(404, "No user_id specified.")
  {
    if user == null then Refuse(405, "Login required")
    else if Privileged(user, roles) then Pass(route(args, kwargs))
    else
      var userId := Get(kwargs, "user_id");
      if userId == VNone then Refuse(404, "No user_id specified.")
      else if VStr(Users.IdText(user.id)) != userId then Refuse(405, "Unauthorized. Wrong user and no permission.")
      else Pass(route(args, kwargs))
  }

  /** Wherever the code as written answers, the intended gate answers the same. */
  lemma UserRouteAgrees(user: MongoModel?, roles: seq<string>, route: Route, args: seq<Value>, kwargs: Doc)
    requires UserRouteAsWritten(user, roles, route, args, kwargs).Ok?
    ensures UserRoute(user, roles, route, args, kwargs) == UserRouteAsWritten(user, roles, route, args, kwargs).value
  {
  }

  /** `sub in s`: `sub` occurs in `s` as a contiguous piece. */
  function Contains(s: string, sub: string): (r: bool)
    decreases |s|
  {
    if |sub| > |s| then false
    else if s[..|sub|] == sub then true
    else |s| > 0 && Contains(s[1..], sub)
  }

  /** `sub` occurs in `s` starting at position `i`. */
  predicate OccursAt(s: string, sub: string, i: int)
  {
    0 <= i <= |s| - |sub| && s[i..i + |sub|] == sub
  }

  /** `Contains` holds exactly when `sub` occurs at some position. */
  lemma {:induction false} ContainsAt(s: string, sub: string)
    ensures Contains(s, sub) <==> exists i :: OccursAt(s, sub, i)
    decreases |s|
  {
    if |sub| > |s| {
    } else if s[..|sub|] == sub {
      assert OccursAt(s, sub, 0);
    } else {
      assert |sub| > 0;
      ContainsAt(s[1..], sub);
      if Contains(s[1..], sub) {
        var i :| OccursAt(s[1..], sub, i);
        assert s[1..][i..i + |sub|] == s[i + 1..i + 1 + |sub|];
        assert OccursAt(s, sub, i + 1);
      }
      if exists i :: OccursAt(s, sub, i) {
        var i :| OccursAt(s, sub, i);
        assert i != 0;
        assert s[1..][i - 1..i - 1 + |sub|] == s[i..i + |sub|];
        assert OccursAt(s[1..], sub, i - 1);
      }
    }
  }

  /** `s[n:]`: empty when `s` is shorter than `n`. */
  function Drop(s: string, n: nat): (r: string)
    ensures |s| <= n ==> r == ""
    ensures n < |s| ==> r == s[n..]
  {
    if |s| <= n then "" else s[n..]
  }

  /** The credentials the header names. */
  datatype Scheme = NoHeader | Unsupported | Basic(encoded: string) | Bearer(token: string)

  /** The dispatch on the `Authorization` header: a missing header first;
      then `basic` anywhere in the lower-cased header, before `bearer`
      anywhere; the credentials follow the first 6 or 7 characters. */
  function Dispatch(header: Option<string>): (r: Scheme)
    ensures header.None? <==> r == NoHeader
    ensures header.Some? && Contains(Lower(header.value), "basic") ==> r == Basic(Drop(header.value, 6))
    ensures header.Some? && !Contains(Lower(header.value), "basic") && Contains(Lower(header.value), "bearer") ==>
      r == Bearer(Drop(header.value, 7))
    ensures r == Unsupported <==>
      header.Some? && !Contains(Lower(header.value), "basic") && !Contains(Lower(header.value), "bearer")
  {
    match header
    case None => NoHeader
    case Some(h) =>
      if Contains(Lower(h), "basic") then Basic(Drop(h, 6))
      else if Contains(Lower(h), "bearer") then Bearer(Drop(h, 7))
      else Unsupported
  }

  /** A header naming both schemes is read as Basic. */
  lemma BasicBeforeBearer(h: string)
    requires Contains(Lower(h), "basic") && Contains(Lower(h), "bearer")
    ensures Dispatch(Some(h)).Basic?
  {
  }

  /** The first position of `c` in `s`. */
  function Find(s: string, c: char): (r: Option<nat>)
    ensures r.None? <==> c !in s
    ensures r.Some? ==> r.value < |s| && s[r.value] == c && c !in s[..r.value]
  {
    if |s| == 0 then None
    else if s[0] == c then Some(0)
    else match Find(s[1..], c)
      case None => None
      case Some(i) =>
        assert s[..i + 1] == [s[0]] + s[1..][..i];
        Some(i + 1)
  }

  /** `s.split(c)`: the pieces between the occurrences of `c`. */
  function Split(s: string, c: char): (r: seq<string>)
    ensures |r| >= 1
    ensures forall p :: p in r ==> c !in p
    decreases |s|
  {
    match Find(s, c)
    case None => [s]
    case Some(i) => [s[..i]] + Split(s[i + 1..], c)
  }

  /** `c.join(parts)`. */
  function JoinWith(parts: seq<string>, c: char): string
    requires |parts| >= 1
  {
    if |parts| == 1 then parts[0] else parts[0] + [c] + JoinWith(parts[1..], c)
  }

  /** Joining the pieces of a split gives the text back. */
  lemma {:induction false} SplitJoin(s: string, c: char)
    ensures JoinWith(Split(s, c), c) == s
    decreases |s|
  {
    var f := Find(s, c);
    if f.Some? {
      var i := f.value;
      var rest := Split(s[i + 1..], c);
      assert Split(s, c) == [s[..i]] + rest;
      SplitJoin(s[i + 1..], c);
      JoinCons(s[..i], rest, c);
      assert s == s[..i] + [c] + s[i + 1..];
    }
  }

  /** Joining a piece in front of at least one more. */
  lemma JoinCons(head: string, rest: seq<string>, c: char)
    requires |rest| >= 1
    ensures JoinWith([head] + rest, c) == head + [c] + JoinWith(rest, c)
  {
    assert ([head] + rest)[1..] == rest;
  }

  /** A position holding `c` with no `c` before it is where `Find` stops. */
  lemma {:induction false} FindFirst(s: string, c: char, k: nat)
    requires k < |s| && s[k] == c && c !in s[..k]
    ensures Find(s, c) == Some(k)
    decreases k
  {
    if k > 0 {
      assert s[0] == s[..k][0];
      assert s[1..][..k - 1] == s[1..k];
      assert forall x :: x in s[1..k] ==> x in s[..k];
      FindFirst(s[1..], c, k - 1);
    }
  }

  /** Splitting `e:p` where `e` holds no colon gives `e` and the pieces of `p`. */
  lemma SplitAfterFirst(e: string, p: string, c: char)
    requires c !in e
    ensures Split(e + [c] + p, c) == [e] + Split(p, c)
  {
    var s := e + [c] + p;
    assert s[..|e|] == e && s[|e|] == c && s[|e| + 1..] == p;
    FindFirst(s, c, |e|);
  }

  /** `email, password = enc.split(':')` as written: exactly two pieces, or a
      ValueError from the unpacking. */
  function BasicAsWritten(enc: string): (r: Result<(string, string)>)
    ensures r.Ok? <==> |Split(enc, ':')| == 2
  {
    var parts := Split(enc, ':');
    if |parts| != 2 then Err(UnpackMismatch(|parts|)) else Ok((parts[0], parts[1]))
  }

  /** As written, a password holding a colon never logs in: the unpacking
      raises, although section 2 of RFC 7617 allows colons in the password. */
  lemma ColonPasswordRejected(email: string, password: string)
    requires ':' !in email && ':' in password
    ensures BasicAsWritten(email + ":" + password).Err?
    ensures ClassOf(BasicAsWritten(email + ":" + password).error) == ValueErrorClass
  {
    SplitAfterFirst(email, password, ':');
    var t := Find(password, ':').value;
    assert |Split(password, ':')| >= 2;
  }

  /** The user-id and password of section 2 of RFC 7617: the text splits at
      its first colon, the password may hold further colons. */
  function BasicCredentials(enc: string): (r: Result<(string, string)>)
    ensures r.Err? <==> ':' !in enc
    ensures r.Ok? ==> r.value.0 + ":" + r.value.1 == enc && ':' !in r.value.0
  {
    match Find(enc, ':')
    case None => Err(UnpackMismatch(1))
    case Some(i) =>
      assert enc == enc[..i] + ":" + enc[i + 1..];
      Ok((enc[..i], enc[i + 1..]))
  }

  /** Decoding the Basic credentials of a user-id without a colon gives back
      that user-id and the password, whatever the password holds. */
  lemma BasicRoundTrip(email: string, password: string)
    requires ':' !in email
    ensures BasicCredentials(email + ":" + password) == Ok((email, password))
  {
    var s := email + ":" + password;
    assert s[..|email|] == email && s[|email|] == ':' && s[|email| + 1..] == password;
    FindFirst(s, ':', |email|);
  }

  /** Where the code as written accepts the credentials, it reads them as intended. */
  lemma BasicAgrees(enc: string)
    requires BasicAsWritten(enc).Ok?
    ensures BasicCredentials(enc) == BasicAsWritten(enc)
  {
    var parts := Split(enc, ':');
    var i := Find(enc, ':').value;
    assert Split(enc[i + 1..], ':') == [parts[1]];
  }

  /** `load_user_from_header_authorization()`: the header is dispatched;
      Basic credentials are base64-decoded (`decode`), split at the first
      colon and the user looked up by the e-mail as given, then the password
      is checked; a Bearer token is loaded (`loadToken`) and the user looked
      up by its `id`, with no password. The result is the login check with
      activation; an `Err` is an exception the function does not catch. */
  method Authenticate(header: Option<string>, db: Database, decode: string -> Result<string>,
                      loadToken: string -> Result<Doc>, hash: string -> string) returns (r: Result<Login>)
    ensures header.None? ==> r == Ok(Denied(401, "No HTTP Authorization HEADER found."))
    ensures Dispatch(header) == Unsupported ==> r == Ok(Denied(501, "Only Basic and Bearer Authorization are implemented"))
    ensures r.Ok? && r.value.LoggedIn? ==> r.value.user.kind == UserKind && Users.IsActivated(r.value.user)
    ensures Dispatch(header).Basic? && decode(Dispatch(header).encoded).Err? ==>
      r == Err(decode(Dispatch(header).encoded).error)
    ensures Dispatch(header).Basic? && decode(Dispatch(header).encoded).Ok? &&
            BasicCredentials(decode(Dispatch(header).encoded).value).Err? ==>
      r == Err(BasicCredentials(decode(Dispatch(header).encoded).value).error)
    ensures Dispatch(header).Bearer? && loadToken(Dispatch(header).token).Err? ==>
      r == Err(loadToken(Dispatch(header).token).error)
    ensures Dispatch(header).Bearer? && loadToken(Dispatch(header).token).Ok? &&
            "id" !in loadToken(Dispatch(header).token).value ==>
      r == Err(MissingKey("id"))
    ensures Dispatch(header).Basic? && r.Ok? && r.value.LoggedIn? ==>
      (decode(Dispatch(header).encoded).Ok? &&
       var enc := decode(Dispatch(header).encoded).value;
       BasicCredentials(enc).Ok? && Users.VerifyPassword(r.value.user, BasicCredentials(enc).value.1, hash))
    ensures Dispatch(header).Basic? && decode(Dispatch(header).encoded).Ok? &&
            BasicCredentials(decode(Dispatch(header).encoded).value).Ok? ==>
      var (email, password) := BasicCredentials(decode(Dispatch(header).encoded).value).value;
      match FindOne(db.Records("users"), map["email" := VStr(email)])
      case None => r == Ok(Denied(404, "User not found."))
      case Some(rec) =>
        && (!Users.Accepts(rec) ==> r.Err?)
        && (Users.Accepts(rec) ==>
              r.Ok? &&
              (r.value.LoggedIn? <==>
                 Get(Users.InitDoc(rec, hash), "activated") == VBool(true) &&
                 Get(Users.InitDoc(rec, hash), "_pw_hash") == VStr(hash(password))))
    ensures Dispatch(header).Bearer? && loadToken(Dispatch(header).token).Ok? &&
            "id" in loadToken(Dispatch(header).token).value ==>
      var key := loadToken(Dispatch(header).token).value["id"];
      match FindById(Some("users"), db, key, map[])
      case Err(e) => r == Err(e)
      case Ok(None) => r == Ok(Denied(404, "User not found."))
      case Ok(Some(rec)) =>
        && (!Users.Accepts(rec) ==> r.Err?)
        && (Users.Accepts(rec) ==>
              r.Ok? && (r.value.LoggedIn? <==> Get(Users.InitDoc(rec, hash), "activated") == VBool(true)))
  {
    match Dispatch(header)
    case NoHeader =>
      r := Ok(Denied(401, "No HTTP Authorization HEADER found."));
    case Unsupported =>
      r := Ok(Denied(501, "Only Basic and Bearer Authorization are implemented"));
    case Basic(encoded) =>
      var enc := decode(encoded);
      if enc.Err? {
        return Err(enc.error);
      }
      var creds := BasicCredentials(enc.value);
      if creds.Err? {
        return Err(creds.error);
      }
      var (email, password) := creds.value;
      var u := Users.GetByEmail(db, VStr(email), hash);
      if u.Err? {
        return Err(u.error);
      }
      var user: MongoModel? := if u.value.Some? then u.value.value else null;
      r := Ok(CheckUserLoggedIn(user, Some(password), true, hash));
    case Bearer(token) =>
      var payload := loadToken(token);
      if payload.Err? {
        return Err(payload.error);
      }
      if "id" !in payload.value {
        return Err(MissingKey("id"));
      }
      var u := Queries.GetById(UserKind, db, payload.value["id"], map[], hash);
      if u.Err? {
        return Err(u.error);
      }
      var user: MongoModel? := if u.value.Some? then u.value.value else null;
      r := Ok(CheckUserLoggedIn(user, None, true, hash));
  }
}
