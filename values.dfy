/** The dynamic values the job server stores in its documents, the
    exceptions it raises, and the few Python built-ins the model needs
    (`dict.get`, truthiness, ASCII `str.lower`, `ObjectId` parsing). */
module Values {

  datatype Option<+T> = None | Some(value: T)

  /** The outcome of a Python call: a value, or the exception it raised. */
  datatype Result<+T> = Ok(value: T) | Err(error: Error) {
    predicate IsFailure() { Err? }
    function PropagateFailure<U>(): Result<U> requires Err? { Err(error) }
    function Extract(): T requires Ok? { value }
  }

  /** A MongoDB object id, kept as its 24 lower-case hexadecimal digits. */
  datatype ObjectId = ObjectId(hex: string)

  /** A pandas DataFrame, kept abstract: where it was built from. */
  datatype Frame =
    | CsvFrame(path: string)     // pd.read_csv(path)
    | FrameOf(source: Value)     // pd.DataFrame(source)

  /** A Python value as far as the job server handles one. */
  datatype Value =
    | VNone
    | VBool(b: bool)
    | VInt(i: int)
    | VStr(s: string)
    | VTime(t: int)              // a datetime read from the clock
    | VId(oid: ObjectId)
    | VList(items: seq<Value>)
    | VDict(fields: map<string, Value>)
    | VFrame(frame: Frame)

  /** A Python dict with string keys: a document, a keyword dictionary. */
  type Doc = map<string, Value>

  /** The Python exception class an error is raised as. */
  datatype PyClass =
    | ValueErrorClass | TypeErrorClass | AttributeErrorClass | KeyErrorClass
    | NotImplementedErrorClass | InvalidIdClass | FileNotFoundErrorClass
    | DuplicateKeyErrorClass | WriteErrorClass | DecodeErrorClass | ScriptErrorClass

  /** Every exception the modelled code raises, one constructor per cause. */
  datatype Error =
    | NoDataSetting                       // ValueError: no data-like setting on the job
    | ScriptTypeUnknown(kind: Value)      // ValueError: unknown script type
    | ScriptTypeUnsupported(name: string) // NotImplementedError: 'file' or 'eval'
    | NoScript                            // ValueError: neither script nor script_name
    | FileTypeNotAllowed(path: string)    // ValueError: strict DataFile with a bad extension
    | ModuleNotImported(name: string)     // ValueError: unknown script module
    | NoCollection                        // ValueError: model class without a collection
    | DeleteIdentity                      // ValueError: deleting the id attribute
    | EmailTaken(email: Value)            // ValueError: e-mail already registered
    | UnpackMismatch(parts: nat)          // ValueError: wrong number of values to unpack
    | NoAttribute(what: string)           // AttributeError
    | MissingKey(key: string)             // KeyError
    | BadArguments(why: string)           // TypeError
    | InvalidObjectId                     // bson.errors.InvalidId
    | FileMissing(path: string)           // FileNotFoundError
    | DuplicateKey                        // pymongo DuplicateKeyError
    | ImmutableId                         // pymongo WriteError: `_id` may not change
    | BadEncoding                         // binascii.Error / UnicodeDecodeError
    | NotReadable                         // ValueError: pd.read_csv of something that is no path
    | ScriptRaised(message: string)       // whatever a script function raised

  function ClassOf(e: Error): PyClass {
    match e
    case NoDataSetting | ScriptTypeUnknown(_) | NoScript | FileTypeNotAllowed(_)
      | ModuleNotImported(_) | NoCollection | DeleteIdentity | EmailTaken(_)
      | UnpackMismatch(_) | NotReadable => ValueErrorClass
    case ScriptTypeUnsupported(_) => NotImplementedErrorClass
    case NoAttribute(_) => AttributeErrorClass
    case MissingKey(_) => KeyErrorClass
    case BadArguments(_) => TypeErrorClass
    case InvalidObjectId => InvalidIdClass
    case FileMissing(_) => FileNotFoundErrorClass
    case DuplicateKey => DuplicateKeyErrorClass
    case ImmutableId => WriteErrorClass
    case BadEncoding => DecodeErrorClass
    case ScriptRaised(_) => ScriptErrorClass
  }

  /** `d.get(key)`: the stored value, None when the key is absent. */
  function Get(d: Doc, key: string): Value {
    if key in d then d[key] else VNone
  }

  /** `d.get(key, default)`. */
  function GetOr(d: Doc, key: string, default: Value): Value {
    if key in d then d[key] else default
  }

  /** Python truthiness (`bool(v)`). A DataFrame has none in pandas; it counts as true here. */
  predicate Truthy(v: Value) {
    match v
    case VNone => false
    case VBool(b) => b
    case VInt(i) => i != 0
    case VStr(s) => s != ""
    case VList(items) => items != []
    case VDict(fields) => fields != map[]
    case VTime(_) | VId(_) | VFrame(_) => true
  }

  function LowerChar(c: char): char {
    if 'A' <= c <= 'Z' then (c as int + 32) as char else c
  }

  /** `s.lower()` on ASCII letters. */
  function Lower(s: string): (r: string)
    ensures |r| == |s|
    ensures forall i :: 0 <= i < |s| ==> r[i] == LowerChar(s[i])
  {
    seq(|s|, i requires 0 <= i < |s| => LowerChar(s[i]))
  }

  predicate IsHexDigit(c: char) {
    '0' <= c <= '9' || 'a' <= c <= 'f' || 'A' <= c <= 'F'
  }

  /** `ObjectId(s)` for a string: 24 hexadecimal digits, in either case. */
  function ParseObjectId(s: string): (r: Option<ObjectId>)
    ensures r.Some? <==> |s| == 24 && forall i :: 0 <= i < |s| ==> IsHexDigit(s[i])
    ensures r.Some? ==> r.value.hex == Lower(s)
  {
    if |s| == 24 && forall i :: 0 <= i < |s| ==> IsHexDigit(s[i])
    then Some(ObjectId(Lower(s)))
    else None
  }

  /** Rendering an id with `str` and parsing it again gives the same id. */
  lemma ParseObjectIdRoundTrip(s: string)
    requires ParseObjectId(s).Some?
    ensures ParseObjectId(ParseObjectId(s).value.hex) == ParseObjectId(s)
  {
    var h := Lower(s);
    forall i | 0 <= i < |h| ensures IsHexDigit(h[i]) && LowerChar(h[i]) == h[i] {
      assert IsHexDigit(s[i]);
    }
    assert Lower(h) == h;
  }

  /** `ObjectId(v)` for any value: an ObjectId is kept, a string is parsed,
      anything else is a TypeError. */
  function IdFromValue(v: Value): (r: Result<ObjectId>)
    ensures v.VId? ==> r == Ok(v.oid)
    ensures v.VStr? ==> (r.Ok? <==> ParseObjectId(v.s).Some?)
    ensures r.Err? ==> ClassOf(r.error) in {InvalidIdClass, TypeErrorClass}
    ensures !v.VId? && !v.VStr? ==> r.Err? && ClassOf(r.error) == TypeErrorClass
  {
    match v
    case VId(o) => Ok(o)
    case VStr(s) =>
      (match ParseObjectId(s)
       case Some(o) => Ok(o)
       case None => Err(InvalidObjectId))
    case _ => Err(BadArguments("id must be an instance of (str, bytes, ObjectId)"))
  }

  /** The identity slot as the value a query filter carries. */
  function IdValue(id: Option<ObjectId>): Value {
    match id
    case Some(o) => VId(o)
    case None => VNone
  }

  /** `str(v)`: a string is its own string form; every other value is
      rendered by `show`, which stands for Python's `str`. */
  function Str(v: Value, show: Value -> string): string {
    if v.VStr? then v.s else show(v)
  }
}
