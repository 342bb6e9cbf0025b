/** The data models a job reads its input from: `BaseDataModel`, which
    holds a payload, and `DataFile`, a file in the configured data directory.
    Paths follow POSIX `os.path` rules. */
module Data {
  import opened Values

  /** The part of the file system the data files live in: the configured
      `DATA_PATH` and the size in bytes of every existing file. */
  datatype FileSystem = FileSystem(dataPath: string, files: map<string, nat>)

  /** A data model instance: a `BaseDataModel` with its payload, or a
      `DataFile` with its `path` attribute (whatever the caller passed). */
  datatype DataModel = BaseData(payload: Value) | DataFile(path: Value)

  /** `DataFile.allowed_mime`. */
  const AllowedMime: seq<string> := [".csv", ".dat", ".txt"]

  /** `BaseDataModel(**kw)`: the only parameter is `data`, default None;
      any other keyword is a TypeError. */
  function NewBase(kw: Doc): (r: Result<DataModel>)
    ensures r.Ok? <==> kw.Keys <= {"data"}
    ensures r.Ok? ==> r.value.BaseData?
  {
    if kw.Keys <= {"data"} then Ok(BaseData(Get(kw, "data")))
    else Err(BadArguments("unexpected keyword argument"))
  }

  /** `read()`: the payload of a `BaseDataModel`; for a `DataFile`,
      `pd.read_csv(path)`, which needs an existing file. */
  function Read(m: DataModel, fs: FileSystem): (r: Result<Value>)
    ensures m.BaseData? ==> r == Ok(m.payload)
    ensures m.DataFile? && r.Ok? ==> m.path.VStr? && m.path.s in fs.files && r.value == VFrame(CsvFrame(m.path.s))
  {
    match m
    case BaseData(p) => Ok(p)
    case DataFile(path) =>
      if !path.VStr? then Err(NotReadable)
      else if path.s in fs.files then Ok(VFrame(CsvFrame(path.s)))
      else Err(FileMissing(path.s))
  }

  /** `BaseDataModel.to_dict()`: the class's type tag and the payload. */
  function BaseToDict(payload: Value): (r: Value)
    ensures r.VDict? && r.fields.Keys == {"type", "data"}
    ensures r.fields["type"] == VStr("BaseDataModel")
  {
    VDict(map["type" := VStr("BaseDataModel"), "data" := payload])
  }

  /** `read()` gives back exactly what the constructor stored, None by
      default, and `to_dict()['data']` is that same value. */
  lemma BaseReadBack(v: Value, fs: FileSystem)
    ensures NewBase(map["data" := v]) == Ok(BaseData(v))
    ensures NewBase(map[]) == Ok(BaseData(VNone))
    ensures Read(NewBase(map["data" := v]).value, fs) == Ok(v)
    ensures BaseToDict(v).fields["data"] == Read(BaseData(v), fs).value
  {
  }

  /** `s.rfind(c)`: the last position of `c`, -1 when there is none. */
  function RFind(s: string, c: char): (r: int)
    ensures -1 <= r < |s|
    ensures r >= 0 ==> s[r] == c
    ensures forall j :: r < j < |s| ==> s[j] != c
  {
    if |s| == 0 then -1
    else if s[|s| - 1] == c then |s| - 1
    else RFind(s[..|s| - 1], c)
  }

  /** `os.path.splitext(p)`: the extension runs from the last dot of the
      final path component to the end, provided some character other than
      a dot comes before that dot in the component; otherwise it is empty. */
  function SplitExt(p: string): (r: (string, string))
    ensures r.0 + r.1 == p
    ensures r.1 != [] ==> r.1[0] == '.' && (forall j :: 1 <= j < |r.1| ==> r.1[j] != '.' && r.1[j] != '/')
  {
    var sepIndex := RFind(p, '/');
    var dotIndex := RFind(p, '.');
    if dotIndex > sepIndex && exists j :: sepIndex + 1 <= j < dotIndex && p[j] != '.'
    then (p[..dotIndex], p[dotIndex..])
    else (p, "")
  }

  /** `DataFile.is_allowed(path)`: the lower-cased extension is allowed. */
  predicate IsAllowed(p: string) {
    Lower(SplitExt(p).1) in AllowedMime
  }

  /** Some character of `p[..n]` after its last `/` is not a dot, so the
      file name does not consist of leading dots only. */
  predicate NamedBefore(p: string, n: int)
    requires 0 <= n <= |p|
  {
    exists j :: 0 <= j < n && p[j] != '.' && forall i :: j <= i < n ==> p[i] != '/'
  }

  lemma LowerDotExt(e: string)
    requires Lower(e) in AllowedMime
    ensures |e| == 4 && e[0] == '.' && forall j :: 1 <= j < 4 ==> e[j] != '.' && e[j] != '/'
  {
    assert |Lower(e)| == 4;
    assert LowerChar(e[0]) == '.';
    forall j | 1 <= j < 4 ensures e[j] != '.' && e[j] != '/' {
      assert 'a' <= LowerChar(e[j]) <= 'z';
    }
  }

  /** The allow-list check without `splitext`: the path ends in one of the
      allowed extensions, in any letter case, and the file name has a
      character other than a dot before it. */
  lemma IsAllowedChar(p: string)
    ensures IsAllowed(p) <==>
      |p| >= 4 && Lower(p[|p| - 4..]) in AllowedMime && NamedBefore(p, |p| - 4)
  {
    var sepIndex := RFind(p, '/');
    var dotIndex := RFind(p, '.');
    var n := |p| - 4;
    if IsAllowed(p) {
      var (root, ext) := SplitExt(p);
      LowerDotExt(ext);
      assert ext == p[dotIndex..];
      assert dotIndex == n;
      var j :| sepIndex + 1 <= j < dotIndex && p[j] != '.';
      assert forall i :: j <= i < n ==> p[i] != '/';
    }
    if |p| >= 4 && Lower(p[n..]) in AllowedMime && NamedBefore(p, n) {
      LowerDotExt(p[n..]);
      assert p[n] == p[n..][0];
      assert forall j :: n < j < |p| ==> p[j] == p[n..][j - n];
      assert dotIndex == n;
      var j :| 0 <= j < n && p[j] != '.' && forall i :: j <= i < n ==> p[i] != '/';
      assert sepIndex < j;
      assert SplitExt(p).1 == p[n..];
    }
  }

  /** `DataFile(path, strict)`: with a true `strict`, the path must be a
      string (a TypeError otherwise) whose extension is allowed (a
      ValueError otherwise); without it, any path is accepted. */
  function NewFileWith(path: Value, strict: Value): (r: Result<DataModel>)
    ensures !Truthy(strict) ==> r == Ok(DataFile(path))
    ensures Truthy(strict) && path.VStr? ==> (r.Ok? <==> IsAllowed(path.s))
    ensures Truthy(strict) && !path.VStr? ==> r.Err? && ClassOf(r.error) == TypeErrorClass
    ensures r.Ok? ==> r.value == DataFile(path)
  {
    if !Truthy(strict) then Ok(DataFile(path))
    else if !path.VStr? then Err(BadArguments("expected str, bytes or os.PathLike object"))
    else if IsAllowed(path.s) then Ok(DataFile(path))
    else Err(FileTypeNotAllowed(path.s))
  }

  /** `DataFile(**kw)`: `path` is required, `strict` defaults to True, no other keyword is accepted. */
  function NewFile(kw: Doc): (r: Result<DataModel>)
    ensures !(kw.Keys <= {"path", "strict"} && "path" in kw) ==> r.Err? && ClassOf(r.error) == TypeErrorClass
    ensures kw.Keys <= {"path", "strict"} && "path" in kw ==> r == NewFileWith(kw["path"], GetOr(kw, "strict", VBool(true)))
  {
    if !(kw.Keys <= {"path", "strict"}) then Err(BadArguments("unexpected keyword argument"))
    else if "path" !in kw then Err(BadArguments("missing required argument 'path'"))
    else NewFileWith(kw["path"], GetOr(kw, "strict", VBool(true)))
  }

  /** `os.path.join(a, b)`. */
  function Join(a: string, b: string): (r: string)
    ensures |b| > 0 && b[0] == '/' ==> r == b
    ensures !(|b| > 0 && b[0] == '/') && (a == "" || a[|a| - 1] == '/') ==> r == a + b
    ensures !(|b| > 0 && b[0] == '/') && !(a == "" || a[|a| - 1] == '/') ==> r == a + "/" + b
  {
    if |b| > 0 && b[0] == '/' then b
    else if a == "" || a[|a| - 1] == '/' then a + b
    else a + "/" + b
  }

  /** `os.path.basename(p)`: the final path component. */
  function BaseName(p: string): (r: string)
    ensures '/' !in r
    ensures exists k :: 0 <= k <= |p| && r == p[k..] && (k == 0 || p[k - 1] == '/')
  {
    var k := RFind(p, '/') + 1;
    assert forall j :: 0 <= j < |p[k..]| ==> p[k..][j] == p[k + j];
    p[k..]
  }

  /** `DataFile.get_from_name(name)`: the file `name` in the data directory,
      None when it does not exist; an existing file of a disallowed type is
      refused by the strict constructor. */
  function GetFromName(fs: FileSystem, name: Value): (r: Result<Option<DataModel>>)
    ensures !name.VStr? ==> r.Err?
    ensures name.VStr? && Join(fs.dataPath, name.s) !in fs.files ==> r == Ok(None)
    ensures name.VStr? && Join(fs.dataPath, name.s) in fs.files ==>
      (r.Ok? <==> IsAllowed(Join(fs.dataPath, name.s))) &&
      (r.Ok? ==> r.value == Some(DataFile(VStr(Join(fs.dataPath, name.s)))))
  {
    if !name.VStr? then Err(BadArguments("expected str, bytes or os.PathLike object"))
    else
      var path := Join(fs.dataPath, name.s);
      if path !in fs.files then Ok(None)
      else match NewFileWith(VStr(path), VBool(true))
        case Ok(m) => Ok(Some(m))
        case Err(e) => Err(e)
  }

  /** `DataFile.find_all()` over the directory listing `glob` returned: a
      `DataFile` for every listed path of an allowed type. */
  function FindAll(listing: seq<string>): (r: seq<DataModel>)
    ensures |r| <= |listing|
    ensures forall m :: m in r ==> m.DataFile? && m.path.VStr? && m.path.s in listing && IsAllowed(m.path.s)
    ensures forall f :: f in listing && IsAllowed(f) ==> DataFile(VStr(f)) in r
  {
    if listing == [] then []
    else (if IsAllowed(listing[0]) then [DataFile(VStr(listing[0]))] else []) + FindAll(listing[1..])
  }

  /** `find_all` keeps the listing order: the files of a longer listing
      come after those of its prefix. */
  lemma {:induction false} FindAllKeepsOrder(a: seq<string>, b: seq<string>)
    ensures FindAll(a + b) == FindAll(a) + FindAll(b)
  {
    if a == [] {
      assert a + b == b;
    } else {
      assert (a + b)[1..] == a[1..] + b;
      FindAllKeepsOrder(a[1..], b);
    }
  }

  /** `1024 ** i`. */
  function Pow1024(i: nat): (r: nat)
    ensures r >= 1
  {
    if i == 0 then 1 else 1024 * Pow1024(i - 1)
  }

  /** The suffix index `size` settles on: the largest `i <= 5` with
      `1024 ** i <= bytes`, 0 for byte counts below 1024. */
  predicate IsSuffixIndex(bytes: nat, i: nat) {
    i <= 5 && (i == 0 || Pow1024(i) <= bytes) && (i == 5 || bytes < Pow1024(i + 1))
  }

  const Suffixes: seq<string> := ["B", "KB", "MB", "GB", "TB", "PB"]

  /** The suffix index for `bytes`, counting up from `i`. */
  function SuffixIndexFrom(bytes: nat, i: nat): (r: nat)
    requires i <= 5 && (i == 0 || Pow1024(i) <= bytes)
    ensures IsSuffixIndex(bytes, r)
    decreases 5 - i
  {
    if i < 5 && Pow1024(i + 1) <= bytes then SuffixIndexFrom(bytes, i + 1) else i
  }

  function SuffixIndex(bytes: nat): (r: nat)
    ensures IsSuffixIndex(bytes, r)
  {
    SuffixIndexFrom(bytes, 0)
  }

  /** The size text of a file of `bytes` bytes. */
  function SizeText(bytes: nat, render: real -> string): string {
    var i := SuffixIndex(bytes);
    render(bytes as real / Pow1024(i) as real) + " " + Suffixes[i]
  }

  /** Below 1024 bytes the suffix is `B`; from `1024 ** 5` on it is `PB`,
      however large the file. */
  lemma SuffixBounds(bytes: nat)
    ensures SuffixIndex(bytes) <= 5
    ensures bytes < 1024 <==> SuffixIndex(bytes) == 0
    ensures Pow1024(5) <= bytes <==> SuffixIndex(bytes) == 5
  {
    var i := SuffixIndex(bytes);
    if i > 0 {
      PowMonotone(1, i);
    }
    if Pow1024(5) <= bytes && i < 5 {
      PowMonotone(i + 1, 5);
    }
  }

  /** The human-readable size of a file of `bytes` bytes: the loop of
      `DataFile.size` divides by 1024 while the value is at least 1024 and
      a larger suffix exists. Returns the divided value and the suffix index. */
  method SizeParts(bytes: nat) returns (size: real, i: nat)
    ensures i == SuffixIndex(bytes)
    ensures size == bytes as real / Pow1024(i) as real
    ensures bytes < 1024 ==> i == 0 && size == bytes as real
  {
    size, i := bytes as real, 0;
    while size >= 1024.0 && i < |Suffixes| - 1
      invariant i <= 5
      invariant size * Pow1024(i) as real == bytes as real
      invariant i == 0 || Pow1024(i) <= bytes
      decreases 5 - i
    {
      ScaleStep(size, Pow1024(i) as real, bytes as real);
      size := size / 1024.0;
      i := i + 1;
    }
    ScaleQuotient(size, Pow1024(i) as real, bytes as real);
    SizeLoopExit(bytes, size, i);
  }

  /** The loop of `size` stops at the suffix index of `bytes`. */
  lemma SizeLoopExit(bytes: nat, size: real, i: nat)
    requires i <= 5 && size * Pow1024(i) as real == bytes as real && (i == 0 || Pow1024(i) <= bytes)
    requires !(size >= 1024.0 && i < 5)
    ensures i == SuffixIndex(bytes)
  {
    if i < 5 {
      ScaleBelow(size, Pow1024(i) as real, bytes as real);
      assert Pow1024(i + 1) as real == 1024.0 * Pow1024(i) as real;
    }
    SuffixIndexUnique(bytes, i, SuffixIndex(bytes));
  }

  lemma ScaleStep(size: real, p: real, b: real)
    requires p >= 1.0 && size * p == b && size >= 1024.0
    ensures (size / 1024.0) * (p * 1024.0) == b && p * 1024.0 <= b
  {
  }

  lemma ScaleBelow(size: real, p: real, b: real)
    requires p >= 1.0 && size * p == b && size < 1024.0
    ensures b < 1024.0 * p
  {
  }

  lemma ScaleQuotient(size: real, p: real, b: real)
    requires p >= 1.0 && size * p == b
    ensures size == b / p
  {
  }

  lemma SuffixIndexUnique(bytes: nat, i: nat, j: nat)
    requires IsSuffixIndex(bytes, i) && IsSuffixIndex(bytes, j)
    ensures i == j
  {
    if i < j {
      PowMonotone(i + 1, j);
    } else if j < i {
      PowMonotone(j + 1, i);
    }
  }

  lemma {:induction false} PowMonotone(a: nat, b: nat)
    requires a <= b
    ensures Pow1024(a) <= Pow1024(b)
  {
    if a < b {
      PowMonotone(a, b - 1);
    }
  }

  /** `DataFile.size()`: `getsize` needs an existing file; the number, as
      `'%.2f'` with trailing zeros and dot removed, is rendered by `render`. */
  method Size(path: Value, fs: FileSystem, render: real -> string) returns (r: Result<string>)
    ensures !path.VStr? ==> r.Err?
    ensures path.VStr? && path.s !in fs.files ==> r == Err(FileMissing(path.s))
    ensures path.VStr? && path.s in fs.files ==> r == Ok(SizeText(fs.files[path.s], render))
  {
    if !path.VStr? {
      return Err(BadArguments("expected str, bytes or os.PathLike object"));
    }
    if path.s !in fs.files {
      return Err(FileMissing(path.s));
    }
    var size, i := SizeParts(fs.files[path.s]);
    r := Ok(render(size) + " " + Suffixes[i]);
  }

  /** `to_dict()`: a `BaseDataModel` gives its tag and payload; a `DataFile`
      gives tag `datafile`, the path, its final component and its size. */
  function DictOf(m: DataModel, fs: FileSystem, render: real -> string): Result<Value> {
    match m
    case BaseData(p) => Ok(BaseToDict(p))
    case DataFile(path) =>
      if !path.VStr? then Err(BadArguments("expected str, bytes or os.PathLike object"))
      else if path.s !in fs.files then Err(FileMissing(path.s))
      else Ok(VDict(map["type" := VStr("datafile"), "path" := path, "name" := VStr(BaseName(path.s)),
                        "size" := VStr(SizeText(fs.files[path.s], render))]))
  }

  /** `to_dict()`, computing the size with the loop of `size()`. */
  method ToDict(m: DataModel, fs: FileSystem, render: real -> string) returns (r: Result<Value>)
    ensures r == DictOf(m, fs, render)
    ensures m.BaseData? ==> r == Ok(BaseToDict(m.payload))
    ensures m.DataFile? && !m.path.VStr? ==> r.Err?
    ensures m.DataFile? && r.Ok? ==>
      (m.path.VStr? && r.value.VDict? &&
       r.value.fields.Keys == {"type", "path", "name", "size"} &&
       r.value.fields["type"] == VStr("datafile") && r.value.fields["path"] == m.path &&
       r.value.fields["name"] == VStr(BaseName(m.path.s)))
    ensures m.DataFile? && m.path.VStr? ==> (r.Ok? <==> m.path.s in fs.files)
  {
    match m
    case BaseData(p) => r := Ok(BaseToDict(p));
    case DataFile(path) =>
      if !path.VStr? {
        return Err(BadArguments("expected str, bytes or os.PathLike object"));
      }
      var size := Size(path, fs, render);
      if size.Err? {
        return Err(size.error);
      }
      r := Ok(VDict(map["type" := VStr("datafile"), "path" := path, "name" := VStr(BaseName(path.s)), "size" := VStr(size.value)]));
  }
}
