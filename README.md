# jobserver in Dafny

A model of the core of `jobserver`, a small Flask/MongoDB service that runs registered Python script functions as "jobs" on input data and stores the outcome on the job record. The model covers:

- the attribute-bag document model `MongoModel` and its persistence against an in-memory database;
- the `Job` lifecycle: resolving the input data, resolving the script, `start`, and `Process.run` recording `started`, `finished`, `time_sec` and `result`;
- the data models `BaseDataModel`, `DataFile` and `DataMongo`;
- the `User` account state: password digest, activation tokens and e-mail uniqueness;
- the script registry lookup;
- the job REST handlers' status mapping, including the `run_job` start guard;
- the authorization decisions, with `Authorization` header dispatch for Basic (RFC 7617) and Bearer (RFC 6750) credentials.

Modules, one per concern of the program:

- `Values`: Python values as a datatype, exceptions as an `Error` datatype with their Python class, and `ObjectId` parsing (24 hexadecimal digits).
- `Store`: the MongoDB database as a `Database` class holding, per collection, its documents in insertion order. It models the pymongo calls the server makes: `find`, `find_one`, `count_documents`, `insert_one`, `update_one` with `$set`, and `delete_one`.
- `Clock`: `datetime.utcnow()` as a monotone integer clock.
- `Mongo`: `MongoModel` as a class with an identity slot `id` and a document `doc`. Each persisting operation is a method proved equal to a specification function (`CreateSpec`, `UpdateSpec`, `SaveSpec`) over the old state. Lemmas about those functions state what the operation achieves.
- `Scripts`, `Data`, `DataMongo`, `Processes`, `Users`, `Jobs`: the remaining model classes.
- `Queries`: the class methods `get`, `get_all` and `delete_all`, which build instances of any subclass.
- `JobApi`: the job REST handlers as methods returning an HTTP status and a body.
- `Authorization`: the login checks, the route gates and the header dispatch.

Parameters stand for what the model does not compute:

- the SHA-256 hex digest (`hash`);
- `uuid4().hex` (`hex`);
- the ObjectId `insert_one` generates (`newId`);
- base64 decoding (`decode`, section 4 of RFC 4648);
- the itsdangerous token loader (`loadToken`);
- Python's `str` of a value (`show`) and of an exception (`explain`);
- the `'%.2f'` rendering of a size (`render`);
- pandas' `DataFrame.to_dict` (`frameToDict`);
- calling a script function (`invoke`);
- the script registry (`scripts`, `globals`);
- the files present in the data directory (`FileSystem`).

## Model

| member | source | states |
|---|---|---|
| Values.ParseObjectId | jobserver/models/mongo.py:101-105 | a string is an ObjectId exactly when it is 24 hexadecimal digits; the id holds them lower-cased |
| Values.ParseObjectIdRoundTrip | jobserver/models/mongo.py:101-105 | parsing the text of a parsed id gives the same id |
| Values.IdFromValue | jobserver/models/mongo.py:131-134 | an ObjectId is kept, a string must parse (else InvalidId), and every other value, None included, is a TypeError |
| Clock.Clock.UtcNow | jobserver/models/process.py:25 | each reading is at least the previous one |
| Store.FindAll | jobserver/models/mongo.py:121-124 | `find` returns exactly the matching documents of the collection |
| Store.FirstMatch | jobserver/models/mongo.py:110 | the position `find_one` acts on matches, and no earlier document matches; none exactly when nothing matches |
| Store.WithId | jobserver/models/mongo.py:46 | `insert_one` keeps a given `_id` and otherwise adds the generated one, changing no other key |
| Store.Insert | jobserver/models/mongo.py:46 | an insert succeeds exactly when no record has the new `_id`, and then appends the document; otherwise DuplicateKeyError |
| Store.UpdateFirst | jobserver/models/mongo.py:58-61 | `$set` without a match changes nothing; an update keeps the number of records; a changed `_id` is refused |
| Store.DeleteFirst | jobserver/models/mongo.py:89-94 | `delete_one` says whether a document matched, and then removes exactly one |
| Store.FindAfterInsert | jobserver/models/mongo.py:46-49 | a document inserted under a fresh `_id` is what a lookup by that `_id` finds |
| Store.FindAfterUpdate | jobserver/models/mongo.py:58-61 | after `$set` by `_id`, the lookup finds the old record with the update written over it |
| Store.DeleteKeepsOthers | jobserver/models/mongo.py:89 | `delete_one` keeps every document that does not match |
| Store.Database.InsertOne | jobserver/models/mongo.py:46 | the collection becomes `Insert` of the stored document; other collections are unchanged |
| Store.Database.UpdateOne | jobserver/models/mongo.py:58-61 | the collection becomes `UpdateFirst` of the old one, or stays unchanged on error |
| Store.Database.DeleteOne | jobserver/models/mongo.py:89-94 | the collection becomes `DeleteFirst` of the old one; the result says whether a record went |
| Mongo.IsIdKeyLower | jobserver/models/mongo.py:130 | the identity names are exactly those whose lower-casing is `_id` or `id` |
| Mongo.Stringify | jobserver/models/mongo.py:78-81 | dictionaries stay dictionaries with the same keys; every other value becomes a string |
| Mongo.StringifyGivesStrings | jobserver/models/mongo.py:78-84 | every leaf of a stringified value is a string |
| Mongo.StringifyIdempotent | jobserver/models/mongo.py:78-84 | stringifying twice is stringifying once |
| Mongo.StringifyKeepsStrings | jobserver/models/mongo.py:78-84 | a value whose leaves are all strings is left as it is |
| Mongo.SaveSpec | jobserver/models/mongo.py:63-67 | `save` is `update()` with no data when an identity is set, `create` otherwise |
| Mongo.BaseCreateSpec | jobserver/models/mongo.py:37-49 | a set id becomes `_id` of the document, `insert_one` writes it (with a generated `_id` when there is none), and the stored `_id` becomes the identity |
| Mongo.BaseUpdateSpec | jobserver/models/mongo.py:51-61 | the document is merged with `data`, then `$set` on the record with the identity's `_id` |
| Mongo.CreateSpec | jobserver/models/job.py:214-218 | `Job` and `DataMongo` stamp `created` when None, `User` refuses a registered e-mail (jobserver/models/user.py:98-101), then the base create |
| Mongo.UpdateSpec | jobserver/models/data_mongo.py:44-46 | `Job` and `DataMongo` stamp `edited`, `User` refuses a changed e-mail that is taken (jobserver/models/user.py:103-115), then the base update |
| Mongo.CreatedIsFound | jobserver/models/mongo.py:37-49 | after a successful create the identity is set and a lookup by the stored `_id` finds exactly the local document |
| Mongo.CreateKeepsPresetId | jobserver/models/mongo.py:43-49 | a preset identity becomes the record's `_id`, stays the identity, and the record is appended |
| Mongo.CreateKeepsCreated | jobserver/models/job.py:214-218 | `created` is stamped only when it is None; a supplied value survives `create` |
| Mongo.SaveKeepsFields | jobserver/models/mongo.py:63-67 | `save` changes no document field except `created`, `edited` and `_id` |
| Mongo.UpdatedIsFound | jobserver/models/mongo.py:51-61 | after a successful update the identity is unchanged and the record with that `_id` is the old record with the merged document written over it |
| Mongo.FindById | jobserver/models/mongo.py:96-114 | no collection is a ValueError; an unparseable string finds nothing; a non-string, non-id key is a TypeError; a found record has the parsed `_id` and matches the filter; nothing is found exactly when no record matches |
| Mongo.IdExists | jobserver/models/mongo.py:25-31 | an unparseable id is InvalidId; otherwise true exactly when some record has that `_id` |
| Mongo.FindAllIn | jobserver/models/mongo.py:116-122 | no collection is a ValueError; otherwise exactly the records matching the filter |
| Mongo.EmailRegistered | jobserver/models/user.py:54-55 | some user record has exactly that e-mail |
| Mongo.MongoModel.constructor | jobserver/models/mongo.py:17-20 | a new instance has no identity and an empty document |
| Mongo.MongoModel.Attr | jobserver/models/mongo.py:126-127 | an absent attribute reads as None; a present one reads as its stored value |
| Mongo.MongoModel.SetAttr | jobserver/models/mongo.py:129-136 | an identity name sets only the identity slot, parsed, or fails leaving it unchanged; any other name writes only that document key |
| Mongo.MongoModel.DelAttr | jobserver/models/mongo.py:138-143 | deleting an identity name is a ValueError; any other name removes exactly that key, a KeyError when it is absent |
| Mongo.MongoModel.SetAll | jobserver/models/mongo.py:21-23 | the keyword loop succeeds exactly when every identity entry parses; the document gains exactly the non-identity entries; the identity comes from an identity entry |
| Mongo.MongoModel.BaseCreate | jobserver/models/mongo.py:37-49 | the new identity, document and records are those of `BaseCreateSpec` on the old state |
| Mongo.MongoModel.BaseUpdate | jobserver/models/mongo.py:51-61 | the new document (old merged with `data`) and records are those of `BaseUpdateSpec` |
| Mongo.MongoModel.Create | jobserver/models/mongo.py:37-49 | the new state is `CreateSpec` of the old one, with the subclass's stamp or e-mail check |
| Mongo.MongoModel.Update | jobserver/models/mongo.py:51-61 | the new state is `UpdateSpec` of the old one, with the subclass's stamp or e-mail check |
| Mongo.MongoModel.Save | jobserver/models/mongo.py:63-67 | the new state is `SaveSpec` of the old one |
| Mongo.MongoModel.ToDict | jobserver/models/mongo.py:69-86 | with an identity, `_id` is written into the stored document itself; the result is that document, stringified on request |
| Mongo.MongoModel.Delete | jobserver/models/mongo.py:88-94 | true exactly when a record with the identity was removed; the collection is `DeleteFirst` of the old one |
| Scripts.LoadScriptFunc | jobserver/util/script.py:7-41 | `scripts` is the script package and other modules come from the globals (ValueError when absent); a present name returns that function unchanged; a missing name is an AttributeError, never the ValueError of lines 37-39 |
| Scripts.ScriptsLookup | jobserver/util/script.py:27-41 | in the `scripts` module a registered name is found and an unregistered one is an AttributeError |
| Data.NewBase | jobserver/models/data.py:9-10 | succeeds exactly for keywords within `data`; the payload defaults to None |
| Data.Read | jobserver/models/data.py:12-21 | a `BaseDataModel` returns its payload; a `DataFile` reads only an existing file as a table |
| Data.BaseToDict | jobserver/models/data.py:7 | the dictionary has exactly the keys `type` and `data`, with type `BaseDataModel` |
| Data.BaseReadBack | jobserver/models/data.py:9-24 | `read()` returns the constructor's value, None by default, and `to_dict()['data']` equals it |
| Data.SplitExt | jobserver/models/data_file.py:42 | root and extension concatenate to the path; a non-empty extension is a dot followed by no dot or slash |
| Data.IsAllowedChar | jobserver/models/data_file.py:41-42 | a path is allowed exactly when it ends, in any case, in `.csv`, `.dat` or `.txt` and its file name has a non-dot character before that |
| Data.IsAllowed | jobserver/models/data_file.py:41-42 | the lower-cased extension is one of `.csv`, `.dat` and `.txt` |
| Data.NewFileWith | jobserver/models/data_file.py:23-30 | without `strict` any path is accepted; with it, a string path is accepted exactly when it is allowed (ValueError otherwise), and a non-string is a TypeError |
| Data.NewFile | jobserver/models/data_file.py:23-30 | `path` is required, `strict` defaults to true, other keywords are a TypeError |
| Data.BaseName | jobserver/models/data_file.py:80-81 | the name is the part of the path after its last slash and contains no slash |
| Data.GetFromName | jobserver/models/data_file.py:56-61 | a name missing from the data directory gives None; an existing file gives the `DataFile` at the joined path exactly when its type is allowed |
| Data.FindAll | jobserver/models/data_file.py:45-49 | exactly the allowed listed paths become data files |
| Data.FindAllKeepsOrder | jobserver/models/data_file.py:45-49 | the listing order is kept |
| Data.SuffixBounds | jobserver/models/data_file.py:85-90 | the suffix index never exceeds 5; it is 0 exactly below 1024 bytes, and 5 exactly from 1024⁵ bytes on |
| Data.SizeParts | jobserver/models/data_file.py:85-90 | the loop stops at the unique suffix index with the size divided by 1024 to that power; below 1024 bytes it does not divide |
| Data.SuffixIndexUnique | jobserver/models/data_file.py:88 | each byte count has exactly one suffix index |
| Data.Size | jobserver/models/data_file.py:83-92 | a missing file is a FileNotFoundError; otherwise the rendered size with its suffix |
| Data.ToDict | jobserver/models/data_file.py:97-103 | a data file's dictionary has keys `type` (`datafile`), `path`, `name` (the final component) and `size`; it exists exactly when the file does |
| DataMongo.New | jobserver/models/data_mongo.py:15-18 | construction succeeds exactly when the identity keywords parse; `data` and `datatype` are document fields |
| DataMongo.FieldsDefaultToNone | jobserver/models/data_mongo.py:15-18 | `data` and `datatype` default to None |
| DataMongo.Read | jobserver/models/data_mongo.py:20-37 | `timeseries` and `dataframe` give a table of the payload; any other `datatype`, None included, gives the payload unchanged |
| DataMongo.Stamps | jobserver/models/data_mongo.py:39-46 | `update` stamps `edited` and then merges as the base class does; `create` stamps `created` only when it is None |
| Processes.ToDict | jobserver/models/process.py:43-48 | exactly the keys `name`, `args` and `kwargs`, holding the function's name and the constructor's arguments |
| Processes.Call | jobserver/models/process.py:30 | the payload is the first positional argument, followed by `args`, with `kwargs` as keywords; non-list or non-dict arguments are a TypeError |
| Processes.Normalise | jobserver/models/process.py:32-33 | a table is replaced by its `to_dict()`; every other result is kept |
| Processes.Begin | jobserver/models/process.py:25-26 | `started` is stamped and the job saved; `finished`, `time_sec` and `result` are untouched |
| Processes.Finish | jobserver/models/process.py:36-40 | `finished`, `time_sec` as `finished - started`, and `result` are written, then the job is saved |
| Processes.Run | jobserver/models/process.py:17-41 | `started` is recorded and saved before the call; after a normal return `finished` comes no earlier than `started`, `time_sec` is their non-negative difference and `result` is the normalised output; an exception leaves `started` recorded and the rest as it was |
| Users.New | jobserver/models/user.py:24-30 | construction succeeds exactly when there is no `self` keyword, the e-mail is a string, a given password is a string, and the identity keywords parse; the document holds the e-mail with its ASCII letters lower-cased, `activated` (False by default) and only the digest of a given password |
| Users.SetAttr | jobserver/models/user.py:46-51 | `password` is stored only as its digest under `_pw_hash`; other names go through the base class's routing |
| Users.NewAccount | jobserver/models/user.py:24-30 | a new account stores the e-mail with its ASCII letters lower-cased and the digest, never the plain password, and is not activated |
| Users.Password | jobserver/models/user.py:40-44 | `'*****'` when a digest is stored, None otherwise |
| Users.SetPassword | jobserver/models/user.py:48-58 | right after setting `p`, `p` verifies, and exactly the passwords with the same digest do |
| Users.VerifyPassword | jobserver/models/user.py:57-58 | the digest of the given password equals the stored `_pw_hash` |
| Users.IsActivated | jobserver/models/user.py:60-61 | the `activated` attribute is True |
| Users.IdText | jobserver/models/user.py:64 | the text of the identity, or `None` without one |
| Users.GetActivationToken | jobserver/models/user.py:63-66 | `activated` becomes and returns `'<id>::<hex>'` and is saved; the user is no longer activated |
| Users.Activate | jobserver/models/user.py:68-74 | a token equal to the pending one activates and saves; any other changes nothing and returns false |
| Users.ActivationRoundTrip | jobserver/models/user.py:63-74 | a fresh token activates the user, and the same token then fails |
| Users.UpdateStoresPasswordAsGiven | jobserver/models/user.py:103-116 | `update` merges `password` as given, bypassing the digest |
| Users.CreateRefusesTakenEmail | jobserver/models/user.py:98-101 | create raises ValueError when the e-mail is registered, before writing |
| Users.UpdateEmailRule | jobserver/models/user.py:103-116 | update raises exactly when the new e-mail differs from the stored one and is registered; otherwise it merges |
| Users.GetByEmail | jobserver/models/user.py:32-38 | no record with that e-mail gives None; a found record gives a fresh user built from it exactly when it can be built |
| Jobs.New | jobserver/models/job.py:22-32 | construction succeeds exactly when there is no `self` keyword and the identity keywords parse; `self` is a TypeError, and any other failure is the parse error of an identity keyword; the document holds `created`, `started`, `finished` and `result` and the other non-identity keywords |
| Jobs.InitDefaults | jobserver/models/job.py:22-28 | the four timestamps and `result` come from the keywords, None by default |
| Jobs.LoadInputData | jobserver/models/job.py:72-119 | a dict `data` is dispatched on its `type`, else `datafile`, else `raw_data`, which alone is wrapped as a `BaseDataModel`; the ValueError is raised exactly when none is set |
| Jobs.DataDictWins | jobserver/models/job.py:98-110 | a dict `data` decides whatever `datafile` and `raw_data` hold |
| Jobs.DatafileBeforeRawData | jobserver/models/job.py:112-116 | without a dict `data`, `datafile` wins over `raw_data` |
| Jobs.DataDictTypes | jobserver/models/job.py:100-110 | `datafile` builds a `DataFile` and `raw_data` a `BaseDataModel` from the other keys; a missing or unknown type gives None, not an exception |
| Jobs.ReadPayload | jobserver/models/job.py:194-204 | the payload is the data model's `read()`; no data model is an AttributeError |
| Jobs.ResolveProcess | jobserver/models/job.py:166-212 | a `script` dict wins over `script_name`; its type defaults to `function`, `file`/`eval` are NotImplementedError and others ValueError; `args` and `kwargs` default to `[]` and `{}`, always so for the shortcut; a named function script, or the shortcut, resolves exactly when the function is registered and the payload reads, and otherwise raises the lookup's or the read's error; nothing set is a ValueError |
| Jobs.ScriptDictWins | jobserver/models/job.py:166-201 | a `script` dict decides whatever `script_name` holds |
| Jobs.DefaultTypeIsFunction | jobserver/models/job.py:168-173 | a `script` dict without a type loads the named function from `scripts` |
| Jobs.LoadProcess | jobserver/models/job.py:121-212 | the process carries the resolved function, payload and arguments, and this job |
| Jobs.MergeScript | jobserver/models/job.py:62-67 | the merged `script` keeps its keys with `name`/`args`/`kwargs` overwritten, is exactly those three when it was None, and is an AttributeError otherwise |
| Jobs.StartedScriptKeys | jobserver/models/job.py:62-67 | after `start` the keys of `script` are the old ones plus the three process keys |
| Jobs.Start | jobserver/models/job.py:38-70 | a resolution error launches nothing and changes nothing, and it launches whenever data and process both resolve; once launched, `data` becomes the data model's `to_dict()`, `script` the merge, and the job is saved |
| Jobs.SaveOfStoredJobRaises | jobserver/models/job.py:34-36 | as written, saving a job that has an identity raises a TypeError and writes nothing |
| Jobs.SaveOfStoredJobWrites | jobserver/models/mongo.py:51-67 | with the base default `{}`, saving a stored job succeeds and its record becomes the old one with the document and `edited` written over it |
| Jobs.UpdateAsWritten | jobserver/models/job.py:34-36 | without data, `edited` is stamped and the TypeError of `dict.update(None)` is raised; with data, the corrected update |
| Jobs.SaveAsWritten | jobserver/models/mongo.py:63-67 | a job with an identity saves through `UpdateAsWritten` without data, one without through create |
| Queries.Build | jobserver/models/mongo.py:114-124 | `cls(**res)` succeeds exactly when the subclass accepts the record and builds the subclass's document |
| Queries.RebuiltIdentity | jobserver/models/mongo.py:114 | a record whose only identity key is `_id` rebuilds an instance with that identity |
| Queries.GetById | jobserver/models/mongo.py:96-114 | errors and not-found pass through from the lookup; a found record gives a fresh instance of the subclass built from it exactly when it can be built |
| Queries.GetAll | jobserver/models/mongo.py:116-124 | the instances built from the matching records, in order, or the first construction error |
| Queries.BuildAll | jobserver/models/mongo.py:124 | succeeds exactly when the constructor accepts every record, giving one fresh instance per record, in order, each built from its record |
| Queries.CreateKeepsWellKeyed | jobserver/models/mongo.py:37-49 | create keeps distinct, ObjectId-valued `_id`s |
| Queries.UpdateKeepsWellKeyed | jobserver/models/mongo.py:51-61 | update keeps distinct, ObjectId-valued `_id`s |
| Queries.DeleteById | jobserver/models/mongo.py:88-94 | deleting a record by its `_id` succeeds and removes exactly that record |
| Queries.FindAllDistinct | jobserver/models/mongo.py:116-124 | the matches of a collection with distinct `_id`s have distinct `_id`s |
| Queries.DeleteEach | jobserver/models/mongo.py:150-153 | each instance is deleted in turn; successes never exceed the total and equal it for well-keyed records |
| Queries.DeleteAll | jobserver/models/mongo.py:145-155 | `(successes, total)` with `successes <= total` and `total` the number of matching records; with distinct ids every match is deleted and exactly the non-matching records remain; a construction error deletes nothing |
| JobApi.SaveKeepsStarted | jobserver/models/process.py:25-26 | a successful save of a job whose `started` is set leaves its record `started` too |
| JobApi.RunGuardNeverEngagesAsWritten | jobserver/models/process.py:25-26 | as written, the save after stamping `started` on a stored job with `started` None raises a TypeError and writes nothing, so the record keeps `started` None |
| JobApi.RunJob | jobserver/api/job.py:187-213 | a missing job is a 404; with `started` set nothing is launched or changed and the answer is 409; otherwise `start` runs, launches exactly when the stored record's data and process resolve, and the answer is 202 exactly when it launched without error |
| JobApi.RunRecordsStarted | jobserver/models/process.py:25-26 | once the run's first save succeeds, the stored job has `started` set |
| JobApi.RunThenRequest | jobserver/api/job.py:199 | after a run has recorded `started`, a further run request launches nothing and is never answered 202 |
| JobApi.PutData | jobserver/api/job.py:99-105 | a missing body is `{}`; a dict body without `_id` gives its fields; other bodies are a TypeError |
| JobApi.Put | jobserver/api/job.py:74-113 | an existing id is a 409 and creates nothing; for an unused id and a usable body the job is built, and a refused build changes nothing; a built job is created, answered 201 exactly when the create succeeds; an InvalidId from the build or the create is a 505, any other exception a 500; a 201 appends exactly one record, which has the requested id when the body has no identity keys |
| JobApi.PutCreates | jobserver/api/job.py:104-113 | a successful create appends the new job after the old records; from a body without identity keys it is stored under the requested id |
| JobApi.Post | jobserver/api/job.py:38-72 | a missing job is a 404 body; an empty body is 412 with nothing updated; otherwise the job is updated, started or not, and the records are those of that update |
| JobApi.Delete | jobserver/api/job.py:115-131 | a missing job is a 404; otherwise 200 exactly when `delete()` removed the record, else 500 |
| JobApi.DeleteAllJobs | jobserver/api/job.py:143-150 | `acknowledged` holds exactly when `deleted == total`, with `deleted <= total`; with distinct ids every job is deleted |
| Authorization.CheckUserLoggedIn | jobserver/auth/authorization.py:9-31 | in order: no user 404, inactive 405 when checked, wrong given password 405; logged in exactly when all checks pass |
| Authorization.NoPasswordSkipsVerification | jobserver/auth/authorization.py:24 | without a password the digest is never consulted |
| Authorization.LoginRequired | jobserver/auth/authorization.py:34-44 | no user is 405; otherwise the route with its arguments unchanged |
| Authorization.RoleRequired | jobserver/auth/authorization.py:83-105 | the route is reached exactly by a present user whose role is `superuser` or in `roles`; otherwise 405 |
| Authorization.Privileged | jobserver/auth/authorization.py:97 | the role is `superuser` or one of `roles` |
| Authorization.DefaultRolesAdmit | jobserver/auth/authorization.py:83-97 | with the default roles exactly `superuser` and `admin` pass |
| Authorization.UserRouteAsWritten | jobserver/auth/authorization.py:60-79 | as written: a privileged user passes, and every other user meets the AttributeError of `kwargs.geet` |
| Authorization.OwnerBranchUnreachable | jobserver/auth/authorization.py:61-65 | as written, an unprivileged user raises AttributeError even on their own `user_id` |
| Authorization.UserRoute | jobserver/auth/authorization.py:47-80 | the route is reached exactly by a privileged user or the owner of `user_id`; a missing `user_id` is 404 |
| Authorization.UserRouteAgrees | jobserver/auth/authorization.py:52-62 | wherever the code as written answers, the corrected gate answers the same |
| Authorization.ContainsAt | jobserver/auth/authorization.py:118-125 | the substring test holds exactly when the text occurs at some position |
| Authorization.Dispatch | jobserver/auth/authorization.py:109-138 | no header gives 401; `basic` anywhere in the lower-cased header is tested before `bearer`; neither gives 501; the credentials follow offset 6 or 7 |
| Authorization.BasicBeforeBearer | jobserver/auth/authorization.py:118-125 | a header naming both schemes is read as Basic |
| Authorization.Split | jobserver/auth/authorization.py:120 | `split` gives at least one piece and no piece holds the separator |
| Authorization.SplitJoin | jobserver/auth/authorization.py:120 | joining the pieces with the separator gives the text back |
| Authorization.BasicAsWritten | jobserver/auth/authorization.py:120 | unpacking succeeds exactly when the text has exactly two pieces |
| Authorization.ColonPasswordRejected | jobserver/auth/authorization.py:119-120 | as written, a password with a colon makes the unpacking raise ValueError |
| Authorization.BasicCredentials | jobserver/auth/authorization.py:119-120 | split at the first colon, per section 2 of RFC 7617: refused exactly without a colon; user-id and password rejoin to the text |
| Authorization.BasicRoundTrip | jobserver/auth/authorization.py:119-120 | a colon-free user-id and any password come back unchanged |
| Authorization.BasicAgrees | jobserver/auth/authorization.py:119-120 | wherever the unpacking as written succeeds, the first-colon split reads the same credentials |
| Authorization.Authenticate | jobserver/auth/authorization.py:108-140 | 401 and 501 as dispatched; a login always has an activated user; Basic logs in exactly an activated user found by e-mail (split at the first colon) whose digest matches; Bearer logs in exactly an activated user found by the token's `id`, with no password check; a failed decode, credentials without a colon, a failed token load, a payload without `id` and a stored user the constructor refuses are uncaught exceptions |

## Left out

- Threading: `start` launches `Process.run` in a thread (jobserver/models/job.py:52). Here `Jobs.Start` returns the process and `Processes.Run` is a separate sequential step. Nothing is claimed about interleavings or the unsynchronised `started` check.
- Collections are sequences of documents per collection name, not maps from id to document. pymongo returns first matches in insertion order, and a sequence keeps that order. `Queries.WellKeyed` states when a sequence behaves like an id map (distinct ObjectId `_id`s).
- pymongo's `fields` projection argument of `get` and `get_all` is not modelled; neither is the mutable default `filter={}` of `get` (jobserver/models/mongo.py:97, 108), which accumulates `_id` across calls.
- pandas: a DataFrame is an abstract `Frame` value; `read_csv`, `DataFrame(...)` and `to_dict` are not computed (`frameToDict` is a parameter).
- `DataFile.size`: the `'%.2f'` text with zeros stripped is the parameter `render`; only the division loop and the suffix index are modelled.
- Processes.Run: `time_sec` is `total_seconds()`, a float, in the program; the model's clock is integral, so `time_sec` is the integer difference of the readings.
- Opaque primitives are parameters: SHA-256 hex digest, `uuid4().hex`, generated ObjectIds, base64 decoding, itsdangerous token signing and loading (`get_access_token` is not modelled), `str()` of values and exceptions, and calling a script function.
- The filesystem is a map from existing paths to byte sizes; `glob`'s listing is a parameter of `Data.FindAll`. `upload`, `delete`, `file_exists`, `name_exists` and `storage` are not modelled.
- Python dict order: `MongoModel.SetAll` takes the keywords in any order. With several identity-named keywords the identity is one of them (`IdFrom`), not the last in insertion order.
- Processes.Call: `*args` accepts only a list and `**kwargs` only a dictionary; other iterables and mappings that Python would accept are a TypeError here.
- `JobApi.get`, `JobsApi.get` and `put_job_without_id` are not modelled; they are `get`/`get_all`/`create` followed by `to_dict`, all of which are modelled.
- HTTP glue: a reply is a status and a body value; `jsonify` and the Flask request objects are not modelled. An exception a handler does not catch is `JobApi.Uncaught` (500, no body).
- User properties `get_access_token`, `email_exists` (modelled as `Mongo.EmailRegistered`) and the e-mail case: Basic authentication looks the user up by the e-mail exactly as given, not lower-cased, as the program does.
- `Job.post`'s docstring (jobserver/api/job.py:41-43) promises an update only before the job starts; the code has no such guard, and the model follows the code.

- Jobs.New: an identity keyword whose value is None is a TypeError here; bson's `ObjectId(None)` generates a fresh id, so the program builds the instance with a new identity (for example `PUT /job/<unused id>` with the body `{"id": null}` is a 201 there and a 500 here). Generating ids inside constructors and lookups would thread an id source through every identity-named entry; the model leaves that out.
- Users.New: an identity keyword whose value is None is a TypeError here, where the program generates a fresh identity, as for `Jobs.New`.
- DataMongo.New: an identity keyword whose value is None is a TypeError here, where the program generates a fresh identity, as for `Jobs.New`.
- Values.IdFromValue: None is refused with the other non-string values, where `ObjectId(None)` generates a fresh id.
- Mongo.MongoModel.SetAttr: setting an identity name to None fails here and leaves the identity unchanged; the program sets a newly generated identity.
- Mongo.MongoModel.SetAll: an identity keyword with value None makes the loop fail here; in the program it gives the instance a newly generated identity.
- Mongo.FindById: `get(None)` is a TypeError here; in the program it looks up a newly generated id and so finds nothing.
- Users.New: `str.lower()` lower-cases every cased Unicode letter; the model lower-cases ASCII letters only, so an e-mail such as `Ä@x.de` is stored as given, and a later create with `ä@x.de` is not refused as taken.
- Users.NewAccount: the e-mail is lower-cased on ASCII letters only, as in `Users.New`.
- Mongo.SaveSpec: for a job with an identity it is `update(data={})`, the intended behaviour of the first finding below; as written `Job.update()` raises a TypeError and writes nothing (`Jobs.SaveAsWritten`, `JobApi.RunGuardNeverEngagesAsWritten`). The members below rest on it and so describe the corrected program.
- Mongo.MongoModel.Save: on a job with an identity it follows the corrected `Mongo.SaveSpec`.
- Jobs.Start: its final save of a stored job follows the corrected `Mongo.SaveSpec`; as written every launch ends in a TypeError.
- Processes.Begin: its save follows the corrected `Mongo.SaveSpec`; as written a stored job's first save raises.
- Processes.Finish: its save follows the corrected `Mongo.SaveSpec`.
- Processes.Run: as written the first save raises for every stored job and the function is never called; the model states the corrected run.
- JobApi.SaveKeepsStarted: holds of the corrected save; as written the save raises and writes nothing.
- JobApi.RunJob: the 202 answer rests on the corrected save at the end of `start`; as written a launched `start` on a stored job raises, so the answer is 500.
- JobApi.RunRecordsStarted: as written the first save never succeeds for a stored job, so `started` is never stored.
- JobApi.RunThenRequest: "launched at most once" holds of the corrected save; as written every `run_job` request launches the job again.
- Authorization.Authenticate: Basic credentials are split at the first colon, the intended behaviour of the third finding below; as written a password holding a colon raises a ValueError (`Authorization.BasicAsWritten`), answered 500.

## Findings

| source | as written | input that shows it | evidently intended | confidence | as-written member | corrected member |
|---|---|---|---|---|---|---|
| jobserver/models/job.py:34-36 | `Job.update(data=None)` passes None on to `MongoModel.update`, whose `self._doc.update(None)` raises TypeError. `save()` on a job with an identity calls `update()` without data. | any job that has an identity, which every job `run_job` reaches has: the first save of `Process.run` (jobserver/models/process.py:26) raises before the function is called, and the save ending `start` (jobserver/models/job.py:70) raises after the thread was launched; `started` is never stored, so `run_job` answers 500 instead of 202 and launches the job again on every request | the base default `data={}`, so that `save` writes the document | not executed | Jobs.SaveOfStoredJobRaises | Jobs.SaveOfStoredJobWrites |
| jobserver/auth/authorization.py:65 | `kwargs.geet('user_id')` raises AttributeError for every user without a privileged role | a logged-in user with role `user` requesting the route with their own `user_id` | `kwargs.get('user_id')`, so the owner reaches the route | not executed | Authorization.OwnerBranchUnreachable | Authorization.UserRoute |
| jobserver/auth/authorization.py:119-120 | `email, password = enc.split(':')` requires exactly one colon | Basic credentials `a@b.c:pa:ss` | split at the first colon, as section 2 of RFC 7617 allows colons in the password | not executed | Authorization.ColonPasswordRejected | Authorization.BasicCredentials |
