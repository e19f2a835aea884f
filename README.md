# A verified model of the Go API starter's core

This project models, in Dafny, the decision logic and the stateful store of a
small Go REST API starter:

- the **resource store** of `goapi/resource/resource.go`: `Init` instantiating
  the query templates, `Get`, the paged `List`, and `Resource.Create` /
  `Resource.Update` writing back into their receiver, over an in-memory
  table that stands for the PostgreSQL table;
- the **bearer-token gate** in its two variants: `AuthMiddleware` of
  `goapi/authorization.go` (with an allow-list of registered ids) and
  `authMiddleware` of `go-api/authorization.go` (no allow-list, `userID`
  taken from the `user_id` claim), with the shared `verifyToken`;
- the **REST handlers** of `go-api/resource/router.go`: the route table and
  what each handler answers for each outcome of the store;
- **configuration finalisation**: `LoadConfig`/`GetConfig` of
  `go-api/config.go` and `loadConfig` of `go-api/main.go`, each with its
  defaults record.

Library behaviour is abstracted rather than reimplemented. For `jwt.Parse`
(jwt-go v3), what `ParseUnverified` decodes from a string of three segments
is an oracle: a decoding error, or the signing method, `alg`, the claims,
the verdict on the registered claims, and the key the signature was made
with. The steps around it are modelled: a string that is not three segments
gives a nil token, the key callback `getKey` supplies the secret or its
error, and the signature must have been made with that key. JSON encoding of
the payload is a `Codec` pair of functions. The model relies on one fact
about it, `JsonCodec`: `json.Unmarshal` restores every payload that
`json.Marshal` wrote, except one whose `civil.Date` is not a real calendar
date with a four-digit year, which fails to decode. Such a payload is stored
by `Create` and `Update`, but every later `Get` of the row then fails
(`Resource.Store.GetAfterWrite`). YAML decoding arrives as a
`FileLoad`: a read error, a syntax error, or the keys the document sets along
with any values of the wrong type. The environment is a map, and the command
line is a record of the flags given. The database picks ids and timestamps
nondeterministically (`:|`, `*`). A driver failure is an input: an optional
error per write, and for `List` an optional error after a given number of
scanned rows. Go's `strings.Fields`, `strings.ToLower` (as far as a comparison
with `bearer` can observe it) and `fmt.Sprintf` with a single `%s` are
modelled in `GoStrings`.

Where the code and its comments disagree, the model follows the code:

- `Get` reports a missing row as an error (`sql.ErrNoRows`). Its comment says
  it returns an empty Resource.
- `Resource.Update` on an id that no row has also fails with `sql.ErrNoRows`,
  because `UPDATE ... RETURNING` yields no row.
- go-api/config.go is package `goapi`. Its `LoadConfig` does not reset the
  configuration before decoding; main.go's `loadConfig` does.
- The registry that `goapi/authorization.go` indexes by id is modelled as a
  map from id to `Auth`. The `Config` record of go-api/config.go declares
  `Auths` as a list, which cannot be indexed by a string.

Files: `results.dfy` (Option and Result), `gostrings.dfy`,
`token_verification.dfy`, `goapi_authorization.dfy`,
`go-api_authorization.dfy`, `goapi_resource.dfy`, `go-api_router.dfy`,
`config_record.dfy` (the record, defaults and finalisation steps shared by
both programs), `go-api_config.dfy` and `go-api_main.dfy`.

## Model

| member | source | states |
|---|---|---|
| GoStrings.Fields | goapi/authorization.go:33 | every element of `strings.Fields` is a non-empty run of non-space characters |
| GoStrings.SeparatorsOfSpell | goapi/authorization.go:33 | every header splits into its fields and the white space between them, which spelled back together give the header again |
| GoStrings.FieldsCharacterized | goapi/authorization.go:33 | `strings.Fields(s) == ws` exactly when `s` is `ws` laid out between white-space separators, with at least one space between consecutive fields (both directions) |
| GoStrings.FieldsOfSpell | goapi/authorization.go:33 | reading the fields back from fields laid out between separators gives those fields |
| GoStrings.ToLower | goapi/authorization.go:34 | lower-casing keeps the length and lower-cases each ASCII letter |
| GoStrings.ToLowerMatches | goapi/authorization.go:34 | under the model's ASCII lower-casing, a string lower-cases to an ASCII word exactly when each character is that word's letter in either case; for the word `bearer` Go's Unicode `strings.ToLower` agrees (see "## Left out") |
| GoStrings.FormatOneSplice | goapi/resource/resource.go:62 | `Sprintf` of `p + "%s" + q` with no `%` in `p` or `q` is `p + arg + q` |
| TokenVerification.Dots | goapi/authorization.go:66 | the count of `.` in a token string is zero exactly when it has no `.`; three segments are two dots |
| TokenVerification.Parse | goapi/authorization.go:66 | `jwt.Parse` returns a nil token exactly for a string that is not three segments; a returned token is valid exactly when `Accepted` holds, with no error and the decoded claims; its error texts are stated by `NonHmacRejected`, `WrongSecretRejected` and `SegmentErrorRejected` |
| TokenVerification.VerifyTokenAsWritten | goapi/authorization.go:66-71 | the written `verifyToken` hands back claims exactly for an accepted token and otherwise rejects with the parse error, or crashes; when it crashes is `SegmentErrorDereferencesNil` |
| TokenVerification.SegmentErrorDereferencesNil | goapi/authorization.go:66-67 | as written, `verifyToken` reads a nil token exactly for the token strings that do not split into three segments, among them every string without a `.` |
| TokenVerification.VerifyToken | goapi/authorization.go:58-71 | corrected `verifyToken`: succeeds exactly for a three-segment token signed by HMAC with the configured secret whose registered claims check out, returning its claims; otherwise returns the error `jwt.Parse` reported |
| TokenVerification.SegmentErrorRejected | goapi/authorization.go:66-70 | the corrected `verifyToken` rejects a token string that is not three segments with jwt-go's segment error |
| TokenVerification.VerifyTokenAgrees | goapi/authorization.go:66-70 | wherever the written code does not crash, it and the corrected one give the same outcome |
| TokenVerification.NonHmacRejected | goapi/authorization.go:60-66 | a token signed with a method other than HMAC is rejected with the key callback's error, `Unexpected signing method: ` and its `alg` |
| TokenVerification.WrongSecretRejected | goapi/authorization.go:63-67 | an HMAC token signed with a key other than the configured secret is rejected as `signature is invalid` |
| GoapiAuthorization.AuthMiddleware | goapi/authorization.go:26-56 | every rejection is a 401; an admitted request has a two-field header with a `bearer` scheme, a verified token and a registered user id |
| GoapiAuthorization.AdmitsExactlyAuthorized | goapi/authorization.go:44-52 | the gate admits `user` (calls `next` with `userID` set to `user`) exactly when the header is `bearer <token>`, the token verifies, its `id` claim is the string `user` and `user` is registered (both directions) |
| GoapiAuthorization.RejectionAtEachStage | goapi/authorization.go:28-54 | the answer at each failing stage: no header, a bad header, the verification error, a missing or non-string `id`, an unregistered `id` |
| GoapiAuthorization.StandardHeaderFields | goapi/authorization.go:33-38 | `Bearer <token>` splits into the scheme and the token |
| GoapiAuthorization.BearerAnyCase | goapi/authorization.go:34 | the scheme is accepted exactly when it is `bearer` in any mixture of letter cases |
| GoapiAuthorization.StandardRequestAdmitted | goapi/authorization.go:44-52 | `Bearer <token>` with a valid token whose `id` is registered is admitted with that id |
| GoapiAuthorization.ExtraFieldRejected | goapi/authorization.go:33-37 | a header with a third field is refused as invalid before the token is looked at |
| GoapiAuthorization.AuthMiddlewareAsWritten | goapi/authorization.go:26-56 | the gate over the written `verifyToken`: when it answers, a rejection is a 401 and an admitted id is registered; when it panics and how it otherwise equals the corrected gate is `AsWrittenPanicsOnSegmentCount` |
| GoapiAuthorization.AsWrittenPanicsOnSegmentCount | goapi/authorization.go:38-67 | the gate as written panics exactly when a two-field `bearer` header carries a token that is not three segments; on every other request it answers as the corrected gate |
| GoapiAuthorization.BareTokenPanics | goapi/authorization.go:33-43 | `Bearer <token>` with a token that is not three segments panics as written and is a 401 with the segment error once corrected |
| GoapiAuthorization.BearerAbcPanics | goapi/authorization.go:66-67 | the header `Bearer abc` makes the gate as written panic |
| GoApiAuthorization.AuthMiddleware | go-api/authorization.go:11-33 | every rejection is a 401; an admitted request has a two-field `bearer` header and a verified token |
| GoApiAuthorization.AdmitsEveryVerifiedToken | go-api/authorization.go:24-31 | with no allow-list, a request is admitted exactly when its header is `bearer <token>` and the token verifies; `userID` is the rendering of `user_id` |
| GoApiAuthorization.StringUserIdAdmitted | go-api/authorization.go:29-31 | a verified token whose `user_id` claim is a string is admitted as that user |
| GoApiAuthorization.MissingUserIdAdmitted | go-api/authorization.go:29-31 | a verified token without a `user_id` claim is admitted as user `<nil>` |
| GoApiAuthorization.RejectionAtEachStage | go-api/authorization.go:13-28 | the answer at each failing stage: `unauthorized`, `Invalid Authorization Header`, `unauthorized` |
| GoApiAuthorization.MorePermissiveThanRegistryGate | go-api/authorization.go:24-31 | every request the goapi gate admits, the go-api gate admits too |
| GoApiAuthorization.RegistryMatters | goapi/authorization.go:44-47 | a verified token with an unregistered `id` is refused by the goapi gate and admitted by the go-api gate |
| Resource.Scan | goapi/resource/resource.go:66-73 | only a byte slice is decoded, anything else fails with `type assertion to []byte failed`; the round trip through `Value` is `ScanRoundTrip` |
| Resource.ScanRoundTrip | goapi/resource/resource.go:67-78 | a payload written by `Value` scans back to itself exactly when its date can be read back; otherwise `Scan` fails |
| Resource.February30Unreadable | goapi/resource/resource.go:28 | a payload dated 30 February 2021 is not storable |
| Resource.EncodeFields | goapi/resource/resource.go:75-78 | the payload column is NULL exactly for a nil `Fields` pointer |
| Resource.FieldsScanError | goapi/resource/resource.go:109 | a failed payload scan reports the scanner's own message at the end of the error |
| Resource.TemplatesHaveOneVerb | goapi/resource/resource.go:44-52 | the `%s` is the only `%` of each template, so `Sprintf` substitutes the table name and copies the rest |
| Resource.InstantiatedQuery | goapi/resource/resource.go:44-64 | the query made of each template is the template with the table name in place of `%s` |
| Resource.Templates | goapi/resource/resource.go:36-52 | five templates, one per statement constant from index to delete, whose instantiation `InstantiatedQuery` states |
| Resource.DeleteNeverInstantiated | goapi/resource/resource.go:36-64 | none of the four instantiated queries is the delete statement, whatever the table names |
| Resource.FreshIdExists | goapi/resource/resource.go:122 | however many rows exist, a non-empty id that none of them uses exists |
| Resource.Summaries | goapi/resource/resource.go:89-96 | one scanned item per id, with its id, label and timestamps and no payload |
| Resource.Page | goapi/resource/resource.go:45 | `LIMIT/OFFSET`: at most `limit` rows, starting `offset` rows into the table order, each with `Fields` nil |
| Resource.Table.Insert | goapi/resource/resource.go:122 | the database adds exactly one row under a fresh non-empty id and appends it to the order |
| Resource.Table.Update | goapi/resource/resource.go:134 | the row is rewritten, keeping its creation time, and a new update time is returned; an unknown id changes nothing |
| Resource.Store.constructor | goapi/resource/resource.go:54-56 | before `Init` there is no handle and four empty query slots |
| Resource.Store.Init | goapi/resource/resource.go:58-64 | `Init` keeps the handle and fills exactly the four slots, each with its template instantiated for the table |
| Resource.Store.Get | goapi/resource/resource.go:104-114 | a missing id is `sql.ErrNoRows`, not an empty Resource; a found row comes back with its own id, label and timestamps; a NULL payload reads as nil, a payload that decodes reads as the decoded value, and one that does not fails with the column scan error |
| Resource.ScanRows | goapi/resource/resource.go:88-101 | the scanning loop returns every row it is given as an item, in order, or, when the driver fails after `n` rows, the first `n` items with the driver's error |
| Resource.Store.List | goapi/resource/resource.go:80-102 | a negative offset, then a negative limit, gives no items and PostgreSQL's refusal; otherwise, without a driver failure the items are exactly the page and there is no error, and a failure after `n` scanned rows returns the first `n` items of the page with the driver's error |
| Resource.Store.GetAfterWrite | goapi/resource/resource.go:104-114 | a row written with a label and a storable payload reads back with exactly that label and payload; a payload whose date cannot be read back makes every `Get` of the row fail |
| Resource.Resource.constructor | goapi/resource/resource.go:15-21 | the struct holds exactly the given field values |
| Resource.Resource.Create | goapi/resource/resource.go:116-127 | a pre-set ID is refused with its error and nothing changes; with an empty ID the error is exactly the driver's, so without a driver failure the create succeeds; on success the ID is fresh and non-empty, `CreatedAt` is set, label, payload and `UpdatedAt` are unchanged, and exactly one row is added |
| Resource.Resource.Update | goapi/resource/resource.go:129-139 | an empty ID is refused and nothing is written; otherwise a driver failure is returned as is, and without one the update succeeds exactly when a row has the ID, an unknown ID failing with `sql.ErrNoRows`; on success `UpdatedAt` is set and the row holds the new label and payload |
| Resource.CreateUpdateGet | goapi/resource/resource_test.go:99-133 | when neither write meets a driver failure, the create gives an ID and a creation time and no update time, and the get succeeds with exactly the record written: the created ID, the new label, the test's title with the new description, the creation time and an update time; a driver failure is the error returned |
| Router.Dispatch | go-api/resource/router.go:10-17 | GET and POST on `/` and GET on `/{id}` are the only routes; `/{id}` binds a non-empty id; 405 exactly for a method outside chi's nine standard methods on any path, or another method on a registered path; not found exactly for a standard method on an unregistered path |
| Router.Error | go-api/resource/router.go:23 | `http.Error` writes the message followed by one newline, with the given status |
| Router.OnlyThreeRoutes | go-api/resource/router.go:11-16 | a handler is reached exactly for the three method and path shapes |
| Router.IndexResponse | go-api/resource/router.go:21-31 | a store error is a 500 carrying its text, otherwise a 200 with the items, `null` for none; what the store returns is `IndexHandler` |
| Router.IndexHandler | go-api/resource/router.go:20-31 | without a driver failure, a 200 showing exactly the first 50 rows in the model's table order, none with payload, an empty page as `null`; with one, a 500 whose body is the driver's error text and a newline |
| Router.GetResponse | go-api/resource/router.go:39-53 | a store error is a 500 with its text, a Resource without an ID a 404, any other Resource a 200 serving it; which `Get` answers occur is `UnknownIdIsServerError` and `KnownIdServed` |
| Router.GetHandler | go-api/resource/router.go:35-54 | an empty id parameter is 404; a 200 serves the Resource with the requested id |
| Router.UnknownIdIsServerError | go-api/resource/router.go:39-43 | an id that no row has is answered with 500 and `sql.ErrNoRows`, not 404 |
| Router.NotFoundOnlyForEmptyParameter | go-api/resource/router.go:38-51 | the get handler answers 404 exactly when the id parameter is empty, so the empty-ID branch is dead |
| Router.RoutedGetNeverNotFound | go-api/resource/router.go:14 | through the route table the get handler never answers 404 |
| Router.KnownIdServed | go-api/resource/router.go:52-53 | a stored Resource with a storable payload is served with its own id, label, timestamps and payload |
| Router.PostHandler | go-api/resource/router.go:57-73 | a decoding error and a failed create are 500s that leave the table unchanged; a body carrying an id is a 500; a 200 answers only `{"id": ...}` for a freshly added row holding the body's label and payload |
| Router.Serve | go-api/resource/router.go:11-17 | the router runs the handler its table picks and changes the table only for POST; 405 with no body exactly when `Dispatch` refuses the method (any non-standard method, or another method on a registered path); `404 page not found` exactly for a standard method on an unregistered path; the index answers as `IndexHandler` states; a POST of a body without an ID is a 200 exactly when the insertion meets no driver failure |
| ConfigRecord.Defaults | go-api/config.go:36-46 | every required setting but the secret has a default, TLS is off and no identities are registered |
| ConfigRecord.OverlayEmpty | go-api/config.go:59 | decoding a document that sets nothing changes nothing |
| ConfigRecord.OverlayIdempotent | go-api/config.go:59 | decoding the same document twice gives what decoding it once gives |
| ConfigRecord.Decode | go-api/config.go:55-61 | no error exactly when the file is read and every value decodes; a decoded document is stored even when some of its values are skipped |
| ConfigRecord.ApplyEnv | go-api/config.go:62-68 | only the secret and the database URL can change, and each is missing afterwards exactly when neither the configuration nor its variable gives it |
| ConfigRecord.Validate | go-api/config.go:69-79 | no error exactly when the secret and the database URL are set; only the port can change, to 443 under TLS on success |
| ConfigRecord.Finalize | go-api/config.go:53-80 | a load without error read and decoded the whole file and left the secret and database URL set and, under TLS, port 443 |
| ConfigRecord.LoadErrorComesFirst | go-api/config.go:55-61 | a read or decode error is returned before the environment is consulted; the outcome does not depend on the environment |
| ConfigRecord.EnvOverridesWhenNonEmpty | go-api/config.go:62-68 | each environment variable replaces the file's value exactly when it is non-empty |
| ConfigRecord.SecretCheckedFirst | go-api/config.go:69-75 | the load succeeds exactly when secret and database URL are both non-empty; a missing secret is reported first |
| ConfigRecord.TlsForcesPort443 | go-api/config.go:76-78 | a successful load under TLS serves on 443 whatever the file said; otherwise the port is the file's |
| ConfigRecord.UnsetFieldsKept | go-api/config.go:59-78 | whatever the outcome, a setting the file does not give keeps its previous value, except the secret and the database URL, which the environment can set, and the port, which TLS forces to 443 |
| GoapiConfig.MissingSettingMessages | go-api/config.go:70-75 | the errors are `API_SECRET not set` and `API_DB not set` |
| GoapiConfig.Package.constructor | go-api/config.go:36-46 | the package configuration starts at the defaults |
| GoapiConfig.Package.GetConfig | go-api/config.go:48-51 | the current configuration as a value, the one the constructor or the last `LoadConfig` stored |
| GoapiConfig.Package.LoadConfig | go-api/config.go:53-80 | the returned and stored configuration and the error are the finalisation of the current configuration, on every path |
| GoapiConfig.FirstLoadFromDefaults | go-api/config.go:37-75 | on the first load, unset settings keep their defaults, and a missing secret fails naming `API_SECRET` |
| GoapiConfig.LoadsAccumulate | go-api/config.go:53-80 | a later load starts from what an earlier one left, so a port forced to 443 survives |
| MainConfig.ConfigPath | go-api/main.go:63 | the file `-c` names, `api.yml` without the flag; `Program.LoadConfig` reads that file |
| MainConfig.Start | go-api/main.go:64-69 | each load starts from the defaults with only `Verbose` taken from `-v` |
| MainConfig.Program.constructor | go-api/main.go:59-65 | before loading, the configuration is Go's zero value |
| MainConfig.Program.LoadConfig | go-api/main.go:67-95 | the configuration and error are the finalisation of the defaults with `-v`, from the file `-c` names (`api.yml` by default), whatever an earlier load left |
| MainConfig.LoadErrorBeforeEnvironment | go-api/main.go:70-76 | a read or decode error is returned before the environment is consulted; an unreadable file leaves exactly the defaults |
| MainConfig.MainChecks | go-api/main.go:84-93 | `secret not set`, then `database URL not set`; otherwise success, with port 443 under TLS |
| MainConfig.EnvironmentOnly | go-api/main.go:49-83 | with no flags and an empty file, the environment's secret and URL over the defaults make a successful load |

## Left out

- JWT cryptography (HMAC, base64 and JSON decoding of claims, expiry checks): a library, replaced by the `jwt.Parse` oracle.
- `randomSecret` (goapi/authorization.go:13-20): it reads `crypto/rand`.
- Both gates' main models use the corrected `verifyToken` (see Findings), so a token string that is not three segments is a 401 there instead of a panic. The panic as written is modelled for the goapi gate (`GoapiAuthorization.AuthMiddlewareAsWritten`); go-api/authorization.go:42 has the same code, and go-api's gate is not modelled a second time as written.
- The decoding inside jwt-go (base64, the JSON header and claims, the `alg` lookup) and the HMAC computation: the `ParseUnverified` oracle, and a signature verifies exactly under the key it was made with.
- The response writer and `next.ServeHTTP`: each gate is a function to an `Outcome`, so `next` is called at most once by construction.
- PostgreSQL query execution, SQL text beyond the `Init` substitution, `current_timestamp` and server-side id generation: an in-memory table with nondeterministic fresh ids and times.
- Resource.Store.Get: a connection failure during `Get` is not modelled; `Get` is deterministic over the table and only its missing-row and payload-decoding errors appear.
- `encoding/json` marshalling of `FieldSet`, `Creator` and `civil.Date`: the `Codec` oracle, constrained by `JsonCodec`. The JSON text of handler bodies is kept as the values encoded.
- Router.IndexResponse: the error branch of `json.Marshal(items)` (go-api/resource/router.go:26-30) is not modelled, because marshalling a list of Resources cannot fail for the timestamps PostgreSQL assigns (`time.Time` fails to marshal only for a year outside 0 to 9999).
- Resource.Store.List: the index query has no `ORDER BY`, so PostgreSQL may return rows in any order, and an `UPDATE` can change it. The model fixes insertion order: `Table.order` only grows by `Insert` and is not changed by `Update`, so `Page` and the index handler speak of that order.
- Resource.Resource.Create, Resource.Resource.Update: a driver failure is modelled as changing nothing. A connection lost after the `INSERT` or `UPDATE` commits would leave the row written while Go reports an error; Router.PostHandler inherits this.
- Path-prefix mounting and chi's trailing-slash handling are not modelled; `Dispatch` covers the three patterns of `Handler` and chi's refusal of non-standard methods only. chi does not answer HEAD with the GET handler, so HEAD is a 405 there as here.
- GoStrings.ToLower: lowers the ASCII letters only. Go's `strings.ToLower` also lowers non-ASCII letters, and two of them become ASCII letters: U+212A (Kelvin sign) to `k` and U+0130 to `i`. Neither letter occurs in `bearer`, so the scheme test is unaffected.
- Resource.Store.List: a driver failure on a query PostgreSQL would refuse anyway (a negative offset or limit) is not modelled; the refusal is reported.
- YAML parsing, `ioutil.ReadFile`, `flag.Parse` (and its exit on a bad flag) and `os.Getenv`: their results are parameters.
- The `authMap` field of main.go's `Config`: `loadConfig` does not touch it.
- Server and TLS start-up, the static file server, `apiHandler` and the rest of go-api/main.go:97-161, and goapi/cmd/serve.go: bootstrap code.
- Per-request goroutines and the database connection pool: concurrency.
- py-csv/process.py: CSV I/O around an identity function.
- The `Delete` template has no operation in the source and none here.

## Findings

| source | as written | input that shows it | evidently intended | confidence | as-written member | corrected member |
|---|---|---|---|---|---|---|
| goapi/authorization.go:66-70 | `token.Claims` is read without checking that `jwt.Parse` returned a token (go-api/authorization.go:42 repeats it) | the header `Bearer abc`: jwt-go cannot split `abc` into three segments and returns a nil token, so the handler dereferences nil | reject such a token with the parse error (401) | not executed | GoapiAuthorization.BareTokenPanics | TokenVerification.SegmentErrorRejected |
