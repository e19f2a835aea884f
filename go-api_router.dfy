/**
 * The REST handlers of go-api/resource/router.go: the route table and what
 * each handler answers for each outcome of the resource store. A handler's
 * answer is a status and a body; bodies that `encoding/json` would produce
 * are kept as the values they encode.
 */
module Router {
  import opened Results
  import opened Resource

  const StatusOK := 200
  const StatusNotFound := 404
  const StatusMethodNotAllowed := 405
  const StatusInternalServerError := 500

  /** What a handler writes. */
  datatype Body =
    | ItemsJson(items: seq<Record>)   // a JSON array of Resources
    | NullJson                        // `json.Marshal` of a nil slice: `null`
    | ResourceJson(resource: Record)  // one Resource object
    | IdJson(id: string)              // the object `{"id": ...}`
    | ErrorText(text: string)         // the plain text `http.Error` writes
    | Empty                           // nothing written

  datatype Response = Response(status: int, body: Body)

  /** `http.Error(w, msg, status)`: the message and a newline, with that status. */
  function Error(msg: string, status: int): (r: Response)
    ensures r.status == status && r.body.ErrorText?
    ensures |r.body.text| == |msg| + 1 && r.body.text[..|msg|] == msg && r.body.text[|msg|] == '\n'
  {
    Response(status, ErrorText(msg + "\n"))
  }

  /** `http.StatusText(http.StatusNotFound)`. */
  const NotFoundText := "Not Found"

  /** The message of `http.NotFound`, chi's answer for a path no route matches. */
  const NotFoundPage := "404 page not found"

  /** The handler `Handler`'s router picks for a request. */
  datatype Route =
    | Index              // GET /
    | Show(id: string)   // GET /{id}, with the `id` URL parameter
    | Post               // POST /
    | MethodNotAllowed   // a registered path with another method
    | NoRoute            // no registered path

  /** A path `/{id}` matches: one non-empty segment after the leading slash. */
  predicate IsIdPath(path: string) {
    |path| > 1 && path[0] == '/' && '/' !in path[1..]
  }

  /** The methods chi routes; a request with any other method is refused before the path is looked at. */
  const StandardMethods: set<string> :=
    {"CONNECT", "DELETE", "GET", "HEAD", "OPTIONS", "PATCH", "POST", "PUT", "TRACE"}

  /**
   * `Handler`: three routes, GET and POST on `/` and GET on `/{id}`. A
   * method chi does not know is refused with 405 on any path; a registered
   * path with another known method is refused with 405 too; any other path
   * is not found.
   */
  function Dispatch(verb: string, path: string): (r: Route)
    ensures r == Index <==> verb == "GET" && path == "/"
    ensures r == Post <==> verb == "POST" && path == "/"
    ensures r.Show? <==> verb == "GET" && IsIdPath(path)
    ensures r.Show? ==> r.id != "" && path == "/" + r.id
    ensures r == NoRoute <==> verb in StandardMethods && path != "/" && !IsIdPath(path)
    ensures r == MethodNotAllowed <==>
      || verb !in StandardMethods
      || (path == "/" && verb != "GET" && verb != "POST")
      || (IsIdPath(path) && verb != "GET")
  {
    if verb !in StandardMethods then MethodNotAllowed
    else if path == "/" then
      if verb == "GET" then Index
      else if verb == "POST" then Post
      else MethodNotAllowed
    else if IsIdPath(path) then
      if verb == "GET" then Show(path[1..]) else MethodNotAllowed
    else NoRoute
  }

  /** Only three method and path shapes reach a handler. */
  lemma OnlyThreeRoutes(verb: string, path: string)
    ensures Dispatch(verb, path) in {Index, Post} || Dispatch(verb, path).Show? <==>
      (verb == "GET" && (path == "/" || IsIdPath(path))) || (verb == "POST" && path == "/")
  {
  }

  /**
   * `indexHandlerFunc` after `List(50, 0)` returned `items` and `err`: a
   * store error is a 500 with its text; otherwise the items are the body, an
   * empty (nil) list encoding as `null`.
   */
  function IndexResponse(items: seq<Record>, err: Option<string>): (r: Response)
    ensures r.status == StatusOK <==> err.None?
    ensures err.Some? ==> r == Error(err.value, StatusInternalServerError)
    ensures err.None? ==> r.body == if items == [] then NullJson else ItemsJson(items)
  {
    match err
    case Some(e) => Error(e, StatusInternalServerError)
    case None => Response(StatusOK, if items == [] then NullJson else ItemsJson(items))
  }

  /** The fixed page the index handler asks for. */
  const IndexLimit := 50
  const IndexOffset := 0

  /**
   * `indexHandlerFunc`: list the first 50 rows in table order. Without a
   * driver failure (`fault`) the body shows exactly those rows, without
   * payloads; a failure is a 500 carrying the driver's error text.
   */
  method IndexHandler(s: Store, fault: Option<Fault>) returns (resp: Response)
    requires s.Ready()
    ensures fault.None? ==>
      var page := Page(s.db.rows, s.db.order, IndexLimit, IndexOffset);
      resp == Response(StatusOK, if page == [] then NullJson else ItemsJson(page))
    ensures fault.Some? ==> resp == Error(fault.value.msg, StatusInternalServerError)
    ensures resp.body.ItemsJson? ==>
      |resp.body.items| <= IndexLimit && forall k :: 0 <= k < |resp.body.items| ==> resp.body.items[k].Fields.None?
  {
    var items, err := s.List(IndexLimit, IndexOffset, fault);
    resp := IndexResponse(items, err);
  }

  /**
   * `getHandlerFunc` once `Get` has answered `got`: a store error is a 500,
   * a Resource without an ID is not found, and any other Resource is the body.
   */
  function GetResponse(got: Result<Record>): (r: Response)
    ensures got.Failure? ==> r == Error(got.error, StatusInternalServerError)
    ensures got.Success? && got.value.ID == "" ==> r == Error(NotFoundText, StatusNotFound)
    ensures r.status == StatusOK <==> got.Success? && got.value.ID != ""
    ensures r.status == StatusOK ==> r.body == ResourceJson(got.value)
  {
    match got
    case Failure(e) => Error(e, StatusInternalServerError)
    case Success(res) =>
      if res.ID == "" then Error(NotFoundText, StatusNotFound)
      else Response(StatusOK, ResourceJson(res))
  }

  /**
   * `getHandlerFunc` for the URL parameter `idParam`: an empty parameter is
   * not found without asking the store; otherwise the answer to `Get`.
   */
  function GetHandler(s: Store, idParam: string): (r: Response)
    reads s, s.db
    requires s.Ready()
    ensures idParam == "" ==> r == Error(NotFoundText, StatusNotFound)
    ensures idParam != "" ==> r == GetResponse(s.Get(idParam))
    ensures r.status == StatusOK ==> r.body.ResourceJson? && r.body.resource.ID == idParam
  {
    if idParam == "" then Error(NotFoundText, StatusNotFound)
    else GetResponse(s.Get(idParam))
  }

  /**
   * An id no row has is a server error, not "not found": `Get` reports the
   * missing row as an error before the handler could see an empty Resource.
   */
  lemma UnknownIdIsServerError(s: Store, id: string)
    requires s.Ready()
    requires id != "" && id !in s.db.rows
    ensures GetHandler(s, id) == Error(ErrNoRows, StatusInternalServerError)
  {
  }

  /** The get handler answers 404 exactly when the `id` parameter is empty. */
  lemma NotFoundOnlyForEmptyParameter(s: Store, idParam: string)
    requires s.Ready()
    ensures GetHandler(s, idParam).status == StatusNotFound <==> idParam == ""
  {
  }

  /** Through the router, the get handler never answers 404: `/{id}` always binds a non-empty id. */
  lemma RoutedGetNeverNotFound(s: Store, verb: string, path: string)
    requires s.Ready()
    requires Dispatch(verb, path).Show?
    ensures GetHandler(s, Dispatch(verb, path).id).status != StatusNotFound
  {
    NotFoundOnlyForEmptyParameter(s, Dispatch(verb, path).id);
  }

  /** A stored Resource is served with its own id, label, timestamps and payload. */
  lemma KnownIdServed(s: Store, id: string, fields: Option<FieldSet>)
    requires s.Ready() && JsonCodec(s.codec)
    requires id != "" && id in s.db.rows && (fields.None? || Storable(fields.value))
    requires s.db.rows[id].Fields == EncodeFields(s.codec, fields)
    ensures GetHandler(s, id) == Response(StatusOK, ResourceJson(Record(
      id, s.db.rows[id].Label, fields, Some(s.db.rows[id].CreatedAt), s.db.rows[id].UpdatedAt)))
  {
    var row := s.db.rows[id];
    s.GetAfterWrite(id, row.Label, fields, row.CreatedAt, row.UpdatedAt);
  }

  /**
   * `postHandlerFunc` with the request body decoded into a Resource
   * (`decoded`, or the decoder's error) and the driver's error for the
   * insertion (`fault`): a decoding error and a failed `Create` are 500s
   * with their text; a created Resource answers with its new id only.
   */
  method PostHandler(s: Store, decoded: Result<Record>, fault: Option<string>) returns (resp: Response)
    requires s.Ready()
    modifies s.db
    ensures s.Ready()
    ensures decoded.Failure? ==> resp == Error(decoded.error, StatusInternalServerError)
    ensures decoded.Success? && decoded.value.ID != "" ==>
      resp == Error(ExistingIdError + decoded.value.ID, StatusInternalServerError)
    ensures decoded.Success? && decoded.value.ID == "" ==>
      match fault
      case Some(e) => resp == Error(e, StatusInternalServerError)
      case None => resp.status == StatusOK
    ensures resp.status != StatusOK ==> resp.status == StatusInternalServerError && unchanged(s.db)
    ensures resp.status == StatusOK ==>
      && decoded.Success? && decoded.value.ID == ""
      && resp.body.IdJson? && resp.body.id != "" && resp.body.id !in old(s.db.rows)
      && resp.body.id in s.db.rows
      && s.db.rows[resp.body.id].Label == decoded.value.Label
      && s.db.rows[resp.body.id].Fields == EncodeFields(s.codec, decoded.value.Fields)
      && s.db.rows == old(s.db.rows)[resp.body.id := s.db.rows[resp.body.id]]
      && s.db.order == old(s.db.order) + [resp.body.id]
  {
    if decoded.Failure? {
      return Error(decoded.error, StatusInternalServerError);
    }
    var resource := new Resource(decoded.value);
    var err := resource.Create(s, fault);
    if err.Some? {
      return Error(err.value, StatusInternalServerError);
    }
    resp := Response(StatusOK, IdJson(resource.ID));
  }

  /**
   * The router `Handler` returns, serving one request: the route table picks
   * the handler. A registered path asked with another method, and any
   * method chi does not know, is answered 405 with no body; a path no route
   * matches is `404 page not found`. `body` is what decoding the request
   * body gives, and only POST reads it; `listFault` and `createFault` are
   * the driver's errors for the index and the post handler.
   */
  method Serve(s: Store, verb: string, path: string, body: Result<Record>,
               listFault: Option<Fault>, createFault: Option<string>) returns (resp: Response)
    requires s.Ready()
    modifies s.db
    ensures s.Ready()
    ensures Dispatch(verb, path) != Post ==> unchanged(s.db)
    ensures resp.status == StatusMethodNotAllowed <==> Dispatch(verb, path) == MethodNotAllowed
    ensures Dispatch(verb, path) == MethodNotAllowed ==> resp.body == Empty
    ensures Dispatch(verb, path) == NoRoute ==> resp == Error(NotFoundPage, StatusNotFound)
    ensures resp.status == StatusNotFound ==> Dispatch(verb, path) == NoRoute
    ensures Dispatch(verb, path).Show? ==> resp == GetHandler(s, Dispatch(verb, path).id)
    ensures Dispatch(verb, path) == Index ==>
      var page := Page(s.db.rows, s.db.order, IndexLimit, IndexOffset);
      match listFault
      case None => resp == Response(StatusOK, if page == [] then NullJson else ItemsJson(page))
      case Some(f) => resp == Error(f.msg, StatusInternalServerError)
    ensures Dispatch(verb, path) == Post && body.Success? && body.value.ID == "" ==>
      (resp.status == StatusOK <==> createFault.None?)
    ensures Dispatch(verb, path) == Post && resp.status == StatusOK ==>
      && body.Success? && body.value.ID == ""
      && resp.body.IdJson? && resp.body.id !in old(s.db.rows) && resp.body.id in s.db.rows
  {
    var route := Dispatch(verb, path);
    match route {
      case Index =>
        resp := IndexHandler(s, listFault);
      case Show(id) =>
        RoutedGetNeverNotFound(s, verb, path);
        resp := GetHandler(s, id);
      case Post =>
        resp := PostHandler(s, body, createFault);
      case MethodNotAllowed =>
        resp := Response(StatusMethodNotAllowed, Empty);
      case NoRoute =>
        resp := Error(NotFoundPage, StatusNotFound);
    }
  }
}
