/** The Sanic `GraphQLView`: for each request it decides between a 404, the
    GraphiQL page, a client error with a fixed message, and executing the
    query and answering with the JSON response body. The framework's request
    object is reduced to the fields the view reads; JSON decoding, the
    multipart placeholder substitution and the schema's `execute` are given
    as their outcomes or as function parameters. */
module SanicViews {
  import opened Values
  import opened Text
  import opened Http

  /** What the view reads from a Sanic request. `json` is the outcome of
      decoding the raw body (`request.json`); `operations` and `fileMap` are
      the outcomes of decoding the `operations` and `map` form fields, `None`
      when the field is absent; `files` is what the request's uploaded parts
      convert to. */
  datatype Request = Request(
    httpMethod: string,
    accept: Option<string>,
    contentType: string,
    json: Decoded,
    operations: Option<Decoded>,
    fileMap: Option<Decoded>,
    files: map<string, Value>)

  /** The context object handed to the engine, carrying the raw request. */
  datatype Context = SanicContext(request: Request)

  /** The arguments of the single `schema.execute` call. */
  datatype ExecCall = ExecCall(
    query: Value,
    variables: Value,
    context: Context,
    rootValue: Value,
    operationName: Value)

  /** The query, variables and operation name taken from the request body. */
  datatype ExecutionContext = ExecutionContext(query: Value, variables: Value, operationName: Value)

  /** The view: whether GraphiQL is served and the schema, represented by
      its `execute`. */
  datatype GraphQLView<E> = GraphQLView(graphiql: bool := true, execute: ExecCall -> ExecutionResult<E>)

  /** The placeholder substitution for multipart uploads: given `operations`,
      the file map and the uploaded files, the substituted operations, or
      `None` where the substitution raises `KeyError` for a missing file. */
  type Substitution = (Value, Value, map<string, Value>) -> Option<Value>

  /** The possible outcomes of a request. `InternalError` is the 500 the
      framework produces for an exception the view does not catch. */
  datatype Response =
    | NotFound
    | GraphiQLPage
    | BadRequest(message: string)
    | InternalError
    | Executed(call: ExecCall, status: nat, contentType: string, body: map<string, Value>)

  function Status(r: Response): nat {
    match r
    case NotFound => 404
    case GraphiQLPage => 200
    case BadRequest(_) => 400
    case InternalError => 500
    case Executed(_, status, _, _) => status
  }

  const UnparsableBody := "Unable to parse request body as JSON"
  const NoQuery := "No GraphQL query found in the request"
  const FilesMissing := "File(s) missing in form data"

  /** `get_root_value`: the view passes no root value. */
  function GetRootValue(): (r: Value)
    ensures r == Null
  {
    Null
  }

  // `request_wants_html`: the Accept header mentions `text/html` or `*/*`;
  // an absent header wants nothing. (A `//` comment, since `*/*` would end a
  // block comment.)
  function RequestWantsHtml(req: Request): (r: bool)
    ensures r <==> (req.accept.Some? &&
      (HasSubstring(req.accept.value, "text/html") || HasSubstring(req.accept.value, "*/*")))
  {
    match req.accept
    case None => false
    case Some(accept) =>
      ContainsIsSubstring(accept, "text/html");
      ContainsIsSubstring(accept, "*/*");
      Contains(accept, "text/html") || Contains(accept, "*/*")
  }

  /** `should_display_graphiql`: never for a view without GraphiQL;
      otherwise exactly when the request wants HTML. */
  function ShouldDisplayGraphiQL<E>(view: GraphQLView<E>, req: Request): (r: bool)
    ensures !view.graphiql ==> !r
    ensures r <==> (view.graphiql && req.accept.Some? &&
      (HasSubstring(req.accept.value, "text/html") || HasSubstring(req.accept.value, "*/*")))
  {
    view.graphiql && RequestWantsHtml(req)
  }

  /** The outcome of `parse_body`: the decoded body, or one of the two
      exceptions it lets escape. */
  datatype ParsedBody = Body(data: Value) | JsonDecodeError | FileMissing

  /** `json.loads(request.form.get(field, "{}"))`: an absent field decodes
      as the empty object, a present one as whatever its text decodes to. */
  function DecodeFormField(field: Option<Decoded>): (r: Decoded)
    ensures field.None? ==> r == Decoded(Dict(map[]))
    ensures field.Some? ==> r == field.value
  {
    field.GetOr(Decoded(Dict(map[])))
  }

  predicate IsMultipart(req: Request) {
    "multipart/form-data" <= req.contentType
  }

  /** `parse_body`: a multipart request decodes `operations`, then `map`, and
      substitutes the uploaded files; any other request decodes its body. */
  function ParseBody(req: Request, substitute: Substitution): (r: ParsedBody)
    ensures r.FileMissing? ==> IsMultipart(req)
    ensures IsMultipart(req) ==>
      var operations := DecodeFormField(req.operations);
      var fileMap := DecodeFormField(req.fileMap);
      && (operations.Malformed? || fileMap.Malformed? ==> r == JsonDecodeError)
      && (operations.Decoded? && fileMap.Decoded? ==>
            r == match substitute(operations.value, fileMap.value, req.files)
                 case None => FileMissing
                 case Some(data) => Body(data))
    ensures !IsMultipart(req) ==> r == if req.json.Malformed? then JsonDecodeError else Body(req.json.value)
  {
    if IsMultipart(req) then
      match DecodeFormField(req.operations)
      case Malformed => JsonDecodeError
      case Decoded(operations) =>
        match DecodeFormField(req.fileMap)
        case Malformed => JsonDecodeError
        case Decoded(fileMap) =>
          match substitute(operations, fileMap, req.files)
          case None => FileMissing
          case Some(data) => Body(data)
    else
      match req.json
      case Malformed => JsonDecodeError
      case Decoded(data) => Body(data)
  }

  /** `get_execution_context`: a body that does not decode is a 400 with the
      JSON message, a missing uploaded file a 400 with the files message, a
      dictionary without `query` a 400 with the query message, and a body that
      is not a dictionary cannot be indexed by `"query"` (a `TypeError`, so a
      500). Otherwise `query` is taken unchanged and `variables` and
      `operationName` default to `None`. */
  function GetExecutionContext(req: Request, substitute: Substitution): (r: Result<ExecutionContext, Response>)
    ensures ParseBody(req, substitute).JsonDecodeError? ==> r == Failure(BadRequest(UnparsableBody))
    ensures ParseBody(req, substitute).FileMissing? ==> r == Failure(BadRequest(FilesMissing))
    ensures ParseBody(req, substitute).Body? ==>
      var data := ParseBody(req, substitute).data;
      && (!data.Dict? ==> r == Failure(InternalError))
      && (data.Dict? && "query" !in data.entries ==> r == Failure(BadRequest(NoQuery)))
      && (data.Dict? && "query" in data.entries ==>
            r.Success? && r.value.query == data.entries["query"] &&
            r.value.variables == Get(data.entries, "variables") &&
            r.value.operationName == Get(data.entries, "operationName"))
    ensures r.Failure? ==> r.error.BadRequest? || r.error.InternalError?
  {
    match ParseBody(req, substitute)
    case JsonDecodeError => Failure(BadRequest(UnparsableBody))
    case FileMissing => Failure(BadRequest(FilesMissing))
    case Body(data) =>
      if !data.Dict? then Failure(InternalError)
      else if "query" !in data.entries then Failure(BadRequest(NoQuery))
      else
        var d := data.entries;
        Success(ExecutionContext(d["query"], Get(d, "variables"), Get(d, "operationName")))
  }

  predicate IsGet(req: Request) {
    Lower(req.httpMethod) == "get"
  }

  /** `dispatch_request`. A GET (in any letter case) to a view without
      GraphiQL is a 404. The GraphiQL page is served exactly for a GET to a
      view with GraphiQL whose request wants HTML. Every other request either
      fails with the error `get_execution_context` chose, or executes the query
      once, with the request's context and no root value, and answers 200 with
      `application/json` and the processed result. */
  function DispatchRequest<E>(view: GraphQLView<E>, req: Request, substitute: Substitution, format: E -> Value): (r: Response)
    ensures IsGet(req) && !view.graphiql ==> r == NotFound
    ensures r == GraphiQLPage <==> IsGet(req) && view.graphiql && RequestWantsHtml(req)
    ensures r.NotFound? ==> IsGet(req) && !view.graphiql
    ensures r.BadRequest? || r.InternalError? ==>
      !(IsGet(req) && view.graphiql && RequestWantsHtml(req)) &&
      GetExecutionContext(req, substitute) == Failure(r)
    ensures r.Executed? <==>
      !(IsGet(req) && !view.graphiql) && !(IsGet(req) && RequestWantsHtml(req)) &&
      GetExecutionContext(req, substitute).Success?
    ensures r.Executed? ==>
      var ctx := GetExecutionContext(req, substitute).value;
      && r.call == ExecCall(ctx.query, ctx.variables, SanicContext(req), Null, ctx.operationName)
      && r.status == 200 && r.contentType == "application/json"
      && r.body == ProcessResult(view.execute(r.call), format)
  {
    var isGet := IsGet(req);
    if !view.graphiql && isGet then NotFound
    else if isGet && ShouldDisplayGraphiQL(view, req) then GraphiQLPage
    else
      match GetExecutionContext(req, substitute)
      case Failure(error) => error
      case Success(ctx) =>
        var call := ExecCall(ctx.query, ctx.variables, SanicContext(req), GetRootValue(), ctx.operationName);
        Executed(call, 200, "application/json", ProcessResult(view.execute(call), format))
  }

  /** On a JSON body, the view's own extraction agrees with
      `parse_request_data`: one fails on a missing query exactly when the other
      does, and otherwise both read the same query, variables and operation
      name. */
  lemma ExecutionContextMatchesRequestData(req: Request, substitute: Substitution, d: map<string, Value>)
    requires !IsMultipart(req) && req.json == Decoded(Dict(d))
    ensures GetExecutionContext(req, substitute).Success? <==> ParseRequestData(d).Success?
    ensures GetExecutionContext(req, substitute).Failure? ==>
      GetExecutionContext(req, substitute).error == BadRequest(NoQuery)
    ensures GetExecutionContext(req, substitute).Success? ==>
      var ctx := GetExecutionContext(req, substitute).value;
      var data := ParseRequestData(d).value;
      ctx == ExecutionContext(data["query"], data["variables"], data["operation_name"])
  {
  }

  /** A POST, the view's other method, never gets the GraphiQL page and
      never a 404; with a JSON body holding a query it always executes. */
  lemma PostExecutes<E>(view: GraphQLView<E>, req: Request, substitute: Substitution, format: E -> Value, d: map<string, Value>)
    requires !IsGet(req)
    requires !IsMultipart(req) && req.json == Decoded(Dict(d)) && "query" in d
    ensures DispatchRequest(view, req, substitute, format).Executed?
    ensures Status(DispatchRequest(view, req, substitute, format)) == 200
    ensures DispatchRequest(view, req, substitute, format).call.query == d["query"]
  {
  }
}
