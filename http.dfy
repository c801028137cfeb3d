/** The framework-independent request and response shaping of the HTTP layer:
    `process_result` builds the GraphQL-over-HTTP response body from an
    execution result and `parse_request_data` extracts the query, variables and
    operation name from a decoded request body. */
module Http {
  import opened Values

  /** The engine's execution result: `data` is `None` or a dictionary, and
      `errors` is `None` or a list of GraphQL errors of some type `E`. */
  datatype ExecutionResult<E> = ExecutionResult(data: Value, errors: Option<seq<E>>)

  /** Python truthiness of `result.errors`: neither `None` nor `[]`. */
  predicate HasErrors<E>(result: ExecutionResult<E>) {
    result.errors.Some? && result.errors.value != []
  }

  /** `process_result`: the response body always carries `data`, copied as is
      (also when it is `None`); it carries `errors` exactly when the result has
      some, each formatted once by `format` (the engine's `format_error`) and
      kept in order; and it carries nothing else. */
  function ProcessResult<E>(result: ExecutionResult<E>, format: E -> Value): (r: map<string, Value>)
    ensures "data" in r && r["data"] == result.data
    ensures "errors" in r <==> HasErrors(result)
    ensures "errors" in r ==>
      var errs := result.errors.value;
      r["errors"].List? && |r["errors"].items| == |errs| &&
      forall i :: 0 <= i < |errs| ==> r["errors"].items[i] == format(errs[i])
    ensures r.Keys <= {"data", "errors"}
  {
    var body := map["data" := result.data];
    if HasErrors(result) then
      var errs := result.errors.value;
      body["errors" := List(seq(|errs|, i requires 0 <= i < |errs| => format(errs[i])))]
    else body
  }

  /** The error `parse_request_data` raises. */
  datatype MissingQueryError = MissingQueryError

  /** The keys of a `GraphQLRequestData` dictionary. */
  const RequestDataKeys: set<string> := {"query", "variables", "operation_name"}

  /** `parse_request_data`: fails exactly when the body has no `query` key;
      otherwise returns a dictionary with exactly the keys `query`, `variables`
      and `operation_name`, holding the body's `query` unchanged, its
      `variables` and its camel-case `operationName`, each defaulting to `None`. */
  function ParseRequestData(data: map<string, Value>): (r: Result<map<string, Value>, MissingQueryError>)
    ensures r.Failure? <==> "query" !in data
    ensures r.Success? ==>
      && r.value.Keys == RequestDataKeys
      && r.value["query"] == data["query"]
      && r.value["variables"] == (if "variables" in data then data["variables"] else Null)
      && r.value["operation_name"] == (if "operationName" in data then data["operationName"] else Null)
  {
    if "query" !in data then Failure(MissingQueryError)
    else
      var result: map<string, Value> := map[];
      var result := result["query" := data["query"]];
      var result := result["variables" := Get(data, "variables")];
      Success(result["operation_name" := Get(data, "operationName")])
  }

  /** The body a client sends: `query`, and `variables` and `operationName`
      only when it has them. */
  function RequestBody(query: Value, variables: Option<Value>, operationName: Option<Value>): map<string, Value> {
    var body := map["query" := query];
    var body := if variables.Some? then body["variables" := variables.value] else body;
    if operationName.Some? then body["operationName" := operationName.value] else body
  }

  /** Parsing what a client sends gives back its query, variables and
      operation name, an omitted one read as `None`. */
  lemma ParseRequestBody(query: Value, variables: Option<Value>, operationName: Option<Value>)
    ensures ParseRequestData(RequestBody(query, variables, operationName)) ==
      Success(map["query" := query,
                  "variables" := variables.GetOr(Null),
                  "operation_name" := operationName.GetOr(Null)])
  {
  }
}
