# Strawberry: HTTP helpers, the Sanic view and Apollo Federation

This project models three parts of the Strawberry GraphQL library for Python
in Dafny and proves what they promise.

- **The HTTP helpers** (`strawberry/http.py`):
  - `process_result` shapes an execution result into the GraphQL-over-HTTP
    response body `{data, errors?}`.
  - `parse_request_data` extracts `query`, `variables` and `operation_name`
    from a decoded request body, or raises `MissingQueryError`.
- **The Sanic `GraphQLView`** (`strawberry/sanic/views.py`). For each request
  it decides between four outcomes:
  - a 404;
  - the GraphiQL page;
  - a 400 with one of three fixed messages (a 500 for a body that is not a
    dictionary);
  - one call of the schema's `execute`, answered with 200 and the JSON body.

  The request is a datatype holding the fields the view reads. The outcomes
  of JSON decoding are fields of that datatype. The multipart placeholder
  substitution, `format_error` and `execute` are function parameters.
- **Apollo Federation support** (`strawberry/federation.py`):
  - The `type` and `field` decorators fill in federation defaults.
  - The types declared with keys form the `_Entity` union.
  - The federated `Schema` class adds `_Any`, `_Service`, `_Entity` and an
    extended Query type to its type map.
  - `entities_resolver` resolves each representation dictionary through its
    type's `resolve_reference`. It pops `__typename` and may insert `info`,
    changing the dictionary in place.

  Python dictionaries whose order matters (type maps, field maps) are
  sequences of unique-key entries (`OrderedMaps.Dict`). Assigning to a present
  key keeps its place there, and a new key is appended. The graphql-core types
  are tags recording what they were built from.

Modules:

- `Values` holds `Option`, `Result` and a JSON-like `Value`.
- `Text` holds ASCII `str.lower()` and the substring test `in`.
- `OrderedMaps` holds the ordered dictionaries.
- `Http`, `SanicViews` and `Federation` follow the three source files.

Source that changes state in place is modelled as classes with methods:

- `Federation.Schema`, whose constructor runs `_add_scalars`,
  `_create_service_field` and `_extend_query_type`;
- `Federation.Representation`, the dictionary the resolver mutates.

Each method is proved against a function that specifies it:

- `ExtendedQueryFields`, `ExtendTypeMap` and `FederatedTypeMap` for the
  construction;
- `ResolveStep` and `ResolveAll` for the resolver.

The properties are then proved about those functions.

## Model

| member | source | states |
|---|---|---|
| Http.ProcessResult | strawberry/http.py:16-22 | The body always has `data`, equal to the result's data even when that is `None`. It has `errors` exactly when the result's errors are neither `None` nor empty. `errors` then holds each error formatted once, in order. There are no other keys. |
| Http.ParseRequestData | strawberry/http.py:31-41 | Fails exactly when `query` is missing. Otherwise the result has exactly the keys `query`, `variables` and `operation_name`. `query` is copied unchanged; `variables` and the camel-case `operationName` default to `None`. |
| Http.ParseRequestBody | strawberry/http.py:31-41 | Parsing a body that a client built from a query, optional variables and an optional operation name gives those three back. An omitted one reads as `None`. |
| Text.Lower | strawberry/sanic/views.py:55 | `request.method.lower()` keeps the length, lowers each ASCII capital and leaves every other character. The result has no ASCII capitals. |
| Text.Contains | strawberry/sanic/views.py:121 | The scan behind `sub in s` finds a prefix at once and never finds anything longer than `s`. |
| Text.LowerIsGet | strawberry/sanic/views.py:55-56 | The lower-cased request method equals `get` exactly for the eight letter-case spellings of GET. |
| Text.ContainsIsSubstring | strawberry/sanic/views.py:118-121 | The left-to-right scan behind Python's `sub in s` is true exactly when `sub` occurs at some position of `s`. |
| SanicViews.RequestWantsHtml | strawberry/sanic/views.py:118-121 | True exactly when the Accept header is present and contains `text/html` or `*/*`. An absent header gives false. |
| SanicViews.GetRootValue | strawberry/sanic/views.py:42-43 | The view passes no root value: it is `None`. |
| SanicViews.ShouldDisplayGraphiQL | strawberry/sanic/views.py:113-116 | Never for a view without GraphiQL. Otherwise true exactly when the Accept header is present and contains `text/html` or `*/*`. |
| SanicViews.DecodeFormField | strawberry/sanic/views.py:105-106 | An absent `operations` or `map` form field decodes as the empty object `{}`. A present one decodes as its text does. |
| SanicViews.ParseBody | strawberry/sanic/views.py:102-111 | A multipart request whose `operations` or `map` field (each defaulting to `{}`) is malformed raises the JSON decode error. Otherwise it gives the substituted operations, or the missing-file error exactly when the substitution fails. Any other request gives its decoded JSON body, or the decode error. Only a multipart request can fail with a missing file. |
| SanicViews.GetExecutionContext | strawberry/sanic/views.py:84-100 | These outcomes follow from the parsed body. A body that does not decode is a 400 "Unable to parse request body as JSON". A missing uploaded file is a 400 "File(s) missing in form data". A non-dictionary body is a 500. A dictionary without `query` is a 400 "No GraphQL query found in the request". Otherwise `query` is unchanged and `variables`/`operationName` default to `None`. No other failure occurs. |
| SanicViews.DispatchRequest | strawberry/sanic/views.py:54-82 | A GET in any letter case to a view without GraphiQL is a 404, and only that is. The GraphiQL page is served exactly for a GET to a GraphiQL view whose request wants HTML. A 400/500 is exactly the error chosen by `get_execution_context`. Execution happens exactly when none of those applies and the context was extracted. `execute` then gets the request's query, variables, operation name and context, with root value `None`, and the answer is 200 `application/json` with the processed result. An exception raised inside `execute` is not modelled. |
| SanicViews.ExecutionContextMatchesRequestData | strawberry/sanic/views.py:90-100 | On a JSON dictionary body, the view fails exactly when `parse_request_data` does, with the missing-query message. Otherwise both read the same query, variables and operation name. |
| SanicViews.PostExecutes | strawberry/sanic/views.py:54-82 | A non-GET request whose JSON body holds a query is executed with that query and answered with 200. It never gets GraphiQL or a 404. |
| OrderedMaps.Put | strawberry/federation.py:134 | After `m[k] = v`, `k` maps to `v` and every other key keeps its value. A present key keeps its place; a new key goes last. |
| OrderedMaps.Update | strawberry/federation.py:147 | After `m.update(n)`, every key of `n` has `n`'s value and every other key keeps `m`'s value. |
| OrderedMaps.UpdateKeys | strawberry/federation.py:147 | `m.update(n)` keeps `m`'s keys in place and appends the keys new to `m` in the order of `n`. |
| Federation.Type | strawberry/federation.py:28-41 | `keys` defaults to the empty list and `extend` to false. The class, name and description are passed on unchanged. |
| Federation.Field | strawberry/federation.py:44-64 | `provides` and `requires` default to empty lists and `external` to false. The resolver, name, subscription flag, description and permission classes are passed on unchanged. |
| Federation.HasFederationKeys | strawberry/federation.py:67-73 | Only an object type's definition can have federation keys. It has them exactly when its key list is not empty. |
| Federation.TypeKeysDecideEntity | strawberry/federation.py:67-73 | A class decorated by `type` has federation keys exactly when it was given a non-empty key list. |
| Federation.KeyedImplementations | strawberry/federation.py:82-86 | The comprehension is empty exactly when no type-map entry has keys. Its members are exactly the keyed entries' implementations. |
| Federation.KeyedImplementationsAppend | strawberry/federation.py:82-86 | The comprehension keeps type-map order: the members from a prefix of the map precede those from the rest. |
| Federation.GetEntityType | strawberry/federation.py:76-100 | There is no union exactly when no entry has keys. Otherwise it is the non-empty union `_Entity` whose members are exactly the keyed implementations, in type-map order. |
| Federation.ExtendedQueryFields | strawberry/federation.py:137-153 | The new fields are `_service`, then `_entities` exactly when there is an entity union, then the original fields in their order. Every original field keeps its definition, also on a name clash. |
| Federation.ExtendTypeMap | strawberry/federation.py:139-156 | The Query name is bound to the new Query type. `_Service` is bound to the service type unless the Query has that name. `_Entity` is bound to the union when there is one, and is otherwise unchanged, unless the Query has that name. |
| Federation.ExtendTypeMapKeepsOthers | strawberry/federation.py:141-156 | Extending the type map changes no other entry and keeps every existing key, in order. |
| Federation.FederatedTypeMap | strawberry/federation.py:104-109 | After construction, the type map binds the Query name, `_Service`, `_Any` and, when keyed types exist, `_Entity`. A binding is replaced only where the Query takes that name. |
| Federation.FederatedTypeMapKeepsOthers | strawberry/federation.py:131-156 | Construction changes no other type-map entry and keeps every existing key, in order. |
| Federation.ResolveStep | strawberry/federation.py:115-127 | One loop iteration never leaves `__typename` in the representation. It fails with the `KeyError` exactly when `__typename` is missing. |
| Federation.ResolveStepSpec | strawberry/federation.py:115-127 | `__typename` never stays in a representation. If it is missing, that is the `KeyError` and the dictionary is unchanged. Assuming `resolve_reference` itself does not raise, resolution succeeds exactly when the name denotes an object type with `resolve_reference`. That function is then called once, with the remaining entries as keyword arguments, plus `info` exactly when it declares `info`. |
| Federation.ResolveAll | strawberry/federation.py:111-129 | Resolving a list leaves one dictionary per representation and, on success, gives one result per representation. |
| Federation.ResolvedAll | strawberry/federation.py:112-129 | When every representation resolves, the result is the list of their results in input order. Each dictionary is left as its own step left it. |
| Federation.ResolvedUpTo | strawberry/federation.py:114-127 | When representation `i` is the first to raise, the outcome is its error. The dictionaries up to `i` are left as their steps left them, and the later ones are untouched. |
| Federation.Schema.constructor | strawberry/federation.py:104-109 | The constructed schema has the `_Any` scalar, the `_Service` type and field, the extended Query type and the federated type map. |
| Federation.Schema.AddScalars | strawberry/federation.py:131-134 | Sets the `_Any` scalar and assigns it to `_Any` in the type map. Nothing else changes. |
| Federation.Schema.CreateServiceField | strawberry/federation.py:169-177 | Sets the `_Service` type with its single `sdl` field, and the `_service` field of that type. Nothing else changes. |
| Federation.Schema.ExtendQueryType | strawberry/federation.py:136-156 | The Query keeps its name and description and gets the extended fields. The type map is extended with `_Entity`, `_Service` and the new Query type. |
| Federation.Schema.ResolveRepresentation | strawberry/federation.py:115-127 | One loop iteration: the dictionary and the outcome are those of the specified resolution step. |
| Federation.Schema.ResolveEach | strawberry/federation.py:112-129 | The loop resolves representations in order. The first failure stops it. The resolved representations and the failing one are changed as their steps say, and the later ones are untouched. |
| Federation.Schema.EntitiesResolver | strawberry/federation.py:111-129 | The result and the new contents of every representation dictionary are those of resolving the old contents in order. |

## Left out

- `tests/types/test_interfaces.py` is not part of this model. It tests interface resolution in decorators whose code is not modelled here.
- graphql-core's `GraphQLObjectType`, `GraphQLUnionType`, `GraphQLField`, `GraphQLNonNull` and `GraphQLList` are foreign library types. They are kept as tags, and the `resolve_type` function attached to `_Entity` is not modelled.
- `print_schema` (the `sdl` resolver), `format_error` and `schema.execute` are outside calls. `format_error` and `execute` are function parameters; `sdl` is a field tag.
- Sanic's request and response objects, `abort`/`ServerError`, `render_graphiql_page`, `StrawberrySanicContext` and `convert_request_to_files_dict` are framework I/O. They are reduced to the request datatype and the `Response` outcomes.
- `replace_placeholders_with_files` is a parameter that returns the substituted operations, or nothing for a missing file.
- `json.loads` is reduced to its outcome: a decoded value or a decode error. `json.dumps` of the response is not modelled; the response carries the dictionary.
- SanicViews.ParseBody: assumes that Sanic's `request.json` either decodes the body or raises `json.JSONDecodeError`. Sanic's code is not part of this model. If it raises another exception, the response is that exception's: a Sanic exception keeps its own status and message, and any other exception gives a 500. If it gives `None` for an empty body, `data["query"]` raises `TypeError`, which gives a 500.
- SanicViews.PostExecutes: the framework's routing restriction to the methods GET and POST is not modelled. The request method is any string, and every method other than GET is handled as a POST is.
- A request body that decodes to something other than a dictionary makes `data["query"]` raise `TypeError`. This is modelled as the framework's 500.
- `async`/`await` in `dispatch_request` and `get_context` is modelled as sequential evaluation.
- `Text.Lower`: models `str.lower()` on ASCII letters only. Unicode case mapping does not matter for the method names compared with `get`.
- JSON objects and keyword arguments are unordered `map`s. Only the type maps and Query field maps keep insertion order.
- Floating-point JSON numbers are not modelled.
- `get_func_args` and the application's `resolve_reference` functions are function parameters.
- Federation.Schema.EntitiesResolver: representations that are not dictionaries are not modelled; each representation holds a dictionary. The `_Any` scalar passes any value through, so a client can send, say, a number or a string. In the source `pop("__typename")` then raises `AttributeError` or `TypeError`, and the loop stops, with the dictionaries before it already changed.
- Federation.Schema.EntitiesResolver: requires the representations to be distinct objects. A list that holds the same dictionary twice (aliasing) is not modelled.
- Federation.ResolveStepSpec: one `NoResolveReference` error covers every type with no `resolve_reference` to call. That is a type that is not an object type, or a class without the method; in the source both raise `AttributeError`.
- Federation.ResolveStepSpec: a `__typename` that is not a string is reported as `UnknownType`. The source's dictionary lookup fails for it as well.
- Federation.Schema.EntitiesResolver: an exception raised while resolving is returned as the `Failure` of a `Result`. The representations already resolved stay mutated.
- Federation.ResolveStepSpec: an exception raised inside an application's `resolve_reference` is not modelled; the call always returns a value. In the source such an exception (for example a `TypeError` on a keyword it does not accept) stops the loop. The dictionary is then left with `__typename` popped and `info` possibly inserted.
- SanicViews.DispatchRequest: an exception raised inside `schema.execute` is not modelled; execution always returns a result. In the source such an exception reaches the framework as a 500.
- Federation.Schema.constructor: requires the base schema's Query type to be an object type, as the source's cast assumes.
- Federation.ExtendTypeMap: requires any entity union to be named `_Entity`. That is the only union `GetEntityType` builds.
