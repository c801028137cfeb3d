/** Apollo Federation support: decorators that fill in federation defaults,
    the `_Entity` union of the types that declare keys, the `_entities`
    resolver, and the schema that adds `_Any`, `_Service`, `_Entity` and the
    extended Query type to its type map. The graphql-core types are reduced to
    tags that record what was built from what. */
module Federation {
  import opened Values
  import opened OrderedMaps

  // ---------------------------------------------------------------------
  // The `type` and `field` decorators

  datatype ClassRef = ClassRef(id: nat)
  datatype ResolverRef = ResolverRef(id: nat)
  datatype PermissionClass = PermissionClass(id: nat)

  datatype FederationTypeParams = FederationTypeParams(keys: seq<string>, extend: bool)

  datatype FederationFieldParams =
    FederationFieldParams(provided: seq<string>, required: seq<string>, external: bool)

  /** The arguments the federation `type` passes on to the base `type`. */
  datatype BaseTypeCall = BaseTypeCall(
    cls: Option<ClassRef>,
    name: Option<string>,
    description: Option<string>,
    federation: FederationTypeParams)

  /** The arguments the federation `field` passes on to the base `field`. */
  datatype BaseFieldCall = BaseFieldCall(
    resolver: Option<ResolverRef>,
    name: Option<string>,
    isSubscription: bool,
    description: Option<string>,
    permissionClasses: Option<seq<PermissionClass>>,
    federation: FederationFieldParams)

  /** Python's `xs or []` for an optional list: `None` and `[]` both give `[]`. */
  function OrEmpty(xs: Option<seq<string>>): seq<string> {
    if xs.None? || xs.value == [] then [] else xs.value
  }

  /** `type`: the keys default to no keys and `extend` to false; everything
      else is passed on unchanged. */
  function Type(cls: Option<ClassRef> := None, name: Option<string> := None,
                description: Option<string> := None, keys: Option<seq<string>> := None,
                extend: bool := false): (r: BaseTypeCall)
    ensures r.cls == cls && r.name == name && r.description == description
    ensures r.federation.keys == keys.GetOr([])
    ensures r.federation.extend == extend
  {
    BaseTypeCall(cls, name, description, FederationTypeParams(OrEmpty(keys), extend))
  }

  /** `field`: `provides` and `requires` default to empty lists and `external`
      to false; everything else is passed on unchanged. */
  function Field(resolver: Option<ResolverRef> := None, name: Option<string> := None,
                 provided: Option<seq<string>> := None, required: Option<seq<string>> := None,
                 external: bool := false, isSubscription: bool := false,
                 description: Option<string> := None,
                 permissionClasses: Option<seq<PermissionClass>> := None): (r: BaseFieldCall)
    ensures r.resolver == resolver && r.name == name && r.isSubscription == isSubscription
    ensures r.description == description && r.permissionClasses == permissionClasses
    ensures r.federation.provided == provided.GetOr([])
    ensures r.federation.required == required.GetOr([])
    ensures r.federation.external == external
  {
    BaseFieldCall(resolver, name, isSubscription, description, permissionClasses,
                  FederationFieldParams(OrEmpty(provided), OrEmpty(required), external))
  }

  // ---------------------------------------------------------------------
  // Definitions, converted types and the `_Entity` union

  /** A `resolve_reference` function of some federated class. */
  datatype ResolveRef = ResolveRef(id: nat)

  /** The definition a converted type was built from. For an object type,
      `resolveReference` is the origin class's `resolve_reference`, `None` when
      the class has none. */
  datatype Definition =
    | TypeDefinition(name: string, federation: FederationTypeParams, resolveReference: Option<ResolveRef>)
    | ScalarDefinition(name: string)
    | EnumDefinition(name: string)
    | UnionDefinition(name: string)

  /** A graphql-core named type, as a tag. */
  datatype NamedType =
    | ObjectType(name: string, description: Option<string>, fields: Dict<GraphQLField>)
    | ScalarType(name: string)
    | UnionType(name: string, types: seq<NamedType>)
    | OtherType(name: string)

  /** A graphql-core field, as a tag. */
  datatype GraphQLField =
      /** `_service: _Service!`, resolving to the printed schema. */
    | ServiceField(serviceType: NamedType)
      /** `sdl: String!` on `_Service`. */
    | SdlField
      /** `_entities(representations: [_Any!]!): [_Entity]!`, resolved by the
          schema's entities resolver. */
    | EntitiesField(entityType: NamedType, anyType: NamedType)
      /** A field of the application's own Query type. */
    | QueryField(id: nat)

  /** An entry of the converter's type map. */
  datatype ConcreteType = ConcreteType(definition: Definition, implementation: NamedType)

  /** `_has_federation_keys`: only an object type's definition can have
      keys, and it has them when its key list is not empty. */
  function HasFederationKeys(definition: Definition): (r: bool)
    ensures !definition.TypeDefinition? ==> !r
    ensures definition.TypeDefinition? ==> (r <==> definition.federation.keys != [])
  {
    definition.TypeDefinition? && |definition.federation.keys| > 0
  }

  /** A class decorated by `type` enters the `_Entity` union exactly when it
      was given a non-empty list of keys. */
  lemma TypeKeysDecideEntity(cls: Option<ClassRef>, name: string, keys: Option<seq<string>>,
                             extend: bool, resolveReference: Option<ResolveRef>)
    ensures HasFederationKeys(TypeDefinition(name, Type(cls, Some(name), None, keys, extend).federation, resolveReference))
        <==> keys.Some? && keys.value != []
  {
  }

  /** The implementations of the keyed entries, in type-map order (the list
      comprehension in `_get_entity_type`). */
  function KeyedImplementations(m: seq<(string, ConcreteType)>): (r: seq<NamedType>)
    ensures |r| <= |m|
    ensures r == [] <==> forall i :: 0 <= i < |m| ==> !HasFederationKeys(m[i].1.definition)
    ensures forall x :: x in r <==>
      exists i :: 0 <= i < |m| && HasFederationKeys(m[i].1.definition) && m[i].1.implementation == x
  {
    if m == [] then []
    else
      var rest := KeyedImplementations(m[1..]);
      assert forall i :: 0 < i < |m| ==> m[i] == m[1..][i - 1];
      if HasFederationKeys(m[0].1.definition) then [m[0].1.implementation] + rest else rest
  }

  /** The union keeps the type map's order: the members contributed by a
      prefix of the map come before those of the rest. */
  lemma {:induction false} KeyedImplementationsAppend(a: seq<(string, ConcreteType)>, b: seq<(string, ConcreteType)>)
    ensures KeyedImplementations(a + b) == KeyedImplementations(a) + KeyedImplementations(b)
  {
    if a != [] {
      assert (a + b)[0] == a[0] && (a + b)[1..] == a[1..] + b;
      KeyedImplementationsAppend(a[1..], b);
      var head := if HasFederationKeys(a[0].1.definition) then [a[0].1.implementation] else [];
      assert KeyedImplementations(a) == head + KeyedImplementations(a[1..]);
      assert KeyedImplementations(a + b) == head + KeyedImplementations(a[1..] + b);
      assert head + (KeyedImplementations(a[1..]) + KeyedImplementations(b))
          == (head + KeyedImplementations(a[1..])) + KeyedImplementations(b);
    } else {
      assert a + b == b;
    }
  }

  const EntityName := "_Entity"

  /** `_get_entity_type`: no union when no entry has keys; otherwise the union
      `_Entity` of the keyed entries' implementations. */
  function GetEntityType(typeMap: Dict<ConcreteType>): (r: Option<NamedType>)
    ensures r.None? <==> forall i :: 0 <= i < |typeMap| ==> !HasFederationKeys(typeMap[i].1.definition)
    ensures r.Some? ==> r.value.UnionType? && r.value.name == EntityName && r.value.types != []
    ensures r.Some? ==> r.value.types == KeyedImplementations(typeMap)
    ensures r.Some? ==> forall x :: x in r.value.types <==>
      exists i :: 0 <= i < |typeMap| && HasFederationKeys(typeMap[i].1.definition) && typeMap[i].1.implementation == x
  {
    var keyed := KeyedImplementations(typeMap);
    if keyed == [] then None else Some(UnionType(EntityName, keyed))
  }

  // ---------------------------------------------------------------------
  // The extended Query type and type map

  const AnyScalar := ScalarType("_Any")
  const ServiceType := ObjectType("_Service", None, Singleton("sdl", SdlField))

  /** The keys the federation puts in front of the Query fields. */
  function FederationFieldKeys(entityType: Option<NamedType>): seq<string> {
    if entityType.Some? then ["_service", "_entities"] else ["_service"]
  }

  /** The Query fields after `_extend_query_type`: `_service` first, then
      `_entities` when there is an entity union, then the original fields in
      their order. Every original field is kept with its own definition, also
      where its name clashes with one of the two added fields. */
  function ExtendedQueryFields(service: GraphQLField, anyType: NamedType, entityType: Option<NamedType>,
                               original: Dict<GraphQLField>): (r: Dict<GraphQLField>)
    ensures Keys(r) == FederationFieldKeys(entityType) + NewKeys(Keys(original), FederationFieldKeys(entityType))
    ensures forall k :: k in Keys(original) ==> Lookup(r, k) == Lookup(original, k)
    ensures "_service" !in Keys(original) ==> Lookup(r, "_service") == Some(service)
    ensures entityType.Some? && "_entities" !in Keys(original) ==>
      Lookup(r, "_entities") == Some(EntitiesField(entityType.value, anyType))
    ensures "_entities" in Keys(r) <==> entityType.Some? || "_entities" in Keys(original)
  {
    var fields := Singleton("_service", service);
    var fields := if entityType.Some? then Put(fields, "_entities", EntitiesField(entityType.value, anyType)) else fields;
    assert Keys(fields) == FederationFieldKeys(entityType);
    UpdateKeys(fields, original);
    Update(fields, original)
  }

  /** The type map after `_extend_query_type`: `_Entity` when there is an
      entity union, then `_Service`, then the new Query type under its name;
      each later assignment wins. */
  function ExtendTypeMap(typeMap: Dict<NamedType>, entityType: Option<NamedType>, serviceType: NamedType,
                         query: NamedType): (r: Dict<NamedType>)
    requires entityType.Some? ==> entityType.value.name == EntityName
    ensures Lookup(r, query.name) == Some(query)
    ensures query.name != "_Service" ==> Lookup(r, "_Service") == Some(serviceType)
    ensures query.name != EntityName ==>
      Lookup(r, EntityName) == if entityType.Some? then entityType else Lookup(typeMap, EntityName)
  {
    var m1 := if entityType.Some? then Put(typeMap, EntityName, entityType.value) else typeMap;
    Put(Put(m1, "_Service", serviceType), query.name, query)
  }

  /** Every other entry of the type map is left as it was, and the existing
      entries keep their order. */
  lemma ExtendTypeMapKeepsOthers(typeMap: Dict<NamedType>, entityType: Option<NamedType>, serviceType: NamedType,
                                 query: NamedType)
    requires entityType.Some? ==> entityType.value.name == EntityName
    ensures var r := ExtendTypeMap(typeMap, entityType, serviceType, query);
      && (forall k :: k != query.name && k != "_Service" && k != EntityName ==> Lookup(r, k) == Lookup(typeMap, k))
      && Keys(typeMap) <= Keys(r)
  {
    var m1 := if entityType.Some? then Put(typeMap, EntityName, entityType.value) else typeMap;
    var m2 := Put(m1, "_Service", serviceType);
    var r := Put(m2, query.name, query);
    assert Keys(typeMap) <= Keys(m1) <= Keys(m2) <= Keys(r);
    forall k | k != query.name && k != "_Service" && k != EntityName
      ensures Lookup(r, k) == Lookup(typeMap, k)
    {
      assert Lookup(r, k) == Lookup(m2, k) == Lookup(m1, k);
    }
  }

  /** The whole type map the federated schema ends with: `_Any` is added by
      `_add_scalars`, then `_extend_query_type` extends the map. The Query
      name is bound to the new Query type, and `_Service`, `_Any` and, when
      keyed types exist, `_Entity` are bound unless the Query's own name takes
      their place. */
  function FederatedTypeMap(typeMap: Dict<NamedType>, entityType: Option<NamedType>, query: NamedType): (r: Dict<NamedType>)
    requires entityType.Some? ==> entityType.value.name == EntityName
    ensures Lookup(r, query.name) == Some(query)
    ensures query.name != "_Service" ==> Lookup(r, "_Service") == Some(ServiceType)
    ensures query.name != "_Any" ==> Lookup(r, "_Any") == Some(AnyScalar)
    ensures query.name != EntityName ==>
      Lookup(r, EntityName) == if entityType.Some? then entityType else Lookup(typeMap, EntityName)
  {
    var m := Put(typeMap, "_Any", AnyScalar);
    ExtendTypeMapKeepsOthers(m, entityType, ServiceType, query);
    ExtendTypeMap(m, entityType, ServiceType, query)
  }

  /** No other entry of the type map changes, and the existing entries keep
      their order. */
  lemma FederatedTypeMapKeepsOthers(typeMap: Dict<NamedType>, entityType: Option<NamedType>, query: NamedType)
    requires entityType.Some? ==> entityType.value.name == EntityName
    ensures var r := FederatedTypeMap(typeMap, entityType, query);
      && (forall k :: k != query.name && k != "_Service" && k != "_Any" && k != EntityName ==>
            Lookup(r, k) == Lookup(typeMap, k))
      && Keys(typeMap) <= Keys(r)
  {
    var m := Put(typeMap, "_Any", AnyScalar);
    ExtendTypeMapKeepsOthers(m, entityType, ServiceType, query);
    var r := ExtendTypeMap(m, entityType, ServiceType, query);
    assert Keys(typeMap) <= Keys(m) <= Keys(r);
    forall k | k != query.name && k != "_Service" && k != "_Any" && k != EntityName
      ensures Lookup(r, k) == Lookup(typeMap, k)
    {
      assert Lookup(r, k) == Lookup(m, k);
    }
  }

  // ---------------------------------------------------------------------
  // The `_entities` resolver

  /** The outside functions the resolver calls: `get_func_args` and the
      application's `resolve_reference` functions. */
  datatype Resolvers = Resolvers(
    funcArgs: ResolveRef -> seq<string>,
    call: (ResolveRef, map<string, Value>) -> Value)

  /** Why resolving a representation raises: it has no `__typename`
      (`KeyError` from `pop`), its type name is not in the type map, or the
      type is not an object type with a `resolve_reference`. */
  datatype ResolveError = MissingTypename | UnknownType(typeName: Value) | NoResolveReference

  /** What resolving one representation does: the dictionary it leaves
      behind and the resolved object or the error. */
  datatype Step = Step(after: map<string, Value>, outcome: Result<Value, ResolveError>)

  function TypeNamed(typeMap: Dict<ConcreteType>, typeName: Value): Option<ConcreteType> {
    if typeName.Str? then Lookup(typeMap, typeName.s) else None
  }

  function ReferenceResolver(t: ConcreteType): Option<ResolveRef> {
    if t.definition.TypeDefinition? then t.definition.resolveReference else None
  }

  /** One iteration of `entities_resolver`: pop `__typename`, look the type
      up, add `info` when the type's `resolve_reference` declares it, and call
      `resolve_reference` with the same dictionary as keyword arguments. */
  function ResolveStep(rep: map<string, Value>, typeMap: Dict<ConcreteType>, info: Value, resolvers: Resolvers): (r: Step)
    ensures "__typename" !in r.after
    ensures r.outcome == Failure(MissingTypename) <==> "__typename" !in rep
  {
    if "__typename" !in rep then Step(rep, Failure(MissingTypename))
    else
      var typeName := rep["__typename"];
      var kwargs := rep - {"__typename"};
      match TypeNamed(typeMap, typeName)
      case None => Step(kwargs, Failure(UnknownType(typeName)))
      case Some(t) =>
        match ReferenceResolver(t)
        case None => Step(kwargs, Failure(NoResolveReference))
        case Some(ref) =>
          var kwargs := if "info" in resolvers.funcArgs(ref) then kwargs["info" := info] else kwargs;
          Step(kwargs, Success(resolvers.call(ref, kwargs)))
  }

  /** What one iteration promises. The representation never keeps its
      `__typename`: a missing one is the `KeyError` and leaves the dictionary
      as it was, and otherwise it is popped whatever follows. Resolution
      succeeds exactly when the name denotes an object type with a
      `resolve_reference`; then that function is called once, with the
      representation's other entries as keyword arguments, plus `info` exactly
      when it declares an `info` parameter. */
  lemma ResolveStepSpec(rep: map<string, Value>, typeMap: Dict<ConcreteType>, info: Value, resolvers: Resolvers)
    ensures var s := ResolveStep(rep, typeMap, info, resolvers);
      && "__typename" !in s.after
      && (s.outcome == Failure(MissingTypename) <==> "__typename" !in rep)
      && ("__typename" !in rep ==> s.after == rep)
      && (s.outcome.Failure? && "__typename" in rep ==> s.after == rep - {"__typename"})
      && (s.outcome.Success? <==>
            "__typename" in rep && TypeNamed(typeMap, rep["__typename"]).Some? &&
            ReferenceResolver(TypeNamed(typeMap, rep["__typename"]).value).Some?)
    ensures var s := ResolveStep(rep, typeMap, info, resolvers);
      s.outcome.Success? ==>
        var ref := ReferenceResolver(TypeNamed(typeMap, rep["__typename"]).value).value;
        var wantsInfo := "info" in resolvers.funcArgs(ref);
        && s.after.Keys == rep.Keys - {"__typename"} + (if wantsInfo then {"info"} else {})
        && (forall k :: k in s.after && k != "info" ==> s.after[k] == rep[k])
        && (wantsInfo ==> s.after["info"] == info)
        && (!wantsInfo && "info" in rep ==> s.after["info"] == rep["info"])
        && s.outcome.value == resolvers.call(ref, s.after)
  {
  }

  /** The resolution step `entities_resolver` takes for each representation
      of a schema whose converter type map is `typeMap`. */
  function ResolverStep(typeMap: Dict<ConcreteType>, info: Value, resolvers: Resolvers): map<string, Value> -> Step {
    rep => ResolveStep(rep, typeMap, info, resolvers)
  }

  /** What resolving a list of representations does: the dictionaries left
      behind and the results or the first error. */
  datatype Resolution = Resolution(after: seq<map<string, Value>>, outcome: Result<seq<Value>, ResolveError>)

  /** `entities_resolver` as a function of the representations: the
      representations are resolved in input order, and the first that fails
      ends the loop with its error, leaving the ones after it untouched.
      ResolvedAll and ResolvedUpTo below state the two outcomes. */
  function ResolveAll(reps: seq<map<string, Value>>, step: map<string, Value> -> Step): (r: Resolution)
    ensures |r.after| == |reps|
    ensures r.outcome.Success? ==> |r.outcome.value| == |reps|
  {
    if reps == [] then Resolution([], Success([]))
    else
      var s := step(reps[0]);
      if s.outcome.Failure? then Resolution([s.after] + reps[1..], Failure(s.outcome.error))
      else
        var rest := ResolveAll(reps[1..], step);
        Resolution([s.after] + rest.after,
                   if rest.outcome.Success? then Success([s.outcome.value] + rest.outcome.value)
                   else Failure(rest.outcome.error))
  }

  /** A representation dictionary, which the resolver changes in place. */
  class Representation {
    var entries: map<string, Value>

    constructor (entries: map<string, Value>)
      ensures this.entries == entries
    {
      this.entries := entries;
    }
  }

  function Entries(reps: seq<Representation>): (r: seq<map<string, Value>>)
    reads set rep | rep in reps
    ensures |r| == |reps| && forall i :: 0 <= i < |reps| ==> r[i] == reps[i].entries
  {
    if reps == [] then [] else [reps[0].entries] + Entries(reps[1..])
  }

  // ---------------------------------------------------------------------
  // The federated schema

  /** The federated schema. `converterTypeMap` is the converter's type map
      (read only here); `typeMap` and `queryType` are the underlying
      graphql-core schema's, which the constructor extends. */
  class Schema {
    const converterTypeMap: Dict<ConcreteType>
    var typeMap: Dict<NamedType>
    var queryType: NamedType
    var anyType: NamedType
    var serviceType: NamedType
    var serviceField: GraphQLField

    /** `__init__`: starting from the base schema's type map and Query type,
        adds the scalars, creates the service field and extends the Query. */
    constructor (converterTypeMap: Dict<ConcreteType>, typeMap: Dict<NamedType>, queryType: NamedType)
      requires queryType.ObjectType?
      ensures this.converterTypeMap == converterTypeMap
      ensures anyType == AnyScalar && serviceType == ServiceType && serviceField == ServiceField(ServiceType)
      ensures this.queryType == ObjectType(queryType.name, queryType.description,
        ExtendedQueryFields(ServiceField(ServiceType), AnyScalar, GetEntityType(converterTypeMap), queryType.fields))
      ensures this.typeMap == FederatedTypeMap(typeMap, GetEntityType(converterTypeMap), this.queryType)
    {
      this.converterTypeMap := converterTypeMap;
      this.typeMap := typeMap;
      this.queryType := queryType;
      new;
      AddScalars();
      CreateServiceField();
      ExtendQueryType();
    }

    /** `_add_scalars`. */
    method AddScalars()
      modifies this
      ensures anyType == AnyScalar
      ensures typeMap == Put(old(typeMap), "_Any", AnyScalar)
      ensures queryType == old(queryType) && serviceType == old(serviceType) && serviceField == old(serviceField)
    {
      anyType := ScalarType("_Any");
      typeMap := Put(typeMap, "_Any", anyType);
    }

    /** `_create_service_field`. */
    method CreateServiceField()
      modifies this
      ensures serviceType == ServiceType && serviceField == ServiceField(ServiceType)
      ensures typeMap == old(typeMap) && queryType == old(queryType) && anyType == old(anyType)
    {
      serviceType := ObjectType("_Service", None, Singleton("sdl", SdlField));
      serviceField := ServiceField(serviceType);
    }

    /** `_extend_query_type`. */
    method ExtendQueryType()
      requires queryType.ObjectType?
      modifies this
      ensures queryType == ObjectType(old(queryType).name, old(queryType).description,
        ExtendedQueryFields(serviceField, anyType, GetEntityType(converterTypeMap), old(queryType).fields))
      ensures typeMap == ExtendTypeMap(old(typeMap), GetEntityType(converterTypeMap), serviceType, queryType)
      ensures anyType == old(anyType) && serviceType == old(serviceType) && serviceField == old(serviceField)
    {
      var fields := Singleton("_service", serviceField);
      var entityType := GetEntityType(converterTypeMap);
      if entityType.Some? {
        typeMap := Put(typeMap, entityType.value.name, entityType.value);
        fields := Put(fields, "_entities", EntitiesField(entityType.value, anyType));
      }
      var query := queryType;
      fields := Update(fields, query.fields);
      queryType := ObjectType(query.name, query.description, fields);
      typeMap := Put(typeMap, "_Service", serviceType);
      typeMap := Put(typeMap, queryType.name, queryType);
    }

    /** The body of the `entities_resolver` loop for one representation:
        pops `__typename`, looks the type up in the converter's type map,
        adds `info` when `resolve_reference` declares it and calls
        `resolve_reference` with the dictionary as keyword arguments. */
    method ResolveRepresentation(info: Value, rep: Representation, resolvers: Resolvers)
      returns (outcome: Result<Value, ResolveError>)
      modifies rep
      ensures ResolveStep(old(rep.entries), converterTypeMap, info, resolvers) == Step(rep.entries, outcome)
    {
      if "__typename" !in rep.entries {
        return Failure(MissingTypename);
      }
      var typeName := rep.entries["__typename"];
      rep.entries := rep.entries - {"__typename"};
      var t := TypeNamed(converterTypeMap, typeName);
      if t.None? {
        return Failure(UnknownType(typeName));
      }
      var resolveReference := ReferenceResolver(t.value);
      if resolveReference.None? {
        return Failure(NoResolveReference);
      }
      var funcArgs := resolvers.funcArgs(resolveReference.value);
      if "info" in funcArgs {
        rep.entries := rep.entries["info" := info];
      }
      outcome := Success(resolvers.call(resolveReference.value, rep.entries));
    }

    /** The loop of `entities_resolver`: resolves the representations in
        order, changing each dictionary in place, until one raises. `stop`
        is the number resolved; a failure is that of representation `stop`,
        and every representation after it is untouched. */
    method ResolveEach(info: Value, representations: seq<Representation>, resolvers: Resolvers)
      returns (results: seq<Value>, failure: Option<ResolveError>, ghost stop: nat)
      requires forall i, j :: 0 <= i < j < |representations| ==> representations[i] != representations[j]
      modifies set rep | rep in representations
      ensures stop <= |representations| && |results| == stop
      ensures failure.None? ==> stop == |representations|
      ensures failure.Some? ==> stop < |representations|
      ensures failure.Some? ==>
        ResolveStep(old(representations[stop].entries), converterTypeMap, info, resolvers)
          == Step(representations[stop].entries, Failure(failure.value))
      ensures forall k :: 0 <= k < stop ==>
        ResolveStep(old(representations[k].entries), converterTypeMap, info, resolvers)
          == Step(representations[k].entries, Success(results[k]))
      ensures forall k :: stop < k < |representations| ==> representations[k].entries == old(representations[k].entries)
    {
      results := [];
      var i := 0;
      while i < |representations|
        invariant 0 <= i <= |representations| && |results| == i
        invariant forall k :: 0 <= k < i ==>
          ResolveStep(old(representations[k].entries), converterTypeMap, info, resolvers)
            == Step(representations[k].entries, Success(results[k]))
        invariant forall k :: i <= k < |representations| ==> representations[k].entries == old(representations[k].entries)
      {
        var outcome := ResolveRepresentation(info, representations[i], resolvers);
        if outcome.Failure? {
          return results, Some(outcome.error), i;
        }
        results := results + [outcome.value];
        i := i + 1;
      }
      return results, None, i;
    }

    /** `entities_resolver`: resolves the representations in order, changing
        each representation dictionary in place, and stops at the first that
        raises. */
    method EntitiesResolver(info: Value, representations: seq<Representation>, resolvers: Resolvers)
      returns (r: Result<seq<Value>, ResolveError>)
      requires forall i, j :: 0 <= i < j < |representations| ==> representations[i] != representations[j]
      modifies set rep | rep in representations
      ensures var res := ResolveAll(old(Entries(representations)), ResolverStep(converterTypeMap, info, resolvers));
        && r == res.outcome
        && forall k :: 0 <= k < |representations| ==> representations[k].entries == res.after[k]
    {
      ghost var before := Entries(representations);
      ghost var step := ResolverStep(converterTypeMap, info, resolvers);
      var results, failure, stop := ResolveEach(info, representations, resolvers);
      ghost var after := Entries(representations);
      if failure.Some? {
        r := Failure(failure.value);
        ResolvedUpTo(before, step, stop, after, r);
      } else {
        r := Success(results);
        ResolvedAll(before, step, after, results);
      }
    }
  }

  /** When every representation resolves, the result is the list of their
      results, in input order, and every dictionary is left as its own step
      left it. */
  lemma {:induction false} ResolvedAll(reps: seq<map<string, Value>>, step: map<string, Value> -> Step,
                                       after: seq<map<string, Value>>, results: seq<Value>)
    requires |after| == |reps| == |results|
    requires forall k :: 0 <= k < |reps| ==>
      step(reps[k]) == Step(after[k], Success(results[k]))
    ensures ResolveAll(reps, step) == Resolution(after, Success(results))
  {
    if reps != [] {
      assert step(reps[0]) == Step(after[0], Success(results[0]));
      ResolvedAll(reps[1..], step, after[1..], results[1..]);
      assert after == [after[0]] + after[1..];
      assert results == [results[0]] + results[1..];
    }
  }

  /** When representation `i` is the first to fail, the outcome is its error,
      the dictionaries up to it are left as their steps left them, and the
      ones after it are untouched. */
  lemma {:induction false} ResolvedUpTo(reps: seq<map<string, Value>>, step: map<string, Value> -> Step,
                                        i: nat, after: seq<map<string, Value>>, r: Result<seq<Value>, ResolveError>)
    requires i < |reps| == |after|
    requires forall k :: 0 <= k < i ==> step(reps[k]).outcome.Success?
    requires forall k :: 0 <= k <= i ==> after[k] == step(reps[k]).after
    requires forall k :: i < k < |reps| ==> after[k] == reps[k]
    requires r.Failure? && step(reps[i]).outcome == Failure(r.error)
    ensures ResolveAll(reps, step) == Resolution(after, r)
  {
    assert after[0] == step(reps[0]).after;
    if i == 0 {
      assert after == [after[0]] + reps[1..];
    } else {
      assert step(reps[0]).outcome.Success?;
      ResolvedUpTo(reps[1..], step, i - 1, after[1..], r);
      assert after == [after[0]] + after[1..];
    }
  }
}
