/** The records graphql-java builds from the DSL, reduced to plain values: types,
    fields, arguments, enum values, directives, the code registry and the schema. */
module SchemaTypes {
  import opened Common
  import opened Values
  import opened Utils
  import opened DirectiveLocations

  /** A caller-supplied closure (resolver, serializer or deserializer), known
      only by its identity. */
  datatype FnId = FnId(id: nat)

  /** `GraphQLArgument`: the type is a reference to a type name; `value` is the
      bound value of a directive application and null for a declaration. */
  datatype GArgument = GArgument(
    name: string,
    typeRef: string,
    description: Option<string>,
    defaultValue: Option<RValue>,
    value: RValue)

  /** `GraphQLFieldDefinition` with a type reference by name. */
  datatype GField = GField(
    name: string,
    typeRef: string,
    description: Option<string>,
    arguments: seq<GArgument>)

  /** `GraphQLInputObjectField`. */
  datatype GInputField = GInputField(
    name: string,
    typeRef: string,
    description: Option<string>,
    defaultValue: Option<RValue>)

  /** `GraphQLEnumValueDefinition`. */
  datatype GEnumValue = GEnumValue(name: string, description: Option<string>)

  /** The coercion of a scalar: one of graphql-java's own, or the DSL's wrapper
      around the caller's serializer and deserializer. */
  datatype Coercing = BuiltInCoercing | UserCoercing(serializer: FnId, deserializer: FnId)

  /** The named types a schema holds. */
  datatype GType =
    | ScalarType(name: string, description: Option<string>, coercing: Coercing)
    | EnumType(name: string, description: Option<string>, values: seq<GEnumValue>)
    | ObjectType(name: string, description: Option<string>, interfaces: seq<string>, fields: seq<GField>)
    | InterfaceType(name: string, description: Option<string>, fields: seq<GField>)
    | UnionType(name: string, description: Option<string>, members: seq<string>)
    | InputObjectType(name: string, description: Option<string>, inputFields: seq<GInputField>)

  /** `GraphQLDirective`: graphql-java keeps the valid locations in an enum set. */
  datatype GDirective = GDirective(
    name: string,
    description: Option<string>,
    locations: set<IntrospectionLocation>,
    arguments: seq<GArgument>)

  /** The only type resolver the DSL installs: look the object type up by the
      simple name of the runtime value's class. */
  datatype TypeResolver = ByRuntimeClassName

  /** `GraphQLCodeRegistry`: the data fetchers by field coordinates. */
  datatype CodeRegistry = CodeRegistry(dataFetchers: map<FieldCoordinates, FnId>)

  function EmptyRegistry(): CodeRegistry
  {
    CodeRegistry(map[])
  }

  /** `GraphQLSchema` as assembled by the DSL. */
  datatype GSchema = GSchema(
    query: Option<GType>,
    mutation: Option<GType>,
    subscription: Option<GType>,
    additionalTypes: seq<GType>,
    directives: seq<GDirective>,
    codeRegistry: CodeRegistry)

  /** graphql-java's built-in scalars, in the order `SchemaBuilder.build` adds them. */
  function BuiltInScalarNames(): (r: seq<string>)
    ensures |r| == 11
  {
    ["Boolean", "Byte", "Short", "Int", "Long", "BigInteger", "Float", "BigDecimal", "Char", "String", "ID"]
  }

  /** The `Scalars.GraphQL…` constant of the given name. */
  function BuiltInScalar(name: string): GType
  {
    ScalarType(name, None, BuiltInCoercing)
  }

  /** `context.types[type.name] = type` for each type in turn: a later type of the
      same name replaces an earlier one. */
  function TypesByName(ts: seq<GType>): (m: map<string, GType>)
    ensures forall t :: t in ts ==> t.name in m
    ensures forall n :: n in m ==> m[n] in ts && m[n].name == n
  {
    if |ts| == 0 then map[]
    else
      var init := ts[..|ts| - 1];
      var m := TypesByName(init);
      assert forall t :: t in init ==> t in ts;
      m[ts[|ts| - 1].name := ts[|ts| - 1]]
  }

  /** The type a name maps to is the last type of that name in the list. */
  lemma {:induction false} TypesByNameLastWins(ts: seq<GType>, i: nat)
    requires i < |ts| && forall j :: i < j < |ts| ==> ts[j].name != ts[i].name
    ensures ts[i].name in TypesByName(ts) && TypesByName(ts)[ts[i].name] == ts[i]
  {
    if i < |ts| - 1 {
      TypesByNameLastWins(ts[..|ts| - 1], i);
      TypesByNameStep(ts, ts[i].name);
    }
  }

  /** Adding a type leaves the entries of other names as they were. */
  lemma TypesByNameStep(ts: seq<GType>, n: string)
    requires |ts| > 0 && ts[|ts| - 1].name != n && n in TypesByName(ts[..|ts| - 1])
    ensures n in TypesByName(ts) && TypesByName(ts)[n] == TypesByName(ts[..|ts| - 1])[n]
  {
  }
}
