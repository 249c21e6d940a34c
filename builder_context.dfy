/** `GraphQLBuilderContext`: the state one build pass threads through every
    builder. It folds together the schema under construction (`schema`), the code
    registry builder (`codeRegistry`), the runtime wiring the interface builder
    writes to, and the table of built types by name (`types`). */
module BuilderContexts {
  import opened Common
  import opened SchemaTypes

  class BuilderContext {
    /** `types`: the built types by name, for the root lookups. */
    var types: map<string, GType>
    /** `schema.additionalType(…)` calls, in order. */
    var additionalTypes: seq<GType>
    /** `schema.additionalDirective(…)` calls, in order. */
    var additionalDirectives: seq<GDirective>
    /** The roots set on the schema builder. */
    var query: Option<GType>
    var mutation: Option<GType>
    var subscription: Option<GType>
    /** The data fetchers registered so far. */
    var codeRegistry: CodeRegistry
    /** The code registry attached to the schema builder, once built. */
    var attachedRegistry: Option<CodeRegistry>
    /** Type resolvers of the runtime wiring, by type name. */
    var typeWiring: map<string, TypeResolver>

    constructor ()
      ensures types == map[] && additionalTypes == [] && additionalDirectives == []
      ensures query == None && mutation == None && subscription == None
      ensures codeRegistry == EmptyRegistry() && attachedRegistry == None && typeWiring == map[]
    {
      types := map[];
      additionalTypes := [];
      additionalDirectives := [];
      query := None;
      mutation := None;
      subscription := None;
      codeRegistry := EmptyRegistry();
      attachedRegistry := None;
      typeWiring := map[];
    }
  }
}
