/** `SchemaBuilder`: the `schema { … }` section, naming the root operation types
    by class, and the final assembly of the schema from the build context. */
module SchemaBuilders {
  import opened Common
  import opened Manifest
  import opened SchemaTypes
  import opened BuilderContexts

  /** The classes the three root setters recorded. */
  datatype RootClasses = RootClasses(query: Option<HostClass>, mutation: Option<HostClass>, subscription: Option<HostClass>)

  /** What the context's schema builder holds: the roots set so far, the
      additional types and directives, and the registry the context has collected;
      building it yields exactly this schema. */
  function Pending(ctx: BuilderContext): GSchema
    reads ctx
  {
    GSchema(ctx.query, ctx.mutation, ctx.subscription, ctx.additionalTypes, ctx.additionalDirectives, ctx.codeRegistry)
  }

  /** `Scalars.GraphQLBoolean` … `Scalars.GraphQLID`, in the order `build` adds them. */
  function BuiltInScalars(): (r: seq<GType>)
    ensures |r| == 11
    ensures forall i :: 0 <= i < 11 ==> r[i] == BuiltInScalar(BuiltInScalarNames()[i])
  {
    [BuiltInScalar("Boolean"), BuiltInScalar("Byte"), BuiltInScalar("Short"), BuiltInScalar("Int"),
     BuiltInScalar("Long"), BuiltInScalar("BigInteger"), BuiltInScalar("Float"), BuiltInScalar("BigDecimal"),
     BuiltInScalar("Char"), BuiltInScalar("String"), BuiltInScalar("ID")]
  }

  /** The root type the branch of `operation` installs. Every branch looks up the
      name of the query class: `query!!` on an unset query fails, a name no built
      type carries fails, and so does a type that is not an object type. */
  function RootOf(operation: string, query: Option<HostClass>, types: map<string, GType>): (r: Result<GType>)
    ensures query.None? ==> r == Failure(NullDereference)
    ensures query.Some? && query.value.simpleName !in types ==> r == Failure(UndefinedType(query.value.simpleName))
    ensures query.Some? && query.value.simpleName in types && !types[query.value.simpleName].ObjectType? ==>
      r == Failure(NotAnObjectType(operation, query.value.simpleName))
    ensures r.Success? <==> query.Some? && query.value.simpleName in types && types[query.value.simpleName].ObjectType?
    ensures r.Success? ==> r.value == types[query.value.simpleName]
  {
    if query.None? then Failure(NullDereference)
    else if query.value.simpleName !in types then Failure(UndefinedType(query.value.simpleName))
    else if !types[query.value.simpleName].ObjectType? then Failure(NotAnObjectType(operation, query.value.simpleName))
    else Success(types[query.value.simpleName])
  }

  /** One root branch: when its class is set, the root becomes the looked-up type;
      otherwise the root already on the schema builder stays. */
  function RootBranch(operation: string, isSet: bool, query: Option<HostClass>, types: map<string, GType>, current: Option<GType>): (r: Result<Option<GType>>)
    ensures !isSet ==> r == Success(current)
    ensures isSet ==> r.Success? == RootOf(operation, query, types).Success?
    ensures isSet && r.Failure? ==> r.error == RootOf(operation, query, types).error
    ensures isSet && r.Success? ==> r.value == Some(RootOf(operation, query, types).value)
  {
    if !isSet then Success(current)
    else
      var t :- RootOf(operation, query, types);
      Success(Some(t))
  }

  /** `build`: the query, mutation and subscription branches in that order, the
      first failure ending the build; then the eleven built-in scalars are added
      and the collected code registry is attached. */
  function SchemaOf(roots: RootClasses, types: map<string, GType>, pending: GSchema): (r: Result<GSchema>)
  {
    var q :- RootBranch("Query", roots.query.Some?, roots.query, types, pending.query);
    var m :- RootBranch("Mutation", roots.mutation.Some?, roots.query, types, pending.mutation);
    var s :- RootBranch("Subscription", roots.subscription.Some?, roots.query, types, pending.subscription);
    Success(GSchema(q, m, s, pending.additionalTypes + BuiltInScalars(), pending.directives, pending.codeRegistry))
  }

  /** The query class names a built object type. */
  predicate QueryResolves(roots: RootClasses, types: map<string, GType>)
  {
    roots.query.Some? && roots.query.value.simpleName in types && types[roots.query.value.simpleName].ObjectType?
  }

  /** The build succeeds exactly when no root is set, or the query class names a
      built object type; a mutation or subscription root alone is never enough. */
  lemma SchemaSucceedsIff(roots: RootClasses, types: map<string, GType>, pending: GSchema)
    ensures SchemaOf(roots, types, pending).Success? <==>
      ((roots.query.Some? || roots.mutation.Some? || roots.subscription.Some?) ==> QueryResolves(roots, types))
  {
  }

  /** The query branch's errors come first: with the query class set, a failed
      build reports what the query lookup reports. */
  lemma QueryErrorFirst(roots: RootClasses, types: map<string, GType>, pending: GSchema)
    requires roots.query.Some? && !QueryResolves(roots, types)
    ensures SchemaOf(roots, types, pending) == Failure(RootOf("Query", roots.query, types).error)
  {
  }

  /** With the query class set, a successful build's query root is the type
      registered under the class's simple name. */
  lemma QueryRootIsLookedUp(roots: RootClasses, types: map<string, GType>, pending: GSchema)
    requires roots.query.Some? && SchemaOf(roots, types, pending).Success?
    ensures roots.query.value.simpleName in types
    ensures SchemaOf(roots, types, pending).value.query == Some(types[roots.query.value.simpleName])
  {
  }

  /** A mutation root without a query class fails on the query's null name. */
  lemma MutationWithoutQueryFails(roots: RootClasses, types: map<string, GType>, pending: GSchema)
    requires roots.query.None? && roots.mutation.Some?
    ensures SchemaOf(roots, types, pending) == Failure(NullDereference)
  {
  }

  /** The mutation root, when set, is the query's type, whatever class was given
      for it. */
  lemma MutationRootIsQueryRoot(roots: RootClasses, types: map<string, GType>, pending: GSchema)
    requires roots.mutation.Some? && SchemaOf(roots, types, pending).Success?
    ensures SchemaOf(roots, types, pending).value.mutation == SchemaOf(roots, types, pending).value.query
    ensures SchemaOf(roots, types, pending).value.mutation == Some(types[roots.query.value.simpleName])
  {
  }

  /** Every successful build adds the same eleven built-in scalars after the types
      already added, whichever roots are set, and keeps the directives and the
      collected registry. */
  lemma BuiltInsAlwaysAdded(roots: RootClasses, types: map<string, GType>, pending: GSchema)
    requires SchemaOf(roots, types, pending).Success?
    ensures SchemaOf(roots, types, pending).value.additionalTypes == pending.additionalTypes + BuiltInScalars()
    ensures forall n :: n in BuiltInScalarNames() ==> BuiltInScalar(n) in SchemaOf(roots, types, pending).value.additionalTypes
    ensures SchemaOf(roots, types, pending).value.directives == pending.directives
    ensures SchemaOf(roots, types, pending).value.codeRegistry == pending.codeRegistry
  {
    var added := SchemaOf(roots, types, pending).value.additionalTypes;
    forall n | n in BuiltInScalarNames()
      ensures BuiltInScalar(n) in added
    {
      var i :| 0 <= i < 11 && BuiltInScalarNames()[i] == n;
      assert added[|pending.additionalTypes| + i] == BuiltInScalar(n);
    }
  }

  /** Without a subscription class the subscription root is left as it was. */
  lemma UnsetSubscriptionUntouched(roots: RootClasses, types: map<string, GType>, pending: GSchema)
    requires roots.subscription.None? && SchemaOf(roots, types, pending).Success?
    ensures SchemaOf(roots, types, pending).value.subscription == pending.subscription
  {
  }

  class SchemaBuilder {
    var query: Option<HostClass>
    var mutation: Option<HostClass>
    /** Read by `build`, but no setter writes it. */
    var subscription: Option<HostClass>

    constructor ()
      ensures query == None && mutation == None && subscription == None
    {
      query := None;
      mutation := None;
      subscription := None;
    }

    function Roots(): RootClasses
      reads this
    {
      RootClasses(query, mutation, subscription)
    }

    /** `query(type)`. */
    method Query(c: HostClass)
      modifies this`query
      ensures query == Some(c)
    {
      query := Some(c);
    }

    /** `mutation(type)`. */
    method Mutation(c: HostClass)
      modifies this`mutation
      ensures mutation == Some(c)
    {
      mutation := Some(c);
    }

    /** `subscription(type)`: writes the mutation class; the subscription class
        stays as it was. */
    method Subscription(c: HostClass)
      modifies this`mutation
      ensures mutation == Some(c)
    {
      mutation := Some(c);
    }

    /** The eleven `definition.additionalType(Scalars.…)` calls. */
    static method AddBuiltInScalars(ctx: BuilderContext)
      modifies ctx`additionalTypes
      ensures ctx.additionalTypes == old(ctx.additionalTypes) + BuiltInScalars()
    {
      ctx.additionalTypes := ctx.additionalTypes + [BuiltInScalar("Boolean")];
      ctx.additionalTypes := ctx.additionalTypes + [BuiltInScalar("Byte")];
      ctx.additionalTypes := ctx.additionalTypes + [BuiltInScalar("Short")];
      ctx.additionalTypes := ctx.additionalTypes + [BuiltInScalar("Int")];
      ctx.additionalTypes := ctx.additionalTypes + [BuiltInScalar("Long")];
      ctx.additionalTypes := ctx.additionalTypes + [BuiltInScalar("BigInteger")];
      ctx.additionalTypes := ctx.additionalTypes + [BuiltInScalar("Float")];
      ctx.additionalTypes := ctx.additionalTypes + [BuiltInScalar("BigDecimal")];
      ctx.additionalTypes := ctx.additionalTypes + [BuiltInScalar("Char")];
      ctx.additionalTypes := ctx.additionalTypes + [BuiltInScalar("String")];
      ctx.additionalTypes := ctx.additionalTypes + [BuiltInScalar("ID")];
    }

    /** `build(context)`: installs the roots on the context's schema builder, adds
        the built-in scalars, attaches the code registry and builds. A failed root
        check returns before any scalar is added or any registry attached. */
    method Build(ctx: BuilderContext) returns (r: Result<GSchema>)
      modifies ctx`query, ctx`mutation, ctx`subscription, ctx`additionalTypes, ctx`attachedRegistry
      ensures r == SchemaOf(Roots(), old(ctx.types), old(Pending(ctx)))
      ensures r.Success? ==> Pending(ctx) == r.value && ctx.attachedRegistry == Some(ctx.codeRegistry)
      ensures r.Failure? ==> ctx.additionalTypes == old(ctx.additionalTypes) && ctx.attachedRegistry == old(ctx.attachedRegistry)
    {
      var q :- RootBranch("Query", query.Some?, query, ctx.types, ctx.query);
      ctx.query := q;
      var m :- RootBranch("Mutation", mutation.Some?, query, ctx.types, ctx.mutation);
      ctx.mutation := m;
      var s :- RootBranch("Subscription", subscription.Some?, query, ctx.types, ctx.subscription);
      ctx.subscription := s;
      AddBuiltInScalars(ctx);
      ctx.attachedRegistry := Some(ctx.codeRegistry);
      r := Success(Pending(ctx));
    }
  }
}
