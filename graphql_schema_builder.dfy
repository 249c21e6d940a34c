/** `GraphQLSchemaBuilder`: the DSL's entry point. It registers type builders of
    six kinds under one namespace, directive builders under another, and at most
    one schema section, then builds them all into a schema. */
module GraphQLSchemaBuilders {
  import opened Common
  import opened OrderedMaps
  import opened Utils
  import opened SchemaTypes
  import opened FieldBuilders
  import opened BuilderContexts
  import opened ObjectTypeBuilders
  import opened InterfaceTypeBuilders
  import opened UnionTypeBuilders
  import opened ScalarTypeBuilders
  import opened EnumTypeBuilders
  import opened InputTypeBuilders
  import opened DirectiveTypeBuilders
  import opened SchemaBuilders

  /** An entry of `typeDefinitions`: a builder of one of the six kinds. */
  datatype TypeBuilderRef =
    | ScalarRef(scalar: ScalarTypeBuilder)
    | ObjectRef(object: ObjectTypeBuilder)
    | InterfaceRef(iface: InterfaceTypeBuilder)
    | UnionRef(union: UnionTypeBuilder)
    | EnumRef(enumeration: EnumTypeBuilder)
    | InputRef(input: InputTypeBuilder)

  /** The objects a type builder's build reads. */
  ghost function ReprOf(ref: TypeBuilderRef): set<object>
  {
    match ref
    case ScalarRef(b) => {b}
    case ObjectRef(b) => b.Repr
    case InterfaceRef(b) => b.Repr
    case UnionRef(b) => {b}
    case EnumRef(b) => b.Repr
    case InputRef(b) => b.Repr
  }

  ghost predicate ValidRef(ref: TypeBuilderRef)
  {
    match ref
    case ScalarRef(_) => true
    case ObjectRef(b) => b.Valid()
    case InterfaceRef(b) => b.Valid()
    case UnionRef(_) => true
    case EnumRef(b) => b.Valid()
    case InputRef(b) => b.Valid()
  }

  /** What building one type builder gives: the type or the error, and the fields
      whose resolvers it registers in the code registry. */
  datatype TypeSpec = TypeSpec(built: Result<GType>, fields: seq<FieldState>)

  /** The outcome of `build` for a type builder in its current state. */
  function SpecOf(ref: TypeBuilderRef): TypeSpec
    requires ValidRef(ref)
    reads ReprOf(ref)
  {
    match ref
    case ScalarRef(b) => TypeSpec(ScalarOf(b.State()), [])
    case ObjectRef(b) => TypeSpec(Success(ObjectType(b.host.simpleName, b.description, [], FieldsFrom(b.FieldStates()))), b.FieldStates())
    case InterfaceRef(b) => TypeSpec(Success(InterfaceType(b.host.simpleName, b.description, FieldsFrom(b.FieldStates()))), b.FieldStates())
    case UnionRef(b) => TypeSpec(Success(UnionType(b.name, b.description, MemberNames(b.types))), [])
    case EnumRef(b) => TypeSpec(Success(EnumType(b.host.simpleName, b.description, b.Values())), [])
    case InputRef(b) => TypeSpec(Success(InputObjectType(b.host.simpleName, b.description, b.InputFields())), [])
  }

  /** `addType` and `directive`: a key already present is an error and changes
      nothing; otherwise the one new entry goes to the end of the order. */
  function Register<V>(m: OMap<string, V>, key: string, v: V, err: Error): (r: Result<OMap<string, V>>)
    requires m.Valid()
    ensures r.Failure? <==> key in m.entries
    ensures r.Failure? ==> r.error == err
    ensures r.Success? ==> r.value.Valid() && r.value.keys == m.keys + [key] && r.value.entries == m.entries[key := v]
  {
    if key in m.entries then Failure(err) else Success(m.Put(key, v))
  }

  /** A registering call returned `r` and left the table `after`, as `Register` says. */
  ghost predicate RegisteredAs<V>(before: OMap<string, V>, key: string, v: V, err: Error, r: Result<()>, after: OMap<string, V>)
    requires before.Valid()
  {
    match Register(before, key, v, err)
    case Success(m) => r == Success(()) && after == m
    case Failure(e) => r == Failure(e) && after == before
  }

  /** One namespace: once a name is registered, a second registration under it
      fails, whichever kinds of builder the two are. */
  lemma SecondRegistrationFails<V>(m: OMap<string, V>, key: string, v: V, w: V, err: Error)
    requires m.Valid() && Register(m, key, v, err).Success?
    ensures Register(Register(m, key, v, err).value, key, w, err) == Failure(err)
  {
  }

  /** A registration keeps every entry already there, in its place. */
  lemma RegistrationKeepsOthers<V>(m: OMap<string, V>, key: string, v: V, err: Error, k: string)
    requires m.Valid() && Register(m, key, v, err).Success? && k in m.entries
    ensures k != key
    ensures Register(m, key, v, err).value.entries[k] == m.entries[k]
    ensures Register(m, key, v, err).value.keys[..|m.keys|] == m.keys
  {
  }

  /** Directives are told apart by class name, not by directive name: classes
      whose names differ only in the case of the first letter both register,
      although they give the same directive name. */
  lemma CaseVariantDirectivesBothRegister<V>(m: OMap<string, V>, upper: string, lower: string, v: V, w: V)
    requires m.Valid() && upper !in m.entries && lower !in m.entries
    requires |upper| > 0 && |upper| == |lower| && upper[1..] == lower[1..]
    requires ToLower(upper[0]) == lower[0] && upper[0] != lower[0]
    ensures Register(m, upper, v, DuplicateDirective(upper)).Success?
    ensures Register(Register(m, upper, v, DuplicateDirective(upper)).value, lower, w, DuplicateDirective(lower)).Success?
    ensures DirectiveNameFrom(upper) == DirectiveNameFrom(lower)
  {
    DirectiveNameIgnoresFirstLetterCase(upper, lower);
    assert upper != lower by {
      assert upper[0] != lower[0];
    }
  }

  /** The types pass of `build`: each builder in turn, the built types appended
      to the schema's additional types, its resolvers registered; the first
      failing builder ends the build. */
  function TypesPass(reg: CodeRegistry, specs: seq<TypeSpec>): Result<(seq<GType>, CodeRegistry)>
  {
    if |specs| == 0 then Success(([], reg))
    else
      var before :- TypesPass(reg, specs[..|specs| - 1]);
      var t :- specs[|specs| - 1].built;
      Success((before.0 + [t], RegisterFetchers(before.1, specs[|specs| - 1].fields)))
  }

  /** The fields of every builder, in order. */
  function AllFields(specs: seq<TypeSpec>): seq<FieldState>
  {
    if |specs| == 0 then [] else AllFields(specs[..|specs| - 1]) + specs[|specs| - 1].fields
  }

  /** Registering two lists of fields one after the other is registering their
      concatenation. */
  lemma {:induction false} RegisterFetchersAppend(reg: CodeRegistry, a: seq<FieldState>, b: seq<FieldState>)
    ensures RegisterFetchers(RegisterFetchers(reg, a), b) == RegisterFetchers(reg, a + b)
    decreases |b|
  {
    if |b| > 0 {
      RegisterFetchersAppend(reg, a, b[..|b| - 1]);
      assert (a + b)[..|a + b| - 1] == a + b[..|b| - 1];
    } else {
      assert a + b == a;
    }
  }

  /** The types pass succeeds exactly when every builder does; it then yields one
      type per builder, in order, and the registry holding every builder's
      resolvers in order. A failure reports the first failing builder's error. */
  lemma {:induction false} TypesPassOutcome(reg: CodeRegistry, specs: seq<TypeSpec>)
    ensures TypesPass(reg, specs).Success? <==> forall i :: 0 <= i < |specs| ==> specs[i].built.Success?
    ensures TypesPass(reg, specs).Success? ==>
      |TypesPass(reg, specs).value.0| == |specs|
      && (forall i :: 0 <= i < |specs| ==> TypesPass(reg, specs).value.0[i] == specs[i].built.value)
      && TypesPass(reg, specs).value.1 == RegisterFetchers(reg, AllFields(specs))
    ensures TypesPass(reg, specs).Failure? ==>
      exists k :: 0 <= k < |specs| && specs[k].built.Failure? && TypesPass(reg, specs).error == specs[k].built.error
        && forall j :: 0 <= j < k ==> specs[j].built.Success?
  {
    if |specs| > 0 {
      var init := specs[..|specs| - 1];
      var last := specs[|specs| - 1];
      TypesPassOutcome(reg, init);
      assert forall i :: 0 <= i < |init| ==> init[i] == specs[i];
      if TypesPass(reg, init).Success? && last.built.Success? {
        RegisterFetchersAppend(reg, AllFields(init), last.fields);
      } else if TypesPass(reg, init).Success? {
        assert specs[|specs| - 1].built.Failure?;
      }
    }
  }

  /** A types pass that fails on a prefix fails the same way on the whole list. */
  lemma {:induction false} TypesPassFailurePersists(reg: CodeRegistry, specs: seq<TypeSpec>, n: nat)
    requires n <= |specs| && TypesPass(reg, specs[..n]).Failure?
    ensures TypesPass(reg, specs) == Failure(TypesPass(reg, specs[..n]).error)
    decreases |specs|
  {
    if n == |specs| {
      assert specs[..n] == specs;
    } else {
      var init := specs[..|specs| - 1];
      assert init[..n] == specs[..n];
      TypesPassFailurePersists(reg, init, n);
    }
  }

  /** One more type builder: its type and resolvers are added, or its error ends
      the whole pass. */
  lemma TypesPassStep(reg: CodeRegistry, specs: seq<TypeSpec>, i: nat)
    requires i < |specs| && TypesPass(reg, specs[..i]).Success?
    ensures specs[i].built.Success? ==>
      TypesPass(reg, specs[..i + 1]) ==
        Success((TypesPass(reg, specs[..i]).value.0 + [specs[i].built.value], RegisterFetchers(TypesPass(reg, specs[..i]).value.1, specs[i].fields)))
    ensures specs[i].built.Failure? ==> TypesPass(reg, specs) == Failure(specs[i].built.error)
  {
    var pre := specs[..i + 1];
    assert pre[..|pre| - 1] == specs[..i];
    assert pre[|pre| - 1] == specs[i];
    if specs[i].built.Failure? {
      TypesPassFailurePersists(reg, specs, i + 1);
    }
  }

  /** The simple names of the interface builders among `refs`. */
  function InterfaceNames(refs: seq<TypeBuilderRef>): set<string>
  {
    set r | r in refs && r.InterfaceRef? :: r.iface.host.simpleName
  }

  /** The runtime wiring after building `refs` in turn from `w`: each interface
      builder wires its type resolver under its simple name. */
  function WiringAfter(w: map<string, TypeResolver>, refs: seq<TypeBuilderRef>): map<string, TypeResolver>
  {
    if |refs| == 0 then w
    else
      var before := WiringAfter(w, refs[..|refs| - 1]);
      var last := refs[|refs| - 1];
      if last.InterfaceRef? then before[last.iface.host.simpleName := ByRuntimeClassName] else before
  }

  /** After the build, the wiring holds the earlier entries and one resolver by
      runtime class name for each interface builder, and nothing else. */
  lemma {:induction false} WiringAfterWires(w: map<string, TypeResolver>, refs: seq<TypeBuilderRef>)
    ensures WiringAfter(w, refs).Keys == w.Keys + InterfaceNames(refs)
    ensures forall n :: n in InterfaceNames(refs) ==> WiringAfter(w, refs)[n] == ByRuntimeClassName
    ensures forall n :: n in w && n !in InterfaceNames(refs) ==> WiringAfter(w, refs)[n] == w[n]
  {
    if |refs| > 0 {
      var init, last := refs[..|refs| - 1], refs[|refs| - 1];
      WiringAfterWires(w, init);
      assert refs == init + [last];
      assert InterfaceNames(refs) == InterfaceNames(init) + InterfaceNames([last]);
    }
  }

  /** Building one more type builder updates the wiring as `BuildOne` does. */
  lemma WiringAfterStep(w: map<string, TypeResolver>, refs: seq<TypeBuilderRef>, i: nat)
    requires i < |refs|
    ensures WiringAfter(w, refs[..i + 1]) ==
      if refs[i].InterfaceRef? then WiringAfter(w, refs[..i])[refs[i].iface.host.simpleName := ByRuntimeClassName]
      else WiringAfter(w, refs[..i])
  {
    assert refs[..i + 1][..i] == refs[..i];
  }

  /** The directives pass: each directive builder in turn; the first failure ends
      the build. */
  function DirectivesPass(rs: seq<Result<GDirective>>): Result<seq<GDirective>>
  {
    if |rs| == 0 then Success([])
    else
      var before :- DirectivesPass(rs[..|rs| - 1]);
      var d :- rs[|rs| - 1];
      Success(before + [d])
  }

  /** The directives pass succeeds exactly when every directive builder does,
      and then yields their directives in order. A failure reports the first
      failing builder's error. */
  lemma {:induction false} DirectivesPassOutcome(rs: seq<Result<GDirective>>)
    ensures DirectivesPass(rs).Success? <==> forall i :: 0 <= i < |rs| ==> rs[i].Success?
    ensures DirectivesPass(rs).Success? ==>
      |DirectivesPass(rs).value| == |rs| && forall i :: 0 <= i < |rs| ==> DirectivesPass(rs).value[i] == rs[i].value
    ensures DirectivesPass(rs).Failure? ==>
      exists k :: 0 <= k < |rs| && rs[k].Failure? && DirectivesPass(rs).error == rs[k].error
        && forall j :: 0 <= j < k ==> rs[j].Success?
  {
    if |rs| > 0 {
      var init := rs[..|rs| - 1];
      DirectivesPassOutcome(init);
      assert forall i :: 0 <= i < |init| ==> init[i] == rs[i];
    }
  }

  /** A directives pass that fails on a prefix fails the same way on the whole list. */
  lemma {:induction false} DirectivesPassFailurePersists(rs: seq<Result<GDirective>>, n: nat)
    requires n <= |rs| && DirectivesPass(rs[..n]).Failure?
    ensures DirectivesPass(rs) == Failure(DirectivesPass(rs[..n]).error)
    decreases |rs|
  {
    if n == |rs| {
      assert rs[..n] == rs;
    } else {
      var init := rs[..|rs| - 1];
      assert init[..n] == rs[..n];
      DirectivesPassFailurePersists(init, n);
    }
  }

  /** One more directive builder: its directive is appended, or its error ends
      the whole pass. */
  lemma DirectivesPassStep(rs: seq<Result<GDirective>>, j: nat)
    requires j < |rs| && DirectivesPass(rs[..j]).Success?
    ensures rs[j].Success? ==> DirectivesPass(rs[..j + 1]) == Success(DirectivesPass(rs[..j]).value + [rs[j].value])
    ensures rs[j].Failure? ==> DirectivesPass(rs) == Failure(rs[j].error)
  {
    assert rs[..j + 1][..j] == rs[..j];
    if rs[j].Failure? {
      DirectivesPassFailurePersists(rs, j + 1);
    }
  }

  /** `build()`: the types pass, each type also recorded in the context under its
      name; the directives pass; then the schema section, which must exist. */
  function Assemble(specs: seq<TypeSpec>, directives: seq<Result<GDirective>>, roots: Option<RootClasses>): Result<GSchema>
  {
    var built :- TypesPass(EmptyRegistry(), specs);
    var ds :- DirectivesPass(directives);
    if roots.None? then Failure(NoQueryType)
    else SchemaOf(roots.value, TypesByName(built.0), GSchema(None, None, None, built.0, ds, built.1))
  }

  /** Errors come in build order: a type builder's error first, then a directive
      builder's, and only then the missing schema section. */
  lemma AssembleErrorOrder(specs: seq<TypeSpec>, directives: seq<Result<GDirective>>, roots: Option<RootClasses>)
    ensures TypesPass(EmptyRegistry(), specs).Failure? ==> Assemble(specs, directives, roots) == Failure(TypesPass(EmptyRegistry(), specs).error)
    ensures TypesPass(EmptyRegistry(), specs).Success? && DirectivesPass(directives).Failure? ==>
      Assemble(specs, directives, roots) == Failure(DirectivesPass(directives).error)
    ensures TypesPass(EmptyRegistry(), specs).Success? && DirectivesPass(directives).Success? && roots.None? ==>
      Assemble(specs, directives, roots) == Failure(NoQueryType)
  {
  }

  /** Once both passes have succeeded and a schema section exists, the build is
      the schema section's build over the context the passes left. */
  lemma AssembleFromPasses(specs: seq<TypeSpec>, directives: seq<Result<GDirective>>, roots: Option<RootClasses>,
                           built: (seq<GType>, CodeRegistry), ds: seq<GDirective>)
    requires TypesPass(EmptyRegistry(), specs) == Success(built)
    requires DirectivesPass(directives) == Success(ds)
    requires roots.Some?
    ensures Assemble(specs, directives, roots)
      == SchemaOf(roots.value, TypesByName(built.0), GSchema(None, None, None, built.0, ds, built.1))
  {
  }

  /** A built schema holds the built types in builder order, followed by the
      eleven built-in scalars; the built directives; and the registry of the
      types pass. Only a build in which both passes succeeded and a schema
      section exists gets here. */
  lemma AssembledSchema(specs: seq<TypeSpec>, directives: seq<Result<GDirective>>, roots: Option<RootClasses>)
    requires Assemble(specs, directives, roots).Success?
    ensures roots.Some? && TypesPass(EmptyRegistry(), specs).Success? && DirectivesPass(directives).Success?
    ensures Assemble(specs, directives, roots).value.additionalTypes == TypesPass(EmptyRegistry(), specs).value.0 + BuiltInScalars()
    ensures Assemble(specs, directives, roots).value.directives == DirectivesPass(directives).value
    ensures Assemble(specs, directives, roots).value.codeRegistry == TypesPass(EmptyRegistry(), specs).value.1
  {
    AssembleErrorOrder(specs, directives, roots);
    var built := TypesPass(EmptyRegistry(), specs).value;
    var ds := DirectivesPass(directives).value;
    AssembleFromPasses(specs, directives, roots, built, ds);
    BuiltInsAlwaysAdded(roots.value, TypesByName(built.0), GSchema(None, None, None, built.0, ds, built.1));
  }

  /** The query root of a built schema is the built type named after the query
      class; with several of that name, the last one built. */
  lemma AssembledQueryRoot(specs: seq<TypeSpec>, directives: seq<Result<GDirective>>, roots: Option<RootClasses>)
    requires Assemble(specs, directives, roots).Success? && roots.Some? && roots.value.query.Some?
    ensures TypesPass(EmptyRegistry(), specs).Success?
    ensures Assemble(specs, directives, roots).value.query == Some(TypesByName(TypesPass(EmptyRegistry(), specs).value.0)[roots.value.query.value.simpleName])
  {
    AssembleErrorOrder(specs, directives, roots);
    var built := TypesPass(EmptyRegistry(), specs).value;
    var ds := DirectivesPass(directives).value;
    AssembleFromPasses(specs, directives, roots, built, ds);
    QueryRootIsLookedUp(roots.value, TypesByName(built.0), GSchema(None, None, None, built.0, ds, built.1));
  }

  class GraphQLSchemaBuilder {
    var schema: Option<SchemaBuilder>
    var typeDefinitions: OMap<string, TypeBuilderRef>
    var directiveDefinitions: OMap<string, DirectiveTypeBuilder>
    ghost var Repr: set<object>

    ghost predicate Valid()
      reads this
    {
      typeDefinitions.Valid() && directiveDefinitions.Valid()
      && (forall k :: k in typeDefinitions.entries ==>
            ValidRef(typeDefinitions.entries[k]) && ReprOf(typeDefinitions.entries[k]) <= Repr)
      && (forall k :: k in directiveDefinitions.entries ==>
            directiveDefinitions.entries[k].Valid() && directiveDefinitions.entries[k].Repr <= Repr)
      && (schema.Some? ==> schema.value in Repr)
    }

    constructor ()
      ensures Valid() && schema == None
      ensures typeDefinitions == Empty() && directiveDefinitions == Empty()
    {
      schema := None;
      typeDefinitions := Empty();
      directiveDefinitions := Empty();
      Repr := {};
    }

    /** The outcomes of the type builders, in registration order. */
    function TypeSpecs(): (r: seq<TypeSpec>)
      requires Valid()
      reads this, Repr
      ensures |r| == |typeDefinitions.keys|
      ensures forall i :: 0 <= i < |r| ==> r[i] == SpecOf(typeDefinitions.entries[typeDefinitions.keys[i]])
    {
      var m := typeDefinitions;
      var objs := Repr;
      seq(|m.keys|, i requires 0 <= i < |m.keys| reads objs => SpecOf(m.entries[m.keys[i]]))
    }

    /** The outcomes of the directive builders, in registration order. */
    function DirectiveResults(): (r: seq<Result<GDirective>>)
      requires Valid()
      reads this, Repr
      ensures |r| == |directiveDefinitions.keys|
      ensures forall i :: 0 <= i < |r| ==> r[i] == directiveDefinitions.entries[directiveDefinitions.keys[i]].Outcome()
    {
      var m := directiveDefinitions;
      var objs := Repr;
      seq(|m.keys|, i requires 0 <= i < |m.keys| reads objs => m.entries[m.keys[i]].Outcome())
    }

    /** The roots the schema section names, if there is one. */
    function SchemaRoots(): Option<RootClasses>
      requires Valid()
      reads this, Repr
    {
      if schema.Some? then Some(schema.value.Roots()) else None
    }

    /** `schema { … }`: the section replaces any earlier one. */
    method Schema(builder: SchemaBuilder)
      requires Valid()
      modifies this`schema, this`Repr
      ensures Valid() && schema == Some(builder)
    {
      schema := Some(builder);
      Repr := Repr + {builder};
    }

    /** `addType`, keyed by the class's simple name. */
    method AddType(name: string, ref: TypeBuilderRef) returns (r: Result<()>)
      requires Valid() && ValidRef(ref)
      modifies this`typeDefinitions, this`Repr
      ensures Valid()
      ensures RegisteredAs(old(typeDefinitions), name, ref, DuplicateType(name), r, typeDefinitions)
    {
      if name in typeDefinitions.entries {
        return Failure(DuplicateType(name));
      }
      typeDefinitions := typeDefinitions.Put(name, ref);
      Repr := Repr + ReprOf(ref);
      r := Success(());
    }

    /** `scalar(type) { … }`, given the configured builder. */
    method Scalar(b: ScalarTypeBuilder) returns (r: Result<()>)
      requires Valid()
      modifies this`typeDefinitions, this`Repr
      ensures Valid()
      ensures RegisteredAs(old(typeDefinitions), b.host.simpleName, ScalarRef(b), DuplicateType(b.host.simpleName), r, typeDefinitions)
    {
      r := AddType(b.host.simpleName, ScalarRef(b));
    }

    /** `type(type) { … }`. */
    method Type(b: ObjectTypeBuilder) returns (r: Result<()>)
      requires Valid() && b.Valid()
      modifies this`typeDefinitions, this`Repr
      ensures Valid()
      ensures RegisteredAs(old(typeDefinitions), b.host.simpleName, ObjectRef(b), DuplicateType(b.host.simpleName), r, typeDefinitions)
    {
      r := AddType(b.host.simpleName, ObjectRef(b));
    }

    /** `interfaceType(type) { … }`. */
    method InterfaceType(b: InterfaceTypeBuilder) returns (r: Result<()>)
      requires Valid() && b.Valid()
      modifies this`typeDefinitions, this`Repr
      ensures Valid()
      ensures RegisteredAs(old(typeDefinitions), b.host.simpleName, InterfaceRef(b), DuplicateType(b.host.simpleName), r, typeDefinitions)
    {
      r := AddType(b.host.simpleName, InterfaceRef(b));
    }

    /** `union(type) { … }`: the builder is named after the class, and registered
        under that name. */
    method Union(b: UnionTypeBuilder) returns (r: Result<()>)
      requires Valid()
      modifies this`typeDefinitions, this`Repr
      ensures Valid()
      ensures RegisteredAs(old(typeDefinitions), b.name, UnionRef(b), DuplicateType(b.name), r, typeDefinitions)
    {
      r := AddType(b.name, UnionRef(b));
    }

    /** `enum(type) { … }`. */
    method Enum(b: EnumTypeBuilder) returns (r: Result<()>)
      requires Valid() && b.Valid()
      modifies this`typeDefinitions, this`Repr
      ensures Valid()
      ensures RegisteredAs(old(typeDefinitions), b.host.simpleName, EnumRef(b), DuplicateType(b.host.simpleName), r, typeDefinitions)
    {
      r := AddType(b.host.simpleName, EnumRef(b));
    }

    /** `inputType(type) { … }`. */
    method InputType(b: InputTypeBuilder) returns (r: Result<()>)
      requires Valid() && b.Valid()
      modifies this`typeDefinitions, this`Repr
      ensures Valid()
      ensures RegisteredAs(old(typeDefinitions), b.host.simpleName, InputRef(b), DuplicateType(b.host.simpleName), r, typeDefinitions)
    {
      r := AddType(b.host.simpleName, InputRef(b));
    }

    /** `directive(type) { … }`: keyed by the class's simple name in a table of
        its own, so a directive and a type may share a name. */
    method Directive(b: DirectiveTypeBuilder) returns (r: Result<()>)
      requires Valid() && b.Valid()
      modifies this`directiveDefinitions, this`Repr
      ensures Valid()
      ensures RegisteredAs(old(directiveDefinitions), b.host.simpleName, b, DuplicateDirective(b.host.simpleName), r, directiveDefinitions)
    {
      if b.host.simpleName in directiveDefinitions.entries {
        return Failure(DuplicateDirective(b.host.simpleName));
      }
      directiveDefinitions := directiveDefinitions.Put(b.host.simpleName, b);
      Repr := Repr + b.Repr;
      r := Success(());
    }

    /** Builds one registered type builder into the context. */
    static method BuildOne(ref: TypeBuilderRef, ctx: BuilderContext) returns (r: Result<GType>)
      requires ValidRef(ref) && ctx !in ReprOf(ref)
      modifies ctx`codeRegistry, ctx`typeWiring
      ensures r == old(SpecOf(ref)).built
      ensures ctx.codeRegistry == RegisterFetchers(old(ctx.codeRegistry), old(SpecOf(ref)).fields)
      ensures ctx.typeWiring == if ref.InterfaceRef? then old(ctx.typeWiring)[ref.iface.host.simpleName := ByRuntimeClassName] else old(ctx.typeWiring)
    {
      if ref.ObjectRef? || ref.InterfaceRef? {
        r := BuildWithFields(ref, ctx);
      } else {
        r := BuildWithoutFields(ref);
      }
    }

    /** `BuildOne` as the `i`-th turn of a loop over `refs`: the wiring goes from
        the fold over the first `i` builders to the fold over the first `i + 1`. */
    static method BuildWired(ref: TypeBuilderRef, ctx: BuilderContext, ghost refs: seq<TypeBuilderRef>, ghost i: nat,
                             ghost wiring: map<string, TypeResolver>) returns (r: Result<GType>)
      requires ValidRef(ref) && ctx !in ReprOf(ref) && i < |refs| && refs[i] == ref
      requires ctx.typeWiring == WiringAfter(wiring, refs[..i])
      modifies ctx`codeRegistry, ctx`typeWiring
      ensures r == old(SpecOf(ref)).built
      ensures ctx.codeRegistry == RegisterFetchers(old(ctx.codeRegistry), old(SpecOf(ref)).fields)
      ensures ctx.typeWiring == WiringAfter(wiring, refs[..i + 1])
    {
      r := BuildOne(ref, ctx);
      WiringAfterStep(wiring, refs, i);
    }

    /** Building an object or interface builder registers its fields' resolvers. */
    static method BuildWithFields(ref: TypeBuilderRef, ctx: BuilderContext) returns (r: Result<GType>)
      requires ValidRef(ref) && ctx !in ReprOf(ref) && (ref.ObjectRef? || ref.InterfaceRef?)
      modifies ctx`codeRegistry, ctx`typeWiring
      ensures r == old(SpecOf(ref)).built
      ensures ctx.codeRegistry == RegisterFetchers(old(ctx.codeRegistry), old(SpecOf(ref)).fields)
      ensures ctx.typeWiring == if ref.InterfaceRef? then old(ctx.typeWiring)[ref.iface.host.simpleName := ByRuntimeClassName] else old(ctx.typeWiring)
    {
      match ref
      case ObjectRef(b) =>
        r := BuildObject(b, ctx);
      case InterfaceRef(b) =>
        r := BuildInterface(b, ctx);
    }

    static method BuildObject(b: ObjectTypeBuilder, ctx: BuilderContext) returns (r: Result<GType>)
      requires b.Valid() && ctx !in b.Repr
      modifies ctx`codeRegistry
      ensures r == old(SpecOf(ObjectRef(b))).built
      ensures ctx.codeRegistry == RegisterFetchers(old(ctx.codeRegistry), old(SpecOf(ObjectRef(b))).fields)
    {
      var t := b.Build(ctx);
      r := Success(t);
    }

    static method BuildInterface(b: InterfaceTypeBuilder, ctx: BuilderContext) returns (r: Result<GType>)
      requires b.Valid() && ctx !in b.Repr
      modifies ctx`codeRegistry, ctx`typeWiring
      ensures r == old(SpecOf(InterfaceRef(b))).built
      ensures ctx.codeRegistry == RegisterFetchers(old(ctx.codeRegistry), old(SpecOf(InterfaceRef(b))).fields)
      ensures ctx.typeWiring == old(ctx.typeWiring)[b.host.simpleName := ByRuntimeClassName]
    {
      var t := b.Build(ctx);
      r := Success(t);
    }

    /** The other kinds build without touching the context. */
    static method BuildWithoutFields(ref: TypeBuilderRef) returns (r: Result<GType>)
      requires ValidRef(ref) && !ref.ObjectRef? && !ref.InterfaceRef?
      ensures r == SpecOf(ref).built && SpecOf(ref).fields == []
    {
      match ref
      case ScalarRef(b) =>
        r := b.Build();
      case UnionRef(b) =>
        var t := b.Build();
        r := Success(t);
      case EnumRef(b) =>
        var t := b.Build();
        r := Success(t);
      case InputRef(b) =>
        var t := b.Build();
        r := Success(t);
    }

    /** One turn of the types loop: build a type builder, add its type to the
        schema builder and record it in `context.types` under its name. */
    static method BuildStep(ref: TypeBuilderRef, ctx: BuilderContext) returns (t: Result<GType>)
      requires ValidRef(ref) && ctx !in ReprOf(ref)
      requires ctx.types == TypesByName(ctx.additionalTypes)
      modifies ctx`additionalTypes, ctx`types, ctx`codeRegistry, ctx`typeWiring
      ensures t == old(SpecOf(ref)).built
      ensures t.Success? ==> ctx.additionalTypes == old(ctx.additionalTypes) + [t.value]
      ensures t.Success? ==> ctx.codeRegistry == RegisterFetchers(old(ctx.codeRegistry), old(SpecOf(ref)).fields)
      ensures t.Success? ==> ctx.types == TypesByName(ctx.additionalTypes)
    {
      t := BuildOne(ref, ctx);
      if t.Success? {
        assert (ctx.additionalTypes + [t.value])[..|ctx.additionalTypes|] == ctx.additionalTypes;
        ctx.additionalTypes := ctx.additionalTypes + [t.value];
        ctx.types := ctx.types[t.value.name := t.value];
      }
    }

    /** The types loop of `build()`: each builder in registration order. */
    method BuildTypes(ctx: BuilderContext, ghost specs: seq<TypeSpec>) returns (r: Result<()>)
      requires Valid() && ctx !in Repr && specs == TypeSpecs()
      requires ctx.additionalTypes == [] && ctx.types == map[] && ctx.codeRegistry == EmptyRegistry()
      modifies ctx`additionalTypes, ctx`types, ctx`codeRegistry, ctx`typeWiring
      ensures r.Failure? <==> TypesPass(EmptyRegistry(), specs).Failure?
      ensures r.Failure? ==> r.error == TypesPass(EmptyRegistry(), specs).error
      ensures r.Success? ==> TypesPass(EmptyRegistry(), specs).value == (ctx.additionalTypes, ctx.codeRegistry)
      ensures r.Success? ==> ctx.types == TypesByName(ctx.additionalTypes)
    {
      var keys := typeDefinitions.keys;
      var i := 0;
      while i < |keys|
        invariant 0 <= i <= |keys|
        invariant TypesPass(EmptyRegistry(), specs[..i]) == Success((ctx.additionalTypes, ctx.codeRegistry))
        invariant ctx.types == TypesByName(ctx.additionalTypes)
      {
        var ref := typeDefinitions.entries[keys[i]];
        assert SpecOf(ref) == specs[i];
        var t := BuildStep(ref, ctx);
        TypesPassStep(EmptyRegistry(), specs, i);
        if t.Failure? {
          return Failure(t.error);
        }
        i := i + 1;
      }
      assert specs[..i] == specs;
      r := Success(());
    }

    /** The directives loop of `build()`: each directive builder in registration
        order, its directive added to the schema builder. */
    method BuildDirectives(ctx: BuilderContext, ghost directives: seq<Result<GDirective>>) returns (r: Result<()>)
      requires Valid() && ctx !in Repr && ctx.additionalDirectives == [] && directives == DirectiveResults()
      modifies ctx`additionalDirectives
      ensures r.Failure? <==> DirectivesPass(directives).Failure?
      ensures r.Failure? ==> r.error == DirectivesPass(directives).error
      ensures r.Success? ==> DirectivesPass(directives).value == ctx.additionalDirectives
    {
      var keys := directiveDefinitions.keys;
      var j := 0;
      while j < |keys|
        invariant 0 <= j <= |keys|
        invariant DirectivesPass(directives[..j]) == Success(ctx.additionalDirectives)
      {
        var d := directiveDefinitions.entries[keys[j]].Build();
        assert d == directives[j];
        DirectivesPassStep(directives, j);
        if d.Failure? {
          return Failure(d.error);
        }
        ctx.additionalDirectives := ctx.additionalDirectives + [d.value];
        j := j + 1;
      }
      assert directives[..j] == directives;
      r := Success(());
    }

    /** The two passes of `build()` on a fresh context: the types, then the
        directives; a failure in either is the failure of the whole build. */
    method BuildPasses(ctx: BuilderContext, ghost specs: seq<TypeSpec>, ghost directives: seq<Result<GDirective>>,
                       ghost roots: Option<RootClasses>) returns (r: Result<()>)
      requires Valid() && ctx !in Repr && specs == TypeSpecs() && directives == DirectiveResults()
      requires ctx.additionalTypes == [] && ctx.types == map[] && ctx.codeRegistry == EmptyRegistry()
      requires ctx.additionalDirectives == []
      modifies ctx`additionalTypes, ctx`types, ctx`codeRegistry, ctx`typeWiring, ctx`additionalDirectives
      ensures r.Failure? ==> Assemble(specs, directives, roots) == Failure(r.error)
      ensures r.Success? ==> TypesPass(EmptyRegistry(), specs) == Success((ctx.additionalTypes, ctx.codeRegistry))
      ensures r.Success? ==> DirectivesPass(directives) == Success(ctx.additionalDirectives)
      ensures r.Success? ==> ctx.types == TypesByName(ctx.additionalTypes)
    {
      AssembleErrorOrder(specs, directives, roots);
      r := BuildTypes(ctx, specs);
      if r.Success? {
        r := BuildDirectives(ctx, directives);
      }
    }

    /** `build()` into the fresh context `ctx`: types, directives, then the
        schema section, which must exist. */
    method BuildInto(ctx: BuilderContext) returns (r: Result<GSchema>)
      requires Valid() && ctx !in Repr
      requires ctx.additionalTypes == [] && ctx.types == map[] && ctx.codeRegistry == EmptyRegistry()
      requires ctx.additionalDirectives == [] && ctx.query == None && ctx.mutation == None && ctx.subscription == None
      modifies ctx
      ensures r == old(Assemble(TypeSpecs(), DirectiveResults(), SchemaRoots()))
    {
      ghost var specs, directives, roots := TypeSpecs(), DirectiveResults(), SchemaRoots();
      var passes := BuildPasses(ctx, specs, directives, roots);
      if passes.Failure? {
        return Failure(passes.error);
      }
      if schema.None? {
        AssembleErrorOrder(specs, directives, roots);
        return Failure(NoQueryType);
      }
      AssembleFromPasses(specs, directives, roots, (ctx.additionalTypes, ctx.codeRegistry), ctx.additionalDirectives);
      r := schema.value.Build(ctx);
    }

    /** `build()`, on a fresh context. */
    method Build() returns (r: Result<GSchema>)
      requires Valid()
      ensures r == Assemble(TypeSpecs(), DirectiveResults(), SchemaRoots())
    {
      var ctx := new BuilderContext();
      r := BuildInto(ctx);
    }
  }
}
