/** `GraphQLBuilder`: the older entry point of the DSL. It registers scalar,
    object, interface and union builders under one namespace and at most one
    schema section, and builds them into a list of definitions over a context
    the caller supplies. */
module GraphQLBuilders {
  import opened Common
  import opened OrderedMaps
  import opened Manifest
  import opened SchemaTypes
  import opened FieldBuilders
  import opened BuilderContexts
  import opened GraphQLPrinter
  import opened ObjectTypeBuilders
  import opened InterfaceTypeBuilders
  import opened UnionTypeBuilders
  import opened ScalarTypeBuilders
  import opened SchemaBuilders
  import opened GraphQLSchemaBuilders

  /** An entry of the definition registry `build` returns. */
  datatype Definition =
    | SchemaDefinition(schema: GSchema)
    | TypeDefinition(typeDef: GType)

  /** The four kinds this builder registers. */
  predicate Registrable(ref: TypeBuilderRef)
  {
    ref.ScalarRef? || ref.ObjectRef? || ref.InterfaceRef? || ref.UnionRef?
  }

  /** The definition of the schema section: none when no section is set, its
      build's error when that fails. */
  function SchemaSection(part: Option<Result<GSchema>>): (r: Result<seq<Definition>>)
    ensures part.None? ==> r == Success([])
    ensures part.Some? && part.value.Failure? ==> r == Failure(part.value.error)
    ensures part.Some? && part.value.Success? ==> r == Success([SchemaDefinition(part.value.value)])
  {
    if part.None? then Success([])
    else
      var s :- part.value;
      Success([SchemaDefinition(s)])
  }

  /** One type definition per built type, in order. */
  function TypeDefinitions(ts: seq<GType>): (r: seq<Definition>)
    ensures |r| == |ts| && forall i :: 0 <= i < |ts| ==> r[i] == TypeDefinition(ts[i])
  {
    seq(|ts|, i requires 0 <= i < |ts| => TypeDefinition(ts[i]))
  }

  /** `build(context)`: the schema section's definition first, when a section is
      set; then the types in registration order, each built into the context's
      code registry (starting from `reg`); the first failure ends the build. */
  function Definitions(part: Option<Result<GSchema>>, reg: CodeRegistry, specs: seq<TypeSpec>): Result<seq<Definition>>
  {
    var head :- SchemaSection(part);
    var built :- TypesPass(reg, specs);
    Success(head + TypeDefinitions(built.0))
  }

  /** The build succeeds exactly when the schema section, if any, and every type
      builder succeed; a missing schema section is not an error. */
  lemma DefinitionsSucceedIff(part: Option<Result<GSchema>>, reg: CodeRegistry, specs: seq<TypeSpec>)
    ensures Definitions(part, reg, specs).Success? <==>
      (part.None? || part.value.Success?) && forall i :: 0 <= i < |specs| ==> specs[i].built.Success?
  {
    TypesPassOutcome(reg, specs);
  }

  /** A failing schema section is reported before any type builder's error. */
  lemma SchemaSectionErrorFirst(part: Option<Result<GSchema>>, reg: CodeRegistry, specs: seq<TypeSpec>)
    requires part.Some? && part.value.Failure?
    ensures Definitions(part, reg, specs) == Failure(part.value.error)
  {
  }

  /** Otherwise the build fails with the error of the first failing type
      builder. */
  lemma DefinitionsErrorOrder(part: Option<Result<GSchema>>, reg: CodeRegistry, specs: seq<TypeSpec>, k: nat)
    requires part.None? || part.value.Success?
    requires k < |specs| && specs[k].built.Failure? && forall j :: 0 <= j < k ==> specs[j].built.Success?
    ensures Definitions(part, reg, specs) == Failure(specs[k].built.error)
  {
    FirstTypeFailure(reg, specs, k);
  }

  /** The types pass fails with the error of the first failing builder. */
  lemma FirstTypeFailure(reg: CodeRegistry, specs: seq<TypeSpec>, k: nat)
    requires k < |specs| && specs[k].built.Failure? && forall j :: 0 <= j < k ==> specs[j].built.Success?
    ensures TypesPass(reg, specs) == Failure(specs[k].built.error)
  {
    TypesPassOutcome(reg, specs[..k]);
    TypesPassStep(reg, specs, k);
  }

  /** A successful build lists the schema section's definition first, when a
      section is set, then exactly one definition per type builder, in order. */
  lemma DefinitionsLayout(part: Option<Result<GSchema>>, reg: CodeRegistry, specs: seq<TypeSpec>)
    requires part.None? || part.value.Success?
    requires forall i :: 0 <= i < |specs| ==> specs[i].built.Success?
    ensures Definitions(part, reg, specs) == Success(SchemaSection(part).value + TypeDefinitions(BuiltTypes(specs)))
  {
    TypesPassBuilt(reg, specs);
    assert TypesPass(reg, specs).value.0 == BuiltTypes(specs);
  }

  /** The types of builders that all succeed, in order. */
  function BuiltTypes(specs: seq<TypeSpec>): (r: seq<GType>)
    requires forall i :: 0 <= i < |specs| ==> specs[i].built.Success?
    ensures |r| == |specs| && forall i :: 0 <= i < |specs| ==> r[i] == specs[i].built.value
  {
    seq(|specs|, i requires 0 <= i < |specs| => specs[i].built.value)
  }

  lemma SectionThenTypes(head: seq<Definition>, types: seq<GType>, specs: seq<TypeSpec>)
    requires |types| == |specs|
    requires forall i :: 0 <= i < |specs| ==> specs[i].built.Success? && types[i] == specs[i].built.value
    ensures forall i :: 0 <= i < |specs| ==> (head + TypeDefinitions(types))[|head| + i] == TypeDefinition(specs[i].built.value)
  {
  }

  /** The types a successful types pass builds: one per builder, in order. */
  lemma TypesPassBuilt(reg: CodeRegistry, specs: seq<TypeSpec>)
    requires forall i :: 0 <= i < |specs| ==> specs[i].built.Success?
    ensures TypesPass(reg, specs).Success? && |TypesPass(reg, specs).value.0| == |specs|
    ensures forall i :: 0 <= i < |specs| ==> TypesPass(reg, specs).value.0[i] == specs[i].built.value
  {
    TypesPassOutcome(reg, specs);
  }

  /** Without a schema section, the build holds type definitions only. */
  lemma NoSectionNoSchemaDefinition(reg: CodeRegistry, specs: seq<TypeSpec>)
    requires forall i :: 0 <= i < |specs| ==> specs[i].built.Success?
    ensures Definitions(None, reg, specs).Success?
    ensures forall d :: d in Definitions(None, reg, specs).value ==> d.TypeDefinition?
  {
    TypesPassOutcome(reg, specs);
  }

  /** The text `toGraphQLString` gives for one registered builder, given the texts
      of the parts whose printers are not part of this model. */
  function TextOf(ref: TypeBuilderRef, scalarText: ScalarState -> string, fieldText: FieldState -> string): Result<string>
    requires ValidRef(ref) && Registrable(ref)
    reads ReprOf(ref)
  {
    match ref
    case ScalarRef(b) => Success(scalarText(b.State()))
    case ObjectRef(b) => Success(DefinitionText("type", b.host.simpleName, b.description, Texts(b.FieldStates(), fieldText)))
    case InterfaceRef(b) => Success(DefinitionText("interface", b.host.simpleName, b.description, Texts(b.FieldStates(), fieldText)))
    case UnionRef(b) => UnionDefinitionText(b.name, b.description, b.types)
  }

  /** Only a union without members cannot be printed. */
  lemma TextOfFails(ref: TypeBuilderRef, scalarText: ScalarState -> string, fieldText: FieldState -> string)
    requires ValidRef(ref) && Registrable(ref)
    ensures TextOf(ref, scalarText, fieldText).Failure? <==> ref.UnionRef? && |ref.union.types| == 0
    ensures TextOf(ref, scalarText, fieldText).Failure? ==> TextOf(ref, scalarText, fieldText).error == EmptyUnion
  {
  }

  /** Each text followed by a blank line, in order; the first failing text fails
      the whole. */
  function Sections(texts: seq<Result<string>>): Result<string>
  {
    if |texts| == 0 then Success("")
    else
      var before :- Sections(texts[..|texts| - 1]);
      var t :- texts[|texts| - 1];
      Success(before + t + "\n\n")
  }

  /** The texts of a list of successful outcomes. */
  function Unwrapped(texts: seq<Result<string>>): (r: seq<string>)
    requires forall i :: 0 <= i < |texts| ==> texts[i].Success?
    ensures |r| == |texts| && forall i :: 0 <= i < |texts| ==> r[i] == texts[i].value
  {
    seq(|texts|, i requires 0 <= i < |texts| => texts[i].value)
  }

  /** The sections fail exactly when one of the texts fails, with the error of
      the first that does; otherwise they are the texts joined by blank lines,
      with a blank line after the last. */
  lemma {:induction false} SectionsOutcome(texts: seq<Result<string>>)
    ensures Sections(texts).Success? <==> forall i :: 0 <= i < |texts| ==> texts[i].Success?
    ensures Sections(texts).Failure? ==>
      exists k :: 0 <= k < |texts| && texts[k].Failure?
        && (forall j :: 0 <= j < k ==> texts[j].Success?)
        && Sections(texts).error == texts[k].error
    ensures Sections(texts).Success? && |texts| > 0 ==>
      Sections(texts).value == Join(Unwrapped(texts), "\n\n") + "\n\n"
  {
    if |texts| > 0 {
      var init := texts[..|texts| - 1];
      SectionsOutcome(init);
      assert forall j :: 0 <= j < |init| ==> texts[j] == init[j];
      if Sections(init).Failure? {
        var k :| 0 <= k < |init| && init[k].Failure?
          && (forall j :: 0 <= j < k ==> init[j].Success?)
          && Sections(init).error == init[k].error;
        assert texts[k] == init[k];
      } else if texts[|texts| - 1].Success? {
        var last := texts[|texts| - 1].value;
        assert Unwrapped(texts) == Unwrapped(init) + [last];
        if |init| > 0 {
          JoinAppend(Unwrapped(init), [last], "\n\n");
        } else {
          assert Unwrapped(texts) == [last];
        }
      }
    }
  }

  /** `toGraphQLString()`: the schema section's text and a blank line, when a
      section is set, then the sections of the types. */
  function GraphQLText(schemaText: Option<string>, texts: seq<Result<string>>): Result<string>
  {
    var body :- Sections(texts);
    Success((if schemaText.Some? then schemaText.value + "\n\n" else "") + body)
  }

  /** The whole text starts with the schema section's text followed by a blank
      line when there is one, and then holds the type texts joined by blank
      lines, with a blank line after the last; it fails exactly when a type's
      text fails. */
  lemma GraphQLTextLayout(schemaText: Option<string>, texts: seq<Result<string>>)
    ensures GraphQLText(schemaText, texts).Success? <==> forall i :: 0 <= i < |texts| ==> texts[i].Success?
    ensures GraphQLText(schemaText, texts).Success? ==>
      GraphQLText(schemaText, texts).value ==
        (if schemaText.Some? then schemaText.value + "\n\n" else "")
        + (if |texts| == 0 then "" else Join(Unwrapped(texts), "\n\n") + "\n\n")
  {
    SectionsOutcome(texts);
  }

  class GraphQLBuilder {
    var schema: Option<SchemaBuilder>
    var typeDefinitions: OMap<string, TypeBuilderRef>
    ghost var Repr: set<object>

    ghost predicate Valid()
      reads this
    {
      typeDefinitions.Valid()
      && (forall k :: k in typeDefinitions.entries ==>
            Registrable(typeDefinitions.entries[k]) && ValidRef(typeDefinitions.entries[k])
            && ReprOf(typeDefinitions.entries[k]) <= Repr)
      && (schema.Some? ==> schema.value in Repr)
    }

    constructor ()
      ensures Valid() && schema == None && typeDefinitions == Empty()
    {
      schema := None;
      typeDefinitions := Empty();
      Repr := {};
    }

    /** The outcomes of the type builders, in registration order. */
    function TypeSpecs(): (r: seq<TypeSpec>)
      requires Valid()
      reads this, Repr
      ensures |r| == |typeDefinitions.keys|
      ensures forall i :: 0 <= i < |r| ==> r[i] == SpecOf(typeDefinitions.entries[typeDefinitions.keys[i]])
    {
      var m := typeDefinitions;
      var objs := Repr;
      seq(|m.keys|, i requires 0 <= i < |m.keys| reads objs => SpecOf(m.entries[m.keys[i]]))
    }

    /** What the schema section's build gives over the context `ctx`, if a
        section is set. */
    function SchemaPart(ctx: BuilderContext): Option<Result<GSchema>>
      requires Valid()
      reads this, Repr, ctx
    {
      if schema.Some? then Some(SchemaOf(schema.value.Roots(), ctx.types, Pending(ctx))) else None
    }

    /** The texts of the type builders, in registration order. */
    function TypeTexts(scalarText: ScalarState -> string, fieldText: FieldState -> string): (r: seq<Result<string>>)
      requires Valid()
      reads this, Repr
      ensures |r| == |typeDefinitions.keys|
      ensures forall i :: 0 <= i < |r| ==> r[i] == TextOf(typeDefinitions.entries[typeDefinitions.keys[i]], scalarText, fieldText)
    {
      var m := typeDefinitions;
      var objs := Repr;
      seq(|m.keys|, i requires 0 <= i < |m.keys| reads objs => TextOf(m.entries[m.keys[i]], scalarText, fieldText))
    }

    /** `schema { … }`: the section replaces any earlier one. */
    method Schema(builder: SchemaBuilder)
      requires Valid()
      modifies this`schema, this`Repr
      ensures Valid() && schema == Some(builder) && typeDefinitions == old(typeDefinitions)
    {
      schema := Some(builder);
      Repr := Repr + {builder};
    }

    /** The duplicate check and insertion each registration performs. */
    method AddType(name: string, ref: TypeBuilderRef) returns (r: Result<()>)
      requires Valid() && ValidRef(ref) && Registrable(ref)
      modifies this`typeDefinitions, this`Repr
      ensures Valid() && schema == old(schema)
      ensures RegisteredAs(old(typeDefinitions), name, ref, DuplicateType(name), r, typeDefinitions)
    {
      if name in typeDefinitions.entries {
        return Failure(DuplicateType(name));
      }
      typeDefinitions := typeDefinitions.Put(name, ref);
      Repr := Repr + ReprOf(ref);
      r := Success(());
    }

    /** `scalar(type) { … }`, given the configured builder. */
    method Scalar(b: ScalarTypeBuilder) returns (r: Result<()>)
      requires Valid()
      modifies this`typeDefinitions, this`Repr
      ensures Valid() && schema == old(schema)
      ensures RegisteredAs(old(typeDefinitions), b.host.simpleName, ScalarRef(b), DuplicateType(b.host.simpleName), r, typeDefinitions)
    {
      r := AddType(b.host.simpleName, ScalarRef(b));
    }

    /** `type(type) { … }`, given the configured builder. */
    method Type(b: ObjectTypeBuilder) returns (r: Result<()>)
      requires Valid() && b.Valid()
      modifies this`typeDefinitions, this`Repr
      ensures Valid() && schema == old(schema)
      ensures RegisteredAs(old(typeDefinitions), b.host.simpleName, ObjectRef(b), DuplicateType(b.host.simpleName), r, typeDefinitions)
    {
      r := AddType(b.host.simpleName, ObjectRef(b));
    }

    /** `interfaceType(type) { … }`, given the configured builder. */
    method InterfaceType(b: InterfaceTypeBuilder) returns (r: Result<()>)
      requires Valid() && b.Valid()
      modifies this`typeDefinitions, this`Repr
      ensures Valid() && schema == old(schema)
      ensures RegisteredAs(old(typeDefinitions), b.host.simpleName, InterfaceRef(b), DuplicateType(b.host.simpleName), r, typeDefinitions)
    {
      r := AddType(b.host.simpleName, InterfaceRef(b));
    }

    /** `union(name) { … }`: keyed by the explicit name. */
    method Union(b: UnionTypeBuilder) returns (r: Result<()>)
      requires Valid()
      modifies this`typeDefinitions, this`Repr
      ensures Valid() && schema == old(schema)
      ensures RegisteredAs(old(typeDefinitions), b.name, UnionRef(b), DuplicateType(b.name), r, typeDefinitions)
    {
      r := AddType(b.name, UnionRef(b));
    }

    /** The types loop of `build(context)`: each builder in registration order,
        its type collected for a definition; the registry grows from `reg`. */
    method BuildTypes(ctx: BuilderContext, ghost specs: seq<TypeSpec>, ghost reg: CodeRegistry) returns (r: Result<seq<Definition>>)
      requires Valid() && ctx !in Repr && specs == TypeSpecs() && ctx.codeRegistry == reg
      modifies ctx`codeRegistry, ctx`typeWiring
      ensures r.Failure? <==> TypesPass(reg, specs).Failure?
      ensures r.Failure? ==> r.error == TypesPass(reg, specs).error
      ensures r.Success? ==> r.value == TypeDefinitions(TypesPass(reg, specs).value.0)
      ensures r.Success? ==> ctx.codeRegistry == TypesPass(reg, specs).value.1
      ensures r.Success? ==> ctx.typeWiring == WiringAfter(old(ctx.typeWiring), typeDefinitions.Values())
    {
      var keys := typeDefinitions.keys;
      ghost var refs, wiring := typeDefinitions.Values(), ctx.typeWiring;
      var types: seq<GType> := [];
      var i := 0;
      while i < |keys|
        invariant 0 <= i <= |keys|
        invariant TypesPass(reg, specs[..i]) == Success((types, ctx.codeRegistry))
        invariant ctx.typeWiring == WiringAfter(wiring, refs[..i])
      {
        var ref := typeDefinitions.entries[keys[i]];
        assert SpecOf(ref) == specs[i] && ref == refs[i];
        var t := GraphQLSchemaBuilder.BuildWired(ref, ctx, refs, i, wiring);
        TypesPassStep(reg, specs, i);
        if t.Failure? {
          return Failure(t.error);
        }
        types := types + [t.value];
        i := i + 1;
      }
      assert specs[..i] == specs && refs[..i] == refs;
      r := Success(TypeDefinitions(types));
    }

    /** `build(context)`: the schema section first, when one is set, then the
        types. The types are not recorded in the context, so the schema section
        sees only the types the caller's context already holds. */
    method Build(ctx: BuilderContext) returns (r: Result<seq<Definition>>)
      requires Valid() && ctx !in Repr
      modifies ctx
      ensures r == old(Definitions(SchemaPart(ctx), ctx.codeRegistry, TypeSpecs()))
      ensures r.Success? ==> ctx.codeRegistry == RegisterFetchers(old(ctx.codeRegistry), AllFields(old(TypeSpecs())))
      ensures r.Success? ==> ctx.typeWiring == WiringAfter(old(ctx.typeWiring), typeDefinitions.Values())
    {
      ghost var specs, part, reg := TypeSpecs(), SchemaPart(ctx), ctx.codeRegistry;
      var head: seq<Definition> := [];
      if schema.Some? {
        var s := schema.value.Build(ctx);
        if s.Failure? {
          return Failure(s.error);
        }
        head := [SchemaDefinition(s.value)];
      }
      assert SchemaSection(part) == Success(head);
      var types := BuildTypes(ctx, specs, reg);
      if types.Failure? {
        return Failure(types.error);
      }
      TypesPassOutcome(reg, specs);
      r := Success(head + types.value);
    }

    /** `toGraphQLString()`, given the text of the schema section and of the
        parts whose printers are not part of this model. */
    method ToGraphQLString(schemaText: RootClasses -> string, scalarText: ScalarState -> string, fieldText: FieldState -> string)
      returns (r: Result<string>)
      requires Valid()
      ensures r == GraphQLText(if schema.Some? then Some(schemaText(schema.value.Roots())) else None,
                               TypeTexts(scalarText, fieldText))
    {
      var head := "";
      if schema.Some? {
        head := schemaText(schema.value.Roots()) + "\n\n";
      }
      var body := TypesText(scalarText, fieldText, TypeTexts(scalarText, fieldText));
      if body.Failure? {
        return Failure(body.error);
      }
      r := Success(head + body.value);
    }

    /** The types loop of `toGraphQLString()`: each builder's text and a blank
        line, in registration order. */
    method TypesText(scalarText: ScalarState -> string, fieldText: FieldState -> string, ghost texts: seq<Result<string>>)
      returns (r: Result<string>)
      requires Valid() && texts == TypeTexts(scalarText, fieldText)
      ensures r == Sections(texts)
    {
      var out := "";
      var keys := typeDefinitions.keys;
      var i := 0;
      while i < |keys|
        invariant 0 <= i <= |keys|
        invariant Sections(texts[..i]) == Success(out)
      {
        var t := TextOne(typeDefinitions.entries[keys[i]], scalarText, fieldText);
        assert t == texts[i];
        SectionsStep(texts, i);
        if t.Failure? {
          return Failure(t.error);
        }
        out := out + t.value + "\n\n";
        i := i + 1;
      }
      assert texts[..i] == texts;
      r := Success(out);
    }

    /** The text one registered builder prints. */
    static method TextOne(ref: TypeBuilderRef, scalarText: ScalarState -> string, fieldText: FieldState -> string)
      returns (r: Result<string>)
      requires ValidRef(ref) && Registrable(ref)
      ensures r == TextOf(ref, scalarText, fieldText)
    {
      match ref
      case ScalarRef(b) =>
        r := Success(scalarText(b.State()));
      case ObjectRef(b) =>
        var s := b.ToGraphQLString(fieldText);
        r := Success(s);
      case InterfaceRef(b) =>
        var s := b.ToGraphQLString(fieldText);
        r := Success(s);
      case UnionRef(b) =>
        r := b.ToGraphQLString();
    }
  }

  /** One more text: its section is appended to a successful prefix, and a
      failing text fails all the sections with its error. */
  lemma SectionsStep(texts: seq<Result<string>>, i: nat)
    requires i < |texts| && Sections(texts[..i]).Success?
    ensures texts[i].Success? ==> Sections(texts[..i + 1]) == Success(Sections(texts[..i]).value + texts[i].value + "\n\n")
    ensures texts[i].Failure? ==> Sections(texts) == Failure(texts[i].error)
  {
    var pre := texts[..i + 1];
    assert pre[..|pre| - 1] == texts[..i];
    assert pre[|pre| - 1] == texts[i];
    if texts[i].Failure? {
      SectionsFailurePersists(texts, i + 1);
    }
  }

  /** Once a prefix of the texts fails, the sections of all of them fail with
      the same error. */
  lemma {:induction false} SectionsFailurePersists(texts: seq<Result<string>>, n: nat)
    requires n <= |texts| && Sections(texts[..n]).Failure?
    ensures Sections(texts) == Failure(Sections(texts[..n]).error)
    decreases |texts|
  {
    if n < |texts| {
      var init := texts[..|texts| - 1];
      assert init[..n] == texts[..n];
      SectionsFailurePersists(init, n);
    } else {
      assert texts[..n] == texts;
    }
  }
}
