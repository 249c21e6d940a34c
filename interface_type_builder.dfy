/** `InterfaceTypeBuilder`: an interface type derived from a host class, with one
    field builder per member property, resolved at run time by class name. */
module InterfaceTypeBuilders {
  import opened Common
  import opened OrderedMaps
  import opened Manifest
  import opened Values
  import opened SchemaTypes
  import opened FieldBuilders
  import opened BuilderContexts
  import opened PrinterUtils
  import opened GraphQLPrinter
  import opened ObjectTypeBuilders

  /** The simple name of the runtime class of a value a resolver returned: a
      caller object's own class, or the JVM class a plain value has (the list and
      map classes are those `objectFromValue` builds). Null cannot be assigned to
      the resolver's non-null variable, and `simpleName!!` throws for a class
      without a simple name. */
  function RuntimeClassName(obj: RValue): (r: Result<string>)
    ensures r.Failure? <==> obj == RNull || (obj.RObject? && obj.className.None?)
    ensures r.Failure? ==> r.error == NullDereference
    ensures obj.RObject? && obj.className.Some? ==> r == Success(obj.className.value)
  {
    match obj
    case RNull => Failure(NullDereference)
    case RBool(_) => Success("Boolean")
    case RInt(_) => Success("BigInteger")
    case RDecimal(_) => Success("BigDecimal")
    case RString(_) => Success("String")
    case RList(_) => Success("ArrayList")
    case RMap(_) => Success("LinkedHashMap")
    case RObject(className, _) => if className.None? then Failure(NullDereference) else Success(className.value)
  }

  /** The type resolver `build` installs: the schema's type named after the
      runtime class of the value, absent when there is none, and an error when the
      type of that name is not an object type (`getObjectType`). */
  function ResolveType(schemaTypes: map<string, GType>, obj: RValue): (r: Result<Option<GType>>)
    ensures RuntimeClassName(obj).Failure? ==> r == Failure(RuntimeClassName(obj).error)
    ensures RuntimeClassName(obj).Success? ==>
      var n := RuntimeClassName(obj).value;
      (r == Success(None) <==> n !in schemaTypes)
      && (r.Failure? <==> n in schemaTypes && !schemaTypes[n].ObjectType?)
      && (r.Failure? ==> r.error == ObjectTypeExpected(n))
      && (r.Success? && r.value.Some? ==> r.value.value == schemaTypes[n] && r.value.value.ObjectType?)
  {
    var n :- RuntimeClassName(obj);
    if n !in schemaTypes then Success(None)
    else if schemaTypes[n].ObjectType? then Success(Some(schemaTypes[n]))
    else Failure(ObjectTypeExpected(n))
  }

  /** Resolution looks at the name of the runtime class and nothing else: two
      caller objects of the same class resolve alike, whatever their contents. */
  lemma ResolveByNameOnly(schemaTypes: map<string, GType>, a: RValue, b: RValue)
    requires a.RObject? && b.RObject? && a.className == b.className
    ensures ResolveType(schemaTypes, a) == ResolveType(schemaTypes, b)
  {
  }

  /** For a type without a description, and with field texts that are what the
      schema printer gives for the built fields, the interface builder prints the
      same text as the schema printer prints for the type it builds. */
  lemma InterfaceTextAgrees(name: string, ss: seq<FieldState>, fieldText: FieldState -> string)
    requires forall i :: 0 <= i < |ss| ==> fieldText(ss[i]) == FieldText(FieldOf(ss[i]))
    ensures DefinitionText("interface", name, None, Texts(ss, fieldText)) == InterfaceText(name, None, FieldsFrom(ss))
  {
    assert Texts(ss, fieldText) == FieldTexts(FieldsFrom(ss));
  }

  class InterfaceTypeBuilder {
    const host: HostClass
    var description: Option<string>
    /** `definitionBuilders`: filled once, by the constructor; its keys never change. */
    const definitionBuilders: OMap<Property, FieldBuilder>
    ghost const Repr: set<object>

    /** One field builder per member property, in declaration order, each for its
        own property. */
    ghost predicate Valid()
    {
      definitionBuilders.Valid() && definitionBuilders.keys == Dedup(host.memberProperties)
      && (forall p :: p in definitionBuilders.entries ==> definitionBuilders.entries[p].field == p)
      && Repr == {this} + set p | p in definitionBuilders.entries :: definitionBuilders.entries[p]
    }

    /** `init`: a fresh field builder for every member property. */
    constructor (host: HostClass)
      ensures Valid() && this.host == host && description == None
      ensures forall p :: p in definitionBuilders.entries ==>
        definitionBuilders.entries[p].State() == FieldState(p, None, None, None)
      ensures fresh(Repr - {this})
    {
      var m := FreshFieldBuilders(host.memberProperties);
      this.host := host;
      description := None;
      definitionBuilders := m;
      Repr := {this} + set p | p in m.entries :: m.entries[p];
    }

    /** `field(p) { … }`: hands out the builder of `p` for the caller's block to
        configure, or fails when `p` is not a member property. The builder handed
        out belongs to `p` alone, so the block changes no other field. */
    method Field(p: Property) returns (r: Result<FieldBuilder>)
      requires Valid()
      ensures r.Failure? <==> p !in host.memberProperties
      ensures r.Failure? ==> r.error == UnknownField(p.name)
      ensures r.Success? ==> r.value in Repr && r.value.field == p && r.value == definitionBuilders.entries[p]
      ensures r.Success? ==> forall q :: q in definitionBuilders.entries && q != p ==> definitionBuilders.entries[q] != r.value
    {
      DedupIsOrderedSet(host.memberProperties);
      if p in definitionBuilders.entries {
        r := Success(definitionBuilders.entries[p]);
      } else {
        r := Failure(UnknownField(p.name));
      }
    }

    /** The states of the field builders, in key order. */
    function FieldStates(): (r: seq<FieldState>)
      requires Valid()
      reads Repr
      ensures |r| == |Dedup(host.memberProperties)|
      ensures forall i :: 0 <= i < |r| ==> r[i].field == definitionBuilders.keys[i]
      ensures forall i :: 0 <= i < |r| ==> r[i] == definitionBuilders.entries[definitionBuilders.keys[i]].State()
    {
      seq(|definitionBuilders.keys|, i requires 0 <= i < |definitionBuilders.keys| reads Repr =>
        definitionBuilders.entries[definitionBuilders.keys[i]].State())
    }

    /** `build`: the host's simple name, the description when set, and the fields
        built in key order; each field registers its resolver, and the interface's
        name gets the type resolver that looks up the runtime class name. */
    method Build(ctx: BuilderContext) returns (t: GType)
      requires Valid() && ctx !in Repr
      modifies ctx`codeRegistry, ctx`typeWiring
      ensures t == InterfaceType(host.simpleName, description, FieldsFrom(FieldStates()))
      ensures ctx.codeRegistry == RegisterFetchers(old(ctx.codeRegistry), FieldStates())
      ensures ctx.typeWiring == old(ctx.typeWiring)[host.simpleName := ByRuntimeClassName]
    {
      var fields := BuildFields(ctx);
      ctx.typeWiring := ctx.typeWiring[host.simpleName := ByRuntimeClassName];
      t := InterfaceType(host.simpleName, description, fields);
    }

    /** The field loop of `build`. */
    method BuildFields(ctx: BuilderContext) returns (fields: seq<GField>)
      requires Valid() && ctx !in Repr
      modifies ctx`codeRegistry
      ensures fields == FieldsFrom(FieldStates())
      ensures ctx.codeRegistry == RegisterFetchers(old(ctx.codeRegistry), FieldStates())
    {
      var keys := definitionBuilders.keys;
      ghost var ss := FieldStates();
      fields := [];
      var i := 0;
      while i < |keys|
        invariant 0 <= i <= |keys|
        invariant fields == FieldsFrom(ss[..i])
        invariant ctx.codeRegistry == RegisterFetchers(old(ctx.codeRegistry), ss[..i])
        invariant FieldStates() == ss
      {
        var b := definitionBuilders.entries[keys[i]];
        assert b.State() == ss[i];
        FieldsStep(ss, i, old(ctx.codeRegistry));
        var f := b.Build(ctx);
        fields := fields + [f];
        i := i + 1;
      }
      assert ss[..i] == ss;
    }

    /** `toGraphQLString`, given the text each field builder prints. */
    method ToGraphQLString(fieldText: FieldState -> string) returns (s: string)
      requires Valid()
      ensures s == DefinitionText("interface", host.simpleName, description, Texts(FieldStates(), fieldText))
    {
      var head := BuilderDescription(description) + "interface " + host.simpleName + " {\n";
      var lines := PrintFieldItems(FieldStates(), fieldText);
      s := head + lines + "}";
    }
  }
}
