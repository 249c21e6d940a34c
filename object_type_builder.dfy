/** `ObjectTypeBuilder`: an object type derived from a host class, with one field
    builder per member property. Also home of the block layout the object and
    interface builders print themselves with. */
module ObjectTypeBuilders {
  import opened Common
  import opened OrderedMaps
  import opened Manifest
  import opened SchemaTypes
  import opened FieldBuilders
  import opened BuilderContexts
  import opened PrinterUtils
  import opened GraphQLPrinter

  /** The fields built from field builders in states `ss`, in order. */
  function FieldsFrom(ss: seq<FieldState>): (r: seq<GField>)
    ensures |r| == |ss| && forall i :: 0 <= i < |ss| ==> r[i] == FieldOf(ss[i])
  {
    seq(|ss|, i requires 0 <= i < |ss| => FieldOf(ss[i]))
  }

  /** One more field builder: its field is appended, and its resolver registered
      after those of the builders before it. */
  lemma FieldsStep(ss: seq<FieldState>, i: nat, reg: CodeRegistry)
    requires i < |ss|
    ensures FieldsFrom(ss[..i + 1]) == FieldsFrom(ss[..i]) + [FieldOf(ss[i])]
    ensures RegisterFetchers(reg, ss[..i + 1]) == RegisterFetcher(RegisterFetchers(reg, ss[..i]), ss[i])
  {
    assert ss[..i + 1][..i] == ss[..i];
  }

  /** The description as the builders print it: always a block string, whatever
      the number of lines. */
  function BuilderDescription(description: Option<string>): string
  {
    if description.Some? then "\"\"\"\n" + description.value + "\n\"\"\"\n" else ""
  }

  /** The text `toGraphQLString` of an object or interface builder gives: the
      description, `keyword Name {`, each item indented on its own line, `}`. */
  function DefinitionText(keyword: string, name: string, description: Option<string>, items: seq<string>): string
  {
    BuilderDescription(description) + keyword + " " + name + " {\n" + IndentedItems(items) + "}"
  }

  /** The definition is the header followed by a block as `printBlock` lays it out. */
  lemma DefinitionIsBlock(keyword: string, name: string, description: Option<string>, items: seq<string>)
    ensures DefinitionText(keyword, name, description, items)
      == BuilderDescription(description) + keyword + " " + name + " " + BlockText(items)
  {
  }

  /** Without a description, a definition whose keyword and name hold no line
      break reads `keyword Name {`, the lines of every item indented by three
      spaces, then `}`. */
  lemma DefinitionLines(keyword: string, name: string, items: seq<string>)
    requires NoBreak(keyword) && NoBreak(name)
    ensures Lines(DefinitionText(keyword, name, None, items)) == [keyword + " " + name + " {"] + ItemLines(items) + ["}"]
  {
    var header := keyword + " " + name + " ";
    NoBreakConcat(keyword, " ");
    NoBreakConcat(keyword + " ", name);
    NoBreakConcat(keyword + " " + name, " ");
    DefinitionIsBlock(keyword, name, None, items);
    assert DefinitionText(keyword, name, None, items) == header + BlockText(items);
    BlockLines(header, items);
    assert header + "{" == keyword + " " + name + " {";
  }

  /** For a type without a description, and with field texts that are what the
      schema printer gives for the built fields, the object builder prints the
      same text as the schema printer prints for the type it builds. */
  lemma ObjectTextAgrees(name: string, ss: seq<FieldState>, fieldText: FieldState -> string)
    requires forall i :: 0 <= i < |ss| ==> fieldText(ss[i]) == FieldText(FieldOf(ss[i]))
    ensures DefinitionText("type", name, None, Texts(ss, fieldText)) == ObjectText(name, None, [], FieldsFrom(ss))
  {
    assert Texts(ss, fieldText) == FieldTexts(FieldsFrom(ss));
  }

  /** A fresh field builder for each distinct property, in order of first occurrence. */
  method FreshFieldBuilders(props: seq<Property>) returns (m: OMap<Property, FieldBuilder>)
    ensures m.Valid() && m.keys == Dedup(props)
    ensures forall p :: p in m.entries ==> fresh(m.entries[p]) && m.entries[p].State() == FieldState(p, None, None, None)
  {
    m := Empty<Property, FieldBuilder>();
    var i := 0;
    while i < |props|
      invariant 0 <= i <= |props|
      invariant m.Valid() && m.keys == Dedup(props[..i])
      invariant forall p :: p in m.entries ==> fresh(m.entries[p]) && m.entries[p].State() == FieldState(p, None, None, None)
    {
      var b := new FieldBuilder(props[i]);
      PutNextKey(m, props, i, b);
      m := m.Put(props[i], b);
      i := i + 1;
    }
    assert props[..i] == props;
  }

  /** The field lines of a definition: each field builder's text indented, on
      its own line. */
  method PrintFieldItems(ss: seq<FieldState>, fieldText: FieldState -> string) returns (lines: string)
    ensures lines == IndentedItems(Texts(ss, fieldText))
  {
    ghost var items := Texts(ss, fieldText);
    lines := "";
    var i := 0;
    while i < |ss|
      invariant 0 <= i <= |ss|
      invariant lines == IndentedItems(items[..i])
    {
      assert items[..i + 1][..i] == items[..i];
      lines := lines + Indent(fieldText(ss[i])) + "\n";
      i := i + 1;
    }
    assert items[..i] == items;
  }

  class ObjectTypeBuilder {
    const host: HostClass
    var description: Option<string>
    /** `definitionBuilders`: filled once, by the constructor; its keys never change. */
    const definitionBuilders: OMap<Property, FieldBuilder>
    ghost const Repr: set<object>

    /** One field builder per member property, in declaration order, each for its
        own property. */
    ghost predicate Valid()
    {
      definitionBuilders.Valid() && definitionBuilders.keys == Dedup(host.memberProperties)
      && (forall p :: p in definitionBuilders.entries ==> definitionBuilders.entries[p].field == p)
      && Repr == {this} + set p | p in definitionBuilders.entries :: definitionBuilders.entries[p]
    }

    /** `init`: a fresh field builder for every member property. */
    constructor (host: HostClass)
      ensures Valid() && this.host == host && description == None
      ensures forall p :: p in definitionBuilders.entries ==>
        definitionBuilders.entries[p].State() == FieldState(p, None, None, None)
      ensures fresh(Repr - {this})
    {
      var m := FreshFieldBuilders(host.memberProperties);
      this.host := host;
      description := None;
      definitionBuilders := m;
      Repr := {this} + set p | p in m.entries :: m.entries[p];
    }

    /** `field(p) { … }`: hands out the builder of `p` for the caller's block to
        configure, or fails when `p` is not a member property. The builder handed
        out belongs to `p` alone, so the block changes no other field. */
    method Field(p: Property) returns (r: Result<FieldBuilder>)
      requires Valid()
      ensures r.Failure? <==> p !in host.memberProperties
      ensures r.Failure? ==> r.error == UnknownField(p.name)
      ensures r.Success? ==> r.value in Repr && r.value.field == p && r.value == definitionBuilders.entries[p]
      ensures r.Success? ==> forall q :: q in definitionBuilders.entries && q != p ==> definitionBuilders.entries[q] != r.value
    {
      DedupIsOrderedSet(host.memberProperties);
      if p in definitionBuilders.entries {
        r := Success(definitionBuilders.entries[p]);
      } else {
        r := Failure(UnknownField(p.name));
      }
    }

    /** The states of the field builders, in key order. */
    function FieldStates(): (r: seq<FieldState>)
      requires Valid()
      reads Repr
      ensures |r| == |Dedup(host.memberProperties)|
      ensures forall i :: 0 <= i < |r| ==> r[i].field == definitionBuilders.keys[i]
      ensures forall i :: 0 <= i < |r| ==> r[i] == definitionBuilders.entries[definitionBuilders.keys[i]].State()
    {
      seq(|definitionBuilders.keys|, i requires 0 <= i < |definitionBuilders.keys| reads Repr =>
        definitionBuilders.entries[definitionBuilders.keys[i]].State())
    }

    /** `build`: the host's simple name, the description when set, no interfaces,
        and the fields built in key order; each field registers its resolver, and
        nothing else of the context changes. */
    method Build(ctx: BuilderContext) returns (t: GType)
      requires Valid() && ctx !in Repr
      modifies ctx`codeRegistry
      ensures t == ObjectType(host.simpleName, description, [], FieldsFrom(FieldStates()))
      ensures ctx.codeRegistry == RegisterFetchers(old(ctx.codeRegistry), FieldStates())
    {
      var keys := definitionBuilders.keys;
      ghost var ss := FieldStates();
      var fields: seq<GField> := [];
      var i := 0;
      while i < |keys|
        invariant 0 <= i <= |keys|
        invariant fields == FieldsFrom(ss[..i])
        invariant ctx.codeRegistry == RegisterFetchers(old(ctx.codeRegistry), ss[..i])
        invariant FieldStates() == ss
      {
        var b := definitionBuilders.entries[keys[i]];
        assert b.State() == ss[i];
        FieldsStep(ss, i, old(ctx.codeRegistry));
        var f := b.Build(ctx);
        fields := fields + [f];
        i := i + 1;
      }
      assert ss[..i] == ss;
      t := ObjectType(host.simpleName, description, [], fields);
    }

    /** `toGraphQLString`, given the text each field builder prints. */
    method ToGraphQLString(fieldText: FieldState -> string) returns (s: string)
      requires Valid()
      ensures s == DefinitionText("type", host.simpleName, description, Texts(FieldStates(), fieldText))
    {
      var head := BuilderDescription(description) + "type " + host.simpleName + " {\n";
      var lines := PrintFieldItems(FieldStates(), fieldText);
      s := head + lines + "}";
    }
  }
}
