/** `InputTypeBuilder`: an input object type with one input-field builder per
    member property. */
module InputTypeBuilders {
  import opened Common
  import opened OrderedMaps
  import opened Manifest
  import opened SchemaTypes
  import opened GraphQLPrinter

  /** One field of an input type. Its own source file is not part of this model:
      it is taken to emit the property's name, a reference to the simple name of
      its class and the description, with no default value. */
  class InputFieldBuilder {
    const field: Property
    var description: Option<string>

    constructor (field: Property)
      ensures this.field == field && description == None
    {
      this.field := field;
      description := None;
    }

    function Built(): GInputField
      reads this
    {
      GInputField(field.name, ClassifierName(field.returnType), description, None)
    }

    method Build() returns (f: GInputField)
      ensures f == Built()
      ensures f.name == field.name && f.typeRef == ClassifierName(field.returnType) && f.description == description
    {
      f := GInputField(field.name, ClassifierName(field.returnType), description, None);
    }
  }

  /** A fresh input-field builder for each distinct property, in order of first occurrence. */
  method FreshInputFieldBuilders(props: seq<Property>) returns (m: OMap<Property, InputFieldBuilder>)
    ensures m.Valid() && m.keys == Dedup(props)
    ensures forall p :: p in m.entries ==> fresh(m.entries[p]) && m.entries[p].field == p && m.entries[p].description == None
  {
    m := Empty<Property, InputFieldBuilder>();
    var i := 0;
    while i < |props|
      invariant 0 <= i <= |props|
      invariant m.Valid() && m.keys == Dedup(props[..i])
      invariant forall p :: p in m.entries ==> fresh(m.entries[p]) && m.entries[p].field == p && m.entries[p].description == None
    {
      var b := new InputFieldBuilder(props[i]);
      PutNextKey(m, props, i, b);
      m := m.Put(props[i], b);
      i := i + 1;
    }
    assert props[..i] == props;
  }

  class InputTypeBuilder {
    const host: HostClass
    var description: Option<string>
    /** `fieldBuilder`: filled once, by the constructor; its keys never change. */
    const fieldBuilder: OMap<Property, InputFieldBuilder>
    ghost const Repr: set<object>

    ghost predicate Valid()
    {
      fieldBuilder.Valid() && fieldBuilder.keys == Dedup(host.memberProperties)
      && (forall p :: p in fieldBuilder.entries ==> fieldBuilder.entries[p].field == p)
      && Repr == {this} + set p | p in fieldBuilder.entries :: fieldBuilder.entries[p]
    }

    /** `init`: a fresh input-field builder for every member property. */
    constructor (host: HostClass)
      ensures Valid() && this.host == host && description == None
      ensures forall p :: p in fieldBuilder.entries ==> fieldBuilder.entries[p].description == None
      ensures fresh(Repr - {this})
    {
      var m := FreshInputFieldBuilders(host.memberProperties);
      this.host := host;
      description := None;
      fieldBuilder := m;
      Repr := {this} + set p | p in m.entries :: m.entries[p];
    }

    /** `field(p) { … }`: hands out the builder of `p`, or fails when `p` is not a
        member property; no other field's builder is the one handed out. */
    method Field(p: Property) returns (r: Result<InputFieldBuilder>)
      requires Valid()
      ensures r.Failure? <==> p !in host.memberProperties
      ensures r.Failure? ==> r.error == UnknownField(p.name)
      ensures r.Success? ==> r.value in Repr && r.value.field == p && r.value == fieldBuilder.entries[p]
      ensures r.Success? ==> forall q :: q in fieldBuilder.entries && q != p ==> fieldBuilder.entries[q] != r.value
    {
      DedupIsOrderedSet(host.memberProperties);
      if p in fieldBuilder.entries {
        r := Success(fieldBuilder.entries[p]);
      } else {
        r := Failure(UnknownField(p.name));
      }
    }

    /** The input fields the builders build, in key order. */
    function InputFields(): (r: seq<GInputField>)
      requires Valid()
      reads Repr
      ensures |r| == |Dedup(host.memberProperties)|
      ensures forall i :: 0 <= i < |r| ==> r[i].name == Dedup(host.memberProperties)[i].name
      ensures forall i :: 0 <= i < |r| ==> r[i] == fieldBuilder.entries[fieldBuilder.keys[i]].Built()
    {
      seq(|fieldBuilder.keys|, i requires 0 <= i < |fieldBuilder.keys| reads Repr =>
        fieldBuilder.entries[fieldBuilder.keys[i]].Built())
    }

    /** `build`: the host's simple name, the description when set, and one field
        per builder in key order. */
    method Build() returns (t: GType)
      requires Valid()
      ensures t == InputObjectType(host.simpleName, description, InputFields())
    {
      var keys := fieldBuilder.keys;
      ghost var fs := InputFields();
      var fields: seq<GInputField> := [];
      var i := 0;
      while i < |keys|
        invariant 0 <= i <= |keys|
        invariant fields == fs[..i]
      {
        var f := fieldBuilder.entries[keys[i]].Build();
        fields := fields + [f];
        i := i + 1;
      }
      t := InputObjectType(host.simpleName, description, fields);
    }
  }

  /** The schema printer cannot print an input type, whatever it holds. */
  lemma InputTypesAreNotPrintable(name: string, description: Option<string>, fields: seq<GInputField>)
    ensures TypeText(NamedType(InputObjectType(name, description, fields))) == Failure(UnsupportedPrinterType("GraphQLInputObjectType"))
  {
  }
}
