/** `EnumTypeBuilder`: an enum type with one value builder per enum constant. */
module EnumTypeBuilders {
  import opened Common
  import opened OrderedMaps
  import opened Manifest
  import opened SchemaTypes
  import opened EnumValueBuilders

  /** A fresh value builder for each distinct constant, in order of first occurrence. */
  method FreshValueBuilders(constants: seq<string>) returns (m: OMap<string, EnumValueBuilder>)
    ensures m.Valid() && m.keys == Dedup(constants)
    ensures forall n :: n in m.entries ==> fresh(m.entries[n]) && m.entries[n].constant == n && m.entries[n].description == None
  {
    m := Empty<string, EnumValueBuilder>();
    var i := 0;
    while i < |constants|
      invariant 0 <= i <= |constants|
      invariant m.Valid() && m.keys == Dedup(constants[..i])
      invariant forall n :: n in m.entries ==> fresh(m.entries[n]) && m.entries[n].constant == n && m.entries[n].description == None
    {
      var b := new EnumValueBuilder(constants[i]);
      PutNextKey(m, constants, i, b);
      m := m.Put(constants[i], b);
      i := i + 1;
    }
    assert constants[..i] == constants;
  }

  class EnumTypeBuilder {
    const host: HostClass
    var description: Option<string>
    /** `valueBuilders`: keyed by constant name, filled once by the constructor. */
    const valueBuilders: OMap<string, EnumValueBuilder>
    ghost const Repr: set<object>

    /** One value builder per constant, in declaration order, each for its own
        constant. */
    ghost predicate Valid()
    {
      valueBuilders.Valid() && valueBuilders.keys == Dedup(host.enumConstants)
      && (forall n :: n in valueBuilders.entries ==> valueBuilders.entries[n].constant == n)
      && Repr == {this} + set n | n in valueBuilders.entries :: valueBuilders.entries[n]
    }

    /** `init`: a fresh value builder for every enum constant. */
    constructor (host: HostClass)
      ensures Valid() && this.host == host && description == None
      ensures forall n :: n in valueBuilders.entries ==> valueBuilders.entries[n].description == None
      ensures fresh(Repr - {this})
    {
      var m := FreshValueBuilders(host.enumConstants);
      this.host := host;
      description := None;
      valueBuilders := m;
      Repr := {this} + set n | n in m.entries :: m.entries[n];
    }

    /** `value(enumValue) { … }`: hands out the builder of the constant for the
        caller's block, or fails when no constant has that name. The builder
        handed out belongs to that constant alone. */
    method Value(name: string) returns (r: Result<EnumValueBuilder>)
      requires Valid()
      ensures r.Failure? <==> name !in host.enumConstants
      ensures r.Failure? ==> r.error == UnknownField(name)
      ensures r.Success? ==> r.value in Repr && r.value.constant == name && r.value == valueBuilders.entries[name]
      ensures r.Success? ==> forall n :: n in valueBuilders.entries && n != name ==> valueBuilders.entries[n] != r.value
    {
      DedupIsOrderedSet(host.enumConstants);
      if name in valueBuilders.entries {
        r := Success(valueBuilders.entries[name]);
      } else {
        r := Failure(UnknownField(name));
      }
    }

    /** The values the value builders build, in key order. */
    function Values(): (r: seq<GEnumValue>)
      requires Valid()
      reads Repr
      ensures |r| == |Dedup(host.enumConstants)|
      ensures forall i :: 0 <= i < |r| ==> r[i].name == Dedup(host.enumConstants)[i]
      ensures forall i :: 0 <= i < |r| ==> r[i] == valueBuilders.entries[valueBuilders.keys[i]].Built()
    {
      seq(|valueBuilders.keys|, i requires 0 <= i < |valueBuilders.keys| reads Repr =>
        valueBuilders.entries[valueBuilders.keys[i]].Built())
    }

    /** `build`: the host's simple name, the description when set, and one value
        per constant in declaration order. */
    method Build() returns (t: GType)
      requires Valid()
      ensures t == EnumType(host.simpleName, description, Values())
    {
      var keys := valueBuilders.keys;
      ghost var vs := Values();
      var values: seq<GEnumValue> := [];
      var i := 0;
      while i < |keys|
        invariant 0 <= i <= |keys|
        invariant values == vs[..i]
      {
        var v := valueBuilders.entries[keys[i]].Build();
        values := values + [v];
        i := i + 1;
      }
      t := EnumType(host.simpleName, description, values);
    }
  }
}
