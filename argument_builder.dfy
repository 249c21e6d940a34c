/** `ArgumentBuilder`: one argument of a field or of a directive, derived from a
    property of the arguments class. */
module ArgumentBuilders {
  import opened Common
  import opened OrderedMaps
  import opened Manifest
  import opened Values
  import opened SchemaTypes

  /** What an argument builder holds; Kotlin's null default is `RNull`. */
  datatype ArgumentState = ArgumentState(field: Property, description: Option<string>, defaultValue: RValue)

  /** The argument `build` emits for a builder in state `s`: named after the
      property, typed by a reference to the simple name of the property's class,
      with the description and the default only when they are not null. */
  function ArgumentOf(s: ArgumentState): (a: GArgument)
    ensures a.name == s.field.name
    ensures a.typeRef == ClassifierName(s.field.returnType)
    ensures a.description == s.description
    ensures a.defaultValue.Some? <==> s.defaultValue != RNull
    ensures a.defaultValue.Some? ==> a.defaultValue.value == s.defaultValue
    ensures a.value == RNull
  {
    GArgument(
      s.field.name,
      ClassifierName(s.field.returnType),
      s.description,
      if s.defaultValue == RNull then None else Some(s.defaultValue),
      RNull)
  }

  /** The arguments emitted for a list of builders, one each, in order. */
  function ArgumentsOf(ss: seq<ArgumentState>): (r: seq<GArgument>)
    ensures |r| == |ss|
    ensures forall i :: 0 <= i < |ss| ==> r[i] == ArgumentOf(ss[i])
  {
    seq(|ss|, i requires 0 <= i < |ss| => ArgumentOf(ss[i]))
  }

  /** Setting a null default gives the same argument as never setting one, and
      any other default is emitted as given, whatever its type. */
  lemma NullDefaultIsUnset(field: Property, description: Option<string>, v: RValue)
    ensures ArgumentOf(ArgumentState(field, description, RNull)).defaultValue == None
    ensures v != RNull ==> ArgumentOf(ArgumentState(field, description, v)).defaultValue == Some(v)
    ensures ArgumentOf(ArgumentState(field, description, v)).name == field.name
  {
  }

  class ArgumentBuilder {
    const field: Property
    var description: Option<string>
    var defaultValue: RValue

    constructor (field: Property)
      ensures this.field == field && description == None && defaultValue == RNull
    {
      this.field := field;
      description := None;
      defaultValue := RNull;
    }

    function State(): ArgumentState
      reads this
    {
      ArgumentState(field, description, defaultValue)
    }

    /** `defaultValue(value)`: the last value set wins. */
    method DefaultValue(value: RValue)
      modifies this`defaultValue
      ensures defaultValue == value
    {
      defaultValue := value;
    }

    /** `build`: the context is not consulted. */
    method Build() returns (a: GArgument)
      ensures a == ArgumentOf(State())
    {
      var dflt := None;
      if defaultValue != RNull {
        dflt := Some(defaultValue);
      }
      a := GArgument(field.name, ClassifierName(field.returnType), description, dflt, RNull);
    }
  }

  /** A fresh argument builder for each distinct property, in order of first occurrence. */
  method FreshArgumentBuilders(props: seq<Property>) returns (m: OMap<Property, ArgumentBuilder>)
    ensures m.Valid() && m.keys == Dedup(props)
    ensures forall p :: p in m.entries ==> fresh(m.entries[p]) && m.entries[p].State() == ArgumentState(p, None, RNull)
  {
    m := Empty<Property, ArgumentBuilder>();
    var i := 0;
    while i < |props|
      invariant 0 <= i <= |props|
      invariant m.Valid() && m.keys == Dedup(props[..i])
      invariant forall p :: p in m.entries ==> fresh(m.entries[p]) && m.entries[p].State() == ArgumentState(p, None, RNull)
    {
      var b := new ArgumentBuilder(props[i]);
      PutNextKey(m, props, i, b);
      m := m.Put(props[i], b);
      i := i + 1;
    }
    assert props[..i] == props;
  }
}
