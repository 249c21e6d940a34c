/** `FieldBuilder`: one field of an object or interface type, derived from a
    member property, with an optional resolver and optional arguments. */
module FieldBuilders {
  import opened Common
  import opened Manifest
  import opened Utils
  import opened SchemaTypes
  import opened ArgumentBuilders
  import opened FieldArgumentsBuilders
  import opened BuilderContexts

  /** What a field builder holds. The arguments are those of the arguments
      builder attached last, taken when it is attached. */
  datatype FieldState = FieldState(
    field: Property,
    description: Option<string>,
    resolver: Option<FnId>,
    arguments: Option<seq<ArgumentState>>)

  /** The field `build` emits: named after the property, typed by a bare
      reference to the simple name of the property's class (list wrapping and
      nullability dropped), the description only when set, one argument per
      argument builder in order, none without an arguments builder. */
  function FieldOf(s: FieldState): (f: GField)
    ensures f.name == s.field.name
    ensures f.typeRef == ClassifierName(s.field.returnType)
    ensures f.description == s.description
    ensures s.arguments.None? ==> f.arguments == []
    ensures s.arguments.Some? ==>
      (|f.arguments| == |s.arguments.value|
       && forall i :: 0 <= i < |f.arguments| ==> f.arguments[i] == ArgumentOf(s.arguments.value[i]))
  {
    GField(s.field.name, ClassifierName(s.field.returnType), s.description,
      if s.arguments.None? then [] else ArgumentsOf(s.arguments.value))
  }

  /** The code registry after building a field in state `s`. */
  function RegisterFetcher(reg: CodeRegistry, s: FieldState): CodeRegistry
  {
    if s.resolver.Some? then CodeRegistry(reg.dataFetchers[CoordinatesFrom(s.field) := s.resolver.value])
    else reg
  }

  /** A data fetcher is registered at (declaring class, field name) exactly when
      a resolver is set, and every other coordinate keeps its fetcher. */
  lemma RegisterFetcherEffect(reg: CodeRegistry, s: FieldState, c: FieldCoordinates)
    ensures s.resolver.None? ==> RegisterFetcher(reg, s) == reg
    ensures s.resolver.Some? ==> RegisterFetcher(reg, s).dataFetchers[FieldCoordinates(s.field.declaringClass, s.field.name)] == s.resolver.value
    ensures c != CoordinatesFrom(s.field) ==>
      (c in RegisterFetcher(reg, s).dataFetchers <==> c in reg.dataFetchers)
      && (c in reg.dataFetchers ==> RegisterFetcher(reg, s).dataFetchers[c] == reg.dataFetchers[c])
  {
  }

  /** The registry after building the fields `ss` one after another. */
  function RegisterFetchers(reg: CodeRegistry, ss: seq<FieldState>): CodeRegistry
  {
    if |ss| == 0 then reg else RegisterFetcher(RegisterFetchers(reg, ss[..|ss| - 1]), ss[|ss| - 1])
  }

  /** The resolver of the last field in `ss` that has one and whose coordinates are `c`. */
  function LastFetcherAt(ss: seq<FieldState>, c: FieldCoordinates): Option<FnId>
  {
    if |ss| == 0 then None
    else if ss[|ss| - 1].resolver.Some? && CoordinatesFrom(ss[|ss| - 1].field) == c then ss[|ss| - 1].resolver
    else LastFetcherAt(ss[..|ss| - 1], c)
  }

  /** Building a list of fields leaves at each coordinate the resolver of the last
      field there that has one; a coordinate no such field names keeps what it had. */
  lemma {:induction false} RegisterFetchersAt(reg: CodeRegistry, ss: seq<FieldState>, c: FieldCoordinates)
    ensures c in RegisterFetchers(reg, ss).dataFetchers <==> LastFetcherAt(ss, c).Some? || c in reg.dataFetchers
    ensures c in RegisterFetchers(reg, ss).dataFetchers ==>
      RegisterFetchers(reg, ss).dataFetchers[c] ==
        (if LastFetcherAt(ss, c).Some? then LastFetcherAt(ss, c).value else reg.dataFetchers[c])
  {
    if |ss| > 0 {
      RegisterFetchersAt(reg, ss[..|ss| - 1], c);
    }
  }

  class FieldBuilder {
    const field: Property
    var description: Option<string>
    var resolver: Option<FnId>
    var arguments: Option<seq<ArgumentState>>

    constructor (field: Property)
      ensures this.field == field && description == None && resolver == None && arguments == None
    {
      this.field := field;
      description := None;
      resolver := None;
      arguments := None;
    }

    function State(): FieldState
      reads this
    {
      FieldState(field, description, resolver, arguments)
    }

    /** `arguments(typeClass) { … }`: the caller creates and configures the
        arguments builder, which replaces any attached before. */
    method Arguments(builder: FieldArgumentsBuilder)
      requires builder.Valid()
      modifies this`arguments
      ensures arguments == Some(builder.States())
    {
      arguments := Some(builder.States());
    }

    /** `resolver(fn)`: replaces any earlier resolver. */
    method Resolver(fn: FnId)
      modifies this`resolver
      ensures resolver == Some(fn)
    {
      resolver := Some(fn);
    }

    /** `build`: registers the resolver, if any, as the data fetcher of the
        field's coordinates, then builds the arguments in order. */
    method Build(ctx: BuilderContext) returns (f: GField)
      modifies ctx`codeRegistry
      ensures f == FieldOf(State())
      ensures ctx.codeRegistry == RegisterFetcher(old(ctx.codeRegistry), State())
    {
      f := GField(field.name, ClassifierName(field.returnType), None, []);
      if description.Some? {
        f := f.(description := description);
      }
      if resolver.Some? {
        var coordinates := CoordinatesFrom(field);
        ctx.codeRegistry := CodeRegistry(ctx.codeRegistry.dataFetchers[coordinates := resolver.value]);
      }
      if arguments.Some? {
        var args := arguments.value;
        var i := 0;
        while i < |args|
          invariant 0 <= i <= |args|
          invariant f == GField(field.name, ClassifierName(field.returnType), description, ArgumentsOf(args[..i]))
        {
          var a := ArgumentOf(args[i]);
          assert ArgumentsOf(args[..i + 1]) == ArgumentsOf(args[..i]) + [a];
          f := f.(arguments := f.arguments + [a]);
          i := i + 1;
        }
        assert args[..i] == args;
      }
    }
  }
}
