/** `ScalarTypeBuilder`: a custom scalar whose coercion wraps the caller's
    serializer and deserializer. */
module ScalarTypeBuilders {
  import opened Common
  import opened Manifest
  import opened Values
  import opened Utils
  import opened SchemaTypes

  /** What a coercion call can throw: graphql-java's `CoercingSerializeException`
      (with the exception it wraps, if any), an exception of the caller's own, or
      one raised by the DSL's literal conversion. */
  datatype Thrown =
    | CoercingSerializeException(cause: Option<Thrown>)
    | CallerException(id: nat)
    | ConversionException(error: Error)

  /** The outcome of calling a function: a value, or an exception. */
  datatype CallOutcome = Returned(value: RValue) | Threw(thrown: Thrown)

  /** What a scalar builder holds. */
  datatype ScalarState = ScalarState(
    host: HostClass,
    description: Option<string>,
    serializer: Option<FnId>,
    deserializer: Option<FnId>)

  /** `build`: a missing serializer is reported first, then a missing
      deserializer; otherwise the scalar is named after the host class, carries the
      description when set, and coerces with the two functions. */
  function ScalarOf(s: ScalarState): (r: Result<GType>)
    ensures r.Failure? <==> s.serializer.None? || s.deserializer.None?
    ensures s.serializer.None? ==> r == Failure(MissingSerializer(s.host.simpleName))
    ensures s.serializer.Some? && s.deserializer.None? ==> r == Failure(MissingDeserializer(s.host.simpleName))
    ensures r.Success? ==>
      r.value == ScalarType(s.host.simpleName, s.description, UserCoercing(s.serializer.value, s.deserializer.value))
  {
    if s.serializer.None? then Failure(MissingSerializer(s.host.simpleName))
    else if s.deserializer.None? then Failure(MissingDeserializer(s.host.simpleName))
    else Success(ScalarType(s.host.simpleName, s.description, UserCoercing(s.serializer.value, s.deserializer.value)))
  }

  /** The `catch` block the three coercion functions share: a value passes,
      a `CoercingSerializeException` is rethrown as it is, anything else is
      wrapped in a new one. */
  function Rethrow(o: CallOutcome): CallOutcome
  {
    match o
    case Returned(_) => o
    case Threw(CoercingSerializeException(_)) => o
    case Threw(e) => Threw(CoercingSerializeException(Some(e)))
  }

  /** `serialize`: the serializer applied to the input. */
  function Serialize(call: (FnId, RValue) -> CallOutcome, c: Coercing, input: RValue): CallOutcome
    requires c.UserCoercing?
  {
    Rethrow(call(c.serializer, input))
  }

  /** `parseValue`: the deserializer applied to the input. */
  function ParseValue(call: (FnId, RValue) -> CallOutcome, c: Coercing, output: RValue): CallOutcome
    requires c.UserCoercing?
  {
    Rethrow(call(c.deserializer, output))
  }

  /** `parseLiteral`: the deserializer applied to the literal converted by
      `objectFromValue`, which runs inside the same `try`. */
  function ParseLiteral(call: (FnId, RValue) -> CallOutcome, c: Coercing, ast: Value, stack: nat): CallOutcome
    requires c.UserCoercing?
  {
    match ObjectOf(ast, stack)
    case Failure(e) => Rethrow(Threw(ConversionException(e)))
    case Success(v) => Rethrow(call(c.deserializer, v))
  }

  /** Whatever the caller's function does, a coercion returns its value
      unchanged or throws a `CoercingSerializeException`; an exception of another
      kind is kept as the cause, and one of the right kind passes untouched. */
  lemma RethrowOutcomes(o: CallOutcome)
    ensures o.Returned? ==> Rethrow(o) == o
    ensures Rethrow(o).Threw? <==> o.Threw?
    ensures Rethrow(o).Threw? ==> Rethrow(o).thrown.CoercingSerializeException?
    ensures o.Threw? && o.thrown.CoercingSerializeException? ==> Rethrow(o) == o
    ensures o.Threw? && !o.thrown.CoercingSerializeException? ==> Rethrow(o).thrown.cause == Some(o.thrown)
    ensures Rethrow(Rethrow(o)) == Rethrow(o)
  {
  }

  /** A literal that converts is parsed exactly like the converted value; one
      that does not fails with the conversion error as the cause. */
  lemma ParseLiteralIsParseValueOfConverted(call: (FnId, RValue) -> CallOutcome, c: Coercing, ast: Value, stack: nat)
    requires c.UserCoercing?
    ensures ObjectOf(ast, stack).Success? ==>
      ParseLiteral(call, c, ast, stack) == ParseValue(call, c, ObjectOf(ast, stack).value)
    ensures ObjectOf(ast, stack).Failure? ==>
      ParseLiteral(call, c, ast, stack) == Threw(CoercingSerializeException(Some(ConversionException(ObjectOf(ast, stack).error))))
  {
  }

  class ScalarTypeBuilder {
    const host: HostClass
    var description: Option<string>
    var serializer: Option<FnId>
    var deserializer: Option<FnId>

    constructor (host: HostClass)
      ensures this.host == host && description == None && serializer == None && deserializer == None
    {
      this.host := host;
      description := None;
      serializer := None;
      deserializer := None;
    }

    function State(): ScalarState
      reads this
    {
      ScalarState(host, description, serializer, deserializer)
    }

    /** `serializer(fn)`: replaces any earlier serializer. */
    method Serializer(fn: FnId)
      modifies this`serializer
      ensures serializer == Some(fn)
    {
      serializer := Some(fn);
    }

    /** `deserializer(fn)`: replaces any earlier deserializer. */
    method Deserializer(fn: FnId)
      modifies this`deserializer
      ensures deserializer == Some(fn)
    {
      deserializer := Some(fn);
    }

    /** `build`: the name and description are set first, then the two functions
        are checked. The context is not consulted. */
    method Build() returns (r: Result<GType>)
      ensures r == ScalarOf(State())
    {
      var name := host.simpleName;
      var d := None;
      if description.Some? {
        d := description;
      }
      if serializer.None? {
        return Failure(MissingSerializer(name));
      }
      if deserializer.None? {
        return Failure(MissingDeserializer(name));
      }
      r := Success(ScalarType(name, d, UserCoercing(serializer.value, deserializer.value)));
    }
  }
}
