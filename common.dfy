/** Shared vocabulary of the model: optional values, results, the error kinds the
    builders and the printer raise, and a few sequence helpers for the ordered
    (insertion-ordered) sets and maps the Kotlin code relies on. */
module Common {

  datatype Option<+T> = None | Some(value: T)

  /** A computation that either yields a value or raises one of the errors below. */
  datatype Result<+T> = Success(value: T) | Failure(error: Error) {
    predicate IsFailure() { Failure? }
    function PropagateFailure<U>(): Result<U>
      requires Failure?
    {
      Failure(error)
    }
    function Extract(): T
      requires Success?
    {
      value
    }
  }

  /** Every exception the core throws, tagged by kind and carrying the name it reports. */
  datatype Error =
    | DuplicateType(typeName: string)
    | DuplicateDirective(directiveName: string)
    | UnknownField(fieldName: string)
    | UnknownArgument(argumentName: string)
    | MissingSerializer(scalarName: string)
    | MissingDeserializer(scalarName: string)
    | NoLocation(directiveName: string)
    | NoPrimaryConstructor
    | NoQueryType
    | UndefinedType(typeName: string)
    | NotAnObjectType(operation: string, typeName: string)
    | EmptyUnion
    | UnsupportedPrinterType(kind: string)
    | ObjectTypeExpected(typeName: string)
    | UnhandledLiteral
    | NotImplemented(reason: string)
    | NullDereference
    | IndexOutOfBounds
    | StackOverflow

  /** The message text each error carries (the debug dump of the builders that some
      messages append in brackets is left out). */
  function Message(e: Error): string
  {
    match e
    case DuplicateType(n) => "The type '" + n + "' is already defined"
    case DuplicateDirective(n) => "The directive '" + n + "' is already defined"
    case UnknownField(n) => "Cannot modify the field '" + n + "'"
    case UnknownArgument(n) => "Cannot modify the argument '" + n + "'"
    case MissingSerializer(n) => "The serialize method must be defined for scalar type " + n + "."
    case MissingDeserializer(n) => "The deserialize method must be defined for scalar type " + n + "."
    case NoLocation(n) => "The directive '" + n + "' must have at least one location"
    case NoPrimaryConstructor => "Directives require a Class with a primary constructor."
    case NoQueryType => "At least the query type of the schema must be defined"
    case UndefinedType(n) => "There is no type defined with name '" + n + "'"
    case NotAnObjectType(op, n) => op + " requires that the '" + n + "' type is an ObjectType"
    case EmptyUnion => "The union require at least one type"
    case UnsupportedPrinterType(k) => "Unsupported type '" + k + "' in printer"
    case ObjectTypeExpected(n) => "You have asked for named object type '" + n + "' but it's not an object type"
    case UnhandledLiteral => "Value type with a value not handled"
    case NotImplemented(r) => "An operation is not implemented: " + r
    case NullDereference => "null"
    case IndexOutOfBounds => "index out of bounds"
    case StackOverflow => "stack overflow"
  }

  predicate Distinct<T(==)>(s: seq<T>)
  {
    forall i, j :: 0 <= i < j < |s| ==> s[i] != s[j]
  }

  /** The elements of `xs` in order of first occurrence: what a
      LinkedHashSet or the key list of a LinkedHashMap holds after adding `xs` one by one. */
  function Dedup<T(==)>(xs: seq<T>): seq<T>
  {
    if |xs| == 0 then []
    else
      var d := Dedup(xs[..|xs| - 1]);
      if xs[|xs| - 1] in d then d else d + [xs[|xs| - 1]]
  }

  lemma {:induction false} DedupIsOrderedSet<T>(xs: seq<T>)
    ensures Distinct(Dedup(xs))
    ensures forall x :: x in Dedup(xs) <==> x in xs
  {
    if |xs| > 0 {
      var init := xs[..|xs| - 1];
      DedupIsOrderedSet(init);
      assert xs == init + [xs[|xs| - 1]];
    }
  }

  lemma {:induction false} DedupOfDistinct<T>(xs: seq<T>)
    requires Distinct(xs)
    ensures Dedup(xs) == xs
  {
    if |xs| > 0 {
      var init := xs[..|xs| - 1];
      DedupOfDistinct(init);
      assert xs == init + [xs[|xs| - 1]];
    }
  }

  /** A sequence without repetitions has as many elements as its set. */
  lemma {:induction false} DistinctCard<T>(s: seq<T>)
    requires Distinct(s)
    ensures |set x | x in s| == |s|
  {
    if |s| > 0 {
      var init := s[..|s| - 1];
      DistinctCard(init);
      assert s == init + [s[|s| - 1]];
      assert (set x | x in s) == (set x | x in init) + {s[|s| - 1]};
    }
  }

  /** `joinToString(sep)`. */
  function Join(xs: seq<string>, sep: string): string
  {
    if |xs| == 0 then "" else if |xs| == 1 then xs[0] else xs[0] + sep + Join(xs[1..], sep)
  }

  function StartsWith(s: string, prefix: string): bool
  {
    |prefix| <= |s| && s[..|prefix|] == prefix
  }

  function EndsWith(s: string, suffix: string): bool
  {
    |suffix| <= |s| && s[|s| - |suffix|..] == suffix
  }
}
