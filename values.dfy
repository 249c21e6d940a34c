/** Literal nodes of the GraphQL language (`graphql.language.Value`) and the
    plain runtime values (`Any?`) the DSL turns them into. */
module Values {
  import opened Common

  /** Payloads of int and float literals are kept opaque (`BigInteger`, `BigDecimal`). */
  datatype IntPayload = IntPayload(digits: string)
  datatype DecimalPayload = DecimalPayload(digits: string)

  datatype Value =
    | NullValue
    | BooleanValue(isValue: bool)
    | IntValue(intValue: IntPayload)
    | FloatValue(floatValue: DecimalPayload)
    | StringValue(stringValue: string)
    | ArrayValue(values: seq<Value>)
    | EnumValue(enumName: string)
    | ObjectValue(objectFields: seq<ObjectField>)
    | VariableReference(variableName: string)

  datatype ObjectField = ObjectField(name: string, value: Value)

  /** A runtime value: null, a payload, a list, a string-keyed map, or an instance
      of a host class (identified by its class's simple name, absent for an
      anonymous or local class, and an identity). */
  datatype RValue =
    | RNull
    | RBool(b: bool)
    | RInt(i: IntPayload)
    | RDecimal(d: DecimalPayload)
    | RString(s: string)
    | RList(items: seq<RValue>)
    | RMap(entries: map<string, RValue>)
    | RObject(className: Option<string>, identity: nat)
}
