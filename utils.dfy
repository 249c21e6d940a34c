/** `Utils`: directive names, field coordinates, and the conversion of a literal
    node into a plain value. */
module Utils {
  import opened Common
  import opened Manifest
  import opened Values

  /** `Char.toLowerCase()` on the upper-case letters of the Basic Latin,
      Latin-1, Greek and Cyrillic blocks (each maps to its lower-case partner by
      a fixed offset); every other character is kept. */
  function ToLower(c: char): (r: char)
    ensures IsUpper(c) <==> r != c
    ensures !IsUpper(r)
  {
    if 'A' <= c <= 'Z' then (c as int + 32) as char
    else if '\U{00C0}' <= c <= '\U{00DE}' && c != '\U{00D7}' then (c as int + 32) as char
    else if '\U{0391}' <= c <= '\U{03A9}' && c != '\U{03A2}' then (c as int + 32) as char
    else if '\U{0410}' <= c <= '\U{042F}' then (c as int + 32) as char
    else if '\U{0400}' <= c <= '\U{040F}' then (c as int + 80) as char
    else c
  }

  /** The characters `ToLower` changes. */
  predicate IsUpper(c: char)
  {
    'A' <= c <= 'Z' || ('\U{00C0}' <= c <= '\U{00DE}' && c != '\U{00D7}') || ('\U{0391}' <= c <= '\U{03A9}' && c != '\U{03A2}')
    || '\U{0400}' <= c <= '\U{042F}'
  }

  /** Directive classes whose names start with a non-ASCII capital are named
      with its lower-case letter. */
  lemma NonAsciiDirectiveNames()
    ensures DirectiveNameFrom("\U{00DC}ber") == Success("\U{00FC}ber")
    ensures DirectiveNameFrom("\U{03A9}mega") == Success("\U{03C9}mega")
    ensures DirectiveNameFrom("\U{0416}uk") == Success("\U{0436}uk")
  {
    assert ToLower('\U{00DC}') == '\U{00FC}' && "\U{00DC}ber"[1..] == "ber";
    assert ['\U{00FC}'] + "ber" == "\U{00FC}ber";
    assert ToLower('\U{03A9}') == '\U{03C9}' && "\U{03A9}mega"[1..] == "mega";
    assert ['\U{03C9}'] + "mega" == "\U{03C9}mega";
    assert ToLower('\U{0416}') == '\U{0436}' && "\U{0416}uk"[1..] == "uk";
    assert ['\U{0436}'] + "uk" == "\U{0436}uk";
  }

  /** `directiveNameFrom`: the first character lower-cased, the rest kept.
      Indexing the first character of an empty name throws. */
  function DirectiveNameFrom(name: string): (r: Result<string>)
    ensures r.Failure? <==> |name| == 0
    ensures r.Failure? ==> r.error == IndexOutOfBounds
    ensures r.Success? ==> |r.value| == |name|
    ensures r.Success? ==> r.value[0] == ToLower(name[0]) && r.value[1..] == name[1..]
  {
    if |name| == 0 then Failure(IndexOutOfBounds) else Success([ToLower(name[0])] + name[1..])
  }

  lemma DirectiveNameFromIdempotent(name: string)
    requires |name| > 0
    ensures DirectiveNameFrom(DirectiveNameFrom(name).value) == DirectiveNameFrom(name)
  {
    var once := DirectiveNameFrom(name).value;
    assert once == [ToLower(name[0])] + name[1..];
    assert [ToLower(once[0])] + once[1..] == once;
  }

  /** Two class names that differ only in the case of their first letter give the same directive name. */
  lemma DirectiveNameIgnoresFirstLetterCase(upper: string, lower: string)
    requires |upper| > 0 && |upper| == |lower| && upper[1..] == lower[1..]
    requires ToLower(upper[0]) == lower[0]
    ensures DirectiveNameFrom(upper) == DirectiveNameFrom(lower)
  {
    assert [ToLower(upper[0])] + upper[1..] == [ToLower(lower[0])] + lower[1..];
  }

  /** `FieldCoordinates`: the declaring type's simple name and the field name. */
  datatype FieldCoordinates = FieldCoordinates(typeName: string, fieldName: string)

  /** `coordinatesFrom`: reflection gives the declaring class, recorded in the manifest. */
  function CoordinatesFrom(p: Property): (r: FieldCoordinates)
    ensures r.typeName == p.declaringClass && r.fieldName == p.name
  {
    FieldCoordinates(p.declaringClass, p.name)
  }

  /** `objectFromValue` as written, given the number `stack` of call frames the JVM
      still allows; a call with no frame left overflows the stack. The array branch
      applies the function to the whole array once per element (not to the element). */
  function ObjectOf(v: Value, stack: nat): Result<RValue>
    decreases stack, 0
  {
    if stack == 0 then Failure(StackOverflow)
    else
      match v
      case NullValue => Success(RNull)
      case BooleanValue(b) => Success(RBool(b))
      case IntValue(i) => Success(RInt(i))
      case FloatValue(f) => Success(RDecimal(f))
      case StringValue(s) => Success(RString(s))
      case ArrayValue(vs) =>
        if |vs| == 0 then Success(RList([]))
        else
          var again := ObjectOf(v, stack - 1);
          if again.Failure? then again else Success(RList(seq(|vs|, _ => again.value)))
      case EnumValue(_) => Failure(NotImplemented("Check how"))
      case ObjectValue(fs) =>
        var m :- FieldsOf(fs, stack - 1);
        Success(RMap(m))
      case VariableReference(_) => Failure(UnhandledLiteral)
  }

  /** The `forEach` over the object fields: each field's value is converted in
      order, a later field of the same name overwrites an earlier one, and the
      first failure propagates. */
  function FieldsOf(fs: seq<ObjectField>, stack: nat): Result<map<string, RValue>>
    decreases stack, 1, |fs|
  {
    if |fs| == 0 then Success(map[])
    else
      var init :- FieldsOf(fs[..|fs| - 1], stack);
      var last := fs[|fs| - 1];
      var x :- ObjectOf(last.value, stack);
      Success(init[last.name := x])
  }

  /** `objectFromValue`, with the object case's loop filling a local map. */
  method ObjectFromValue(v: Value, stack: nat) returns (r: Result<RValue>)
    ensures r == ObjectOf(v, stack)
    decreases stack
  {
    if stack == 0 {
      return Failure(StackOverflow);
    }
    match v {
      case ObjectValue(fs) =>
        var obj: map<string, RValue> := map[];
        var i := 0;
        while i < |fs|
          invariant 0 <= i <= |fs|
          invariant FieldsOf(fs[..i], stack - 1) == Success(obj)
        {
          assert fs[..i + 1][..i] == fs[..i];
          var x := ObjectFromValue(fs[i].value, stack - 1);
          if x.Failure? {
            FieldsOfFailurePropagates(fs, i + 1, stack - 1);
            return Failure(x.error);
          }
          obj := obj[fs[i].name := x.value];
          i := i + 1;
        }
        assert fs[..i] == fs;
        r := Success(RMap(obj));
      case _ =>
        r := ObjectOf(v, stack);
    }
  }

  /** Once a prefix of the fields fails, the whole conversion fails with that error. */
  lemma {:induction false} FieldsOfFailurePropagates(fs: seq<ObjectField>, k: nat, stack: nat)
    requires k <= |fs|
    requires FieldsOf(fs[..k], stack).Failure?
    ensures FieldsOf(fs, stack) == FieldsOf(fs[..k], stack)
    decreases |fs| - k
  {
    if k < |fs| {
      var next := fs[..k + 1];
      assert next[..k] == fs[..k];
      assert FieldsOf(next, stack) == FieldsOf(fs[..k], stack);
      FieldsOfFailurePropagates(fs, k + 1, stack);
    } else {
      assert fs[..k] == fs;
    }
  }

  /** A non-empty array literal re-enters the conversion with itself, so no
      stack, however deep, lets it finish. */
  lemma {:induction false} NonEmptyArrayOverflows(vs: seq<Value>, stack: nat)
    requires |vs| > 0
    ensures ObjectOf(ArrayValue(vs), stack) == Failure(StackOverflow)
  {
    if stack > 0 {
      NonEmptyArrayOverflows(vs, stack - 1);
    }
  }

  /** Null, boolean, int, float, string and empty array literals give their payload;
      enum literals stop at `TODO`; variable references are not handled. */
  lemma LiteralConversions(stack: nat, b: bool, i: IntPayload, f: DecimalPayload, s: string, name: string)
    requires stack > 0
    ensures ObjectOf(NullValue, stack) == Success(RNull)
    ensures ObjectOf(BooleanValue(b), stack) == Success(RBool(b))
    ensures ObjectOf(IntValue(i), stack) == Success(RInt(i))
    ensures ObjectOf(FloatValue(f), stack) == Success(RDecimal(f))
    ensures ObjectOf(StringValue(s), stack) == Success(RString(s))
    ensures ObjectOf(ArrayValue([]), stack) == Success(RList([]))
    ensures ObjectOf(EnumValue(name), stack) == Failure(NotImplemented("Check how"))
    ensures ObjectOf(VariableReference(name), stack) == Failure(UnhandledLiteral)
  {
  }

  /** An object literal becomes a map whose keys are exactly the field names. */
  lemma {:induction false} ObjectFieldsKeys(fs: seq<ObjectField>, stack: nat)
    requires FieldsOf(fs, stack).Success?
    ensures FieldsOf(fs, stack).value.Keys == set f | f in fs :: f.name
  {
    if |fs| > 0 {
      var init := fs[..|fs| - 1];
      ObjectFieldsKeys(init, stack);
      assert fs == init + [fs[|fs| - 1]];
      assert (set f | f in fs :: f.name) == (set f | f in init :: f.name) + {fs[|fs| - 1].name};
    }
  }

  /** Each name is bound to the converted value of the LAST field of that name. */
  lemma {:induction false} ObjectFieldsLastWins(fs: seq<ObjectField>, stack: nat, i: nat)
    requires FieldsOf(fs, stack).Success?
    requires i < |fs| && forall j :: i < j < |fs| ==> fs[j].name != fs[i].name
    ensures ObjectOf(fs[i].value, stack).Success? && fs[i].name in FieldsOf(fs, stack).value
    ensures FieldsOf(fs, stack).value[fs[i].name] == ObjectOf(fs[i].value, stack).value
  {
    var init := fs[..|fs| - 1];
    if i < |fs| - 1 {
      assert init[i] == fs[i];
      ObjectFieldsLastWins(init, stack, i);
    }
  }
}
