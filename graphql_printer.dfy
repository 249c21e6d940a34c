/** `GraphQLPrinter`: renders a built schema as text in the type-system language
    of the GraphQL specification, as the DSL writes it (October 2021 edition,
    sections 3.2 to 3.13, with the deviations the code has: no `=` in unions,
    no escaping in descriptions). */
module GraphQLPrinter {
  import opened Common
  import opened PrinterUtils
  import opened SchemaTypes

  /** `buildInTypes`: the eleven scalars the printer leaves out, in its order. */
  function BuildInTypes(): (r: seq<GType>)
    ensures |r| == 11
  {
    [BuiltInScalar("Byte"), BuiltInScalar("Short"), BuiltInScalar("Int"), BuiltInScalar("Long"),
     BuiltInScalar("BigInteger"), BuiltInScalar("Float"), BuiltInScalar("BigDecimal"), BuiltInScalar("Char"),
     BuiltInScalar("String"), BuiltInScalar("Boolean"), BuiltInScalar("ID")]
  }

  /** The scalars the printer leaves out are exactly those the schema builder
      adds to every schema, listed in another order. */
  lemma BuildInTypesAreTheInjectedScalars()
    ensures forall n :: n in BuiltInScalarNames() ==> BuiltInScalar(n) in BuildInTypes()
    ensures forall t :: t in BuildInTypes() ==> t.name in BuiltInScalarNames() && t == BuiltInScalar(t.name)
  {
    InjectedScalarsAreLeftOut();
    LeftOutScalarsAreInjected();
  }

  /** The printer's list is the builder's list with its first name moved to
      the next-to-last place. */
  lemma BuildInTypesReordered()
    ensures var ns := BuiltInScalarNames();
      BuildInTypes() == [BuiltInScalar(ns[1]), BuiltInScalar(ns[2]), BuiltInScalar(ns[3]), BuiltInScalar(ns[4]),
                         BuiltInScalar(ns[5]), BuiltInScalar(ns[6]), BuiltInScalar(ns[7]), BuiltInScalar(ns[8]),
                         BuiltInScalar(ns[9]), BuiltInScalar(ns[0]), BuiltInScalar(ns[10])]
  {
  }

  lemma InjectedScalarsAreLeftOut()
    ensures forall n :: n in BuiltInScalarNames() ==> BuiltInScalar(n) in BuildInTypes()
  {
    BuildInTypesReordered();
    var ns, bs := BuiltInScalarNames(), BuildInTypes();
    forall j | 0 <= j < 11
      ensures BuiltInScalar(ns[j]) in bs
    {
      var k := if j == 0 then 9 else if j == 10 then 10 else j - 1;
      assert bs[k] == BuiltInScalar(ns[j]);
    }
  }

  lemma LeftOutScalarsAreInjected()
    ensures forall t :: t in BuildInTypes() ==> t.name in BuiltInScalarNames() && t == BuiltInScalar(t.name)
  {
    BuildInTypesReordered();
    var ns, bs := BuiltInScalarNames(), BuildInTypes();
    forall k | 0 <= k < 11
      ensures bs[k].name in ns && bs[k] == BuiltInScalar(bs[k].name)
    {
      var j := if k == 9 then 0 else if k == 10 then 10 else k + 1;
      assert bs[k] == BuiltInScalar(ns[j]);
    }
  }

  /** `printDescription`: nothing for no description; a block string for a text of
      several lines; a quoted string otherwise. The text is copied unescaped. */
  function PrintDescription(description: Option<string>): string
  {
    match description
    case None => ""
    case Some(text) =>
      if |Lines(text)| > 1 then "\"\"\"\n" + text + "\n\"\"\"\n" else "\"" + text + "\"\n"
  }

  /** A text has more than one line exactly when it contains a line break. */
  lemma {:induction false} SeveralLinesIffBreak(text: string)
    ensures |Lines(text)| > 1 <==> !NoBreak(text)
  {
    if NoBreak(text) {
      NoBreakFirstBreak(text);
    } else {
      var j :| 0 <= j < |text| && IsBreak(text[j]);
      FirstBreakBefore(text, j);
    }
  }

  /** The description cases: a text with a line break becomes a block string, one
      without a quoted string, and in both the text appears as given, so a quote
      or backslash in it is not escaped. */
  lemma PrintDescriptionCases(text: string)
    ensures PrintDescription(None) == ""
    ensures !NoBreak(text) ==> PrintDescription(Some(text)) == "\"\"\"\n" + text + "\n\"\"\"\n"
    ensures NoBreak(text) ==> PrintDescription(Some(text)) == "\"" + text + "\"\n"
  {
    SeveralLinesIffBreak(text);
  }

  /** A one-line description holding a quote ends the string literal early: the
      printed text `"say "hi""` is three tokens, not one string. */
  lemma QuoteIsNotEscaped()
    ensures PrintDescription(Some("say \"hi\"")) == "\"say \"hi\"\"\n"
  {
    assert NoBreak("say \"hi\"");
    PrintDescriptionCases("say \"hi\"");
  }

  /** `GraphQLEnumValueDefinition.toGraphQLString`. */
  function EnumValueText(v: GEnumValue): string
  {
    PrintDescription(v.description) + v.name
  }

  /** `GraphQLFieldDefinition.toGraphQLString`: `name: Type`. */
  function FieldText(f: GField): string
  {
    PrintDescription(f.description) + f.name + ": " + f.typeRef
  }

  /** `GraphQLScalarType.toGraphQLString`. */
  function ScalarText(name: string, description: Option<string>): string
  {
    PrintDescription(description) + "scalar " + name
  }

  /** `GraphQLUnionType.toGraphQLString`: the members follow the name directly,
      with no `=` between them. */
  function UnionText(name: string, description: Option<string>, members: seq<string>): string
  {
    PrintDescription(description) + "union " + name + " " + Join(members, " | ")
  }

  /** Each item indented and followed by a newline, in order. */
  function IndentedItems(items: seq<string>): string
  {
    if |items| == 0 then "" else IndentedItems(items[..|items| - 1]) + Indent(items[|items| - 1]) + "\n"
  }

  /** The layout `printBlock` produces. */
  function BlockText(items: seq<string>): string
  {
    "{\n" + IndentedItems(items) + "}"
  }

  /** The texts `fn` gives for the elements of `xs`, in order. */
  function Texts<T>(xs: seq<T>, fn: T -> string): (r: seq<string>)
    ensures |r| == |xs| && forall i :: 0 <= i < |xs| ==> r[i] == fn(xs[i])
  {
    seq(|xs|, i requires 0 <= i < |xs| => fn(xs[i]))
  }

  /** `printBlock(sequence, fn)`. */
  method PrintBlock<T>(xs: seq<T>, fn: T -> string) returns (s: string)
    ensures s == BlockText(Texts(xs, fn))
  {
    ghost var items := Texts(xs, fn);
    s := "{\n";
    var i := 0;
    while i < |xs|
      invariant 0 <= i <= |xs|
      invariant s == "{\n" + IndentedItems(items[..i])
    {
      assert items[..i + 1][..i] == items[..i];
      s := s + Indent(fn(xs[i])) + "\n";
      i := i + 1;
    }
    assert items[..i] == items;
    s := s + "}";
  }

  /** The lines of every item, each prefixed by three spaces, in order. */
  function ItemLines(items: seq<string>): (r: seq<string>)
    ensures forall k :: 0 <= k < |r| ==> NoBreak(r[k])
  {
    if |items| == 0 then []
    else
      var init := ItemLines(items[..|items| - 1]);
      var last := Prefixed(Lines(items[|items| - 1]));
      assert forall k :: 0 <= k < |last| ==> NoBreak(last[k]) by {
        forall k | 0 <= k < |last| ensures NoBreak(last[k]) {
          assert last[k] == "   " + Lines(items[|items| - 1])[k];
        }
      }
      init + last
  }

  lemma {:induction false} JoinAppend(a: seq<string>, b: seq<string>, sep: string)
    requires |a| > 0 && |b| > 0
    ensures Join(a + b, sep) == Join(a, sep) + sep + Join(b, sep)
  {
    if |a| > 1 {
      JoinAppend(a[1..], b, sep);
      assert (a + b)[1..] == a[1..] + b;
    } else {
      assert (a + b)[1..] == b;
    }
  }

  lemma {:induction false} IndentedItemsJoin(prefix: seq<string>, items: seq<string>)
    requires |prefix| > 0
    ensures Join(prefix, "\n") + "\n" + IndentedItems(items) == Join(prefix + ItemLines(items), "\n") + "\n"
  {
    if |items| > 0 {
      var init := items[..|items| - 1];
      var last := Prefixed(Lines(items[|items| - 1]));
      IndentedItemsJoin(prefix, init);
      JoinAppend(prefix + ItemLines(init), last, "\n");
      assert prefix + ItemLines(init) + last == prefix + ItemLines(items);
    } else {
      assert prefix + ItemLines(items) == prefix;
    }
  }

  lemma NoBreakConcat(a: string, b: string)
    requires NoBreak(a) && NoBreak(b)
    ensures NoBreak(a + b)
  {
    forall k | 0 <= k < |a + b| ensures !IsBreak((a + b)[k]) {
      if k >= |a| { assert (a + b)[k] == b[k - |a|]; }
    }
  }

  /** A block after a header is the header and `{`, the item lines and `}` joined
      by newlines. */
  lemma BlockJoin(header: string, items: seq<string>)
    ensures header + BlockText(items) == Join([header + "{"] + ItemLines(items) + ["}"], "\n")
  {
    var first := header + "{";
    IndentedItemsJoin([first], items);
    JoinAppend([first] + ItemLines(items), ["}"], "\n");
    calc {
      header + BlockText(items);
      first + "\n" + IndentedItems(items) + "}";
      Join([first] + ItemLines(items), "\n") + "\n" + "}";
    }
  }

  /** Read line by line, a block after a header without line breaks is the header
      and `{`, the lines of every item indented by three spaces in item order,
      then `}`. */
  lemma BlockLines(header: string, items: seq<string>)
    requires NoBreak(header)
    ensures Lines(header + BlockText(items)) == [header + "{"] + ItemLines(items) + ["}"]
  {
    NoBreakConcat(header, "{");
    BlockJoin(header, items);
    var ls := [header + "{"] + ItemLines(items) + ["}"];
    forall k | 0 <= k < |ls| ensures NoBreak(ls[k]) {
      if 0 < k < |ls| - 1 {
        assert ls[k] == ItemLines(items)[k - 1];
      }
    }
    LinesOfJoin(ls);
  }

  /** Items without line breaks give one line each. */
  lemma {:induction false} ItemLinesOfOneLiners(items: seq<string>)
    requires forall k :: 0 <= k < |items| ==> NoBreak(items[k])
    ensures ItemLines(items) == Prefixed(items)
  {
    if |items| > 0 {
      var init := items[..|items| - 1];
      ItemLinesOfOneLiners(init);
      NoBreakFirstBreak(items[|items| - 1]);
      assert Prefixed(items) == Prefixed(init) + ["   " + items[|items| - 1]];
    }
  }

  function FieldTexts(fields: seq<GField>): seq<string>
  {
    Texts(fields, FieldText)
  }

  /** `GraphQLObjectType.toGraphQLString`. */
  function ObjectText(name: string, description: Option<string>, interfaces: seq<string>, fields: seq<GField>): string
  {
    PrintDescription(description) + "type " + name
    + (if |interfaces| > 0 then " implements " + Join(interfaces, " & ") else "")
    + " " + BlockText(FieldTexts(fields))
  }

  /** `GraphQLInterfaceType.toGraphQLString`. */
  function InterfaceText(name: string, description: Option<string>, fields: seq<GField>): string
  {
    PrintDescription(description) + "interface " + name + " " + BlockText(FieldTexts(fields))
  }

  /** `GraphQLEnumType.toGraphQLString`. */
  function EnumText(name: string, description: Option<string>, values: seq<GEnumValue>): string
  {
    PrintDescription(description) + "enum " + name + " {\n"
    + IndentedItems(Texts(values, EnumValueText)) + "}"
  }

  /** An object type without interfaces, description or field descriptions,
      whose names hold no line break, prints as `type Name {`, one line
      `   name: Type` per field in order, and `}`. */
  lemma ObjectLines(name: string, fields: seq<GField>)
    requires NoBreak(name)
    requires forall k :: 0 <= k < |fields| ==> fields[k].description == None && NoBreak(fields[k].name) && NoBreak(fields[k].typeRef)
    ensures Lines(ObjectText(name, None, [], fields)) ==
      ["type " + name + " {"] + Prefixed(FieldTexts(fields)) + ["}"]
  {
    var items := FieldTexts(fields);
    FieldTextsOneLine(fields);
    ItemLinesOfOneLiners(items);
    var header := "type " + name + " ";
    ObjectHeader(name);
    assert ObjectText(name, None, [], fields) == header + BlockText(items);
    BlockLines(header, items);
  }

  /** The header of an object type without interfaces stays on one line. */
  lemma ObjectHeader(name: string)
    requires NoBreak(name)
    ensures NoBreak("type " + name + " ") && ("type " + name + " ") + "{" == "type " + name + " {"
  {
    NoBreakConcat("type ", name);
    NoBreakConcat("type " + name, " ");
  }

  /** A field without a description whose name and type hold no line break
      prints on one line. */
  lemma FieldTextsOneLine(fields: seq<GField>)
    requires forall k :: 0 <= k < |fields| ==> fields[k].description == None && NoBreak(fields[k].name) && NoBreak(fields[k].typeRef)
    ensures forall k :: 0 <= k < |fields| ==> NoBreak(FieldTexts(fields)[k])
  {
    var items := FieldTexts(fields);
    forall k | 0 <= k < |items| ensures NoBreak(items[k]) {
      assert items[k] == fields[k].name + ": " + fields[k].typeRef;
    }
  }

  /** What `allTypesAsList` and the type dispatch can meet: a named type, an enum
      value or field definition, or any other graphql-java type (a list, a
      non-null wrapper, a type reference), known by its name and class. */
  datatype Printable =
    | NamedType(t: GType)
    | EnumValueDefinition(v: GEnumValue)
    | FieldDefinition(f: GField)
    | OtherType(otherName: string, kind: string)

  function NameOf(p: Printable): string
  {
    match p
    case NamedType(t) => t.name
    case EnumValueDefinition(v) => v.name
    case FieldDefinition(f) => f.name
    case OtherType(n, _) => n
  }

  /** `GraphQLType.toGraphQLString`: input object types and every other kind
      raise the printer's exception. */
  function TypeText(p: Printable): Result<string>
  {
    match p
    case EnumValueDefinition(v) => Success(EnumValueText(v))
    case FieldDefinition(f) => Success(FieldText(f))
    case OtherType(_, kind) => Failure(UnsupportedPrinterType(kind))
    case NamedType(t) =>
      match t
      case EnumType(n, d, vs) => Success(EnumText(n, d, vs))
      case ObjectType(n, d, ifs, fs) => Success(ObjectText(n, d, ifs, fs))
      case InterfaceType(n, d, fs) => Success(InterfaceText(n, d, fs))
      case UnionType(n, d, ms) => Success(UnionText(n, d, ms))
      case ScalarType(n, d, _) => Success(ScalarText(n, d))
      case InputObjectType(_, _, _) => Failure(UnsupportedPrinterType("GraphQLInputObjectType"))
  }

  /** Exactly enum values, fields, and enum, object, interface, union and scalar
      types can be printed. */
  lemma PrintableKinds(p: Printable)
    ensures TypeText(p).Success? <==> !p.OtherType? && !(p.NamedType? && p.t.InputObjectType?)
  {
  }

  /** The enum printer loops over the values itself. */
  method PrintEnum(name: string, description: Option<string>, values: seq<GEnumValue>) returns (s: string)
    ensures s == EnumText(name, description, values)
  {
    ghost var items := Texts(values, EnumValueText);
    var head := PrintDescription(description) + "enum " + name + " {\n";
    var lines := "";
    var i := 0;
    while i < |values|
      invariant 0 <= i <= |values|
      invariant lines == IndentedItems(items[..i])
    {
      assert items[..i + 1][..i] == items[..i];
      lines := lines + Indent(EnumValueText(values[i])) + "\n";
      i := i + 1;
    }
    assert items[..i] == items;
    s := head + lines + "}";
  }

  /** The dispatch, with the printers that loop run as methods. */
  method PrintType(p: Printable) returns (r: Result<string>)
    ensures r == TypeText(p)
  {
    match p {
      case EnumValueDefinition(v) => r := Success(EnumValueText(v));
      case FieldDefinition(f) => r := Success(FieldText(f));
      case OtherType(_, kind) => r := Failure(UnsupportedPrinterType(kind));
      case NamedType(t) =>
        match t {
          case EnumType(n, d, vs) =>
            var s := PrintEnum(n, d, vs);
            r := Success(s);
          case ObjectType(n, d, ifs, fs) =>
            var block := PrintBlock(fs, FieldText);
            assert block == BlockText(FieldTexts(fs));
            var implements := "";
            if |ifs| > 0 {
              implements := " implements " + Join(ifs, " & ");
            }
            r := Success(PrintDescription(d) + "type " + n + implements + " " + block);
          case InterfaceType(n, d, fs) =>
            var block := PrintBlock(fs, FieldText);
            assert block == BlockText(FieldTexts(fs));
            r := Success(PrintDescription(d) + "interface " + n + " " + block);
          case UnionType(n, d, ms) => r := Success(UnionText(n, d, ms));
          case ScalarType(n, d, _) => r := Success(ScalarText(n, d));
          case InputObjectType(_, _, _) => r := Failure(UnsupportedPrinterType("GraphQLInputObjectType"));
        }
    }
  }

  /** What the printer reads of a `GraphQLSchema`: the names of its roots and
      `allTypesAsList`. */
  datatype PrintableSchema = PrintableSchema(
    queryName: Option<string>,
    mutationName: Option<string>,
    subscriptionName: Option<string>,
    allTypes: seq<Printable>)

  /** The types left out unless internals are asked for: introspection types
      (names starting with `__`) and the built-in scalars. */
  predicate Skipped(p: Printable, includeInternals: bool)
  {
    !includeInternals && (StartsWith(NameOf(p), "__") || (p.NamedType? && p.t in BuildInTypes()))
  }

  /** The schema block: the roots that are set, in the order query, mutation,
      subscription. */
  function SchemaBlock(q: Option<string>, m: Option<string>, s: Option<string>): string
  {
    "schema {\n" + RootLine("query: ", q) + RootLine("mutation: ", m) + RootLine("subscription: ", s) + "}\n\n"
  }

  /** The text of the types after the schema block, each followed by a blank line;
      the first type that cannot be printed aborts the whole. */
  function TypesText(ps: seq<Printable>, includeInternals: bool): Result<string>
  {
    if |ps| == 0 then Success("")
    else
      var init :- TypesText(ps[..|ps| - 1], includeInternals);
      var p := ps[|ps| - 1];
      if Skipped(p, includeInternals) then Success(init)
      else
        var t :- TypeText(p);
        Success(init + t + "\n\n")
  }

  /** `GraphQLSchema.toGraphQLString(includeInternals)`. The `removeSuffix` call
      at the end discards its result, so the trailing separator stays. */
  function SchemaText(schema: PrintableSchema, includeInternals: bool): Result<string>
  {
    var body :- TypesText(schema.allTypes, includeInternals);
    Success(SchemaBlock(schema.queryName, schema.mutationName, schema.subscriptionName) + body)
  }

  method ToGraphQLString(schema: PrintableSchema, includeInternals: bool) returns (r: Result<string>)
    ensures r == SchemaText(schema, includeInternals)
  {
    var queryLine, mutationLine, subscriptionLine := "", "", "";
    if schema.queryName.Some? {
      queryLine := Indent("query: " + schema.queryName.value) + "\n";
    }
    if schema.mutationName.Some? {
      mutationLine := Indent("mutation: " + schema.mutationName.value) + "\n";
    }
    if schema.subscriptionName.Some? {
      subscriptionLine := Indent("subscription: " + schema.subscriptionName.value) + "\n";
    }
    var head := "schema {\n" + queryLine + mutationLine + subscriptionLine + "}\n\n";
    assert head == SchemaBlock(schema.queryName, schema.mutationName, schema.subscriptionName);
    var body := PrintTypes(schema.allTypes, includeInternals);
    if body.Failure? {
      return Failure(body.error);
    }
    r := Success(head + body.value);
  }

  /** The types' part of `toGraphQLString`: each type not skipped, printed and
      followed by a blank line, stopping at the first that cannot be printed. */
  method PrintTypes(ps: seq<Printable>, includeInternals: bool) returns (r: Result<string>)
    ensures r == TypesText(ps, includeInternals)
  {
    var body := "";
    var i := 0;
    while i < |ps|
      invariant 0 <= i <= |ps|
      invariant TypesText(ps[..i], includeInternals) == Success(body)
    {
      assert ps[..i + 1][..i] == ps[..i];
      if !Skipped(ps[i], includeInternals) {
        var t := PrintType(ps[i]);
        if t.Failure? {
          FailurePersists(ps, i + 1, includeInternals);
          return Failure(t.error);
        }
        body := body + t.value + "\n\n";
      }
      i := i + 1;
    }
    assert ps[..i] == ps;
    r := Success(body);
  }

  lemma {:induction false} FailurePersists(ps: seq<Printable>, k: nat, includeInternals: bool)
    requires k <= |ps| && TypesText(ps[..k], includeInternals).Failure?
    ensures TypesText(ps, includeInternals) == TypesText(ps[..k], includeInternals)
    decreases |ps| - k
  {
    if k < |ps| {
      assert ps[..k + 1][..k] == ps[..k];
      FailurePersists(ps, k + 1, includeInternals);
    } else {
      assert ps[..k] == ps;
    }
  }

  /** The types that are printed, in list order. */
  function Printed(ps: seq<Printable>, includeInternals: bool): (r: seq<Printable>)
    ensures forall p :: p in r ==> p in ps && !Skipped(p, includeInternals)
  {
    if |ps| == 0 then []
    else
      var init := Printed(ps[..|ps| - 1], includeInternals);
      assert forall p :: p in ps[..|ps| - 1] ==> p in ps;
      if Skipped(ps[|ps| - 1], includeInternals) then init else init + [ps[|ps| - 1]]
  }

  /** Each printed type's text followed by a blank line. */
  function Separated(ps: seq<Printable>): Result<string>
  {
    if |ps| == 0 then Success("")
    else
      var init :- Separated(ps[..|ps| - 1]);
      var t :- TypeText(ps[|ps| - 1]);
      Success(init + t + "\n\n")
  }

  /** The body is the filtered list printed without further skipping: exactly the
      types that are not skipped, in list order, each followed by a blank line. */
  lemma {:induction false} TypesTextIsFilterThenPrint(ps: seq<Printable>, includeInternals: bool)
    ensures TypesText(ps, includeInternals) == Separated(Printed(ps, includeInternals))
  {
    if |ps| > 0 {
      var init := ps[..|ps| - 1];
      TypesTextIsFilterThenPrint(init, includeInternals);
      var pi := Printed(init, includeInternals);
      if !Skipped(ps[|ps| - 1], includeInternals) {
        assert (pi + [ps[|ps| - 1]])[..|pi|] == pi;
      }
    }
  }

  /** With internals included nothing is skipped; without, the built-in scalars
      and the introspection types are. */
  lemma SkipRules(ps: seq<Printable>, n: string, rest: string)
    ensures Printed(ps, true) == ps
    ensures n in BuiltInScalarNames() ==> Skipped(NamedType(BuiltInScalar(n)), false)
    ensures Skipped(NamedType(ObjectType("__" + rest, None, [], [])), false)
  {
    PrintedAll(ps);
    BuildInTypesAreTheInjectedScalars();
    assert ("__" + rest)[..2] == "__";
  }

  lemma {:induction false} PrintedAll(ps: seq<Printable>)
    ensures Printed(ps, true) == ps
  {
    if |ps| > 0 {
      PrintedAll(ps[..|ps| - 1]);
    }
  }

  lemma {:induction false} SeparatedEnds(ps: seq<Printable>)
    requires Separated(ps).Success?
    ensures Separated(ps).value == "" || EndsWith(Separated(ps).value, "\n\n")
  {
    if |ps| > 0 {
      SeparatedEnds(ps[..|ps| - 1]);
    }
  }

  /** The printed schema always ends with a blank-line separator: the one after
      the schema block when no type is printed, the one after the last type
      otherwise. */
  lemma EndsWithSeparator(schema: PrintableSchema, includeInternals: bool)
    requires SchemaText(schema, includeInternals).Success?
    ensures EndsWith(SchemaText(schema, includeInternals).value, "\n\n")
  {
    TypesTextIsFilterThenPrint(schema.allTypes, includeInternals);
    SeparatedEnds(Printed(schema.allTypes, includeInternals));
  }

  /** The line of one root operation type: nothing when it is not set, otherwise
      the key and the name after three spaces, ended by a newline. */
  function RootLine(key: string, name: Option<string>): string
  {
    if name.Some? then Indent(key + name.value) + "\n" else ""
  }

  lemma RootLineShape(key: string, name: Option<string>)
    requires name.Some? ==> NoBreak(key + name.value)
    ensures RootLine(key, name) == if name.Some? then "   " + key + name.value + "\n" else ""
  {
    if name.Some? {
      IndentSingleLine(key + name.value);
    }
  }
}
