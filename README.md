# GraphQL Kotlin DSL builders — a Dafny model

This project models the core of a small Kotlin DSL. The DSL builds a GraphQL
schema (graphql-java's `GraphQLSchema`) from Kotlin classes and prints it back
as SDL text. Host classes are read by reflection. Each builder turns one of
them into a GraphQL definition:

- An object or interface type gets one field per member property.
- An enum type gets one value per enum constant.
- An input type gets one input field per member property.
- A scalar type is made from a user serializer and deserializer.
- A union type collects an ordered set of member classes.
- A directive definition gets its arguments from the host class's member
  properties.

The schema builder collects all of these in insertion order and rejects
duplicate names. Its `build` builds every type and then every directive into
a shared context, then resolves the query, mutation and subscription roots by
name and injects the built-in scalars. A second printer walks a finished
schema and prints SDL text.

Each Kotlin file is one Dafny module (`field_builder.dfy` is
`FieldBuilders`, and so on):

- Builders whose setters change fields in place are classes. Their mutable
  maps are fields holding an insertion-ordered map (`OrderedMaps.OMap`,
  which plays the role of `LinkedHashMap`).
- Each `build` is a method proved against a pure function of the builder's
  state (`FieldOf`, `ScalarOf`, `DirectiveOf`, `Assemble`, …).
- The printers are methods with loops, proved equal to text functions
  (`TypeText`, `SchemaText`, `DefinitionText`, `GraphQLText`). Lemmas then
  state the layout of those texts line by line.
- A Kotlin exception is a `Failure` of `Common.Result` carrying an `Error`.
  The first failure aborts, exactly where the Kotlin code would throw.
- The context's graphql-java builders are fields of `BuilderContext`:
  - the pending schema parts;
  - `additionalTypes` and `types`;
  - the code registry, as a map from field coordinates to a resolver id;
  - the type wiring, as a map from interface name to its resolver.
- Reflection is given as a manifest (`Manifest.HostClass`): the simple name,
  the member properties in declaration order, the enum constants, and whether
  there is a primary constructor.
- Caller-supplied closures are opaque ids (`FnId`). Their behaviour, where
  it matters (scalar coercion), is a function parameter.

The model follows the code as written, including its oddities. The
`## Left out` list and the comments name each one:

- `subscription(...)` stores into the mutation slot.
- The mutation and subscription roots are looked up under the query class's
  name.
- `objectFromValue` on an array recurses on the array itself.
- The printer escapes no quote in a description.
- `removeSuffix` drops its result, so the printed schema keeps its final
  blank line.
- `DirectiveLocation.Query` maps to `ARGUMENT_DEFINITION`.

## Model

| member | source | states |
|---|---|---|
| ArgumentBuilders.ArgumentOf | src/main/kotlin/es/jtp/graphql/server/dsl/builders/ArgumentBuilder.kt:28-49 | the built argument is named after the property, is typed by the simple name of its class, keeps the description, has a default value exactly when the stored default is non-null, and has a null value |
| ArgumentBuilders.ArgumentsOf | src/main/kotlin/es/jtp/graphql/server/dsl/builders/FieldBuilder.kt:68-74 | one built argument per argument builder, in order |
| ArgumentBuilders.NullDefaultIsUnset | src/main/kotlin/es/jtp/graphql/server/dsl/builders/ArgumentBuilder.kt:44-46 | a null default leaves the argument without a default; any other default is carried over unchanged |
| ArgumentBuilders.ArgumentBuilder.constructor | src/main/kotlin/es/jtp/graphql/server/dsl/builders/ArgumentBuilder.kt:10-12 | a new builder for the property, with no description and a null default |
| ArgumentBuilders.ArgumentBuilder.DefaultValue | src/main/kotlin/es/jtp/graphql/server/dsl/builders/ArgumentBuilder.kt:21-23 | `defaultValue(v)` replaces the stored default and changes nothing else |
| ArgumentBuilders.ArgumentBuilder.Build | src/main/kotlin/es/jtp/graphql/server/dsl/builders/ArgumentBuilder.kt:28-49 | `build` gives `ArgumentOf` of the builder's state |
| ArgumentBuilders.FreshArgumentBuilders | src/main/kotlin/es/jtp/graphql/server/dsl/builders/FieldArgumentsBuilder.kt:13-19 | a fresh argument builder per distinct member property, keyed in declaration order |
| BuilderContexts.BuilderContext.constructor | src/main/kotlin/es/jtp/graphql/server/dsl/builders/GraphQLBuilderContext.kt:8-9 | a new context has no types, no roots, no directives, an empty code registry and no type wiring |
| Common.DedupIsOrderedSet | src/main/kotlin/es/jtp/graphql/server/dsl/builders/UnionTypeBuilder.kt:13-15 | the insertion-ordered set of a sequence holds each element once and exactly the elements of the sequence |
| DirectiveImplBuilders.ApplicationOf | src/main/kotlin/es/jtp/graphql/server/dsl/builders/DirectiveImplBuilder.kt:27-43 | the directive fails exactly when the host's simple name is empty; otherwise it is named by `directiveNameFrom`, has no description and no locations, and has one argument per bound property, in binding order |
| DirectiveImplBuilders.RebindLastWins | src/main/kotlin/es/jtp/graphql/server/dsl/builders/DirectiveImplBuilder.kt:20-22 | binding a property twice keeps the last value and its first position |
| DirectiveImplBuilders.RebindKeepsOthers | src/main/kotlin/es/jtp/graphql/server/dsl/builders/DirectiveImplBuilder.kt:20-22 | binding one property leaves every other binding, and the order of those before it, unchanged |
| DirectiveImplBuilders.DirectiveImplBuilder.constructor | src/main/kotlin/es/jtp/graphql/server/dsl/builders/DirectiveImplBuilder.kt:12-13 | a new builder for the host, with no bound arguments |
| DirectiveImplBuilders.DirectiveImplBuilder.Argument | src/main/kotlin/es/jtp/graphql/server/dsl/builders/DirectiveImplBuilder.kt:20-22 | `argument(p, v)` puts `p ↦ v` into the ordered argument map |
| DirectiveImplBuilders.DirectiveImplBuilder.Build | src/main/kotlin/es/jtp/graphql/server/dsl/builders/DirectiveImplBuilder.kt:27-43 | `build` gives `ApplicationOf` of the host and the bound arguments |
| DirectiveLocations.AllLocations | src/main/kotlin/es/jtp/graphql/server/dsl/enums/DirectiveLocation.kt:8-30 | the eighteen DSL locations in declaration order |
| DirectiveLocations.AllIntrospectionLocations | src/main/kotlin/es/jtp/graphql/server/dsl/enums/DirectiveLocation.kt:8-30 | graphql-java's nineteen introspection locations in its declaration order: the DSL's eighteen meanings, with `VARIABLE_DEFINITION` between the executable and the type-system ones |
| DirectiveLocations.EveryLocationListed | src/main/kotlin/es/jtp/graphql/server/dsl/enums/DirectiveLocation.kt:8-30 | every location of either kind appears in its list |
| DirectiveLocations.LocationGroups | src/main/kotlin/es/jtp/graphql/server/dsl/enums/DirectiveLocation.kt:8-30 | the DSL locations are distinct; the first seven are the executable ones and the other eleven are the type-system ones |
| DirectiveLocations.SameMeaningExceptQuery | src/main/kotlin/es/jtp/graphql/server/dsl/enums/DirectiveLocation.kt:8-30 | the introspection locations are distinct; each executable DSL location other than `Query` maps to the introspection location at its own position, each type-system one to the location one place later (after `VARIABLE_DEFINITION`); `Query` maps to `ARGUMENT_DEFINITION` |
| DirectiveLocations.QueryMisrouted | src/main/kotlin/es/jtp/graphql/server/dsl/enums/DirectiveLocation.kt:10 | `Query` and `ArgumentDefinition` map to the same location; no DSL location maps to `QUERY` or `VARIABLE_DEFINITION`; those two are the only pair that share one |
| DirectiveLocations.ImageHasSeventeen | src/main/kotlin/es/jtp/graphql/server/dsl/enums/DirectiveLocation.kt:8-30 | the locations reachable from the DSL are all the introspection locations except `QUERY` and `VARIABLE_DEFINITION`, seventeen of nineteen |
| DirectiveTypeBuilders.LocationSet | src/main/kotlin/es/jtp/graphql/server/dsl/builders/DirectiveTypeBuilder.kt:83-85 | the introspection locations of the chosen DSL locations, and nothing else |
| DirectiveTypeBuilders.DirectiveOf | src/main/kotlin/es/jtp/graphql/server/dsl/builders/DirectiveTypeBuilder.kt:66-94 | an empty simple name fails with an index error; no location fails with the no-location error naming the directive; otherwise the directive has its `directiveNameFrom` name, its description, its locations' introspection set and its built arguments |
| DirectiveTypeBuilders.AnyLocationMissesQuery | src/main/kotlin/es/jtp/graphql/server/dsl/builders/DirectiveTypeBuilder.kt:46-49 | a directive declared on any location builds and covers the seventeen introspection locations other than `QUERY` and `VARIABLE_DEFINITION` |
| DirectiveTypeBuilders.DirectiveTypeBuilder.constructor | src/main/kotlin/es/jtp/graphql/server/dsl/builders/DirectiveTypeBuilder.kt:21-31 | a fresh argument builder per member property, no description, no locations |
| DirectiveTypeBuilders.DirectiveTypeBuilder.Create | src/main/kotlin/es/jtp/graphql/server/dsl/builders/DirectiveTypeBuilder.kt:22-24 | creation fails exactly when the host class has no primary constructor |
| DirectiveTypeBuilders.DirectiveTypeBuilder.On | src/main/kotlin/es/jtp/graphql/server/dsl/builders/DirectiveTypeBuilder.kt:38-41 | `on(...)` replaces the locations with the given ones, each once, in order of first occurrence |
| DirectiveTypeBuilders.DirectiveTypeBuilder.OnAnyLocation | src/main/kotlin/es/jtp/graphql/server/dsl/builders/DirectiveTypeBuilder.kt:46-49 | `onAnyLocation()` sets every DSL location, in declaration order |
| DirectiveTypeBuilders.DirectiveTypeBuilder.Argument | src/main/kotlin/es/jtp/graphql/server/dsl/builders/DirectiveTypeBuilder.kt:55-59 | a non-member property fails; a member gets its own argument builder, shared with no other property |
| DirectiveTypeBuilders.DirectiveTypeBuilder.ArgumentStates | src/main/kotlin/es/jtp/graphql/server/dsl/builders/DirectiveTypeBuilder.kt:88-91 | one argument state per distinct member property, in declaration order |
| DirectiveTypeBuilders.DirectiveTypeBuilder.Build | src/main/kotlin/es/jtp/graphql/server/dsl/builders/DirectiveTypeBuilder.kt:66-94 | `build` gives `DirectiveOf` of the host, the description, the locations and the argument states |
| EnumTypeBuilders.FreshValueBuilders | src/main/kotlin/es/jtp/graphql/server/dsl/builders/EnumTypeBuilder.kt:13-22 | a fresh value builder per distinct enum constant, in declaration order, with no description |
| EnumTypeBuilders.EnumTypeBuilder.constructor | src/main/kotlin/es/jtp/graphql/server/dsl/builders/EnumTypeBuilder.kt:13-22 | one value builder per enum constant; no descriptions |
| EnumTypeBuilders.EnumTypeBuilder.Value | src/main/kotlin/es/jtp/graphql/server/dsl/builders/EnumTypeBuilder.kt:31-35 | an unknown constant fails; a known one gets its own value builder, shared with no other constant |
| EnumTypeBuilders.EnumTypeBuilder.Values | src/main/kotlin/es/jtp/graphql/server/dsl/builders/EnumTypeBuilder.kt:40-58 | one enum value per distinct constant, in declaration order, each as its builder builds it |
| EnumTypeBuilders.EnumTypeBuilder.Build | src/main/kotlin/es/jtp/graphql/server/dsl/builders/EnumTypeBuilder.kt:40-58 | the enum type named by the host's simple name, with its description and `Values()` |
| EnumValueBuilders.EnumValueBuilder.constructor | src/main/kotlin/es/jtp/graphql/server/dsl/builders/EnumValueBuilder.kt:9-10 | a builder for the constant, with no description |
| EnumValueBuilders.EnumValueBuilder.Build | src/main/kotlin/es/jtp/graphql/server/dsl/builders/EnumValueBuilder.kt:19-31 | the value is named by the constant and keeps the description |
| FieldArgumentsBuilders.FieldArgumentsBuilder.constructor | src/main/kotlin/es/jtp/graphql/server/dsl/builders/FieldArgumentsBuilder.kt:13-19 | one fresh argument builder per member property, each with a null default |
| FieldArgumentsBuilders.FieldArgumentsBuilder.Argument | src/main/kotlin/es/jtp/graphql/server/dsl/builders/FieldArgumentsBuilder.kt:26-30 | a non-member property fails; a member gets its own argument builder |
| FieldArgumentsBuilders.FieldArgumentsBuilder.States | src/main/kotlin/es/jtp/graphql/server/dsl/builders/FieldArgumentsBuilder.kt:10-11 | the argument builders' states in key order |
| FieldBuilders.FieldOf | src/main/kotlin/es/jtp/graphql/server/dsl/builders/FieldBuilder.kt:46-77 | the field is named after the property, typed by the simple name of its class, keeps the description, and has one argument per argument state, or none without an arguments builder |
| FieldBuilders.RegisterFetcherEffect | src/main/kotlin/es/jtp/graphql/server/dsl/builders/FieldBuilder.kt:61-66 | a resolver is registered at (declaring class, field name) exactly when one is set; every other coordinate keeps its fetcher |
| FieldBuilders.RegisterFetchersAt | src/main/kotlin/es/jtp/graphql/server/dsl/builders/ObjectTypeBuilder.kt:54-58 | after building a list of fields, each coordinate holds the resolver of the last field there that has one; a coordinate no such field names keeps what it had |
| FieldBuilders.FieldBuilder.constructor | src/main/kotlin/es/jtp/graphql/server/dsl/builders/FieldBuilder.kt:11-14 | a builder for the property, with no description, resolver or arguments |
| FieldBuilders.FieldBuilder.Arguments | src/main/kotlin/es/jtp/graphql/server/dsl/builders/FieldBuilder.kt:29-34 | the arguments builder replaces any attached before |
| FieldBuilders.FieldBuilder.Resolver | src/main/kotlin/es/jtp/graphql/server/dsl/builders/FieldBuilder.kt:39-41 | the resolver replaces any set before |
| FieldBuilders.FieldBuilder.Build | src/main/kotlin/es/jtp/graphql/server/dsl/builders/FieldBuilder.kt:46-77 | `build` gives `FieldOf` of the state and registers the resolver, if any, at the field's coordinates |
| GraphQLBuilders.SchemaSection | src/main/kotlin/es/jtp/graphql/server/dsl/builders/GraphQLBuilder.kt:113-117 | no schema section gives nothing; a failing one propagates its error; a built one gives one schema definition |
| GraphQLBuilders.TypeDefinitions | src/main/kotlin/es/jtp/graphql/server/dsl/builders/GraphQLBuilder.kt:119-123 | one type definition per built type, in order |
| GraphQLBuilders.DefinitionsSucceedIff | src/main/kotlin/es/jtp/graphql/server/dsl/builders/GraphQLBuilder.kt:110-126 | `build` succeeds exactly when the schema section (if any) and every type build |
| GraphQLBuilders.SchemaSectionErrorFirst | src/main/kotlin/es/jtp/graphql/server/dsl/builders/GraphQLBuilder.kt:113-117 | a failing schema section is the error, before any type is built |
| GraphQLBuilders.DefinitionsErrorOrder | src/main/kotlin/es/jtp/graphql/server/dsl/builders/GraphQLBuilder.kt:119-123 | otherwise the error is that of the first type that fails |
| GraphQLBuilders.DefinitionsLayout | src/main/kotlin/es/jtp/graphql/server/dsl/builders/GraphQLBuilder.kt:110-126 | a successful build gives the schema definition first, then one definition per type in registration order |
| GraphQLBuilders.NoSectionNoSchemaDefinition | src/main/kotlin/es/jtp/graphql/server/dsl/builders/GraphQLBuilder.kt:114 | without a schema section, the registry holds type definitions only |
| GraphQLBuilders.TextOfFails | src/main/kotlin/es/jtp/graphql/server/dsl/builders/GraphQLBuilder.kt:137-140 | a definition's text fails exactly for a union without members |
| GraphQLBuilders.SectionsOutcome | src/main/kotlin/es/jtp/graphql/server/dsl/builders/GraphQLBuilder.kt:137-140 | the type sections fail with the first failing text; otherwise they are the texts, each followed by a blank line |
| GraphQLBuilders.GraphQLTextLayout | src/main/kotlin/es/jtp/graphql/server/dsl/builders/GraphQLBuilder.kt:131-141 | `toGraphQLString` succeeds exactly when every type text does; its text is the schema text and a blank line (when a schema is set), then the type texts, each followed by a blank line |
| GraphQLBuilders.GraphQLBuilder.constructor | src/main/kotlin/es/jtp/graphql/server/dsl/builders/GraphQLBuilder.kt:11-13 | no schema and no type definitions |
| GraphQLBuilders.GraphQLBuilder.TypeSpecs | src/main/kotlin/es/jtp/graphql/server/dsl/builders/GraphQLBuilder.kt:119-123 | what each registered builder builds, in registration order |
| GraphQLBuilders.GraphQLBuilder.TypeTexts | src/main/kotlin/es/jtp/graphql/server/dsl/builders/GraphQLBuilder.kt:137-140 | the text of each registered builder, in registration order |
| GraphQLBuilders.GraphQLBuilder.Schema | src/main/kotlin/es/jtp/graphql/server/dsl/builders/GraphQLBuilder.kt:20-25 | sets the schema section; the types are unchanged |
| GraphQLBuilders.GraphQLBuilder.AddType | src/main/kotlin/es/jtp/graphql/server/dsl/builders/GraphQLBuilder.kt:92-102 | a name already registered fails with the duplicate-type error and changes nothing; a new name is appended with its builder |
| GraphQLBuilders.GraphQLBuilder.Scalar | src/main/kotlin/es/jtp/graphql/server/dsl/builders/GraphQLBuilder.kt:36-46 | registers the scalar builder under its host's simple name, or fails on a duplicate |
| GraphQLBuilders.GraphQLBuilder.Type | src/main/kotlin/es/jtp/graphql/server/dsl/builders/GraphQLBuilder.kt:56-66 | registers the object builder under its host's simple name, or fails on a duplicate |
| GraphQLBuilders.GraphQLBuilder.InterfaceType | src/main/kotlin/es/jtp/graphql/server/dsl/builders/GraphQLBuilder.kt:77-87 | registers the interface builder under its host's simple name, or fails on a duplicate |
| GraphQLBuilders.GraphQLBuilder.Union | src/main/kotlin/es/jtp/graphql/server/dsl/builders/GraphQLBuilder.kt:92-102 | registers the union builder under its name, or fails on a duplicate |
| GraphQLBuilders.GraphQLBuilder.BuildTypes | src/main/kotlin/es/jtp/graphql/server/dsl/builders/GraphQLBuilder.kt:119-123 | the type loop fails with the first type error; otherwise it gives the built types' definitions, the registry the types pass leaves, and the caller's wiring with a type resolver under each interface builder's name |
| GraphQLBuilders.GraphQLBuilder.Build | src/main/kotlin/es/jtp/graphql/server/dsl/builders/GraphQLBuilder.kt:110-126 | `build` gives the schema definition and the type definitions, or the first error; on success every field resolver is registered in the context and every interface's type resolver is wired in the caller's runtime wiring |
| GraphQLBuilders.GraphQLBuilder.ToGraphQLString | src/main/kotlin/es/jtp/graphql/server/dsl/builders/GraphQLBuilder.kt:131-141 | `toGraphQLString` gives `GraphQLText` of the schema text and the type texts |
| GraphQLBuilders.GraphQLBuilder.TypesText | src/main/kotlin/es/jtp/graphql/server/dsl/builders/GraphQLBuilder.kt:137-140 | the loop over the definitions gives their sections |
| GraphQLBuilders.GraphQLBuilder.TextOne | src/main/kotlin/es/jtp/graphql/server/dsl/builders/GraphQLBuilder.kt:138 | one definition prints as its builder prints it |
| GraphQLPrinter.BuildInTypes | src/main/kotlin/es/jtp/graphql/server/dsl/GraphQLPrinter.kt:8-10 | the printer's eleven built-in scalars |
| GraphQLPrinter.BuildInTypesAreTheInjectedScalars | src/main/kotlin/es/jtp/graphql/server/dsl/GraphQLPrinter.kt:8-10 | the scalars the printer leaves out are exactly those the schema builder injects |
| GraphQLPrinter.BuildInTypesReordered | src/main/kotlin/es/jtp/graphql/server/dsl/GraphQLPrinter.kt:8-10 | the printer's list is the injected list with `Boolean` moved from first place to tenth |
| GraphQLPrinter.SeveralLinesIffBreak | src/main/kotlin/es/jtp/graphql/server/dsl/GraphQLPrinter.kt:164 | a description has more than one line exactly when it holds a line break |
| GraphQLPrinter.PrintDescriptionCases | src/main/kotlin/es/jtp/graphql/server/dsl/GraphQLPrinter.kt:163-171 | no description prints nothing; one with a break prints as a block string; one without prints as a quoted string; each is followed by a newline |
| GraphQLPrinter.QuoteIsNotEscaped | src/main/kotlin/es/jtp/graphql/server/dsl/GraphQLPrinter.kt:167 | a quote inside a one-line description is printed unescaped |
| GraphQLPrinter.PrintBlock | src/main/kotlin/es/jtp/graphql/server/dsl/GraphQLPrinter.kt:176-185 | `printBlock` gives `{`, each item indented on its own line, then `}` |
| GraphQLPrinter.IndentedItemsJoin | src/main/kotlin/es/jtp/graphql/server/dsl/GraphQLPrinter.kt:179-182 | the indented items are the items' lines, indented, joined by newlines |
| GraphQLPrinter.BlockLines | src/main/kotlin/es/jtp/graphql/server/dsl/GraphQLPrinter.kt:176-185 | after a header without a break, a block reads header + `{`, the items' indented lines, then `}` |
| GraphQLPrinter.ItemLinesOfOneLiners | src/main/kotlin/es/jtp/graphql/server/dsl/GraphQLPrinter.kt:179-182 | one-line items give one indented line each |
| GraphQLPrinter.ObjectLines | src/main/kotlin/es/jtp/graphql/server/dsl/GraphQLPrinter.kt:107-123 | an object type without description and with one-line fields prints as `type Name {`, one indented `name: Type` line per field, then `}` |
| GraphQLPrinter.PrintableKinds | src/main/kotlin/es/jtp/graphql/server/dsl/GraphQLPrinter.kt:59-68 | printing fails exactly for kinds outside enum value, enum, field, object, interface, union and scalar |
| GraphQLPrinter.PrintEnum | src/main/kotlin/es/jtp/graphql/server/dsl/GraphQLPrinter.kt:82-93 | the enum loop gives `EnumText` |
| GraphQLPrinter.PrintType | src/main/kotlin/es/jtp/graphql/server/dsl/GraphQLPrinter.kt:59-68 | the dispatch gives `TypeText` |
| GraphQLPrinter.ToGraphQLString | src/main/kotlin/es/jtp/graphql/server/dsl/GraphQLPrinter.kt:15-54 | the schema printer gives the schema block, then the types text, or the first printing error |
| GraphQLPrinter.PrintTypes | src/main/kotlin/es/jtp/graphql/server/dsl/GraphQLPrinter.kt:44-51 | the type loop gives `TypesText` |
| GraphQLPrinter.Printed | src/main/kotlin/es/jtp/graphql/server/dsl/GraphQLPrinter.kt:45-47 | the types kept are types of the schema that the skip rule does not drop |
| GraphQLPrinter.TypesTextIsFilterThenPrint | src/main/kotlin/es/jtp/graphql/server/dsl/GraphQLPrinter.kt:44-51 | the loop is the same as dropping skipped types, then printing the rest each followed by a blank line |
| GraphQLPrinter.SkipRules | src/main/kotlin/es/jtp/graphql/server/dsl/GraphQLPrinter.kt:45 | with internals included nothing is dropped; otherwise built-in scalars and `__` types are dropped |
| GraphQLPrinter.PrintedAll | src/main/kotlin/es/jtp/graphql/server/dsl/GraphQLPrinter.kt:45 | with internals included every type is printed |
| GraphQLPrinter.SeparatedEnds | src/main/kotlin/es/jtp/graphql/server/dsl/GraphQLPrinter.kt:49-50 | printed types are empty or end in a blank line |
| GraphQLPrinter.EndsWithSeparator | src/main/kotlin/es/jtp/graphql/server/dsl/GraphQLPrinter.kt:53 | the printed schema still ends in a blank line: `removeSuffix`'s result is dropped |
| GraphQLPrinter.RootLineShape | src/main/kotlin/es/jtp/graphql/server/dsl/GraphQLPrinter.kt:20-33 | a set root prints as one line, indented by three spaces; an unset root prints nothing |
| GraphQLSchemaBuilders.Register | src/main/kotlin/es/jtp/graphql/server/dsl/builders/GraphQLSchemaBuilder.kt:142-149 | registration fails exactly when the key is taken; otherwise the key is appended and mapped to the builder |
| GraphQLSchemaBuilders.SecondRegistrationFails | src/main/kotlin/es/jtp/graphql/server/dsl/builders/GraphQLSchemaBuilder.kt:142-149 | registering a name a second time fails |
| GraphQLSchemaBuilders.RegistrationKeepsOthers | src/main/kotlin/es/jtp/graphql/server/dsl/builders/GraphQLSchemaBuilder.kt:142-149 | a registration leaves earlier entries and their order unchanged |
| GraphQLSchemaBuilders.CaseVariantDirectivesBothRegister | src/main/kotlin/es/jtp/graphql/server/dsl/builders/GraphQLSchemaBuilder.kt:127-137 | directives are keyed by simple name, so two classes differing only in the case of the first letter both register, though they build directives of the same name |
| GraphQLSchemaBuilders.TypesPassOutcome | src/main/kotlin/es/jtp/graphql/server/dsl/builders/GraphQLSchemaBuilder.kt:160-164 | the types pass succeeds exactly when every type builds; it then gives the types in order and a registry with every field's resolver; otherwise it gives the error of the first failing type |
| GraphQLSchemaBuilders.WiringAfterWires | src/main/kotlin/es/jtp/graphql/server/dsl/builders/InterfaceTypeBuilder.kt:63-70 | after a run of type builders the runtime wiring keeps its earlier entries and holds the by-class-name resolver under the name of each interface builder, and nothing else |
| GraphQLSchemaBuilders.DirectivesPassOutcome | src/main/kotlin/es/jtp/graphql/server/dsl/builders/GraphQLSchemaBuilder.kt:167-170 | the directives pass succeeds exactly when every directive builds, and then gives them in order; otherwise it gives the error of the first failing directive |
| GraphQLSchemaBuilders.AssembleErrorOrder | src/main/kotlin/es/jtp/graphql/server/dsl/builders/GraphQLSchemaBuilder.kt:154-178 | type errors come before directive errors, which come before the missing-schema error |
| GraphQLSchemaBuilders.AssembleFromPasses | src/main/kotlin/es/jtp/graphql/server/dsl/builders/GraphQLSchemaBuilder.kt:173-177 | after both passes, the schema is the schema section's build over the types by name and the pending schema |
| GraphQLSchemaBuilders.AssembledSchema | src/main/kotlin/es/jtp/graphql/server/dsl/builders/GraphQLSchemaBuilder.kt:154-178 | a built schema holds the built types followed by the built-in scalars, the built directives and the registry of the types pass |
| GraphQLSchemaBuilders.AssembledQueryRoot | src/main/kotlin/es/jtp/graphql/server/dsl/builders/GraphQLSchemaBuilder.kt:154-178 | the query root of a built schema is the built type named after the query class |
| GraphQLSchemaBuilders.GraphQLSchemaBuilder.constructor | src/main/kotlin/es/jtp/graphql/server/dsl/builders/GraphQLSchemaBuilder.kt:11-14 | no schema, no types, no directives |
| GraphQLSchemaBuilders.GraphQLSchemaBuilder.TypeSpecs | src/main/kotlin/es/jtp/graphql/server/dsl/builders/GraphQLSchemaBuilder.kt:160-164 | what each registered type builder builds, in registration order |
| GraphQLSchemaBuilders.GraphQLSchemaBuilder.DirectiveResults | src/main/kotlin/es/jtp/graphql/server/dsl/builders/GraphQLSchemaBuilder.kt:167-170 | what each registered directive builder builds, in registration order |
| GraphQLSchemaBuilders.GraphQLSchemaBuilder.Schema | src/main/kotlin/es/jtp/graphql/server/dsl/builders/GraphQLSchemaBuilder.kt:21-26 | sets the schema section |
| GraphQLSchemaBuilders.GraphQLSchemaBuilder.AddType | src/main/kotlin/es/jtp/graphql/server/dsl/builders/GraphQLSchemaBuilder.kt:142-149 | a taken name fails with the duplicate-type error and changes nothing; a new one is appended |
| GraphQLSchemaBuilders.GraphQLSchemaBuilder.Scalar | src/main/kotlin/es/jtp/graphql/server/dsl/builders/GraphQLSchemaBuilder.kt:37-41 | registers the scalar builder under its host's simple name |
| GraphQLSchemaBuilders.GraphQLSchemaBuilder.Type | src/main/kotlin/es/jtp/graphql/server/dsl/builders/GraphQLSchemaBuilder.kt:52-56 | registers the object builder under its host's simple name |
| GraphQLSchemaBuilders.GraphQLSchemaBuilder.InterfaceType | src/main/kotlin/es/jtp/graphql/server/dsl/builders/GraphQLSchemaBuilder.kt:67-71 | registers the interface builder under its host's simple name |
| GraphQLSchemaBuilders.GraphQLSchemaBuilder.Union | src/main/kotlin/es/jtp/graphql/server/dsl/builders/GraphQLSchemaBuilder.kt:82-86 | registers the union builder under its name |
| GraphQLSchemaBuilders.GraphQLSchemaBuilder.Enum | src/main/kotlin/es/jtp/graphql/server/dsl/builders/GraphQLSchemaBuilder.kt:97-101 | registers the enum builder under its host's simple name |
| GraphQLSchemaBuilders.GraphQLSchemaBuilder.InputType | src/main/kotlin/es/jtp/graphql/server/dsl/builders/GraphQLSchemaBuilder.kt:112-116 | registers the input builder under its host's simple name |
| GraphQLSchemaBuilders.GraphQLSchemaBuilder.Directive | src/main/kotlin/es/jtp/graphql/server/dsl/builders/GraphQLSchemaBuilder.kt:127-137 | registers the directive builder under its host's simple name, failing with the duplicate-directive error |
| GraphQLSchemaBuilders.GraphQLSchemaBuilder.BuildOne | src/main/kotlin/es/jtp/graphql/server/dsl/builders/GraphQLSchemaBuilder.kt:161 | one builder's `build` gives what its spec says, registers its fields' resolvers, and wires an interface's type resolver |
| GraphQLSchemaBuilders.GraphQLSchemaBuilder.BuildWired | src/main/kotlin/es/jtp/graphql/server/dsl/builders/GraphQLBuilder.kt:120-123 | one turn of a type loop: `BuildOne`'s type and registry, and the wiring the earlier builders left extended by this builder's wiring |
| GraphQLSchemaBuilders.GraphQLSchemaBuilder.BuildWithFields | src/main/kotlin/es/jtp/graphql/server/dsl/builders/GraphQLSchemaBuilder.kt:161 | the same, for an object or interface builder |
| GraphQLSchemaBuilders.GraphQLSchemaBuilder.BuildObject | src/main/kotlin/es/jtp/graphql/server/dsl/builders/ObjectTypeBuilder.kt:42-61 | an object builder gives its spec's type and registers its fields' resolvers |
| GraphQLSchemaBuilders.GraphQLSchemaBuilder.BuildInterface | src/main/kotlin/es/jtp/graphql/server/dsl/builders/InterfaceTypeBuilder.kt:45-73 | an interface builder does the same and also wires its type resolver |
| GraphQLSchemaBuilders.GraphQLSchemaBuilder.BuildWithoutFields | src/main/kotlin/es/jtp/graphql/server/dsl/builders/GraphQLSchemaBuilder.kt:161 | the other builders give their spec's result and register no resolver |
| GraphQLSchemaBuilders.GraphQLSchemaBuilder.BuildStep | src/main/kotlin/es/jtp/graphql/server/dsl/builders/GraphQLSchemaBuilder.kt:160-164 | a built type is added to the schema's types and to the context's types by name |
| GraphQLSchemaBuilders.GraphQLSchemaBuilder.BuildTypes | src/main/kotlin/es/jtp/graphql/server/dsl/builders/GraphQLSchemaBuilder.kt:160-164 | the type loop agrees with the types pass: the same error, or the same types and registry |
| GraphQLSchemaBuilders.GraphQLSchemaBuilder.BuildDirectives | src/main/kotlin/es/jtp/graphql/server/dsl/builders/GraphQLSchemaBuilder.kt:167-170 | the directive loop agrees with the directives pass |
| GraphQLSchemaBuilders.GraphQLSchemaBuilder.BuildPasses | src/main/kotlin/es/jtp/graphql/server/dsl/builders/GraphQLSchemaBuilder.kt:160-170 | both loops together: an error is the assembled schema's error; otherwise the context holds both passes' results |
| GraphQLSchemaBuilders.GraphQLSchemaBuilder.BuildInto | src/main/kotlin/es/jtp/graphql/server/dsl/builders/GraphQLSchemaBuilder.kt:154-178 | building into a fresh context gives `Assemble` of the registered builders |
| GraphQLSchemaBuilders.GraphQLSchemaBuilder.Build | src/main/kotlin/es/jtp/graphql/server/dsl/builders/GraphQLSchemaBuilder.kt:154-178 | `build` gives `Assemble` of the type specs, the directive results and the schema roots |
| InputTypeBuilders.FreshInputFieldBuilders | src/main/kotlin/es/jtp/graphql/server/dsl/builders/InputTypeBuilder.kt:13-22 | a fresh input-field builder per distinct member property, in declaration order, with no description |
| InputTypeBuilders.InputTypeBuilder.constructor | src/main/kotlin/es/jtp/graphql/server/dsl/builders/InputTypeBuilder.kt:13-22 | one input-field builder per member property; no descriptions |
| InputTypeBuilders.InputTypeBuilder.Field | src/main/kotlin/es/jtp/graphql/server/dsl/builders/InputTypeBuilder.kt:32-36 | a non-member fails; a member gets its own input-field builder |
| InputTypeBuilders.InputTypeBuilder.InputFields | src/main/kotlin/es/jtp/graphql/server/dsl/builders/InputTypeBuilder.kt:41-59 | one input field per distinct member property, in declaration order, named after it |
| InputTypeBuilders.InputTypeBuilder.Build | src/main/kotlin/es/jtp/graphql/server/dsl/builders/InputTypeBuilder.kt:41-59 | the input object type named by the host's simple name, with its description and `InputFields()` |
| InputTypeBuilders.InputTypesAreNotPrintable | src/main/kotlin/es/jtp/graphql/server/dsl/GraphQLPrinter.kt:67 | the schema printer rejects an input object type |
| InterfaceTypeBuilders.RuntimeClassName | src/main/kotlin/es/jtp/graphql/server/dsl/builders/InterfaceTypeBuilder.kt:63-70 | a null object, or an object of a class without a simple name (anonymous or local), fails; any other object gives its runtime class's simple name |
| InterfaceTypeBuilders.ResolveType | src/main/kotlin/es/jtp/graphql/server/dsl/builders/InterfaceTypeBuilder.kt:63-70 | the type resolver looks up the runtime class name: absent gives none, an object type is returned, and any other type fails |
| InterfaceTypeBuilders.ResolveByNameOnly | src/main/kotlin/es/jtp/graphql/server/dsl/builders/InterfaceTypeBuilder.kt:63-70 | two objects of the same class name resolve alike |
| InterfaceTypeBuilders.InterfaceTextAgrees | src/main/kotlin/es/jtp/graphql/server/dsl/builders/InterfaceTypeBuilder.kt:78-91 | without a description, the builder prints what the schema printer prints for the interface it builds |
| InterfaceTypeBuilders.InterfaceTypeBuilder.constructor | src/main/kotlin/es/jtp/graphql/server/dsl/builders/InterfaceTypeBuilder.kt:17-26 | one fresh field builder per member property |
| InterfaceTypeBuilders.InterfaceTypeBuilder.Field | src/main/kotlin/es/jtp/graphql/server/dsl/builders/InterfaceTypeBuilder.kt:36-40 | a non-member fails; a member gets its own field builder |
| InterfaceTypeBuilders.InterfaceTypeBuilder.FieldStates | src/main/kotlin/es/jtp/graphql/server/dsl/builders/InterfaceTypeBuilder.kt:45-73 | the field builders' states, one per distinct member property, in key order |
| InterfaceTypeBuilders.InterfaceTypeBuilder.Build | src/main/kotlin/es/jtp/graphql/server/dsl/builders/InterfaceTypeBuilder.kt:45-73 | the interface type with its fields, the resolvers registered in order, and the type resolver wired under its name |
| InterfaceTypeBuilders.InterfaceTypeBuilder.BuildFields | src/main/kotlin/es/jtp/graphql/server/dsl/builders/InterfaceTypeBuilder.kt:57-61 | the field loop gives the fields and registers their resolvers in order |
| InterfaceTypeBuilders.InterfaceTypeBuilder.ToGraphQLString | src/main/kotlin/es/jtp/graphql/server/dsl/builders/InterfaceTypeBuilder.kt:78-91 | the description, `interface Name {`, each field text indented on its own line, `}` |
| ObjectTypeBuilders.FieldsFrom | src/main/kotlin/es/jtp/graphql/server/dsl/builders/ObjectTypeBuilder.kt:54-58 | one built field per field state, in order |
| ObjectTypeBuilders.DefinitionIsBlock | src/main/kotlin/es/jtp/graphql/server/dsl/builders/ObjectTypeBuilder.kt:66-79 | a builder's definition text is its header followed by a block as the schema printer lays it out |
| ObjectTypeBuilders.DefinitionLines | src/main/kotlin/es/jtp/graphql/server/dsl/builders/ObjectTypeBuilder.kt:66-79 | without a description, a definition reads `keyword Name {`, each item's lines indented, then `}` |
| ObjectTypeBuilders.ObjectTextAgrees | src/main/kotlin/es/jtp/graphql/server/dsl/builders/ObjectTypeBuilder.kt:66-79 | without a description, the builder prints what the schema printer prints for the object it builds |
| ObjectTypeBuilders.FreshFieldBuilders | src/main/kotlin/es/jtp/graphql/server/dsl/builders/ObjectTypeBuilder.kt:14-23 | a fresh field builder per distinct member property, in declaration order, with nothing set |
| ObjectTypeBuilders.PrintFieldItems | src/main/kotlin/es/jtp/graphql/server/dsl/builders/ObjectTypeBuilder.kt:73-76 | the field loop gives each field text indented on its own line |
| ObjectTypeBuilders.ObjectTypeBuilder.constructor | src/main/kotlin/es/jtp/graphql/server/dsl/builders/ObjectTypeBuilder.kt:14-23 | one fresh field builder per member property |
| ObjectTypeBuilders.ObjectTypeBuilder.Field | src/main/kotlin/es/jtp/graphql/server/dsl/builders/ObjectTypeBuilder.kt:33-37 | a non-member fails; a member gets its own field builder, shared with no other property |
| ObjectTypeBuilders.ObjectTypeBuilder.FieldStates | src/main/kotlin/es/jtp/graphql/server/dsl/builders/ObjectTypeBuilder.kt:54-58 | the field builders' states, one per distinct member property, in key order |
| ObjectTypeBuilders.ObjectTypeBuilder.Build | src/main/kotlin/es/jtp/graphql/server/dsl/builders/ObjectTypeBuilder.kt:42-61 | the object type with no interfaces and its fields; the resolvers are registered in order and nothing else changes |
| ObjectTypeBuilders.ObjectTypeBuilder.ToGraphQLString | src/main/kotlin/es/jtp/graphql/server/dsl/builders/ObjectTypeBuilder.kt:66-79 | the description, `type Name {`, each field text indented on its own line, `}` |
| OrderedMaps.OMap.Put | src/main/kotlin/es/jtp/graphql/server/dsl/builders/GraphQLSchemaBuilder.kt:148 | a put maps the key to the value; a new key goes last and an existing key keeps its place |
| OrderedMaps.OMap.Values | src/main/kotlin/es/jtp/graphql/server/dsl/builders/GraphQLBuilder.kt:137 | the values in key order |
| OrderedMaps.PutKeepsFirstOccurrenceOrder | src/main/kotlin/es/jtp/graphql/server/dsl/builders/ObjectTypeBuilder.kt:14-23 | filling a map from a sequence keeps the keys in order of first occurrence |
| PrinterUtils.Lines | src/main/kotlin/es/jtp/graphql/server/dsl/utils/PrinterUtils.kt:9 | a text splits into at least one line, none holding a break |
| PrinterUtils.LinesOfJoin | src/main/kotlin/es/jtp/graphql/server/dsl/utils/PrinterUtils.kt:9 | lines without breaks, joined by newlines, split back into themselves |
| PrinterUtils.IndentLines | src/main/kotlin/es/jtp/graphql/server/dsl/utils/PrinterUtils.kt:9 | `indent` prefixes every line with three spaces and keeps the number of lines |
| PrinterUtils.IndentEmpty | src/main/kotlin/es/jtp/graphql/server/dsl/utils/PrinterUtils.kt:9 | the empty text indents to three spaces |
| PrinterUtils.IndentSingleLine | src/main/kotlin/es/jtp/graphql/server/dsl/utils/PrinterUtils.kt:9 | a one-line text is prefixed with three spaces |
| PrinterUtils.TrailingNewlineGivesEmptyLine | src/main/kotlin/es/jtp/graphql/server/dsl/utils/PrinterUtils.kt:9 | a text ending in a newline has an empty last line |
| PrinterUtils.IndentTrailingNewline | src/main/kotlin/es/jtp/graphql/server/dsl/utils/PrinterUtils.kt:9 | so indenting it leaves a last line of three spaces |
| PrinterUtils.PrintTypeShape | src/main/kotlin/es/jtp/graphql/server/dsl/utils/PrinterUtils.kt:14-31 | a printed type is never empty, and a nullable type does not end in `!` |
| PrinterUtils.ParsePrintType | src/main/kotlin/es/jtp/graphql/server/dsl/utils/PrinterUtils.kt:14-31 | a printed type parses back into the same type: list wrapping and nullability survive printing |
| ScalarTypeBuilders.ScalarOf | src/main/kotlin/es/jtp/graphql/server/dsl/builders/ScalarTypeBuilder.kt:39-100 | a missing serializer fails first, then a missing deserializer; otherwise the scalar is named by the host with the description and the user's coercing |
| ScalarTypeBuilders.RethrowOutcomes | src/main/kotlin/es/jtp/graphql/server/dsl/builders/ScalarTypeBuilder.kt:57-81 | a returned value passes through; a coercing exception is rethrown as is; any other exception is wrapped in one as its cause; wrapping twice is wrapping once |
| ScalarTypeBuilders.ParseLiteralIsParseValueOfConverted | src/main/kotlin/es/jtp/graphql/server/dsl/builders/ScalarTypeBuilder.kt:83-94 | `parseLiteral` is `parseValue` of the converted literal; a literal that fails to convert throws a coercing exception wrapping the conversion error |
| ScalarTypeBuilders.ScalarTypeBuilder.constructor | src/main/kotlin/es/jtp/graphql/server/dsl/builders/ScalarTypeBuilder.kt:13-16 | a builder for the host, with no description, serializer or deserializer |
| ScalarTypeBuilders.ScalarTypeBuilder.Serializer | src/main/kotlin/es/jtp/graphql/server/dsl/builders/ScalarTypeBuilder.kt:25-27 | sets the serializer |
| ScalarTypeBuilders.ScalarTypeBuilder.Deserializer | src/main/kotlin/es/jtp/graphql/server/dsl/builders/ScalarTypeBuilder.kt:32-34 | sets the deserializer |
| ScalarTypeBuilders.ScalarTypeBuilder.Build | src/main/kotlin/es/jtp/graphql/server/dsl/builders/ScalarTypeBuilder.kt:39-100 | `build` gives `ScalarOf` of the builder's state |
| SchemaBuilders.BuiltInScalars | src/main/kotlin/es/jtp/graphql/server/dsl/builders/SchemaBuilder.kt:106-118 | the eleven injected scalars, in the order they are added |
| SchemaBuilders.RootOf | src/main/kotlin/es/jtp/graphql/server/dsl/builders/SchemaBuilder.kt:75-83 | an unset class fails with a null dereference; an unknown name fails as undefined; a non-object type fails as not an object type; otherwise the root is the type of that name |
| SchemaBuilders.RootBranch | src/main/kotlin/es/jtp/graphql/server/dsl/builders/SchemaBuilder.kt:75-103 | an unset slot keeps the current root; a set slot gives the looked-up root or its error |
| SchemaBuilders.SchemaSucceedsIff | src/main/kotlin/es/jtp/graphql/server/dsl/builders/SchemaBuilder.kt:71-123 | the schema builds exactly when no root is set or the query class resolves to an object type |
| SchemaBuilders.QueryErrorFirst | src/main/kotlin/es/jtp/graphql/server/dsl/builders/SchemaBuilder.kt:75-83 | a query class that does not resolve gives the query's error |
| SchemaBuilders.QueryRootIsLookedUp | src/main/kotlin/es/jtp/graphql/server/dsl/builders/SchemaBuilder.kt:75-83 | a built schema's query root is the type named after the query class |
| SchemaBuilders.MutationWithoutQueryFails | src/main/kotlin/es/jtp/graphql/server/dsl/builders/SchemaBuilder.kt:85-93 | a mutation root without a query class fails with a null dereference |
| SchemaBuilders.MutationRootIsQueryRoot | src/main/kotlin/es/jtp/graphql/server/dsl/builders/SchemaBuilder.kt:85-93 | a set mutation root is the query class's type |
| SchemaBuilders.BuiltInsAlwaysAdded | src/main/kotlin/es/jtp/graphql/server/dsl/builders/SchemaBuilder.kt:106-122 | a built schema has the eleven scalars appended to its additional types and keeps its directives and code registry |
| SchemaBuilders.UnsetSubscriptionUntouched | src/main/kotlin/es/jtp/graphql/server/dsl/builders/SchemaBuilder.kt:95-103 | with no subscription class, the subscription root is left as it was |
| SchemaBuilders.SchemaBuilder.constructor | src/main/kotlin/es/jtp/graphql/server/dsl/builders/SchemaBuilder.kt:11-14 | no root classes |
| SchemaBuilders.SchemaBuilder.Query | src/main/kotlin/es/jtp/graphql/server/dsl/builders/SchemaBuilder.kt:28-30 | sets the query class |
| SchemaBuilders.SchemaBuilder.Mutation | src/main/kotlin/es/jtp/graphql/server/dsl/builders/SchemaBuilder.kt:40-42 | sets the mutation class |
| SchemaBuilders.SchemaBuilder.Subscription | src/main/kotlin/es/jtp/graphql/server/dsl/builders/SchemaBuilder.kt:52-54 | stores the class in the mutation slot, as the code does |
| SchemaBuilders.SchemaBuilder.AddBuiltInScalars | src/main/kotlin/es/jtp/graphql/server/dsl/builders/SchemaBuilder.kt:106-118 | appends the eleven scalars to the additional types |
| SchemaBuilders.SchemaBuilder.Build | src/main/kotlin/es/jtp/graphql/server/dsl/builders/SchemaBuilder.kt:71-123 | `build` gives `SchemaOf` of the roots and the context's types; on success the context holds the schema and the attached registry; on failure the additional types and the registry are unchanged |
| SchemaTypes.BuiltInScalarNames | src/main/kotlin/es/jtp/graphql/server/dsl/builders/SchemaBuilder.kt:106-118 | the names of the eleven scalars, in the order they are added |
| SchemaTypes.TypesByName | src/main/kotlin/es/jtp/graphql/server/dsl/builders/GraphQLBuilderContext.kt:8-9 | every type's name is a key, and each key maps to a type of that name from the list |
| SchemaTypes.TypesByNameLastWins | src/main/kotlin/es/jtp/graphql/server/dsl/builders/GraphQLSchemaBuilder.kt:160-164 | a name maps to the last type of that name in the list: a later type replaces an earlier one |
| UnionTypeBuilders.MemberNames | src/main/kotlin/es/jtp/graphql/server/dsl/builders/UnionTypeBuilder.kt:67-71 | one member reference per member class, by its simple name, in order |
| UnionTypeBuilders.UnionDefinitionText | src/main/kotlin/es/jtp/graphql/server/dsl/builders/UnionTypeBuilder.kt:79-91 | an empty union fails with the empty-union error; otherwise the text is the description, `union name `, and the members joined by ` \| ` |
| UnionTypeBuilders.UnionTextAgrees | src/main/kotlin/es/jtp/graphql/server/dsl/builders/UnionTypeBuilder.kt:79-91 | without a description, the builder prints what the schema printer prints for the union it builds |
| UnionTypeBuilders.DedupTwo | src/main/kotlin/es/jtp/graphql/server/dsl/builders/UnionTypeBuilder.kt:24-26 | two member classes give both in order, or one when they are the same |
| UnionTypeBuilders.UnionTypeBuilder.constructor | src/main/kotlin/es/jtp/graphql/server/dsl/builders/UnionTypeBuilder.kt:13-15 | a named union with no description and no members |
| UnionTypeBuilders.UnionTypeBuilder.Of | src/main/kotlin/es/jtp/graphql/server/dsl/builders/UnionTypeBuilder.kt:45-50 | `of(...)` replaces the members with the given classes, each once, in order of first occurrence |
| UnionTypeBuilders.UnionTypeBuilder.OfTwo | src/main/kotlin/es/jtp/graphql/server/dsl/builders/UnionTypeBuilder.kt:24-26 | two classes become the members |
| UnionTypeBuilders.UnionTypeBuilder.OfThree | src/main/kotlin/es/jtp/graphql/server/dsl/builders/UnionTypeBuilder.kt:31-33 | three classes become the members, each once |
| UnionTypeBuilders.UnionTypeBuilder.OfFour | src/main/kotlin/es/jtp/graphql/server/dsl/builders/UnionTypeBuilder.kt:38-40 | four classes become the members, each once |
| UnionTypeBuilders.UnionTypeBuilder.Build | src/main/kotlin/es/jtp/graphql/server/dsl/builders/UnionTypeBuilder.kt:55-74 | the union named by its name, with its description and one member per class in set order; an empty union builds |
| UnionTypeBuilders.UnionTypeBuilder.ToGraphQLString | src/main/kotlin/es/jtp/graphql/server/dsl/builders/UnionTypeBuilder.kt:79-91 | `toGraphQLString` gives `UnionDefinitionText` |
| Utils.DirectiveNameFrom | src/main/kotlin/es/jtp/graphql/server/dsl/utils/Utils.kt:18 | an empty name fails with an index error; otherwise the name has the same length, its first letter lower-cased and the rest unchanged |
| Utils.NonAsciiDirectiveNames | src/main/kotlin/es/jtp/graphql/server/dsl/utils/Utils.kt:18 | names starting with a Latin-1, Greek or Cyrillic capital (`Über`, `Ωmega`, `Жuk`) get its lower-case letter (`über`, `ωmega`, `жuk`) |
| Utils.DirectiveNameFromIdempotent | src/main/kotlin/es/jtp/graphql/server/dsl/utils/Utils.kt:18 | applying it twice is applying it once |
| Utils.DirectiveNameIgnoresFirstLetterCase | src/main/kotlin/es/jtp/graphql/server/dsl/utils/Utils.kt:18 | names differing only in the case of the first letter give the same directive name |
| Utils.CoordinatesFrom | src/main/kotlin/es/jtp/graphql/server/dsl/utils/Utils.kt:12-13 | the coordinates are (declaring class's simple name, property name) |
| Utils.ObjectFromValue | src/main/kotlin/es/jtp/graphql/server/dsl/utils/Utils.kt:23-44 | the conversion gives `ObjectOf` of the value |
| Utils.FieldsOfFailurePropagates | src/main/kotlin/es/jtp/graphql/server/dsl/utils/Utils.kt:36-38 | a failing object field fails the whole object with its error |
| Utils.NonEmptyArrayOverflows | src/main/kotlin/es/jtp/graphql/server/dsl/utils/Utils.kt:29 | a non-empty array overflows the stack, whatever its depth, because the array converts itself again |
| Utils.LiteralConversions | src/main/kotlin/es/jtp/graphql/server/dsl/utils/Utils.kt:23-44 | null, booleans, ints, floats and strings convert to their values; an empty array converts to an empty list; an enum value hits the TODO; any other literal is not handled |
| Utils.ObjectFieldsKeys | src/main/kotlin/es/jtp/graphql/server/dsl/utils/Utils.kt:33-41 | a converted object has exactly the fields' names as keys |
| Utils.ObjectFieldsLastWins | src/main/kotlin/es/jtp/graphql/server/dsl/utils/Utils.kt:36-38 | a field name given twice keeps the last field's converted value |

## Left out

- Reflection is not modelled. Each host class is given as a manifest: its simple name, its member properties in declaration order (each with its declaring class and return type), its enum constants, and whether it has a primary constructor.
- graphql-java is not modelled. Its builders are replaced by the values they would hold. The validation `GraphQLSchema.Builder.build` performs (type references, interface implementations) is not modelled.
- Caller closures (resolvers, serializers, deserializers) are never run. Each is an opaque `FnId`. Scalar coercion takes their behaviour as a function parameter returning a value or an exception.
- `toString` overrides and the exact wording of exception messages are not modelled. Errors are an `Error` datatype that keeps the names the messages carry.
- InputFieldBuilder is not part of this model. `InputTypeBuilders.InputFieldBuilder` is written from its use in InputTypeBuilder.kt: a name, a type from the property, and a description. Its `defaultValue` setter is not modelled, so every input field is built without a default value.
- Utils.DirectiveNameFrom: `Char.toLowerCase()` is modelled on the capitals of the Basic Latin, Latin-1, Greek and Cyrillic blocks only. Kotlin's Unicode case mapping of other first letters (Latin Extended, accented Greek, `İ`, title-case letters) is not modelled; those letters are kept unchanged.
- DirectiveNameIgnoresFirstLetterCase: holds for first letters related by the modelled lower-casing only (see Utils.DirectiveNameFrom above).
- CaseVariantDirectivesBothRegister: holds for first letters related by the modelled lower-casing only (see Utils.DirectiveNameFrom above).
- Utils.descriptionFrom and Utils.typeFromString are not part of this model. Descriptions are set directly.
- SchemaBuilder.toGraphQLString, the scalar builder's toGraphQLString and FieldBuilder.toGraphQLString are not part of this model. They enter `GraphQLBuilder.ToGraphQLString`, `ObjectTypeBuilder.ToGraphQLString` and `InterfaceTypeBuilder.ToGraphQLString` as parameters (`schemaText`, `scalarText`, `fieldText`).
- The context's runtime-wiring builder is not part of this model. It is the `typeWiring` map from interface name to its type resolver.
- The schema's `additionalTypes` is a list: graphql-java's set semantics are not modelled.
- SchemaBuilders.SchemaBuilder.Build: a root assigned to the context before a later root fails is not stated; on failure only the additional types and the attached registry are said to be unchanged.
- GraphQLSchemaBuilder.union passes a class to the union builder; the model passes its simple name.
- TypeDefinitionRegistry.add is a plain list of definitions: its own duplicate checks are not modelled.
- GraphQLBuilders.GraphQLBuilder.Build: the schema section builds into the caller's context, where the types built by this builder are not recorded. The model follows that, and states the schema section's outcome only through `SchemaPart`.
- Utils.ObjectFromValue: an object literal becomes an unordered `map`. The insertion order of the field names that `mutableMapOf()` (a LinkedHashMap) keeps is not modelled.
- Utils.ObjectFromValue: the JVM call stack is a `stack: nat` budget. Running out of it is `StackOverflow`, so the self-recursive array branch always ends in that error.
- Kotlin's `lines()` and `lineSequence()` are modelled as splitting on `\r\n`, `\n` and `\r`. Other Unicode line separators are not modelled.
