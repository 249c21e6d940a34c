/** `DirectiveLocation`: the 18 places a directive may be declared for, each tied
    to a location of graphql-java's introspection enumeration. */
module DirectiveLocations {
  import opened Common

  /** The DSL's constants, in declaration order: seven executable locations,
      then eleven type-system locations. */
  datatype DirectiveLocation =
    | Query | Mutation | Subscription | Field | FragmentDefinition | FragmentSpread | InlineFragment
    | Schema | Scalar | Object | FieldDefinition | ArgumentDefinition | Interface | Union | Enum
    | EnumValue | InputObject | InputFieldDefinition

  /** graphql-java's `Introspection.DirectiveLocation`: the DSL's eighteen plus
      `VARIABLE_DEFINITION`, which the DSL has no constant for. */
  datatype IntrospectionLocation =
    | QUERY | MUTATION | SUBSCRIPTION | FIELD | FRAGMENT_DEFINITION | FRAGMENT_SPREAD | INLINE_FRAGMENT
    | VARIABLE_DEFINITION
    | SCHEMA | SCALAR | OBJECT | FIELD_DEFINITION | ARGUMENT_DEFINITION | INTERFACE | UNION | ENUM
    | ENUM_VALUE | INPUT_OBJECT | INPUT_FIELD_DEFINITION

  /** `DirectiveLocation.values()`. */
  function AllLocations(): (r: seq<DirectiveLocation>)
    ensures |r| == 18
  {
    [Query, Mutation, Subscription, Field, FragmentDefinition, FragmentSpread, InlineFragment,
     Schema, Scalar, Object, FieldDefinition, ArgumentDefinition, Interface, Union, Enum,
     EnumValue, InputObject, InputFieldDefinition]
  }

  /** The constants of the "Executable" group of the declaration. */
  predicate IsExecutable(l: DirectiveLocation)
  {
    l in {Query, Mutation, Subscription, Field, FragmentDefinition, FragmentSpread, InlineFragment}
  }

  /** `introspectionDirective`: the table given with each constant. */
  function Introspection(l: DirectiveLocation): IntrospectionLocation
  {
    match l
    case Query => ARGUMENT_DEFINITION
    case Mutation => MUTATION
    case Subscription => SUBSCRIPTION
    case Field => FIELD
    case FragmentDefinition => FRAGMENT_DEFINITION
    case FragmentSpread => FRAGMENT_SPREAD
    case InlineFragment => INLINE_FRAGMENT
    case Schema => SCHEMA
    case Scalar => SCALAR
    case Object => OBJECT
    case FieldDefinition => FIELD_DEFINITION
    case ArgumentDefinition => ARGUMENT_DEFINITION
    case Interface => INTERFACE
    case Union => UNION
    case Enum => ENUM
    case EnumValue => ENUM_VALUE
    case InputObject => INPUT_OBJECT
    case InputFieldDefinition => INPUT_FIELD_DEFINITION
  }

  /** `Introspection.DirectiveLocation.values()`, in graphql-java's declaration order. */
  function AllIntrospectionLocations(): (r: seq<IntrospectionLocation>)
    ensures |r| == 19
  {
    [QUERY, MUTATION, SUBSCRIPTION, FIELD, FRAGMENT_DEFINITION, FRAGMENT_SPREAD, INLINE_FRAGMENT,
     VARIABLE_DEFINITION, SCHEMA, SCALAR, OBJECT, FIELD_DEFINITION, ARGUMENT_DEFINITION, INTERFACE, UNION, ENUM,
     ENUM_VALUE, INPUT_OBJECT, INPUT_FIELD_DEFINITION]
  }

  /** `values()` lists every constant of each enumeration. */
  lemma {:induction false} EveryLocationListed(l: DirectiveLocation, i: IntrospectionLocation)
    ensures l in AllLocations() && i in AllIntrospectionLocations()
  {
    match l {
      case Query => assert AllLocations()[0] == l;
      case Mutation => assert AllLocations()[1] == l;
      case Subscription => assert AllLocations()[2] == l;
      case Field => assert AllLocations()[3] == l;
      case FragmentDefinition => assert AllLocations()[4] == l;
      case FragmentSpread => assert AllLocations()[5] == l;
      case InlineFragment => assert AllLocations()[6] == l;
      case Schema => assert AllLocations()[7] == l;
      case Scalar => assert AllLocations()[8] == l;
      case Object => assert AllLocations()[9] == l;
      case FieldDefinition => assert AllLocations()[10] == l;
      case ArgumentDefinition => assert AllLocations()[11] == l;
      case Interface => assert AllLocations()[12] == l;
      case Union => assert AllLocations()[13] == l;
      case Enum => assert AllLocations()[14] == l;
      case EnumValue => assert AllLocations()[15] == l;
      case InputObject => assert AllLocations()[16] == l;
      case InputFieldDefinition => assert AllLocations()[17] == l;
    }
    match i {
      case QUERY => assert AllIntrospectionLocations()[0] == i;
      case MUTATION => assert AllIntrospectionLocations()[1] == i;
      case SUBSCRIPTION => assert AllIntrospectionLocations()[2] == i;
      case FIELD => assert AllIntrospectionLocations()[3] == i;
      case FRAGMENT_DEFINITION => assert AllIntrospectionLocations()[4] == i;
      case FRAGMENT_SPREAD => assert AllIntrospectionLocations()[5] == i;
      case INLINE_FRAGMENT => assert AllIntrospectionLocations()[6] == i;
      case VARIABLE_DEFINITION => assert AllIntrospectionLocations()[7] == i;
      case SCHEMA => assert AllIntrospectionLocations()[8] == i;
      case SCALAR => assert AllIntrospectionLocations()[9] == i;
      case OBJECT => assert AllIntrospectionLocations()[10] == i;
      case FIELD_DEFINITION => assert AllIntrospectionLocations()[11] == i;
      case ARGUMENT_DEFINITION => assert AllIntrospectionLocations()[12] == i;
      case INTERFACE => assert AllIntrospectionLocations()[13] == i;
      case UNION => assert AllIntrospectionLocations()[14] == i;
      case ENUM => assert AllIntrospectionLocations()[15] == i;
      case ENUM_VALUE => assert AllIntrospectionLocations()[16] == i;
      case INPUT_OBJECT => assert AllIntrospectionLocations()[17] == i;
      case INPUT_FIELD_DEFINITION => assert AllIntrospectionLocations()[18] == i;
    }
  }

  /** The constants are 18 distinct values: the first seven executable, the other
      eleven type-system locations. */
  lemma LocationGroups()
    ensures Distinct(AllLocations())
    ensures forall k :: 0 <= k < 18 ==> (IsExecutable(AllLocations()[k]) <==> k < 7)
  {
  }

  /** Both enumerations list the same meanings in the same order, except that
      graphql-java has `VARIABLE_DEFINITION` (position 7) between the executable
      and the type-system locations. The table follows that order everywhere
      except at `Query` (position 0), which it sends to `ARGUMENT_DEFINITION`
      (position 12). */
  lemma SameMeaningExceptQuery()
    ensures Distinct(AllIntrospectionLocations())
    ensures AllIntrospectionLocations()[0] == QUERY && AllIntrospectionLocations()[7] == VARIABLE_DEFINITION
    ensures forall k :: 0 < k < 7 ==> Introspection(AllLocations()[k]) == AllIntrospectionLocations()[k]
    ensures forall k :: 7 <= k < 18 ==> Introspection(AllLocations()[k]) == AllIntrospectionLocations()[k + 1]
    ensures Introspection(AllLocations()[0]) == AllIntrospectionLocations()[12]
  {
    IntrospectionLocationsDistinct();
    ExecutableLocationsSameMeaning();
    TypeSystemLocationsSameMeaning();
  }

  /** The executable constants after `Query` keep their position. */
  lemma ExecutableLocationsSameMeaning()
    ensures forall k :: 0 < k < 7 ==> Introspection(AllLocations()[k]) == AllIntrospectionLocations()[k]
  {
  }

  /** The type-system constants sit one place later in graphql-java's order. */
  lemma TypeSystemLocationsSameMeaning()
    ensures forall k :: 7 <= k < 18 ==> Introspection(AllLocations()[k]) == AllIntrospectionLocations()[k + 1]
  {
    TypeSystemHeadSameMeaning();
    TypeSystemTailSameMeaning();
  }

  /** `Schema` to `ArgumentDefinition`. */
  lemma TypeSystemHeadSameMeaning()
    ensures forall k :: 7 <= k < 12 ==> Introspection(AllLocations()[k]) == AllIntrospectionLocations()[k + 1]
  {
  }

  /** `Interface` to `InputFieldDefinition`. */
  lemma TypeSystemTailSameMeaning()
    ensures forall k :: 12 <= k < 18 ==> Introspection(AllLocations()[k]) == AllIntrospectionLocations()[k + 1]
  {
  }

  /** No introspection location is listed twice. */
  lemma IntrospectionLocationsDistinct()
    ensures Distinct(AllIntrospectionLocations())
  {
  }

  /** `Query` and `ArgumentDefinition` share a target, and nothing targets `QUERY`
      or `VARIABLE_DEFINITION`. */
  lemma QueryMisrouted()
    ensures Introspection(Query) == Introspection(ArgumentDefinition)
    ensures forall l: DirectiveLocation :: Introspection(l) != QUERY && Introspection(l) != VARIABLE_DEFINITION
    ensures forall l, m: DirectiveLocation :: l != m && Introspection(l) == Introspection(m) ==>
      {l, m} == {Query, ArgumentDefinition}
  {
  }

  /** The table reaches 17 of the 19 introspection locations: all but `QUERY` and
      `VARIABLE_DEFINITION`. */
  lemma {:induction false} ImageHasSeventeen()
    ensures (set l | l in AllLocations() :: Introspection(l)) == (set i | i in AllIntrospectionLocations()) - {QUERY, VARIABLE_DEFINITION}
    ensures |set l | l in AllLocations() :: Introspection(l)| == 17
  {
    ImageIsAllButTwo();
    var all := AllIntrospectionLocations();
    var listed := set i | i in all;
    var missed := {QUERY, VARIABLE_DEFINITION};
    IntrospectionLocationsDistinct();
    DistinctCard(all);
    assert all[0] == QUERY && all[7] == VARIABLE_DEFINITION;
    assert listed == (listed - missed) + missed;
    assert |missed| == 2;
  }

  /** The image of the table is every introspection location except `QUERY` and
      `VARIABLE_DEFINITION`. */
  lemma {:induction false} ImageIsAllButTwo()
    ensures (set l | l in AllLocations() :: Introspection(l)) == (set i | i in AllIntrospectionLocations()) - {QUERY, VARIABLE_DEFINITION}
  {
    SameMeaningExceptQuery();
    QueryMisrouted();
    var all := AllIntrospectionLocations();
    var image := set l | l in AllLocations() :: Introspection(l);
    forall i | i in image ensures i in all {
      EveryLocationListed(Query, i);
    }
    forall i | i in all && i != QUERY && i != VARIABLE_DEFINITION ensures i in image {
      var k :| 0 <= k < 19 && all[k] == i;
      if k < 7 {
        assert Introspection(AllLocations()[k]) == i;
      } else {
        assert Introspection(AllLocations()[k - 1]) == i;
      }
    }
  }
}
