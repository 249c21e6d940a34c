/** `UnionTypeBuilder`: a union type with an explicit name and an insertion-ordered
    set of member classes. */
module UnionTypeBuilders {
  import opened Common
  import opened Manifest
  import opened SchemaTypes
  import opened GraphQLPrinter
  import opened ObjectTypeBuilders

  /** The member type references: the simple name of each member class, in order. */
  function MemberNames(types: seq<HostClass>): (r: seq<string>)
    ensures |r| == |types| && forall i :: 0 <= i < |types| ==> r[i] == types[i].simpleName
  {
    seq(|types|, i requires 0 <= i < |types| => types[i].simpleName)
  }

  /** The text `toGraphQLString` gives: the description as a block string, then
      `union name ` and the members joined by ` | `; an empty union is an error,
      raised after the description and header were appended, so nothing is kept. */
  function UnionDefinitionText(name: string, description: Option<string>, types: seq<HostClass>): (r: Result<string>)
    ensures r.Failure? <==> |types| == 0
    ensures r.Failure? ==> r.error == EmptyUnion
  {
    if |types| == 0 then Failure(EmptyUnion)
    else Success(BuilderDescription(description) + "union " + name + " " + Join(MemberNames(types), " | "))
  }

  /** For a union without a description and with at least one member, the
      builder prints the same text as the schema printer prints for the type it
      builds. */
  lemma UnionTextAgrees(name: string, types: seq<HostClass>)
    requires |types| > 0
    ensures UnionDefinitionText(name, None, types) == Success(UnionText(name, None, MemberNames(types)))
  {
  }

  /** Two member classes give the two in order, or one when they are the same. */
  lemma DedupTwo(a: HostClass, b: HostClass)
    ensures Dedup([a, b]) == if a == b then [a] else [a, b]
  {
    assert [a, b][..1] == [a];
    assert [a][..0] == [];
    assert Dedup([a]) == [a];
    assert Dedup([a, b]) == if b in [a] then [a] else [a] + [b];
  }

  class UnionTypeBuilder {
    const name: string
    var description: Option<string>
    /** `types`: a LinkedHashSet, so no class twice and insertion order kept. */
    var types: seq<HostClass>

    constructor (name: string)
      ensures this.name == name && description == None && types == []
    {
      this.name := name;
      description := None;
      types := [];
    }

    /** `of(unionTypes)`: clears the members, then adds the classes one by one;
        afterwards the members are exactly the given classes, each once, in order
        of first occurrence. */
    method Of(unionTypes: seq<HostClass>)
      modifies this`types
      ensures types == Dedup(unionTypes)
      ensures Distinct(types) && forall c :: c in types <==> c in unionTypes
    {
      types := [];
      var i := 0;
      while i < |unionTypes|
        invariant 0 <= i <= |unionTypes|
        invariant types == Dedup(unionTypes[..i])
      {
        assert unionTypes[..i + 1][..i] == unionTypes[..i];
        if unionTypes[i] !in types {
          types := types + [unionTypes[i]];
        }
        i := i + 1;
      }
      assert unionTypes[..i] == unionTypes;
      DedupIsOrderedSet(unionTypes);
    }

    /** `ofTwo<T1, T2>()`. */
    method OfTwo(t1: HostClass, t2: HostClass)
      modifies this`types
      ensures types == if t1 == t2 then [t1] else [t1, t2]
    {
      Of([t1, t2]);
      DedupTwo(t1, t2);
    }

    /** `ofThree<T1, T2, T3>()`. */
    method OfThree(t1: HostClass, t2: HostClass, t3: HostClass)
      modifies this`types
      ensures types == Dedup([t1, t2, t3])
      ensures forall c :: c in types <==> c == t1 || c == t2 || c == t3
    {
      Of([t1, t2, t3]);
    }

    /** `ofFour<T1, T2, T3, T4>()`. */
    method OfFour(t1: HostClass, t2: HostClass, t3: HostClass, t4: HostClass)
      modifies this`types
      ensures types == Dedup([t1, t2, t3, t4])
      ensures forall c :: c in types <==> c == t1 || c == t2 || c == t3 || c == t4
    {
      Of([t1, t2, t3, t4]);
    }

    /** `build`: named by the constructor's `name`, the description when set, one
        member reference per class in set order; an empty union is accepted. The
        context is not consulted. */
    method Build() returns (t: GType)
      ensures t.UnionType? && t.name == name && t.description == description
      ensures |t.members| == |types|
      ensures forall i :: 0 <= i < |types| ==> t.members[i] == types[i].simpleName
      ensures t == UnionType(name, description, MemberNames(types))
    {
      var members: seq<string> := [];
      var i := 0;
      while i < |types|
        invariant 0 <= i <= |types|
        invariant members == MemberNames(types[..i])
      {
        members := members + [types[i].simpleName];
        i := i + 1;
      }
      assert types[..i] == types;
      t := UnionType(name, description, members);
    }

    /** `toGraphQLString`. */
    method ToGraphQLString() returns (r: Result<string>)
      ensures r == UnionDefinitionText(name, description, types)
    {
      var head := BuilderDescription(description) + "union " + name + " ";
      if |types| == 0 {
        return Failure(EmptyUnion);
      }
      r := Success(head + Join(MemberNames(types), " | "));
    }
  }
}
