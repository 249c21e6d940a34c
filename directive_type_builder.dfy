/** `DirectiveTypeBuilder`: a directive declaration derived from a class with a
    primary constructor, one argument builder per member property, and a set of
    locations. */
module DirectiveTypeBuilders {
  import opened Common
  import opened OrderedMaps
  import opened Manifest
  import opened Utils
  import opened SchemaTypes
  import opened DirectiveLocations
  import opened ArgumentBuilders

  /** The introspection locations of a list of the DSL's locations. */
  function LocationSet(locations: seq<DirectiveLocation>): (r: set<IntrospectionLocation>)
    ensures forall i :: i in r <==> exists l :: l in locations && Introspection(l) == i
  {
    set l | l in locations :: Introspection(l)
  }

  /** `build`: the name is the class's simple name with its first letter
      lower-cased (an empty name cannot be indexed); a directive without
      locations is rejected; otherwise each location contributes its
      introspection location and each argument builder its argument, in order. */
  function DirectiveOf(host: HostClass, description: Option<string>, locations: seq<DirectiveLocation>, args: seq<ArgumentState>): (r: Result<GDirective>)
    ensures r.Failure? <==> |host.simpleName| == 0 || |locations| == 0
    ensures |host.simpleName| == 0 ==> r == Failure(IndexOutOfBounds)
    ensures |host.simpleName| > 0 && |locations| == 0 ==>
      r == Failure(NoLocation(DirectiveNameFrom(host.simpleName).value))
    ensures r.Success? ==>
      r.value.name == DirectiveNameFrom(host.simpleName).value
      && r.value.description == description
      && r.value.locations == LocationSet(locations)
      && r.value.arguments == ArgumentsOf(args)
  {
    var name :- DirectiveNameFrom(host.simpleName);
    if |locations| == 0 then Failure(NoLocation(name))
    else Success(GDirective(name, description, LocationSet(locations), ArgumentsOf(args)))
  }

  /** A directive declared for any location is valid everywhere except `QUERY`
      and `VARIABLE_DEFINITION`, which no constant reaches. */
  lemma AnyLocationMissesQuery(host: HostClass, description: Option<string>, args: seq<ArgumentState>)
    requires |host.simpleName| > 0
    ensures DirectiveOf(host, description, AllLocations(), args).Success?
    ensures DirectiveOf(host, description, AllLocations(), args).value.locations
      == (set i | i in AllIntrospectionLocations()) - {QUERY, VARIABLE_DEFINITION}
    ensures |DirectiveOf(host, description, AllLocations(), args).value.locations| == 17
    ensures QUERY !in DirectiveOf(host, description, AllLocations(), args).value.locations
    ensures VARIABLE_DEFINITION !in DirectiveOf(host, description, AllLocations(), args).value.locations
  {
    ImageHasSeventeen();
    QueryMisrouted();
  }

  class DirectiveTypeBuilder {
    const host: HostClass
    var description: Option<string>
    /** `locations`: a LinkedHashSet, cleared and refilled by `on` and `onAnyLocation`. */
    var locations: seq<DirectiveLocation>
    /** `arguments`: filled once, by the constructor; its keys never change. */
    const arguments: OMap<Property, ArgumentBuilder>
    ghost const Repr: set<object>

    ghost predicate Valid()
    {
      arguments.Valid() && arguments.keys == Dedup(host.memberProperties)
      && (forall p :: p in arguments.entries ==> arguments.entries[p].field == p)
      && Repr == {this} + set p | p in arguments.entries :: arguments.entries[p]
    }

    /** `init` for a class that has a primary constructor (`Create` covers the
        other case): a fresh argument builder for every member property. */
    constructor (host: HostClass)
      requires host.hasPrimaryConstructor
      ensures Valid() && this.host == host && description == None && locations == []
      ensures fresh(Repr - {this})
    {
      var m := FreshArgumentBuilders(host.memberProperties);
      this.host := host;
      description := None;
      locations := [];
      arguments := m;
      Repr := {this} + set p | p in m.entries :: m.entries[p];
    }

    /** `DirectiveTypeBuilder(type)`: construction throws for a class without a
        primary constructor. */
    static method Create(host: HostClass) returns (r: Result<DirectiveTypeBuilder>)
      ensures r.Failure? <==> !host.hasPrimaryConstructor
      ensures r.Failure? ==> r.error == NoPrimaryConstructor
      ensures r.Success? ==> fresh(r.value) && r.value.Valid() && r.value.host == host && r.value.locations == []
    {
      if !host.hasPrimaryConstructor {
        return Failure(NoPrimaryConstructor);
      }
      var b := new DirectiveTypeBuilder(host);
      r := Success(b);
    }

    /** `on(locations)`: clears the set, then adds the locations; afterwards it
        holds exactly the given locations, each once, in order of first occurrence. */
    method On(locs: seq<DirectiveLocation>)
      modifies this`locations
      ensures locations == Dedup(locs)
      ensures forall l :: l in locations <==> l in locs
    {
      locations := [];
      var i := 0;
      while i < |locs|
        invariant 0 <= i <= |locs|
        invariant locations == Dedup(locs[..i])
      {
        assert locs[..i + 1][..i] == locs[..i];
        if locs[i] !in locations {
          locations := locations + [locs[i]];
        }
        i := i + 1;
      }
      assert locs[..i] == locs;
      DedupIsOrderedSet(locs);
    }

    /** `onAnyLocation()`: every constant, in declaration order. */
    method OnAnyLocation()
      modifies this`locations
      ensures locations == AllLocations()
      ensures forall l: DirectiveLocation :: l in locations
    {
      On(AllLocations());
      LocationGroups();
      DedupOfDistinct(AllLocations());
      forall l: DirectiveLocation ensures l in locations {
        EveryLocationListed(l, QUERY);
      }
    }

    /** `argument(p) { … }`: hands out the builder of `p`, or fails when `p` is not
        a member property; no other argument's builder is the one handed out. */
    method Argument(p: Property) returns (r: Result<ArgumentBuilder>)
      requires Valid()
      ensures r.Failure? <==> p !in host.memberProperties
      ensures r.Failure? ==> r.error == UnknownArgument(p.name)
      ensures r.Success? ==> r.value in Repr && r.value.field == p && r.value == arguments.entries[p]
      ensures r.Success? ==> forall q :: q in arguments.entries && q != p ==> arguments.entries[q] != r.value
    {
      DedupIsOrderedSet(host.memberProperties);
      if p in arguments.entries {
        r := Success(arguments.entries[p]);
      } else {
        r := Failure(UnknownArgument(p.name));
      }
    }

    /** The states of the argument builders, in key order. */
    function ArgumentStates(): (r: seq<ArgumentState>)
      requires Valid()
      reads Repr
      ensures |r| == |Dedup(host.memberProperties)|
      ensures forall i :: 0 <= i < |r| ==> r[i].field == Dedup(host.memberProperties)[i]
      ensures forall i :: 0 <= i < |r| ==> r[i] == arguments.entries[arguments.keys[i]].State()
    {
      seq(|arguments.keys|, i requires 0 <= i < |arguments.keys| reads Repr =>
        arguments.entries[arguments.keys[i]].State())
    }

    /** What `build` gives for the builder's current state. */
    function Outcome(): Result<GDirective>
      requires Valid()
      reads Repr
    {
      DirectiveOf(host, description, locations, ArgumentStates())
    }

    /** `build`. The context is not consulted. */
    method Build() returns (r: Result<GDirective>)
      requires Valid()
      ensures r == DirectiveOf(host, description, locations, ArgumentStates())
      ensures r == Outcome()
    {
      var name :- DirectiveNameFrom(host.simpleName);
      if |locations| == 0 {
        return Failure(NoLocation(name));
      }
      var locs: set<IntrospectionLocation> := {};
      var i := 0;
      while i < |locations|
        invariant 0 <= i <= |locations|
        invariant locs == LocationSet(locations[..i])
      {
        assert locations[..i + 1] == locations[..i] + [locations[i]];
        locs := locs + {Introspection(locations[i])};
        i := i + 1;
      }
      assert locations[..i] == locations;
      var keys := arguments.keys;
      ghost var ss := ArgumentStates();
      var args: seq<GArgument> := [];
      var j := 0;
      while j < |keys|
        invariant 0 <= j <= |keys|
        invariant args == ArgumentsOf(ss[..j])
      {
        var a := arguments.entries[keys[j]].Build();
        assert ArgumentsOf(ss[..j + 1]) == ArgumentsOf(ss[..j]) + [a];
        args := args + [a];
        j := j + 1;
      }
      assert ss[..j] == ss;
      r := Success(GDirective(name, description, locs, args));
    }
  }
}
