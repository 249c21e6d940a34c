/** `FieldArgumentsBuilder`: the arguments of a field, one argument builder per
    member property of the arguments class. */
module FieldArgumentsBuilders {
  import opened Common
  import opened OrderedMaps
  import opened Manifest
  import opened Values
  import opened ArgumentBuilders

  class FieldArgumentsBuilder {
    const host: HostClass
    /** `arguments`: filled once, by the constructor; its keys never change. */
    const arguments: OMap<Property, ArgumentBuilder>
    ghost const Repr: set<object>

    /** One builder per member property, in declaration order, each for its own
        property (so no two keys share a builder). */
    ghost predicate Valid()
    {
      arguments.Valid() && arguments.keys == Dedup(host.memberProperties)
      && (forall p :: p in arguments.entries ==> arguments.entries[p].field == p)
      && Repr == {this} + set p | p in arguments.entries :: arguments.entries[p]
    }

    /** `init`: a fresh argument builder for every member property. */
    constructor (host: HostClass)
      ensures Valid() && this.host == host
      ensures forall p :: p in arguments.entries ==> arguments.entries[p].State() == ArgumentState(p, None, RNull)
      ensures fresh(Repr - {this})
    {
      var m := FreshArgumentBuilders(host.memberProperties);
      this.host := host;
      arguments := m;
      Repr := {this} + set p | p in m.entries :: m.entries[p];
    }

    /** `argument(p) { … }`: hands out the builder of `p` for the caller's block to
        configure, or fails when `p` is not a member property. Nothing changes here;
        the block can change only the builder it is given. */
    method Argument(p: Property) returns (r: Result<ArgumentBuilder>)
      requires Valid()
      ensures r.Failure? <==> p !in host.memberProperties
      ensures r.Failure? ==> r.error == UnknownArgument(p.name)
      ensures r.Success? ==> r.value in Repr && r.value.field == p && r.value == arguments.entries[p]
    {
      DedupIsOrderedSet(host.memberProperties);
      if p in arguments.entries {
        r := Success(arguments.entries[p]);
      } else {
        r := Failure(UnknownArgument(p.name));
      }
    }

    /** The states of the argument builders, in key order. */
    function States(): (r: seq<ArgumentState>)
      requires Valid()
      reads Repr
      ensures |r| == |arguments.keys|
      ensures forall i :: 0 <= i < |r| ==> r[i] == arguments.entries[arguments.keys[i]].State()
    {
      seq(|arguments.keys|, i requires 0 <= i < |arguments.keys| reads Repr =>
        arguments.entries[arguments.keys[i]].State())
    }
  }
}
