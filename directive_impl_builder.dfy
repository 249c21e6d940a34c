/** `DirectiveImplBuilder`: an application of a directive, binding values to the
    member properties of the directive's class. */
module DirectiveImplBuilders {
  import opened Common
  import opened OrderedMaps
  import opened Manifest
  import opened Values
  import opened Utils
  import opened SchemaTypes

  /** The argument bound to `p`: its name, a reference to its class's simple name,
      and the value; no description and no default. */
  function BoundArgument(p: Property, v: RValue): GArgument
  {
    GArgument(p.name, ClassifierName(p.returnType), None, None, v)
  }

  /** `build`: the directive named after the class, with one bound argument per
      stored entry in insertion order, no description and no location; only an
      empty class name (which cannot be indexed) fails. */
  function ApplicationOf(host: HostClass, args: OMap<Property, RValue>): (r: Result<GDirective>)
    requires args.Valid()
    ensures r.Failure? <==> |host.simpleName| == 0
    ensures r.Failure? ==> r.error == IndexOutOfBounds
    ensures r.Success? ==>
      r.value.name == DirectiveNameFrom(host.simpleName).value
      && r.value.description == None && r.value.locations == {}
      && |r.value.arguments| == |args.keys|
      && forall i :: 0 <= i < |args.keys| ==>
        r.value.arguments[i] == BoundArgument(args.keys[i], args.entries[args.keys[i]])
  {
    var name :- DirectiveNameFrom(host.simpleName);
    Success(GDirective(name, None, {},
      seq(|args.keys|, i requires 0 <= i < |args.keys| => BoundArgument(args.keys[i], args.entries[args.keys[i]]))))
  }

  /** Binding a property twice keeps the second value, at the position of the first. */
  lemma RebindLastWins(m: OMap<Property, RValue>, p: Property, v: RValue, w: RValue)
    requires m.Valid()
    ensures m.Put(p, v).Put(p, w) == m.Put(p, w)
  {
  }

  /** Binding `p` leaves every other property's binding as it was, and the order
      of the properties already bound. */
  lemma RebindKeepsOthers(m: OMap<Property, RValue>, p: Property, v: RValue, q: Property)
    requires m.Valid() && q != p
    ensures m.Put(p, v).Get(q) == m.Get(q)
    ensures m.Put(p, v).keys[..|m.keys|] == m.keys
  {
  }

  class DirectiveImplBuilder {
    const host: HostClass
    /** `arguments`: a LinkedHashMap from property to bound value. */
    var arguments: OMap<Property, RValue>

    ghost predicate Valid()
      reads this
    {
      arguments.Valid()
    }

    constructor (host: HostClass)
      ensures Valid() && this.host == host && arguments == Empty()
    {
      this.host := host;
      arguments := Empty();
    }

    /** `argument(p, v)`: binds `v` to `p`, replacing an earlier value. */
    method Argument(p: Property, v: RValue)
      requires Valid()
      modifies this`arguments
      ensures Valid()
      ensures arguments == old(arguments).Put(p, v)
    {
      arguments := arguments.Put(p, v);
    }

    /** `build`. The context is not consulted. */
    method Build() returns (r: Result<GDirective>)
      requires Valid()
      ensures r == ApplicationOf(host, arguments)
    {
      var name :- DirectiveNameFrom(host.simpleName);
      var keys := arguments.keys;
      var args: seq<GArgument> := [];
      var i := 0;
      while i < |keys|
        invariant 0 <= i <= |keys|
        invariant |args| == i
        invariant forall j :: 0 <= j < i ==> args[j] == BoundArgument(keys[j], arguments.entries[keys[j]])
      {
        var p := keys[i];
        args := args + [GArgument(p.name, ClassifierName(p.returnType), None, None, arguments.entries[p])];
        i := i + 1;
      }
      assert args == ApplicationOf(host, arguments).value.arguments;
      r := Success(GDirective(name, None, {}, args));
    }
  }
}
