/**
  The `Set` polyfill of the test setup (test/js/polyfills.js): a set backed by
  an array `_set` that is declared on `Set.prototype`. Every instance reads
  and pushes into that one shared array until its own `remove` assigns it a
  filtered copy of its own.
 */
module Polyfills {
  import opened JsArrays

  /** A JavaScript array object: one mutable list seen by every holder of a reference to it. */
  class JsArray<T(==)> {
    var elems: seq<T>

    constructor (init: seq<T>)
      ensures elems == init
    {
      elems := init;
    }
  }

  /** `Set.prototype`, reduced to its `_set` property: one array, empty at first. */
  class SetPrototype<T(==)> {
    const shared: JsArray<T>

    constructor ()
      ensures fresh(shared) && shared.elems == []
    {
      shared := new JsArray([]);
    }
  }

  /** An object made by `new Set()`. */
  class SetInstance<T(==)> {
    /** The prototype the instance looks `_set` up on. */
    const proto: SetPrototype<T>
    /** The instance's own `_set` property; `null` while lookups fall through to the prototype. */
    var own: JsArray?<T>

    constructor (p: SetPrototype<T>)
      ensures proto == p && own == null
    {
      proto := p;
      own := null;
    }

    /** The array `this._set` denotes: the own property if any, else the prototype's. */
    function Backing(): JsArray<T>
      reads this, proto
    {
      if own == null then proto.shared else own
    }

    /** The contents of `this._set`. */
    function Elements(): seq<T>
      reads this, proto, own, proto.shared
    {
      Backing().elems
    }

    /** `has`: `indexOf` finds the element. */
    function Has(e: T): (r: bool)
      reads this, proto, own, proto.shared
      ensures r <==> e in Elements()
    {
      IndexOf(Backing().elems, e) > -1
    }

    /**
      `add`: pushes the element into `this._set` (the shared array when the
      instance has none of its own) unless `has` already finds it.
     */
    method Add(e: T)
      modifies Backing()
      ensures Backing() == old(Backing())
      ensures Elements() == if e in old(Elements()) then old(Elements()) else old(Elements()) + [e]
      ensures Has(e)
      ensures forall y :: y != e ==> (Has(y) <==> y in old(Elements()))
      ensures NoDuplicates(old(Elements())) ==> NoDuplicates(Elements())
    {
      if !Has(e) {
        var backing := Backing();
        backing.elems := backing.elems + [e];
      }
    }

    /**
      `remove`: assigns the instance's own `_set` a new array holding the
      elements other than `e`, in their order. The array it read from, the
      prototype's included, is left as it was.
     */
    method Remove(e: T)
      modifies this`own
      ensures fresh(own) && own != null
      ensures Elements() == Filter(old(Elements()), e)
      ensures !Has(e)
      ensures forall y :: y != e ==> (Has(y) <==> y in old(Elements()))
      ensures NoDuplicates(old(Elements())) ==> NoDuplicates(Elements())
    {
      var source := Backing().elems;
      if NoDuplicates(source) {
        FilterNoDuplicates(source, e);
      }
      var filtered := new JsArray(Filter(source, e));
      own := filtered;
      forall y
        ensures Has(y) <==> y in source && y != e
      {
        FilterMembership(source, e, y);
      }
    }
  }

  /**
    Any two sets on one prototype that have not yet called `remove` share
    `_set`: an add through one is seen by `has` on the other, and both hold
    the same elements afterwards.
   */
  method AddSeenBySibling<T(==)>(a: SetInstance<T>, b: SetInstance<T>, e: T)
    requires a.proto == b.proto && a.own == null && b.own == null
    modifies a.Backing()
    ensures b.Has(e)
    ensures b.Elements() == a.Elements()
  {
    a.Add(e);
  }

  /**
    Two sets made from one prototype share `_set`: an element added through
    the first is seen by `has` on the second. Once the first removes it, the
    first has its own array without it, while the second still sees it in
    the shared one, and a later add through the second no longer reaches the
    first.
   */
  method SharedBackingScenario<T(==)>(e: T, f: T)
    returns (seenByOther: bool, seenAfterRemove: bool, otherStillSees: bool, laterAddSeen: bool)
    ensures seenByOther
    ensures !seenAfterRemove
    ensures otherStillSees
    ensures !laterAddSeen
  {
    var proto := new SetPrototype<T>();
    var first := new SetInstance(proto);
    var second := new SetInstance(proto);
    first.Add(e);
    seenByOther := second.Has(e);
    first.Remove(e);
    seenAfterRemove := first.Has(e);
    otherStillSees := second.Has(e);
    second.Add(f);
    laterAddSeen := first.Has(f);
  }
}
