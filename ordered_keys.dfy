/**
 * The two queries the ring asks of the key set of its `TreeMap<Integer, String>`:
 * the least key, and `tailMap(h).firstKey()`, the least key at or above `h`.
 * Keys are compared as signed `int`s, the order of `Integer.compareTo`.
 */
module OrderedKeys {
  import opened Wrappers

  /** `m` is the least element of `keys`. */
  ghost predicate IsLeast(keys: set<int>, m: int) {
    m in keys && forall y :: y in keys ==> m <= y
  }

  /** A set that is not empty has an element. */
  lemma HasElement(keys: set<int>)
    requires keys != {}
    ensures exists x :: x in keys
  {
    assert (forall x :: x !in keys) ==> keys == {};
  }

  /** A non-empty finite set of integers has a least element. */
  lemma {:induction false} LeastExists(keys: set<int>)
    requires keys != {}
    ensures exists m :: IsLeast(keys, m)
    decreases |keys|
  {
    HasElement(keys);
    var x :| x in keys;
    var rest := keys - {x};
    if rest == {} {
      assert forall y :: y in keys && y != x ==> y in rest;
      assert IsLeast(keys, x);
    } else {
      assert keys == rest + {x};
      LeastExists(rest);
      var m :| IsLeast(rest, m);
      if x < m {
        assert IsLeast(keys, x);
      } else {
        assert IsLeast(keys, m);
      }
    }
  }

  /** `firstKey()`: the least key. */
  function Least(keys: set<int>): (m: int)
    requires keys != {}
    ensures IsLeast(keys, m)
  {
    LeastExists(keys);
    var m :| m in keys && forall y :: y in keys ==> m <= y;
    m
  }

  /** The keys of `tailMap(h)`: those at or above `h`. */
  function AtLeast(keys: set<int>, h: int): set<int> {
    set x | x in keys && h <= x
  }

  /** No key lies at or above `h` exactly when the tail set is empty. */
  lemma TailIsEmpty(keys: set<int>, h: int)
    ensures AtLeast(keys, h) == {} <==> forall x :: x in keys ==> x < h
  {
    var tail := AtLeast(keys, h);
    if tail != {} {
      HasElement(tail);
      var x :| x in tail;
      assert x in keys && h <= x;
    } else {
      assert forall x :: x in keys && h <= x ==> x in tail;
    }
  }

  /** `tailMap(h).firstKey()`: the least key not below `h`, or `None` where Java throws `NoSuchElementException`. */
  function FirstKeyAtLeast(keys: set<int>, h: int): (r: Option<int>)
    ensures r.None? <==> forall x :: x in keys ==> x < h
    ensures r.Some? ==> r.value in keys && h <= r.value
    ensures r.Some? ==> forall y :: y in keys && h <= y ==> r.value <= y
  {
    var tail := AtLeast(keys, h);
    TailIsEmpty(keys, h);
    assert forall y :: y in keys && h <= y ==> y in tail;
    if tail == {} then None else Some(Least(tail))
  }
}
