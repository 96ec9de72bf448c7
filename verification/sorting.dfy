/**
 * Python's `sorted()` on the integer step numbers of a plan: both
 * orchestrators run the steps of a normalized plan in ascending order.
 */
module Sorting {

  ghost predicate Ascending(r: seq<int>) {
    forall i, j :: 0 <= i < j < |r| ==> r[i] < r[j]
  }

  /** A set with no member is empty. */
  lemma Empty(keys: set<int>)
    requires forall x :: x !in keys
    ensures keys == {}
  {
    assert forall x :: x in keys <==> x in {};
  }

  lemma NonEmptyHasElement(keys: set<int>)
    requires keys != {}
    ensures exists x :: x in keys
  {
    if forall x :: x !in keys {
      Empty(keys);
    }
  }

  lemma {:induction false} MinimumExists(keys: set<int>)
    requires keys != {}
    ensures exists m :: m in keys && IsMin(keys, m)
    decreases |keys|
  {
    NonEmptyHasElement(keys);
    var x :| x in keys;
    if !IsMin(keys, x) {
      var y :| y in keys && y < x;
      var rest := keys - {x};
      assert y in rest;
      MinimumExists(rest);
      var m :| m in rest && IsMin(rest, m);
      MinOfRest(keys, x, y, m);
    }
  }

  predicate IsMin(keys: set<int>, m: int) {
    forall n :: n in keys ==> m <= n
  }

  lemma MinOfRest(keys: set<int>, x: int, y: int, m: int)
    requires x in keys && y in keys && y < x
    requires m in keys - {x} && IsMin(keys - {x}, m)
    ensures m in keys && IsMin(keys, m)
  {
    forall n | n in keys ensures m <= n {
      if n != x {
        assert n in keys - {x};
      } else {
        assert y in keys - {x};
      }
    }
  }

  /** The smallest member of a non-empty set. */
  ghost function Min(keys: set<int>): (m: int)
    requires keys != {}
    ensures m in keys && IsMin(keys, m)
  {
    MinimumExists(keys);
    var m :| m in keys && IsMin(keys, m); m
  }

  /** `sorted(keys)`: the keys in ascending order. */
  ghost function SortedKeys(keys: set<int>): (r: seq<int>)
    ensures forall i :: 0 <= i < |r| ==> r[i] in keys
    decreases |keys|
  {
    if keys == {} then [] else [Min(keys)] + SortedKeys(keys - {Min(keys)})
  }

  /** `sorted` lists every key once, in ascending order. */
  lemma SortedKeysSpec(keys: set<int>)
    ensures Ascending(SortedKeys(keys))
    ensures forall n :: n in keys <==> n in SortedKeys(keys)
  {
    SortedKeysAscending(keys);
    SortedKeysMembers(keys);
  }

  lemma {:induction false} SortedKeysAscending(keys: set<int>)
    ensures Ascending(SortedKeys(keys))
    decreases |keys|
  {
    if keys != {} {
      var m := Min(keys);
      var rest := SortedKeys(keys - {m});
      SortedKeysAscending(keys - {m});
      var r := [m] + rest;
      assert SortedKeys(keys) == r;
      forall i, j | 0 <= i < j < |r| ensures r[i] < r[j] {
        assert r[j] == rest[j - 1] && rest[j - 1] in keys - {m};
        if i > 0 {
          assert r[i] == rest[i - 1];
        }
      }
    }
  }

  lemma {:induction false} SortedKeysMembers(keys: set<int>)
    ensures forall n :: n in keys <==> n in SortedKeys(keys)
    decreases |keys|
  {
    if keys == {} {
      forall n ensures n !in keys {
      }
    } else {
      var m := Min(keys);
      var rest := SortedKeys(keys - {m});
      SortedKeysMembers(keys - {m});
      var r := [m] + rest;
      assert SortedKeys(keys) == r;
      forall n | n in keys ensures n in r {
        if n != m {
          assert n in keys - {m};
          assert n in rest;
          var i :| 0 <= i < |rest| && rest[i] == n;
          assert r[i + 1] == n;
        }
      }
    }
  }

  /** Taking the least remaining key advances through `sorted(keys)`: the
      loops that run the steps choose the next step this way. */
  lemma SortedKeysFirst(keys: set<int>, m: int)
    requires m in keys && IsMin(keys, m)
    ensures SortedKeys(keys) == [m] + SortedKeys(keys - {m})
  {
    var k := Min(keys);
    assert m <= k && k <= m;
  }

  /** One turn of a step loop: moving the least remaining key to the keys
      done keeps `done + sorted(rest)` equal to the full order. */
  lemma AdvanceSorted(done: seq<int>, rest: set<int>, step: int, all: seq<int>)
    requires done + SortedKeys(rest) == all && step in rest && IsMin(rest, step)
    ensures (done + [step]) + SortedKeys(rest - {step}) == all
    ensures done + [step] == all[..|done| + 1]
  {
    SortedKeysFirst(rest, step);
    assert done + SortedKeys(rest) == (done + [step]) + SortedKeys(rest - {step});
  }

  /** The builtin `sorted(keys)` that both step loops call, computed by
      taking the least remaining key until none is left. */
  method SortedSteps(keys: set<int>) returns (order: seq<int>)
    ensures order == SortedKeys(keys)
  {
    order := [];
    var rest := keys;
    while rest != {}
      invariant order + SortedKeys(rest) == SortedKeys(keys)
      decreases |rest|
    {
      MinimumExists(rest);
      var m :| m in rest && IsMin(rest, m);
      AdvanceSorted(order, rest, m, SortedKeys(keys));
      order := order + [m];
      rest := rest - {m};
    }
    assert order == order + SortedKeys(rest);
  }
}
