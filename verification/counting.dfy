/**
 * The counting dictionaries of the SIEM queries. A `dict[str, int]` is the
 * sequence of its items in insertion order; `counts[key] =
 * counts.get(key, 0) + 1` keeps a key where it first appeared and appends a
 * new key at the end. `sorted(items, key=count, reverse=True)` is a stable
 * sort on the counts.
 */
module Counting {
  type Counts = seq<(string, nat)>

  /** How often `k` occurs in `keys`. */
  function Occurrences(keys: seq<string>, k: string): nat {
    if |keys| == 0 then 0
    else Occurrences(keys[..|keys| - 1], k) + (if keys[|keys| - 1] == k then 1 else 0)
  }

  /** The keys of a counting dictionary, in order. */
  function Names(c: Counts): (r: seq<string>)
    ensures |r| == |c| && forall i :: 0 <= i < |c| ==> r[i] == c[i].0
  {
    if |c| == 0 then [] else [c[0].0] + Names(c[1..])
  }

  /** `counts.get(k, 0)` */
  function Lookup(c: Counts, k: string): nat {
    if |c| == 0 then 0 else if c[0].0 == k then c[0].1 else Lookup(c[1..], k)
  }

  /** The sum of the counts. */
  function Total(c: Counts): nat {
    if |c| == 0 then 0 else c[0].1 + Total(c[1..])
  }

  predicate Distinct(s: seq<string>) {
    forall i, j :: 0 <= i < j < |s| ==> s[i] != s[j]
  }

  /** The distinct elements of `keys` in the order of their first
      appearance. */
  function Dedup(keys: seq<string>): (r: seq<string>)
    ensures Distinct(r)
    ensures forall k :: k in r <==> k in keys
  {
    if |keys| == 0 then []
    else
      var prefix := Dedup(keys[..|keys| - 1]);
      var last := keys[|keys| - 1];
      assert forall k :: k in keys <==> k in keys[..|keys| - 1] || k == last by {
        assert keys == keys[..|keys| - 1] + [last];
      }
      if last in prefix then prefix else prefix + [last]
  }

  /** `counts[key] = counts.get(key, 0) + 1` */
  function Bump(c: Counts, key: string): Counts {
    if |c| == 0 then [(key, 1)]
    else if c[0].0 == key then [(key, c[0].1 + 1)] + c[1..]
    else [c[0]] + Bump(c[1..], key)
  }

  /** Bumping adds one to the key's count and nothing to any other, keeps
      the keys where they were and appends a new key. */
  lemma {:induction false} BumpSpec(c: Counts, key: string)
    ensures forall k :: Lookup(Bump(c, key), k) == Lookup(c, k) + (if k == key then 1 else 0)
    ensures Names(Bump(c, key)) == if key in Names(c) then Names(c) else Names(c) + [key]
    ensures Total(Bump(c, key)) == Total(c) + 1
    decreases |c|
  {
    if |c| > 0 && c[0].0 != key {
      BumpSpec(c[1..], key);
      var r := Bump(c, key);
      assert r[1..] == Bump(c[1..], key);
      assert key in Names(c) <==> key in Names(c[1..]) by {
        assert Names(c) == [c[0].0] + Names(c[1..]);
      }
    } else if |c| > 0 {
      var r := Bump(c, key);
      assert r[1..] == c[1..];
    }
  }

  /** The counting loop over `keys`. */
  function Tally(keys: seq<string>): Counts {
    if |keys| == 0 then [] else Bump(Tally(keys[..|keys| - 1]), keys[|keys| - 1])
  }

  /** The tally counts every key exactly, lists each key once in the order
      of first appearance, and its counts add up to the number of keys. */
  lemma {:induction false} TallySpec(keys: seq<string>)
    ensures forall k :: Lookup(Tally(keys), k) == Occurrences(keys, k)
    ensures Names(Tally(keys)) == Dedup(keys)
    ensures Total(Tally(keys)) == |keys|
    decreases |keys|
  {
    if |keys| > 0 {
      TallySpec(keys[..|keys| - 1]);
      BumpSpec(Tally(keys[..|keys| - 1]), keys[|keys| - 1]);
    }
  }

  lemma TallyAppend(keys: seq<string>, k: string)
    ensures Tally(keys + [k]) == Bump(Tally(keys), k)
  {
    assert (keys + [k])[..|keys|] == keys;
  }

  /** In a dictionary with distinct keys each item holds the count of its
      key. */
  lemma {:induction false} LookupItem(c: Counts, i: nat)
    requires Distinct(Names(c)) && i < |c|
    ensures Lookup(c, c[i].0) == c[i].1
    decreases |c|
  {
    if i > 0 {
      assert Names(c[1..]) == Names(c)[1..];
      assert c[0].0 != c[i].0 by {
        assert Names(c)[0] != Names(c)[i];
      }
      LookupItem(c[1..], i - 1);
    }
  }

  /** Every item of a tally holds a key that occurs, with its number of
      occurrences. */
  lemma TallyItems(keys: seq<string>)
    ensures forall x :: x in Tally(keys) ==> x.0 in keys && x.1 == Occurrences(keys, x.0)
  {
    TallySpec(keys);
    var c := Tally(keys);
    forall x | x in c ensures x.0 in keys && x.1 == Occurrences(keys, x.0) {
      var i :| 0 <= i < |c| && c[i] == x;
      LookupItem(c, i);
      assert Names(c)[i] == x.0;
    }
  }

  // ---------------------------------------------------------------------------
  // `sorted(counts.items(), key=lambda x: x[1], reverse=True)`

  predicate NonIncreasing(c: Counts) {
    forall i, j :: 0 <= i < j < |c| ==> c[i].1 >= c[j].1
  }

  /** The items with count `n`, in order. */
  function WithCount(c: Counts, n: nat): (r: Counts)
    ensures forall x :: x in r <==> x in c && x.1 == n
  {
    if |c| == 0 then []
    else
      assert c == [c[0]] + c[1..];
      (if c[0].1 == n then [c[0]] else []) + WithCount(c[1..], n)
  }

  lemma {:induction false} WithCountAppend(a: Counts, b: Counts, n: nat)
    ensures WithCount(a + b, n) == WithCount(a, n) + WithCount(b, n)
    decreases |a|
  {
    if |a| == 0 {
      assert a + b == b;
    } else {
      assert (a + b)[1..] == a[1..] + b;
      WithCountAppend(a[1..], b, n);
    }
  }

  /** Place `x` after every item whose count is at least its own. */
  function Insert(t: Counts, x: (string, nat)): (r: Counts)
    ensures |r| == |t| + 1
    ensures r[0] == x || (|t| > 0 && r[0] == t[0])
  {
    if |t| == 0 || t[0].1 < x.1 then [x] + t else [t[0]] + Insert(t[1..], x)
  }

  /** The stable sort, by counts descending. */
  function SortDescending(c: Counts): Counts {
    if |c| == 0 then [] else Insert(SortDescending(c[..|c| - 1]), c[|c| - 1])
  }

  lemma {:induction false} InsertOrdered(t: Counts, x: (string, nat))
    requires NonIncreasing(t)
    ensures NonIncreasing(Insert(t, x))
    decreases |t|
  {
    if |t| > 0 && t[0].1 >= x.1 {
      var r := Insert(t, x);
      var rest := Insert(t[1..], x);
      InsertOrdered(t[1..], x);
      assert r == [t[0]] + rest;
      forall i, j | 0 <= i < j < |r| ensures r[i].1 >= r[j].1 {
        if i == 0 {
          assert r[j] == rest[j - 1];
          assert rest[0] == x || rest[0] == t[1];
          assert rest[0].1 >= rest[j - 1].1 || j == 1;
        }
      }
    }
  }

  lemma {:induction false} InsertPermutes(t: Counts, x: (string, nat))
    ensures multiset(Insert(t, x)) == multiset(t) + multiset{x}
    decreases |t|
  {
    if |t| > 0 && t[0].1 >= x.1 {
      InsertPermutes(t[1..], x);
      assert t == [t[0]] + t[1..];
    }
  }

  lemma {:induction false} InsertStable(t: Counts, x: (string, nat), n: nat)
    requires NonIncreasing(t)
    ensures WithCount(Insert(t, x), n) == WithCount(t, n) + (if x.1 == n then [x] else [])
    decreases |t|
  {
    if |t| == 0 || t[0].1 < x.1 {
      WithCountAppend([x], t, n);
      if x.1 == n {
        NoneWithCount(t, n);
      }
    } else {
      InsertStable(t[1..], x, n);
      assert t == [t[0]] + t[1..];
      WithCountAppend([t[0]], Insert(t[1..], x), n);
      WithCountAppend([t[0]], t[1..], n);
    }
  }

  /** No item of a non-increasing sequence whose first count is below `n`
      has count `n`. */
  lemma NoneWithCount(t: Counts, n: nat)
    requires NonIncreasing(t)
    requires |t| == 0 || t[0].1 < n
    ensures WithCount(t, n) == []
  {
    var w := WithCount(t, n);
    if |w| > 0 {
      assert w[0] in t;
    }
  }

  /** The sort orders by count descending, is a permutation, and keeps the
      items of equal count in their original order. */
  lemma SortDescendingSpec(c: Counts)
    ensures NonIncreasing(SortDescending(c))
    ensures multiset(SortDescending(c)) == multiset(c)
    ensures forall n :: WithCount(SortDescending(c), n) == WithCount(c, n)
  {
    SortOrdered(c);
    SortPermutes(c);
    forall n ensures WithCount(SortDescending(c), n) == WithCount(c, n) {
      SortStable(c, n);
    }
  }

  lemma {:induction false} SortOrdered(c: Counts)
    ensures NonIncreasing(SortDescending(c))
    decreases |c|
  {
    if |c| > 0 {
      SortOrdered(c[..|c| - 1]);
      InsertOrdered(SortDescending(c[..|c| - 1]), c[|c| - 1]);
    }
  }

  lemma {:induction false} SortPermutes(c: Counts)
    ensures multiset(SortDescending(c)) == multiset(c)
    decreases |c|
  {
    if |c| > 0 {
      var prefix := c[..|c| - 1];
      var last := c[|c| - 1];
      var sorted := SortDescending(prefix);
      calc {
        multiset(SortDescending(c));
        multiset(Insert(sorted, last));
        { InsertPermutes(sorted, last); }
        multiset(sorted) + multiset{last};
        { SortPermutes(prefix); }
        multiset(prefix) + multiset{last};
        multiset(prefix + [last]);
        { assert c == prefix + [last]; }
        multiset(c);
      }
    }
  }

  lemma {:induction false} SortStable(c: Counts, n: nat)
    ensures WithCount(SortDescending(c), n) == WithCount(c, n)
    decreases |c|
  {
    if |c| > 0 {
      var prefix := c[..|c| - 1];
      var last := c[|c| - 1];
      var sorted := SortDescending(prefix);
      var tail := if last.1 == n then [last] else [];
      SortOrdered(prefix);
      assert [last][1..] == [];
      calc {
        WithCount(SortDescending(c), n);
        WithCount(Insert(sorted, last), n);
        { InsertStable(sorted, last, n); }
        WithCount(sorted, n) + tail;
        { SortStable(prefix, n); }
        WithCount(prefix, n) + WithCount([last], n);
        { WithCountAppend(prefix, [last], n); }
        WithCount(prefix + [last], n);
        { assert c == prefix + [last]; }
        WithCount(c, n);
      }
    }
  }
}
