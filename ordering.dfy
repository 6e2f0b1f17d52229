/** `sorted(networks, key=lambda x: x['rssi'], reverse=True)`: a stable sort
    by signal level, strongest first. Python's `reverse=True` keeps networks
    of equal rssi in their original order. */
module Ordering {
  import opened Observation

  /** Signal levels never increase along `s`. */
  predicate Descending(s: seq<Network>) {
    forall i, j :: 0 <= i < j < |s| ==> s[i].rssi >= s[j].rssi
  }

  /** The networks of `s` whose rssi is `k`, in their order in `s`. */
  function WithRssi(s: seq<Network>, k: int): seq<Network> {
    if s == [] then []
    else if s[0].rssi == k then [s[0]] + WithRssi(s[1..], k)
    else WithRssi(s[1..], k)
  }

  /** `output` keeps the relative order of every group of equal-rssi
      networks of `input`: the definition of stability. */
  ghost predicate StableFor(input: seq<Network>, output: seq<Network>) {
    forall k :: WithRssi(output, k) == WithRssi(input, k)
  }

  /** `x` inserted into a descending `s` after every network at least as
      strong as it, so that it follows its equals. */
  function Insert(x: Network, s: seq<Network>): (r: seq<Network>)
    ensures |r| == |s| + 1
  {
    if s == [] then [x]
    else if s[0].rssi >= x.rssi then [s[0]] + Insert(x, s[1..])
    else [x] + s
  }

  /** Insertion sort from the front: the reference stable descending sort. */
  function StableSort(s: seq<Network>): (r: seq<Network>)
    ensures |r| == |s|
  {
    if s == [] then [] else Insert(s[|s| - 1], StableSort(s[..|s| - 1]))
  }

  lemma WithRssiCons(x: Network, s: seq<Network>, k: int)
    ensures WithRssi([x] + s, k) == if x.rssi == k then [x] + WithRssi(s, k) else WithRssi(s, k)
  {
    assert ([x] + s)[1..] == s;
  }

  lemma {:induction false} WithRssiAppend(a: seq<Network>, b: seq<Network>, k: int)
    ensures WithRssi(a + b, k) == WithRssi(a, k) + WithRssi(b, k)
  {
    if a != [] {
      assert a == [a[0]] + a[1..];
      assert a + b == [a[0]] + (a[1..] + b);
      WithRssiCons(a[0], a[1..] + b, k);
      WithRssiCons(a[0], a[1..], k);
      WithRssiAppend(a[1..], b, k);
      if a[0].rssi == k {
        assert [a[0]] + (WithRssi(a[1..], k) + WithRssi(b, k))
            == ([a[0]] + WithRssi(a[1..], k)) + WithRssi(b, k);
      }
    } else {
      assert a + b == b;
    }
  }

  /** Only the first network, or the weaker ones after it, can be equal to
      something found in a descending sequence. */
  lemma {:induction false} WithRssiBelowHead(s: seq<Network>, k: int)
    requires Descending(s) && WithRssi(s, k) != []
    ensures s != [] && k <= s[0].rssi
  {
    if s[0].rssi != k {
      WithRssiBelowHead(s[1..], k);
    }
  }

  lemma {:induction false} InsertDescending(x: Network, s: seq<Network>)
    requires Descending(s)
    ensures Descending(Insert(x, s))
  {
    if s != [] && s[0].rssi >= x.rssi {
      var t := Insert(x, s[1..]);
      InsertDescending(x, s[1..]);
      assert t[0] == x || t[0] == s[1];
      assert Descending([s[0]] + t);
    }
  }

  lemma {:induction false} InsertWithRssi(x: Network, s: seq<Network>, k: int)
    requires Descending(s)
    ensures WithRssi(Insert(x, s), k) == WithRssi(s, k) + (if x.rssi == k then [x] else [])
  {
    if s == [] {
      WithRssiCons(x, [], k);
    } else if s[0].rssi >= x.rssi {
      InsertWithRssi(x, s[1..], k);
      WithRssiCons(s[0], Insert(x, s[1..]), k);
    } else {
      WithRssiCons(x, s, k);
      if x.rssi == k && WithRssi(s, k) != [] {
        WithRssiBelowHead(s, k);
      }
    }
  }

  /** Inserting adds `x` and removes nothing. */
  lemma {:induction false} InsertPermutation(x: Network, s: seq<Network>)
    ensures multiset(Insert(x, s)) == multiset(s) + multiset{x}
  {
    if s != [] && s[0].rssi >= x.rssi {
      InsertPermutation(x, s[1..]);
      assert s == [s[0]] + s[1..];
    }
  }

  /** The reference sort is a permutation of its input. */
  lemma {:induction false} StableSortPermutation(s: seq<Network>)
    ensures multiset(StableSort(s)) == multiset(s)
  {
    if s != [] {
      var n := |s| - 1;
      StableSortPermutation(s[..n]);
      InsertPermutation(s[n], StableSort(s[..n]));
      assert s == s[..n] + [s[n]];
    }
  }

  /** The reference sort puts the strongest signals first. */
  lemma {:induction false} StableSortDescending(s: seq<Network>)
    ensures Descending(StableSort(s))
  {
    if s != [] {
      StableSortDescending(s[..|s| - 1]);
      InsertDescending(s[|s| - 1], StableSort(s[..|s| - 1]));
    }
  }

  /** The reference sort keeps equal-rssi networks in their input order. */
  lemma {:induction false} StableSortStable(s: seq<Network>, k: int)
    ensures WithRssi(StableSort(s), k) == WithRssi(s, k)
  {
    if s != [] {
      var n := |s| - 1;
      var init, last := s[..n], s[n];
      var x := if last.rssi == k then [last] else [];
      assert StableSort(s) == Insert(last, StableSort(init));
      StableSortDescending(init);
      InsertWithRssi(last, StableSort(init), k);
      StableSortStable(init, k);
      assert WithRssi(StableSort(s), k) == WithRssi(init, k) + x;
      WithRssiCons(last, [], k);
      WithRssiAppend(init, [last], k);
      assert s == init + [last];
    }
  }

  /** The networks after the head of `s`, grouped by rssi. */
  lemma WithRssiTail(s: seq<Network>, k: int)
    requires s != []
    ensures WithRssi(s[1..], k) == if s[0].rssi == k then WithRssi(s, k)[1..] else WithRssi(s, k)
  {
  }

  /** Order and stability together leave no freedom: two descending
      sequences with the same equal-rssi groups are the same sequence. */
  lemma {:induction false} DescendingStableUnique(a: seq<Network>, b: seq<Network>)
    requires Descending(a) && Descending(b)
    requires forall k :: WithRssi(a, k) == WithRssi(b, k)
    ensures a == b
    decreases |a|
  {
    if a != [] {
      var m := a[0].rssi;
      assert WithRssi(a, m) != [];
      WithRssiBelowHead(b, m);
      var n := b[0].rssi;
      assert WithRssi(b, n) != [];
      WithRssiBelowHead(a, n);
      assert a[0] == WithRssi(a, m)[0] == WithRssi(b, m)[0] == b[0];
      forall k ensures WithRssi(a[1..], k) == WithRssi(b[1..], k) {
        WithRssiTail(a, k);
        WithRssiTail(b, k);
      }
      DescendingStableUnique(a[1..], b[1..]);
      assert a == [a[0]] + a[1..];
      assert b == [b[0]] + b[1..];
    }
  }

  /** Any stable descending ordering of `s`, which is what Python's `sorted`
      with `reverse=True` returns, is the reference sort. */
  lemma SortedEqualsStableSort(s: seq<Network>, r: seq<Network>)
    requires Descending(r) && StableFor(s, r)
    ensures r == StableSort(s)
  {
    StableSortDescending(s);
    forall k ensures WithRssi(r, k) == WithRssi(StableSort(s), k) {
      StableSortStable(s, k);
    }
    DescendingStableUnique(r, StableSort(s));
  }

  /** Passing over a network at least as strong as `x`. */
  lemma InsertSkip(x: Network, s: seq<Network>, j: nat)
    requires j < |s| && s[j].rssi >= x.rssi
    ensures s[..j] + Insert(x, s[j..]) == s[..j + 1] + Insert(x, s[j + 1..])
  {
    assert s[j..][1..] == s[j + 1..];
    var t := Insert(x, s[j + 1..]);
    assert Insert(x, s[j..]) == [s[j]] + t;
    assert s[..j + 1] == s[..j] + [s[j]];
    assert s[..j] + ([s[j]] + t) == (s[..j] + [s[j]]) + t;
  }

  /** Reaching the end, or a network strictly weaker than `x`. */
  lemma InsertHere(x: Network, s: seq<Network>, j: nat)
    requires j <= |s| && (j == |s| || s[j].rssi < x.rssi)
    ensures Insert(x, s[j..]) == [x] + s[j..]
  {
  }

  /** One insertion step: `x` goes before the first network of `sorted`
      that is strictly weaker. */
  method InsertByRssi(x: Network, sorted: seq<Network>) returns (r: seq<Network>)
    ensures r == Insert(x, sorted)
  {
    var j := 0;
    while j < |sorted| && sorted[j].rssi >= x.rssi
      invariant 0 <= j <= |sorted|
      invariant Insert(x, sorted) == sorted[..j] + Insert(x, sorted[j..])
    {
      InsertSkip(x, sorted, j);
      j := j + 1;
    }
    InsertHere(x, sorted, j);
    r := sorted[..j] + ([x] + sorted[j..]);
  }

  /** The sort the program runs: each network in turn is inserted into the
      sorted prefix after every network at least as strong. */
  method SortByRssi(networks: seq<Network>) returns (sorted: seq<Network>)
    ensures sorted == StableSort(networks)
    ensures Descending(sorted)
    ensures multiset(sorted) == multiset(networks)
    ensures StableFor(networks, sorted)
  {
    sorted := [];
    var i := 0;
    while i < |networks|
      invariant 0 <= i <= |networks|
      invariant sorted == StableSort(networks[..i])
    {
      assert networks[..i + 1][..i] == networks[..i];
      sorted := InsertByRssi(networks[i], sorted);
      i := i + 1;
    }
    assert networks[..i] == networks;
    StableSortDescending(networks);
    StableSortPermutation(networks);
    forall k ensures WithRssi(sorted, k) == WithRssi(networks, k) {
      StableSortStable(networks, k);
    }
  }
}
