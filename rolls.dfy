/**
 * Rolls and the helpers every scoring rule shares: the sum of a roll, the
 * dice showing one value, the distinct values in the order the dice show
 * them, and the value-occurrence histogram.
 *
 * Every function here is total over any sequence of integers, as the
 * stream pipelines they model are over any list; the five-dice, 1..6
 * shape of a roll is the caller's contract, stated by `ValidRoll`.
 */
module Rolls {

  /** The caller's contract on a roll: five dice, each showing 1..6. */
  predicate ValidRoll(roll: seq<int>) {
    |roll| == 5 && forall i :: 0 <= i < |roll| ==> 1 <= roll[i] <= 6
  }

  /** No value appears twice. */
  predicate NoDup(s: seq<int>) {
    forall i, j :: 0 <= i < j < |s| ==> s[i] != s[j]
  }

  /** The set of values shown by a roll. */
  function Elems(s: seq<int>): set<int> {
    set x | x in s
  }

  // ---------------------------------------------------------------------
  // The sum of the dice
  // ---------------------------------------------------------------------

  /** Left fold of addition; the empty roll sums to 0. */
  function Sum(s: seq<int>): int {
    if s == [] then 0 else Sum(s[..|s| - 1]) + s[|s| - 1]
  }

  lemma {:induction false} SumAppend(a: seq<int>, b: seq<int>)
    ensures Sum(a + b) == Sum(a) + Sum(b)
  {
    if b != [] {
      var b0 := b[..|b| - 1];
      assert (a + b)[..|a + b| - 1] == a + b0;
      SumAppend(a, b0);
    } else {
      assert a + b == a;
    }
  }

  /** The sum depends only on the multiset of values, not on their order. */
  lemma {:induction false} SumPermutation(a: seq<int>, b: seq<int>)
    requires multiset(a) == multiset(b)
    ensures Sum(a) == Sum(b)
  {
    if a != [] {
      var n := |a| - 1;
      var x := a[n];
      assert a == a[..n] + [x];
      assert x in multiset(b);
      var i :| 0 <= i < |b| && b[i] == x;
      var rest := b[..i] + b[i + 1..];
      assert b == b[..i] + [x] + b[i + 1..];
      assert multiset(b) == multiset(b[..i]) + multiset{x} + multiset(b[i + 1..]);
      assert multiset(a) == multiset(a[..n]) + multiset{x};
      assert multiset(rest) == multiset(b[..i]) + multiset(b[i + 1..]);
      assert multiset(rest) == multiset(b) - multiset{x};
      assert multiset(a[..n]) == multiset(a) - multiset{x};
      SumPermutation(a[..n], rest);
      SumAppend(b[..i] + [x], b[i + 1..]);
      SumAppend(b[..i], [x]);
      SumAppend(b[..i], b[i + 1..]);
    }
  }

  /** Dice in lo..hi sum to between |s| * lo and |s| * hi. */
  lemma {:induction false} SumBounds(s: seq<int>, lo: int, hi: int)
    requires forall i :: 0 <= i < |s| ==> lo <= s[i] <= hi
    ensures |s| * lo <= Sum(s) <= |s| * hi
  {
    if s != [] {
      var n := |s| - 1;
      SumBounds(s[..n], lo, hi);
      assert |s| * lo == n * lo + lo && |s| * hi == n * hi + hi;
    }
  }

  /** `n` dice showing `v` sum to `n * v`. */
  lemma {:induction false} SumOfCopies(n: nat, v: int)
    ensures Sum(seq(n, _ => v)) == n * v
  {
    if n > 0 {
      assert seq(n, _ => v)[..n - 1] == seq(n - 1, _ => v);
      SumOfCopies(n - 1, v);
    }
  }

  // ---------------------------------------------------------------------
  // The dice showing one value
  // ---------------------------------------------------------------------

  /** The dice of `s` that show `v`: as many copies of `v` as `s` holds. */
  function Only(s: seq<int>, v: int): (r: seq<int>)
    ensures r == seq(multiset(s)[v], _ => v)
    ensures |r| <= |s|
  {
    if s == [] then []
    else
      var s0 := s[..|s| - 1];
      var x := s[|s| - 1];
      assert s == s0 + [x];
      var n := multiset(s)[v];
      if x == v then
        assert n == multiset(s0)[v] + 1;
        assert seq(n, _ => v) == seq(n - 1, _ => v) + [v];
        Only(s0, v) + [x]
      else
        assert n == multiset(s0)[v];
        Only(s0, v)
  }

  // ---------------------------------------------------------------------
  // The distinct values of a roll
  // ---------------------------------------------------------------------

  /** The values of `s`, each once, in the order they first appear. */
  function Distinct(s: seq<int>): (d: seq<int>)
    ensures forall x :: x in d <==> x in s
    ensures NoDup(d)
    ensures |d| <= |s|
  {
    if s == [] then []
    else
      var d0 := Distinct(s[..|s| - 1]);
      var x := s[|s| - 1];
      assert s == s[..|s| - 1] + [x];
      if x in d0 then d0 else d0 + [x]
  }

  /** A duplicate-free sequence has as many elements as its set. */
  lemma {:induction false} NoDupCard(d: seq<int>)
    requires NoDup(d)
    ensures |Elems(d)| == |d|
  {
    if d != [] {
      var d0 := d[..|d| - 1];
      var x := d[|d| - 1];
      assert d == d0 + [x];
      assert Elems(d) == Elems(d0) + {x};
      assert x !in Elems(d0);
      NoDupCard(d0);
    }
  }

  /** The number of distinct values is the size of the roll's value set. */
  lemma {:induction false} DistinctCount(s: seq<int>)
    ensures |Distinct(s)| == |Elems(s)|
  {
    var d := Distinct(s);
    assert Elems(d) == Elems(s);
    NoDupCard(d);
  }

  // ---------------------------------------------------------------------
  // The value-occurrence histogram
  // ---------------------------------------------------------------------

  /** Each value shown by `s`, mapped to the number of dice showing it. */
  function Occurrences(s: seq<int>): (m: map<int, nat>)
    ensures m.Keys == Elems(s)
    ensures forall x :: x in m ==> m[x] == multiset(s)[x] && m[x] >= 1
  {
    if s == [] then map[]
    else
      var m0 := Occurrences(s[..|s| - 1]);
      var x := s[|s| - 1];
      assert s == s[..|s| - 1] + [x];
      m0[x := if x in m0 then m0[x] + 1 else 1]
  }

  /** The counts of `m` over `keys`, added up. */
  function Tally(m: map<int, nat>, keys: seq<int>): nat
    requires forall k :: k in keys ==> k in m
  {
    if keys == [] then 0
    else
      var last := keys[|keys| - 1];
      assert last in keys;
      Tally(m, keys[..|keys| - 1]) + m[last]
  }

  /** Changing the count of a value that is not among `keys` leaves the tally alone. */
  lemma {:induction false} TallyFrame(m: map<int, nat>, keys: seq<int>, x: int, c: nat)
    requires forall k :: k in keys ==> k in m
    requires x !in keys
    ensures Tally(m[x := c], keys) == Tally(m, keys)
  {
    if keys != [] {
      TallyFrame(m, keys[..|keys| - 1], x, c);
    }
  }

  /** One more die on a value that appears once among `keys` adds one to the tally. */
  lemma {:induction false} TallyBump(m: map<int, nat>, keys: seq<int>, x: int)
    requires forall k :: k in keys ==> k in m
    requires NoDup(keys) && x in keys
    ensures Tally(m[x := m[x] + 1], keys) == Tally(m, keys) + 1
  {
    var k0 := keys[..|keys| - 1];
    var last := keys[|keys| - 1];
    assert forall k :: k in k0 ==> k in keys;
    if last == x {
      assert x !in k0 by {
        forall i | 0 <= i < |k0| ensures k0[i] != x {
          assert k0[i] == keys[i];
        }
      }
      TallyFrame(m, k0, x, m[x] + 1);
    } else {
      assert x in k0;
      assert NoDup(k0) by {
        forall i, j | 0 <= i < j < |k0| ensures k0[i] != k0[j] {
          assert k0[i] == keys[i] && k0[j] == keys[j];
        }
      }
      TallyBump(m, k0, x);
    }
  }

  /** The histogram's counts add up to the number of dice. */
  lemma {:induction false} HistogramTotal(s: seq<int>)
    ensures Tally(Occurrences(s), Distinct(s)) == |s|
  {
    if s != [] {
      var s0 := s[..|s| - 1];
      HistogramTotal(s0);
      HistogramStep(s);
    }
  }

  /** One more die adds one to the histogram's total. */
  lemma {:induction false} HistogramStep(s: seq<int>)
    requires s != []
    ensures Tally(Occurrences(s), Distinct(s)) == Tally(Occurrences(s[..|s| - 1]), Distinct(s[..|s| - 1])) + 1
  {
    var s0 := s[..|s| - 1];
    var x := s[|s| - 1];
    var m0, d0 := Occurrences(s0), Distinct(s0);
    assert forall k :: k in d0 ==> k in m0;
    if x in d0 {
      assert Occurrences(s) == m0[x := m0[x] + 1];
      assert Distinct(s) == d0;
      TallyBump(m0, d0, x);
    } else {
      assert x !in m0;
      assert Occurrences(s) == m0[x := 1];
      assert Distinct(s) == d0 + [x];
      TallyAppend(m0[x := 1], d0, x);
      TallyFrame(m0, d0, x, 1);
    }
  }

  lemma {:induction false} TallyAppend(m: map<int, nat>, keys: seq<int>, x: int)
    requires forall k :: k in keys ==> k in m
    requires x in m
    ensures Tally(m, keys + [x]) == Tally(m, keys) + m[x]
  {
    assert (keys + [x])[..|keys|] == keys;
  }
}
