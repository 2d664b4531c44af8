/**
 * The scoring categories and their evaluators. The Java catalogue holds one
 * closure per label; here a category is a value of `Category` and `Score`
 * dispatches on it. Each evaluator computes its score the way the stream
 * pipeline does, and its contract says what that score is in terms of the
 * multiset of dice, independently of how it is computed.
 */
module Categories {
  import opened Rolls

  datatype Category =
    | SpecificValue(value: int)  // "1".."6": the dice showing one value
    | NKind(kind: nat)           // "2K", "3K", "4K": a value shown by exactly `kind` dice
    | TwoPairs                   // "2P"
    | SmallStraight              // "SS"
    | LargeStraight              // "LS"
    | FullHouse                  // "FH": exactly two distinct values
    | Yahtzee                    // "Y": a single distinct value
    | Chance                     // "C"

  /** Exactly `k` dice of the roll show `v`. */
  predicate OfKind(roll: seq<int>, v: int, k: nat) {
    v in roll && multiset(roll)[v] == k
  }

  /** `v` is the largest value shown by exactly `k` dice. */
  ghost predicate HighestOfKind(roll: seq<int>, v: int, k: nat) {
    OfKind(roll, v, k) && forall w :: OfKind(roll, w, k) ==> w <= v
  }

  /** The roll shows exactly two distinct values (the full-house rule). */
  ghost predicate TwoValued(roll: seq<int>) {
    exists a, b :: a != b && a in roll && b in roll && forall x :: x in roll ==> x == a || x == b
  }

  /** The roll shows exactly one distinct value (the Yahtzee rule). */
  ghost predicate AllSame(roll: seq<int>) {
    exists a :: a in roll && forall x :: x in roll ==> x == a
  }

  // ---------------------------------------------------------------------
  // Histogram entries with a given count
  // ---------------------------------------------------------------------

  /** The keys among `keys` whose count in `m` is exactly `k`, in order. */
  function WithCount(m: map<int, nat>, keys: seq<int>, k: nat): (r: seq<int>)
    requires forall x :: x in keys ==> x in m
    ensures forall x :: x in r <==> x in keys && m[x] == k
    ensures NoDup(keys) ==> NoDup(r)
    ensures k * |r| <= Tally(m, keys)
  {
    if keys == [] then []
    else
      var k0 := keys[..|keys| - 1];
      var last := keys[|keys| - 1];
      assert keys == k0 + [last];
      var r0 := WithCount(m, k0, k);
      if m[last] == k then
        assert k * (|r0| + 1) == k * |r0| + k;
        assert NoDup(keys) ==> last !in k0;
        r0 + [last]
      else
        r0
  }

  /**
   * The values of the roll's histogram whose count is exactly `k`. The
   * histogram's iteration order is taken to be the order in which the
   * values first appear; no score below depends on it for five dice.
   */
  function EntriesOfKind(roll: seq<int>, k: nat): (r: seq<int>)
    ensures forall v :: v in r <==> OfKind(roll, v, k)
    ensures NoDup(r)
    ensures k * |r| <= |roll|
  {
    HistogramTotal(roll);
    WithCount(Occurrences(roll), Distinct(roll), k)
  }

  /** The largest of a non-empty sequence of values. */
  function MaxOf(s: seq<int>): (r: int)
    requires s != []
    ensures r in s && forall x :: x in s ==> x <= r
  {
    if |s| == 1 then s[0]
    else
      var m := MaxOf(s[..|s| - 1]);
      var last := s[|s| - 1];
      assert s == s[..|s| - 1] + [last];
      if last > m then last else m
  }

  /** Every value of `xs`, checked in turn, is shown by the roll. */
  function ContainsAll(roll: seq<int>, xs: seq<int>): (b: bool)
    ensures b <==> forall x :: x in xs ==> x in roll
  {
    if xs == [] then true
    else
      assert forall x :: x in xs <==> x == xs[0] || x in xs[1..];
      xs[0] in roll && ContainsAll(roll, xs[1..])
  }

  // ---------------------------------------------------------------------
  // The evaluators
  // ---------------------------------------------------------------------

  /** "1".."6": the dice showing `value`, added up. */
  function ScoreSpecificValue(roll: seq<int>, value: int): (r: int)
    ensures r == value * multiset(roll)[value]
  {
    SumOfCopies(multiset(roll)[value], value);
    Sum(Only(roll, value))
  }

  /** "2K", "3K", "4K": `kind` times the largest value shown by exactly `kind` dice, else 0. */
  function ScoreNKind(roll: seq<int>, kind: nat): (r: int)
    ensures (forall v :: !OfKind(roll, v, kind)) ==> r == 0
    ensures (exists v :: OfKind(roll, v, kind)) ==>
              exists v :: HighestOfKind(roll, v, kind) && r == kind * v
  {
    var matching := EntriesOfKind(roll, kind);
    if matching == [] then 0
    else
      var v := MaxOf(matching);
      assert HighestOfKind(roll, v, kind);
      v * kind
  }

  /** "2P": twice the sum of two values each shown by exactly two dice, else 0. */
  function ScoreTwoPairs(roll: seq<int>): (r: int)
    ensures (forall p, q :: OfKind(roll, p, 2) && OfKind(roll, q, 2) ==> p == q) ==> r == 0
    ensures (exists p, q :: p != q && OfKind(roll, p, 2) && OfKind(roll, q, 2)) ==>
              exists p, q :: p != q && OfKind(roll, p, 2) && OfKind(roll, q, 2) && r == 2 * p + 2 * q
    ensures r == 0 || exists p, q :: p != q && OfKind(roll, p, 2) && OfKind(roll, q, 2) && r == 2 * p + 2 * q
  {
    // Every entry that reaches the sort by count has count 2, so the two
    // entries kept are the first two in the histogram's order. Five dice
    // never hold more than two such entries, so no order matters there.
    var all := EntriesOfKind(roll, 2);
    var pairs := if |all| <= 2 then all else all[..2];
    PairEntries(roll);
    if |pairs| != 2 then 0
    else
      assert pairs[0] == all[0] && pairs[1] == all[1];
      2 * pairs[0] + 2 * pairs[1]
  }

  /**
   * Fewer than two histogram entries of count 2 means no two distinct
   * exact pairs; otherwise the first two entries are two distinct ones.
   */
  lemma {:induction false} PairEntries(roll: seq<int>)
    ensures var all := EntriesOfKind(roll, 2);
      (|all| < 2 ==> forall p, q :: OfKind(roll, p, 2) && OfKind(roll, q, 2) ==> p == q) &&
      (|all| >= 2 ==> all[0] != all[1] && OfKind(roll, all[0], 2) && OfKind(roll, all[1], 2))
  {
    var all := EntriesOfKind(roll, 2);
    if |all| < 2 {
      forall p, q | OfKind(roll, p, 2) && OfKind(roll, q, 2) ensures p == q {
        assert p in all && q in all;
        var i :| 0 <= i < |all| && all[i] == p;
        var j :| 0 <= j < |all| && all[j] == q;
        assert i == 0 == j;
      }
    } else {
      assert all[0] in all && all[1] in all;
    }
  }

  /** "SS": 15 when 1, 2, 3, 4 and 5 all appear, else 0. */
  function ScoreSmallStraight(roll: seq<int>): (r: int)
    ensures r == if forall v :: 1 <= v <= 5 ==> v in roll then 15 else 0
  {
    if ContainsAll(roll, [1, 2, 3, 4, 5]) then 15 else 0
  }

  /** "LS": 20 when 2, 3, 4, 5 and 6 all appear, else 0. */
  function ScoreLargeStraight(roll: seq<int>): (r: int)
    ensures r == if forall v :: 2 <= v <= 6 ==> v in roll then 20 else 0
  {
    if ContainsAll(roll, [2, 3, 4, 5, 6]) then 20 else 0
  }

  /** "FH": the sum of the dice when the histogram has exactly two keys, else 0. */
  function ScoreFullHouse(roll: seq<int>): (r: int)
    ensures r == if TwoValued(roll) then Sum(roll) else 0
  {
    var occurrences := Occurrences(roll);
    assert |occurrences| == |occurrences.Keys|;
    DistinctCount(roll);
    TwoValuedIff(roll);
    if |occurrences| != 2 then 0 else Sum(roll)
  }

  /** "Y": the sum of the dice when exactly one distinct value appears, else 0. */
  function ScoreYahtzee(roll: seq<int>): (r: int)
    ensures r == if AllSame(roll) then Sum(roll) else 0
  {
    AllSameIff(roll);
    if |Distinct(roll)| != 1 then 0 else Sum(roll)
  }

  /** "C": the sum of the dice; five dice in 1..6 score 5..30. */
  function ScoreChance(roll: seq<int>): (r: int)
    ensures r == Sum(roll)
    ensures ValidRoll(roll) ==> 5 <= r <= 30
  {
    if ValidRoll(roll) then SumBounds(roll, 1, 6); Sum(roll) else Sum(roll)
  }

  /**
   * The evaluator a category stands for, applied to a roll. Each category
   * reaches the rule its label names.
   */
  function Score(c: Category, roll: seq<int>): (r: int)
    ensures c.SpecificValue? ==> r == c.value * multiset(roll)[c.value]
    ensures c.NKind? && (forall v :: !OfKind(roll, v, c.kind)) ==> r == 0
    ensures c.NKind? && (exists v :: OfKind(roll, v, c.kind)) ==>
              exists v :: HighestOfKind(roll, v, c.kind) && r == c.kind * v
    ensures c.TwoPairs? ==>
              r == 0 || exists p, q :: p != q && OfKind(roll, p, 2) && OfKind(roll, q, 2) && r == 2 * p + 2 * q
    ensures c.TwoPairs? && (exists p, q :: p != q && OfKind(roll, p, 2) && OfKind(roll, q, 2)) ==>
              exists p, q :: p != q && OfKind(roll, p, 2) && OfKind(roll, q, 2) && r == 2 * p + 2 * q
    ensures c.SmallStraight? ==> r == if forall v :: 1 <= v <= 5 ==> v in roll then 15 else 0
    ensures c.LargeStraight? ==> r == if forall v :: 2 <= v <= 6 ==> v in roll then 20 else 0
    ensures c.FullHouse? ==> r == if TwoValued(roll) then Sum(roll) else 0
    ensures c.Yahtzee? ==> r == if AllSame(roll) then Sum(roll) else 0
    ensures c.Chance? ==> r == Sum(roll)
  {
    match c
    case SpecificValue(value) => ScoreSpecificValue(roll, value)
    case NKind(kind) => ScoreNKind(roll, kind)
    case TwoPairs => ScoreTwoPairs(roll)
    case SmallStraight => ScoreSmallStraight(roll)
    case LargeStraight => ScoreLargeStraight(roll)
    case FullHouse => ScoreFullHouse(roll)
    case Yahtzee => ScoreYahtzee(roll)
    case Chance => ScoreChance(roll)
  }

  // ---------------------------------------------------------------------
  // Distinct-value counts
  // ---------------------------------------------------------------------

  lemma {:induction false} TwoValuedIff(roll: seq<int>)
    ensures TwoValued(roll) <==> |Distinct(roll)| == 2
  {
    if |Distinct(roll)| == 2 {
      TwoDistinctIsTwoValued(roll);
    }
    if TwoValued(roll) {
      TwoValuedHasTwoDistinct(roll);
    }
  }

  lemma {:induction false} TwoDistinctIsTwoValued(roll: seq<int>)
    requires |Distinct(roll)| == 2
    ensures TwoValued(roll)
  {
    var d := Distinct(roll);
    var a, b := d[0], d[1];
    assert a != b && a in roll && b in roll;
    forall x | x in roll ensures x == a || x == b {
      assert x in d;
    }
  }

  lemma {:induction false} TwoValuedHasTwoDistinct(roll: seq<int>)
    requires TwoValued(roll)
    ensures |Distinct(roll)| == 2
  {
    var d := Distinct(roll);
    var a, b :| a != b && a in roll && b in roll && forall x :: x in roll ==> x == a || x == b;
    assert Elems(d) == {a, b} by {
      forall x ensures x in Elems(d) <==> x == a || x == b {
        assert x in Elems(d) <==> x in roll;
      }
    }
    NoDupCard(d);
    assert |{a, b}| == 2;
  }

  lemma {:induction false} AllSameIff(roll: seq<int>)
    ensures AllSame(roll) <==> |Distinct(roll)| == 1
  {
    if |Distinct(roll)| == 1 {
      OneDistinctIsAllSame(roll);
    }
    if AllSame(roll) {
      AllSameHasOneDistinct(roll);
    }
  }

  lemma {:induction false} OneDistinctIsAllSame(roll: seq<int>)
    requires |Distinct(roll)| == 1
    ensures AllSame(roll)
  {
    var d := Distinct(roll);
    var a := d[0];
    assert a in roll;
    forall x | x in roll ensures x == a {
      assert x in d;
    }
  }

  lemma {:induction false} AllSameHasOneDistinct(roll: seq<int>)
    requires AllSame(roll)
    ensures |Distinct(roll)| == 1
  {
    var d := Distinct(roll);
    var a :| a in roll && forall x :: x in roll ==> x == a;
    assert Elems(d) == {a} by {
      forall x ensures x in Elems(d) <==> x == a {
        assert x in Elems(d) <==> x in roll;
      }
    }
    NoDupCard(d);
  }
}
