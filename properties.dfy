/**
 * What the catalogue promises about every evaluator on a roll of five
 * dice: two pairs are well defined, a straight is exactly a run of five,
 * every score lies in 0..30, and no score depends on the order of the dice.
 */
module ScoringProperties {
  import opened Rolls
  import opened Categories

  /**
   * Five dice hold at most two pairs, so sorting and keeping the first two
   * pairs selects every pair there is: the score is twice the sum of the
   * two pair values, whichever order the histogram lists them in.
   */
  lemma {:induction false} TwoPairsOfFiveDice(roll: seq<int>)
    requires |roll| <= 5
    ensures forall p, q :: p != q && OfKind(roll, p, 2) && OfKind(roll, q, 2) ==>
              ScoreTwoPairs(roll) == 2 * p + 2 * q
  {
    forall p, q | p != q && OfKind(roll, p, 2) && OfKind(roll, q, 2)
      ensures ScoreTwoPairs(roll) == 2 * p + 2 * q
    {
      TwoPairsSelected(roll, p, q);
    }
  }

  lemma {:induction false} TwoPairsSelected(roll: seq<int>, p: int, q: int)
    requires |roll| <= 5
    requires p != q && OfKind(roll, p, 2) && OfKind(roll, q, 2)
    ensures ScoreTwoPairs(roll) == 2 * p + 2 * q
  {
    var all := EntriesOfKind(roll, 2);
    assert p in all && q in all;
    BothOfTwo(all, p, q);
    assert ScoreTwoPairs(roll) == 2 * all[0] + 2 * all[1];
  }

  /** Two distinct members of a sequence of at most two are its two elements. */
  lemma {:induction false} BothOfTwo(s: seq<int>, p: int, q: int)
    requires |s| <= 2 && p in s && q in s && p != q
    ensures |s| == 2 && ((p == s[0] && q == s[1]) || (p == s[1] && q == s[0]))
  {
    var i :| 0 <= i < |s| && s[i] == p;
    var j :| 0 <= j < |s| && s[j] == q;
  }

  /**
   * Five dice showing five given consecutive values show each of them
   * exactly once: a straight is a run in some order.
   */
  lemma {:induction false} FiveDiceRun(roll: seq<int>, lo: int)
    requires |roll| == 5
    requires forall v :: lo <= v < lo + 5 ==> v in roll
    ensures multiset(roll) == multiset{lo, lo + 1, lo + 2, lo + 3, lo + 4}
  {
    var run := multiset{lo, lo + 1, lo + 2, lo + 3, lo + 4};
    var all := multiset(roll);
    assert lo in roll && lo + 1 in roll && lo + 2 in roll && lo + 3 in roll && lo + 4 in roll;
    assert run <= all;
    var extra := all - run;
    assert extra + run == all;
    assert |extra| == 0;
    assert extra == multiset{};
  }

  lemma {:induction false} SmallStraightIsRun(roll: seq<int>)
    requires ValidRoll(roll)
    ensures ScoreSmallStraight(roll) == 15 <==> multiset(roll) == multiset{1, 2, 3, 4, 5}
  {
    if ScoreSmallStraight(roll) == 15 {
      FiveDiceRun(roll, 1);
    }
    if multiset(roll) == multiset{1, 2, 3, 4, 5} {
      RunIsShown(roll, 1);
    }
  }

  lemma {:induction false} LargeStraightIsRun(roll: seq<int>)
    requires ValidRoll(roll)
    ensures ScoreLargeStraight(roll) == 20 <==> multiset(roll) == multiset{2, 3, 4, 5, 6}
  {
    if ScoreLargeStraight(roll) == 20 {
      FiveDiceRun(roll, 2);
    }
    if multiset(roll) == multiset{2, 3, 4, 5, 6} {
      RunIsShown(roll, 2);
    }
  }

  lemma {:induction false} RunIsShown(roll: seq<int>, lo: int)
    requires multiset(roll) == multiset{lo, lo + 1, lo + 2, lo + 3, lo + 4}
    ensures forall v :: lo <= v < lo + 5 ==> v in roll
  {
    forall v | lo <= v < lo + 5 ensures v in roll {
      assert v in multiset(roll);
    }
  }

  /** Every category scores a roll of five dice between 0 and 30. */
  lemma {:induction false} ScoreBounds(c: Category, roll: seq<int>)
    requires ValidRoll(roll)
    ensures 0 <= Score(c, roll) <= 30
  {
    match c
    case SpecificValue(value) => SpecificValueBounds(roll, value);
    case NKind(kind) => NKindBounds(roll, kind);
    case TwoPairs => TwoPairsBounds(roll);
    case SmallStraight =>
    case LargeStraight =>
    case FullHouse => SumBounds(roll, 1, 6);
    case Yahtzee => SumBounds(roll, 1, 6);
    case Chance => SumBounds(roll, 1, 6);
  }

  /** At most five dice show a value, and no die shows more than 6. */
  lemma {:induction false} CountBounds(roll: seq<int>, v: int)
    requires ValidRoll(roll)
    ensures multiset(roll)[v] <= 5
    ensures multiset(roll)[v] > 0 ==> 1 <= v <= 6
  {
    assert |Only(roll, v)| == multiset(roll)[v];
    if multiset(roll)[v] > 0 {
      assert v in roll;
    }
  }

  /** n dice showing v add up to at most 30. */
  lemma {:induction false} DieProduct(n: int, v: int)
    requires 0 <= n <= 5 && 1 <= v <= 6
    ensures 0 <= n * v <= 30
  {
  }

  lemma {:induction false} SpecificValueBounds(roll: seq<int>, value: int)
    requires ValidRoll(roll)
    ensures 0 <= ScoreSpecificValue(roll, value) <= 30
  {
    var n := multiset(roll)[value];
    CountBounds(roll, value);
    if n > 0 {
      DieProduct(n, value);
    }
  }

  lemma {:induction false} NKindBounds(roll: seq<int>, kind: nat)
    requires ValidRoll(roll)
    ensures 0 <= ScoreNKind(roll, kind) <= 30
  {
    if exists v :: OfKind(roll, v, kind) {
      var r := ScoreNKind(roll, kind);
      var v :| HighestOfKind(roll, v, kind) && r == kind * v;
      CountBounds(roll, v);
      DieProduct(kind, v);
    }
  }

  lemma {:induction false} TwoPairsBounds(roll: seq<int>)
    requires ValidRoll(roll)
    ensures 0 <= ScoreTwoPairs(roll) <= 30
  {
    var r := ScoreTwoPairs(roll);
    if r != 0 {
      var p, q :| p != q && OfKind(roll, p, 2) && OfKind(roll, q, 2) && r == 2 * p + 2 * q;
      CountBounds(roll, p);
      CountBounds(roll, q);
    }
  }

  /** Reordering the dice changes no score. */
  lemma {:induction false} ScorePermutationInvariant(c: Category, a: seq<int>, b: seq<int>)
    requires ValidRoll(a)
    requires multiset(a) == multiset(b)
    ensures Score(c, a) == Score(c, b)
  {
    SameValuesShown(a, b);
    match c
    case SpecificValue(value) =>
    case NKind(kind) => NKindPermutationInvariant(kind, a, b);
    case TwoPairs => TwoPairsPermutationInvariant(a, b);
    case SmallStraight =>
    case LargeStraight =>
    case FullHouse => FullHousePermutationInvariant(a, b);
    case Yahtzee => YahtzeePermutationInvariant(a, b);
    case Chance => SumPermutation(a, b);
  }

  /** Rolls with the same multiset of dice show the same values. */
  lemma {:induction false} SameValuesShown(a: seq<int>, b: seq<int>)
    requires multiset(a) == multiset(b)
    ensures forall x :: x in a <==> x in b
  {
    forall x ensures x in a <==> x in b {
      assert x in a <==> x in multiset(a);
      assert x in b <==> x in multiset(b);
    }
  }

  lemma {:induction false} NKindPermutationInvariant(kind: nat, a: seq<int>, b: seq<int>)
    requires multiset(a) == multiset(b)
    ensures ScoreNKind(a, kind) == ScoreNKind(b, kind)
  {
    SameValuesShown(a, b);
    assert forall v :: OfKind(a, v, kind) <==> OfKind(b, v, kind);
  }

  lemma {:induction false} TwoPairsPermutationInvariant(a: seq<int>, b: seq<int>)
    requires |a| <= 5 && multiset(a) == multiset(b)
    ensures ScoreTwoPairs(a) == ScoreTwoPairs(b)
  {
    SameValuesShown(a, b);
    assert |b| == |multiset(b)| == |a|;
    assert forall v :: OfKind(a, v, 2) <==> OfKind(b, v, 2);
    TwoPairsOfFiveDice(a);
    TwoPairsOfFiveDice(b);
  }

  lemma {:induction false} FullHousePermutationInvariant(a: seq<int>, b: seq<int>)
    requires multiset(a) == multiset(b)
    ensures ScoreFullHouse(a) == ScoreFullHouse(b)
  {
    SameValuesShown(a, b);
    SumPermutation(a, b);
    assert TwoValued(a) <==> TwoValued(b);
  }

  lemma {:induction false} YahtzeePermutationInvariant(a: seq<int>, b: seq<int>)
    requires multiset(a) == multiset(b)
    ensures ScoreYahtzee(a) == ScoreYahtzee(b)
  {
    SameValuesShown(a, b);
    SumPermutation(a, b);
    assert AllSame(a) <==> AllSame(b);
  }
}
