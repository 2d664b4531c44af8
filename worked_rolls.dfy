/**
 * Worked rolls for the rules that differ from the classic game: the
 * N-of-a-kind counts must match exactly, and a full house is any roll of
 * exactly two distinct values.
 */
module ScoringExamples {
  import opened Wrappers
  import opened Rolls
  import opened Categories
  import opened Catalog

  /** Membership in a roll of five dice, spelled out. */
  lemma Shown(roll: seq<int>, x: int)
    requires |roll| == 5
    ensures x in roll <==> x == roll[0] || x == roll[1] || x == roll[2] || x == roll[3] || x == roll[4]
  {
    assert roll == [roll[0], roll[1], roll[2], roll[3], roll[4]];
  }

  /** The sum of five dice, spelled out. */
  lemma SumOfFive(roll: seq<int>)
    requires |roll| == 5
    ensures Sum(roll) == roll[0] + roll[1] + roll[2] + roll[3] + roll[4]
  {
    assert roll[..1][..0] == [];
    assert Sum(roll[..1]) == roll[0];
    assert roll[..2][..1] == roll[..1];
    assert Sum(roll[..2]) == roll[0] + roll[1];
    assert roll[..3][..2] == roll[..2];
    assert Sum(roll[..3]) == roll[0] + roll[1] + roll[2];
    assert roll[..4][..3] == roll[..3];
    assert Sum(roll[..4]) == roll[0] + roll[1] + roll[2] + roll[3];
  }

  lemma YahtzeeOfThrees()
    ensures Score(Yahtzee, [3, 3, 3, 3, 3]) == 15
  {
    var roll := [3, 3, 3, 3, 3];
    forall x | x in roll ensures x == 3 {
      Shown(roll, x);
    }
    assert 3 in roll;
    assert AllSame(roll);
    SumOfFive(roll);
  }

  lemma YahtzeeMissed()
    ensures Score(Yahtzee, [1, 2, 3, 3, 3]) == 0
  {
    var roll := [1, 2, 3, 3, 3];
    assert 1 in roll && 2 in roll;
  }

  lemma FullHouseThreeTwo()
    ensures Score(FullHouse, [2, 2, 2, 5, 5]) == 16
  {
    var roll := [2, 2, 2, 5, 5];
    forall x | x in roll ensures x == 2 || x == 5 {
      Shown(roll, x);
    }
    assert 2 in roll && 5 in roll;
    assert TwoValued(roll);
    SumOfFive(roll);
  }

  lemma FullHouseFourOne()
    ensures Score(FullHouse, [2, 2, 2, 2, 5]) == 13
  {
    var roll := [2, 2, 2, 2, 5];
    forall x | x in roll ensures x == 2 || x == 5 {
      Shown(roll, x);
    }
    assert 2 in roll && 5 in roll;
    assert TwoValued(roll);
    SumOfFive(roll);
  }

  lemma SmallStraightMade()
    ensures Score(SmallStraight, [1, 2, 3, 4, 5]) == 15
  {
  }

  lemma SmallStraightMissed()
    ensures Score(SmallStraight, [1, 2, 3, 4, 6]) == 0
  {
    Shown([1, 2, 3, 4, 6], 5);
  }

  lemma LargeStraightMade()
    ensures Score(LargeStraight, [2, 3, 4, 5, 6]) == 20
  {
  }

  /** In [5, 5, 5, 2, 2] the fives form the only exact triple and the twos the only exact pair. */
  lemma TripleAndPairCounts()
    ensures HighestOfKind([5, 5, 5, 2, 2], 5, 3)
    ensures HighestOfKind([5, 5, 5, 2, 2], 2, 2)
    ensures forall v :: !OfKind([5, 5, 5, 2, 2], v, 4)
  {
    var roll := [5, 5, 5, 2, 2];
    assert multiset(roll)[5] == 3 && multiset(roll)[2] == 2;
    forall v | v in roll ensures v == 5 || v == 2 {
      Shown(roll, v);
    }
  }

  lemma ThreeOfAKindExact()
    ensures Score(NKind(3), [5, 5, 5, 2, 2]) == 15
  {
    TripleAndPairCounts();
  }

  lemma TwoOfAKindSkipsTriple()
    ensures Score(NKind(2), [5, 5, 5, 2, 2]) == 4
  {
    TripleAndPairCounts();
  }

  lemma FourOfAKindMissed()
    ensures Score(NKind(4), [5, 5, 5, 2, 2]) == 0
  {
    TripleAndPairCounts();
  }

  lemma TwoPairsMade()
    ensures Score(TwoPairs, [2, 2, 5, 5, 1]) == 14
  {
    var roll := [2, 2, 5, 5, 1];
    assert multiset(roll)[2] == 2 && multiset(roll)[5] == 2;
    ScoringProperties.TwoPairsSelected(roll, 2, 5);
  }

  lemma TwoPairsSkipsTriple()
    ensures Score(TwoPairs, [2, 2, 2, 5, 5]) == 0
  {
    var roll := [2, 2, 2, 5, 5];
    assert multiset(roll)[2] == 3;
    forall v | v in roll ensures v == 2 || v == 5 {
      Shown(roll, v);
    }
    assert forall p :: OfKind(roll, p, 2) ==> p == 5;
  }

  lemma UnknownLabelExample(roll: seq<int>)
    ensures Evaluate("bogus-label", roll) == Failure(UnknownCategory)
  {
  }
}
