# Yahtzee scoring catalogue

A model of the scoring core of `fast-yahtzee`: a fixed catalogue that maps
fifteen category labels to scoring rules, each of which scores a roll of five
dice (values 1..6). The Java program builds the catalogue once as a map from
label to closure. Here a category is a value of the datatype
`Categories.Category`, and `Categories.Score` dispatches on it.

The rules, as the code has them:

- "1".."6" add up the dice showing that value.
- "2K", "3K", "4K" score N times the largest value shown by exactly N dice.
  A value shown by more than N dice does not qualify.
- "2P" scores twice the sum of two values that are each shown by exactly two dice.
- "SS" scores 15 when 1..5 all appear. "LS" scores 20 when 2..6 all appear.
- "FH" scores the sum of the dice when exactly two distinct values appear, so a 4+1 split qualifies.
- "Y" scores the sum when a single value appears. "C" always scores the sum.

Every evaluator is total over any sequence of integers, as the Java stream
pipelines are over any list. The five-dice, 1..6 shape of a roll
(`Rolls.ValidRoll`) is the caller's contract, and these lemmas assume it:
the score bounds, the straights as runs of five dice and permutation
invariance. The two-pairs selection assumes only that there are at most five
dice.

Files and modules:

- `wrappers.dfy` (`Wrappers`): `Option` and `Result`.
- `rolls.dfy` (`Rolls`): the sum, the filter on one value, the distinct
  values and the value-occurrence histogram that the rules share.
- `categories.dfy` (`Categories`): the category datatype, the evaluators and
  the dispatch.
- `properties.dfy` (`ScoringProperties`): the two-pairs selection, straights
  as runs, score bounds and permutation invariance.
- `catalog.dfy` (`Catalog`): the label table, lookup and evaluation by label.
- `worked_rolls.dfy` (`ScoringExamples`): worked rolls for the non-classic rules.

Because N-of-a-kind needs an exact count, "2K" on [5,5,5,2,2] scores 4, not
10: the fives are a triple and do not qualify, while the twos are an exact
pair. `ScoringExamples.TwoOfAKindSkipsTriple` proves this.

## Model

| member | source | states |
|---|---|---|
| `Rolls.Only` | src/main/java/io/smanicome/Main.java:19-20 | filtering the roll on one value leaves exactly as many copies of that value as the roll holds, and no more dice than the roll |
| `Rolls.Distinct` | src/main/java/io/smanicome/Main.java:62 | `distinct()` keeps each value of the roll exactly once: same values as the roll, no duplicates, never longer than the roll |
| `Rolls.Occurrences` | src/main/java/io/smanicome/Main.java:122-124 | the histogram has a key for exactly the values the roll shows, and each key maps to the number of dice showing it (at least 1) |
| `Rolls.HistogramTotal` | src/main/java/io/smanicome/Main.java:122-124 | the histogram's counts add up to the number of dice |
| `Rolls.SumAppend` | src/main/java/io/smanicome/Main.java:58 | the sum of the dice, a fold of addition from 0, adds up over a split of the roll: the sum of two parts together is the sum of their sums |
| `Rolls.SumPermutation` | src/main/java/io/smanicome/Main.java:58 | the `reduce(Integer::sum)` total depends only on the multiset of dice |
| `Rolls.SumOfCopies` | src/main/java/io/smanicome/Main.java:19-21 | n dice all showing v sum to n × v, so the empty roll sums to 0 as `orElse(0)` gives |
| `Rolls.SumBounds` | src/main/java/io/smanicome/Main.java:83 | dice in lo..hi sum to between count × lo and count × hi |
| `Rolls.DistinctCount` | src/main/java/io/smanicome/Main.java:62 | the number of distinct values equals the size of the roll's value set |
| `Categories.WithCount` | src/main/java/io/smanicome/Main.java:27-28 | filtering histogram entries on a count keeps exactly the keys with that count, keeps them distinct, and their count times their number is at most the tally |
| `Categories.EntriesOfKind` | src/main/java/io/smanicome/Main.java:38-39 | the histogram keys with count exactly k are exactly the values shown by exactly k dice; there are at most |roll| / k of them |
| `Categories.MaxOf` | src/main/java/io/smanicome/Main.java:29-30 | `max` returns a member of the stream that is at least every member |
| `Categories.ContainsAll` | src/main/java/io/smanicome/Main.java:79-80 | `containsAll` holds iff every listed value appears in the roll |
| `Categories.ScoreSpecificValue` | src/main/java/io/smanicome/Main.java:19-22 | "1".."6" score the value times the number of dice showing it, so 0 when no die shows it |
| `Categories.ScoreNKind` | src/main/java/io/smanicome/Main.java:24-33 | "2K"/"3K"/"4K" score 0 when no value is shown by exactly N dice, else N times the largest value shown by exactly N dice |
| `Categories.ScoreTwoPairs` | src/main/java/io/smanicome/Main.java:36-51 | "2P" scores 0 unless two distinct values are each shown by exactly two dice; when two such values exist, the score is twice the sum of two of them |
| `Categories.ScoreSmallStraight` | src/main/java/io/smanicome/Main.java:79 | "SS" scores 15 iff every value 1..5 appears, else 0 |
| `Categories.ScoreLargeStraight` | src/main/java/io/smanicome/Main.java:80 | "LS" scores 20 iff every value 2..6 appears, else 0 |
| `Categories.ScoreFullHouse` | src/main/java/io/smanicome/Main.java:53-59 | "FH" scores the sum of the dice iff exactly two distinct values appear, whatever the split, else 0 |
| `Categories.ScoreYahtzee` | src/main/java/io/smanicome/Main.java:61-66 | "Y" scores the sum of the dice iff a single value appears, else 0 |
| `Categories.ScoreChance` | src/main/java/io/smanicome/Main.java:83 | "C" scores the sum of the dice, between 5 and 30 for a valid roll; its order-independence is `ScoringProperties.ScorePermutationInvariant` |
| `Categories.Score` | src/main/java/io/smanicome/Main.java:115 | applying a category to a roll reaches the rule its label names: the value times its number of dice for "1".."6", N times the largest value shown by exactly N dice (or 0) for N-of-a-kind, 0 without two exact pairs and otherwise twice the sum of two of them for "2P", 15/20 for the straights iff the run is shown, the sum iff two-valued or all-same, the sum for chance |
| `Categories.TwoValuedIff` | src/main/java/io/smanicome/Main.java:56 | the roll has exactly two distinct values (`Distinct` has length 2) iff it is two-valued; `ScoreFullHouse` links this to the histogram size through `DistinctCount` and `Occurrences` |
| `Categories.AllSameIff` | src/main/java/io/smanicome/Main.java:62-63 | `distinct().count() == 1` iff every die shows the same value |
| `ScoringProperties.TwoPairsOfFiveDice` | src/main/java/io/smanicome/Main.java:38-44 | with five dice at most two values are exact pairs, so sorting and `limit(2)` change nothing: the score is twice the sum of the two pair values |
| `ScoringProperties.SmallStraightIsRun` | src/main/java/io/smanicome/Main.java:79 | on five dice "SS" scores 15 iff the dice are 1, 2, 3, 4, 5 in some order |
| `ScoringProperties.LargeStraightIsRun` | src/main/java/io/smanicome/Main.java:80 | on five dice "LS" scores 20 iff the dice are 2, 3, 4, 5, 6 in some order |
| `ScoringProperties.ScoreBounds` | src/main/java/io/smanicome/Main.java:19-83 | every category scores a valid roll between 0 and 30 |
| `ScoringProperties.ScorePermutationInvariant` | src/main/java/io/smanicome/Main.java:19-83 | every category scores any reordering of a valid roll the same |
| `Catalog.CategoryByLabel` | src/main/java/io/smanicome/Main.java:68-84 | the table has exactly the fifteen labels as keys |
| `Catalog.TableListsUnderLabel` | src/main/java/io/smanicome/Main.java:68-84 | each label of the table names a category whose own label is that label, so "3" names the threes and "3K" three of a kind |
| `Catalog.Lookup` | src/main/java/io/smanicome/Main.java:104-105 | the lookup finds a category exactly for the fifteen labels, and the category found is listed under that label |
| `Catalog.LabelOfInjective` | src/main/java/io/smanicome/Main.java:68-84 | no two catalogued categories share a label |
| `Catalog.LabelOfLooksUp` | src/main/java/io/smanicome/Main.java:68-84 | every catalogued category is found again under its own label |
| `Catalog.CatalogIsInjective` | src/main/java/io/smanicome/Main.java:68-84 | two labels that find the same category are the same label |
| `Catalog.Evaluate` | src/main/java/io/smanicome/Main.java:104-115 | evaluation fails with an unknown category exactly for labels outside the fifteen, whatever the roll, and otherwise scores the roll with the category found |
| `Catalog.EvaluateBounds` | src/main/java/io/smanicome/Main.java:115 | every successful evaluation of a valid roll is between 0 and 30 |
| `Catalog.EvaluatePermutationInvariant` | src/main/java/io/smanicome/Main.java:110-115 | the outcome of an evaluation does not depend on the order of the dice |
| `ScoringExamples.FullHouseFourOne` | src/main/java/io/smanicome/Main.java:53-59 | [2,2,2,2,5] scores 13 as a full house |
| `ScoringExamples.TwoOfAKindSkipsTriple` | src/main/java/io/smanicome/Main.java:24-33 | [5,5,5,2,2] scores 4 for "2K": the triple does not count as a pair |
| `ScoringExamples.TwoPairsSkipsTriple` | src/main/java/io/smanicome/Main.java:36-51 | [2,2,2,5,5] scores 0 for "2P": a triple is not a pair |

## Left out

- The command line in `main`: the usage text, the argument-count check and the exit codes 1 and 2. Only "lookup fails, so the category is unknown" is modelled, as `Catalog.Evaluate` returning `Failure(UnknownCategory)`.
- The random roll. `java.util.Random` seeded from the clock is replaced by a roll passed in, constrained by `Rolls.ValidRoll` where a property needs it.
- Printing the roll, the category and the score.
- The closures behind the catalogue. They are replaced by the `Category` datatype and one dispatch function, `Categories.Score`.
- Java `int` and `long` width and `Math.toIntExact`. Integers are unbounded here. Overflow cannot happen for five dice in 1..6, since every score is at most 30.
- HashMap iteration order. The model lists histogram keys in the order the values first appear. Only "2P" on six or more dice could depend on it, when three or more exact pairs exist. `ScoringProperties.TwoPairsOfFiveDice` proves that five dice never reach that case.
- Sorting by count in "2P". Every entry that reaches the sort has count 2. With five dice at most two entries reach it (`Categories.EntriesOfKind`: k × entries ≤ dice), so the order of the sort cannot change the score. The model keeps the entries in histogram order.
- Categories.ScoreTwoPairs: on rolls of six or more dice with three or more exact pairs, the contract says that the score is twice the sum of some two of them, not which two. Java leaves that choice to the order of an unordered HashMap stream.
