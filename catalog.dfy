/**
 * The catalogue: a fixed table from the fifteen labels a user may type to
 * the category each one names, built once and only read. Looking up a
 * label that is not in the table is the one failure, an unknown category.
 */
module Catalog {
  import opened Wrappers
  import opened Rolls
  import opened Categories
  import opened ScoringProperties

  datatype ScoreError = UnknownCategory

  /** The labels the catalogue answers to. */
  const KnownLabels: set<string> :=
    {"1", "2", "3", "4", "5", "6", "2K", "3K", "4K", "2P", "SS", "LS", "FH", "Y", "C"}

  /** The label table: it answers to exactly the fifteen labels. */
  function CategoryByLabel(): (m: map<string, Category>)
    ensures m.Keys == KnownLabels
  {
    map[
      "1" := SpecificValue(1),
      "2" := SpecificValue(2),
      "3" := SpecificValue(3),
      "4" := SpecificValue(4),
      "5" := SpecificValue(5),
      "6" := SpecificValue(6),
      "2K" := NKind(2),
      "3K" := NKind(3),
      "4K" := NKind(4),
      "2P" := TwoPairs,
      "SS" := SmallStraight,
      "LS" := LargeStraight,
      "FH" := FullHouse,
      "Y" := Yahtzee,
      "C" := Chance
    ]
  }

  /** The digit character for 0..9. */
  function Digit(n: int): (ch: char)
    requires 0 <= n <= 9
    ensures '0' <= ch <= '9' && ch as int - '0' as int == n
  {
    "0123456789"[n]
  }

  /**
   * The label under which the catalogue lists a category, if it lists it:
   * the upper-section values 1..6 and the kinds 2..4 only.
   */
  function LabelOf(c: Category): Option<string> {
    match c
    case SpecificValue(value) => if 1 <= value <= 6 then Some([Digit(value)]) else None
    case NKind(kind) => if 2 <= kind <= 4 then Some([Digit(kind), 'K']) else None
    case TwoPairs => Some("2P")
    case SmallStraight => Some("SS")
    case LargeStraight => Some("LS")
    case FullHouse => Some("FH")
    case Yahtzee => Some("Y")
    case Chance => Some("C")
  }

  /** The category the table lists under `name`, or `None` for a label it lacks. */
  function Lookup(name: string): (r: Option<Category>)
    ensures r.Some? <==> name in KnownLabels
    ensures r.Some? ==> LabelOf(r.value) == Some(name)
  {
    TableListsUnderLabel(name);
    var table := CategoryByLabel();
    if name in table then Some(table[name]) else None
  }

  /** No two categories are listed under the same label. */
  lemma {:induction false} LabelOfInjective(c: Category, d: Category)
    requires LabelOf(c).Some? && LabelOf(c) == LabelOf(d)
    ensures c == d
  {
    var name := LabelOf(c).value;
    match c
    case SpecificValue(value) =>
      assert |name| == 1 && name[0] == Digit(value);
    case NKind(kind) =>
      assert |name| == 2 && name[0] == Digit(kind) && name[1] == 'K';
    case _ =>
  }

  /** Each label of the table names a category listed under that same label. */
  lemma {:induction false} TableListsUnderLabel(name: string)
    ensures name in CategoryByLabel() ==> LabelOf(CategoryByLabel()[name]) == Some(name)
  {
  }

  /** Every category the catalogue lists is found again under its label. */
  lemma {:induction false} LabelOfLooksUp(c: Category)
    ensures LabelOf(c).Some? ==> Lookup(LabelOf(c).value) == Some(c)
  {
    if LabelOf(c).Some? {
      var name := LabelOf(c).value;
      assert name in KnownLabels by {
        match c
        case SpecificValue(value) =>
          assert value == 1 || value == 2 || value == 3 || value == 4 || value == 5 || value == 6;
        case NKind(kind) =>
          assert kind == 2 || kind == 3 || kind == 4;
        case _ =>
      }
      LabelOfInjective(c, Lookup(name).value);
    }
  }

  /** The fifteen labels are distinct and name fifteen distinct categories. */
  lemma {:induction false} CatalogIsInjective(name1: string, name2: string)
    requires Lookup(name1).Some? && Lookup(name1) == Lookup(name2)
    ensures name1 == name2
  {
  }

  /** Look the label up and, if it names a category, score the roll with it. */
  function Evaluate(name: string, roll: seq<int>): (r: Result<int, ScoreError>)
    ensures r.Failure? <==> name !in KnownLabels
    ensures r.Failure? ==> r.error == UnknownCategory
    ensures r.Success? ==> r.value == Score(Lookup(name).value, roll)
  {
    match Lookup(name)
    case None => Failure(UnknownCategory)
    case Some(c) => Success(Score(c, roll))
  }

  /** Every successful evaluation of five dice scores between 0 and 30. */
  lemma {:induction false} EvaluateBounds(name: string, roll: seq<int>)
    requires ValidRoll(roll)
    ensures Evaluate(name, roll).Success? ==> 0 <= Evaluate(name, roll).value <= 30
  {
    if name in KnownLabels {
      ScoreBounds(Lookup(name).value, roll);
    }
  }

  /** The outcome of an evaluation does not depend on the order of the dice. */
  lemma {:induction false} EvaluatePermutationInvariant(name: string, a: seq<int>, b: seq<int>)
    requires ValidRoll(a) && multiset(a) == multiset(b)
    ensures Evaluate(name, a) == Evaluate(name, b)
  {
    if name in KnownLabels {
      ScorePermutationInvariant(Lookup(name).value, a, b);
    }
  }
}
