/** The value a seven-card hand is scored as, `HandEvaluation`, its
    constructors, and the ordering the source derives for it. */
module Evaluation {
  import opened BitOps
  import opened Cards

  datatype Ordering = Less | Equal | Greater
  {
    function Reverse(): Ordering
    {
      match this
      case Less => Greater
      case Equal => Equal
      case Greater => Less
    }
  }

  /** `Ord::cmp` on integers. */
  function CompareInt(a: int, b: int): (r: Ordering)
    ensures r == Less <==> a < b
    ensures r == Equal <==> a == b
    ensures r == Greater <==> a > b
  {
    if a < b then Less else if a == b then Equal else Greater
  }

  /** Lexicographic combination: the second comparison only breaks a tie of the first. */
  function ThenCompare(first: Ordering, second: Ordering): (r: Ordering)
    ensures first != Equal ==> r == first
    ensures first == Equal ==> r == second
  {
    if first == Equal then second else first
  }

  datatype HandKind =
    | HighCard
    | Pair
    | TwoPair
    | ThreeOfAKind
    | Straight
    | Flush
    | FullHouse
    | FourOfAKind
    | StraightFlush

  /** The `repr(u8)` discriminant, by which the derived `Ord` orders kinds. */
  function Discriminant(k: HandKind): (r: nat)
    ensures r <= 8
  {
    match k
    case HighCard => 0
    case Pair => 1
    case TwoPair => 2
    case ThreeOfAKind => 3
    case Straight => 4
    case Flush => 5
    case FullHouse => 6
    case FourOfAKind => 7
    case StraightFlush => 8
  }

  lemma DiscriminantInjective(a: HandKind, b: HandKind)
    ensures Discriminant(a) == Discriminant(b) <==> a == b
  {
  }

  /** A `[u8; 3]`. */
  type Values = s: seq<u8> | |s| == 3 witness [0, 0, 0]

  datatype HandEvaluation = HandEvaluation(kind: HandKind, values: Values)

  /** The derived `Ord` on `[u8; 3]`: lexicographic. */
  function CompareValues(a: Values, b: Values): (r: Ordering)
    ensures r == Equal <==> a == b
  {
    var r := ThenCompare(CompareInt(a[0], b[0]), ThenCompare(CompareInt(a[1], b[1]), CompareInt(a[2], b[2])));
    assert r == Equal ==> a == b by {
      if r == Equal { assert a[0] == b[0] && a[1] == b[1] && a[2] == b[2]; }
    }
    r
  }

  /** The derived `Ord` on `HandEvaluation`: kind first, then the values. */
  function Compare(a: HandEvaluation, b: HandEvaluation): (r: Ordering)
    ensures r == Equal <==> a == b
    ensures Discriminant(a.kind) > Discriminant(b.kind) ==> r == Greater
    ensures Discriminant(a.kind) < Discriminant(b.kind) ==> r == Less
  {
    DiscriminantInjective(a.kind, b.kind);
    ThenCompare(CompareInt(Discriminant(a.kind), Discriminant(b.kind)), CompareValues(a.values, b.values))
  }

  lemma CompareAntisymmetric(a: HandEvaluation, b: HandEvaluation)
    ensures Compare(b, a) == Compare(a, b).Reverse()
  {
  }

  lemma CompareTransitive(a: HandEvaluation, b: HandEvaluation, c: HandEvaluation)
    requires Compare(a, b) == Greater && Compare(b, c) == Greater
    ensures Compare(a, c) == Greater
  {
  }

  // ---------------------------------------------------------------------------
  // Constructors

  /** The `as u8` cast. */
  function AsU8(x: nat): u8
  {
    Pow2Values();
    Trunc(x, 8)
  }

  function NewStraightFlush(high: Number): (e: HandEvaluation)
    ensures e.kind == StraightFlush
  {
    HandEvaluation(StraightFlush, [high as u8, 0, 0])
  }

  function NewFourOfAKind(high: Number, kicker: Number): (e: HandEvaluation)
    ensures e.kind == FourOfAKind
  {
    HandEvaluation(FourOfAKind, [high as u8, kicker as u8, 0])
  }

  function NewFullHouse(high: Number, low: Number): (e: HandEvaluation)
    ensures e.kind == FullHouse
  {
    HandEvaluation(FullHouse, [high as u8, low as u8, 0])
  }

  function NewFlush(cards: u16): (e: HandEvaluation)
    ensures e.kind == Flush
  {
    HandEvaluation(Flush, [AsU8(Shr(cards, 8)), AsU8(And(cards, 0xFF)), 0])
  }

  function NewStraight(high: Number): (e: HandEvaluation)
    ensures e.kind == Straight
  {
    HandEvaluation(Straight, [high as u8, 0, 0])
  }

  function NewThreeOfAKind(high: Number, kickers: u16): (e: HandEvaluation)
    ensures e.kind == ThreeOfAKind
  {
    HandEvaluation(ThreeOfAKind, [high as u8, AsU8(Shr(kickers, 8)), AsU8(And(kickers, 0xFF))])
  }

  function NewTwoPair(high: Number, low: Number, kicker: Number): (e: HandEvaluation)
    ensures e.kind == TwoPair
  {
    HandEvaluation(TwoPair, [high as u8, low as u8, kicker as u8])
  }

  function NewPair(high: Number, kickers: u16): (e: HandEvaluation)
    ensures e.kind == Pair
  {
    HandEvaluation(Pair, [high as u8, AsU8(Shr(kickers, 8)), AsU8(And(kickers, 0xFF))])
  }

  function NewHighCard(cards: u16): (e: HandEvaluation)
    ensures e.kind == HighCard
  {
    HandEvaluation(HighCard, [AsU8(Shr(cards, 8)), AsU8(And(cards, 0xFF)), 0])
  }

  // ---------------------------------------------------------------------------
  // What each constructor's encoding preserves: evaluations of one kind compare
  // as their arguments do, in order, so no information is lost in the bytes.

  /** Splitting a `u16` into its high and low byte loses nothing. */
  lemma ByteSplit(x: u16)
    ensures AsU8(Shr(x, 8)) == Shr(x, 8) && AsU8(And(x, 0xFF)) == And(x, 0xFF)
    ensures x == 256 * Shr(x, 8) + And(x, 0xFF) && And(x, 0xFF) < 256
  {
    Pow2Values();
    AndLowMask(x, 8);
    SplitAt(x, 8, 8);
    TruncSmall(Shr(x, 8), 8);
    TruncSmall(And(x, 0xFF), 8);
  }

  /** Comparing the two bytes of two `u16`s in order compares the `u16`s. */
  lemma CompareBytes(x: u16, y: u16)
    ensures ThenCompare(CompareInt(AsU8(Shr(x, 8)), AsU8(Shr(y, 8))), CompareInt(AsU8(And(x, 0xFF)), AsU8(And(y, 0xFF))))
         == CompareInt(x, y)
  {
    ByteSplit(x);
    ByteSplit(y);
  }

  lemma StraightFlushOrder(a: Number, b: Number)
    ensures Compare(NewStraightFlush(a), NewStraightFlush(b)) == CompareInt(a, b)
  {
  }

  lemma FourOfAKindOrder(a: Number, ka: Number, b: Number, kb: Number)
    ensures Compare(NewFourOfAKind(a, ka), NewFourOfAKind(b, kb))
         == ThenCompare(CompareInt(a, b), CompareInt(ka, kb))
  {
  }

  lemma FullHouseOrder(a: Number, la: Number, b: Number, lb: Number)
    ensures Compare(NewFullHouse(a, la), NewFullHouse(b, lb))
         == ThenCompare(CompareInt(a, b), CompareInt(la, lb))
  {
  }

  lemma FlushOrder(x: u16, y: u16)
    ensures Compare(NewFlush(x), NewFlush(y)) == CompareInt(x, y)
  {
    CompareBytes(x, y);
  }

  lemma StraightOrder(a: Number, b: Number)
    ensures Compare(NewStraight(a), NewStraight(b)) == CompareInt(a, b)
  {
  }

  lemma ThreeOfAKindOrder(a: Number, ka: u16, b: Number, kb: u16)
    ensures Compare(NewThreeOfAKind(a, ka), NewThreeOfAKind(b, kb))
         == ThenCompare(CompareInt(a, b), CompareInt(ka, kb))
  {
    CompareBytes(ka, kb);
  }

  lemma TwoPairOrder(a: Number, la: Number, ka: Number, b: Number, lb: Number, kb: Number)
    ensures Compare(NewTwoPair(a, la, ka), NewTwoPair(b, lb, kb))
         == ThenCompare(CompareInt(a, b), ThenCompare(CompareInt(la, lb), CompareInt(ka, kb)))
  {
  }

  lemma PairOrder(a: Number, ka: u16, b: Number, kb: u16)
    ensures Compare(NewPair(a, ka), NewPair(b, kb))
         == ThenCompare(CompareInt(a, b), CompareInt(ka, kb))
  {
    CompareBytes(ka, kb);
  }

  lemma HighCardOrder(x: u16, y: u16)
    ensures Compare(NewHighCard(x), NewHighCard(y)) == CompareInt(x, y)
  {
    CompareBytes(x, y);
  }
}
