/** `evaluate_hand` and its helpers: the best poker category of seven cards,
    found from tallies of numbers and suits and bitsets of numbers. */
module Evaluator {
  import opened BitOps
  import opened Wrappers
  import opened Cards
  import opened RankSets
  import opened Tallies
  import opened Evaluation

  // ---------------------------------------------------------------------------
  // Straights

  /** The numbers of `s`, with an ace also counting as the number 1 below Two. */
  function AceLow(s: set<int>): set<int>
  {
    if 14 in s then s + {1} else s
  }

  /** `s` holds five consecutive numbers ending at `h` (the ace may play low). */
  ghost predicate StraightTo(s: set<int>, h: int)
  {
    forall r :: h - 4 <= r <= h ==> r in AceLow(s)
  }

  /** The highest end, at most `h`, of a straight in `s`. */
  ghost function StraightAtMost(s: set<int>, h: int): (r: Option<Number>)
    requires h <= 14
    ensures r.Some? ==> 5 <= r.value <= h && StraightTo(s, r.value)
    ensures r.Some? ==> forall k :: r.value < k <= h ==> !StraightTo(s, k)
    ensures r.None? ==> forall k :: 5 <= k <= h ==> !StraightTo(s, k)
    decreases h
  {
    if h < 5 then None
    else if StraightTo(s, h) then Some(h as Number)
    else StraightAtMost(s, h - 1)
  }

  /** The highest straight in `s`, if there is one. */
  ghost function HighestStraight(s: set<int>): Option<Number>
  {
    StraightAtMost(s, 14)
  }

  /** `check_for_straight`: the highest straight among the numbers in a bitset. */
  method CheckForStraight(cardBitset: u16) returns (r: Option<Number>)
    ensures r == HighestStraight(Bits16(cardBitset))
  {
    ghost var s := Bits16(cardBitset);
    var bits: u16 := cardBitset;
    AceTest(bits);
    if And(bits, AsBit(Ace)) != 0 {
      AddLowAce(bits);
      bits := Or(bits, 2);
    }
    var mask: u16 := 0x1F;
    for shift: int := 11 downto 1
      invariant Bits16(bits) == AceLow(s)
      invariant forall k :: shift + 4 <= k <= 14 ==> !StraightTo(s, k)
    {
      WindowStraight(bits, s, shift);
      if Shr(And(bits, Shl16(mask, shift)), shift) == mask {
        HighestStraightIs(s, shift + 4);
        return Some(shift + 4);
      }
    }
    NoStraight(s);
    return None;
  }

  lemma HighestStraightIs(s: set<int>, h: Number)
    requires 5 <= h && StraightTo(s, h)
    requires forall k :: h < k <= 14 ==> !StraightTo(s, k)
    ensures HighestStraight(s) == Some(h)
  {
  }

  lemma NoStraight(s: set<int>)
    requires forall k :: 5 <= k <= 14 ==> !StraightTo(s, k)
    ensures HighestStraight(s) == None
  {
  }

  /** `x & Ace.as_bit() != 0` tests for an ace. */
  lemma AceTest(x: u16)
    ensures (And(x, AsBit(Ace)) != 0) == (14 in Bits16(x))
    ensures 14 !in Bits16(x) ==> Bits16(x) == AceLow(Bits16(x))
  {
    AsBitIsSingleton(Ace);
    Bits16And(x, AsBit(Ace));
    Bits16Empty(And(x, AsBit(Ace)));
  }

  /** `x | 2` adds the number 1, the ace played low. */
  lemma AddLowAce(x: u16)
    requires 14 in Bits16(x)
    ensures Or(x, 2) < 0x1_0000 && Bits16(Or(x, 2)) == AceLow(Bits16(x))
  {
    Pow2Values();
    Bits16Pow2(1);
    Bits16Or(x, 2);
  }

  /** One window of `check_for_straight` tests for the straight ending four above the shift. */
  lemma WindowStraight(bits: u16, s: set<int>, shift: int)
    requires Bits16(bits) == AceLow(s) && 1 <= shift <= 10
    ensures Shr(And(bits, Shl16(0x1F, shift)), shift) == 0x1F <==> StraightTo(s, shift + 4)
  {
    Window(bits, shift);
  }

  // ---------------------------------------------------------------------------
  // Scans of the count of cards per number

  /** `check_for_three_of_a_kind`: the highest number held exactly three times. */
  method CheckForThreeOfAKind(countByNumber: seq<int>) returns (r: Option<Number>)
    requires |countByNumber| == 15
    ensures r.Some? ==> countByNumber[r.value] == 3
    ensures r.Some? ==> forall n :: r.value < n <= 14 ==> countByNumber[n] != 3
    ensures r.None? ==> forall n :: 2 <= n <= 14 ==> countByNumber[n] != 3
  {
    for number := 15 downto 2
      invariant forall n :: number <= n <= 14 ==> countByNumber[n] != 3
    {
      if countByNumber[number] == 3 {
        return Some(number);
      }
    }
    return None;
  }

  /** `check_for_pair`: the highest number held exactly twice. */
  method CheckForPair(countByNumber: seq<int>) returns (r: Option<Number>)
    requires |countByNumber| == 15
    ensures r.Some? ==> countByNumber[r.value] == 2
    ensures r.Some? ==> forall n :: r.value < n <= 14 ==> countByNumber[n] != 2
    ensures r.None? ==> forall n :: 2 <= n <= 14 ==> countByNumber[n] != 2
  {
    for number := 15 downto 2
      invariant forall n :: number <= n <= 14 ==> countByNumber[n] != 2
    {
      if countByNumber[number] == 2 {
        return Some(number);
      }
    }
    return None;
  }

  /** `highest_card_in_set`: `15 - leading_zeros`, the highest number in a
      bitset whose highest bit is a number's. */
  function HighestCardInSet(cards: u16): (r: Number)
    requires Bits16(cards) != {} && 2 <= Max(Bits16(cards)) <= 14
    ensures r == Max(Bits16(cards))
  {
    var z := LeadingZeros16(cards);
    assert 15 - z in Bits16(cards);
    15 - z
  }

  // ---------------------------------------------------------------------------
  // What `evaluate_hand` computes, stated on the cards' tallies

  /** Seven different cards. */
  ghost predicate IsHand(cards: seq<Card>)
  {
    |cards| == 7 && forall i, j :: 0 <= i < j < |cards| ==> cards[i] != cards[j]
  }

  /** The multiset of seven different cards: no card twice, and seven cards
      when counted number by number. */
  ghost predicate SevenCards(m: multiset<Card>)
  {
    Distinct(m) && |m| == 7 && CountFrom(m, 2, {}) == 7
  }

  /** The cards of a hand form such a multiset. */
  lemma HandCards(cards: seq<Card>)
    requires IsHand(cards)
    ensures SevenCards(multiset(cards))
  {
    DistinctCards(cards);
    CountTotal(cards);
  }

  /** The numbers held exactly `k` times. */
  function NumbersWithCount(m: multiset<Card>, k: nat): (r: set<int>)
    ensures Positions(r)
  {
    set n: int | 2 <= n <= 14 && Count(m, n) == k
  }

  /** The numbers other than `t` held at least twice: what can pair up with
      three cards of number `t` into a full house. */
  function PairsBesides(m: multiset<Card>, t: int): (r: set<int>)
    ensures Positions(r)
  {
    set n: int | 2 <= n <= 14 && n != t && Count(m, n) >= 2
  }

  /** The highest straight in the first suit, in index order from `i`, that
      has one. */
  ghost function StraightFlushFrom(m: multiset<Card>, i: int): (r: Option<Number>)
    requires 0 <= i <= 4
    decreases 4 - i
  {
    if i == 4 then None
    else if HighestStraight(SuitRanks(m, SuitAt(i))).Some? then HighestStraight(SuitRanks(m, SuitAt(i)))
    else StraightFlushFrom(m, i + 1)
  }

  /** The first suit, in index order from `i`, with at least five cards. */
  function FlushSuitFrom(m: multiset<Card>, i: int): (r: Option<Suit>)
    requires 0 <= i <= 4
    ensures r.Some? ==> SuitCount(m, r.value) >= 5
    decreases 4 - i
  {
    if i == 4 then None
    else if SuitCount(m, SuitAt(i)) >= 5 then Some(SuitAt(i))
    else FlushSuitFrom(m, i + 1)
  }

  /** The evaluation of seven different cards: the first category that the
      hand makes, from straight flush down to high card, with the numbers
      that rank hands within the category. Each `Below...` function is the
      evaluation of a hand that makes none of the categories down to the one
      it names. */
  ghost function Classify(m: multiset<Card>): HandEvaluation
    requires SevenCards(m)
  {
    var straightFlush := StraightFlushFrom(m, 0);
    if straightFlush.Some? then NewStraightFlush(straightFlush.value)
    else BelowStraightFlush(m)
  }

  /** The evaluation of a hand of seven different cards. */
  ghost function HandValue(cards: seq<Card>): HandEvaluation
    requires IsHand(cards)
  {
    HandCards(cards);
    Classify(multiset(cards))
  }

  /** The evaluation depends on which cards the hand holds, not on their order. */
  lemma HandValueOrderFree(a: seq<Card>, b: seq<Card>)
    requires IsHand(a) && IsHand(b) && multiset(a) == multiset(b)
    ensures HandValue(a) == HandValue(b)
  {
  }

  ghost function BelowStraightFlush(m: multiset<Card>): HandEvaluation
    requires SevenCards(m)
  {
    var quads := NumbersWithCount(m, 4);
    if quads != {} then
      var q := Max(quads);
      QuadKickerExists(m, q);
      NewFourOfAKind(q, Max(Ranks(m) - {q}))
    else BelowFourOfAKind(m)
  }

  ghost function BelowFourOfAKind(m: multiset<Card>): HandEvaluation
    requires SevenCards(m)
  {
    var trips := NumbersWithCount(m, 3);
    if trips != {} && PairsBesides(m, Max(trips)) != {} then
      NewFullHouse(Max(trips), Max(PairsBesides(m, Max(trips))))
    else BelowFullHouse(m)
  }

  ghost function BelowFullHouse(m: multiset<Card>): HandEvaluation
    requires SevenCards(m)
  {
    var flushSuit := FlushSuitFrom(m, 0);
    if flushSuit.Some? then NewFlush(Mask16(TopK(SuitRanks(m, flushSuit.value), 5)))
    else BelowFlush(m)
  }

  ghost function BelowFlush(m: multiset<Card>): HandEvaluation
    requires SevenCards(m)
  {
    var straight := HighestStraight(Ranks(m));
    if straight.Some? then NewStraight(straight.value)
    else BelowStraight(m)
  }

  ghost function BelowStraight(m: multiset<Card>): HandEvaluation
    requires SevenCards(m)
  {
    var trips := NumbersWithCount(m, 3);
    if trips != {} then
      var t := Max(trips);
      NewThreeOfAKind(t, Mask16(TopK(Ranks(m) - {t}, 2)))
    else BelowThreeOfAKind(m)
  }

  ghost function BelowThreeOfAKind(m: multiset<Card>): HandEvaluation
    requires SevenCards(m)
  {
    var pairs := NumbersWithCount(m, 2);
    if pairs != {} then
      var p := Max(pairs);
      if pairs - {p} != {} then
        var l := Max(pairs - {p});
        TwoPairKickerExists(m, p, l);
        NewTwoPair(p, l, Max(Ranks(m) - {p, l}))
      else
        NewPair(p, Mask16(TopK(Ranks(m) - {p}, 3)))
    else
      NewHighCard(Mask16(TopK(Ranks(m), 5)))
  }

  // ---------------------------------------------------------------------------
  // Sizes of a seven-card hand

  /** The number of cards outside the numbers in `x`. */
  lemma CardsOutside(m: multiset<Card>, t: Number)
    requires SevenCards(m)
    ensures CountFrom(m, 2, {t}) == 7 - Count(m, t)
  {
    CountFromRemove(m, 2, {}, t);
    CountFromSame(m, 2, {} + {t as int}, {t as int});
  }

  /** Four of a kind leaves three cards, so some other number. */
  lemma QuadKickerExists(m: multiset<Card>, q: int)
    requires SevenCards(m) && q in NumbersWithCount(m, 4)
    ensures Ranks(m) - {q} != {}
  {
    CardsOutside(m, q);
    RanksFromNonEmpty(m, 2, {q});
    RanksFromAll(m, {q});
  }

  /** Two pairs leave three cards, so some other number. */
  lemma TwoPairKickerExists(m: multiset<Card>, p: int, l: int)
    requires SevenCards(m) && p != l
    requires p in NumbersWithCount(m, 2) && l in NumbersWithCount(m, 2)
    ensures Ranks(m) - {p, l} != {}
  {
    CardsOutside(m, p);
    CountFromRemove(m, 2, {p}, l);
    CountFromSame(m, 2, {p} + {l}, {p, l});
    RanksFromNonEmpty(m, 2, {p, l});
    RanksFromAll(m, {p, l});
  }

  /** When no number besides `t` repeats, the other cards have different numbers. */
  lemma OthersDistinct(m: multiset<Card>, t: Number)
    requires SevenCards(m)
    requires forall n: Number :: n != t ==> Count(m, n) <= 1
    ensures |Ranks(m) - {t}| == 7 - Count(m, t)
  {
    CardsOutside(m, t);
    RanksFromSize(m, 2, {t});
    RanksFromAll(m, {t});
  }

  /** When no number repeats, the seven cards have seven numbers. */
  lemma AllDistinct(m: multiset<Card>)
    requires SevenCards(m)
    requires forall n: Number :: Count(m, n) <= 1
    ensures |Ranks(m)| == 7
  {
    RanksFromSize(m, 2, {});
    RanksFromAll(m, {});
    assert Ranks(m) - {} == Ranks(m);
  }

  /** No number has more than four cards. */
  lemma CountsBounded(m: multiset<Card>)
    requires SevenCards(m)
    ensures forall n: Number :: Count(m, n) <= 4
  {
    forall n: Number ensures Count(m, n) <= 4 {
      CountBound(m, n);
    }
  }

  // ---------------------------------------------------------------------------
  // The bitset steps of `evaluate_hand` on sets of numbers

  /** `x & !n.as_bit()` removes the number `n`. */
  lemma RemoveNumber(x: u16, n: Number)
    ensures Bits16(And(x, Not16(AsBit(n)))) == Bits16(x) - {n as int}
  {
    AsBitIsSingleton(n);
    Bits16Pow2(n);
    Bits16ClearBit(x, n);
  }

  /** `x & (x - 1)` removes the lowest number of a non-empty set of highest
      numbers of `s`, leaving a set of highest numbers of `s`. */
  lemma ClearLowest(x: u16, s: set<int>)
    requires Positions(s) && IsTop(Bits16(x), s) && Bits16(x) != {}
    ensures x != 0
    ensures IsTop(Bits16(And(x, x - 1)), s)
    ensures |Bits16(And(x, x - 1))| == |Bits16(x)| - 1
  {
    Bits16Empty(x);
    Bits16ClearLowest(x);
    assert LowestBit(x) == Min(Bits16(x));
    DropLeast(Bits16(x), s);
  }

  /** A bitset is the mask of its set of numbers. */
  lemma MaskOf(x: u16, s: set<int>)
    requires Bits16(x) == s
    ensures x == Mask16(s)
  {
    Bits16Mask(s);
    Bits16Determine(x, Mask16(s));
  }

  /** `x & (x - 1)` removes the lowest number of a non-empty bitset. */
  lemma ClearLowestNumber(x: u16, r: set<int>)
    requires Bits16(x) == r && r != {}
    ensures x != 0 && Bits16(And(x, x - 1)) == r - {Min(r)}
  {
    Bits16Empty(x);
    Bits16ClearLowest(x);
    assert LowestBit(x) == Min(r);
  }

  /** Two rounds of `x &= x - 1` on a bitset of `k + 2` numbers leave its
      `k` highest. */
  method ClearTwoLowest(x: u16, ghost r: set<int>, ghost k: nat) returns (z: u16)
    requires Bits16(x) == r && |r| == k + 2
    ensures z == Mask16(TopK(r, k))
  {
    DropTwoLowest(r, k);
    ClearLowestNumber(x, r);
    var y: u16 := And(x, x - 1);
    ClearLowestNumber(y, r - {Min(r)});
    z := And(y, y - 1);
    MaskOf(z, TopK(r, k));
  }

  // ---------------------------------------------------------------------------
  // The kickers of `evaluate_hand`, as bitset operations on the hand's numbers

  /** `highest_card_in_set(number_bitset & !high_card.as_bit())` is defined on
      four of a kind and gives the highest other number. */
  lemma FourOfAKindKicker(m: multiset<Card>, x: u16, q: Number)
    requires SevenCards(m) && Bits16(x) == Ranks(m)
    requires q in NumbersWithCount(m, 4)
    ensures var y := And(x, Not16(AsBit(q)));
      Bits16(y) == Ranks(m) - {q as int} && Bits16(y) != {} && 2 <= Max(Bits16(y)) <= 14
  {
    RemoveNumber(x, q);
    QuadKickerExists(m, q);
  }

  /** Three of a kind without a full house: removing its number leaves
      four numbers, one per other card. */
  lemma ThreeOfAKindKickers(m: multiset<Card>, x: u16, t: Number)
    requires SevenCards(m) && Bits16(x) == Ranks(m)
    requires t in NumbersWithCount(m, 3) && PairsBesides(m, t) == {}
    ensures var y := And(x, Not16(AsBit(t)));
      Bits16(y) == Ranks(m) - {t as int} && |Bits16(y)| == 4
  {
    forall n: Number | n != t ensures Count(m, n) <= 1 {
      assert n !in PairsBesides(m, t);
    }
    OthersDistinct(m, t);
    RemoveNumber(x, t);
  }

  /** A single pair: removing its number leaves five numbers, one per other card. */
  lemma PairKickers(m: multiset<Card>, x: u16, p: Number)
    requires SevenCards(m) && Bits16(x) == Ranks(m)
    requires NumbersWithCount(m, 4) == {} && NumbersWithCount(m, 3) == {}
    requires p in NumbersWithCount(m, 2) && NumbersWithCount(m, 2) - {p as int} == {}
    ensures var y := And(x, Not16(AsBit(p)));
      Bits16(y) == Ranks(m) - {p as int} && |Bits16(y)| == 5
  {
    CountsBounded(m);
    forall n: Number | n != p ensures Count(m, n) <= 1 {
      assert n !in NumbersWithCount(m, 4) && n !in NumbersWithCount(m, 3) && n !in NumbersWithCount(m, 2);
    }
    OthersDistinct(m, p);
    RemoveNumber(x, p);
  }

  /** No number repeats: the seven cards have seven numbers. */
  lemma HighCardKickers(m: multiset<Card>)
    requires SevenCards(m)
    requires NumbersWithCount(m, 4) == {} && NumbersWithCount(m, 3) == {}
    requires NumbersWithCount(m, 2) == {}
    ensures |Ranks(m)| == 7
  {
    CountsBounded(m);
    forall n: Number ensures Count(m, n) <= 1 {
      assert n !in NumbersWithCount(m, 4) && n !in NumbersWithCount(m, 3) && n !in NumbersWithCount(m, 2);
    }
    AllDistinct(m);
  }

  // ---------------------------------------------------------------------------
  // The scans of `evaluate_hand`

  /** What a scan of the counts from Ace down for the count `k` reports: the
      highest number held `k` times, or that there is none. */
  ghost predicate HighestWithCount(countByNumber: seq<int>, k: int, r: Option<Number>)
    requires |countByNumber| == 15
  {
    (r.Some? ==> countByNumber[r.value] == k && forall n :: r.value < n <= 14 ==> countByNumber[n] != k) &&
    (r.None? ==> forall n :: 2 <= n <= 14 ==> countByNumber[n] != k)
  }

  /** On the hand's counts, the scan finds the highest number held `k` times. */
  lemma HighestWithCountIsMax(m: multiset<Card>, countByNumber: seq<int>, k: nat, r: Option<Number>)
    requires CountsAre(m, countByNumber) && HighestWithCount(countByNumber, k, r)
    ensures r.Some? <==> NumbersWithCount(m, k) != {}
    ensures r.Some? ==> r.value == Max(NumbersWithCount(m, k))
  {
    var s := NumbersWithCount(m, k);
    if r.Some? {
      forall x | x in s ensures x <= r.value {
        assert countByNumber[x] == Count(m, x);
      }
      MaxIs(s, r.value);
    }
  }

  /** The four of a kind loop of `evaluate_hand`: the highest number held four times. */
  method FindFourOfAKind(countByNumber: seq<int>) returns (r: Option<Number>)
    requires |countByNumber| == 15
    ensures HighestWithCount(countByNumber, 4, r)
  {
    for number := 15 downto 2
      invariant forall n :: number <= n <= 14 ==> countByNumber[n] != 4
    {
      if countByNumber[number] == 4 {
        return Some(number);
      }
    }
    return None;
  }

  /** The full house loop of `evaluate_hand`: the highest number other than
      `t` held at least twice. */
  method FindFullHousePair(countByNumber: seq<int>, t: Number) returns (r: Option<Number>)
    requires |countByNumber| == 15
    ensures r.Some? ==> r.value != t && countByNumber[r.value] >= 2
    ensures r.Some? ==> forall n :: r.value < n <= 14 && n != t ==> countByNumber[n] < 2
    ensures r.None? ==> forall n :: 2 <= n <= 14 && n != t ==> countByNumber[n] < 2
  {
    for number := 15 downto 2
      invariant forall n :: number <= n <= 14 && n != t ==> countByNumber[n] < 2
    {
      if number != t && countByNumber[number] >= 2 {
        return Some(number);
      }
    }
    return None;
  }

  /** On the hand's counts, that is the highest number that completes a full house. */
  lemma FullHousePairIsMax(m: multiset<Card>, countByNumber: seq<int>, t: Number, r: Option<Number>)
    requires CountsAre(m, countByNumber)
    requires r.Some? ==> r.value != t && countByNumber[r.value] >= 2
    requires r.Some? ==> forall n :: r.value < n <= 14 && n != t ==> countByNumber[n] < 2
    requires r.None? ==> forall n :: 2 <= n <= 14 && n != t ==> countByNumber[n] < 2
    ensures r.Some? <==> PairsBesides(m, t) != {}
    ensures r.Some? ==> r.value == Max(PairsBesides(m, t))
  {
    var s := PairsBesides(m, t);
    if r.Some? {
      forall x | x in s ensures x <= r.value {
        assert countByNumber[x] == Count(m, x);
      }
      MaxIs(s, r.value);
    }
  }

  /** The two pair loop of `evaluate_hand`: the highest number below `high`
      held exactly twice. */
  method FindSecondPair(countByNumber: seq<int>, high: Number) returns (r: Option<Number>)
    requires |countByNumber| == 15
    ensures r.Some? ==> r.value < high && countByNumber[r.value] == 2
    ensures r.Some? ==> forall n :: r.value < n < high ==> countByNumber[n] != 2
    ensures r.None? ==> forall n :: 2 <= n < high ==> countByNumber[n] != 2
  {
    for number := high downto 2
      invariant forall n :: number <= n < high ==> countByNumber[n] != 2
    {
      if countByNumber[number] == 2 {
        return Some(number);
      }
    }
    return None;
  }

  /** On the hand's counts, that is the second highest pair. */
  lemma SecondPairIsMax(m: multiset<Card>, countByNumber: seq<int>, high: Number, r: Option<Number>)
    requires CountsAre(m, countByNumber)
    requires high in NumbersWithCount(m, 2) && high == Max(NumbersWithCount(m, 2))
    requires r.Some? ==> r.value < high && countByNumber[r.value] == 2
    requires r.Some? ==> forall n :: r.value < n < high ==> countByNumber[n] != 2
    requires r.None? ==> forall n :: 2 <= n < high ==> countByNumber[n] != 2
    ensures r.Some? <==> NumbersWithCount(m, 2) - {high as int} != {}
    ensures r.Some? ==> r.value == Max(NumbersWithCount(m, 2) - {high as int})
  {
    var s := NumbersWithCount(m, 2) - {high as int};
    if r.Some? {
      forall x | x in s ensures x <= r.value {
        assert x < high && countByNumber[x] == Count(m, x);
      }
      MaxIs(s, r.value);
    }
  }

  /** The straight flush loop of `evaluate_hand`: the highest straight of the
      first suit, in suit order, whose numbers hold one. */
  method FindStraightFlush(ghost m: multiset<Card>, numberBySuitBitset: seq<u16>) returns (r: Option<Number>)
    requires SuitBitsetsAre(m, numberBySuitBitset)
    ensures r == StraightFlushFrom(m, 0)
  {
    for k := 0 to 4
      invariant StraightFlushFrom(m, k) == StraightFlushFrom(m, 0)
    {
      BitsOfMask(SuitRanks(m, SuitAt(k)));
      var highCard := CheckForStraight(numberBySuitBitset[k]);
      if highCard.Some? {
        return highCard;
      }
    }
    return None;
  }

  /** The inner loop of the flush test: while the suit's count is above
      five, clear the lowest bit of its bitset, leaving its five highest
      numbers. */
  method KeepFiveHighest(ghost ranks: set<int>, suitedCards: u16, count: int) returns (r: u16)
    requires Positions(ranks) && Bits16(suitedCards) == ranks && |ranks| == count && count >= 5
    ensures r == Mask16(TopK(ranks, 5))
  {
    r := suitedCards;
    var n := count;
    while n > 5
      invariant n >= 5 && IsTop(Bits16(r), ranks) && |Bits16(r)| == n
      decreases n
    {
      ClearLowest(r, ranks);
      r := And(r, r - 1);
      n := n - 1;
    }
    TopUnique(Bits16(r), ranks, 5);
    MaskOf(r, TopK(ranks, 5));
  }

  /** The flush loop of `evaluate_hand`: the five highest numbers of the
      first suit, in suit order, with five cards or more. */
  method FindFlush(ghost m: multiset<Card>, countBySuit: seq<int>, numberBySuitBitset: seq<u16>) returns (r: Option<u16>)
    requires Distinct(m) && SuitCountsAre(m, countBySuit) && SuitBitsetsAre(m, numberBySuitBitset)
    ensures r.Some? <==> FlushSuitFrom(m, 0).Some?
    ensures r.Some? ==> r.value == Mask16(TopK(SuitRanks(m, FlushSuitFrom(m, 0).value), 5))
  {
    for suit := 0 to 4
      invariant FlushSuitFrom(m, suit) == FlushSuitFrom(m, 0)
    {
      if countBySuit[suit] >= 5 {
        ghost var ranks := SuitRanks(m, SuitAt(suit));
        SuitRanksSize(m, SuitAt(suit));
        BitsOfMask(ranks);
        var suitedCards := KeepFiveHighest(ranks, numberBySuitBitset[suit], countBySuit[suit]);
        return Some(suitedCards);
      }
    }
    return None;
  }

  // ---------------------------------------------------------------------------
  // evaluate_hand

  /** `numberBySuitBitset` holds, at each suit code, the bitset of that
      suit's numbers. */
  ghost predicate SuitBitsetsAre(m: multiset<Card>, numberBySuitBitset: seq<u16>)
  {
    |numberBySuitBitset| == 4 &&
    forall k :: 0 <= k < 4 ==> numberBySuitBitset[k] == Mask16(SuitRanks(m, SuitAt(k)))
  }

  /** Before any card, the bitsets are empty. */
  lemma BitsetsEmpty()
    ensures 0 == Mask16(Ranks(multiset{}))
    ensures SuitBitsetsAre(multiset{}, [0, 0, 0, 0])
  {
    TalliesEmpty();
    BitsOfMask({});
    Bits16Empty(Mask16({}));
  }

  /** The bitset of a set of positions holds exactly that set. */
  lemma BitsOfMask(s: set<int>)
    requires Positions(s)
    ensures Bits16(Mask16(s)) == s
  {
    Bits16Mask(s);
  }

  /** `x | n.as_bit()` adds the number `n` to the bitset of `s`. */
  lemma AddNumber(s: set<int>, n: Number)
    requires Positions(s)
    ensures Or(Mask16(s), AsBit(n)) == Mask16(s + {n as int})
  {
    var x := Mask16(s);
    AsBitIsSingleton(n);
    Bits16Or(x, AsBit(n));
    BitsOfMask(s);
    BitsOfMask(s + {n as int});
    Bits16Determine(Or(x, AsBit(n)), Mask16(s + {n as int}));
  }

  /** Adding a card's number to the bitset of numbers. */
  lemma NumberBitsetAdd(m: multiset<Card>, c: Card)
    ensures Or(Mask16(Ranks(m)), AsBit(CardNumber(c))) == Mask16(Ranks(m + multiset{c}))
  {
    RanksAdd(m, c);
    AddNumber(Ranks(m), CardNumber(c));
  }

  /** Adding a card's number to the bitset of its suit. */
  lemma SuitBitsetsAdd(m: multiset<Card>, numberBySuitBitset: seq<u16>, c: Card)
    requires SuitBitsetsAre(m, numberBySuitBitset)
    ensures var k, n := SuitCode(CardSuit(c)), CardNumber(c);
      Or(numberBySuitBitset[k], AsBit(n)) < 0x1_0000 &&
      SuitBitsetsAre(m + multiset{c}, numberBySuitBitset[k := Or(numberBySuitBitset[k], AsBit(n))])
  {
    var k, n := SuitCode(CardSuit(c)), CardNumber(c);
    SuitAtCode(CardSuit(c));
    AddNumber(SuitRanks(m, SuitAt(k)), n);
    forall j | 0 <= j < 4
      ensures Mask16(SuitRanks(m + multiset{c}, SuitAt(j)))
           == if j == k then Or(numberBySuitBitset[k], AsBit(n)) else numberBySuitBitset[j]
    {
      SuitRanksAdd(m, c, SuitAt(j));
      if j != k {
        assert SuitAt(j) != CardSuit(c);
        assert SuitRanks(m + multiset{c}, SuitAt(j)) == SuitRanks(m, SuitAt(j));
      }
    }
  }

  /** `cards[..i + 1]` holds the cards of `cards[..i]` and `cards[i]`. */
  lemma PrefixStep(cards: seq<Card>, i: int)
    requires 0 <= i < |cards|
    ensures multiset(cards[..i + 1]) == multiset(cards[..i]) + multiset{cards[i]}
  {
    assert cards[..i + 1] == cards[..i] + [cards[i]];
  }

  /** One round of the tally loop, the counts: count the card under its
      suit and under its number. */
  method CountCard(ghost m: multiset<Card>, countBySuit: seq<int>, countByNumber: seq<int>, card: Card)
    returns (countBySuit': seq<int>, countByNumber': seq<int>)
    requires SuitCountsAre(m, countBySuit) && CountsAre(m, countByNumber)
    ensures SuitCountsAre(m + multiset{card}, countBySuit')
    ensures CountsAre(m + multiset{card}, countByNumber')
  {
    var suit, number := SuitCode(CardSuit(card)), CardNumber(card);
    SuitCountsAdd(m, countBySuit, card);
    countBySuit' := countBySuit[suit := countBySuit[suit] + 1];
    CountsAdd(m, countByNumber, card);
    countByNumber' := countByNumber[number := countByNumber[number] + 1];
  }

  /** One round of the tally loop, the bitsets: add the card's number to
      the bitset of numbers and to its suit's bitset. */
  method MarkCard(ghost m: multiset<Card>, numberBitset: u16, numberBySuitBitset: seq<u16>, card: Card)
    returns (numberBitset': u16, numberBySuitBitset': seq<u16>)
    requires numberBitset == Mask16(Ranks(m)) && SuitBitsetsAre(m, numberBySuitBitset)
    ensures numberBitset' == Mask16(Ranks(m + multiset{card}))
    ensures SuitBitsetsAre(m + multiset{card}, numberBySuitBitset')
  {
    var suit, number := SuitCode(CardSuit(card)), CardNumber(card);
    NumberBitsetAdd(m, card);
    numberBitset' := Or(numberBitset, AsBit(number));
    SuitBitsetsAdd(m, numberBySuitBitset, card);
    numberBySuitBitset' := numberBySuitBitset[suit := Or(numberBySuitBitset[suit], AsBit(number))];
  }

  /** The tally loop of `evaluate_hand`. */
  method TallyCards(cards: seq<Card>)
    returns (countBySuit: seq<int>, countByNumber: seq<int>, numberBitset: u16, numberBySuitBitset: seq<u16>)
    ensures SuitCountsAre(multiset(cards), countBySuit) && CountsAre(multiset(cards), countByNumber)
    ensures numberBitset == Mask16(Ranks(multiset(cards))) && SuitBitsetsAre(multiset(cards), numberBySuitBitset)
  {
    countBySuit := [0, 0, 0, 0];
    countByNumber := seq(15, _ => 0);
    numberBitset := 0;
    numberBySuitBitset := [0, 0, 0, 0];
    TalliesEmpty();
    BitsetsEmpty();
    for i := 0 to |cards|
      invariant SuitCountsAre(multiset(cards[..i]), countBySuit) && CountsAre(multiset(cards[..i]), countByNumber)
      invariant numberBitset == Mask16(Ranks(multiset(cards[..i])))
      invariant SuitBitsetsAre(multiset(cards[..i]), numberBySuitBitset)
    {
      PrefixStep(cards, i);
      countBySuit, countByNumber := CountCard(multiset(cards[..i]), countBySuit, countByNumber, cards[i]);
      numberBitset, numberBySuitBitset := MarkCard(multiset(cards[..i]), numberBitset, numberBySuitBitset, cards[i]);
    }
    assert cards[..|cards|] == cards;
  }

  /** The four of a kind branch of `evaluate_hand`: the highest other
      number is the kicker. */
  method FourOfAKindHand(ghost m: multiset<Card>, numberBitset: u16, highCard: Number) returns (e: HandEvaluation)
    requires SevenCards(m) && Bits16(numberBitset) == Ranks(m)
    requires highCard in NumbersWithCount(m, 4)
    ensures Ranks(m) - {highCard as int} != {}
    ensures e == NewFourOfAKind(highCard, Max(Ranks(m) - {highCard as int}))
  {
    FourOfAKindKicker(m, numberBitset, highCard);
    var kicker := HighestCardInSet(And(numberBitset, Not16(AsBit(highCard))));
    return NewFourOfAKind(highCard, kicker);
  }

  /** The three of a kind branch of `evaluate_hand`: the two highest other
      numbers are the kickers. */
  method ThreeOfAKindHand(ghost m: multiset<Card>, numberBitset: u16, highCard: Number) returns (e: HandEvaluation)
    requires SevenCards(m) && Bits16(numberBitset) == Ranks(m)
    requires highCard in NumbersWithCount(m, 3) && PairsBesides(m, highCard) == {}
    ensures e == NewThreeOfAKind(highCard, Mask16(TopK(Ranks(m) - {highCard as int}, 2)))
  {
    ThreeOfAKindKickers(m, numberBitset, highCard);
    var kickers: u16 := numberBitset;
    kickers := And(kickers, Not16(AsBit(highCard)));
    kickers := ClearTwoLowest(kickers, Ranks(m) - {highCard as int}, 2);
    return NewThreeOfAKind(highCard, kickers);
  }

  /** The two pair branch of `evaluate_hand`: the highest number other than
      the two pairs' is the kicker. */
  method TwoPairHand(ghost m: multiset<Card>, numberBitset: u16, highCard: Number, lowCard: Number) returns (e: HandEvaluation)
    requires SevenCards(m) && Bits16(numberBitset) == Ranks(m)
    requires highCard in NumbersWithCount(m, 2) && lowCard in NumbersWithCount(m, 2)
    requires highCard != lowCard
    ensures Ranks(m) - {highCard as int, lowCard as int} != {}
    ensures e == NewTwoPair(highCard, lowCard, Max(Ranks(m) - {highCard as int, lowCard as int}))
  {
    TwoPairKickerExists(m, highCard, lowCard);
    var bitset: u16 := numberBitset;
    RemoveNumber(bitset, highCard);
    bitset := And(bitset, Not16(AsBit(highCard)));
    RemoveNumber(bitset, lowCard);
    bitset := And(bitset, Not16(AsBit(lowCard)));
    assert Bits16(bitset) == Ranks(m) - {highCard as int, lowCard as int};
    var kicker := HighestCardInSet(bitset);
    return NewTwoPair(highCard, lowCard, kicker);
  }

  /** The single pair branch of `evaluate_hand`: the three highest other
      numbers are the kickers. */
  method PairHand(ghost m: multiset<Card>, numberBitset: u16, highCard: Number) returns (e: HandEvaluation)
    requires SevenCards(m) && Bits16(numberBitset) == Ranks(m)
    requires NumbersWithCount(m, 4) == {} && NumbersWithCount(m, 3) == {}
    requires highCard in NumbersWithCount(m, 2) && NumbersWithCount(m, 2) - {highCard as int} == {}
    ensures e == NewPair(highCard, Mask16(TopK(Ranks(m) - {highCard as int}, 3)))
  {
    PairKickers(m, numberBitset, highCard);
    var kickers: u16 := numberBitset;
    kickers := And(kickers, Not16(AsBit(highCard)));
    kickers := ClearTwoLowest(kickers, Ranks(m) - {highCard as int}, 3);
    return NewPair(highCard, kickers);
  }

  /** The high card branch of `evaluate_hand`: the five highest numbers. */
  method HighCardHand(ghost m: multiset<Card>, numberBitset: u16) returns (e: HandEvaluation)
    requires SevenCards(m) && Bits16(numberBitset) == Ranks(m)
    requires NumbersWithCount(m, 4) == {} && NumbersWithCount(m, 3) == {}
    requires NumbersWithCount(m, 2) == {}
    ensures e == NewHighCard(Mask16(TopK(Ranks(m), 5)))
  {
    HighCardKickers(m);
    var fiveHighestCards: u16 := numberBitset;
    fiveHighestCards := ClearTwoLowest(fiveHighestCards, Ranks(m), 5);
    return NewHighCard(fiveHighestCards);
  }

  /** `evaluate_hand`: tally the seven cards, then test the categories from
      the highest down and score the hand in the first one it makes. */
  method EvaluateHand(cards: seq<Card>) returns (e: HandEvaluation)
    requires IsHand(cards)
    ensures e == HandValue(cards)
  {
    ghost var m := multiset(cards);
    HandCards(cards);
    var countBySuit, countByNumber, numberBitset, numberBySuitBitset := TallyCards(cards);
    BitsOfMask(Ranks(m));

    // Straight flush.
    var straightFlush := FindStraightFlush(m, numberBySuitBitset);
    if straightFlush.Some? {
      return NewStraightFlush(straightFlush.value);
    }

    // Four of a kind.
    var fourOfAKind := FindFourOfAKind(countByNumber);
    HighestWithCountIsMax(m, countByNumber, 4, fourOfAKind);
    if fourOfAKind.Some? {
      e := FourOfAKindHand(m, numberBitset, fourOfAKind.value);
      return;
    }

    // Full house: the highest three of a kind and the highest other number
    // held twice or more.
    var threeOfAKind := CheckForThreeOfAKind(countByNumber);
    HighestWithCountIsMax(m, countByNumber, 3, threeOfAKind);
    if threeOfAKind.Some? {
      var lowCard := FindFullHousePair(countByNumber, threeOfAKind.value);
      FullHousePairIsMax(m, countByNumber, threeOfAKind.value, lowCard);
      if lowCard.Some? {
        return NewFullHouse(threeOfAKind.value, lowCard.value);
      }
    }

    // Flush.
    var flush := FindFlush(m, countBySuit, numberBySuitBitset);
    if flush.Some? {
      return NewFlush(flush.value);
    }

    // Straight.
    var straight := CheckForStraight(numberBitset);
    if straight.Some? {
      return NewStraight(straight.value);
    }

    // Three of a kind.
    if threeOfAKind.Some? {
      e := ThreeOfAKindHand(m, numberBitset, threeOfAKind.value);
      return;
    }

    // Two pair and pair.
    var pair := CheckForPair(countByNumber);
    HighestWithCountIsMax(m, countByNumber, 2, pair);
    if pair.Some? {
      var highCard := pair.value;
      var second := FindSecondPair(countByNumber, highCard);
      SecondPairIsMax(m, countByNumber, highCard, second);
      if second.Some? {
        e := TwoPairHand(m, numberBitset, highCard, second.value);
        return;
      }
      e := PairHand(m, numberBitset, highCard);
      return;
    }

    // High card.
    e := HighCardHand(m, numberBitset);
  }
}
