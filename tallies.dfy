/** What the evaluator tallies about a hand, stated on the multiset of its
    cards: how many cards each number and each suit has, and which numbers
    occur (overall and within a suit). */
module Tallies {
  import opened Cards
  import opened RankSets

  /** The number of cards with number `n`. */
  function Count(m: multiset<Card>, n: Number): nat
  {
    m[NewCard(Hearts, n)] + m[NewCard(Diamonds, n)] + m[NewCard(Clubs, n)] + m[NewCard(Spades, n)]
  }

  /** The number of cards of suit `s` with a number in `lo .. 14`. */
  function SuitCountFrom(m: multiset<Card>, s: Suit, lo: int): nat
    requires 2 <= lo
    decreases 15 - lo
  {
    if lo > 14 then 0 else m[NewCard(s, lo)] + SuitCountFrom(m, s, lo + 1)
  }

  /** The number of cards of suit `s`. */
  function SuitCount(m: multiset<Card>, s: Suit): nat
  {
    SuitCountFrom(m, s, 2)
  }

  /** The numbers that occur in the hand. */
  function Ranks(m: multiset<Card>): (r: set<int>)
    ensures Positions(r)
  {
    set n: int | 2 <= n <= 14 && Count(m, n) > 0
  }

  /** The numbers that occur in suit `s`. */
  function SuitRanks(m: multiset<Card>, s: Suit): (r: set<int>)
    ensures Positions(r)
  {
    set n: int | 2 <= n <= 14 && m[NewCard(s, n)] > 0
  }

  /** The suit stored at index `i` of the per-suit tallies. */
  function SuitAt(i: int): (s: Suit)
    requires 0 <= i < 4
    ensures SuitCode(s) == i
  {
    SuitFromU8Unchecked(i)
  }

  /** The suit at a suit's own code is that suit. */
  lemma SuitAtCode(s: Suit)
    ensures SuitAt(SuitCode(s)) == s
  {
    SuitRoundTrip(s);
  }

  /** `countBySuit` holds, at each suit code, the number of cards of that suit. */
  ghost predicate SuitCountsAre(m: multiset<Card>, countBySuit: seq<int>)
  {
    |countBySuit| == 4 && forall k :: 0 <= k < 4 ==> countBySuit[k] == SuitCount(m, SuitAt(k))
  }

  /** `countByNumber` holds, at each number, the number of cards with that
      number (indices 0 and 1 stay zero). */
  ghost predicate CountsAre(m: multiset<Card>, countByNumber: seq<int>)
  {
    |countByNumber| == 15 && countByNumber[0] == 0 && countByNumber[1] == 0 &&
    forall n: Number :: countByNumber[n] == Count(m, n)
  }

  /** No card occurs twice. */
  ghost predicate Distinct(m: multiset<Card>)
  {
    forall c: Card :: m[c] <= 1
  }

  // ---------------------------------------------------------------------------
  // Adding one card

  lemma MultiplicityAdd(m: multiset<Card>, c: Card, s: Suit, n: Number)
    ensures (m + multiset{c})[NewCard(s, n)]
         == m[NewCard(s, n)] + if CardSuit(c) == s && CardNumber(c) == n then 1 else 0
  {
    NewCardParts(s, n);
    CardFromParts(c);
  }

  lemma CountAdd(m: multiset<Card>, c: Card, n: Number)
    ensures Count(m + multiset{c}, n) == Count(m, n) + if CardNumber(c) == n then 1 else 0
  {
    MultiplicityAdd(m, c, Hearts, n);
    MultiplicityAdd(m, c, Diamonds, n);
    MultiplicityAdd(m, c, Clubs, n);
    MultiplicityAdd(m, c, Spades, n);
  }

  lemma {:induction false} SuitCountFromAdd(m: multiset<Card>, c: Card, s: Suit, lo: int)
    requires 2 <= lo
    ensures SuitCountFrom(m + multiset{c}, s, lo)
         == SuitCountFrom(m, s, lo) + if CardSuit(c) == s && lo <= CardNumber(c) then 1 else 0
    decreases 15 - lo
  {
    if lo <= 14 {
      MultiplicityAdd(m, c, s, lo);
      SuitCountFromAdd(m, c, s, lo + 1);
    }
  }

  lemma SuitCountAdd(m: multiset<Card>, c: Card, s: Suit)
    ensures SuitCount(m + multiset{c}, s) == SuitCount(m, s) + if CardSuit(c) == s then 1 else 0
  {
    SuitCountFromAdd(m, c, s, 2);
  }

  /** A card adds one to the count at its suit's code and nothing elsewhere. */
  lemma SuitCountAtAdd(m: multiset<Card>, c: Card, j: int)
    requires 0 <= j < 4
    ensures SuitCount(m + multiset{c}, SuitAt(j)) == SuitCount(m, SuitAt(j)) + if j == SuitCode(CardSuit(c)) then 1 else 0
  {
    SuitCountAdd(m, c, SuitAt(j));
    if j == SuitCode(CardSuit(c)) {
      SuitAtCode(CardSuit(c));
    }
  }

  /** Counting one more card of its suit keeps the suit counts. */
  lemma SuitCountsAdd(m: multiset<Card>, countBySuit: seq<int>, c: Card)
    requires SuitCountsAre(m, countBySuit)
    ensures var k := SuitCode(CardSuit(c));
      SuitCountsAre(m + multiset{c}, countBySuit[k := countBySuit[k] + 1])
  {
    forall j | 0 <= j < 4
      ensures SuitCount(m + multiset{c}, SuitAt(j)) == SuitCount(m, SuitAt(j)) + if j == SuitCode(CardSuit(c)) then 1 else 0
    {
      SuitCountAtAdd(m, c, j);
    }
  }

  /** Counting one more card of its number keeps the number counts. */
  lemma CountsAdd(m: multiset<Card>, countByNumber: seq<int>, c: Card)
    requires CountsAre(m, countByNumber)
    ensures var n := CardNumber(c);
      CountsAre(m + multiset{c}, countByNumber[n := countByNumber[n] + 1])
  {
    forall n: Number ensures Count(m + multiset{c}, n) == Count(m, n) + if CardNumber(c) == n then 1 else 0 {
      CountAdd(m, c, n);
    }
  }

  /** Before any card, every tally is zero. */
  lemma TalliesEmpty()
    ensures SuitCountsAre(multiset{}, [0, 0, 0, 0])
    ensures CountsAre(multiset{}, seq(15, _ => 0))
    ensures Ranks(multiset{}) == {}
    ensures forall s :: SuitRanks(multiset{}, s) == {}
  {
    forall s: Suit ensures SuitCount(multiset{}, s) == 0 {
      SuitCountFromEmpty(s, 2);
    }
  }

  lemma {:induction false} SuitCountFromEmpty(s: Suit, lo: int)
    requires 2 <= lo
    ensures SuitCountFrom(multiset{}, s, lo) == 0
    decreases 15 - lo
  {
    if lo <= 14 { SuitCountFromEmpty(s, lo + 1); }
  }

  lemma RanksAdd(m: multiset<Card>, c: Card)
    ensures Ranks(m + multiset{c}) == Ranks(m) + {CardNumber(c) as int}
  {
    forall n: Number ensures Count(m + multiset{c}, n) == Count(m, n) + if CardNumber(c) == n then 1 else 0 {
      CountAdd(m, c, n);
    }
  }

  lemma SuitRanksAdd(m: multiset<Card>, c: Card, s: Suit)
    ensures SuitRanks(m + multiset{c}, s)
         == SuitRanks(m, s) + if CardSuit(c) == s then {CardNumber(c) as int} else {}
  {
    forall n: Number
      ensures (m + multiset{c})[NewCard(s, n)] == m[NewCard(s, n)] + if CardSuit(c) == s && CardNumber(c) == n then 1 else 0
    {
      MultiplicityAdd(m, c, s, n);
    }
  }

  // ---------------------------------------------------------------------------
  // Sizes: how many cards have a number in `lo .. 14` outside `x`, and how
  // many different numbers those are

  function CountFrom(m: multiset<Card>, lo: int, x: set<int>): nat
    requires 2 <= lo
    decreases 15 - lo
  {
    if lo > 14 then 0
    else (if lo in x then 0 else Count(m, lo)) + CountFrom(m, lo + 1, x)
  }

  function RanksFrom(m: multiset<Card>, lo: int, x: set<int>): set<int>
  {
    set n: int | lo <= n <= 14 && 2 <= n && n !in x && Count(m, n) > 0
  }

  lemma RanksFromAll(m: multiset<Card>, x: set<int>)
    ensures RanksFrom(m, 2, x) == Ranks(m) - x
  {
  }

  lemma {:induction false} CountFromAdd(m: multiset<Card>, c: Card, lo: int, x: set<int>)
    requires 2 <= lo
    ensures CountFrom(m + multiset{c}, lo, x)
         == CountFrom(m, lo, x) + if lo <= CardNumber(c) && CardNumber(c) !in x then 1 else 0
    decreases 15 - lo
  {
    if lo <= 14 {
      CountAdd(m, c, lo);
      CountFromAdd(m, c, lo + 1, x);
    }
  }

  /** Every card has a number: the counts of all numbers add up to the hand size. */
  lemma {:induction false} CountTotal(cards: seq<Card>)
    ensures CountFrom(multiset(cards), 2, {}) == |cards|
  {
    if cards == [] {
      CountFromEmpty(2, {});
    } else {
      var init := cards[..|cards| - 1];
      assert cards == init + [cards[|cards| - 1]];
      assert multiset(cards) == multiset(init) + multiset{cards[|cards| - 1]};
      CountTotal(init);
      CountFromAdd(multiset(init), cards[|cards| - 1], 2, {});
    }
  }

  lemma {:induction false} CountFromEmpty(lo: int, x: set<int>)
    requires 2 <= lo
    ensures CountFrom(multiset{}, lo, x) == 0
    decreases 15 - lo
  {
    if lo <= 14 { CountFromEmpty(lo + 1, x); }
  }

  /** Setting one more number aside takes its cards out of the count. */
  lemma {:induction false} CountFromRemove(m: multiset<Card>, lo: int, x: set<int>, t: Number)
    requires 2 <= lo <= t && t !in x
    ensures CountFrom(m, lo, x) == CountFrom(m, lo, x + {t}) + Count(m, t)
    decreases 15 - lo
  {
    if lo < t {
      CountFromRemove(m, lo + 1, x, t);
    } else {
      CountFromSame(m, lo + 1, x, x + {t});
    }
  }

  lemma {:induction false} CountFromSame(m: multiset<Card>, lo: int, x: set<int>, y: set<int>)
    requires 2 <= lo
    requires forall n :: lo <= n <= 14 ==> (n in x <==> n in y)
    ensures CountFrom(m, lo, x) == CountFrom(m, lo, y)
    decreases 15 - lo
  {
    if lo <= 14 { CountFromSame(m, lo + 1, x, y); }
  }

  /** When no number outside `x` occurs twice, the cards outside `x` have
      different numbers, as many as there are cards. */
  lemma {:induction false} RanksFromSize(m: multiset<Card>, lo: int, x: set<int>)
    requires 2 <= lo
    requires forall n: Number :: lo <= n && n !in x ==> Count(m, n) <= 1
    ensures |RanksFrom(m, lo, x)| == CountFrom(m, lo, x)
    decreases 15 - lo
  {
    if lo > 14 {
      assert RanksFrom(m, lo, x) == {};
    } else {
      RanksFromSize(m, lo + 1, x);
      RanksFromStep(m, lo, x);
    }
  }

  lemma RanksFromStep(m: multiset<Card>, lo: Number, x: set<int>)
    ensures lo !in RanksFrom(m, lo + 1, x)
    ensures RanksFrom(m, lo, x)
         == RanksFrom(m, lo + 1, x) + if lo !in x && Count(m, lo) > 0 then {lo as int} else {}
  {
  }

  /** Some card outside `x` gives some number outside `x`. */
  lemma {:induction false} RanksFromNonEmpty(m: multiset<Card>, lo: int, x: set<int>)
    requires 2 <= lo
    requires CountFrom(m, lo, x) > 0
    ensures RanksFrom(m, lo, x) != {}
    decreases 15 - lo
  {
    if lo in x || Count(m, lo) == 0 {
      RanksFromNonEmpty(m, lo + 1, x);
      assert RanksFrom(m, lo + 1, x) <= RanksFrom(m, lo, x);
    } else {
      assert lo in RanksFrom(m, lo, x);
    }
  }

  function SuitRanksFrom(m: multiset<Card>, s: Suit, lo: int): set<int>
  {
    set n: int | lo <= n <= 14 && 2 <= n && m[NewCard(s, n)] > 0
  }

  /** Without repeated cards a suit has as many numbers as cards. */
  lemma {:induction false} SuitRanksFromSize(m: multiset<Card>, s: Suit, lo: int)
    requires 2 <= lo && Distinct(m)
    ensures |SuitRanksFrom(m, s, lo)| == SuitCountFrom(m, s, lo)
    decreases 15 - lo
  {
    if lo > 14 {
      assert SuitRanksFrom(m, s, lo) == {};
    } else {
      SuitRanksFromSize(m, s, lo + 1);
      SuitRanksFromStep(m, s, lo);
    }
  }

  lemma SuitRanksFromStep(m: multiset<Card>, s: Suit, lo: Number)
    ensures lo !in SuitRanksFrom(m, s, lo + 1)
    ensures SuitRanksFrom(m, s, lo)
         == SuitRanksFrom(m, s, lo + 1) + if m[NewCard(s, lo)] > 0 then {lo as int} else {}
  {
  }

  lemma SuitRanksSize(m: multiset<Card>, s: Suit)
    requires Distinct(m)
    ensures |SuitRanks(m, s)| == SuitCount(m, s)
  {
    SuitRanksFromSize(m, s, 2);
    assert SuitRanksFrom(m, s, 2) == SuitRanks(m, s);
  }

  /** Without repeated cards a number has at most one card per suit. */
  lemma CountBound(m: multiset<Card>, n: Number)
    requires Distinct(m)
    ensures Count(m, n) <= 4
  {
  }

  /** A sequence of different cards has a multiset without repetitions. */
  lemma {:induction false} DistinctCards(cards: seq<Card>)
    requires forall i, j :: 0 <= i < j < |cards| ==> cards[i] != cards[j]
    ensures Distinct(multiset(cards))
  {
    if cards != [] {
      var init := cards[..|cards| - 1];
      var last := cards[|cards| - 1];
      assert cards == init + [last];
      DistinctCards(init);
      assert last !in multiset(init);
    }
  }
}
