/** `compute_result`: hand 1 against hand 2 over every five-card board dealt
    from the cards that neither hand holds. */
module Equity {
  import opened Wrappers
  import opened Cards
  import opened Evaluation
  import opened Evaluator

  /** The two hole cards of a hand, `[Card; 2]`. */
  type Hole = s: seq<Card> | |s| == 2 witness [RawCard(2), RawCard(3)]

  datatype ComputeResult = ComputeResult(winCount: nat, lossCount: nat, tieCount: nat, count: nat)

  /** No card occurs twice. */
  ghost predicate NoDup(s: seq<Card>)
  {
    forall i, j :: 0 <= i < j < |s| ==> s[i] != s[j]
  }

  // ---------------------------------------------------------------------------
  // The deck

  /** A card of the full deck, in the order the deck loop builds it: suit
      code by suit code, and within a suit from Two up to Ace. */
  function CardAt(i: int): (c: Card)
    requires 0 <= i < 52
    ensures c.value == 16 * (i / 13) + i % 13 + 2
  {
    NewCard(SuitFromU8Unchecked(i / 13), i % 13 + 2)
  }

  function FullDeck(): (s: seq<Card>)
    ensures |s| == 52
  {
    var s: seq<Card> := seq(52, i requires 0 <= i < 52 => CardAt(i));
    s
  }

  /** The card is none of the four hole cards. */
  predicate Outside(c: Card, hand1: Hole, hand2: Hole)
  {
    c != hand1[0] && c != hand1[1] && c != hand2[0] && c != hand2[1]
  }

  /** The cards of `s` outside both hands, in order. */
  function Kept(s: seq<Card>, hand1: Hole, hand2: Hole): (r: seq<Card>)
    ensures |r| <= |s|
    decreases |s|
  {
    if |s| == 0 then []
    else
      var last := s[|s| - 1];
      Kept(s[..|s| - 1], hand1, hand2) + if Outside(last, hand1, hand2) then [last] else []
  }

  /** The deck `compute_result` deals boards from. */
  function Deck(hand1: Hole, hand2: Hole): seq<Card>
  {
    Kept(FullDeck(), hand1, hand2)
  }

  /** The position of a suit code and a number in the full deck. */
  lemma CardAtParts(suit: int, number: int)
    requires 0 <= suit < 4 && 2 <= number <= 14
    ensures 0 <= 13 * suit + number - 2 < 52
    ensures CardAt(13 * suit + number - 2) == NewCard(SuitFromU8Unchecked(suit), number)
  {
    var i := 13 * suit + number - 2;
    assert i / 13 == suit && i % 13 == number - 2;
  }

  /** Every card is in the full deck. */
  lemma InFullDeck(c: Card)
    ensures c in FullDeck()
  {
    var code := SuitCode(CardSuit(c));
    CardAtParts(code, CardNumber(c));
    SuitRoundTrip(CardSuit(c));
    CardFromParts(c);
    assert FullDeck()[13 * code + CardNumber(c) - 2] == c;
  }

  /** The full deck holds each card once. */
  lemma FullDeckNoDup()
    ensures NoDup(FullDeck())
  {
    forall i, j | 0 <= i < j < 52 ensures CardAt(i) != CardAt(j) {
      if CardAt(i) == CardAt(j) {
        CardAtInjective(i, j);
      }
    }
  }

  lemma CardAtInjective(i: int, j: int)
    requires 0 <= i < 52 && 0 <= j < 52 && 16 * (i / 13) + i % 13 == 16 * (j / 13) + j % 13
    ensures i == j
  {
    var qi, ri, qj, rj := i / 13, i % 13, j / 13, j % 13;
    assert 16 * qi + ri == 16 * qj + rj && 0 <= ri < 13 && 0 <= rj < 13;
    assert qi == qj;
  }

  /** `Kept` grows by one step at a time. */
  lemma KeptStep(s: seq<Card>, k: int, hand1: Hole, hand2: Hole)
    requires 0 <= k < |s|
    ensures Kept(s[..k + 1], hand1, hand2)
         == Kept(s[..k], hand1, hand2) + if Outside(s[k], hand1, hand2) then [s[k]] else []
  {
    assert s[..k + 1][..k] == s[..k];
  }

  /** Exactly the cards outside both hands are kept. */
  lemma {:induction false} KeptMembers(s: seq<Card>, c: Card, hand1: Hole, hand2: Hole)
    ensures c in Kept(s, hand1, hand2) <==> c in s && Outside(c, hand1, hand2)
    decreases |s|
  {
    if |s| > 0 {
      var init := s[..|s| - 1];
      assert s == init + [s[|s| - 1]];
      KeptMembers(init, c, hand1, hand2);
    }
  }

  /** Keeping cards of a sequence without repeats gives one without repeats. */
  lemma {:induction false} KeptNoDup(s: seq<Card>, hand1: Hole, hand2: Hole)
    requires NoDup(s)
    ensures NoDup(Kept(s, hand1, hand2))
    decreases |s|
  {
    if |s| > 0 {
      var init := s[..|s| - 1];
      var last := s[|s| - 1];
      assert NoDup(init);
      KeptNoDup(init, hand1, hand2);
      KeptMembers(init, last, hand1, hand2);
      assert last !in init;
    }
  }

  /** A sequence without repeats holds each card at most once. */
  lemma {:induction false} NoDupOnce(s: seq<Card>, x: Card)
    requires NoDup(s)
    ensures multiset(s)[x] <= 1
    decreases |s|
  {
    if |s| > 0 {
      var init := s[..|s| - 1];
      var last := s[|s| - 1];
      assert s == init + [last];
      assert NoDup(init);
      NoDupOnce(init, x);
      if last == x {
        assert x !in init;
      }
    }
  }

  /** How many times the four hole cards occur in `s`. */
  function Hits(s: seq<Card>, hand1: Hole, hand2: Hole): nat
  {
    var m := multiset(s);
    m[hand1[0]] + m[hand1[1]] + m[hand2[0]] + m[hand2[1]]
  }

  /** With four different hole cards, every occurrence of one is dropped. */
  lemma {:induction false} KeptSize(s: seq<Card>, hand1: Hole, hand2: Hole)
    requires hand1[0] != hand1[1] && hand1[0] != hand2[0] && hand1[0] != hand2[1]
    requires hand1[1] != hand2[0] && hand1[1] != hand2[1] && hand2[0] != hand2[1]
    ensures |Kept(s, hand1, hand2)| + Hits(s, hand1, hand2) == |s|
    decreases |s|
  {
    if |s| > 0 {
      var init := s[..|s| - 1];
      assert s == init + [s[|s| - 1]];
      KeptSize(init, hand1, hand2);
    }
  }

  /** The deck is exactly the cards outside both hands, each once. */
  lemma DeckIs(hand1: Hole, hand2: Hole)
    ensures forall c: Card :: c in Deck(hand1, hand2) <==> Outside(c, hand1, hand2)
    ensures NoDup(Deck(hand1, hand2))
  {
    forall c: Card ensures c in Deck(hand1, hand2) <==> Outside(c, hand1, hand2) {
      KeptMembers(FullDeck(), c, hand1, hand2);
      InFullDeck(c);
    }
    FullDeckNoDup();
    KeptNoDup(FullDeck(), hand1, hand2);
  }

  /** The four hole cards, one by one. */
  lemma HolesDifferent(hand1: Hole, hand2: Hole)
    requires NoDup(hand1 + hand2)
    ensures hand1[0] != hand1[1] && hand1[0] != hand2[0] && hand1[0] != hand2[1]
    ensures hand1[1] != hand2[0] && hand1[1] != hand2[1] && hand2[0] != hand2[1]
  {
    var h := hand1 + hand2;
    assert h[0] == hand1[0] && h[1] == hand1[1] && h[2] == hand2[0] && h[3] == hand2[1];
  }

  /** Four different hole cards leave a deck of 48. */
  lemma DeckSize(hand1: Hole, hand2: Hole)
    requires NoDup(hand1 + hand2)
    ensures |Deck(hand1, hand2)| == 48
  {
    HolesDifferent(hand1, hand2);
    KeptSize(FullDeck(), hand1, hand2);
    FullDeckNoDup();
    forall x | x in hand1 + hand2 ensures multiset(FullDeck())[x] == 1 {
      InFullDeck(x);
      NoDupOnce(FullDeck(), x);
    }
  }

  /** The deck is the same with the hands exchanged. */
  lemma {:induction false} KeptSymmetric(s: seq<Card>, hand1: Hole, hand2: Hole)
    ensures Kept(s, hand1, hand2) == Kept(s, hand2, hand1)
    decreases |s|
  {
    if |s| > 0 {
      KeptSymmetric(s[..|s| - 1], hand1, hand2);
    }
  }

  /** The cards of suit code `suit` with numbers below `number` that neither
      hand holds, in the order the deck loop meets them. */
  function SuitUpTo(suit: int, number: int, hand1: Hole, hand2: Hole): seq<Card>
    requires 0 <= suit < 4 && 2 <= number <= 15
    decreases number
  {
    if number == 2 then []
    else
      var c := NewCard(SuitFromU8Unchecked(suit), number - 1);
      SuitUpTo(suit, number - 1, hand1, hand2) + if Outside(c, hand1, hand2) then [c] else []
  }

  /** The cards of the suit codes below `suit` that neither hand holds. */
  function SuitsUpTo(suit: int, hand1: Hole, hand2: Hole): seq<Card>
    requires 0 <= suit <= 4
  {
    if suit == 0 then [] else SuitsUpTo(suit - 1, hand1, hand2) + SuitUpTo(suit - 1, 15, hand1, hand2)
  }

  /** The cards outside both hands among the first `n` cards of the full deck. */
  function DeckUpTo(n: nat, hand1: Hole, hand2: Hole): seq<Card>
    requires n <= 52
  {
    if n == 0 then []
    else DeckUpTo(n - 1, hand1, hand2) + if Outside(CardAt(n - 1), hand1, hand2) then [CardAt(n - 1)] else []
  }

  /** All 52 cards seen, that is the deck. */
  lemma DeckUpToAll(hand1: Hole, hand2: Hole)
    ensures DeckUpTo(52, hand1, hand2) == Deck(hand1, hand2)
  {
    DeckUpToKept(52, hand1, hand2);
    WholePrefix(FullDeck());
  }

  lemma {:induction false} DeckUpToKept(n: nat, hand1: Hole, hand2: Hole)
    requires n <= 52
    ensures DeckUpTo(n, hand1, hand2) == Kept(FullDeck()[..n], hand1, hand2)
    decreases n
  {
    if n > 0 {
      DeckUpToKept(n - 1, hand1, hand2);
      KeptStep(FullDeck(), n - 1, hand1, hand2);
    }
  }

  lemma WholePrefix<T>(s: seq<T>)
    ensures s[..|s|] == s
  {
  }

  /** What the outer deck loop has kept after `suit` suit codes is the first
      `13 * suit` cards of the full deck, without the hole cards. */
  lemma {:induction false} DealtSuits(suit: int, hand1: Hole, hand2: Hole)
    requires 0 <= suit <= 4
    ensures SuitsUpTo(suit, hand1, hand2) == DeckUpTo(13 * suit, hand1, hand2)
  {
    if suit > 0 {
      DealtSuits(suit - 1, hand1, hand2);
      DealtRow(suit - 1, 15, 13 * suit, hand1, hand2);
    }
  }

  /** What the inner deck loop adds for the numbers below `number` of one
      suit code is the next cards of the full deck, up to the `n`th, without
      the hole cards. */
  lemma {:induction false} DealtRow(suit: int, number: int, n: nat, hand1: Hole, hand2: Hole)
    requires 0 <= suit < 4 && 2 <= number <= 15 && n == 13 * suit + number - 2
    ensures DeckUpTo(13 * suit, hand1, hand2) + SuitUpTo(suit, number, hand1, hand2) == DeckUpTo(n, hand1, hand2)
    decreases number
  {
    var done := DeckUpTo(13 * suit, hand1, hand2);
    if number == 2 {
      assert n == 13 * suit;
      assert done + [] == done;
      assert done + SuitUpTo(suit, number, hand1, hand2) == DeckUpTo(n, hand1, hand2);
    } else {
      var c := CardAt(n - 1);
      DealtRow(suit, number - 1, n - 1, hand1, hand2);
      DealtNextNumber(suit, number, n, hand1, hand2);
      var row, next := SuitUpTo(suit, number - 1, hand1, hand2), if Outside(c, hand1, hand2) then [c] else [];
      AppendAssoc(done, row, next);
      assert DeckUpTo(n, hand1, hand2) == DeckUpTo(n - 1, hand1, hand2) + next;
      assert done + SuitUpTo(suit, number, hand1, hand2) == DeckUpTo(n, hand1, hand2);
    }
  }

  lemma AppendAssoc<T>(a: seq<T>, b: seq<T>, c: seq<T>)
    ensures a + (b + c) == (a + b) + c
  {
  }

  /** The inner loop's step: the next number of the current suit code adds
      the next card of the full deck, unless a hand holds it. */
  lemma DealtNextNumber(suit: int, number: int, n: nat, hand1: Hole, hand2: Hole)
    requires 0 <= suit < 4 && 2 < number <= 15 && n == 13 * suit + number - 2
    ensures var c := CardAt(n - 1);
      SuitUpTo(suit, number, hand1, hand2) == SuitUpTo(suit, number - 1, hand1, hand2) + if Outside(c, hand1, hand2) then [c] else []
  {
    CardAtParts(suit, number - 1);
  }

  /** Once all four suit codes are done, that is the whole deck. */
  lemma DealtAll(hand1: Hole, hand2: Hole)
    ensures SuitsUpTo(4, hand1, hand2) == Deck(hand1, hand2)
  {
    DealtSuits(4, hand1, hand2);
    DeckUpToAll(hand1, hand2);
  }

  /** The deck loop of `compute_result`: every suit, every number from Two to
      Ace, skipping the four hole cards. */
  method BuildDeck(hand1: Hole, hand2: Hole) returns (deck: seq<Card>)
    ensures deck == Deck(hand1, hand2)
  {
    deck := [];
    for suit := 0 to 4
      invariant deck == SuitsUpTo(suit, hand1, hand2)
    {
      deck := DealSuit(suit, hand1, hand2, deck);
    }
    DealtAll(hand1, hand2);
  }

  /** The inner deck loop, for one suit code: the numbers Two to Ace in
      order, each card added unless one of the hands holds it. */
  method DealSuit(suit: int, hand1: Hole, hand2: Hole, done: seq<Card>) returns (deck: seq<Card>)
    requires 0 <= suit < 4
    ensures deck == done + SuitUpTo(suit, 15, hand1, hand2)
  {
    deck := done;
    for number := 2 to 15
      invariant deck == done + SuitUpTo(suit, number, hand1, hand2)
    {
      var card := NewCard(SuitFromU8(suit).value, NumberFromU8(number).value);
      if card != hand1[0] && card != hand1[1] && card != hand2[0] && card != hand2[1] {
        AppendAssoc(done, SuitUpTo(suit, number, hand1, hand2), [card]);
        deck := deck + [card];
      }
    }
  }

  // ---------------------------------------------------------------------------
  // Boards

  /** The sequence of `x` put in front of each of `bs`. */
  function Prepend(x: Card, bs: seq<seq<Card>>): (r: seq<seq<Card>>)
    ensures |r| == |bs|
    ensures forall i :: 0 <= i < |r| ==> r[i] == [x] + bs[i]
  {
    seq(|bs|, i requires 0 <= i < |bs| => [x] + bs[i])
  }

  /** `tuple_combinations` of length `k`: every choice of `k` cards of `s` in
      the order they come in `s`, the choices listed lexicographically by
      position. */
  function Combinations(s: seq<Card>, k: nat): (r: seq<seq<Card>>)
    ensures forall i :: 0 <= i < |r| ==> |r[i]| == k
    ensures forall i, x :: 0 <= i < |r| && x in r[i] ==> x in s
    decreases |s|
  {
    if k == 0 then [[]]
    else if |s| == 0 then []
    else
      assert forall x :: x in s[1..] ==> x in s;
      Prepend(s[0], Combinations(s[1..], k - 1)) + Combinations(s[1..], k)
  }

  /** The binomial coefficient, by Pascal's rule. */
  function Binomial(n: nat, k: nat): nat
  {
    if k == 0 then 1
    else if n == 0 then 0
    else Binomial(n - 1, k - 1) + Binomial(n - 1, k)
  }

  /** There are `Binomial(|s|, k)` boards. */
  lemma {:induction false} CombinationsCount(s: seq<Card>, k: nat)
    ensures |Combinations(s, k)| == Binomial(|s|, k)
    decreases |s|
  {
    if k > 0 && |s| > 0 {
      var rest := s[1..];
      CombinationsCount(rest, k - 1);
      CombinationsCount(rest, k);
      assert |Combinations(s, k)| == |Prepend(s[0], Combinations(rest, k - 1))| + |Combinations(rest, k)|;
    }
  }

  /** The boards of a sequence without repeats have no repeats. */
  lemma {:induction false} CombinationsNoDup(s: seq<Card>, k: nat)
    requires NoDup(s)
    ensures forall i :: 0 <= i < |Combinations(s, k)| ==> NoDup(Combinations(s, k)[i])
    decreases |s|
  {
    if k > 0 && |s| > 0 {
      var rest := s[1..];
      assert NoDup(rest);
      assert s[0] !in rest;
      CombinationsNoDup(rest, k - 1);
      CombinationsNoDup(rest, k);
      var r := Combinations(s, k);
      var with := Prepend(s[0], Combinations(rest, k - 1));
      forall i | 0 <= i < |r| ensures NoDup(r[i]) {
        if i < |with| {
          PrependNoDup(s[0], Combinations(rest, k - 1)[i], rest);
        } else {
          assert r[i] == Combinations(rest, k)[i - |with|];
        }
      }
    }
  }

  /** From a sequence without repeats, no two boards hold the same cards, so
      each choice of `k` cards is listed at most once. */
  lemma {:induction false} CombinationsDistinct(s: seq<Card>, k: nat)
    requires NoDup(s)
    ensures forall i, j :: 0 <= i < j < |Combinations(s, k)| ==>
              multiset(Combinations(s, k)[i]) != multiset(Combinations(s, k)[j])
    decreases |s|
  {
    if k > 0 && |s| > 0 {
      var rest := s[1..];
      assert NoDup(rest);
      assert s[0] !in rest;
      CombinationsDistinct(rest, k - 1);
      CombinationsDistinct(rest, k);
      var shorter := Combinations(rest, k - 1);
      var longer := Combinations(rest, k);
      var with := Prepend(s[0], shorter);
      var r := Combinations(s, k);
      assert r == with + longer;
      forall i, j | 0 <= i < j < |r| ensures multiset(r[i]) != multiset(r[j]) {
        if j < |with| {
          assert r[i] == [s[0]] + shorter[i] && r[j] == [s[0]] + shorter[j];
          if multiset(r[i]) == multiset(r[j]) {
            PrependCancel(s[0], shorter[i], shorter[j]);
          }
        } else if i < |with| {
          assert r[i] == [s[0]] + shorter[i];
          assert s[0] in multiset(r[i]);
          assert r[j] == longer[j - |with|];
          assert s[0] !in multiset(r[j]);
        } else {
          assert r[i] == longer[i - |with|] && r[j] == longer[j - |with|];
        }
      }
    }
  }

  /** The same card in front of two boards cancels. */
  lemma PrependCancel(x: Card, a: seq<Card>, b: seq<Card>)
    requires multiset([x] + a) == multiset([x] + b)
    ensures multiset(a) == multiset(b)
  {
    assert multiset([x] + a) == multiset{x} + multiset(a);
    assert multiset([x] + b) == multiset{x} + multiset(b);
    forall y ensures multiset(a)[y] == multiset(b)[y] {
      assert multiset([x] + a)[y] == multiset([x] + b)[y];
    }
  }

  lemma PrependNoDup(x: Card, b: seq<Card>, rest: seq<Card>)
    requires NoDup(b) && x !in rest && forall y :: y in b ==> y in rest
    ensures NoDup([x] + b)
  {
    assert x !in b;
  }

  /** The falling factorial `n * (n - 1) * ... * (n - k + 1)`. */
  function Falling(n: int, k: nat): int
    decreases k
  {
    if k == 0 then 1 else n * Falling(n - 1, k - 1)
  }

  function Factorial(k: nat): nat
  {
    if k == 0 then 1 else k * Factorial(k - 1)
  }

  lemma {:induction false} FallingLast(n: int, k: nat)
    ensures Falling(n, k + 1) == Falling(n, k) * (n - k)
    decreases k
  {
    if k > 0 {
      FallingLast(n - 1, k - 1);
      calc {
        Falling(n, k + 1);
        n * Falling(n - 1, k);
        n * (Falling(n - 1, k - 1) * (n - k));
        { MulAssoc(n, Falling(n - 1, k - 1), n - k); }
        (n * Falling(n - 1, k - 1)) * (n - k);
      }
    }
  }

  lemma MulAssoc(a: int, b: int, c: int)
    ensures a * (b * c) == (a * b) * c
  {
  }

  lemma PascalStep(f: int, b1: int, b2: int, n: int, k: nat)
    requires Factorial(k) * b1 == f && Factorial(k + 1) * b2 == f * (n - k)
    ensures Factorial(k + 1) * (b1 + b2) == (n + 1) * f
  {
    assert Factorial(k + 1) == (k + 1) * Factorial(k);
    calc {
      Factorial(k + 1) * (b1 + b2);
      (k + 1) * (Factorial(k) * b1) + Factorial(k + 1) * b2;
      (k + 1) * f + f * (n - k);
    }
  }

  /** The product formula for binomial coefficients. */
  lemma {:induction false} BinomialProduct(n: nat, k: nat)
    ensures Factorial(k) * Binomial(n, k) == Falling(n, k)
    decreases n, k
  {
    if k > 0 {
      if n == 0 {
        assert Falling(0, k) == 0 * Falling(-1, k - 1);
      } else {
        BinomialProduct(n - 1, k - 1);
        BinomialProduct(n - 1, k);
        FallingLast(n - 1, k - 1);
        PascalStep(Falling(n - 1, k - 1), Binomial(n - 1, k - 1), Binomial(n - 1, k), n - 1, k - 1);
      }
    }
  }

  /** There are 1,712,304 five-card boards from 48 cards. */
  lemma FiveOfFortyEight()
    ensures Binomial(48, 5) == 1712304
  {
    BinomialProduct(48, 5);
    FallingFortyEight();
    DivideOut(Factorial(5), Binomial(48, 5));
  }

  lemma FallingFortyEight()
    ensures Falling(48, 5) == 205476480
  {
    assert Falling(44, 1) == 44;
    assert Falling(45, 2) == 1980;
    assert Falling(46, 3) == 91080;
    assert Falling(47, 4) == 4280760;
  }

  lemma DivideOut(f: int, b: int)
    requires f == 120 && f * b == 205476480
    ensures b == 1712304
  {
  }

  // ---------------------------------------------------------------------------
  // The tally

  /** The seven cards of a board and two hole cards, as the source lays them
      out: the board first. */
  function Seven(board: seq<Card>, hand: Hole): seq<Card>
  {
    board + [hand[0], hand[1]]
  }

  /** The hand makes a hand of seven different cards with the board. */
  ghost predicate Playable(board: seq<Card>, hand: Hole)
  {
    IsHand(Seven(board, hand))
  }

  /** One board's outcome added to the counters. */
  function Record(r: ComputeResult, o: Ordering): (r': ComputeResult)
    ensures r'.count == r.count + 1
    ensures r'.winCount == r.winCount + (if o == Greater then 1 else 0)
    ensures r'.lossCount == r.lossCount + (if o == Less then 1 else 0)
    ensures r'.tieCount == r.tieCount + (if o == Equal then 1 else 0)
  {
    match o
    case Equal => r.(tieCount := r.tieCount + 1, count := r.count + 1)
    case Greater => r.(winCount := r.winCount + 1, count := r.count + 1)
    case Less => r.(lossCount := r.lossCount + 1, count := r.count + 1)
  }

  /** How hand 1 fares against hand 2 on a board. */
  ghost function Outcome(board: seq<Card>, hand1: Hole, hand2: Hole): Ordering
    requires Playable(board, hand1) && Playable(board, hand2)
  {
    Compare(HandValue(Seven(board, hand1)), HandValue(Seven(board, hand2)))
  }

  /** Both hands make a hand of seven different cards with every board. */
  ghost predicate AllPlayable(boards: seq<seq<Card>>, hand1: Hole, hand2: Hole)
  {
    forall i :: 0 <= i < |boards| ==> Playable(boards[i], hand1) && Playable(boards[i], hand2)
  }

  /** The outcomes on the first `n` boards, in order. */
  ghost function Outcomes(boards: seq<seq<Card>>, n: nat, hand1: Hole, hand2: Hole): (r: seq<Ordering>)
    requires AllPlayable(boards, hand1, hand2) && n <= |boards|
    ensures |r| == n
  {
    if n == 0 then [] else Outcomes(boards, n - 1, hand1, hand2) + [Outcome(boards[n - 1], hand1, hand2)]
  }

  /** The counters after the outcomes `outs`, in order. */
  function Tally(outs: seq<Ordering>): (r: ComputeResult)
    ensures r.winCount + r.lossCount + r.tieCount == r.count == |outs|
  {
    if |outs| == 0 then ComputeResult(0, 0, 0, 0)
    else Record(Tally(outs[..|outs| - 1]), outs[|outs| - 1])
  }

  /** One more outcome is recorded on top of the earlier ones. */
  lemma TallyStep(outs: seq<Ordering>, o: Ordering)
    ensures Tally(outs + [o]) == Record(Tally(outs), o)
  {
    assert (outs + [o])[..|outs|] == outs;
  }

  /** A board of five deck cards and two different hole cards are seven
      different cards. */
  lemma SevenDifferent(board: seq<Card>, hand: Hole, hand1: Hole, hand2: Hole)
    requires hand == hand1 || hand == hand2
    requires hand[0] != hand[1]
    requires |board| == 5 && NoDup(board)
    requires forall x :: x in board ==> Outside(x, hand1, hand2)
    ensures IsHand(Seven(board, hand))
  {
    var h := Seven(board, hand);
    forall i, j | 0 <= i < j < 7 ensures h[i] != h[j] {
      if j < 5 {
        assert h[i] == board[i] && h[j] == board[j];
      } else if i < 5 {
        assert h[i] in board;
      }
    }
  }

  /** The boards of the deck are playable by both hands. */
  lemma BoardsPlayable(hand1: Hole, hand2: Hole)
    requires hand1[0] != hand1[1] && hand2[0] != hand2[1]
    ensures AllPlayable(Combinations(Deck(hand1, hand2), 5), hand1, hand2)
  {
    var deck := Deck(hand1, hand2);
    DeckIs(hand1, hand2);
    CombinationsNoDup(deck, 5);
    var boards := Combinations(deck, 5);
    forall i | 0 <= i < |boards| ensures Playable(boards[i], hand1) && Playable(boards[i], hand2) {
      SevenDifferent(boards[i], hand1, hand1, hand2);
      SevenDifferent(boards[i], hand2, hand1, hand2);
    }
  }

  /** What `compute_result` returns. */
  ghost function Result(hand1: Hole, hand2: Hole): ComputeResult
    requires hand1[0] != hand1[1] && hand2[0] != hand2[1]
  {
    BoardsPlayable(hand1, hand2);
    var boards := Combinations(Deck(hand1, hand2), 5);
    Tally(Outcomes(boards, |boards|, hand1, hand2))
  }

  /** One board of `compute_result`: evaluate both seven-card hands and
      compare them. */
  method Showdown(board: seq<Card>, hand1: Hole, hand2: Hole) returns (o: Ordering)
    requires Playable(board, hand1) && Playable(board, hand2)
    ensures o == Outcome(board, hand1, hand2)
  {
    var aResult := EvaluateHand(Seven(board, hand1));
    var bResult := EvaluateHand(Seven(board, hand2));
    o := Compare(aResult, bResult);
  }

  /** The counting step of `compute_result`: one more tie, win or loss, and
      one more board. */
  method CountOutcome(outcome: Ordering, tieCount: nat, winCount: nat, lossCount: nat, count: nat)
    returns (tieCount': nat, winCount': nat, lossCount': nat, count': nat)
    ensures ComputeResult(winCount', lossCount', tieCount', count')
         == Record(ComputeResult(winCount, lossCount, tieCount, count), outcome)
  {
    tieCount', winCount', lossCount' := tieCount, winCount, lossCount;
    match outcome {
      case Equal => tieCount' := tieCount + 1;
      case Greater => winCount' := winCount + 1;
      case Less => lossCount' := lossCount + 1;
    }
    count' := count + 1;
  }

  /** `compute_result`: deal every five-card board from the deck and count
      the boards on which hand 1 scores higher, lower and the same as hand 2. */
  method ComputeResultOf(hand1: Hole, hand2: Hole) returns (r: ComputeResult)
    requires hand1[0] != hand1[1] && hand2[0] != hand2[1]
    ensures r == Result(hand1, hand2)
  {
    var deck := BuildDeck(hand1, hand2);
    BoardsPlayable(hand1, hand2);
    var tieCount, winCount, lossCount, count := 0, 0, 0, 0;
    var boards := Combinations(deck, 5);
    ghost var outs: seq<Ordering> := [];
    for i := 0 to |boards|
      invariant outs == Outcomes(boards, i, hand1, hand2)
      invariant ComputeResult(winCount, lossCount, tieCount, count) == Tally(outs)
    {
      var outcome := Showdown(boards[i], hand1, hand2);
      TallyStep(outs, outcome);
      outs := outs + [outcome];
      tieCount, winCount, lossCount, count := CountOutcome(outcome, tieCount, winCount, lossCount, count);
    }
    return ComputeResult(winCount, lossCount, tieCount, count);
  }

  // ---------------------------------------------------------------------------
  // What the counters satisfy

  /** Every board is a win, a loss or a tie, and there is one board per
      five-card choice from the deck. */
  lemma ResultCounts(hand1: Hole, hand2: Hole)
    requires hand1[0] != hand1[1] && hand2[0] != hand2[1]
    ensures Result(hand1, hand2).winCount + Result(hand1, hand2).lossCount + Result(hand1, hand2).tieCount
         == Result(hand1, hand2).count
    ensures Result(hand1, hand2).count == Binomial(|Deck(hand1, hand2)|, 5)
  {
    CombinationsCount(Deck(hand1, hand2), 5);
  }

  /** With four different hole cards there are 1,712,304 boards. */
  lemma ResultBoards(hand1: Hole, hand2: Hole)
    requires NoDup(hand1 + hand2)
    ensures hand1[0] != hand1[1] && hand2[0] != hand2[1]
    ensures Result(hand1, hand2).count == 1712304
  {
    HolesDifferent(hand1, hand2);
    DeckSize(hand1, hand2);
    FiveOfFortyEight();
    ResultCounts(hand1, hand2);
  }

  /** The result with the hands exchanged. */
  function Swapped(r: ComputeResult): ComputeResult
  {
    r.(winCount := r.lossCount, lossCount := r.winCount)
  }

  /** Every outcome seen from the other hand. */
  function ReverseAll(outs: seq<Ordering>): (r: seq<Ordering>)
  {
    seq(|outs|, i requires 0 <= i < |outs| => outs[i].Reverse())
  }

  /** Reversing every outcome exchanges wins and losses and keeps ties. */
  lemma {:induction false} TallySwap(outs: seq<Ordering>)
    ensures Tally(ReverseAll(outs)) == Swapped(Tally(outs))
    decreases |outs|
  {
    if |outs| > 0 {
      var init := outs[..|outs| - 1];
      TallySwap(init);
      assert ReverseAll(outs)[..|outs| - 1] == ReverseAll(init);
    }
  }

  /** Reversing one more outcome. */
  lemma ReverseAllStep(outs: seq<Ordering>, o: Ordering)
    ensures ReverseAll(outs + [o]) == ReverseAll(outs) + [o.Reverse()]
  {
  }

  /** Hand 2 against hand 1 is the reverse of hand 1 against hand 2. */
  lemma OutcomeSwap(board: seq<Card>, hand1: Hole, hand2: Hole)
    requires Playable(board, hand1) && Playable(board, hand2)
    ensures Outcome(board, hand2, hand1) == Outcome(board, hand1, hand2).Reverse()
  {
    CompareAntisymmetric(HandValue(Seven(board, hand1)), HandValue(Seven(board, hand2)));
  }

  /** On every board, hand 2 against hand 1 is the reverse of hand 1 against hand 2. */
  lemma {:induction false} OutcomesSwap(boards: seq<seq<Card>>, n: nat, hand1: Hole, hand2: Hole)
    requires AllPlayable(boards, hand1, hand2) && n <= |boards|
    ensures AllPlayable(boards, hand2, hand1)
    ensures Outcomes(boards, n, hand2, hand1) == ReverseAll(Outcomes(boards, n, hand1, hand2))
    decreases n
  {
    if n > 0 {
      OutcomesSwap(boards, n - 1, hand1, hand2);
      OutcomeSwap(boards[n - 1], hand1, hand2);
      ReverseAllStep(Outcomes(boards, n - 1, hand1, hand2), Outcome(boards[n - 1], hand1, hand2));
    }
  }

  /** Exchanging the hands exchanges wins and losses and keeps ties. */
  lemma ResultSwap(hand1: Hole, hand2: Hole)
    requires hand1[0] != hand1[1] && hand2[0] != hand2[1]
    ensures Result(hand2, hand1) == Swapped(Result(hand1, hand2))
  {
    KeptSymmetric(FullDeck(), hand1, hand2);
    BoardsPlayable(hand1, hand2);
    var boards := Combinations(Deck(hand1, hand2), 5);
    OutcomesSwap(boards, |boards|, hand1, hand2);
    TallySwap(Outcomes(boards, |boards|, hand1, hand2));
  }
}
