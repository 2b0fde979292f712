/** The poker categories of a seven-card hand, each defined on its own, and
    the first-match priority of `evaluate_hand`: the kind it reports is the
    best category the cards make. */
module Categories {
  import opened Wrappers
  import opened Cards
  import opened RankSets
  import opened Tallies
  import opened Evaluation
  import opened Evaluator

  // ---------------------------------------------------------------------------
  // The categories

  ghost predicate MakesStraightFlush(m: multiset<Card>)
  {
    exists s: Suit, h :: 5 <= h <= 14 && StraightTo(SuitRanks(m, s), h)
  }

  ghost predicate MakesFourOfAKind(m: multiset<Card>)
  {
    exists n: Number :: Count(m, n) >= 4
  }

  ghost predicate MakesFullHouse(m: multiset<Card>)
  {
    exists t: Number, p: Number :: t != p && Count(m, t) >= 3 && Count(m, p) >= 2
  }

  ghost predicate MakesFlush(m: multiset<Card>)
  {
    exists s: Suit :: SuitCount(m, s) >= 5
  }

  ghost predicate MakesStraight(m: multiset<Card>)
  {
    exists h :: 5 <= h <= 14 && StraightTo(Ranks(m), h)
  }

  ghost predicate MakesThreeOfAKind(m: multiset<Card>)
  {
    exists n: Number :: Count(m, n) >= 3
  }

  ghost predicate MakesTwoPair(m: multiset<Card>)
  {
    exists p: Number, l: Number :: p != l && Count(m, p) >= 2 && Count(m, l) >= 2
  }

  ghost predicate MakesPair(m: multiset<Card>)
  {
    exists n: Number :: Count(m, n) >= 2
  }

  /** The cards make category `k`. */
  ghost predicate Makes(m: multiset<Card>, k: HandKind)
  {
    match k
    case StraightFlush => MakesStraightFlush(m)
    case FourOfAKind => MakesFourOfAKind(m)
    case FullHouse => MakesFullHouse(m)
    case Flush => MakesFlush(m)
    case Straight => MakesStraight(m)
    case ThreeOfAKind => MakesThreeOfAKind(m)
    case TwoPair => MakesTwoPair(m)
    case Pair => MakesPair(m)
    case HighCard => true
  }

  /** No category above discriminant `d` is made. */
  ghost predicate NoneAbove(m: multiset<Card>, d: int)
  {
    && (d < 8 ==> !MakesStraightFlush(m))
    && (d < 7 ==> !MakesFourOfAKind(m))
    && (d < 6 ==> !MakesFullHouse(m))
    && (d < 5 ==> !MakesFlush(m))
    && (d < 4 ==> !MakesStraight(m))
    && (d < 3 ==> !MakesThreeOfAKind(m))
    && (d < 2 ==> !MakesTwoPair(m))
    && (d < 1 ==> !MakesPair(m))
  }

  /** `NoneAbove` leaves no category out. */
  lemma NoneAboveMeans(m: multiset<Card>, d: nat)
    ensures NoneAbove(m, d) <==> forall k :: Discriminant(k) > d ==> !Makes(m, k)
  {
    if NoneAbove(m, d) {
      forall k | Discriminant(k) > d ensures !Makes(m, k) {
        match k
        case StraightFlush =>
        case FourOfAKind =>
        case FullHouse =>
        case Flush =>
        case Straight =>
        case ThreeOfAKind =>
        case TwoPair =>
        case Pair =>
        case HighCard => assert false;
      }
    } else {
      assert exists k :: Discriminant(k) > d && Makes(m, k) by {
        if d < 8 && MakesStraightFlush(m) { assert Makes(m, StraightFlush); }
        else if d < 7 && MakesFourOfAKind(m) { assert Makes(m, FourOfAKind); }
        else if d < 6 && MakesFullHouse(m) { assert Makes(m, FullHouse); }
        else if d < 5 && MakesFlush(m) { assert Makes(m, Flush); }
        else if d < 4 && MakesStraight(m) { assert Makes(m, Straight); }
        else if d < 3 && MakesThreeOfAKind(m) { assert Makes(m, ThreeOfAKind); }
        else if d < 2 && MakesTwoPair(m) { assert Makes(m, TwoPair); }
        else { assert Makes(m, Pair); }
      }
    }
  }

  /** `k` is the best category the cards make. */
  ghost predicate BestOf(m: multiset<Card>, k: HandKind)
  {
    Makes(m, k) && NoneAbove(m, Discriminant(k))
  }

  /** The first-match cascade of `evaluate_hand` reports exactly the best
      category: a straight flush before four of a kind, and so on down. */
  lemma CategoryPriority(m: multiset<Card>)
    requires SevenCards(m)
    ensures forall k :: Classify(m).kind == k <==> BestOf(m, k)
  {
    var t := TestsOf(m);
    ClassifyKind(m, t);
    CascadeTests(m, t);
    FirstMatchBest(m, t);
    BestUnique(m, Classify(m).kind);
  }

  /** Only one category is the best. */
  lemma BestUnique(m: multiset<Card>, k: HandKind)
    requires BestOf(m, k)
    ensures forall j :: BestOf(m, j) <==> j == k
  {
    forall j | BestOf(m, j) ensures j == k {
      DiscriminantInjective(j, k);
    }
  }

  // ---------------------------------------------------------------------------
  // The straight-flush test: one suit after the other

  ghost predicate NoStraightFlushAt(m: multiset<Card>, j: int)
    requires 0 <= j < 4
  {
    HighestStraight(SuitRanks(m, SuitAt(j))).None?
  }

  ghost predicate NoStraightFlushFrom(m: multiset<Card>, i: int)
  {
    forall j :: 0 <= i <= j < 4 ==> NoStraightFlushAt(m, j)
  }

  lemma NoStraightFlushStep(m: multiset<Card>, i: int)
    requires 0 <= i < 4
    ensures NoStraightFlushFrom(m, i) <==> NoStraightFlushAt(m, i) && NoStraightFlushFrom(m, i + 1)
  {
  }

  lemma {:induction false} StraightFlushFromNone(m: multiset<Card>, i: int)
    requires 0 <= i <= 4
    ensures StraightFlushFrom(m, i).None? <==> NoStraightFlushFrom(m, i)
    decreases 4 - i
  {
    if i < 4 {
      StraightFlushFromNone(m, i + 1);
      NoStraightFlushStep(m, i);
    }
  }

  lemma StraightFlushWitness(m: multiset<Card>, s: Suit, h: int)
    requires 5 <= h <= 14 && StraightTo(SuitRanks(m, s), h)
    ensures !NoStraightFlushFrom(m, 0)
  {
    var j := SuitCode(s) as int;
    SuitAtCode(s);
    assert !NoStraightFlushAt(m, j);
  }

  lemma NoStraightFlushInAnySuit(m: multiset<Card>)
    requires !MakesStraightFlush(m)
    ensures NoStraightFlushFrom(m, 0)
  {
    forall j | 0 <= j < 4 ensures NoStraightFlushAt(m, j) {
      assert forall h :: 5 <= h <= 14 ==> !StraightTo(SuitRanks(m, SuitAt(j)), h);
    }
  }

  lemma StraightFlushIff(m: multiset<Card>)
    ensures StraightFlushFrom(m, 0).Some? <==> MakesStraightFlush(m)
  {
    StraightFlushFromNone(m, 0);
    if MakesStraightFlush(m) {
      StraightFlushInSomeSuit(m);
    } else {
      NoStraightFlushInAnySuit(m);
    }
  }

  lemma StraightFlushInSomeSuit(m: multiset<Card>)
    requires MakesStraightFlush(m)
    ensures !NoStraightFlushFrom(m, 0)
  {
    forall s: Suit, h | 5 <= h <= 14 && StraightTo(SuitRanks(m, s), h)
      ensures !NoStraightFlushFrom(m, 0)
    {
      StraightFlushWitness(m, s, h);
    }
  }

  // ---------------------------------------------------------------------------
  // The flush test: one suit after the other

  ghost predicate ShortSuitAt(m: multiset<Card>, j: int)
    requires 0 <= j < 4
  {
    SuitCount(m, SuitAt(j)) < 5
  }

  ghost predicate ShortSuitsFrom(m: multiset<Card>, i: int)
  {
    forall j :: 0 <= i <= j < 4 ==> ShortSuitAt(m, j)
  }

  lemma ShortSuitsStep(m: multiset<Card>, i: int)
    requires 0 <= i < 4
    ensures ShortSuitsFrom(m, i) <==> ShortSuitAt(m, i) && ShortSuitsFrom(m, i + 1)
  {
  }

  lemma {:induction false} FlushSuitFromNone(m: multiset<Card>, i: int)
    requires 0 <= i <= 4
    ensures FlushSuitFrom(m, i).None? <==> ShortSuitsFrom(m, i)
    decreases 4 - i
  {
    if i < 4 {
      FlushSuitFromNone(m, i + 1);
      ShortSuitsStep(m, i);
    }
  }

  lemma FlushWitness(m: multiset<Card>, s: Suit)
    requires SuitCount(m, s) >= 5
    ensures !ShortSuitsFrom(m, 0)
  {
    var j := SuitCode(s) as int;
    SuitAtCode(s);
    assert !ShortSuitAt(m, j);
  }

  lemma AllSuitsShort(m: multiset<Card>)
    requires !MakesFlush(m)
    ensures ShortSuitsFrom(m, 0)
  {
    forall j | 0 <= j < 4 ensures ShortSuitAt(m, j) {
      assert SuitCount(m, SuitAt(j)) < 5;
    }
  }

  lemma FlushIff(m: multiset<Card>)
    ensures FlushSuitFrom(m, 0).Some? <==> MakesFlush(m)
  {
    FlushSuitFromNone(m, 0);
    if MakesFlush(m) {
      SomeSuitLong(m);
    } else {
      AllSuitsShort(m);
    }
  }

  lemma SomeSuitLong(m: multiset<Card>)
    requires MakesFlush(m)
    ensures !ShortSuitsFrom(m, 0)
  {
    forall s: Suit | SuitCount(m, s) >= 5 ensures !ShortSuitsFrom(m, 0) {
      FlushWitness(m, s);
    }
  }

  // ---------------------------------------------------------------------------
  // The tests on the number tallies

  lemma WithCount(m: multiset<Card>, k: nat, n: Number)
    ensures n in NumbersWithCount(m, k) <==> Count(m, n) == k
  {
  }

  lemma Besides(m: multiset<Card>, t: int, n: Number)
    ensures n in PairsBesides(m, t) <==> n != t && Count(m, n) >= 2
  {
  }

  lemma FourOfAKindIff(m: multiset<Card>)
    requires SevenCards(m)
    ensures NumbersWithCount(m, 4) != {} <==> MakesFourOfAKind(m)
  {
    var quads := NumbersWithCount(m, 4);
    if quads != {} {
      WithCount(m, 4, Max(quads));
    }
    forall n: Number | Count(m, n) >= 4 ensures quads != {} {
      CountBound(m, n);
      WithCount(m, 4, n);
    }
  }

  lemma FullHouseIff(m: multiset<Card>)
    requires !MakesFourOfAKind(m)
    ensures var trips := NumbersWithCount(m, 3);
      trips != {} && PairsBesides(m, Max(trips)) != {} <==> MakesFullHouse(m)
  {
    var trips := NumbersWithCount(m, 3);
    forall t: Number, p: Number | t != p && Count(m, t) >= 3 && Count(m, p) >= 2
      ensures trips != {} && PairsBesides(m, Max(trips)) != {}
    {
      FullHousePartner(m, t, p);
    }
    if trips != {} && PairsBesides(m, Max(trips)) != {} {
      var top := Max(trips);
      var p := Max(PairsBesides(m, top));
      WithCount(m, 3, top);
      Besides(m, top, p);
    }
  }

  /** Whatever made the full house, the highest triplet has a partner. */
  lemma FullHousePartner(m: multiset<Card>, t: Number, p: Number)
    requires !MakesFourOfAKind(m)
    requires t != p && Count(m, t) >= 3 && Count(m, p) >= 2
    ensures NumbersWithCount(m, 3) != {} && PairsBesides(m, Max(NumbersWithCount(m, 3))) != {}
  {
    assert Count(m, t) < 4;
    WithCount(m, 3, t);
    var top := Max(NumbersWithCount(m, 3));
    if p != top {
      Besides(m, top, p);
    } else {
      Besides(m, top, t);
    }
  }

  lemma StraightIff(m: multiset<Card>)
    ensures HighestStraight(Ranks(m)).Some? <==> MakesStraight(m)
  {
  }

  lemma ThreeOfAKindIff(m: multiset<Card>)
    requires !MakesFourOfAKind(m)
    ensures NumbersWithCount(m, 3) != {} <==> MakesThreeOfAKind(m)
  {
    var trips := NumbersWithCount(m, 3);
    if trips != {} {
      WithCount(m, 3, Max(trips));
    }
    forall n: Number | Count(m, n) >= 3 ensures trips != {} {
      assert Count(m, n) < 4;
      WithCount(m, 3, n);
    }
  }

  lemma PairIff(m: multiset<Card>)
    requires !MakesThreeOfAKind(m)
    ensures NumbersWithCount(m, 2) != {} <==> MakesPair(m)
  {
    var pairs := NumbersWithCount(m, 2);
    if pairs != {} {
      WithCount(m, 2, Max(pairs));
    }
    forall n: Number | Count(m, n) >= 2 ensures pairs != {} {
      assert Count(m, n) < 3;
      WithCount(m, 2, n);
    }
  }

  lemma TwoPairIff(m: multiset<Card>)
    requires !MakesThreeOfAKind(m)
    requires NumbersWithCount(m, 2) != {}
    ensures var pairs := NumbersWithCount(m, 2);
      pairs - {Max(pairs)} != {} <==> MakesTwoPair(m)
  {
    var pairs := NumbersWithCount(m, 2);
    var top := Max(pairs);
    forall p: Number, l: Number | p != l && Count(m, p) >= 2 && Count(m, l) >= 2
      ensures pairs - {top} != {}
    {
      assert Count(m, p) < 3 && Count(m, l) < 3;
      WithCount(m, 2, p);
      WithCount(m, 2, l);
      assert p in pairs - {top} || l in pairs - {top};
    }
    if pairs - {top} != {} {
      WithCount(m, 2, top);
      WithCount(m, 2, Max(pairs - {top}));
    }
  }

  // ---------------------------------------------------------------------------
  // The cascade, one test at a time
  // Each test of the cascade either reports its category or passes the hand on.

  lemma ClassifyStep(m: multiset<Card>)
    requires SevenCards(m)
    ensures Classify(m).kind == if StraightFlushFrom(m, 0).Some? then StraightFlush else BelowStraightFlush(m).kind
  {
  }

  lemma BelowStraightFlushStep(m: multiset<Card>)
    requires SevenCards(m)
    ensures BelowStraightFlush(m).kind == if NumbersWithCount(m, 4) != {} then FourOfAKind else BelowFourOfAKind(m).kind
  {
  }

  lemma BelowFourOfAKindStep(m: multiset<Card>)
    requires SevenCards(m)
    ensures var trips := NumbersWithCount(m, 3);
      BelowFourOfAKind(m).kind == if trips != {} && PairsBesides(m, Max(trips)) != {} then FullHouse else BelowFullHouse(m).kind
  {
  }

  lemma BelowFullHouseStep(m: multiset<Card>)
    requires SevenCards(m)
    ensures BelowFullHouse(m).kind == if FlushSuitFrom(m, 0).Some? then Flush else BelowFlush(m).kind
  {
  }

  lemma BelowFlushStep(m: multiset<Card>)
    requires SevenCards(m)
    ensures BelowFlush(m).kind == if HighestStraight(Ranks(m)).Some? then Straight else BelowStraight(m).kind
  {
  }

  lemma BelowStraightStep(m: multiset<Card>)
    requires SevenCards(m)
    ensures BelowStraight(m).kind == if NumbersWithCount(m, 3) != {} then ThreeOfAKind else BelowThreeOfAKind(m).kind
  {
  }

  lemma BelowThreeOfAKindStep(m: multiset<Card>)
    requires SevenCards(m)
    ensures var pairs := NumbersWithCount(m, 2);
      BelowThreeOfAKind(m).kind
      == if pairs == {} then HighCard else if pairs - {Max(pairs)} != {} then TwoPair else Pair
  {
  }

  /** The outcomes of the tests of the cascade, in the order they are made. */
  datatype Tests = Tests(straightFlush: bool, quads: bool, fullHouse: bool, flush: bool,
                         straight: bool, trips: bool, pairs: bool, twoPairs: bool)

  /** The full-house test: a triplet, and a pair besides the highest one. */
  ghost predicate HasFullHouse(m: multiset<Card>)
  {
    NumbersWithCount(m, 3) != {} && PairsBesides(m, Max(NumbersWithCount(m, 3))) != {}
  }

  /** The two-pair test: a pair below the highest one. */
  ghost predicate HasTwoPairs(m: multiset<Card>)
  {
    NumbersWithCount(m, 2) != {} && NumbersWithCount(m, 2) - {Max(NumbersWithCount(m, 2))} != {}
  }

  ghost function TestsOf(m: multiset<Card>): Tests
  {
    Tests(StraightFlushFrom(m, 0).Some?, NumbersWithCount(m, 4) != {}, HasFullHouse(m),
          FlushSuitFrom(m, 0).Some?, HighestStraight(Ranks(m)).Some?, NumbersWithCount(m, 3) != {},
          NumbersWithCount(m, 2) != {}, HasTwoPairs(m))
  }

  /** The first-match cascade on the outcomes of its tests. */
  function FirstMatch(t: Tests): (k: HandKind)
    ensures t.straightFlush ==> k == StraightFlush
  {
    if t.straightFlush then StraightFlush
    else if t.quads then FourOfAKind
    else if t.fullHouse then FullHouse
    else if t.flush then Flush
    else if t.straight then Straight
    else if t.trips then ThreeOfAKind
    else if !t.pairs then HighCard
    else if t.twoPairs then TwoPair
    else Pair
  }

  /** `Classify` reports the kind the cascade picks. */
  lemma ClassifyKind(m: multiset<Card>, t: Tests)
    requires SevenCards(m) && t == TestsOf(m)
    ensures Classify(m).kind == FirstMatch(t)
  {
    ClassifyStep(m);
    BelowStraightFlushStep(m);
    BelowFourOfAKindStep(m);
    BelowFullHouseStep(m);
    BelowFlushStep(m);
    BelowStraightStep(m);
    BelowThreeOfAKindStep(m);
  }

  /** Each test holds exactly when its category is made, given that no
      category tested before it is. */
  ghost predicate TestsAgree(m: multiset<Card>, t: Tests)
  {
    RunTestsAgree(m, t) && TallyTestsAgree(m, t)
  }

  /** The tests of a straight flush, a flush and a straight. */
  ghost predicate RunTestsAgree(m: multiset<Card>, t: Tests)
  {
    && (t.straightFlush <==> MakesStraightFlush(m))
    && (t.flush <==> MakesFlush(m))
    && (t.straight <==> MakesStraight(m))
  }

  /** The tests on the number tallies. */
  ghost predicate TallyTestsAgree(m: multiset<Card>, t: Tests)
  {
    && (t.quads <==> MakesFourOfAKind(m))
    && (!t.quads ==> (t.fullHouse <==> MakesFullHouse(m)) && (t.trips <==> MakesThreeOfAKind(m)))
    && (!t.quads && !t.trips ==> (t.pairs <==> MakesPair(m)) && (t.twoPairs <==> MakesTwoPair(m)))
  }

  /** When the tests agree with the categories, the cascade picks the best one. */
  lemma FirstMatchBest(m: multiset<Card>, t: Tests)
    requires TestsAgree(m, t)
    ensures BestOf(m, FirstMatch(t))
  {
  }

  lemma CascadeTests(m: multiset<Card>, t: Tests)
    requires SevenCards(m) && t == TestsOf(m)
    ensures TestsAgree(m, t)
  {
    RunTests(m, t);
    TallyTests(m, t);
  }

  lemma RunTests(m: multiset<Card>, t: Tests)
    requires t == TestsOf(m)
    ensures RunTestsAgree(m, t)
  {
    StraightFlushIff(m);
    FlushIff(m);
    StraightIff(m);
  }

  lemma TallyTests(m: multiset<Card>, t: Tests)
    requires SevenCards(m) && t == TestsOf(m)
    ensures TallyTestsAgree(m, t)
  {
    FourOfAKindIff(m);
    if !MakesFourOfAKind(m) {
      FullHouseIff(m);
      ThreeOfAKindIff(m);
    }
    if !MakesThreeOfAKind(m) {
      PairIff(m);
      if NumbersWithCount(m, 2) != {} {
        TwoPairIff(m);
      }
    }
  }
}
