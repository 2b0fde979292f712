# Texas hold'em hand evaluator and head-to-head equity, in Dafny

The core of the poker calculator library (`src/lib.rs`) is modelled here:

- **The card model.** A `Suit` and a `Number`, each with its `repr(u8)` code, packed into a one-byte `Card`. The suit sits in the high nibble and the number in the low nibble.
- **`HandEvaluation`.** A hand category (`HandKind`) and three bytes of tie-break values. Its constructors are modelled, and so is its derived lexicographic ordering.
- **`evaluate_hand`.** It tallies seven cards by suit and by number into count arrays and 16-bit bitsets. It then tests the categories in order, from straight flush down to high card, and scores the hand in the first category it makes.
- **`compute_result`.** It builds the deck of the cards that neither two-card hand holds (48 when the four hole cards differ). It walks every five-card board drawn from that deck and counts the boards where hand 1 scores higher than hand 2, lower, or the same.

Modules, one per file:

| file | module | contents |
|---|---|---|
| `wrappers.dfy` | `Wrappers` | `Option` |
| `bitops.dfy` | `BitOps` | `u8`/`u16` as integer subset types. The bit operations the source uses (`&`, `\|`, `!`, `<<`, `>>`, `leading_zeros`, `x & (x - 1)`) are written out on natural numbers, with a per-bit predicate. `Mask16` gives the bitset of a set of positions. |
| `cards.dfy` | `Cards` | `Suit`, `Number`, `Card`, `from_u8`, `as_bit`, `Card::new`, `suit`, `number` |
| `ranksets.dfy` | `RankSets` | `Max`, `Min`, and the `k` highest members of a set of ranks |
| `tallies.dfy` | `Tallies` | the per-number and per-suit counts and rank sets of a multiset of cards |
| `evaluation.dfy` | `Evaluation` | `HandKind`, `HandEvaluation`, the derived `Ord` and the constructors |
| `evaluator.dfy` | `Evaluator` | `check_for_straight`, `check_for_three_of_a_kind`, `check_for_pair`, `highest_card_in_set`, each loop of `evaluate_hand`, and `evaluate_hand` itself |
| `categories.dfy` | `Categories` | an independent definition of each poker category, and the proof that `evaluate_hand` reports the best one the cards make |
| `equity.dfy` | `Equity` | the deck, the five-card boards, and `compute_result` |
| `source_tests.dfy` | `SourceTests` | the unit tests of `src/lib.rs`, restated as lemmas |

The evaluator is specified by `Classify`, a ghost function on the multiset of the seven cards. Each category that `Classify` tests is stated on the cards' tallies: the number of cards of each number and each suit, the set of numbers held, and the numbers held in each suit. The kickers are stated as "the `k` highest other numbers". `EvaluateHand` is the imperative `evaluate_hand`, with its arrays, bitsets and loops, and it is proved equal to `HandValue`, which is `Classify` applied to its cards.

The ordering comes in two layers of lemmas:

- **Within a category.** Each constructor's encoding compares as its arguments do.
- **Across categories.** The category `Classify` reports is, among the categories defined independently in `Categories`, the highest one the cards make.

`ComputeResultOf` is likewise proved equal to `Result`. `Result` is the tally of the outcomes over `Combinations(Deck(...), 5)`, the boards in the order `tuple_combinations` yields them. Lemmas about `Result` give:

- the total number of boards;
- that every board counts exactly once as a win, a loss or a tie;
- that exchanging the two hands exchanges wins and losses.

The unit tests of `src/lib.rs` are restated in `SourceTests`. Each of the fifteen hands of `test_hand_evaluator` gets a lemma: its cards, spelled out as in the test, make a valid hand, and `HandValue` of them is the evaluation the test asserts. The final assertion of that test, that `all_hands` never rises from one hand to the next, is `HandsDescend`. It chains those lemmas with the category order from `Compare` and the within-category `*Order` lemmas. Kicker bitsets are written as the test writes them, as the `|` of the numbers' bits (`OrBits`).

## Model

| member | source | states |
|---|---|---|
| Cards.SuitCode | src/lib.rs:4-11 | a suit's `repr(u8)` code is at most 3 (Hearts 0, Diamonds 1, Clubs 2, Spades 3) |
| Cards.SuitFromU8 | src/lib.rs:18-26 | decoding succeeds exactly on codes 0 to 3 and yields the suit with that code; other codes are the panic, as `None` |
| Cards.SuitFromU8Unchecked | src/lib.rs:32-34 | on codes 0 to 3 the transmute yields the suit with that code |
| Cards.SuitRoundTrip | src/lib.rs:4-26 | decoding a suit's code gives back the suit |
| Cards.NumberFromU8 | src/lib.rs:60-81 | decoding succeeds exactly on 2 to 14 and keeps the value; other values are the panic, as `None` |
| Cards.AsBitIsSingleton | src/lib.rs:88-90 | `1 << n` is 2 to the power `n`, the bitset holding just `n` |
| Cards.NewCard | src/lib.rs:100-103 | the card byte is 16 times the suit code plus the number |
| Cards.NewCardIsShiftOr | src/lib.rs:100-103 | that byte is exactly `(suit as u8) << 4 \| number` |
| Cards.CardSuit | src/lib.rs:111-113 | the card's suit is the one whose code sits in the high nibble |
| Cards.CardNumber | src/lib.rs:106-108 | the card's number is the low nibble |
| Cards.CardPartsAreMasks | src/lib.rs:106-113 | `value & 0xF` is the number and `value >> 4` the suit code, i.e. the remainder and quotient by 16 |
| Cards.NewCardParts | src/lib.rs:100-113 | packing then unpacking a suit and a number gives them back |
| Cards.CardFromParts | src/lib.rs:100-113 | every card is the packing of its own suit and number |
| Cards.CardEquality | src/lib.rs:93-96 | the derived card equality holds exactly when suits and numbers are equal |
| Evaluation.CompareInt | src/lib.rs:37-53 | the derived `Ord` on integers: less, equal or greater exactly as the numbers are |
| Evaluation.ThenCompare | src/lib.rs:139-143 | the lexicographic step of a derived `Ord`: the second comparison only breaks a tie of the first |
| Evaluation.Discriminant | src/lib.rs:125-137 | the `repr(u8)` discriminants of the hand kinds, all at most 8 |
| Evaluation.DiscriminantInjective | src/lib.rs:125-137 | kinds with the same discriminant are the same kind |
| Evaluation.CompareValues | src/lib.rs:141-142 | the order on `[u8; 3]` says equal exactly when the arrays are equal |
| Evaluation.Compare | src/lib.rs:139-143 | the derived order says equal exactly when the evaluations are equal, and a higher kind always wins |
| Evaluation.CompareAntisymmetric | src/lib.rs:139-143 | comparing the other way round reverses the outcome |
| Evaluation.CompareTransitive | src/lib.rs:139-143 | greater-than is transitive |
| Evaluation.NewStraightFlush | src/lib.rs:147-153 | the evaluation is a straight flush |
| Evaluation.NewFourOfAKind | src/lib.rs:155-161 | the evaluation is four of a kind |
| Evaluation.NewFullHouse | src/lib.rs:163-168 | the evaluation is a full house |
| Evaluation.NewFlush | src/lib.rs:171-176 | the evaluation is a flush |
| Evaluation.NewStraight | src/lib.rs:179-184 | the evaluation is a straight |
| Evaluation.NewThreeOfAKind | src/lib.rs:187-196 | the evaluation is three of a kind |
| Evaluation.NewTwoPair | src/lib.rs:199-204 | the evaluation is two pair |
| Evaluation.NewPair | src/lib.rs:207-216 | the evaluation is a pair |
| Evaluation.NewHighCard | src/lib.rs:219-224 | the evaluation is a high card |
| Evaluation.CompareBytes | src/lib.rs:171-176 | comparing the high byte and then the low byte of two `u16` compares the numbers |
| Evaluation.StraightFlushOrder | src/lib.rs:147-153 | straight flushes compare by their high card |
| Evaluation.FourOfAKindOrder | src/lib.rs:155-161 | four of a kind compares by the quad number, then the kicker |
| Evaluation.FullHouseOrder | src/lib.rs:163-168 | full houses compare by the triplet, then the pair |
| Evaluation.FlushOrder | src/lib.rs:171-176 | flushes compare as their five-card bitsets do, so the split into two bytes loses nothing |
| Evaluation.StraightOrder | src/lib.rs:179-184 | straights compare by their high card |
| Evaluation.ThreeOfAKindOrder | src/lib.rs:187-196 | three of a kind compares by the triplet, then the kicker bitset |
| Evaluation.TwoPairOrder | src/lib.rs:199-204 | two pair compares by the high pair, the low pair, then the kicker |
| Evaluation.PairOrder | src/lib.rs:207-216 | a pair compares by its number, then the kicker bitset |
| Evaluation.HighCardOrder | src/lib.rs:219-224 | high-card hands compare as their five-card bitsets do |
| BitOps.MaskOrder | src/lib.rs:171-176 | of two bitsets, the one holding the highest number where they differ is the larger, which is how kicker bitsets rank hands |
| Evaluator.CheckForStraight | src/lib.rs:228-245 | the result is the highest straight among the bitset's numbers, the ace also playing low, or `None` when there is none |
| Evaluator.StraightAtMost | src/lib.rs:237-244 | the highest straight ending at or below `h`: it is a straight, and none ends higher up to `h` |
| Evaluator.AceTest | src/lib.rs:230 | `x & Ace.as_bit() != 0` holds exactly when the ace is in the bitset |
| Evaluator.AddLowAce | src/lib.rs:230-232 | `x \| 2` adds the low ace and stays within 16 bits |
| Evaluator.WindowStraight | src/lib.rs:236-238 | the shifted five-bit window is full exactly when a straight ends at the shift plus four |
| Evaluator.CheckForThreeOfAKind | src/lib.rs:248-255 | the result has count 3 and no higher number has count 3; `None` when no number has count 3 |
| Evaluator.CheckForPair | src/lib.rs:258-265 | the result has count 2 and no higher number has count 2; `None` when no number has count 2 |
| Evaluator.HighestCardInSet | src/lib.rs:268-273 | `15 - leading_zeros` is the highest number in the bitset |
| Evaluator.HandCards | src/lib.rs:276 | seven different cards form a multiset holding each card at most once, seven cards in all |
| Evaluator.NumbersWithCount | src/lib.rs:298-304 | the numbers held exactly `k` times are rank positions |
| Evaluator.PairsBesides | src/lib.rs:309-318 | the numbers other than the triplet held at least twice are rank positions |
| Evaluator.FlushSuitFrom | src/lib.rs:322-331 | the suit found has at least five cards |
| Evaluator.HandValueOrderFree | src/lib.rs:276 | the evaluation depends only on which cards the hand holds, not on their order |
| Evaluator.QuadKickerExists | src/lib.rs:301 | with four of a kind, another number is held, so the kicker exists |
| Evaluator.TwoPairKickerExists | src/lib.rs:353-357 | with two pairs, a third number is held, so the kicker exists |
| Evaluator.CountsBounded | src/lib.rs:282-288 | no number has more than four cards |
| Evaluator.MaskOf | src/lib.rs:282-288 | a bitset equals the mask of its set of numbers |
| Evaluator.ClearLowestNumber | src/lib.rs:326 | `x & (x - 1)` removes the lowest number of a non-empty bitset |
| Evaluator.ClearTwoLowest | src/lib.rs:340-343 | two rounds of `x &= x - 1` leave the highest numbers, all but two |
| Evaluator.HighestWithCountIsMax | src/lib.rs:298-304 | on the hand's counts, a scan from the ace down finds the highest number held `k` times, and finds none exactly when there is none |
| Evaluator.FindFourOfAKind | src/lib.rs:298-300 | the scan reports the highest number held four times, or none |
| Evaluator.FindFullHousePair | src/lib.rs:309-318 | the scan reports the highest number other than the triplet held twice or more, or none |
| Evaluator.FullHousePairIsMax | src/lib.rs:309-318 | on the hand's counts, that is the largest number that completes the full house |
| Evaluator.FindSecondPair | src/lib.rs:349-351 | the scan reports the highest number below the top pair held exactly twice, or none |
| Evaluator.SecondPairIsMax | src/lib.rs:349-351 | on the hand's counts, that is the second highest pair |
| Evaluator.FindStraightFlush | src/lib.rs:291-295 | the loop yields the highest straight of the first suit, in suit order, holding one |
| Evaluator.KeepFiveHighest | src/lib.rs:324-328 | the inner flush loop leaves the bitset of the suit's five highest numbers |
| Evaluator.FindFlush | src/lib.rs:322-331 | a flush is found exactly when some suit has five cards, and it is the five highest numbers of the first such suit |
| Evaluator.CountCard | src/lib.rs:283-285 | after one round of the tally, the suit counts and the number counts are those of the cards so far with this card added |
| Evaluator.MarkCard | src/lib.rs:286-287 | after one round of the tally, the number bitset and each suit's bitset are the number sets of the cards so far with this card added |
| Evaluator.TallyCards | src/lib.rs:277-288 | after the loop, the arrays and bitsets are the counts and rank sets of the seven cards |
| Evaluator.FourOfAKindHand | src/lib.rs:299-302 | four of a kind is scored with the highest other number as kicker |
| Evaluator.ThreeOfAKindHand | src/lib.rs:339-344 | three of a kind is scored with the two highest other numbers as kickers |
| Evaluator.TwoPairHand | src/lib.rs:351-358 | two pair is scored with the highest number other than both pairs as kicker |
| Evaluator.PairHand | src/lib.rs:364-368 | a pair is scored with the three highest other numbers as kickers |
| Evaluator.HighCardHand | src/lib.rs:373-376 | a high-card hand is scored by its five highest numbers |
| Evaluator.EvaluateHand | src/lib.rs:276-377 | `evaluate_hand` returns `HandValue` of its seven distinct cards: the first category made, with its tie-break numbers |
| Categories.NoneAboveMeans | src/lib.rs:290-377 | "no category above `d`" leaves out no category: it holds exactly when every category ranked above `d` is not made |
| Categories.CategoryPriority | src/lib.rs:290-377 | the kind `evaluate_hand` reports is exactly the best category the seven cards make, for every kind, both directions |
| Categories.BestUnique | src/lib.rs:125-137 | only one category is the best |
| Categories.StraightFlushIff | src/lib.rs:291-295 | the straight-flush test succeeds exactly when some suit holds five consecutive numbers |
| Categories.StraightFlushFromNone | src/lib.rs:291-295 | the per-suit search fails exactly when no remaining suit holds a straight |
| Categories.StraightFlushInSomeSuit | src/lib.rs:291-295 | a straight flush lies in a suit the per-suit search reaches |
| Categories.FourOfAKindIff | src/lib.rs:298-304 | the quad test succeeds exactly when some number is held four or more times |
| Categories.FullHouseIff | src/lib.rs:307-319 | without four of a kind, the full-house test succeeds exactly when there are three cards of one number and two of another |
| Categories.FullHousePartner | src/lib.rs:307-319 | whichever triplet and pair make the full house, the highest triplet has a partner |
| Categories.FlushIff | src/lib.rs:322-331 | the flush test succeeds exactly when some suit has five or more cards |
| Categories.FlushSuitFromNone | src/lib.rs:322-331 | the per-suit search fails exactly when every remaining suit is short |
| Categories.SomeSuitLong | src/lib.rs:322-331 | a flush makes some suit the flush search reaches long enough |
| Categories.StraightIff | src/lib.rs:334-336 | the straight test succeeds exactly when the numbers hold five consecutive ones |
| Categories.ThreeOfAKindIff | src/lib.rs:307 | without four of a kind, the triplet test succeeds exactly when some number is held three or more times |
| Categories.PairIff | src/lib.rs:348 | without three of a kind, the pair test succeeds exactly when some number is held twice or more |
| Categories.TwoPairIff | src/lib.rs:348-360 | without three of a kind, a second pair below the highest is found exactly when two numbers are paired |
| Categories.ClassifyKind | src/lib.rs:290-377 | the reported kind is the first test of the cascade, in source order, that succeeds |
| Categories.FirstMatch | src/lib.rs:290-377 | when the straight-flush test succeeds, nothing else is tried |
| Categories.FirstMatchBest | src/lib.rs:290-377 | when each test agrees with its category, the first that succeeds names the best category |
| Categories.CascadeTests | src/lib.rs:290-377 | for seven distinct cards, every test of the cascade agrees with its category once the earlier ones have failed |
| Categories.RunTests | src/lib.rs:291-336 | the straight-flush, flush and straight tests each succeed exactly when the cards make that category |
| Categories.TallyTests | src/lib.rs:298-368 | the tests on the number counts agree with their categories once the earlier ones have failed |
| RankSets.TopK | src/lib.rs:340-343 | the `k` highest numbers are a top subset of `k` numbers, or all when there are fewer |
| RankSets.TopUnique | src/lib.rs:340-343 | a top subset of `k` numbers is the `k` highest |
| RankSets.DropTwoLowest | src/lib.rs:340-343 | dropping the lowest number twice from `k + 2` numbers leaves the `k` highest |
| Equity.CardAt | src/lib.rs:389-391 | the deck loop's `i`-th card has suit code `i / 13` and number `i % 13 + 2` |
| Equity.FullDeck | src/lib.rs:389-391 | the full deck has 52 cards |
| Equity.InFullDeck | src/lib.rs:389-391 | every card is in the full deck |
| Equity.FullDeckNoDup | src/lib.rs:389-391 | the full deck holds each card once |
| Equity.Kept | src/lib.rs:392-394 | skipping the hole cards never yields more cards than the deck has |
| Equity.KeptMembers | src/lib.rs:392-394 | a card is kept exactly when it is in the deck and in neither hand |
| Equity.DeckIs | src/lib.rs:388-396 | the deck (`Deck`, the full deck without the hole cards) holds exactly the cards outside both hands, each once |
| Equity.DeckSize | src/lib.rs:388-396 | with four different hole cards the deck has 48 cards |
| Equity.KeptSymmetric | src/lib.rs:392 | the deck is the same with the hands exchanged |
| Equity.BuildDeck | src/lib.rs:388-396 | the deck loop builds exactly `Deck`, in suit-then-number order |
| Equity.DealSuit | src/lib.rs:390-395 | the inner deck loop appends the cards of one suit that neither hand holds, numbers Two to Ace in order |
| Equity.DealtNextNumber | src/lib.rs:391-394 | one more number of the suit adds the next card of the full deck exactly when neither hand holds it |
| Equity.DealtRow | src/lib.rs:390-395 | after the inner loop reaches a number, the deck is the full deck up to that card, without the hole cards |
| Equity.DealtSuits | src/lib.rs:389-396 | after the outer loop has done some suits, the deck is the full deck up to the next suit, without the hole cards |
| Equity.DeckUpToKept | src/lib.rs:388-396 | walking the full deck card by card and skipping the hole cards keeps the same cards as skipping them from the whole deck |
| Equity.DeckUpToAll | src/lib.rs:388-396 | once all 52 cards are walked, that is the deck |
| Equity.DealtAll | src/lib.rs:388-396 | once all four suits are done, the loop's cards are the deck |
| Equity.Combinations | src/lib.rs:403 | each board has five cards, all drawn from the deck |
| Equity.CombinationsCount | src/lib.rs:403 | there are `Binomial(n, k)` choices of `k` cards from `n` |
| Equity.CombinationsNoDup | src/lib.rs:403 | boards drawn from a deck without repeats have no repeats |
| Equity.CombinationsDistinct | src/lib.rs:403 | from a deck without repeats, no two boards hold the same cards, so each choice of five cards is walked at most once |
| Equity.PrependCancel | src/lib.rs:403 | boards that share their first card and hold the same cards agree on the rest |
| Equity.BinomialProduct | src/lib.rs:403 | `k! * Binomial(n, k)` is the falling factorial `n * (n - 1) * ... * (n - k + 1)` |
| Equity.FiveOfFortyEight | src/lib.rs:403 | 48 cards give 1,712,304 boards |
| Equity.SevenDifferent | src/lib.rs:404-405 | five deck cards and two different hole cards are seven different cards |
| Equity.BoardsPlayable | src/lib.rs:403-408 | every board, with either hand, is a valid input to `evaluate_hand` |
| Equity.Record | src/lib.rs:409-414 | one outcome adds one to `count` and one to exactly the matching counter |
| Equity.Outcomes | src/lib.rs:403-408 | there is one outcome per board, in board order |
| Equity.Tally | src/lib.rs:398-415 | wins, losses and ties add up to `count`, which is the number of outcomes tallied |
| Equity.TallyStep | src/lib.rs:409-414 | tallying one more outcome adds it to the counters of the outcomes before it |
| Equity.CountOutcome | src/lib.rs:409-414 | the `match` arm and `count += 1` update the four counters as one recorded outcome |
| Equity.Showdown | src/lib.rs:404-409 | one board's outcome (`Outcome`, the `cmp` of line 409) is the comparison of the evaluations of the two seven-card hands `hand_a` and `hand_b` (`Seven`: the board, then the hole cards) |
| Equity.ComputeResultOf | src/lib.rs:387-423 | `compute_result` returns the tally of every board's `Outcome`, over the boards of `Deck` in `tuple_combinations` order |
| Equity.ResultCounts | src/lib.rs:398-423 | every board counts once as a win, a loss or a tie, and there are `Binomial(|deck|, 5)` of them |
| Equity.ResultBoards | src/lib.rs:387-423 | with four different hole cards, `count` is 1,712,304 |
| Equity.TallySwap | src/lib.rs:409-413 | reversing every outcome exchanges wins and losses and keeps ties and `count` |
| Equity.OutcomeSwap | src/lib.rs:404-409 | exchanging the hands reverses one board's outcome |
| Equity.OutcomesSwap | src/lib.rs:403-409 | exchanging the hands reverses every board's outcome, and every board stays playable |
| Equity.ResultSwap | src/lib.rs:387-423 | `compute_result(hand2, hand1)` is `compute_result(hand1, hand2)` with wins and losses exchanged |
| SourceTests.OrBits | src/lib.rs:443-462 | `a.as_bit() \| b.as_bit() \| ...` is the bitset holding exactly the numbers `a, b, ...` |
| SourceTests.CardEvaluations | src/lib.rs:438-473 | each comparison `test_card_evaluations` asserts between the evaluations it constructs, with the kicker bitsets written as in the test |
| SourceTests.StraightCheck | src/lib.rs:476-490 | `check_for_straight` of the ace-high mask returns `Some(Ace)` and of the five-high mask `Some(Five)` |
| SourceTests.AceHighStraight | src/lib.rs:476-489 | ten to ace is an ace-high straight |
| SourceTests.FiveHighStraight | src/lib.rs:476-489 | ace to five is a five-high straight: the ace plays low and no higher straight is held |
| SourceTests.RoyalFlushEvaluation | src/lib.rs:640 | the seven cards of `royal_flush` (lines 494-502) are a valid hand, and `evaluate_hand` scores them `new_straight_flush(Ace)` |
| SourceTests.FourOfAKindEvaluation | src/lib.rs:641-644 | the seven cards of `four_of_a_kind` (lines 504-512) are a valid hand, and `evaluate_hand` scores them `new_four_of_a_kind(Ten, Ace)` |
| SourceTests.FullHouseEvaluation | src/lib.rs:645-648 | the seven cards of `full_house` (lines 514-522) are a valid hand, and `evaluate_hand` scores them `new_full_house(Eight, King)` |
| SourceTests.AceHighFlushEvaluation | src/lib.rs:649-658 | the seven cards of `ace_high_flush` (lines 524-532) are a valid hand, and `evaluate_hand` scores them `new_flush` of the bits of Ace, King, Queen, Jack, Nine |
| SourceTests.KingHighFlushEvaluation | src/lib.rs:659-668 | the seven cards of `king_high_flush` (lines 534-542) are a valid hand, and `evaluate_hand` scores them `new_flush` of the bits of King, Queen, Jack, Nine, Eight |
| SourceTests.StraightEvaluation | src/lib.rs:669 | the seven cards of `straight` (lines 544-552) are a valid hand, and `evaluate_hand` scores them `new_straight(Ace)` |
| SourceTests.ThreeOfAKindEvaluation | src/lib.rs:670-676 | the seven cards of `three_of_a_kind` (lines 554-562) are a valid hand, and `evaluate_hand` scores them `new_three_of_a_kind(Eight, _)` with kickers Ace and King |
| SourceTests.TwoPairAceHighEvaluation | src/lib.rs:698-701 | the seven cards of `two_pair_ace_high` (lines 564-572) are a valid hand, and `evaluate_hand` scores them `new_two_pair(King, Six, Ace)` |
| SourceTests.TwoPairQueenHighEvaluation | src/lib.rs:702-705 | the seven cards of `two_pair_queen_high` (lines 573-581) are a valid hand, and `evaluate_hand` scores them `new_two_pair(King, Six, Queen)` |
| SourceTests.AcePairEvaluation | src/lib.rs:677-683 | the seven cards of `ace_pair` (lines 582-590) are a valid hand, and `evaluate_hand` scores them `new_pair(Ace, _)` with kickers King, Ten, Nine |
| SourceTests.AcePairLowerKickerEvaluation | src/lib.rs:684-690 | the seven cards of `ace_pair_lower_kicker` (lines 591-599) are a valid hand, and `evaluate_hand` scores them `new_pair(Ace, _)` with kickers Queen, Ten, Nine |
| SourceTests.QueenPairEvaluation | src/lib.rs:691-697 | the seven cards of `queen_pair` (lines 600-608) are a valid hand, and `evaluate_hand` scores them `new_pair(Queen, _)` with kickers Ace, Ten, Nine |
| SourceTests.AceHighEvaluation | src/lib.rs:706-715 | the seven cards of `ace_high` (lines 610-618) are a valid hand, and `evaluate_hand` scores them `new_high_card` of the bits of Ace, King, Queen, Ten, Nine |
| SourceTests.AceHighSlightlyLowerEvaluation | src/lib.rs:716-725 | the seven cards of `ace_high_slightly_lower` (lines 620-628) are a valid hand, and `evaluate_hand` scores them `new_high_card` of the bits of Ace, King, Queen, Ten, Nine |
| SourceTests.KingHighEvaluation | src/lib.rs:726-735 | the seven cards of `king_high` (lines 630-638) are a valid hand, and `evaluate_hand` scores them `new_high_card` of the bits of King, Queen, Ten, Nine, Eight |
| SourceTests.RoyalFlushOverFourOfAKind | src/lib.rs:754 | `royal_flush` evaluates higher than `four_of_a_kind` |
| SourceTests.FourOfAKindOverFullHouse | src/lib.rs:754 | `four_of_a_kind` evaluates higher than `full_house` |
| SourceTests.FullHouseOverAceHighFlush | src/lib.rs:754 | `full_house` evaluates higher than `ace_high_flush` |
| SourceTests.AceHighFlushOverKingHighFlush | src/lib.rs:754 | `ace_high_flush` evaluates higher than `king_high_flush` |
| SourceTests.KingHighFlushOverStraight | src/lib.rs:754 | `king_high_flush` evaluates higher than `straight` |
| SourceTests.StraightOverThreeOfAKind | src/lib.rs:754 | `straight` evaluates higher than `three_of_a_kind` |
| SourceTests.ThreeOfAKindOverTwoPairAceHigh | src/lib.rs:754 | `three_of_a_kind` evaluates higher than `two_pair_ace_high` |
| SourceTests.TwoPairAceHighOverTwoPairQueenHigh | src/lib.rs:754 | `two_pair_ace_high` evaluates higher than `two_pair_queen_high` |
| SourceTests.TwoPairQueenHighOverAcePair | src/lib.rs:754 | `two_pair_queen_high` evaluates higher than `ace_pair` |
| SourceTests.AcePairOverAcePairLowerKicker | src/lib.rs:754 | `ace_pair` evaluates higher than `ace_pair_lower_kicker` |
| SourceTests.AcePairLowerKickerOverQueenPair | src/lib.rs:754 | `ace_pair_lower_kicker` evaluates higher than `queen_pair` |
| SourceTests.QueenPairOverAceHigh | src/lib.rs:754 | `queen_pair` evaluates higher than `ace_high` |
| SourceTests.AceHighOverAceHighSlightlyLower | src/lib.rs:754 | `ace_high` evaluates the same as `ace_high_slightly_lower` |
| SourceTests.AceHighSlightlyLowerOverKingHigh | src/lib.rs:754 | `ace_high_slightly_lower` evaluates higher than `king_high` |
| SourceTests.AdjacentHands | src/lib.rs:737-754 | each hand of `all_hands` evaluates at least as high as the next one |
| SourceTests.HandsDescend | src/lib.rs:737-754 | every hand of `all_hands` is valid, and no evaluation in it is below the one after it |

## Left out

- `impl fmt::Debug for Card` and `test_card_format_string`: string formatting is not modelled.
- `src/main.rs` and the rest of the repository (the web frontend, the backend service, the benchmarks) are not part of this model.
- The `unsafe` transmutes of `from_u8_unchecked`: a code outside the enum's range is undefined behaviour. The model demands a valid code as a precondition instead.
- The `# Panics` doc comment on `Suit::from_u8` says the function panics when the value *is* in `[0, 3]`. The code panics when it is *not*, and the model follows the code.
- The `u64` counters of `ComputeResult` are unbounded naturals, since at most `Binomial(50, 5)` = 2,118,760 boards are counted (1,712,304 when the four hole cards differ). The `i32` counts of `evaluate_hand` are unbounded integers, since they never exceed 7.
- `tuple_combinations` (from `itertools`) is not available. It is modelled by `Combinations`, which lists the choices lexicographically by position, as that adaptor documents.
- The Rust fixed-size arrays are sequences of fixed length. Nothing in the source aliases them.
- Evaluator.EvaluateHand: the model requires seven pairwise different cards. With a repeated card the source scores a multiset that no deal can produce. For example, seven copies of one card reach the flush loop with a one-bit bitset, where `suited_cards - 1` can wrap. Those inputs are not modelled.
- Equity.ComputeResultOf: the model requires each hand's two cards to differ, so that every board gives `evaluate_hand` seven different cards. The two hands may share cards, as in the source.
- Equity.BuildDeck: the inner `for number` loop of the deck is the separate method `Equity.DealSuit`, called once per suit. The loops, their order and their bounds are kept.
