# Poker engine core in Dafny

This project models the core of a Texas Hold'em engine and bot library, and proves properties of the model. The modelled parts are:

- pokeher: cards and starting hands, the five-card hand scorer with its best-of-n search, the Chen starting-hand formula, action codes, the wire format for cards, bet-tier classification and bet sizing, the opponent "fear" filter, and the percentage helper;
- arena: the blind schedule, the no-limit bet check, one street of betting (`BettingRound`), the loop that drives a street (`PokerHand.betting_round`), and match statistics (`HandStats`).

There is one module per source file:

| module | file |
|---|---|
| `Wrappers` | shared `Option` and `Result` types |
| `Cards` | `pokeher/cards.py` |
| `HandScores` | `pokeher/handscore.py` |
| `Actions` | `pokeher/actions.py` |
| `TheAiGame` | `pokeher/theaigame.py` |
| `Chen` | `pokeher/chen.py` |
| `Utility` | `pokeher/utility.py` |
| `BetSizing` | `pokeher/bet_sizing.py` |
| `Fear` | `pokeher/fear.py` |
| `Betting` | `arena/betting.py` |
| `Poker` | `arena/poker.py` |
| `Stats` | `arena/hand_stats.py` |

Objects whose methods update fields in place are Dafny classes:

- `HandScores.HandBuilder` (`score_hand` sorts the cards);
- `Betting.BlindManager`;
- `Betting.BettingRound`;
- `BetSizing.BetTiers` (`tier` stores the bet);
- `Poker.PokerHand`;
- `Stats.HandStats`.

Each such class is proved against a function of its old state:

- `BettingRound` against the `Betting.Round` snapshot and `AfterBet` / `AfterFold`;
- `PokerHand.BettingRound` against `Poker.Play`;
- `HandBuilder.ScoreHand` against `HandScores.Score`;
- `HandBuilder.FindHand` against `HandScores.FirstMax` over all 5-subsets.

Values are `datatype`s:

- cards, hands, scores, actions, blinds, tiers and phase rows.

Python behaviour is modelled as follows:

- Python exceptions and assertion failures become `Result.Failure` or `Option.None`. For example, `Card(1, s)` is `Failure(ValueTooLow)`, a zero big blind preflop is `DivisionByZero`, and an average over no hands is `None`.
- Python 2 comparisons of `None` with integers (`bet > sidepot` with no side pot yet) are `Betting.Exceeds` and `Betting.Reaches` over `Option<int>`.
- True division (`from __future__ import division`) is division on `real`.
- Python 2 `round` (halves away from zero) is written out in `BetSizing.RoundHalfAway`.

The parent object that `betting_round` asks for actions is a finite script, `Poker.Script`. One run of the loop sees some sequence of answers, and once the script is used up the parent answers `None`, which the loop reads as a fold. `Poker.Play` is the whole loop as a function of the round and the script. It returns the final round and the `say_action` reports in order.

## Model

| member | source | states |
|---|---|---|
| Cards.NewSuit | pokeher/cards.py:4-6 | a suit is built exactly for codes 0..3, otherwise the assertion fails |
| Cards.NewCard | pokeher/cards.py:26-32 | a card is built exactly for values 2..14 with a suit; a low value, a high value and a missing suit each fail with their own error |
| Cards.CardEquality | pokeher/cards.py:34-46 | two cards are equal iff they pair (same value) and are suited (same suit) |
| Cards.AllCardsDistinctAndComplete | pokeher/cards.py:24-32 | the 52 listed cards are pairwise distinct, and every card the constructor admits is among them |
| Cards.NewHand | pokeher/cards.py:56-62 | the hand holds the two given cards, high.value >= low.value, and on equal values high is the second argument |
| Cards.ConnectedIffPairOrAdjacent | pokeher/cards.py:64-78 | gap >= -1; connected iff the values are equal or adjacent; Hand.is_pair and is_suited agree with the card-level predicates |
| Cards.SelectFlushSuit | pokeher/cards.py:98-111 | the answer is the first suit code that at least 5 cards hold, and None iff no suit reaches 5 |
| HandScores.ScoreOrderIsTotal | pokeher/handscore.py:26-32 | the (type, kicker) order is irreflexive, transitive, total and asymmetric, and equality is equality of both components |
| HandScores.GreaterIsConverse | pokeher/handscore.py:4-32 | the `>` that total_ordering derives is exactly the converse of `<` |
| HandScores.AboveNoScore | pokeher/handscore.py:6-24 | every scored hand beats the NO_SCORE sentinel that find_hand starts from |
| HandScores.KickerLessTransitive | pokeher/handscore.py:30-32 | the tuple order on kickers is transitive |
| HandScores.KickerTrichotomy | pokeher/handscore.py:26-32 | any two kickers are equal or ordered one way |
| HandScores.Score | pokeher/handscore.py:64-105 | the kicker holds exactly the hand's values and the type is HIGH_CARD..STRAIGHT_FLUSH |
| HandScores.SortByKeyProperties | pokeher/handscore.py:83-84 | the sort by (seen[value], value) descending permutes the cards and leaves them key-sorted |
| HandScores.KickerIsSortedValues | pokeher/handscore.py:75-86 | the kicker is the hand's values ordered by (multiplicity, value) descending |
| HandScores.KickerUnique | pokeher/handscore.py:83-86 | two (multiplicity, value)-descending orderings of the same values are the same sequence, so the kicker does not depend on the order the cards came in |
| HandScores.KickerIs | pokeher/handscore.py:75-86 | any sequence with those two properties is the kicker |
| HandScores.GroupedKind | pokeher/handscore.py:107-132 | on five values sorted by multiplicity, the run walk with its after-loop check names the multiplicity pattern |
| HandScores.SortedKind | pokeher/handscore.py:72-86 | the run walk over the sorted values of five cards names their pattern: pair, two pair, trips, full house, quads or none |
| HandScores.KindFollowsPattern | pokeher/handscore.py:88-91 | a hand with a repeated value has its pattern's type and is never a straight, flush or straight flush |
| HandScores.ConsecutiveIffRun | pokeher/handscore.py:134-143 | for strictly descending values, is_straight's adjacent-gap test holds iff the values form a run of five |
| HandScores.NoRepeatVerdicts | pokeher/handscore.py:93-105 | with no repeated value the kicker strictly descends, and the type is STRAIGHT_FLUSH, STRAIGHT, FLUSH or HIGH_CARD as run and one-suit decide |
| HandScores.WheelIsNotStraight | pokeher/handscore.py:134-143 | A-2-3-4-5 scores FLUSH or HIGH_CARD, never a straight, because the ace counts only as 14 |
| HandScores.OneSuitPermutation | pokeher/handscore.py:94-96 | sorting the cards does not change whether they share one suit |
| HandScores.ValuesPerm | pokeher/handscore.py:75-78 | two orderings of the same cards have the same multiset of values, which is all `seen` is computed from |
| HandScores.ScorePermutationInvariant | pokeher/handscore.py:64-105 | for five cards with no value five times, any reordering of the cards gets the same score: the same type and the same kicker |
| HandScores.HandBuilder.constructor | pokeher/handscore.py:43-47 | a tuple or a list argument gives the same cards |
| HandScores.HandBuilder.ScoreHand | pokeher/handscore.py:64-105 | the answer is Score of the cards as given, and the cards end up sorted by (seen[value], value) descending |
| HandScores.HandBuilder.CountValues | pokeher/handscore.py:75-78 | seen[v] is the number of cards of value v |
| HandScores.HandBuilder.ScoreCardsToRanks | pokeher/handscore.py:107-132 | yields the values in card order and leaves the type the run walk gives |
| HandScores.HandBuilder.IsStraight | pokeher/handscore.py:134-143 | true exactly when every adjacent gap is 1 |
| HandScores.HandBuilder.SelectFlushSuit | pokeher/handscore.py:154-165 | the common suit iff the non-empty cards share one; None for no cards or mixed suits |
| HandScores.HandBuilder.FindHand | pokeher/handscore.py:49-62 | (None, None) for fewer than 5 cards; otherwise a 5-card sub-multiset and its score, taken at the first 5-subset of maximal score in combinations order |
| HandScores.HandBuilder.ScanSubsets | pokeher/handscore.py:54-61 | the loop ends on the first maximum over all 5-subsets |
| HandScores.HandBuilder.Consider | pokeher/handscore.py:57-61 | one pass replaces the best only for a strictly greater score |
| HandScores.CombosSound | pokeher/handscore.py:56 | every enumerated index list is strictly increasing, of length k, within range |
| HandScores.CombosComplete | pokeher/handscore.py:56 | every strictly increasing k-list of indices is enumerated |
| HandScores.SubsetIsSubMultiset | pokeher/handscore.py:56-57 | every 5-subset is a sub-multiset of the cards |
| HandScores.FirstMaxIsFirstMax | pokeher/handscore.py:54-61 | the scan with strict `>` ends on a score nothing is above, with every earlier score strictly below it |
| HandScores.FirstMaxStep | pokeher/handscore.py:59-61 | one more score moves the first maximum exactly when it is strictly greater |
| HandScores.FirstMaxIsBest | pokeher/handscore.py:49-62 | no 5-subset of the cards scores above find_hand's answer |
| Actions.NewAction | pokeher/actions.py:12-14 | stores the code and the amount, with amount 0 by default |
| Actions.ExactlyOneTag | pokeher/actions.py:5-29 | for codes 0..3 exactly one of is_fold/is_call/is_raise/is_check holds; for other codes none does |
| Actions.TagsIgnoreAmount | pokeher/actions.py:16-29 | the tag predicates do not depend on the amount |
| Actions.DisplayLetter | pokeher/actions.py:10-33 | NAMES gives F, C, R, C; call and check both show 'C'; an index outside the list has no letter |
| TheAiGame.FromString | pokeher/theaigame.py:10-19 | a string that is not 2 characters fails; a parsed card's suit comes from the suit letter and its value from the face letter or the digit |
| TheAiGame.ParseCardText | pokeher/theaigame.py:7-19 | every card's two-character text parses back to that card |
| TheAiGame.ParsedStringIsCardText | pokeher/theaigame.py:10-19 | a string that parses is the text of the card it gives |
| TheAiGame.AcceptedStrings | pokeher/theaigame.py:10-19 | exactly the strings of a value character 2-9, T, J, Q, K or A and a suit letter c, d, h or s parse |
| TheAiGame.RejectionReasons | pokeher/theaigame.py:11-19 | a non-digit fails int(), "1h" fails the value assertion, an unknown suit fails the Suit check, and three characters fail the length assertion |
| Chen.PointsForCard | pokeher/chen.py:42-46 | A=10, K=8, Q=7, J=6, and otherwise half the value; always between 1 and 10 |
| Chen.Ceiling | pokeher/chen.py:40 | math.ceil: the least integer at or above x |
| Chen.Score | pokeher/chen.py:15-40 | a pair scores max(2 * points, 5); otherwise the ceiling of points + suited bonus + gap penalty + straight bonus |
| Chen.GapPenaltyMonotone | pokeher/chen.py:28-33 | the gap penalty is negative and grows with the gap: -1, -2, -4, then -5 |
| Chen.SuitedAddsTwo | pokeher/chen.py:24-25 | two non-pair hands that differ only in suits differ by exactly 2 points |
| Chen.ScoreRange | pokeher/chen.py:15-46 | every starting hand scores between -1 and 20 |
| Chen.ScoreExamples | pokeher/chen.py:15-46 | 2-2 is 5, J-J is 12, A-K suited is 12, 5-7 suited is 6, 2-7 offsuit is -1 |
| Utility.Percentage | pokeher/utility.py:8-11 | 0 for a zero denominator, otherwise the value whose product with the denominator is 100 * num |
| Utility.PercentageOfZero | pokeher/utility.py:8-11 | a zero numerator gives 0 |
| Utility.PercentageMonotone | pokeher/utility.py:11 | for a positive denominator the percentage does not decrease as the numerator grows |
| Utility.PercentageAtMost | pokeher/utility.py:11 | for a positive denominator, "at most p percent" is 100 * num <= p * denom |
| Utility.PercentageExamples | pokeher/utility.py:8-11 | 5 of 10 is 50, 20 of 200 is 10, 0 of 300 is 0, 300 of 0 is 0 |
| BetSizing.FirstMatch | pokeher/bet_sizing.py:59-61 | a matched tier is in the list and its test passes; a division error only happens with a zero big blind |
| BetSizing.FirstMatchOfFive | pokeher/bet_sizing.py:59-61 | on a five-tier list the search tries the tiers in list order |
| BetSizing.BetTiers.constructor | pokeher/bet_sizing.py:19-25 | stores pot, big blind and opponent stack, with no bet yet, and picks the preflop or post-flop tiers |
| BetSizing.BetTiers.Tier | pokeher/bet_sizing.py:52-61 | ALL_IN when the bet is the opponent stack, before any test and without storing the bet; otherwise it stores the bet and answers the first matching tier |
| BetSizing.PreflopClassification | pokeher/bet_sizing.py:27-37 | below the blind is CHECK, equal is MIN_RAISE, under 3 blinds RAISE, under 6 BIG_RAISE, else OVERBET; with a zero blind a bet above it is a division error |
| BetSizing.PostFlopClassification | pokeher/bet_sizing.py:40-50 | post-flop every bet gets a tier; with a positive pot 0 is CHECK, the blind or at most 12% of the pot MIN_RAISE, at most 80% RAISE, at most 130% BIG_RAISE, else OVERBET |
| BetSizing.UnderBlindsTest | pokeher/bet_sizing.py:28-35 | with a positive big blind, the "under n blinds" test holds exactly when the bet is below n blinds |
| BetSizing.PotShareTest | pokeher/bet_sizing.py:41-48 | with a positive pot, the pot-share tests hold exactly when 100 times the bet is at most the percentage times the pot (or the bet is the blind) |
| BetSizing.PostFlopSmallBets | pokeher/bet_sizing.py:40-50 | with pot 500 and big blind 20, bets 0, 20 and 200 are CHECK, MIN_RAISE and RAISE |
| BetSizing.PostFlopLargeBets | pokeher/bet_sizing.py:40-50 | with pot 500 and big blind 20, bets 500 and 750 are BIG_RAISE and OVERBET |
| BetSizing.AllInExample | pokeher/bet_sizing.py:54-56 | a bet equal to the opponent stack is ALL_IN |
| BetSizing.PotOdds | pokeher/bet_sizing.py:73-76 | the call as a percentage of pot plus call, 0 when that is 0, and in [0, 100) for a positive pot |
| BetSizing.OurStack | pokeher/bet_sizing.py:78-80 | the stack recorded for our name, 0 when there is none |
| BetSizing.RoundHalfAway | pokeher/bet_sizing.py:118 | Python 2 round: the nearest integer, halves away from zero |
| BetSizing.FinalizeBet | pokeher/bet_sizing.py:112-118 | the bet goes up to the whole stack when 0 < stack - bet < 25% of the stack, and is then rounded |
| BetSizing.QuarterTest | pokeher/bet_sizing.py:115 | for a positive stack, "under 25 percent" is 4 * remaining < stack |
| BetSizing.PercentageBelowWhole | pokeher/bet_sizing.py:76 | a non-negative part of a larger whole is under 100 percent |
| Fear.TiersFor | pokeher/fear.py:17-19 | the preflop tiers exactly when there are no table cards |
| Fear.NewFear | pokeher/fear.py:14-20 | builds iff the tier search matches, keeping that tier; fails only preflop with a zero big blind and a positive call |
| Fear.FearOutcome | pokeher/fear.py:14-20 | the tier search never runs off the end of its list |
| Fear.HandFilter | pokeher/fear.py:22-23 | -1 exactly for CHECK and for a name not in RAISE_FEARS (ALL_IN); otherwise between 30 and 55 |
| Fear.FearIncreasesWithTier | pokeher/fear.py:6-12 | CHECK < MIN_RAISE < RAISE < BIG_RAISE < OVERBET in fear value |
| Fear.NeverAllIn | pokeher/fear.py:19 | with no opponent stack passed, the ALL_IN tier never arises |
| Fear.PostFlopFilter | pokeher/fear.py:14-23 | post-flop with a positive pot, the filter is the fear of the pot-percentage tier |
| Betting.NewBlinds | arena/betting.py:5-8 | blinds are built exactly when the big blind is above the small one |
| Betting.IncrementedBlinds | arena/betting.py:48-51 | doubling goes through exactly when the old blinds were ordered, and doubles both |
| Betting.BlindManager.constructor | arena/betting.py:20-26 | no hands this level, small-blind index 0, blinds 10/20, and a zero count per seat |
| Betting.BlindManager.NextSb | arena/betting.py:31-33 | the small blind and the bot at the small-blind index |
| Betting.BlindManager.NextBb | arena/betting.py:28-38 | the big blind and the seat after the small blind, wrapping to seat 0 |
| Betting.BlindManager.FinishHand | arena/betting.py:53-57 | the index moves one seat modulo the seat count; at the level length the counter resets and the blinds double and stay ordered |
| Betting.BlindManager.CheckRaiseBlinds | arena/betting.py:43-46 | at or past the level length the counter resets and the blinds double; otherwise nothing changes |
| Betting.BlindManager.IncrementBlinds | arena/betting.py:48-51 | both blinds doubled, still ordered |
| Betting.BlindManager.EliminatePlayer | arena/betting.py:59-67 | the seats become RemoveSeat and the index becomes ShiftedSmallBlind of the old state |
| Betting.RemoveSeatMembers | arena/betting.py:67 | after removal, the seats are exactly the old seats with other names |
| Betting.EliminateOneSeat | arena/betting.py:59-67 | other seats keep their order; the index drops by one iff the removed seat was strictly below it; the same bot keeps the blind, and a removed small blind (not last) passes to the next seat |
| Betting.EliminateLastSmallBlindOverruns | arena/betting.py:64-67 | as written, removing the last seat while it holds the small blind leaves the index one past the end |
| Betting.WrappedSmallBlindNextSeat | arena/betting.py:59-67 | with the index wrapped by the new seat count, it is always in range and a removed small blind passes to the next seat round the table |
| Betting.WrapOnce | arena/betting.py:64-65 | the wrap changes the as-written index only when it ran off the end |
| Betting.BlindsAfterElimination | arena/betting.py:53-67 | five bots a..e: after one hand b posts the small blind; after a second hand and c's elimination, d and e post |
| Betting.EliminateThirdOfFive | arena/betting.py:59-67 | removing c from a..e keeps a, b, d, e with index 2 |
| Betting.CheckBet | arena/betting.py:73-75 | legal iff the bet is positive, whatever the pot |
| Betting.FilledAt | arena/betting.py:95-101 | after the seat loop every seat has a bet; posted bets are unchanged and unposted seats have 0 |
| Betting.HighestIsMax | arena/betting.py:111-113 | the side pot after the blinds is None iff nothing was posted, else a posted bet at least every other |
| Betting.FirstUnpostedIsFirst | arena/betting.py:100-109 | the kept index is -1 iff every seat posted, else the first unposted seat |
| Betting.OpenedBets | arena/betting.py:82-105 | posted bets unchanged, other seats at 0, no high better, finished iff one seat |
| Betting.OpenedPot | arena/betting.py:94-99 | the pot is the given pot plus every posted bet |
| Betting.OpenedSidepot | arena/betting.py:94-118 | the side pot is the largest posted bet, None when no seat posted |
| Betting.OpenedFirstActor | arena/betting.py:100-105 | the first turn goes to the first unposted seat, or seat 0 if all posted |
| Betting.BettingRound.constructor | arena/betting.py:82-105 | the new round is Opened of its arguments, with the big blind a key of largest posted bet |
| Betting.BettingRound.SeatAll | arena/betting.py:95-103 | the constructor's loop ends in Seated over all seats |
| Betting.BettingRound.SeatBot | arena/betting.py:95-103 | one pass: a posted bet joins the pot as a blind, or the seat gets 0 and maybe the first turn |
| Betting.BettingRound.SetBetterIndex | arena/betting.py:107-109 | the index is set only while it is still -1 |
| Betting.BettingRound.ProcessBet | arena/betting.py:111-118 | a bet above the side pot becomes it and, unless a blind, makes the seat high better; the seat's bet is recorded |
| Betting.NextOf | arena/betting.py:120-131 | a seat iff the round is open and the seat at the index is staked and not the high better |
| Betting.BettingRound.NextBetter | arena/betting.py:120-126 | the seat at the turn index iff the round is open and it can bet |
| Betting.BettingRound.RemainingPlayers | arena/betting.py:137-138 | exactly the staked seats |
| Betting.PostBetEffect | arena/betting.py:140-159 | the turn moves one seat; accepted iff the total reaches the side pot; accepted, the pot grows by the bet and a new high sets side pot and high better; rejected, the seat leaves and the pot stays; the big blind never changes, and outside the big blind's option an accepted bet keeps `finished` and a bet not above the side pot keeps the high better |
| Betting.BigBlindOption | arena/betting.py:146-150 | at the big blind's option a check is accepted and finishes the round, a raise makes it high better and leaves the round open |
| Betting.PostFoldEffect | arena/betting.py:161-168 | exactly that seat leaves, the turn moves on, pot and side pot stay, finished iff one seat remains |
| Betting.BettingRound.PostBet | arena/betting.py:140-159 | only the seat next_better names may bet; the new state and the answer are AfterBet of the old state |
| Betting.BettingRound.PostFold | arena/betting.py:161-164 | answers false; the new state is AfterFold of the old state |
| Betting.BettingRound.Fold | arena/betting.py:166-168 | the seat leaves the bets; finished iff one seat remains |
| Betting.BettingRound.Forward | arena/betting.py:170-171 | the turn index moves one seat modulo the seat count |
| Betting.BigBlindOf | arena/betting.py:88 | None for no bets, otherwise a key whose bet is the largest |
| Betting.MaxKeyExists | arena/betting.py:88 | any non-empty set of keys has one with the largest bet |
| Betting.FirstStaked | arena/betting.py:120-126 | the first staked seat in turn order from an offset on, or -1 when all of them have folded |
| Betting.NextStaked | arena/betting.py:120-126 | corrected next_better: the first staked seat in turn order unless it is the high better or the round is finished, agreeing with next_better wherever it names a seat |
| Poker.Answer | arena/poker.py:18-21 | past the end of the script the parent's None is a fold |
| Poker.Applied | arena/poker.py:23-28 | the dispatch keeps the seats, can only take staked seats out, and a fold takes one out |
| Poker.PlayTurn | arena/poker.py:16-32 | one turn: the seat next_better named acts on its answer and is reported before the rest of the loop |
| Poker.PlayEnds | arena/poker.py:17 | the loop stops only when next_better answers None |
| Poker.PlayOnlyRemoves | arena/poker.py:16-34 | the seats are unchanged and the remaining players are among those staked at the start |
| Poker.PlaySays | arena/poker.py:30 | the j-th say_action report carries the answer for turn j and names a seat that was staked |
| Poker.AnswersFromAt | arena/poker.py:30 | the turn-by-turn report property read position by position |
| Poker.PlayTurns | arena/poker.py:16-32 | with a finite script, the number of turns is at most the script length plus the staked seats; this bounds the script model, not the source loop |
| Poker.HeadsUpCallCheck | arena/poker.py:16-32 | heads-up after the blinds, a call and the big blind's check end the round with both in and 40 in the pot |
| Poker.FoldedSeatEndsRound | arena/poker.py:16-32 | as written, with three seats, c folds, a calls and b raises, and the loop stops at c's empty seat while a is still 20 short |
| Poker.SkippingFoldedSeatAsksCaller | arena/betting.py:120-126 | in that final state next_better answers None but the corrected next better is a |
| Poker.PokerHand.BettingRound | arena/poker.py:10-34 | the loop ends in the round and reports Play gives for the script, and answers the remaining players |
| Poker.PokerHand.TakeTurn | arena/poker.py:18-30 | one pass: the answer for the turn is applied to the seat next_better named and reported |
| Stats.SumRemove | arena/hand_stats.py:21-24 | the sum of counts is any key's count plus the sum of the rest |
| Stats.SumAtLeast | arena/hand_stats.py:21-24 | with non-negative counts the sum is non-negative and at least every single count |
| Stats.SumTick | arena/hand_stats.py:22-23 | counting one more hand in a phase adds exactly one to the sum |
| Stats.HandStats.constructor | arena/hand_stats.py:17-19 | no pots and no phase counts, and the invariant holds |
| Stats.HandStats.Tick | arena/hand_stats.py:21-24 | the phase count goes up by one (from 0), other phases stay, the pot is appended, and the number of pots stays the sum of the counts |
| Stats.HandStats.CountAtMost | arena/hand_stats.py:22 | a phase count is between 0 and the number of hands, and 0 exactly when the phase never occurred |
| Stats.HandStats.AveragePot | arena/hand_stats.py:27-28 | no average (division by zero) iff no hands; otherwise the average times the hands is the sum of the pots |
| Stats.HandStats.Report | arena/hand_stats.py:26-38 | None iff no hands; otherwise the average pot and the rows of the phases that occurred, in phase order |
| Stats.HandStats.RowBounded | arena/hand_stats.py:31-37 | a phase that occurred has a count from 1 to the hands and a share in (0, 100] |
| Stats.HandStats.RowsBounded | arena/hand_stats.py:31-37 | every row names a phase, with a count from 1 to the hands and a share in (0, 100] |
| Stats.HandStats.RowsComplete | arena/hand_stats.py:31-37 | every phase that occurred has its row, with its count and share |
| Stats.ThreeHands | arena/hand_stats.py:21-28 | pots 50, 100 and 75 average 75, with one hand at the blinds and none at the river |

## Left out

- Text formatting: `__repr__` of suits, cards, actions and scores; `hand_blinds`, `match_blinds` and `say_pot`. The report of `HandStats.__repr__` is modelled as its numbers, not its text.
- `Betting.BettingRound.RemainingPlayers`: a set, not the list in dict order, because that order is not modelled.
- `Betting.BigBlindOf`: picks some key with the largest bet; which one `max` picks among ties depends on dict order, which is not modelled.
- `Betting.OpenedPot`, `Betting.OpenedSidepot` and `Betting.SeatedPosted` require distinct seat names. With a repeated name the Python loop visits a seat twice, and that case is not characterised.
- `Betting.BettingRound.PostFold`: requires the seat to be staked, where Python's `del` would raise `KeyError`.
- `Betting.BettingRound.PostBet` and `Poker.PokerHand.BettingRound`: `post_bet`'s `all_in` flag is accepted and has no effect, as in the source.
- `Poker.PokerHand.BettingRound`: requires a caller-supplied round with at least one seat. The default round has no seats, and `next_better` would index an empty list.
- `Poker.Script`: the parent object, `get_action` and `say_action` are outside the model. The parent is a finite script of answers, and `say_action` is the returned report. A parent that never stops raising is not modelled: two seats that keep raising each become the high better in turn, `next_better` never answers None, and the source loop never ends. The round tracks no stacks to stop this. The termination of `Poker.Play` and the bound of `Poker.PlayTurns` come from the finite script alone.
- `PokerHand.showdown` is an empty stub and is not modelled.
- `HandScores.HandBuilder.FindHand`: the `None` input of `find_hand` is not modelled; a sequence of cards cannot be `None`. Fewer than five cards is modelled.
- `HandScores.HandBuilder.ScoreHand`: requires exactly five cards, which the source assumes without checking.
- HandScores.ScorePermutationInvariant: requires that no value occurs five times. A deck has four suits, so five distinct cards always meet this; the model's cards are not required to be distinct.
- `HandScores.SortByKey`: Python's sort is stable and the model's insertion sort is too, but stability is not stated. The kicker does not depend on it, as `KickerUnique` shows.
- `HandScores.Score`: the NO_SCORE kicker (-1) is the empty kicker. An unscored score is only compared by its type, which already decides.
- `Cards.SelectFlushSuit`: dict iteration over the suit counts is taken in key order 0..3, the order CPython 2 uses for small integer keys.
- `BetSizing`: `big_raise` and `minimum_bet` use random numbers and logging, and are not modelled; `to_call` only returns its field.
- `BetSizing.RoundHalfAway`: real numbers stand in for floating point, so rounding artefacts of binary floats are not modelled.
- `Fear.NewFear`: the data object is its three fields (pot, big blind, table cards). The opponent stack it never passes is `None`.
- `Stats.HandStats.Tick`: requires the invariant (counts sum to the hands). Every object built by the constructor and changed only by `Tick` has it.

## Findings

| source | as written | input that shows it | evidently intended | confidence | as-written member | corrected member |
|---|---|---|---|---|---|---|
| arena/betting.py:64-67 | the small-blind index drops only for a removed seat strictly below it | bots [a, b] with index 1, eliminate b: the index stays 1 with one seat left, and next_sb raises IndexError | the index wraps to the new seat count, so the next seat round the table takes the blind | not executed | Betting.EliminateLastSmallBlindOverruns | Betting.WrappedSmallBlindNextSeat |
| arena/betting.py:120-126 | next_better answers None as soon as the seat at the index has folded | bots [a, b, c], bets a 10, b 20, c to act: c folds, a calls 10, b raises 20; the turn reaches c's empty seat and the round ends with a still in and 20 short | folded seats are passed over and a is asked to call the raise | not executed | Poker.FoldedSeatEndsRound | Betting.NextStaked |

The class methods `Betting.BlindManager.EliminatePlayer` and `Betting.BettingRound.NextBetter`, and the loop `Poker.PokerHand.BettingRound`, follow the code as written. The corrected definitions stand beside them, with their properties proved.
