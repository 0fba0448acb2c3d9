/**
 * ChenScore of pokeher/chen.py: the Chen formula for two-card starting hands.
 * Points are multiples of one half; Python's floats represent them exactly, so
 * they are modelled as reals.
 */
module Chen {
  import opened Cards

  /** points_for_card: A = 10, K = 8, Q = 7, J = 6, otherwise half the value. */
  function PointsForCard(c: Card): (p: real)
    ensures c.value <= 10 ==> p == c.value as real / 2.0
    ensures 1.0 <= p <= 10.0
  {
    if c.value == ACE then 10.0
    else if c.value == KING then 8.0
    else if c.value == QUEEN then 7.0
    else if c.value == JACK then 6.0
    else c.value as real * 0.5
  }

  /** GAP_MINUS_POINTS.get(gap), with -5 for any gap not in the table. */
  function GapPenalty(gap: int): real
  {
    if gap == 1 then -1.0 else if gap == 2 then -2.0 else if gap == 3 then -4.0 else -5.0
  }

  /** math.ceil. */
  function Ceiling(x: real): (r: int)
    ensures r as real - 1.0 < x <= r as real
  {
    -((-x).Floor)
  }

  /** Nonnegative bonus terms and penalty of a non-pair hand, in the order score() applies them. */
  function SuitedBonus(h: Hand): real { if h.IsSuited() then 2.0 else 0.0 }

  function Penalty(h: Hand): real { if !h.IsConnected() then GapPenalty(h.CardGap()) else 0.0 }

  /** `high < Q and connected or gap == 1`: `and` binds tighter than `or`. */
  predicate StraightBonusApplies(h: Hand)
  {
    (h.high.value < QUEEN && h.IsConnected()) || h.CardGap() == 1
  }

  function StraightBonus(h: Hand): real { if StraightBonusApplies(h) then 1.0 else 0.0 }

  /**
   * ChenScore.score: a pair scores twice its card points, at least 5; any
   * other hand scores the ceiling of its card points plus the suited bonus,
   * the gap penalty and the straight bonus.
   */
  function Score(h: Hand): (r: int)
    ensures h.IsPair() ==> r as real == if 2.0 * PointsForCard(h.high) > 5.0 then 2.0 * PointsForCard(h.high) else 5.0
    ensures !h.IsPair() ==>
      var total := PointsForCard(h.high) + SuitedBonus(h) + Penalty(h) + StraightBonus(h);
      r as real - 1.0 < total <= r as real
  {
    var points := PointsForCard(h.high);
    if h.IsPair() then
      if points * 2.0 > 5.0 then (points * 2.0).Floor else 5
    else
      var points := points + SuitedBonus(h);
      var points := points + Penalty(h);
      var points := points + StraightBonus(h);
      Ceiling(points)
  }

  /** The gap penalties grow with the gap: -1, -2, -4, then -5 for every wider gap. */
  lemma GapPenaltyMonotone(g1: int, g2: int)
    requires 1 <= g1 <= g2
    ensures GapPenalty(g2) <= GapPenalty(g1) < 0.0
  {
  }

  /** For two hands that differ only in suits, the suited one scores exactly 2 more (pairs excepted). */
  lemma SuitedAddsTwo(suited: Hand, offsuit: Hand)
    requires suited.high.value == offsuit.high.value && suited.low.value == offsuit.low.value
    requires suited.IsSuited() && !offsuit.IsSuited() && !suited.IsPair()
    ensures Score(suited) == Score(offsuit) + 2
  {
    var t := PointsForCard(offsuit.high) + Penalty(offsuit) + StraightBonus(offsuit);
    assert PointsForCard(suited.high) + SuitedBonus(suited) + Penalty(suited) + StraightBonus(suited) == t + 2.0;
  }

  /** Every hand sorted by NewHand scores between -1 (e.g. 7-2 offsuit) and 20 (aces). */
  lemma ScoreRange(card1: Card, card2: Card)
    ensures -1 <= Score(NewHand(card1, card2)) <= 20
  {
    var h := NewHand(card1, card2);
    if !h.IsPair() {
      var total := PointsForCard(h.high) + SuitedBonus(h) + Penalty(h) + StraightBonus(h);
      assert h.high.value >= 3;
      assert h.high.value <= 6 ==> h.CardGap() <= 3;
      assert -2.0 < total <= 12.0;
    }
  }

  /** The hands of the Chen tests: 2-2, J-J, A-K suited, 5-7 suited, 2-7 offsuit. */
  lemma ScoreExamples()
    ensures Score(NewHand(Card(2, Suit(HEARTS)), Card(2, Suit(SPADES)))) == 5
    ensures Score(NewHand(Card(JACK, Suit(DIAMONDS)), Card(JACK, Suit(CLUBS)))) == 12
    ensures Score(NewHand(Card(ACE, Suit(SPADES)), Card(KING, Suit(SPADES)))) == 12
    ensures Score(NewHand(Card(5, Suit(HEARTS)), Card(7, Suit(HEARTS)))) == 6
    ensures Score(NewHand(Card(2, Suit(CLUBS)), Card(7, Suit(HEARTS)))) == -1
  {
  }
}
