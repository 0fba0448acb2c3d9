/**
 * Card value types of pokeher/cards.py: suits, cards, two-card starting hands,
 * the count-based flush finder and the named constants.
 */
module Cards {
  import opened Wrappers

  // Suit codes (Constants.CLUBS .. Constants.SPADES wrap these in Suit objects).
  const CLUBS: int := 0
  const DIAMONDS: int := 1
  const HEARTS: int := 2
  const SPADES: int := 3

  // Face values; number cards use their own value.
  const JACK: int := 11
  const QUEEN: int := 12
  const KING: int := 13
  const ACE: int := 14

  /** The suit codes the Suit constructor accepts. */
  type SuitCode = s: int | 0 <= s < 4

  /** The card values the Card constructor accepts (2 .. ace = 14). */
  type Value = v: int | 2 <= v <= 14 witness 2

  datatype Suit = Suit(suit: SuitCode)

  datatype Card = Card(value: Value, suit: Suit) {
    /** Card.is_pair: same value, suits ignored. */
    predicate IsPair(other: Card) { value == other.value }

    /** Card.is_suited: same suit, values ignored. */
    predicate IsSuited(other: Card) { suit == other.suit }
  }

  /** The assertion that fails in the Suit or Card constructor. */
  datatype CardError = SuitOutOfRange | ValueTooLow | ValueTooHigh | NotASuit

  /** Suit(suit): the constructor asserts 0 <= suit < 4. */
  function NewSuit(s: int): (r: Result<Suit, CardError>)
    ensures r.Success? <==> 0 <= s < 4
    ensures r.Success? ==> r.value.suit == s
    ensures r.Failure? ==> r.error == SuitOutOfRange
  {
    if 0 <= s < 4 then Success(Suit(s)) else Failure(SuitOutOfRange)
  }

  /**
   * Card(value, suit): asserts, in this order, value > 1, value < len(FACES) = 15
   * and that the suit argument is a Suit object (None stands for anything else).
   */
  function NewCard(value: int, suit: Option<Suit>): (r: Result<Card, CardError>)
    ensures r.Success? <==> 2 <= value <= 14 && suit.Some?
    ensures r.Success? ==> r.value.value == value && r.value.suit == suit.value
    ensures value < 2 ==> r == Failure(ValueTooLow)
    ensures value > 14 ==> r == Failure(ValueTooHigh)
    ensures 2 <= value <= 14 && suit.None? ==> r == Failure(NotASuit)
  {
    if value <= 1 then Failure(ValueTooLow)
    else if value >= 15 then Failure(ValueTooHigh)
    else if suit.None? then Failure(NotASuit)
    else Success(Card(value, suit.value))
  }

  /** Card equality compares value and suit; is_pair and is_suited each compare one of them. */
  lemma CardEquality(a: Card, b: Card)
    ensures a == b <==> a.IsPair(b) && a.IsSuited(b)
  {
  }

  /** The 52 cards in the order the card tests build them: suit by suit, values 2 .. 14. */
  function AllCards(): (deck: seq<Card>)
    ensures |deck| == 52
  {
    seq(52, i requires 0 <= i < 52 => Card(2 + i % 13, Suit(i / 13)))
  }

  /** The constructor admits exactly 52 distinct cards: AllCards lists each once. */
  lemma AllCardsDistinctAndComplete()
    ensures forall i, j :: 0 <= i < j < |AllCards()| ==> AllCards()[i] != AllCards()[j]
    ensures forall c: Card :: c in AllCards()
  {
    var deck := AllCards();
    forall c: Card
      ensures c in deck
    {
      var k := 13 * c.suit.suit + (c.value - 2);
      assert k / 13 == c.suit.suit && k % 13 == c.value - 2;
      assert deck[k] == c;
    }
  }

  /** Hand: a two-card starting hand sorted into a high and a low card. */
  datatype Hand = Hand(high: Card, low: Card) {
    predicate IsPair() { high.value == low.value }
    predicate IsSuited() { high.suit == low.suit }
    function CardGap(): int { (high.value - low.value) - 1 }
    predicate IsConnected() { CardGap() < 1 }
  }

  /**
   * Hand(card1, card2): the strictly higher-valued card is `high`; on equal
   * values the second argument is `high`.
   */
  function NewHand(card1: Card, card2: Card): (h: Hand)
    ensures multiset{h.high, h.low} == multiset{card1, card2}
    ensures h.high.value >= h.low.value
    ensures card1.value == card2.value ==> h.high == card2 && h.low == card1
  {
    if card1.value > card2.value then Hand(card1, card2) else Hand(card2, card1)
  }

  /**
   * For a hand built by NewHand the gap is at least -1, and the hand is
   * connected exactly when it is a pair or the values are adjacent.
   */
  lemma ConnectedIffPairOrAdjacent(card1: Card, card2: Card)
    ensures NewHand(card1, card2).CardGap() >= -1
    ensures NewHand(card1, card2).IsConnected() <==>
      (card1.value == card2.value || card1.value - card2.value == 1 || card2.value - card1.value == 1)
    ensures NewHand(card1, card2).IsPair() <==> card1.IsPair(card2)
    ensures NewHand(card1, card2).IsSuited() <==> card1.IsSuited(card2)
  {
  }

  /** Number of cards of suit s. */
  function SuitCount(cards: seq<Card>, s: int): nat
  {
    if cards == [] then 0
    else SuitCount(cards[..|cards| - 1], s) + (if cards[|cards| - 1].suit.suit == s then 1 else 0)
  }

  /**
   * HandBuilder.select_flush_suit of pokeher/cards.py: counts the cards of each
   * suit, then returns the first suit (in the dictionary's iteration order
   * 0, 1, 2, 3) with at least five cards, or None when no suit has five.
   */
  method SelectFlushSuit(cards: seq<Card>) returns (r: Option<SuitCode>)
    ensures r.Some? ==> SuitCount(cards, r.value) >= 5
    ensures r.Some? ==> forall s: SuitCode :: s < r.value ==> SuitCount(cards, s) < 5
    ensures r.None? <==> forall s: SuitCode :: SuitCount(cards, s) < 5
  {
    var counts: map<SuitCode, nat> := map[0 := 0, 1 := 0, 2 := 0, 3 := 0];
    for i := 0 to |cards|
      invariant forall s: SuitCode :: s in counts && counts[s] == SuitCount(cards[..i], s)
    {
      assert cards[..i + 1][..i] == cards[..i];
      var value := cards[i].suit.suit;
      counts := counts[value := counts[value] + 1];
    }
    assert cards[..|cards|] == cards;
    for s := 0 to 4
      invariant forall t: SuitCode :: t < s ==> SuitCount(cards, t) < 5
    {
      if counts[s] >= 5 {
        return Some(s);
      }
    }
    return None;
  }
}
