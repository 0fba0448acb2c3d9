/**
 * pokeher/fear.py: OpponentHandFear classifies the amount an opponent asks us to
 * call and turns its tier into a hand-strength filter.
 */
module Fear {
  import opened Wrappers
  import opened Cards
  import opened BetSizing

  /** The object keeps only the tier its constructor computed. */
  datatype OpponentHandFear = OpponentHandFear(tier: BetTier)

  /** Why the constructor raises: num_blinds divided by a zero big blind. */
  datatype FearError = ZeroDivision

  /** The tiers a round uses: preflop exactly when no table cards are out. */
  function TiersFor(tableCards: seq<Card>): (r: seq<BetTier>)
    ensures |tableCards| == 0 ==> r == PreflopTiers()
    ensures |tableCards| > 0 ==> r == PostFlopTiers()
  {
    if |tableCards| == 0 then PreflopTiers() else PostFlopTiers()
  }

  /**
   * The constructor: builds BetTiers(pot, big_blind, is_preflop) with no opponent
   * stack and keeps tiers.tier(to_call). Both tier lists end in a tier that always
   * matches, so the only failure is the division by a zero big blind.
   */
  function NewFear(pot: int, bigBlind: int, tableCards: seq<Card>, toCall: int): (r: Result<OpponentHandFear, FearError>)
    ensures r.Success? <==> FirstMatch(TiersFor(tableCards), pot, bigBlind, toCall).Matched?
    ensures r.Success? ==> r.value.tier == FirstMatch(TiersFor(tableCards), pot, bigBlind, toCall).tier
    ensures r.Failure? ==> |tableCards| == 0 && bigBlind == 0 && toCall > 0
  {
    FearOutcome(pot, bigBlind, tableCards, toCall);
    match FirstMatch(TiersFor(tableCards), pot, bigBlind, toCall)
    case Matched(t) => Success(OpponentHandFear(t))
    case NoMatch => Failure(ZeroDivision)
    case DivisionByZero => Failure(ZeroDivision)
  }

  /** The tier search of the constructor never falls off the end of its list. */
  lemma FearOutcome(pot: int, bigBlind: int, tableCards: seq<Card>, toCall: int)
    ensures !FirstMatch(TiersFor(tableCards), pot, bigBlind, toCall).NoMatch?
    ensures FirstMatch(TiersFor(tableCards), pot, bigBlind, toCall).DivisionByZero? ==>
      |tableCards| == 0 && bigBlind == 0 && toCall > 0
  {
    PreflopClassification(pot, bigBlind, toCall);
    PostFlopClassification(pot, bigBlind, toCall);
    FirstMatchOfFive(PreflopTiers(), pot, bigBlind, toCall);
  }

  /** RAISE_FEARS.get(name, -1). */
  function RaiseFear(name: TierName): int
  {
    match name
    case CHECK => -1
    case MIN_RAISE => 30
    case RAISE => 35
    case BIG_RAISE => 45
    case OVERBET => 55
    case ALL_IN => -1
  }

  /**
   * hand_filter: the fear value of the tier's name, -1 for CHECK and for a name the
   * table does not list.
   */
  function HandFilter(f: OpponentHandFear): (r: int)
    ensures r == -1 <==> f.tier.name in {CHECK, ALL_IN}
    ensures r != -1 ==> 30 <= r <= 55
  {
    RaiseFear(f.tier.name)
  }

  /** The filter values grow along the tier order MIN_RAISE, RAISE, BIG_RAISE, OVERBET. */
  lemma FearIncreasesWithTier()
    ensures RaiseFear(CHECK) < RaiseFear(MIN_RAISE) < RaiseFear(RAISE) < RaiseFear(BIG_RAISE) < RaiseFear(OVERBET)
  {
  }

  /**
   * Without an opponent stack the constructor never lands on ALL_IN: every tier it
   * can hold comes from the preflop or post-flop list.
   */
  lemma NeverAllIn(pot: int, bigBlind: int, tableCards: seq<Card>, toCall: int)
    ensures var r := NewFear(pot, bigBlind, tableCards, toCall);
      r.Success? ==> r.value.tier.name != ALL_IN
    ensures var r := NewFear(pot, bigBlind, tableCards, toCall);
      r.Success? ==> (HandFilter(r.value) == -1 <==> r.value.tier.name == CHECK)
  {
    var t := FirstMatch(TiersFor(tableCards), pot, bigBlind, toCall);
    if t.Matched? {
      assert t.tier in TiersFor(tableCards);
    }
  }

  /**
   * Post-flop with a positive pot the filter follows the bet's share of the pot:
   * -1 for no bet, 30 up to the big blind or 12%, 35 up to 80%, 45 up to 130%, else 55.
   */
  lemma PostFlopFilter(pot: int, bigBlind: int, tableCards: seq<Card>, toCall: int)
    requires |tableCards| > 0 && pot > 0
    ensures NewFear(pot, bigBlind, tableCards, toCall).Success?
    ensures HandFilter(NewFear(pot, bigBlind, tableCards, toCall).value) ==
      if toCall == 0 then -1
      else if toCall == bigBlind || 100 * toCall <= 12 * pot then 30
      else if 100 * toCall <= 80 * pot then 35
      else if 100 * toCall <= 130 * pot then 45
      else 55
  {
    PostFlopClassification(pot, bigBlind, toCall);
  }
}
