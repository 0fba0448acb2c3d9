/**
 * pokeher/bet_sizing.py: BetTiers, which names the size class of an opponent's
 * bet, and the deterministic arithmetic of BetSizeCalculator.
 */
module BetSizing {
  import opened Wrappers
  import opened Utility

  datatype TierName = CHECK | MIN_RAISE | RAISE | BIG_RAISE | OVERBET | ALL_IN

  /** The test lambda a BetTier carries, over the tiers object's bet, bb and pot. */
  datatype Rule =
    | BelowBlind            // v.bet < v.bb
    | EqualsBlind           // v.bet == v.bb
    | UnderBlinds(n: int)   // num_blinds(v) = v.bet / v.bb < n
    | NoBet                 // v.bet == 0
    | BlindOrPotShare(p: int) // v.bet == v.bb or bet_percent(v) <= p
    | PotShare(p: int)      // bet_percent(v) <= p, bet_percent = percentage(bet, pot)
    | Always                // lambda v: True

  datatype BetTier = BetTier(name: TierName, rule: Rule)

  /** prefop_tiers, in list order. */
  function PreflopTiers(): seq<BetTier>
  {
    [BetTier(CHECK, BelowBlind), BetTier(MIN_RAISE, EqualsBlind), BetTier(RAISE, UnderBlinds(3)),
     BetTier(BIG_RAISE, UnderBlinds(6)), BetTier(OVERBET, Always)]
  }

  /** post_flop_tiers, in list order. */
  function PostFlopTiers(): seq<BetTier>
  {
    [BetTier(CHECK, NoBet), BetTier(MIN_RAISE, BlindOrPotShare(12)), BetTier(RAISE, PotShare(80)),
     BetTier(BIG_RAISE, PotShare(130)), BetTier(OVERBET, Always)]
  }

  /**
   * Runs a rule's lambda: Some(passed), or None when num_blinds would divide
   * by a zero big blind (Python raises ZeroDivisionError).
   */
  function Test(rule: Rule, pot: int, bb: int, bet: int): Option<bool>
  {
    match rule
    case BelowBlind => Some(bet < bb)
    case EqualsBlind => Some(bet == bb)
    case UnderBlinds(n) => if bb == 0 then None else Some((bet as real) / (bb as real) < n as real)
    case NoBet => Some(bet == 0)
    case BlindOrPotShare(p) => Some(bet == bb || Percentage(bet as real, pot as real) <= p as real)
    case PotShare(p) => Some(Percentage(bet as real, pot as real) <= p as real)
    case Always => Some(true)
  }

  /** What the loop of tier() ends with. */
  datatype Outcome = Matched(tier: BetTier) | NoMatch | DivisionByZero

  /** The first tier, in list order, whose test passes; an error stops the search. */
  function FirstMatch(tiers: seq<BetTier>, pot: int, bb: int, bet: int): (r: Outcome)
    ensures r.Matched? ==> r.tier in tiers && Test(r.tier.rule, pot, bb, bet) == Some(true)
    ensures r.DivisionByZero? ==> bb == 0
  {
    if tiers == [] then NoMatch
    else
      match Test(tiers[0].rule, pot, bb, bet)
      case None => DivisionByZero
      case Some(passed) => if passed then Matched(tiers[0]) else FirstMatch(tiers[1..], pot, bb, bet)
  }

  /** One step of the search: the tier itself if its test passes, otherwise what follows. */
  function Try(tier: BetTier, pot: int, bb: int, bet: int, rest: Outcome): Outcome
  {
    match Test(tier.rule, pot, bb, bet)
    case None => DivisionByZero
    case Some(passed) => if passed then Matched(tier) else rest
  }

  /** The search over a five-tier list, written out. */
  lemma FirstMatchOfFive(t: seq<BetTier>, pot: int, bb: int, bet: int)
    requires |t| == 5
    ensures FirstMatch(t, pot, bb, bet) ==
      Try(t[0], pot, bb, bet, Try(t[1], pot, bb, bet, Try(t[2], pot, bb, bet,
        Try(t[3], pot, bb, bet, Try(t[4], pot, bb, bet, NoMatch)))))
  {
    assert t[1..][1..] == t[2..] && t[2..][1..] == t[3..] && t[3..][1..] == t[4..] && t[4..][1..] == [];
    assert FirstMatch(t[4..], pot, bb, bet) == Try(t[4], pot, bb, bet, NoMatch);
    assert FirstMatch(t[3..], pot, bb, bet) == Try(t[3], pot, bb, bet, FirstMatch(t[4..], pot, bb, bet));
    assert FirstMatch(t[2..], pot, bb, bet) == Try(t[2], pot, bb, bet, FirstMatch(t[3..], pot, bb, bet));
    assert FirstMatch(t[1..], pot, bb, bet) == Try(t[1], pot, bb, bet, FirstMatch(t[2..], pot, bb, bet));
  }

  class BetTiers {
    var pot: int
    var bb: int
    var stack: Option<int>
    var bet: Option<int>
    var tiers: seq<BetTier>

    constructor (pot: int, bigBlind: int, isPreflop: bool := false, opponentStack: Option<int> := None)
      ensures this.pot == pot && bb == bigBlind && stack == opponentStack && bet == None
      ensures tiers == if isPreflop then PreflopTiers() else PostFlopTiers()
    {
      this.pot := pot;
      bb := bigBlind;
      stack := opponentStack;
      bet := None;
      tiers := if isPreflop then PreflopTiers() else PostFlopTiers();
    }

    /**
     * tier(bet): ALL_IN when the bet equals the opponent's stack, before anything
     * else (and without recording the bet); otherwise records the bet and returns
     * the first tier, in list order, whose test passes.
     */
    method Tier(bet: int) returns (t: Outcome)
      modifies this`bet
      ensures stack == Some(bet) ==> t == Matched(BetTier(ALL_IN, Always)) && this.bet == old(this.bet)
      ensures stack != Some(bet) ==> this.bet == Some(bet) && t == FirstMatch(tiers, pot, bb, bet)
    {
      var allIn := BetTier(ALL_IN, Always);
      if stack == Some(bet) {
        return Matched(allIn);
      }
      this.bet := Some(bet);
      var i := 0;
      while i < |tiers|
        invariant 0 <= i <= |tiers|
        invariant FirstMatch(tiers[i..], pot, bb, bet) == FirstMatch(tiers, pot, bb, bet)
      {
        assert tiers[i..][1..] == tiers[i + 1..];
        var passed := Test(tiers[i].rule, pot, bb, bet);
        if passed.None? {
          return DivisionByZero;  // ZeroDivisionError
        }
        if passed.value {
          return Matched(tiers[i]);
        }
        i := i + 1;
      }
      return NoMatch;
    }
  }

  /**
   * Preflop: below the blind is CHECK and the blind itself MIN_RAISE; above it,
   * with a positive big blind, under 3 blinds is RAISE, under 6 BIG_RAISE and
   * anything else OVERBET. A bet above a zero big blind divides by zero.
   */
  lemma PreflopClassification(pot: int, bb: int, bet: int)
    ensures bet < bb ==> FirstMatch(PreflopTiers(), pot, bb, bet) == Matched(BetTier(CHECK, BelowBlind))
    ensures bet == bb ==> FirstMatch(PreflopTiers(), pot, bb, bet) == Matched(BetTier(MIN_RAISE, EqualsBlind))
    ensures bet > bb && bb == 0 ==> FirstMatch(PreflopTiers(), pot, bb, bet) == DivisionByZero
    ensures bb > 0 ==> FirstMatch(PreflopTiers(), pot, bb, bet).Matched?
    ensures bb > 0 ==> (FirstMatch(PreflopTiers(), pot, bb, bet).tier.name ==
      if bet < bb then CHECK
      else if bet == bb then MIN_RAISE
      else if bet < 3 * bb then RAISE
      else if bet < 6 * bb then BIG_RAISE
      else OVERBET)
  {
    FirstMatchOfFive(PreflopTiers(), pot, bb, bet);
    if bb > 0 {
      UnderBlindsTest(pot, bb, bet, 3);
      UnderBlindsTest(pot, bb, bet, 6);
    }
  }

  /** With a positive big blind, "fewer than n blinds" is a comparison without division. */
  lemma UnderBlindsTest(pot: int, bb: int, bet: int, n: int)
    requires bb > 0
    ensures Test(UnderBlinds(n), pot, bb, bet) == Some(bet < n * bb)
  {
    var q := (bet as real) / (bb as real);
    assert q * (bb as real) == bet as real;
    if q < n as real {
      assert q * (bb as real) < (n as real) * (bb as real);
    } else {
      assert q * (bb as real) >= (n as real) * (bb as real);
    }
  }

  /**
   * Post-flop with a positive pot: no bet is CHECK, the big blind or at most 12%
   * of the pot MIN_RAISE, at most 80% RAISE, at most 130% BIG_RAISE, else OVERBET.
   * The post-flop tests never fail: percentage guards its zero denominator.
   */
  lemma PostFlopClassification(pot: int, bb: int, bet: int)
    ensures FirstMatch(PostFlopTiers(), pot, bb, bet).Matched?
    ensures pot > 0 ==> (FirstMatch(PostFlopTiers(), pot, bb, bet).tier.name ==
      if bet == 0 then CHECK
      else if bet == bb || 100 * bet <= 12 * pot then MIN_RAISE
      else if 100 * bet <= 80 * pot then RAISE
      else if 100 * bet <= 130 * pot then BIG_RAISE
      else OVERBET)
  {
    FirstMatchOfFive(PostFlopTiers(), pot, bb, bet);
    if pot > 0 {
      PotShareTest(pot, bb, bet, 12);
      PotShareTest(pot, bb, bet, 80);
      PotShareTest(pot, bb, bet, 130);
    }
  }

  /** With a positive pot, "at most p percent of the pot" is a comparison without division. */
  lemma PotShareTest(pot: int, bb: int, bet: int, p: int)
    requires pot > 0
    ensures Test(PotShare(p), pot, bb, bet) == Some(100 * bet <= p * pot)
    ensures Test(BlindOrPotShare(p), pot, bb, bet) == Some(bet == bb || 100 * bet <= p * pot)
  {
    PercentageAtMost(bet as real, pot as real, p as real);
  }

  /** With pot 500 and big blind 20, bets 0, 20 and 200 are CHECK, MIN_RAISE and RAISE. */
  lemma PostFlopSmallBets()
    ensures FirstMatch(PostFlopTiers(), 500, 20, 0) == Matched(BetTier(CHECK, NoBet))
    ensures FirstMatch(PostFlopTiers(), 500, 20, 20) == Matched(BetTier(MIN_RAISE, BlindOrPotShare(12)))
    ensures FirstMatch(PostFlopTiers(), 500, 20, 200) == Matched(BetTier(RAISE, PotShare(80)))
  {
    PostFlopClassification(500, 20, 0);
    PostFlopClassification(500, 20, 20);
    PostFlopClassification(500, 20, 200);
  }

  /** With pot 500 and big blind 20, bets 500 and 750 are BIG_RAISE and OVERBET. */
  lemma PostFlopLargeBets()
    ensures FirstMatch(PostFlopTiers(), 500, 20, 500) == Matched(BetTier(BIG_RAISE, PotShare(130)))
    ensures FirstMatch(PostFlopTiers(), 500, 20, 750) == Matched(BetTier(OVERBET, Always))
  {
    PostFlopClassification(500, 20, 500);
    PostFlopClassification(500, 20, 750);
  }

  /** A tier object built with an opponent stack of 300 classes a bet of 300 as ALL_IN. */
  method AllInExample() returns (name: TierName)
    ensures name == ALL_IN
  {
    var tiers := new BetTiers(500, 20, opponentStack := Some(300));
    var t := tiers.Tier(300);
    name := t.tier.name;
  }

  /** BetSizeCalculator.pot_odds: the call as a percentage of the pot after calling. */
  function PotOdds(toCall: int, pot: int): (r: real)
    ensures pot + toCall != 0 ==> r * ((pot + toCall) as real) == 100.0 * toCall as real
    ensures pot + toCall == 0 ==> r == 0.0
    ensures pot > 0 && toCall >= 0 ==> 0.0 <= r < 100.0
  {
    if pot > 0 && toCall >= 0 then
      PercentageBelowWhole(toCall as real, (pot + toCall) as real);
      Percentage(toCall as real, (pot + toCall) as real)
    else
      Percentage(toCall as real, (pot + toCall) as real)
  }

  /** A nonnegative part of a strictly larger whole is at least 0 and under 100 percent. */
  lemma PercentageBelowWhole(part: real, whole: real)
    requires 0.0 <= part < whole
    ensures 0.0 <= Percentage(part, whole) < 100.0
  {
    var r := Percentage(part, whole);
    assert r * whole == 100.0 * part;
    assert r < 0.0 ==> r * whole < 0.0 * whole;
    assert r >= 100.0 ==> r * whole >= 100.0 * whole;
  }

  /** BetSizeCalculator.our_stack: the stack recorded for our name, 0 if there is none. */
  function OurStack(stacks: map<string, int>, me: string): (r: int)
    ensures me in stacks ==> r == stacks[me]
    ensures me !in stacks ==> r == 0
  {
    if me in stacks then stacks[me] else 0
  }

  /** Python 2 round(): to the nearest integer, halves away from zero. */
  function RoundHalfAway(x: real): (r: int)
    ensures x >= 0.0 ==> x - 0.5 < r as real <= x + 0.5
    ensures x < 0.0 ==> x - 0.5 <= r as real < x + 0.5
  {
    if x >= 0.0 then (x + 0.5).Floor else -((-x + 0.5).Floor)
  }

  /**
   * BetSizeCalculator.finalize_bet: a bet that would leave less than a quarter of a
   * positive stack behind becomes the whole stack; the bet is then rounded.
   */
  function FinalizeBet(stacks: map<string, int>, me: string, val: real): (r: int)
    ensures var stack := OurStack(stacks, me);
      stack > 0 && 0.0 < stack as real - val && 4.0 * (stack as real - val) < stack as real ==> r == stack
    ensures var stack := OurStack(stacks, me);
      stack > 0 && !(0.0 < stack as real - val && 4.0 * (stack as real - val) < stack as real) ==>
        r == RoundHalfAway(val)
    ensures OurStack(stacks, me) == 0 ==> r == if val < 0.0 then 0 else RoundHalfAway(val)
  {
    var stack := OurStack(stacks, me);
    var remaining := stack as real - val;
    QuarterTest(remaining, stack as real);
    var v := if remaining > 0.0 && Percentage(remaining, stack as real) < 25.0 then stack as real else val;
    RoundHalfAway(v)
  }

  /** For a positive stack, "under 25 percent of the stack" is a comparison without division. */
  lemma QuarterTest(remaining: real, stack: real)
    ensures stack > 0.0 ==> (Percentage(remaining, stack) < 25.0 <==> 4.0 * remaining < stack)
  {
    if stack > 0.0 {
      var p := Percentage(remaining, stack);
      assert p * stack == 100.0 * remaining;
      if p < 25.0 {
        assert p * stack < 25.0 * stack;
      } else {
        assert p * stack >= 25.0 * stack;
      }
    }
  }
}
