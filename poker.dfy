/**
 * arena/poker.py: PokerHand.betting_round, the loop that asks the bot whose turn
 * it is for an action and feeds the answer to a BettingRound until nobody is due
 * to act.
 */
module Poker {
  import opened Wrappers
  import opened Actions
  import Betting

  type Name = Betting.Name

  /**
   * The parent's answers, in the order it is asked. Whatever the parent is, one run
   * of the loop sees some such sequence; a None entry, or any turn past the end,
   * is the parent answering None.
   */
  type Script = seq<Option<GameAction>>

  /** One say_action report: the seat and the action it took. */
  type Said = seq<(Name, GameAction)>

  /** The action used on turn k: the parent's answer, with None read as a fold. */
  function Answer(script: Script, k: nat): (a: GameAction)
    ensures k >= |script| ==> a.IsFold()
  {
    if k < |script| && script[k].Some? then script[k].value else GameAction(FOLD, 0)
  }

  /**
   * The dispatch of one answer by the seat next_better named: a fold goes to
   * post_fold, a raise or call to post_bet with its amount, a check to post_bet
   * with 0, and any other code changes nothing. The seats never change, staked
   * seats can only leave, and a fold always takes one out.
   */
  function Applied(r: Betting.Round, p: Name, a: GameAction): (s: Betting.Round)
    requires Betting.Indexed(r) && Betting.NextOf(r) == Some(p)
    ensures Betting.Indexed(s) && s.bots == r.bots && s.bets.Keys <= r.bets.Keys
    ensures |s.bets| <= |r.bets| && (a.IsFold() ==> |s.bets| < |r.bets|)
  {
    Betting.PostBetEffect(r, p, a.amount);
    Betting.PostBetEffect(r, p, 0);
    Betting.PostFoldEffect(r, p);
    if a.IsFold() then Betting.AfterFold(r, p)
    else if a.IsRaise() || a.IsCall() then Betting.AfterBet(r, p, a.amount).0
    else if a.IsCheck() then Betting.AfterBet(r, p, 0).0
    else r
  }

  /**
   * The rest of the loop from round r on turn k: the final round and what
   * say_action reports from here on. It ends because every scripted turn uses up
   * the script and every later turn is a fold that takes a seat out.
   */
  function Play(r: Betting.Round, script: Script, k: nat): (t: (Betting.Round, Said))
    requires Betting.Indexed(r)
    ensures Betting.Indexed(t.0)
    decreases (if k < |script| then |script| - k else 0) + |r.bets|
  {
    match Betting.NextOf(r)
    case None => (r, [])
    case Some(p) =>
      var a := Answer(script, k);
      var next := Play(Applied(r, p, a), script, k + 1);
      (next.0, [(p, a)] + next.1)
  }

  /**
   * One turn of Play: the seat next_better names acts on the answer for turn k,
   * Play ends where it ends from the turn after, and the report gains that turn
   * in front of the rest.
   */
  lemma PlayTurn(r: Betting.Round, script: Script, k: nat, p: Name, said: Said)
    requires Betting.Indexed(r) && Betting.NextOf(r) == Some(p)
    ensures Play(r, script, k).0 == Play(Applied(r, p, Answer(script, k)), script, k + 1).0
    ensures said + Play(r, script, k).1 == (said + [(p, Answer(script, k))]) + Play(Applied(r, p, Answer(script, k)), script, k + 1).1
  {
    var a := Answer(script, k);
    var rest := Play(Applied(r, p, a), script, k + 1).1;
    assert Play(r, script, k).1 == [(p, a)] + rest;
    assert said + ([(p, a)] + rest) == (said + [(p, a)]) + rest;
  }

  /** The loop stops only when next_better answers None, with the turn index still on a seat. */
  lemma {:induction false} PlayEnds(r: Betting.Round, script: Script, k: nat)
    requires Betting.Indexed(r)
    ensures var s := Play(r, script, k).0;
      Betting.Indexed(s) && Betting.NextOf(s).None?
    decreases (if k < |script| then |script| - k else 0) + |r.bets|
  {
    match Betting.NextOf(r)
    case None =>
    case Some(p) =>
      PlayEnds(Applied(r, p, Answer(script, k)), script, k + 1);
  }

  /** The seats stay as they are and the remaining players are among those staked at the start. */
  lemma {:induction false} PlayOnlyRemoves(r: Betting.Round, script: Script, k: nat)
    requires Betting.Indexed(r)
    ensures var s := Play(r, script, k).0;
      s.bots == r.bots && s.bets.Keys <= r.bets.Keys
    decreases (if k < |script| then |script| - k else 0) + |r.bets|
  {
    match Betting.NextOf(r)
    case None =>
    case Some(p) =>
      PlayOnlyRemoves(Applied(r, p, Answer(script, k)), script, k + 1);
  }

  /** The first turn of Play: the seat next_better names is reported with its answer. */
  lemma PlayFirst(r: Betting.Round, script: Script, k: nat, p: Name)
    requires Betting.Indexed(r) && Betting.NextOf(r) == Some(p)
    ensures Play(r, script, k).1 == [(p, Answer(script, k))] + Play(Applied(r, p, Answer(script, k)), script, k + 1).1
  {
  }

  /** Each report, in order from turn k on, carries the answer for its turn. */
  predicate AnswersFrom(said: Said, script: Script, k: nat)
    decreases |said|
  {
    said == [] || (said[0].1 == Answer(script, k) && AnswersFrom(said[1..], script, k + 1))
  }

  /** AnswersFrom read position by position: the j-th report carries the answer for turn k + j. */
  lemma {:induction false} AnswersFromAt(said: Said, script: Script, k: nat)
    requires AnswersFrom(said, script, k)
    ensures forall j :: 0 <= j < |said| ==> said[j].1 == Answer(script, k + j)
    decreases |said|
  {
    if said != [] {
      AnswersFromAt(said[1..], script, k + 1);
      forall j | 0 <= j < |said|
        ensures said[j].1 == Answer(script, k + j)
      {
        if j > 0 {
          assert said[j] == said[1..][j - 1];
        }
      }
    }
  }

  /**
   * say_action is called once per handled turn: the j-th report carries the
   * answer for turn k + j, and the seat it names was staked when the loop
   * reached it.
   */
  lemma {:induction false} PlaySays(r: Betting.Round, script: Script, k: nat)
    requires Betting.Indexed(r)
    ensures AnswersFrom(Play(r, script, k).1, script, k)
    ensures forall j :: 0 <= j < |Play(r, script, k).1| ==> Play(r, script, k).1[j].0 in r.bets
    decreases (if k < |script| then |script| - k else 0) + |r.bets|
  {
    match Betting.NextOf(r)
    case None =>
    case Some(p) =>
      var a := Answer(script, k);
      var s := Applied(r, p, a);
      PlaySays(s, script, k + 1);
      PlayFirst(r, script, k, p);
      var said := Play(r, script, k).1;
      assert said[1..] == Play(s, script, k + 1).1;
      SaidSeats(said, Play(s, script, k + 1).1, p, a, s.bets, r.bets);
  }

  /** The step of PlaySays for seats: the first report is p's, the later ones come from the recursive call. */
  lemma SaidSeats(said: Said, rest: Said, p: Name, a: GameAction, later: map<Name, int>, staked: map<Name, int>)
    requires said == [(p, a)] + rest
    requires p in staked && later.Keys <= staked.Keys
    requires forall j :: 0 <= j < |rest| ==> rest[j].0 in later
    ensures forall j :: 0 <= j < |said| ==> said[j].0 in staked
  {
    forall j | 0 <= j < |said|
      ensures said[j].0 in staked
    {
      if j > 0 {
        assert said[j] == rest[j - 1];
      }
    }
  }

  /**
   * The number of turns is bounded: at most one per remaining scripted answer plus
   * one per seat then staked, since each turn past the script folds a seat.
   */
  lemma {:induction false} PlayTurns(r: Betting.Round, script: Script, k: nat)
    requires Betting.Indexed(r)
    ensures |Play(r, script, k).1| <= (if k < |script| then |script| - k else 0) + |r.bets|
    decreases (if k < |script| then |script| - k else 0) + |r.bets|
  {
    match Betting.NextOf(r)
    case None =>
    case Some(p) =>
      var a := Answer(script, k);
      var s := Applied(r, p, a);
      PlayTurns(s, script, k + 1);
  }

  /**
   * Heads-up after the blinds (a 10, b 20, pot 30): a calls 10 and b checks its
   * option, which ends the round with both seats in and 40 in the pot.
   */
  lemma HeadsUpCallCheck()
    ensures var r := Betting.Round(["a", "b"], map["a" := 10, "b" := 20], 30, Some(20), Some("b"), None, 0, false);
      var (s, said) := Play(r, [Some(GameAction(CALL, 10)), Some(GameAction(CHECK, 0))], 0);
      s.bets.Keys == {"a", "b"} && s.pot == 40 && s.finished &&
      said == [("a", GameAction(CALL, 10)), ("b", GameAction(CHECK, 0))]
  {
    var r := Betting.Round(["a", "b"], map["a" := 10, "b" := 20], 30, Some(20), Some("b"), None, 0, false);
    var script := [Some(GameAction(CALL, 10)), Some(GameAction(CHECK, 0))];
    assert Betting.NextOf(r) == Some("a");
    var r1 := r.(bets := map["a" := 20, "b" := 20], pot := 40, nextIndex := 1);
    assert Applied(r, "a", GameAction(CALL, 10)) == r1;
    assert Betting.NextOf(r1) == Some("b");
    var r2 := r1.(highBetter := Some("b"), finished := true, nextIndex := 0);
    assert Applied(r1, "b", GameAction(CHECK, 0)) == r2;
    assert Betting.NextOf(r2).None?;
    assert Play(r2, script, 2) == (r2, []);
    assert Answer(script, 1) == GameAction(CHECK, 0);
    assert Play(r1, script, 1).0 == r2;
    assert Play(r1, script, 1).1 == [("b", GameAction(CHECK, 0))] + [];
    assert Answer(script, 0) == GameAction(CALL, 10);
    assert Play(r, script, 0).0 == r2;
    assert Play(r, script, 0).1 == [("a", GameAction(CALL, 10))] + [("b", GameAction(CHECK, 0))];
    assert r2.bets.Keys == {"a", "b"};
  }

  /**
   * As written, a seat that folded stays in the turn order, and next_better
   * answers None when the turn comes back to it. Three seats after the blinds
   * (a 10, b 20, c to act): c folds, a calls 10, b raises 20, and the loop stops
   * at c's empty seat with the round not finished and a, still staked, 20 short
   * of the 40 to call.
   */
  lemma FoldedSeatEndsRound()
    ensures var s := Play(FoldedStart(), FoldedScript(), 0).0;
      Betting.NextOf(s).None? && !s.finished && "a" in s.bets && s.sidepot == Some(40) && s.bets["a"] == 20
  {
    FoldedTurn1();
    FoldedTurn2();
    FoldedTurn3();
    assert Betting.NextOf(FoldedEnd()).None?;
    assert Play(FoldedEnd(), FoldedScript(), 3).0 == FoldedEnd();
  }

  /** Three seats after the blinds, c to act. */
  function FoldedStart(): Betting.Round
  {
    Betting.Round(["a", "b", "c"], map["a" := 10, "b" := 20, "c" := 0], 30, Some(20), Some("b"), None, 2, false)
  }

  /** c folds, a calls 10, b raises 20. */
  function FoldedScript(): Script
  {
    [Some(GameAction(FOLD, 0)), Some(GameAction(CALL, 10)), Some(GameAction(RAISE, 20))]
  }

  /** The round after c's fold. */
  function FoldedAfter1(): Betting.Round
  {
    FoldedStart().(bets := map["a" := 10, "b" := 20], nextIndex := 0)
  }

  /** The round after a's call. */
  function FoldedAfter2(): Betting.Round
  {
    FoldedAfter1().(bets := map["a" := 20, "b" := 20], pot := 40, nextIndex := 1)
  }

  /** The round after b's raise, where the loop stops. */
  function FoldedEnd(): Betting.Round
  {
    FoldedAfter2().(bets := map["a" := 20, "b" := 40], pot := 60, sidepot := Some(40), highBetter := Some("b"), nextIndex := 2)
  }

  /** Turn 0 of FoldedSeatEndsRound: c folds. */
  lemma FoldedTurn1()
    ensures Play(FoldedStart(), FoldedScript(), 0).0 == Play(FoldedAfter1(), FoldedScript(), 1).0
  {
    var r := FoldedStart();
    assert Betting.NextOf(r) == Some("c");
    assert Answer(FoldedScript(), 0) == GameAction(FOLD, 0);
    assert r.bets - {"c"} == FoldedAfter1().bets;
    assert Applied(r, "c", GameAction(FOLD, 0)) == FoldedAfter1();
  }

  /** Turn 1 of FoldedSeatEndsRound: a calls 10. */
  lemma FoldedTurn2()
    ensures Play(FoldedAfter1(), FoldedScript(), 1).0 == Play(FoldedAfter2(), FoldedScript(), 2).0
  {
    var r := FoldedAfter1();
    assert Betting.NextOf(r) == Some("a");
    assert Answer(FoldedScript(), 1) == GameAction(CALL, 10);
    assert Applied(r, "a", GameAction(CALL, 10)) == FoldedAfter2();
  }

  /** Turn 2 of FoldedSeatEndsRound: b raises 20. */
  lemma FoldedTurn3()
    ensures Play(FoldedAfter2(), FoldedScript(), 2).0 == Play(FoldedEnd(), FoldedScript(), 3).0
  {
    var r := FoldedAfter2();
    assert Betting.NextOf(r) == Some("b");
    assert Answer(FoldedScript(), 2) == GameAction(RAISE, 20);
    assert Applied(r, "b", GameAction(RAISE, 20)) == FoldedEnd();
  }

  /** With folded seats passed over, the round of FoldedSeatEndsRound goes on: a is asked to call. */
  lemma SkippingFoldedSeatAsksCaller()
    ensures var s := Betting.Round(["a", "b", "c"], map["a" := 20, "b" := 40], 60, Some(40), Some("b"), Some("b"), 2, false);
      Betting.NextOf(s).None? && Betting.NextStaked(s) == Some("a")
  {
    var s := Betting.Round(["a", "b", "c"], map["a" := 20, "b" := 40], 60, Some(40), Some("b"), Some("b"), 2, false);
    assert Betting.SeatAfter(s, 0) == "c" && Betting.SeatAfter(s, 1) == "a";
    assert Betting.FirstStaked(s, 1) == 1;
    assert Betting.FirstStaked(s, 0) == 1;
  }

  /** PokerHand, as far as betting_round uses it: the pot and the round it last ran. */
  class PokerHand {
    var pot: int
    var br: Betting.BettingRound?

    constructor (pot: int)
      ensures this.pot == pot && br == null
    {
      this.pot := pot;
      br := null;
    }

    /**
     * betting_round(br): runs the loop on the given round and answers its remaining
     * players. The round and the report end as Play says, so next_better is None
     * at the end and every post_bet or post_fold went to the seat it named.
     */
    method BettingRound(round: Betting.BettingRound, script: Script) returns (remaining: set<Name>, said: Said)
      requires round.Valid() && |round.bots| > 0
      modifies this`br, round
      ensures br == round && round.Valid()
      ensures round.State() == Play(old(round.State()), script, 0).0
      ensures said == Play(old(round.State()), script, 0).1
      ensures remaining == round.RemainingPlayers()
    {
      br := round;
      ghost var r0 := round.State();
      var k := 0;
      said := [];
      assert [] + Play(r0, script, 0).1 == Play(r0, script, 0).1;
      var current := round.NextBetter();
      while current.Some?
        invariant br == round && round.Valid() && round.bots == r0.bots
        invariant current == round.NextBetter()
        invariant Play(r0, script, 0).0 == Play(round.State(), script, k).0
        invariant Play(r0, script, 0).1 == said + Play(round.State(), script, k).1
        decreases (if k < |script| then |script| - k else 0) + |round.bets|
      {
        ghost var before := round.State();
        PlayTurn(before, script, k, current.value, said);
        said := TakeTurn(round, script, k, current.value, said);
        k := k + 1;
        current := round.NextBetter();
      }
      assert Play(round.State(), script, k).0 == round.State();
      assert Play(round.State(), script, k).1 == [];
      assert said + [] == said;
      remaining := round.RemainingPlayers();
    }

    /**
     * One pass of the loop body: the answer for turn k goes to post_fold or
     * post_bet, and say_action reports it.
     */
    method TakeTurn(round: Betting.BettingRound, script: Script, k: nat, player: Name, said: Said) returns (said': Said)
      requires round.Valid() && |round.bots| > 0 && round.NextBetter() == Some(player)
      modifies round
      ensures round.Valid() && round.bots == old(round.bots)
      ensures round.State() == Applied(old(round.State()), player, Answer(script, k))
      ensures said' == said + [(player, Answer(script, k))]
    {
      var action := Answer(script, k);
      if action.IsFold() {
        var stillIn := round.PostFold(player);
      } else if action.IsRaise() || action.IsCall() {
        var accepted := round.PostBet(player, action.amount);
      } else if action.IsCheck() {
        var accepted := round.PostBet(player, 0);
      }
      said' := said + [(player, action)];
    }
  }
}
