/**
 * arena/betting.py: the blind schedule (Blinds, BlindManager), the no-limit bet
 * check and BettingRound, the wagering machine for one street.
 */
module Betting {
  import opened Wrappers

  /** Seats are identified by the bot's name. */
  type Name = string

  // ------------------------------------------------------------------ Blinds

  datatype Blinds = Blinds(small: int, big: int)

  /** The assertion in Blinds.__init__ failing. */
  datatype BlindsError = BigBlindNotAboveSmall

  const BLIND_MULTIPLIER: int := 2

  /** Blinds(small, big): accepted exactly when the big blind is above the small one. */
  function NewBlinds(small: int, big: int): (r: Result<Blinds, BlindsError>)
    ensures r.Success? <==> big > small
    ensures r.Success? ==> r.value.small == small && r.value.big == big
  {
    if big > small then Success(Blinds(small, big)) else Failure(BigBlindNotAboveSmall)
  }

  /**
   * __increment_blinds: both blinds times BLIND_MULTIPLIER, through the same
   * constructor; it goes through exactly when the old blinds were ordered.
   */
  function IncrementedBlinds(b: Blinds): (r: Result<Blinds, BlindsError>)
    ensures r.Success? <==> b.big > b.small
    ensures r.Success? ==> r.value.small == 2 * b.small && r.value.big == 2 * b.big
  {
    NewBlinds(b.small * BLIND_MULTIPLIER, b.big * BLIND_MULTIPLIER)
  }

  // ------------------------------------------------------------ BlindManager

  /** The comprehension at the end of eliminate_player: every seat but the named one, in order. */
  function RemoveSeat(bots: seq<Name>, name: Name): (r: seq<Name>)
    ensures |r| <= |bots|
  {
    if bots == [] then []
    else (if bots[0] == name then [] else [bots[0]]) + RemoveSeat(bots[1..], name)
  }

  /**
   * The small-blind index after eliminate_player's scan from position i on: at
   * each seat holding the name, an index strictly above it moves down by one
   * (modulo the seat count before removal).
   */
  function ShiftedSmallBlind(bots: seq<Name>, name: Name, sb: int, i: int): int
    requires 0 <= i <= |bots|
    decreases |bots| - i
  {
    if i == |bots| then sb
    else ShiftedSmallBlind(bots, name, if bots[i] == name && sb > i then (sb - 1) % |bots| else sb, i + 1)
  }

  /** No two seats share a name. */
  predicate Distinct(bots: seq<Name>) {
    forall i, j :: 0 <= i < j < |bots| ==> bots[i] != bots[j]
  }

  /** Removal keeps exactly the seats with other names. */
  lemma {:induction false} RemoveSeatMembers(bots: seq<Name>, name: Name)
    ensures forall b :: b in RemoveSeat(bots, name) <==> b in bots && b != name
  {
    if bots != [] {
      RemoveSeatMembers(bots[1..], name);
      assert bots == [bots[0]] + bots[1..];
    }
  }

  lemma {:induction false} RemoveSeatAbsent(bots: seq<Name>, name: Name)
    requires forall j :: 0 <= j < |bots| ==> bots[j] != name
    ensures RemoveSeat(bots, name) == bots
  {
    if bots != [] {
      RemoveSeatAbsent(bots[1..], name);
    }
  }

  /** With the name held by seat k alone, removal splices out exactly that seat. */
  lemma {:induction false} RemoveSeatSplices(bots: seq<Name>, name: Name, k: int)
    requires 0 <= k < |bots| && bots[k] == name
    requires forall j :: 0 <= j < |bots| && j != k ==> bots[j] != name
    ensures RemoveSeat(bots, name) == bots[..k] + bots[k + 1..]
  {
    if k == 0 {
      RemoveSeatAbsent(bots[1..], name);
    } else {
      RemoveSeatSplices(bots[1..], name, k - 1);
      assert bots[..k] == [bots[0]] + bots[1..][..k - 1];
      assert bots[k + 1..] == bots[1..][k..];
    }
  }

  /** Beyond the last seat holding the name the scan leaves the index alone. */
  lemma {:induction false} ShiftNoMatch(bots: seq<Name>, name: Name, sb: int, i: int)
    requires 0 <= i <= |bots|
    requires forall j :: i <= j < |bots| ==> bots[j] != name
    ensures ShiftedSmallBlind(bots, name, sb, i) == sb
    decreases |bots| - i
  {
    if i < |bots| {
      ShiftNoMatch(bots, name, sb, i + 1);
    }
  }

  lemma {:induction false} ShiftOnce(bots: seq<Name>, name: Name, sb: int, k: int, i: int)
    requires 0 <= i <= k < |bots| && bots[k] == name
    requires forall j :: 0 <= j < |bots| && j != k ==> bots[j] != name
    requires 0 <= sb < |bots|
    ensures ShiftedSmallBlind(bots, name, sb, i) == if sb > k then sb - 1 else sb
    decreases k - i
  {
    if i < k {
      ShiftOnce(bots, name, sb, k, i + 1);
    } else {
      var next := if sb > k then (sb - 1) % |bots| else sb;
      assert next == if sb > k then sb - 1 else sb;
      ShiftNoMatch(bots, name, next, k + 1);
    }
  }

  /**
   * eliminate_player for a name only seat k holds: the other seats keep their
   * order, the small-blind index drops by one iff k was strictly below it, so the
   * same bot keeps the blind, and a removed small blind (not in the last seat)
   * passes to the seat after it.
   */
  lemma EliminateOneSeat(bots: seq<Name>, name: Name, sb: int, k: int)
    requires 0 <= k < |bots| && bots[k] == name
    requires forall j :: 0 <= j < |bots| && j != k ==> bots[j] != name
    requires 0 <= sb < |bots|
    ensures RemoveSeat(bots, name) == bots[..k] + bots[k + 1..]
    ensures ShiftedSmallBlind(bots, name, sb, 0) == if sb > k then sb - 1 else sb
    ensures sb != k ==> RemoveSeat(bots, name)[ShiftedSmallBlind(bots, name, sb, 0)] == bots[sb]
    ensures sb == k < |bots| - 1 ==> RemoveSeat(bots, name)[ShiftedSmallBlind(bots, name, sb, 0)] == bots[k + 1]
  {
    RemoveSeatSplices(bots, name, k);
    ShiftOnce(bots, name, sb, k, 0);
  }

  /**
   * As written, eliminating the last seat while it holds the small blind leaves
   * the index equal to the new seat count, one past the end: next_sb would raise
   * IndexError.
   */
  lemma EliminateLastSmallBlindOverruns(bots: seq<Name>, name: Name)
    requires |bots| > 0 && bots[|bots| - 1] == name
    requires forall j :: 0 <= j < |bots| - 1 ==> bots[j] != name
    ensures ShiftedSmallBlind(bots, name, |bots| - 1, 0) == |RemoveSeat(bots, name)|
  {
    EliminateOneSeat(bots, name, |bots| - 1, |bots| - 1);
  }

  /** The small-blind index wrapped by the number of seats left, as a rotation intends. */
  function WrappedSmallBlind(bots: seq<Name>, name: Name, sb: int): int
  {
    var rest := RemoveSeat(bots, name);
    if rest == [] then 0 else ShiftedSmallBlind(bots, name, sb, 0) % |rest|
  }

  /**
   * With the wrap, eliminating a seat always leaves a valid small-blind index: the
   * same bot keeps the blind, and a removed small blind passes to the next seat
   * round the table, the first seat when it was the last.
   */
  lemma WrappedSmallBlindNextSeat(bots: seq<Name>, name: Name, sb: int, k: int)
    requires 0 <= k < |bots| && bots[k] == name && |bots| >= 2
    requires forall j :: 0 <= j < |bots| && j != k ==> bots[j] != name
    requires 0 <= sb < |bots|
    ensures 0 <= WrappedSmallBlind(bots, name, sb) < |RemoveSeat(bots, name)|
    ensures RemoveSeat(bots, name)[WrappedSmallBlind(bots, name, sb)] ==
      if sb != k then bots[sb] else if k < |bots| - 1 then bots[k + 1] else bots[0]
  {
    EliminateOneSeat(bots, name, sb, k);
    WrapOnce(bots, name, sb, k);
  }

  /** The wrap changes the as-written index only when that index ran off the end. */
  lemma WrapOnce(bots: seq<Name>, name: Name, sb: int, k: int)
    requires 0 <= k < |bots| && bots[k] == name && |bots| >= 2
    requires forall j :: 0 <= j < |bots| && j != k ==> bots[j] != name
    requires 0 <= sb < |bots|
    ensures WrappedSmallBlind(bots, name, sb) ==
      if sb == k == |bots| - 1 then 0 else ShiftedSmallBlind(bots, name, sb, 0)
  {
    RemoveSeatSplices(bots, name, k);
    ShiftOnce(bots, name, sb, k, 0);
    var m := |RemoveSeat(bots, name)|;
    assert m == |bots| - 1;
    ModSmall(ShiftedSmallBlind(bots, name, sb, 0), m);
  }

  lemma ModSmall(a: int, m: int)
    requires 0 < m && 0 <= a <= m
    ensures a % m == if a == m then 0 else a
  {
  }

  /** BlindManager: who posts which blind, and when the blinds go up. */
  class BlindManager {
    var handsPerLevel: int
    var handsThisLevel: int
    var bots: seq<Name>
    var smallBlindsPlayed: seq<int>
    var sbIndex: int
    var blind: Blinds

    /**
     * Kept by every operation: ordered blinds, a non-negative small-blind index, and
     * a hand counter that is zero or still below the level length.
     */
    predicate Valid()
      reads this
    {
      blind.big > blind.small && 0 <= sbIndex && 0 <= handsThisLevel &&
      (handsThisLevel == 0 || handsThisLevel < handsPerLevel)
    }

    /** The small-blind index names a seat, as next_sb needs. */
    predicate SeatInRange()
      reads this
    {
      0 <= sbIndex < |bots|
    }

    constructor (handsPerLevel: int, bots: seq<Name>)
      ensures Valid() && this.handsPerLevel == handsPerLevel && handsThisLevel == 0
      ensures this.bots == bots && sbIndex == 0 && blind == Blinds(10, 20)
      ensures |smallBlindsPlayed| == |bots| && forall i :: 0 <= i < |bots| ==> smallBlindsPlayed[i] == 0
    {
      this.handsPerLevel := handsPerLevel;
      handsThisLevel := 0;
      this.bots := bots;
      smallBlindsPlayed := seq(|bots|, _ => 0);
      sbIndex := 0;
      blind := Blinds(10, 20);
    }

    /** next_sb: the small blind and the bot at the small-blind index. */
    function NextSb(): (r: (int, Name))
      reads this
      requires SeatInRange()
      ensures r.0 == blind.small && r.1 == bots[sbIndex]
    {
      (blind.small, bots[sbIndex])
    }

    /** next_bb: the big blind and the seat after the small blind, round the table. */
    function NextBb(): (r: (int, Name))
      reads this
      requires |bots| > 0
      ensures r.0 == blind.big && r.1 in bots
      ensures 0 <= sbIndex < |bots| - 1 ==> r.1 == bots[sbIndex + 1]
      ensures sbIndex == |bots| - 1 ==> r.1 == bots[0]
    {
      (blind.big, bots[(sbIndex + 1) % |bots|])
    }

    /**
     * finish_hand: the small blind moves one seat round the table and the hand
     * counter goes up; reaching the level length resets it and doubles both
     * blinds, which stay ordered.
     */
    method FinishHand()
      requires Valid() && |bots| > 0
      modifies this`sbIndex, this`handsThisLevel, this`blind
      ensures Valid() && SeatInRange()
      ensures sbIndex == (old(sbIndex) + 1) % |bots|
      ensures old(handsThisLevel) + 1 >= handsPerLevel ==>
        handsThisLevel == 0 && blind == Blinds(2 * old(blind.small), 2 * old(blind.big))
      ensures old(handsThisLevel) + 1 < handsPerLevel ==>
        handsThisLevel == old(handsThisLevel) + 1 && blind == old(blind)
    {
      sbIndex := (sbIndex + 1) % |bots|;
      handsThisLevel := handsThisLevel + 1;
      CheckRaiseBlinds();
    }

    method CheckRaiseBlinds()
      requires blind.big > blind.small
      modifies this`handsThisLevel, this`blind
      ensures blind.big > blind.small
      ensures old(handsThisLevel) >= handsPerLevel ==>
        handsThisLevel == 0 && blind == Blinds(2 * old(blind.small), 2 * old(blind.big))
      ensures old(handsThisLevel) < handsPerLevel ==>
        handsThisLevel == old(handsThisLevel) && blind == old(blind)
    {
      if handsThisLevel >= handsPerLevel {
        handsThisLevel := 0;
        IncrementBlinds();
      }
    }

    method IncrementBlinds()
      requires blind.big > blind.small
      modifies this`blind
      ensures blind == Blinds(2 * old(blind.small), 2 * old(blind.big)) && blind.big > blind.small
    {
      var next := IncrementedBlinds(blind);
      blind := next.value;
    }

    /**
     * eliminate_player: scans the seats, moving the small-blind index down past
     * each removed seat strictly below it, then drops every seat with that name.
     */
    method EliminatePlayer(name: Name)
      requires Valid()
      modifies this`bots, this`sbIndex
      ensures Valid()
      ensures bots == RemoveSeat(old(bots), name)
      ensures sbIndex == ShiftedSmallBlind(old(bots), name, old(sbIndex), 0)
    {
      var i := 0;
      while i < |bots|
        invariant 0 <= i <= |bots| && bots == old(bots) && 0 <= sbIndex
        invariant ShiftedSmallBlind(bots, name, sbIndex, i) == ShiftedSmallBlind(bots, name, old(sbIndex), 0)
      {
        if bots[i] == name && sbIndex > i {
          sbIndex := (sbIndex - 1) % |bots|;
        }
        i := i + 1;
      }
      bots := RemoveSeat(bots, name);
    }
  }

  /**
   * Five bots a..e: after one hand b and c post the blinds; after a second hand
   * and the elimination of c, d and e do.
   */
  method BlindsAfterElimination() returns (sbAfterOne: Name, sb: Name, bb: Name)
    ensures sbAfterOne == "b" && sb == "d" && bb == "e"
  {
    var bm := new BlindManager(5, ["a", "b", "c", "d", "e"]);
    bm.FinishHand();
    assert bm.sbIndex == 1;
    sbAfterOne := bm.NextSb().1;
    bm.FinishHand();
    assert bm.sbIndex == 2;
    EliminateThirdOfFive();
    bm.EliminatePlayer("c");
    assert bm.bots == ["a", "b", "d", "e"] && bm.sbIndex == 2;
    sb := bm.NextSb().1;
    bb := bm.NextBb().1;
  }

  lemma EliminateThirdOfFive()
    ensures RemoveSeat(["a", "b", "c", "d", "e"], "c") == ["a", "b", "d", "e"]
    ensures ShiftedSmallBlind(["a", "b", "c", "d", "e"], "c", 2, 0) == 2
  {
    var bots := ["a", "b", "c", "d", "e"];
    assert bots[0] != "c" && bots[1] != "c" && bots[3] != "c" && bots[4] != "c";
    EliminateOneSeat(bots, "c", 2, 2);
    assert bots[..2] + bots[3..] == ["a", "b", "d", "e"];
  }

  // --------------------------------------------------------------- NoBetLimit

  /** NoBetLimit.check_bet: any strictly positive bet is legal, whatever the pot. */
  function CheckBet(pot: int, bet: int): (legal: bool)
    ensures legal <==> bet > 0
  {
    bet > 0
  }

  // ------------------------------------------------------------- BettingRound

  /** A snapshot of a BettingRound's fields. */
  datatype Round = Round(
    bots: seq<Name>,
    bets: map<Name, int>,
    pot: int,
    sidepot: Option<int>,
    bigBlind: Option<Name>,
    highBetter: Option<Name>,
    nextIndex: int,
    finished: bool)

  /** Python 2's `bet > sidepot`, where None is below every integer. */
  predicate Exceeds(bet: int, sidepot: Option<int>) {
    sidepot.None? || bet > sidepot.value
  }

  /** Python 2's `bet >= sidepot`. */
  predicate Reaches(bet: int, sidepot: Option<int>) {
    sidepot.None? || bet >= sidepot.value
  }

  /** The turn index names a seat, as next_better needs. */
  predicate Indexed(r: Round) {
    0 <= r.nextIndex < |r.bots|
  }

  /**
   * max(bets, key=bets.get): None for no bets, otherwise some key with the largest
   * bet (which one among ties depends on dict order).
   */
  predicate IsBigBlind(bets: map<Name, int>, bb: Option<Name>) {
    if bets == map[] then bb.None?
    else bb.Some? && bb.value in bets && forall k :: k in bets ==> bets[k] <= bets[bb.value]
  }

  /** __process_bet: a bet above the side pot becomes it and, unless a blind, makes its seat the high better. */
  function Processed(r: Round, bet: int, player: Name, isBlind: bool): Round {
    var higher := Exceeds(bet, r.sidepot);
    r.(sidepot := if higher then Some(bet) else r.sidepot,
       highBetter := if higher && !isBlind then Some(player) else r.highBetter,
       bets := r.bets[player := bet])
  }

  /** The state __init__ starts its loop from: no side pot, no high better, no first actor yet. */
  function Unopened(bots: seq<Name>, bets: map<Name, int>, pot: int, bigBlind: Option<Name>): Round {
    Round(bots, bets, pot, None, bigBlind, None, -1, |bots| == 1)
  }

  /**
   * The constructor's loop after its first n seats: a posted bet goes into the
   * pot and through __process_bet as a blind; a seat without one gets bet 0 and,
   * if it is the first such seat, the first turn.
   */
  function Seated(r0: Round, n: int): (r: Round)
    requires 0 <= n <= |r0.bots|
    ensures r.bots == r0.bots && r.bigBlind == r0.bigBlind && r.finished == r0.finished
    ensures r.highBetter == r0.highBetter
    ensures r.nextIndex == r0.nextIndex || 0 <= r.nextIndex < n
  {
    if n == 0 then r0 else SeatStep(Seated(r0, n - 1), r0.bots[n - 1], n - 1)
  }

  /** One pass of the constructor's loop, for the bot in seat i. */
  function SeatStep(r: Round, bot: Name, i: int): (s: Round)
    ensures s.bots == r.bots && s.bigBlind == r.bigBlind && s.finished == r.finished
    ensures s.highBetter == r.highBetter
    ensures s.nextIndex == r.nextIndex || s.nextIndex == i
  {
    if bot in r.bets then
      Processed(r.(pot := r.pot + r.bets[bot]), r.bets[bot], bot, true)
    else
      r.(bets := r.bets[bot := 0], nextIndex := if r.nextIndex == -1 then i else r.nextIndex)
  }

  /** The round BettingRound(bots, bets, pot) builds, given the big blind max() picked. */
  function Opened(bots: seq<Name>, bets: map<Name, int>, pot: int, bigBlind: Option<Name>): Round {
    var r := Seated(Unopened(bots, bets, pot, bigBlind), |bots|);
    r.(nextIndex := if r.nextIndex == -1 then 0 else r.nextIndex)
  }

  /** The chips the seats had posted before the round. */
  function PostedTotal(bots: seq<Name>, bets: map<Name, int>): int {
    if bots == [] then 0
    else
      var last := bots[|bots| - 1];
      PostedTotal(bots[..|bots| - 1], bets) + (if last in bets then bets[last] else 0)
  }

  /** The bets once each of these seats has been visited: a seat without a bet gets 0. */
  function Filled(bets: map<Name, int>, bots: seq<Name>): map<Name, int> {
    if bots == [] then bets
    else
      var m := Filled(bets, bots[..|bots| - 1]);
      var b := bots[|bots| - 1];
      m[b := if b in m then m[b] else 0]
  }

  /** The side pot after __process_bet on each posted bet of these seats, in seat order. */
  function Highest(bets: map<Name, int>, bots: seq<Name>): Option<int> {
    if bots == [] then None
    else
      var h := Highest(bets, bots[..|bots| - 1]);
      var b := bots[|bots| - 1];
      if b in bets && Exceeds(bets[b], h) then Some(bets[b]) else h
  }

  /** The index __set_better_index keeps: the first seat without a posted bet, -1 if none. */
  function FirstUnposted(bets: map<Name, int>, bots: seq<Name>): int {
    if bots == [] then -1
    else
      var j := FirstUnposted(bets, bots[..|bots| - 1]);
      if j == -1 && bots[|bots| - 1] !in bets then |bots| - 1 else j
  }

  lemma {:induction false} FilledAt(bets: map<Name, int>, bots: seq<Name>, k: Name)
    ensures k in Filled(bets, bots) <==> k in bets || k in bots
    ensures k in bets ==> Filled(bets, bots)[k] == bets[k]
    ensures k !in bets && k in bots ==> Filled(bets, bots)[k] == 0
  {
    if bots != [] {
      FilledAt(bets, bots[..|bots| - 1], k);
      assert bots == bots[..|bots| - 1] + [bots[|bots| - 1]];
    }
  }

  /** The highest posted bet: None iff no seat posted, else a posted bet at least every other. */
  lemma {:induction false} HighestIsMax(bets: map<Name, int>, bots: seq<Name>)
    ensures var h := Highest(bets, bots);
      (h.None? <==> forall i :: 0 <= i < |bots| ==> bots[i] !in bets) &&
      (h.Some? ==> (exists i :: 0 <= i < |bots| && bots[i] in bets && bets[bots[i]] == h.value) &&
                   forall i :: 0 <= i < |bots| && bots[i] in bets ==> bets[bots[i]] <= h.value)
  {
    if bots != [] {
      var prefix := bots[..|bots| - 1];
      HighestIsMax(bets, prefix);
      assert forall i :: 0 <= i < |prefix| ==> prefix[i] == bots[i];
    }
  }

  /** The first unposted seat: -1 iff every seat posted, else an unposted seat with only posted ones before it. */
  lemma {:induction false} FirstUnpostedIsFirst(bets: map<Name, int>, bots: seq<Name>)
    ensures var j := FirstUnposted(bets, bots);
      (j == -1 <==> forall i :: 0 <= i < |bots| ==> bots[i] in bets) &&
      (j != -1 ==> 0 <= j < |bots| && bots[j] !in bets && forall i :: 0 <= i < j ==> bots[i] in bets)
  {
    if bots != [] {
      var prefix := bots[..|bots| - 1];
      FirstUnpostedIsFirst(bets, prefix);
      assert forall i :: 0 <= i < |prefix| ==> prefix[i] == bots[i];
    }
  }

  /** The n-th seat of distinct seats is not among the ones before it. */
  lemma DistinctLast(bots: seq<Name>, n: int)
    requires 0 < n <= |bots| && Distinct(bots)
    ensures bots[n - 1] !in bots[..n - 1]
  {
  }

  lemma {:induction false} SeatedFills(r0: Round, n: int)
    requires 0 <= n <= |r0.bots|
    ensures Seated(r0, n).bets == Filled(r0.bets, r0.bots[..n])
  {
    if n > 0 {
      SeatedFills(r0, n - 1);
      assert r0.bots[..n][..n - 1] == r0.bots[..n - 1];
    }
  }

  /** With distinct seats, the loop reaches seat n - 1 with that seat's posted status and bet untouched. */
  lemma SeatedPosted(r0: Round, n: int)
    requires 0 < n <= |r0.bots| && Distinct(r0.bots)
    ensures var bot := r0.bots[n - 1];
      (bot in Seated(r0, n - 1).bets <==> bot in r0.bets) &&
      (bot in r0.bets ==> Seated(r0, n - 1).bets[bot] == r0.bets[bot])
  {
    SeatedFills(r0, n - 1);
    DistinctLast(r0.bots, n);
    FilledAt(r0.bets, r0.bots[..n - 1], r0.bots[n - 1]);
  }

  lemma {:induction false} SeatedPot(r0: Round, n: int)
    requires 0 <= n <= |r0.bots| && Distinct(r0.bots)
    ensures Seated(r0, n).pot == r0.pot + PostedTotal(r0.bots[..n], r0.bets)
  {
    if n > 0 {
      SeatedPot(r0, n - 1);
      var prev := Seated(r0, n - 1);
      var bot := r0.bots[n - 1];
      var posted := if bot in r0.bets then r0.bets[bot] else 0;
      SeatedPosted(r0, n);
      assert Seated(r0, n).pot == prev.pot + posted;
      assert r0.bots[..n][..n - 1] == r0.bots[..n - 1];
      assert PostedTotal(r0.bots[..n], r0.bets) == PostedTotal(r0.bots[..n - 1], r0.bets) + posted;
    }
  }

  lemma {:induction false} SeatedSidepot(r0: Round, n: int)
    requires 0 <= n <= |r0.bots| && Distinct(r0.bots) && r0.sidepot.None?
    ensures Seated(r0, n).sidepot == Highest(r0.bets, r0.bots[..n])
  {
    if n > 0 {
      SeatedSidepot(r0, n - 1);
      SeatedPosted(r0, n);
      assert r0.bots[..n][..n - 1] == r0.bots[..n - 1];
    }
  }

  lemma {:induction false} SeatedFirstActor(r0: Round, n: int)
    requires 0 <= n <= |r0.bots| && r0.nextIndex == -1
    ensures Seated(r0, n).nextIndex == FirstUnposted(r0.bets, r0.bots[..n])
  {
    if n > 0 {
      SeatedFirstActor(r0, n - 1);
      var prefix := r0.bots[..n - 1];
      assert r0.bots[..n][..n - 1] == prefix;
      if FirstUnposted(r0.bets, prefix) == -1 {
        SeatedFills(r0, n - 1);
        FirstUnpostedIsFirst(r0.bets, prefix);
        FilledAt(r0.bets, prefix, r0.bots[n - 1]);
      }
    }
  }

  /**
   * The constructor's bets: the posted ones unchanged, every other seat at 0,
   * nothing else; no high better after blinds; finished iff there is one seat.
   */
  lemma OpenedBets(bots: seq<Name>, bets: map<Name, int>, pot: int, bigBlind: Option<Name>)
    ensures var r := Opened(bots, bets, pot, bigBlind);
      r.bots == bots && r.bigBlind == bigBlind && r.highBetter.None? && (r.finished <==> |bots| == 1)
    ensures var r := Opened(bots, bets, pot, bigBlind);
      (forall k :: k in r.bets <==> k in bets || k in bots) &&
      (forall k :: k in bets ==> r.bets[k] == bets[k]) &&
      (forall k :: k in bots && k !in bets ==> r.bets[k] == 0)
  {
    SeatedFills(Unopened(bots, bets, pot, bigBlind), |bots|);
    assert bots[..|bots|] == bots;
    forall k {
      FilledAt(bets, bots, k);
    }
  }

  /** With distinct seats, the pot starts at the given pot plus every posted bet. */
  lemma OpenedPot(bots: seq<Name>, bets: map<Name, int>, pot: int, bigBlind: Option<Name>)
    requires Distinct(bots)
    ensures Opened(bots, bets, pot, bigBlind).pot == pot + PostedTotal(bots, bets)
  {
    SeatedPot(Unopened(bots, bets, pot, bigBlind), |bots|);
    assert bots[..|bots|] == bots;
  }

  /** With distinct seats, the side pot is the largest posted bet, None when no seat posted. */
  lemma OpenedSidepot(bots: seq<Name>, bets: map<Name, int>, pot: int, bigBlind: Option<Name>)
    requires Distinct(bots)
    ensures var s := Opened(bots, bets, pot, bigBlind).sidepot;
      (s.None? <==> forall i :: 0 <= i < |bots| ==> bots[i] !in bets) &&
      (s.Some? ==> (exists i :: 0 <= i < |bots| && bots[i] in bets && bets[bots[i]] == s.value) &&
                   forall i :: 0 <= i < |bots| && bots[i] in bets ==> bets[bots[i]] <= s.value)
  {
    SeatedSidepot(Unopened(bots, bets, pot, bigBlind), |bots|);
    assert bots[..|bots|] == bots;
    HighestIsMax(bets, bots);
  }

  /** The first turn goes to the first seat that posted nothing, or to seat 0 if all posted. */
  lemma OpenedFirstActor(bots: seq<Name>, bets: map<Name, int>, pot: int, bigBlind: Option<Name>)
    ensures var j := Opened(bots, bets, pot, bigBlind).nextIndex;
      (|bots| > 0 ==> 0 <= j < |bots|) &&
      (forall i :: 0 <= i < j ==> bots[i] in bets) &&
      ((exists i :: 0 <= i < |bots| && bots[i] !in bets) ==> bots[j] !in bets) &&
      ((forall i :: 0 <= i < |bots| ==> bots[i] in bets) ==> j == 0)
  {
    SeatedFirstActor(Unopened(bots, bets, pot, bigBlind), |bots|);
    assert bots[..|bots|] == bots;
    FirstUnpostedIsFirst(bets, bots);
  }

  /** can_bet: staked, and not the high better. */
  predicate CanBetIn(r: Round, player: Name) {
    player in r.bets && Some(player) != r.highBetter
  }

  /**
   * next_better: the seat at the turn index if it can bet and the round is not
   * finished, otherwise None; it never names a folded seat or the high better.
   */
  function NextOf(r: Round): (b: Option<Name>)
    requires Indexed(r)
    ensures b.Some? <==> !r.finished && CanBetIn(r, r.bots[r.nextIndex])
    ensures b.Some? ==> b.value == r.bots[r.nextIndex] && b.value in r.bets && Some(b.value) != r.highBetter
  {
    var b := r.bots[r.nextIndex];
    if CanBetIn(r, b) && !r.finished then Some(b) else None
  }

  /** The seat e places after the turn index, round the table. */
  function SeatAfter(r: Round, e: nat): Name
    requires Indexed(r)
  {
    r.bots[(r.nextIndex + e) % |r.bots|]
  }

  /**
   * The offset, from d on, of the first staked seat in turn order, or -1 when
   * every seat from offset d to the last is folded.
   */
  function FirstStaked(r: Round, d: nat): (e: int)
    requires Indexed(r)
    ensures e == -1 || (d <= e < |r.bots| && SeatAfter(r, e) in r.bets)
    ensures forall f :: d <= f < |r.bots| && (e == -1 || f < e) ==> SeatAfter(r, f) !in r.bets
    decreases |r.bots| - d
  {
    if d >= |r.bots| then -1
    else if SeatAfter(r, d) in r.bets then d
    else FirstStaked(r, d + 1)
  }

  /**
   * next_better as evidently intended: folded seats are passed over, so the turn
   * goes to the first staked seat in turn order, unless that seat is the high
   * better or the round is finished. Wherever the as-written next_better names a
   * seat, this names the same one; beyond that it only adds the case where the
   * seat at the index has folded.
   */
  function NextStaked(r: Round): (b: Option<Name>)
    requires Indexed(r)
    ensures b.Some? ==> (!r.finished && b.value in r.bets && Some(b.value) != r.highBetter &&
      exists e :: 0 <= e < |r.bots| && b.value == SeatAfter(r, e) &&
        forall f :: 0 <= f < e ==> SeatAfter(r, f) !in r.bets)
    ensures b.None? && !r.finished ==>
      forall e :: 0 <= e < |r.bots| && SeatAfter(r, e) in r.bets && Some(SeatAfter(r, e)) != r.highBetter ==>
        exists f :: 0 <= f < e && SeatAfter(r, f) in r.bets
    ensures NextOf(r).Some? ==> b == NextOf(r)
  {
    var e := FirstStaked(r, 0);
    assert SeatAfter(r, 0) == r.bots[r.nextIndex];
    if !r.finished && e >= 0 && Some(SeatAfter(r, e)) != r.highBetter then Some(SeatAfter(r, e)) else None
  }

  /** __forward: the turn passes to the next seat round the table. */
  function Forwarded(r: Round): Round
    requires |r.bots| > 0
  {
    r.(nextIndex := (r.nextIndex + 1) % |r.bots|)
  }

  /** __fold: the seat leaves the bets; the round is finished iff one seat is left. */
  function Folded(r: Round, player: Name): Round
    requires player in r.bets
  {
    var bets := r.bets - {player};
    r.(bets := bets, finished := |bets| == 1)
  }

  /**
   * The big blind's option: with no high better, action back at the big blind and
   * its bet equal to the side pot, it becomes the high better and a check (0)
   * finishes the round.
   */
  function WithOption(r: Round, player: Name, bet: int): Round
    requires player in r.bets
  {
    if r.highBetter.None? && Some(player) == r.bigBlind && r.sidepot == Some(r.bets[player]) then
      r.(highBetter := r.bigBlind, finished := bet == 0)
    else r
  }

  /**
   * post_bet: the turn moves on, then the seat's total with this bet is accepted
   * iff it reaches the side pot (the pot grows by the bet), and otherwise the seat
   * is folded. The all_in flag has no effect.
   */
  function AfterBet(r: Round, player: Name, bet: int): (Round, bool)
    requires player in r.bets && |r.bots| > 0
  {
    var g := WithOption(Forwarded(r), player, bet);
    var current := g.bets[player] + bet;
    if Reaches(current, g.sidepot) then (Processed(g.(pot := g.pot + bet), current, player, false), true)
    else (Folded(g, player), false)
  }

  /** post_fold: the seat folds and the turn moves on. */
  function AfterFold(r: Round, player: Name): Round
    requires player in r.bets && |r.bots| > 0
  {
    Forwarded(Folded(r, player))
  }

  lemma MapRemoveCard(m: map<Name, int>, k: Name)
    requires k in m
    ensures |m - {k}| == |m| - 1
  {
    assert (m - {k}).Keys == m.Keys - {k};
  }

  /**
   * post_bet by the seat whose turn it is: the turn index moves one seat on; the
   * bet is accepted iff the seat's total reaches the side pot. Accepted, the pot
   * grows by exactly the bet, the seat's total becomes the side pot, and a new
   * high makes the seat the high better; rejected, the seat leaves the bets, the
   * pot and side pot stay, and the round is finished iff one seat remains. The
   * big blind's name never changes, and outside the big blind's option an accepted
   * bet leaves the round as finished or open as it was, and a bet that does not
   * top the side pot leaves the high better as it was.
   */
  lemma PostBetEffect(r: Round, player: Name, bet: int)
    requires Indexed(r) && NextOf(r) == Some(player)
    ensures var (s, ok) := AfterBet(r, player, bet);
      var current := r.bets[player] + bet;
      Indexed(s) && s.bots == r.bots && s.nextIndex == (r.nextIndex + 1) % |r.bots| &&
      (ok <==> Reaches(current, r.sidepot)) &&
      (ok ==> s.pot == r.pot + bet && s.bets == r.bets[player := current] && s.sidepot == Some(current)) &&
      (ok && Exceeds(current, r.sidepot) ==> s.highBetter == Some(player)) &&
      (!ok ==> s.pot == r.pot && s.bets == r.bets - {player} && s.sidepot == r.sidepot &&
               (s.finished <==> |s.bets| == 1) && |s.bets| == |r.bets| - 1) &&
      s.bigBlind == r.bigBlind &&
      (!(r.highBetter.None? && r.bigBlind == Some(player) && r.sidepot == Some(r.bets[player])) ==>
         (ok ==> s.finished == r.finished) &&
         (!Exceeds(current, r.sidepot) ==> s.highBetter == r.highBetter))
  {
    MapRemoveCard(r.bets, player);
  }

  /**
   * The big blind's option (action back at it, nobody raised, its bet already the
   * side pot): a check is accepted and finishes the round; a raise is accepted,
   * makes it the high better and leaves the round open for the others.
   */
  lemma BigBlindOption(r: Round, player: Name, bet: int)
    requires Indexed(r) && NextOf(r) == Some(player)
    requires r.highBetter.None? && r.bigBlind == Some(player) && r.sidepot == Some(r.bets[player])
    ensures var (s, ok) := AfterBet(r, player, bet);
      (bet == 0 ==> ok && s.finished && NextOf(s).None?) &&
      (bet > 0 ==> ok && !s.finished && s.highBetter == Some(player) &&
                   s.sidepot == Some(r.bets[player] + bet)) &&
      (bet < 0 ==> !ok)
  {
  }

  /**
   * post_fold: exactly that seat leaves the bets, the turn moves one seat on, the
   * pot and side pot stay, and the round is finished iff one seat remains.
   */
  lemma PostFoldEffect(r: Round, player: Name)
    requires Indexed(r) && player in r.bets
    ensures var s := AfterFold(r, player);
      Indexed(s) && s.bots == r.bots && s.nextIndex == (r.nextIndex + 1) % |r.bots| &&
      s.bets == r.bets - {player} && |s.bets| == |r.bets| - 1 &&
      s.pot == r.pot && s.sidepot == r.sidepot && s.highBetter == r.highBetter &&
      (s.finished <==> |s.bets| == 1)
  {
    MapRemoveCard(r.bets, player);
  }

  /** BettingRound: one street of wagering among the seats, in seat order. */
  class BettingRound {
    var pot: int
    var sidepot: Option<int>
    var bots: seq<Name>
    var bigBlind: Option<Name>
    var bets: map<Name, int>
    var highBetter: Option<Name>
    var nextBetterIndex: int
    var finished: bool

    function State(): Round
      reads this
    {
      Round(bots, bets, pot, sidepot, bigBlind, highBetter, nextBetterIndex, finished)
    }

    /** The turn index is never negative and names a seat whenever there are seats. */
    predicate Valid()
      reads this
    {
      0 <= nextBetterIndex && (|bots| > 0 ==> nextBetterIndex < |bots|)
    }

    /**
     * BettingRound(bots, bets, pot): the seats in order, the posted bets, and the
     * pot they join; the big blind is a key with the largest posted bet.
     */
    constructor (bots: seq<Name>, bets: map<Name, int> := map[], pot: int := 0)
      ensures Valid() && IsBigBlind(bets, bigBlind)
      ensures State() == Opened(bots, bets, pot, bigBlind)
    {
      var bb := BigBlindOf(bets);
      this.pot := pot;
      sidepot := None;
      this.bots := bots;
      bigBlind := bb;
      this.bets := bets;
      highBetter := None;
      nextBetterIndex := -1;
      finished := |bots| == 1;
      new;
      SeatAll(Unopened(bots, bets, pot, bb));
      SetBetterIndex(0);
    }

    /** The constructor's loop over the seats, in order. */
    method SeatAll(ghost r0: Round)
      requires State() == r0
      modifies this
      ensures State() == Seated(r0, |r0.bots|)
    {
      var i := 0;
      while i < |bots|
        invariant 0 <= i <= |r0.bots| && State() == Seated(r0, i)
      {
        SeatBot(i);
        i := i + 1;
      }
    }

    /** One pass of the constructor's loop: seat i's posted bet joins the pot, or the seat gets 0. */
    method SeatBot(i: int)
      requires 0 <= i < |bots|
      modifies this
      ensures State() == SeatStep(old(State()), old(bots[i]), i)
    {
      var bot := bots[i];
      if bot in bets {
        var bet := bets[bot];
        pot := pot + bet;
        ProcessBet(bet, bot, true);
      } else {
        bets := bets[bot := 0];
        SetBetterIndex(i);
      }
    }

    method SetBetterIndex(index: int)
      modifies this`nextBetterIndex
      ensures nextBetterIndex == if old(nextBetterIndex) == -1 then index else old(nextBetterIndex)
    {
      if nextBetterIndex == -1 {
        nextBetterIndex := index;
      }
    }

    method ProcessBet(bet: int, player: Name, isBlind: bool)
      modifies this`sidepot, this`highBetter, this`bets
      ensures State() == Processed(old(State()), bet, player, isBlind)
    {
      if Exceeds(bet, sidepot) {
        sidepot := Some(bet);
        if !isBlind {
          highBetter := Some(player);
        }
      }
      bets := bets[player := bet];
    }

    /** next_better: the seat at the turn index when it may bet and the round is open. */
    function NextBetter(): (b: Option<Name>)
      reads this
      requires Valid() && |bots| > 0
      ensures b.Some? <==> !finished && CanBet(bots[nextBetterIndex])
      ensures b.Some? ==> b.value == bots[nextBetterIndex]
    {
      NextOf(State())
    }

    /** can_bet: the player is staked and is not the high better. */
    predicate CanBet(player: Name)
      reads this
    {
      CanBetIn(State(), player)
    }

    /** is_staked: the player still has a bet in the round. */
    predicate IsStaked(player: Name)
      reads this
    {
      player in bets
    }

    /** remaining_players: the staked seats (a list in dict order in the original). */
    function RemainingPlayers(): (players: set<Name>)
      reads this
      ensures forall p :: p in players <==> IsStaked(p)
    {
      bets.Keys
    }

    /** post_bet, callable only by the seat next_better names (the assertion at its top). */
    method PostBet(player: Name, bet: int, allIn: bool := false) returns (accepted: bool)
      requires Valid() && |bots| > 0 && NextBetter() == Some(player)
      modifies this
      ensures Valid() && bots == old(bots)
      ensures (State(), accepted) == AfterBet(old(State()), player, bet)
    {
      Forward();
      if highBetter.None? && Some(player) == bigBlind && sidepot == Some(bets[player]) {
        highBetter := bigBlind;
        finished := bet == 0;
      }
      var currentBet := bets[player] + bet;
      if Reaches(currentBet, sidepot) {
        pot := pot + bet;
        ProcessBet(currentBet, player, false);
        return true;
      } else {
        Fold(player);
        return false;
      }
    }

    /** post_fold: always answers false; the player must be staked (del raises otherwise). */
    method PostFold(player: Name) returns (stillIn: bool)
      requires Valid() && |bots| > 0 && player in bets
      modifies this`bets, this`finished, this`nextBetterIndex
      ensures Valid() && !stillIn
      ensures State() == AfterFold(old(State()), player)
    {
      Fold(player);
      Forward();
      return false;
    }

    method Fold(player: Name)
      requires player in bets
      modifies this`bets, this`finished
      ensures State() == Folded(old(State()), player)
    {
      bets := bets - {player};
      finished := |bets| == 1;
    }

    method Forward()
      requires |bots| > 0
      modifies this`nextBetterIndex
      ensures State() == Forwarded(old(State())) && 0 <= nextBetterIndex < |bots|
    {
      nextBetterIndex := (nextBetterIndex + 1) % |bots|;
    }
  }

  /** max(bets, key=bets.get) if bets else None. */
  method BigBlindOf(bets: map<Name, int>) returns (bb: Option<Name>)
    ensures IsBigBlind(bets, bb)
  {
    if bets == map[] {
      return None;
    }
    MaxKeyExists(bets, bets.Keys);
    var k :| k in bets.Keys && forall j :: j in bets.Keys ==> bets[j] <= bets[k];
    return Some(k);
  }

  /** Among any non-empty set of keys one has the largest value. */
  lemma {:induction false} MaxKeyExists(bets: map<Name, int>, keys: set<Name>)
    requires keys != {} && keys <= bets.Keys
    ensures exists k :: k in keys && forall j :: j in keys ==> bets[j] <= bets[k]
    decreases keys
  {
    var k0 :| k0 in keys;
    var rest := keys - {k0};
    assert keys == rest + {k0};
    if rest == {} {
      assert keys == {k0};
    } else {
      MaxKeyExists(bets, rest);
      var k1 :| k1 in rest && forall j :: j in rest ==> bets[j] <= bets[k1];
      var top := if bets[k0] > bets[k1] then k0 else k1;
      assert forall j :: j in keys ==> j == k0 || j in rest;
      assert forall j :: j in keys ==> bets[j] <= bets[top];
    }
  }
}
