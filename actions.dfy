/** GameAction of pokeher/actions.py: an action code and an amount. */
module Actions {
  import opened Wrappers

  const FOLD: int := 0
  const CALL: int := 1
  const RAISE: int := 2
  const CHECK: int := 3

  /** Display letters, indexed by action code; calls and checks both show as 'C'. */
  const NAMES: seq<char> := ['F', 'C', 'R', 'C']

  /** The constructor stores any code and amount without checking them. */
  datatype GameAction = GameAction(action: int, amount: int) {
    predicate Matches(query: int) { query == action }
    predicate IsFold() { Matches(FOLD) }
    predicate IsCall() { Matches(CALL) }
    predicate IsRaise() { Matches(RAISE) }
    predicate IsCheck() { Matches(CHECK) }
  }

  /** GameAction(action, amount=0). */
  function NewAction(action: int, amount: int := 0): (a: GameAction)
    ensures a.action == action && a.amount == amount
  {
    GameAction(action, amount)
  }

  /** For each of the four codes exactly one tag predicate holds; for any other code none does. */
  lemma ExactlyOneTag(a: GameAction)
    ensures 0 <= a.action < 4 ==>
      (if a.IsFold() then 1 else 0) + (if a.IsCall() then 1 else 0) +
      (if a.IsRaise() then 1 else 0) + (if a.IsCheck() then 1 else 0) == 1
    ensures !(0 <= a.action < 4) ==> !a.IsFold() && !a.IsCall() && !a.IsRaise() && !a.IsCheck()
  {
  }

  /** The tag predicates look at the code only, never at the amount. */
  lemma TagsIgnoreAmount(a: GameAction, amount: int)
    ensures var b := a.(amount := amount);
      (a.IsFold() <==> b.IsFold()) && (a.IsCall() <==> b.IsCall()) &&
      (a.IsRaise() <==> b.IsRaise()) && (a.IsCheck() <==> b.IsCheck())
  {
  }

  /**
   * The letter __repr__ shows: NAMES[action] with Python's list indexing, so codes
   * -4 .. -1 count from the end and anything outside -4 .. 3 raises IndexError (None).
   */
  function DisplayLetter(a: GameAction): (r: Option<char>)
    ensures r.Some? <==> -|NAMES| <= a.action < |NAMES|
    ensures a.IsFold() ==> r == Some('F')
    ensures a.IsCall() || a.IsCheck() ==> r == Some('C')
    ensures a.IsRaise() ==> r == Some('R')
  {
    if 0 <= a.action < |NAMES| then Some(NAMES[a.action])
    else if -|NAMES| <= a.action < 0 then Some(NAMES[|NAMES| + a.action])
    else None
  }
}
