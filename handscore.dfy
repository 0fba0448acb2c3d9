/**
 * pokeher/handscore.py: the HandScore total order and HandBuilder, which scores
 * five-card hands and picks the best five cards out of a larger set.
 */
module HandScores {
  import opened Wrappers
  import opened Cards

  // Hand types, weakest first; NO_SCORE marks a score not yet computed.
  const NO_SCORE: int := -1
  const HIGH_CARD: int := 0
  const PAIR: int := 1
  const TWO_PAIR: int := 2
  const TRIPS: int := 3
  const STRAIGHT: int := 4
  const FLUSH: int := 5
  const FULL_HOUSE: int := 6
  const QUADS: int := 7
  const STRAIGHT_FLUSH: int := 8

  const HAND_LENGTH: nat := 5

  /** A hand type and the card values that break ties within it. */
  datatype HandScore = HandScore(kind: int, kicker: seq<int>)

  /** HandScore(): no type yet; the kicker is empty. */
  const NoScore: HandScore := HandScore(NO_SCORE, [])

  // ---------------------------------------------------------------------------
  // The ordering: __eq__ and __lt__ compare the tuples (type, kicker).
  // ---------------------------------------------------------------------------

  /** Python's tuple order on kickers: the first differing value decides, and a proper prefix is smaller. */
  predicate KickerLess(a: seq<int>, b: seq<int>)
  {
    if a == [] then b != []
    else if b == [] then false
    else a[0] < b[0] || (a[0] == b[0] && KickerLess(a[1..], b[1..]))
  }

  /** __lt__: lexicographic on (type, kicker). */
  predicate Less(a: HandScore, b: HandScore)
  {
    a.kind < b.kind || (a.kind == b.kind && KickerLess(a.kicker, b.kicker))
  }

  /** __gt__ as functools.total_ordering derives it from __lt__ and __eq__. */
  predicate Greater(a: HandScore, b: HandScore)
  {
    !(Less(a, b) || a == b)
  }

  lemma {:induction false} KickerLessIrreflexive(a: seq<int>)
    ensures !KickerLess(a, a)
  {
    if a != [] {
      KickerLessIrreflexive(a[1..]);
    }
  }

  lemma {:induction false} KickerLessTransitive(a: seq<int>, b: seq<int>, c: seq<int>)
    requires KickerLess(a, b) && KickerLess(b, c)
    ensures KickerLess(a, c)
  {
    if a != [] && b != [] && c != [] && a[0] == b[0] == c[0] {
      KickerLessTransitive(a[1..], b[1..], c[1..]);
    }
  }

  lemma {:induction false} KickerTrichotomy(a: seq<int>, b: seq<int>)
    ensures KickerLess(a, b) || a == b || KickerLess(b, a)
  {
    if a != [] && b != [] && a[0] == b[0] {
      KickerTrichotomy(a[1..], b[1..]);
      if a[1..] == b[1..] {
        assert a == [a[0]] + a[1..] && b == [b[0]] + b[1..];
      }
    }
  }

  /**
   * The score order is a strict total order: irreflexive, transitive, and any two
   * scores are equal (same type and same kicker) or one is below the other.
   */
  lemma ScoreOrderIsTotal(a: HandScore, b: HandScore, c: HandScore)
    ensures !Less(a, a)
    ensures Less(a, b) && Less(b, c) ==> Less(a, c)
    ensures Less(a, b) || a == b || Less(b, a)
    ensures !(Less(a, b) && Less(b, a))
    ensures a == b <==> a.kind == b.kind && a.kicker == b.kicker
  {
    KickerLessIrreflexive(a.kicker);
    KickerTrichotomy(a.kicker, b.kicker);
    if Less(a, b) && Less(b, c) && a.kind == b.kind == c.kind {
      KickerLessTransitive(a.kicker, b.kicker, c.kicker);
    }
    if Less(a, b) && Less(b, a) {
      KickerLessTransitive(a.kicker, b.kicker, a.kicker);
    }
  }

  /** The derived __gt__ is exactly the converse of __lt__. */
  lemma GreaterIsConverse(a: HandScore, b: HandScore)
    ensures Greater(a, b) <==> Less(b, a)
  {
    ScoreOrderIsTotal(a, b, b);
    ScoreOrderIsTotal(b, a, a);
  }

  /** Every scored hand (type HIGH_CARD or above) beats the NO_SCORE sentinel. */
  lemma AboveNoScore(s: HandScore)
    requires s.kind >= HIGH_CARD
    ensures Greater(s, NoScore) && Less(NoScore, s)
  {
  }

  // ---------------------------------------------------------------------------
  // Specification of score_hand.
  // ---------------------------------------------------------------------------

  /** The values of the cards, in order (cards_to_ranks). */
  function Values(cards: seq<Card>): (r: seq<Value>)
    ensures |r| == |cards|
    ensures forall i :: 0 <= i < |cards| ==> r[i] == cards[i].value
  {
    seq(|cards|, i requires 0 <= i < |cards| => cards[i].value)
  }

  lemma ValuesAppend(a: seq<Card>, b: seq<Card>)
    ensures Values(a + b) == Values(a) + Values(b)
  {
  }

  /** How often each value occurs, indexed by value; slots 0 and 1 are unused. */
  function Seen(cards: seq<Card>): (seen: seq<int>)
    ensures |seen| == 15
    ensures forall v: Value :: seen[v] == multiset(Values(cards))[v]
  {
    seq(15, v => if 2 <= v <= 14 then multiset(Values(cards))[v] else 0)
  }

  /** The sort key (seen[value], value), compared lexicographically: x's key is at least y's. */
  predicate KeyAtLeast(x: Value, y: Value, seen: seq<int>)
    requires |seen| == 15
  {
    seen[x] > seen[y] || (seen[x] == seen[y] && x >= y)
  }

  /** Sorted by key, largest key first (the order sort(..., reverse=True) produces). */
  predicate KeySorted(cards: seq<Card>, seen: seq<int>)
    requires |seen| == 15
  {
    forall i, j :: 0 <= i < j < |cards| ==> KeyAtLeast(cards[i].value, cards[j].value, seen)
  }

  /** Places c before the first card whose key is not above c's, so equal keys keep their order. */
  function Insert(c: Card, s: seq<Card>, seen: seq<int>): (r: seq<Card>)
    requires |seen| == 15
    ensures |r| == |s| + 1
  {
    if s == [] || KeyAtLeast(c.value, s[0].value, seen) then [c] + s
    else [s[0]] + Insert(c, s[1..], seen)
  }

  lemma ValuesCons(c: Card, s: seq<Card>)
    ensures Values([c] + s) == [c.value] + Values(s)
  {
  }

  /** Insert adds exactly c. */
  lemma {:induction false} InsertContents(c: Card, s: seq<Card>, seen: seq<int>)
    requires |seen| == 15
    ensures multiset(Insert(c, s, seen)) == multiset{c} + multiset(s)
  {
    if s != [] && !KeyAtLeast(c.value, s[0].value, seen) {
      InsertContents(c, s[1..], seen);
      assert s == [s[0]] + s[1..];
    }
  }

  /** Insert adds exactly c's value. */
  lemma {:induction false} InsertValues(c: Card, s: seq<Card>, seen: seq<int>)
    requires |seen| == 15
    ensures multiset(Values(Insert(c, s, seen))) == multiset{c.value} + multiset(Values(s))
  {
    if s == [] || KeyAtLeast(c.value, s[0].value, seen) {
      ValuesCons(c, s);
    } else {
      var rest := Insert(c, s[1..], seen);
      InsertValues(c, s[1..], seen);
      ValuesCons(s[0], rest);
      ValuesCons(s[0], s[1..]);
      assert s == [s[0]] + s[1..];
    }
  }

  /** Inserting into a key-sorted list keeps it key-sorted. */
  lemma {:induction false} InsertSorted(c: Card, s: seq<Card>, seen: seq<int>)
    requires |seen| == 15
    requires KeySorted(s, seen)
    ensures KeySorted(Insert(c, s, seen), seen)
  {
    if s == [] || KeyAtLeast(c.value, s[0].value, seen) {
    } else {
      var rest := Insert(c, s[1..], seen);
      InsertSorted(c, s[1..], seen);
      InsertContents(c, s[1..], seen);
      var r := [s[0]] + rest;
      forall j | 0 < j < |r|
        ensures KeyAtLeast(s[0].value, r[j].value, seen)
      {
        assert r[j] in multiset{c} + multiset(s[1..]);
      }
    }
  }

  /**
   * cards.sort(key=lambda card: (seen[card.value], card.value), reverse=True):
   * a stable sort, largest key first.
   */
  function SortByKey(cards: seq<Card>, seen: seq<int>): (r: seq<Card>)
    requires |seen| == 15
    ensures |r| == |cards|
  {
    if cards == [] then [] else Insert(cards[0], SortByKey(cards[1..], seen), seen)
  }

  /** The sort permutes the cards, and so their values, and leaves them key-sorted. */
  lemma {:induction false} SortByKeyProperties(cards: seq<Card>, seen: seq<int>)
    requires |seen| == 15
    ensures multiset(SortByKey(cards, seen)) == multiset(cards)
    ensures multiset(Values(SortByKey(cards, seen))) == multiset(Values(cards))
    ensures KeySorted(SortByKey(cards, seen), seen)
  {
    if cards != [] {
      SortByKeyProperties(cards[1..], seen);
      InsertContents(cards[0], SortByKey(cards[1..], seen), seen);
      InsertValues(cards[0], SortByKey(cards[1..], seen), seen);
      InsertSorted(cards[0], SortByKey(cards[1..], seen), seen);
      ValuesCons(cards[0], cards[1..]);
      assert cards == [cards[0]] + cards[1..];
    }
  }

  /** The variables score_cards_to_ranks carries through its loop. */
  datatype Walk = Walk(kind: int, lastValue: int, run: int)

  /** What a finished run of equal values does to the hand type. */
  function CloseRun(kind: int, run: int): int
  {
    if run == 4 then QUADS
    else if run == 3 then TRIPS
    else if run == 2 then
      (if kind == TRIPS then FULL_HOUSE else if kind == PAIR then TWO_PAIR else PAIR)
    else kind
  }

  /** One iteration of the loop, for a card of value v. */
  function Step(w: Walk, v: int): Walk
  {
    if v == w.lastValue then Walk(w.kind, w.lastValue, w.run + 1)
    else Walk(CloseRun(w.kind, w.run), v, 1)
  }

  /** The loop over the remaining values. */
  function WalkFrom(w: Walk, vals: seq<int>): (r: Walk)
    ensures HIGH_CARD <= w.kind <= STRAIGHT_FLUSH ==> HIGH_CARD <= r.kind <= STRAIGHT_FLUSH
    decreases |vals|
  {
    if vals == [] then w else WalkFrom(Step(w, vals[0]), vals[1..])
  }

  /** The type score_cards_to_ranks leaves, including the full-house check after the loop. */
  function RanksKind(kind: int, vals: seq<int>): int
  {
    var w := WalkFrom(Walk(kind, -1, 0), vals);
    if w.run == 2 && w.kind == TRIPS then FULL_HOUSE else w.kind
  }

  /** is_straight: every adjacent gap in the given order is exactly 1. */
  predicate Consecutive(vals: seq<int>)
  {
    forall i :: 0 <= i < |vals| - 1 ==> vals[i] - vals[i + 1] == 1
  }

  /** select_flush_suit found a suit: the cards are non-empty and share one suit. */
  predicate OneSuit(cards: seq<Card>)
  {
    cards != [] && forall c, d :: c in cards && d in cards ==> c.suit == d.suit
  }

  /**
   * What score_hand returns for the cards: the kicker is the card values sorted by
   * (count, value) descending; the type comes from the runs of equal values, and
   * only a hand without repeated values is tested for a flush and a straight.
   */
  function Score(cards: seq<Card>): (r: HandScore)
    ensures |r.kicker| == |cards|
    ensures multiset(r.kicker) == multiset(Values(cards))
    ensures HIGH_CARD <= r.kind <= STRAIGHT_FLUSH
  {
    SortByKeyProperties(cards, Seen(cards));
    var seen := Seen(cards);
    var sorted := SortByKey(cards, seen);
    var kicker := Values(sorted);
    var kind := RanksKind(HIGH_CARD, kicker);
    if kind > HIGH_CARD then HandScore(kind, kicker)
    else
      var flush := OneSuit(sorted);
      var straight := Consecutive(kicker);
      HandScore(if straight && flush then STRAIGHT_FLUSH
                else if straight then STRAIGHT
                else if flush then FLUSH
                else kind, kicker)
  }

  // ---------------------------------------------------------------------------
  // The hand type follows the multiplicity pattern of the values.
  // ---------------------------------------------------------------------------

  /** Some value occurs exactly n times. */
  predicate HasGroup(m: multiset<Value>, n: int)
  {
    exists v: Value :: m[v] == n
  }

  /** Two different values occur exactly twice each. */
  predicate TwoPairs(m: multiset<Value>)
  {
    exists v: Value, w: Value :: v != w && m[v] == 2 && m[w] == 2
  }

  /** The made hand a multiset of values forms, as poker names it. */
  function PatternKind(m: multiset<Value>): int
  {
    if HasGroup(m, 4) then QUADS
    else if HasGroup(m, 3) && HasGroup(m, 2) then FULL_HOUSE
    else if HasGroup(m, 3) then TRIPS
    else if TwoPairs(m) then TWO_PAIR
    else if HasGroup(m, 2) then PAIR
    else HIGH_CARD
  }

  /** The loop over five values, written out. */
  lemma WalkFive(w: Walk, v: seq<int>)
    requires |v| == 5
    ensures WalkFrom(w, v) == Step(Step(Step(Step(Step(w, v[0]), v[1]), v[2]), v[3]), v[4])
  {
    var w1, w2, w3, w4 := Step(w, v[0]), Step(Step(w, v[0]), v[1]),
      Step(Step(Step(w, v[0]), v[1]), v[2]), Step(Step(Step(Step(w, v[0]), v[1]), v[2]), v[3]);
    assert v[1..][1..] == v[2..] && v[2..][1..] == v[3..] && v[3..][1..] == v[4..] && v[4..][1..] == [];
    assert WalkFrom(w4, v[4..]) == Step(w4, v[4]);
    assert WalkFrom(w3, v[3..]) == WalkFrom(w4, v[4..]);
    assert WalkFrom(w2, v[2..]) == WalkFrom(w3, v[3..]);
    assert WalkFrom(w1, v[1..]) == WalkFrom(w2, v[2..]);
  }

  /** How many of five values equal x, counted position by position. */
  function CountFive(v: seq<int>, x: int): int
    requires |v| == 5
  {
    (if v[0] == x then 1 else 0) + (if v[1] == x then 1 else 0) + (if v[2] == x then 1 else 0)
      + (if v[3] == x then 1 else 0) + (if v[4] == x then 1 else 0)
  }

  /** The multiplicity of x in a non-empty sequence, split at the head. */
  lemma CountCons(v: seq<int>, x: int)
    requires v != []
    ensures multiset(v)[x] == (if v[0] == x then 1 else 0) + multiset(v[1..])[x]
  {
    assert v == [v[0]] + v[1..];
  }

  lemma MultiplicityOfFive(v: seq<int>, x: int)
    requires |v| == 5
    ensures multiset(v)[x] == CountFive(v, x)
  {
    CountCons(v, x);
    CountCons(v[1..], x);
    CountCons(v[2..], x);
    CountCons(v[3..], x);
    CountCons(v[4..], x);
    assert v[1..][1..] == v[2..] && v[2..][1..] == v[3..] && v[3..][1..] == v[4..] && v[4..][1..] == [];
  }

  /** Over five values, a group of size n (n >= 1) is the group of one of the positions. */
  lemma GroupAmongFive(v: seq<Value>, n: int)
    requires |v| == 5 && n >= 1
    ensures HasGroup(multiset(v), n) <==>
      CountFive(v, v[0]) == n || CountFive(v, v[1]) == n || CountFive(v, v[2]) == n ||
      CountFive(v, v[3]) == n || CountFive(v, v[4]) == n
  {
    var m := multiset(v);
    forall i | 0 <= i < 5 { MultiplicityOfFive(v, v[i]); }
    if HasGroup(m, n) {
      var x: Value :| m[x] == n;
      MultiplicityOfFive(v, x);
    }
  }

  /** Over five values, two pairs are the groups of two positions holding different values. */
  lemma TwoPairsAmongFive(v: seq<Value>)
    requires |v| == 5
    ensures TwoPairs(multiset(v)) <==>
      exists i, j :: 0 <= i < j < 5 && v[i] != v[j] && CountFive(v, v[i]) == 2 && CountFive(v, v[j]) == 2
  {
    var m := multiset(v);
    forall i | 0 <= i < 5 { MultiplicityOfFive(v, v[i]); }
    if TwoPairs(m) {
      var x: Value, y: Value :| x != y && m[x] == 2 && m[y] == 2;
      MultiplicityOfFive(v, x);
      MultiplicityOfFive(v, y);
      var i :| 0 <= i < 5 && v[i] == x;
      var j :| 0 <= j < 5 && v[j] == y;
      if j < i {
        assert v[j] != v[i] && CountFive(v, v[j]) == 2 && CountFive(v, v[i]) == 2;
      }
    }
  }

  /**
   * On five values sorted by (count, value) descending, the walk over the runs
   * names the multiplicity pattern, provided no value occurs five times.
   */
  lemma GroupedKind(v: seq<Value>, seen: seq<int>)
    requires |v| == 5 && |seen| == 15
    requires forall x: Value :: seen[x] == multiset(v)[x]
    requires forall i, j :: 0 <= i < j < 5 ==> KeyAtLeast(v[i], v[j], seen)
    requires forall x: Value :: multiset(v)[x] <= 4
    ensures RanksKind(HIGH_CARD, v) == PatternKind(multiset(v))
  {
    WalkFive(Walk(HIGH_CARD, -1, 0), v);
    GroupAmongFive(v, 2);
    GroupAmongFive(v, 3);
    GroupAmongFive(v, 4);
    TwoPairsAmongFive(v);
    forall i | 0 <= i < 5 { MultiplicityOfFive(v, v[i]); }
    var a, b, c, d, e := v[0], v[1], v[2], v[3], v[4];
    assert KeyAtLeast(a, b, seen) && KeyAtLeast(b, c, seen) && KeyAtLeast(c, d, seen) && KeyAtLeast(d, e, seen);
    assert KeyAtLeast(a, c, seen) && KeyAtLeast(b, d, seen) && KeyAtLeast(c, e, seen);
    assert KeyAtLeast(a, d, seen) && KeyAtLeast(b, e, seen) && KeyAtLeast(a, e, seen);
  }

  /** Sorted by (count in m, value), largest first. */
  predicate CountThenValueDescending(vals: seq<int>, m: multiset<int>)
  {
    forall i, j :: 0 <= i < j < |vals| ==> m[vals[i]] > m[vals[j]] || (m[vals[i]] == m[vals[j]] && vals[i] >= vals[j])
  }

  /**
   * score_hand's kicker is the hand's values sorted by (multiplicity, value),
   * largest first.
   */
  lemma KickerIsSortedValues(cards: seq<Card>)
    ensures multiset(Score(cards).kicker) == multiset(Values(cards))
    ensures CountThenValueDescending(Score(cards).kicker, multiset(Values(cards)))
  {
    var seen := Seen(cards);
    SortByKeyProperties(cards, seen);
    var sorted := SortByKey(cards, seen);
    assert Score(cards).kicker == Values(sorted);
  }

  /** The tail of a (count, value)-descending sequence is (count, value)-descending. */
  lemma DescendingTail(k: seq<int>, m: multiset<int>)
    requires k != [] && CountThenValueDescending(k, m)
    ensures CountThenValueDescending(k[1..], m)
  {
    forall a, b | 0 <= a < b < |k[1..]|
      ensures m[k[1..][a]] > m[k[1..][b]] || (m[k[1..][a]] == m[k[1..][b]] && k[1..][a] >= k[1..][b])
    {
      assert k[1..][a] == k[a + 1] && k[1..][b] == k[b + 1];
    }
  }

  /** The head of a (count, value)-descending sequence has the largest key of all its values. */
  lemma DescendingHead(k: seq<int>, m: multiset<int>, y: int)
    requires k != [] && CountThenValueDescending(k, m) && y in k
    ensures m[k[0]] > m[y] || (m[k[0]] == m[y] && k[0] >= y)
  {
    var i :| 0 <= i < |k| && k[i] == y;
    if i > 0 {
      assert m[k[0]] > m[k[i]] || (m[k[0]] == m[k[i]] && k[0] >= k[i]);
    }
  }

  /** Two (count, value)-descending orderings of the same values start with the same value. */
  lemma HeadsAgree(k1: seq<int>, k2: seq<int>, m: multiset<int>)
    requires k1 != [] && multiset(k1) == multiset(k2)
    requires CountThenValueDescending(k1, m) && CountThenValueDescending(k2, m)
    ensures k2 != [] && k1[0] == k2[0]
  {
    assert k1[0] in multiset(k2);
    var y := k2[0];
    assert y in multiset(k1);
    DescendingHead(k1, m, y);
    DescendingHead(k2, m, k1[0]);
  }

  /** Removing the same head from two orderings of the same values leaves the same values. */
  lemma TailsAgree(k1: seq<int>, k2: seq<int>)
    requires k1 != [] && k2 != [] && k1[0] == k2[0] && multiset(k1) == multiset(k2)
    ensures multiset(k1[1..]) == multiset(k2[1..])
  {
    var x := k1[0];
    assert k1 == [x] + k1[1..] && k2 == [x] + k2[1..];
    assert multiset(k1) == multiset{x} + multiset(k1[1..]);
    assert multiset(k2) == multiset{x} + multiset(k2[1..]);
    assert multiset(k1[1..]) == multiset(k1) - multiset{x};
  }

  /** Two orderings of the same values, both by (count, value) descending, are the same sequence. */
  lemma {:induction false} KickerUnique(k1: seq<int>, k2: seq<int>, m: multiset<int>)
    requires multiset(k1) == multiset(k2)
    requires CountThenValueDescending(k1, m) && CountThenValueDescending(k2, m)
    ensures k1 == k2
    decreases |k1|
  {
    if k1 == [] {
      assert |k2| == |multiset(k2)| == 0;
    } else {
      HeadsAgree(k1, k2, m);
      TailsAgree(k1, k2);
      DescendingTail(k1, m);
      DescendingTail(k2, m);
      KickerUnique(k1[1..], k2[1..], m);
      assert k1 == [k1[0]] + k1[1..] && k2 == [k2[0]] + k2[1..];
    }
  }

  /** With at most four of a kind, some value repeats exactly when the pattern is a made hand. */
  lemma RepeatIffPattern(m: multiset<Value>)
    requires forall x: Value :: m[x] <= 4
    ensures (exists x: Value :: m[x] >= 2) <==> PatternKind(m) != HIGH_CARD
  {
    if exists x: Value :: m[x] >= 2 {
      var x: Value :| m[x] >= 2;
      assert m[x] == 2 || m[x] == 3 || m[x] == 4;
      assert HasGroup(m, m[x]);
    } else {
      forall x: Value ensures !(2 <= m[x] <= 4) { }
      assert !HasGroup(m, 2) && !HasGroup(m, 3) && !HasGroup(m, 4);
    }
  }

  /** The walk over the sorted values of five cards names their multiplicity pattern. */
  lemma SortedKind(cards: seq<Card>)
    requires |cards| == 5
    requires forall x: Value :: multiset(Values(cards))[x] <= 4
    ensures RanksKind(HIGH_CARD, Values(SortByKey(cards, Seen(cards)))) == PatternKind(multiset(Values(cards)))
  {
    var seen := Seen(cards);
    SortByKeyProperties(cards, seen);
    var k := Values(SortByKey(cards, seen));
    assert multiset(k) == multiset(Values(cards));
    GroupedKind(k, seen);
  }

  /**
   * For five cards with no value five times, the type is the multiplicity
   * pattern: 4 -> QUADS, 3+2 -> FULL_HOUSE, 3 -> TRIPS, 2+2 -> TWO_PAIR,
   * 2 -> PAIR; a hand with a repeated value is never a flush or a straight.
   */
  lemma KindFollowsPattern(cards: seq<Card>)
    requires |cards| == 5
    requires forall x: Value :: multiset(Values(cards))[x] <= 4
    ensures var p := PatternKind(multiset(Values(cards)));
      p != HIGH_CARD ==> Score(cards).kind == p
    ensures PatternKind(multiset(Values(cards))) == HIGH_CARD ==>
      Score(cards).kind in {HIGH_CARD, STRAIGHT, FLUSH, STRAIGHT_FLUSH}
    ensures (exists x: Value :: multiset(Values(cards))[x] >= 2) <==> PAIR <= Score(cards).kind <= QUADS && Score(cards).kind != STRAIGHT && Score(cards).kind != FLUSH
  {
    SortedKind(cards);
    RepeatIffPattern(multiset(Values(cards)));
  }

  /** Each of five consecutive values, starting at lo, occurs exactly once. */
  predicate RunFrom(m: multiset<int>, lo: int)
  {
    m[lo] == 1 && m[lo + 1] == 1 && m[lo + 2] == 1 && m[lo + 3] == 1 && m[lo + 4] == 1
  }

  /** The values contain a run of five consecutive values. */
  predicate IsRun(m: multiset<int>)
  {
    exists lo :: lo in m && RunFrom(m, lo)
  }

  /** Strictly descending at each step means strictly descending between any two positions. */
  lemma DescendingPairs(k: seq<int>)
    requires forall i :: 0 <= i < |k| - 1 ==> k[i] > k[i + 1]
    ensures forall i, j :: 0 <= i < j < |k| ==> k[i] > k[j]
  {
    forall i, j | 0 <= i < j < |k| ensures k[i] > k[j] {
      var t := i;
      while t < j - 1
        invariant i <= t < j && k[i] >= k[t] > k[t + 1]
      {
        t := t + 1;
      }
    }
  }

  /** Five strictly descending values that are consecutive form a run. */
  lemma ConsecutiveIsRun(k: seq<int>)
    requires |k| == 5
    requires Consecutive(k)
    ensures IsRun(multiset(k))
  {
    var m := multiset(k);
    var lo := k[4];
    assert k[3] == lo + 1 && k[2] == lo + 2 && k[1] == lo + 3 && k[0] == lo + 4;
    MultiplicityOfFive(k, lo);
    MultiplicityOfFive(k, lo + 1);
    MultiplicityOfFive(k, lo + 2);
    MultiplicityOfFive(k, lo + 3);
    MultiplicityOfFive(k, lo + 4);
    assert lo in m;
    assert RunFrom(m, lo);
  }

  /** Five strictly descending values that form a run are consecutive. */
  lemma RunIsConsecutive(k: seq<int>, lo: int)
    requires |k| == 5
    requires forall i :: 0 <= i < 4 ==> k[i] > k[i + 1]
    requires RunFrom(multiset(k), lo)
    ensures Consecutive(k)
  {
    var m := multiset(k);
    DescendingPairs(k);
    assert lo in m && lo + 1 in m && lo + 2 in m && lo + 3 in m && lo + 4 in m;
    var p0 :| 0 <= p0 < 5 && k[p0] == lo;
    var p1 :| 0 <= p1 < 5 && k[p1] == lo + 1;
    var p2 :| 0 <= p2 < 5 && k[p2] == lo + 2;
    var p3 :| 0 <= p3 < 5 && k[p3] == lo + 3;
    var p4 :| 0 <= p4 < 5 && k[p4] == lo + 4;
    assert p4 < p3 < p2 < p1 < p0;
    assert k[0] == lo + 4 && k[1] == lo + 3 && k[2] == lo + 2 && k[3] == lo + 1 && k[4] == lo;
  }

  /** Five strictly descending values are consecutive exactly when they form a run. */
  lemma ConsecutiveIffRun(k: seq<int>)
    requires |k| == 5
    requires forall i :: 0 <= i < 4 ==> k[i] > k[i + 1]
    ensures Consecutive(k) <==> IsRun(multiset(k))
  {
    if Consecutive(k) {
      ConsecutiveIsRun(k);
    }
    if IsRun(multiset(k)) {
      var lo :| lo in multiset(k) && RunFrom(multiset(k), lo);
      RunIsConsecutive(k, lo);
    }
  }

  /** Permuting the cards does not change whether they share one suit. */
  lemma OneSuitPermutation(a: seq<Card>, b: seq<Card>)
    requires multiset(a) == multiset(b)
    ensures OneSuit(a) <==> OneSuit(b)
  {
    forall c ensures c in a <==> c in b {
      assert c in a <==> c in multiset(a);
      assert c in b <==> c in multiset(b);
    }
  }

  /** Values ordered by (count, value) descending, none of them repeated, are strictly descending. */
  lemma DistinctDescending(k: seq<Value>)
    requires |k| == 5
    requires CountThenValueDescending(k, multiset(k))
    requires forall x: Value :: multiset(k)[x] <= 1
    ensures forall i :: 0 <= i < 4 ==> k[i] > k[i + 1]
  {
    forall i | 0 <= i < 4 ensures k[i] > k[i + 1] {
      MultiplicityOfFive(k, k[i]);
    }
  }

  /** Five cards with no repeated value: the kicker is strictly descending. */
  lemma NoRepeatKicker(cards: seq<Card>)
    requires |cards| == 5
    requires forall x: Value :: multiset(Values(cards))[x] <= 1
    ensures forall i :: 0 <= i < 4 ==> Score(cards).kicker[i] > Score(cards).kicker[i + 1]
  {
    KickerIsSortedValues(cards);
    DistinctDescending(Score(cards).kicker);
  }

  /**
   * Five cards with no repeated value: the kicker is the values strictly
   * descending, and the type is STRAIGHT_FLUSH for one suit and a run of five
   * values, STRAIGHT for a run alone, FLUSH for one suit alone, else HIGH_CARD.
   */
  lemma NoRepeatVerdicts(cards: seq<Card>)
    requires |cards| == 5
    requires forall x: Value :: multiset(Values(cards))[x] <= 1
    ensures forall i :: 0 <= i < 4 ==> Score(cards).kicker[i] > Score(cards).kicker[i + 1]
    ensures var run, flush := IsRun(multiset(Values(cards))), OneSuit(cards);
      Score(cards).kind ==
        if run && flush then STRAIGHT_FLUSH
        else if run then STRAIGHT
        else if flush then FLUSH
        else HIGH_CARD
  {
    var m := multiset(Values(cards));
    NoRepeatKicker(cards);
    SortedKind(cards);
    RepeatIffPattern(m);
    var seen := Seen(cards);
    SortByKeyProperties(cards, seen);
    var sorted := SortByKey(cards, seen);
    assert Score(cards).kicker == Values(sorted);
    ConsecutiveIffRun(Values(sorted));
    OneSuitPermutation(sorted, cards);
  }

  /** The ace-low wheel A-2-3-4-5 is not a straight: an ace counts only as 14. */
  lemma WheelIsNotStraight(cards: seq<Card>)
    requires |cards| == 5
    requires multiset(Values(cards)) == multiset{14, 5, 4, 3, 2}
    ensures Score(cards).kind == if OneSuit(cards) then FLUSH else HIGH_CARD
  {
    var m: multiset<int> := multiset(Values(cards));
    forall lo | lo in m ensures !RunFrom(m, lo) {
      assert lo == 14 || 2 <= lo <= 5;
    }
    forall x: Value ensures multiset(Values(cards))[x] <= 1 { }
    NoRepeatVerdicts(cards);
  }

  /** A kicker that orders the hand's values by (count, value) descending is score_hand's kicker. */
  lemma KickerIs(cards: seq<Card>, k: seq<int>)
    requires multiset(k) == multiset(Values(cards))
    requires CountThenValueDescending(k, multiset(Values(cards)))
    ensures Score(cards).kicker == k
  {
    KickerIsSortedValues(cards);
    KickerUnique(Score(cards).kicker, k, multiset(Values(cards)));
  }

  /** Two orderings of the same cards list the same values, in some order. */
  lemma {:induction false} ValuesPerm(a: seq<Card>, b: seq<Card>)
    requires multiset(a) == multiset(b)
    ensures multiset(Values(a)) == multiset(Values(b))
    decreases |a|
  {
    if a != [] {
      assert a[0] in multiset(b);
      var i :| 0 <= i < |b| && b[i] == a[0];
      var rest := b[..i] + b[i + 1..];
      RemoveAtValues(b, i);
      assert a == [a[0]] + a[1..];
      assert multiset(a[1..]) == multiset(a) - multiset{a[0]};
      ValuesPerm(a[1..], rest);
      ValuesCons(a[0], a[1..]);
      assert multiset(Values(a)) == multiset{a[0].value} + multiset(Values(a[1..]));
    }
  }

  /** Taking out the card at position i takes one card and one value out of the multisets. */
  lemma RemoveAtValues(b: seq<Card>, i: int)
    requires 0 <= i < |b|
    ensures multiset(b[..i] + b[i + 1..]) == multiset(b) - multiset{b[i]}
    ensures multiset(Values(b)) == multiset{b[i].value} + multiset(Values(b[..i] + b[i + 1..]))
  {
    var l, x, h := b[..i], b[i], b[i + 1..];
    assert b == l + [x] + h;
    assert multiset(b) == multiset(l) + multiset{x} + multiset(h);
    assert multiset(l + h) == multiset(l) + multiset(h);
    ValuesSplit(l, x, h);
  }

  /** The values around one card are the values before it, its value, and the values after it. */
  lemma ValuesSplit(l: seq<Card>, x: Card, h: seq<Card>)
    ensures multiset(Values(l + [x] + h)) == multiset{x.value} + multiset(Values(l + h))
  {
    ValuesAppend(l + [x], h);
    ValuesAppend(l, [x]);
    ValuesAppend(l, h);
    var vl, vh := Values(l), Values(h);
    assert Values(l + [x] + h) == vl + [x.value] + vh;
    assert Values(l + h) == vl + vh;
    assert multiset(vl + [x.value] + vh) == multiset(vl) + multiset{x.value} + multiset(vh);
  }

  /** score_hand does not depend on the order of the five cards it is given. */
  lemma ScorePermutationInvariant(a: seq<Card>, b: seq<Card>)
    requires |a| == 5 && multiset(a) == multiset(b)
    requires forall x: Value :: multiset(Values(a))[x] <= 4
    ensures Score(a) == Score(b)
  {
    var m := multiset(Values(a));
    ValuesPerm(a, b);
    assert |b| == 5 by {
      assert |multiset(a)| == |multiset(b)|;
    }
    KickerIsSortedValues(b);
    KickerIs(a, Score(b).kicker);
    KindFollowsPattern(a);
    KindFollowsPattern(b);
    if PatternKind(m) == HIGH_CARD {
      RepeatIffPattern(m);
      forall x: Value ensures m[x] <= 1 {
        if m[x] >= 2 {
          assert false;
        }
      }
      NoRepeatVerdicts(a);
      NoRepeatVerdicts(b);
      OneSuitPermutation(a, b);
    }
  }

  // ---------------------------------------------------------------------------
  // find_hand: every 5-subset, in itertools.combinations order.
  // ---------------------------------------------------------------------------

  /** A strictly increasing list of k indices, each in [lo, n). */
  predicate Combination(c: seq<int>, lo: nat, n: nat, k: nat)
  {
    |c| == k && (forall i :: 0 <= i < |c| ==> lo <= c[i] < n) &&
    (forall i, j :: 0 <= i < j < |c| ==> c[i] < c[j])
  }

  /** How many k-combinations range(lo, n) has: C(n - lo, k), by Pascal's rule. */
  function ComboCount(lo: nat, n: nat, k: nat): nat
    requires lo <= n
    decreases n - lo, k
  {
    if k == 0 then 1
    else if lo == n then 0
    else ComboCount(lo + 1, n, k - 1) + ComboCount(lo + 1, n, k)
  }

  /**
   * The j-th item of itertools.combinations(range(lo, n), k), as a list of
   * indices: those that take lo come first, then those that skip it.
   */
  function Combo(lo: nat, n: nat, k: nat, j: int): (c: seq<int>)
    requires lo <= n && 0 <= j < ComboCount(lo, n, k)
    ensures |c| == k
    decreases n - lo, k
  {
    if k == 0 then []
    else if j < ComboCount(lo + 1, n, k - 1) then [lo] + Combo(lo + 1, n, k - 1, j)
    else Combo(lo + 1, n, k, j - ComboCount(lo + 1, n, k - 1))
  }

  /** The recursive reading of Combination: a first index in range, then a chain above it. */
  predicate Chain(c: seq<int>, lo: nat, n: nat, k: nat)
    decreases |c|
  {
    if c == [] then k == 0 else k > 0 && lo <= c[0] < n && Chain(c[1..], c[0] + 1, n, k - 1)
  }

  /** The two readings agree. */
  lemma {:induction false} ChainIsCombination(c: seq<int>, lo: nat, n: nat, k: nat)
    ensures Chain(c, lo, n, k) <==> Combination(c, lo, n, k)
    decreases |c|
  {
    if c != [] && k > 0 && lo <= c[0] {
      ChainIsCombination(c[1..], c[0] + 1, n, k - 1);
      if Combination(c, lo, n, k) {
        CombinationTail(c, lo, n, k);
      }
      if Chain(c, lo, n, k) {
        ChainBelow(c[1..], c[0] + 1, n, k - 1);
        CombinationCons(c[0], c[1..], n, k - 1);
        assert c == [c[0]] + c[1..];
      }
    }
  }

  /** Every index of a chain is at least its lower bound. */
  lemma {:induction false} ChainBelow(c: seq<int>, lo: nat, n: nat, k: nat)
    requires Chain(c, lo, n, k)
    ensures forall i :: 0 <= i < |c| ==> lo <= c[i]
    decreases |c|
  {
    if c != [] {
      ChainBelow(c[1..], c[0] + 1, n, k - 1);
      forall i | 0 < i < |c| ensures lo <= c[i] {
        assert c[i] == c[1..][i - 1];
      }
    }
  }

  /** Putting an index below all the others in front keeps a combination. */
  lemma CombinationCons(x: nat, c: seq<int>, n: nat, k: nat)
    requires x < n && Combination(c, x + 1, n, k)
    ensures Combination([x] + c, x, n, k + 1)
  {
  }

  /** The tail of a combination starting at its first index plus one. */
  lemma CombinationTail(c: seq<int>, lo: nat, n: nat, k: nat)
    requires k > 0 && Combination(c, lo, n, k)
    ensures Combination(c[1..], c[0] + 1, n, k - 1)
  {
    forall i | 0 <= i < |c[1..]| ensures c[0] + 1 <= c[1..][i] {
      assert c[1..][i] == c[i + 1];
    }
  }

  /** A chain from lo + 1 is also one from lo. */
  lemma ChainRaise(c: seq<int>, lo: nat, n: nat, k: nat)
    requires Chain(c, lo + 1, n, k)
    ensures Chain(c, lo, n, k)
  {
  }

  /** Every enumerated index list is a chain. */
  lemma {:induction false} ComboChain(lo: nat, n: nat, k: nat, j: int)
    requires lo <= n && 0 <= j < ComboCount(lo, n, k)
    ensures Chain(Combo(lo, n, k, j), lo, n, k)
    decreases n - lo, k
  {
    if k > 0 {
      var skip := ComboCount(lo + 1, n, k - 1);
      if j < skip {
        var c := Combo(lo + 1, n, k - 1, j);
        ComboChain(lo + 1, n, k - 1, j);
        assert ([lo] + c)[1..] == c;
      } else {
        ComboChain(lo + 1, n, k, j - skip);
        ChainRaise(Combo(lo + 1, n, k, j - skip), lo, n, k);
      }
    }
  }

  /** Every enumerated index list is a strictly increasing k-list in [lo, n). */
  lemma CombosSound(lo: nat, n: nat, k: nat, j: int)
    requires lo <= n && 0 <= j < ComboCount(lo, n, k)
    ensures Combination(Combo(lo, n, k, j), lo, n, k)
  {
    ComboChain(lo, n, k, j);
    ChainIsCombination(Combo(lo, n, k, j), lo, n, k);
  }

  /** Every chain is enumerated: the position where it occurs. */
  lemma {:induction false} ChainRank(c: seq<int>, lo: nat, n: nat, k: nat) returns (j: int)
    requires lo <= n
    requires Chain(c, lo, n, k)
    ensures 0 <= j < ComboCount(lo, n, k) && Combo(lo, n, k, j) == c
    decreases n - lo, k
  {
    if k == 0 {
      j := 0;
    } else if c[0] == lo {
      j := ChainRank(c[1..], lo + 1, n, k - 1);
      assert c == [lo] + c[1..];
    } else {
      assert Chain(c, lo + 1, n, k);
      var rest := ChainRank(c, lo + 1, n, k);
      j := ComboCount(lo + 1, n, k - 1) + rest;
    }
  }

  /** Every strictly increasing k-list of indices in [lo, n) is enumerated. */
  lemma CombosComplete(c: seq<int>, lo: nat, n: nat, k: nat)
    requires lo <= n
    requires Combination(c, lo, n, k)
    ensures exists j :: 0 <= j < ComboCount(lo, n, k) && Combo(lo, n, k, j) == c
  {
    ChainIsCombination(c, lo, n, k);
    var j := ChainRank(c, lo, n, k);
  }

  /** The cards at the given indices, in index order (the tuple combinations yields). */
  function Pick(cards: seq<Card>, idx: seq<int>): (r: seq<Card>)
    requires forall i :: 0 <= i < |idx| ==> 0 <= idx[i] < |cards|
    ensures |r| == |idx|
  {
    if idx == [] then [] else [cards[idx[0]]] + Pick(cards, idx[1..])
  }

  /** The cards at strictly increasing indices from lo on are a sub-multiset of cards[lo..]. */
  lemma {:induction false} PickSubMultiset(cards: seq<Card>, idx: seq<int>, lo: nat)
    requires lo <= |cards|
    requires Chain(idx, lo, |cards|, |idx|)
    requires forall i :: 0 <= i < |idx| ==> 0 <= idx[i] < |cards|
    ensures multiset(Pick(cards, idx)) <= multiset(cards[lo..])
    decreases |idx|
  {
    if idx != [] {
      var first := idx[0];
      PickSubMultiset(cards, idx[1..], first + 1);
      var tail := Pick(cards, idx[1..]);
      assert multiset(Pick(cards, idx)) == multiset{cards[first]} + multiset(tail);
      SliceMultiset(cards, lo, first);
    }
  }

  /** cards[lo..] holds cards[first] and everything after it, for lo <= first. */
  lemma SliceMultiset(cards: seq<Card>, lo: nat, first: nat)
    requires lo <= first < |cards|
    ensures multiset{cards[first]} + multiset(cards[first + 1..]) <= multiset(cards[lo..])
  {
    assert cards[lo..] == cards[lo..first] + cards[first..];
    assert cards[first..] == [cards[first]] + cards[first + 1..];
  }

  // ---------------------------------------------------------------------------
  // HandBuilder.
  // ---------------------------------------------------------------------------

  class HandBuilder {
    var cards: seq<Card>

    /** A tuple argument becomes a list; either way the builder holds the same cards. */
    constructor (cards: seq<Card>)
      ensures this.cards == cards
    {
      this.cards := cards;
    }

    /**
     * score_hand: counts the values, sorts the cards in place by (count, value)
     * descending and returns Score of the original cards.
     */
    method ScoreHand() returns (score: HandScore)
      requires |cards| == HAND_LENGTH
      modifies this
      ensures score == Score(old(cards))
      ensures cards == SortByKey(old(cards), Seen(old(cards)))
    {
      var seen := CountValues();
      ghost var original := cards;
      cards := SortByKey(cards, seen);
      var kind, kicker := ScoreCardsToRanks(HIGH_CARD);
      assert cards == SortByKey(original, Seen(original));
      score := HandScore(kind, kicker);
      // A repeated value rules out a flush and a straight.
      if score.kind > HIGH_CARD {
        return;
      }
      var flushSuit := SelectFlushSuit();
      if flushSuit.Some? {
        score := score.(kind := FLUSH);
      }
      var straight := IsStraight();
      if straight {
        if score.kind == FLUSH {
          score := score.(kind := STRAIGHT_FLUSH);
        } else {
          score := score.(kind := STRAIGHT);
        }
      }
    }

    /** The counting loop of score_hand: seen[v] is how many cards have value v. */
    method CountValues() returns (seen: seq<int>)
      ensures seen == Seen(cards)
    {
      seen := seq(15, _ => 0);  // [None, None] + [0] * 13; slots 0 and 1 are never used
      var i := 0;
      while i < |cards|
        invariant 0 <= i <= |cards|
        invariant |seen| == 15 && seen[0] == 0 && seen[1] == 0
        invariant forall v: Value :: seen[v] == multiset(Values(cards[..i]))[v]
      {
        var v := cards[i].value;
        assert cards[..i + 1] == cards[..i] + [cards[i]];
        ValuesAppend(cards[..i], [cards[i]]);
        seen := seen[v := seen[v] + 1];
        i := i + 1;
      }
      assert cards[..i] == cards;
    }

    /**
     * score_cards_to_ranks: walks the runs of equal values to set the hand type
     * (starting from the type passed in) and yields every value in order.
     */
    method ScoreCardsToRanks(kind0: int) returns (kind: int, kicker: seq<int>)
      ensures kicker == Values(cards)
      ensures kind == RanksKind(kind0, Values(cards))
    {
      var lastValue: int := -1;
      var run := 0;
      kind := kind0;
      kicker := [];
      var vals := Values(cards);
      var i := 0;
      while i < |cards|
        invariant 0 <= i <= |cards|
        invariant kicker == vals[..i]
        invariant WalkFrom(Walk(kind, lastValue, run), vals[i..]) == WalkFrom(Walk(kind0, -1, 0), vals)
      {
        assert vals[i..][1..] == vals[i + 1..];
        var card := cards[i];
        if card.value == lastValue {
          run := run + 1;
        } else {
          if run == 4 {
            kind := QUADS;
          } else if run == 3 {
            kind := TRIPS;
          } else if run == 2 {
            if kind == TRIPS {
              kind := FULL_HOUSE;
            } else if kind == PAIR {
              kind := TWO_PAIR;
            } else {
              kind := PAIR;
            }
          }
          run := 1;
        }
        lastValue := card.value;
        assert vals[..i + 1] == vals[..i] + [card.value];
        kicker := kicker + [card.value];
        i := i + 1;
      }
      assert vals[..i] == vals;
      // The full house is the only hand decided by the final run.
      if run == 2 && kind == TRIPS {
        kind := FULL_HOUSE;
      }
    }

    /** is_straight: true exactly when every adjacent gap is 1. */
    method IsStraight() returns (b: bool)
      ensures b <==> Consecutive(Values(cards))
    {
      var lastCard: Option<Card> := None;
      for i := 0 to |cards|
        invariant lastCard == if i == 0 then None else Some(cards[i - 1])
        invariant forall j :: 0 <= j < i - 1 ==> cards[j].value - cards[j + 1].value == 1
      {
        var card := cards[i];
        if lastCard.Some? {
          var gap: int := lastCard.value.value - card.value;
          if gap != 1 {
            assert Values(cards)[i - 1] as int - Values(cards)[i] as int != 1;
            return false;
          }
        }
        lastCard := Some(card);
      }
      return true;
    }

    /** select_flush_suit: the common suit if the (non-empty) cards share one, otherwise None. */
    method SelectFlushSuit() returns (r: Option<SuitCode>)
      ensures r.Some? <==> OneSuit(cards)
      ensures r.Some? ==> r.value == cards[0].suit.suit
    {
      if cards == [] {
        return None;
      }
      var suit := cards[0].suit.suit;
      for i := 0 to |cards|
        invariant forall j :: 0 <= j < i ==> cards[j].suit.suit == suit
      {
        if cards[i].suit.suit != suit {
          assert cards[i] in cards && cards[0] in cards;
          return None;
        }
      }
      return Some(suit);
    }

    /** One pass of find_hand's loop: HandBuilder(list(hand)).score_hand() for the j-th 5-subset. */
    method ScoreSubset(j: int) returns (h: seq<Card>, s: HandScore)
      requires 0 <= j < ComboCount(0, |cards|, HAND_LENGTH)
      ensures h == SubsetAt(cards, j) && s == Score(h)
    {
      h := SubsetAt(cards, j);
      var builder := new HandBuilder(h);
      s := builder.ScoreHand();
    }

    /**
     * find_hand: (None, None) for fewer than five cards; otherwise the first
     * 5-subset, in combinations order, that scores strictly above every earlier
     * one and not below any, with its score.
     */
    method FindHand() returns (hand: Option<seq<Card>>, score: Option<HandScore>)
      ensures |cards| < HAND_LENGTH ==> hand.None? && score.None?
      ensures |cards| >= HAND_LENGTH ==> hand.Some? && score.Some?
      ensures hand.Some? ==> (score.Some? && |hand.value| == HAND_LENGTH &&
        multiset(hand.value) <= multiset(cards) && score.value == Score(hand.value))
      ensures hand.Some? ==> exists j :: (IsFirstMax(ComboScores(cards), j) &&
        hand.value == SubsetAt(cards, j) && score.value == ComboScores(cards)[j])
    {
      if |cards| < HAND_LENGTH {
        return None, None;
      }
      SomeSubset(cards);
      var bestHand, best := ScanSubsets();
      ghost var j := FirstMax(ComboScores(cards));
      FirstMaxIsFirstMax(ComboScores(cards));
      BestSubsetFacts(cards, j);
      hand, score := Some(bestHand), Some(best);
    }

    /**
     * The loop of find_hand over the 5-subsets: a subset replaces the best so far
     * only when its score is strictly greater (the first, from NoScore, always does).
     */
    method ScanSubsets() returns (bestHand: seq<Card>, best: HandScore)
      requires ComboCount(0, |cards|, HAND_LENGTH) > 0
      ensures bestHand == SubsetAt(cards, FirstMax(ComboScores(cards))) && best == Score(bestHand)
    {
      var count := ComboCount(0, |cards|, HAND_LENGTH);
      best := NoScore;
      bestHand := [];
      ghost var bestAt := 0;
      var i := 0;
      while i < count
        invariant 0 <= i <= count
        invariant i == 0 ==> best == NoScore
        invariant i > 0 ==> (bestAt == FirstMax(ScoresUpTo(cards, i)) &&
          bestHand == SubsetAt(cards, bestAt) && best == Score(bestHand))
      {
        bestAt, bestHand, best := Consider(i, bestAt, bestHand, best);
        i := i + 1;
      }
    }

    /** One pass of the loop: score subset i and keep it if it beats the best so far. */
    method Consider(i: int, ghost bestAt: int, bestHand: seq<Card>, best: HandScore)
      returns (ghost bestAt': int, bestHand': seq<Card>, best': HandScore)
      requires 0 <= i < ComboCount(0, |cards|, HAND_LENGTH)
      requires i == 0 ==> best == NoScore
      requires i > 0 ==> (bestAt == FirstMax(ScoresUpTo(cards, i)) &&
        bestHand == SubsetAt(cards, bestAt) && best == Score(bestHand))
      ensures bestAt' == FirstMax(ScoresUpTo(cards, i + 1))
      ensures bestHand' == SubsetAt(cards, bestAt') && best' == Score(bestHand')
    {
      var h, s := ScoreSubset(i);
      if i > 0 {
        ScanStep(cards, i, bestAt);
      } else {
        AboveNoScore(s);
      }
      if Greater(s, best) {
        bestAt', bestHand', best' := i, h, s;
      } else {
        bestAt', bestHand', best' := bestAt, bestHand, best;
      }
    }
  }

  /** The j-th 5-subset of the cards in combinations order. */
  function SubsetAt(cards: seq<Card>, j: int): (r: seq<Card>)
    requires 0 <= j < ComboCount(0, |cards|, HAND_LENGTH)
    ensures |r| == HAND_LENGTH
  {
    CombosSound(0, |cards|, HAND_LENGTH, j);
    Pick(cards, Combo(0, |cards|, HAND_LENGTH, j))
  }

  /** Five or more cards have at least one 5-subset. */
  lemma SomeSubset(cards: seq<Card>)
    requires |cards| >= HAND_LENGTH
    ensures ComboCount(0, |cards|, HAND_LENGTH) > 0
  {
    CombosComplete([0, 1, 2, 3, 4], 0, |cards|, HAND_LENGTH);
  }

  /** Every 5-subset is a sub-multiset of the cards. */
  lemma SubsetIsSubMultiset(cards: seq<Card>, j: int)
    requires 0 <= j < ComboCount(0, |cards|, HAND_LENGTH)
    ensures multiset(SubsetAt(cards, j)) <= multiset(cards)
  {
    CombosSound(0, |cards|, HAND_LENGTH, j);
    ComboChain(0, |cards|, HAND_LENGTH, j);
    PickSubMultiset(cards, Combo(0, |cards|, HAND_LENGTH, j), 0);
    assert cards[0..] == cards;
  }

  /** What find_hand returns for a chosen position: a sub-multiset of the cards and its score. */
  lemma BestSubsetFacts(cards: seq<Card>, j: int)
    requires 0 <= j < ComboCount(0, |cards|, HAND_LENGTH)
    ensures multiset(SubsetAt(cards, j)) <= multiset(cards)
    ensures ComboScores(cards)[j] == Score(SubsetAt(cards, j))
  {
    SubsetIsSubMultiset(cards, j);
    ComboScoreAt(cards, j);
  }

  /** The scores of the first i 5-subsets, in combinations order. */
  function ScoresUpTo(cards: seq<Card>, i: int): (r: seq<HandScore>)
    requires 0 <= i <= ComboCount(0, |cards|, HAND_LENGTH)
    ensures |r| == i
    decreases i
  {
    if i == 0 then [] else ScoresUpTo(cards, i - 1) + [Score(SubsetAt(cards, i - 1))]
  }

  /** One pass of find_hand's loop: the scan over i + 1 subsets moves to subset i exactly when it scores strictly higher. */
  lemma ScanStep(cards: seq<Card>, i: int, bestAt: int)
    requires 0 < i < ComboCount(0, |cards|, HAND_LENGTH)
    requires bestAt == FirstMax(ScoresUpTo(cards, i))
    ensures FirstMax(ScoresUpTo(cards, i + 1)) ==
      if Greater(Score(SubsetAt(cards, i)), Score(SubsetAt(cards, bestAt))) then i else bestAt
  {
    assert ScoresUpTo(cards, i + 1) == ScoresUpTo(cards, i) + [Score(SubsetAt(cards, i))];
    FirstMaxSnoc(ScoresUpTo(cards, i), Score(SubsetAt(cards, i)));
    ScoresUpToAt(cards, i, bestAt);
  }

  lemma {:induction false} ScoresUpToAt(cards: seq<Card>, i: int, j: int)
    requires 0 <= j < i <= ComboCount(0, |cards|, HAND_LENGTH)
    ensures ScoresUpTo(cards, i)[j] == Score(SubsetAt(cards, j))
    decreases i
  {
    if j < i - 1 {
      ScoresUpToAt(cards, i - 1, j);
    }
  }

  /** The score of every 5-subset, in combinations order. */
  function ComboScores(cards: seq<Card>): (r: seq<HandScore>)
    ensures |r| == ComboCount(0, |cards|, HAND_LENGTH)
  {
    ScoresUpTo(cards, ComboCount(0, |cards|, HAND_LENGTH))
  }

  lemma ComboScoreAt(cards: seq<Card>, j: int)
    requires 0 <= j < ComboCount(0, |cards|, HAND_LENGTH)
    ensures ComboScores(cards)[j] == Score(SubsetAt(cards, j))
  {
    ScoresUpToAt(cards, ComboCount(0, |cards|, HAND_LENGTH), j);
  }

  /** Position j holds a score no other is above, and every earlier score is strictly below it. */
  predicate IsFirstMax(scores: seq<HandScore>, j: int)
  {
    0 <= j < |scores| &&
    (forall i :: 0 <= i < |scores| ==> !Less(scores[j], scores[i])) &&
    (forall i :: 0 <= i < j ==> Less(scores[i], scores[j]))
  }

  /**
   * Where find_hand's scan ends: the first score goes in, then each later one
   * replaces the best so far only when strictly greater.
   */
  function FirstMax(scores: seq<HandScore>): (j: int)
    requires |scores| > 0
    ensures 0 <= j < |scores|
    decreases |scores|
  {
    if |scores| == 1 then 0
    else
      var j := FirstMax(scores[..|scores| - 1]);
      if Greater(scores[|scores| - 1], scores[j]) then |scores| - 1 else j
  }

  /** One more score: the scan moves to it exactly when it is strictly greater. */
  lemma FirstMaxSnoc(scores: seq<HandScore>, s: HandScore)
    requires |scores| > 0
    ensures FirstMax(scores + [s]) == if Greater(s, scores[FirstMax(scores)]) then |scores| else FirstMax(scores)
  {
    assert (scores + [s])[..|scores|] == scores;
  }

  /** The scan ends on a first maximum. */
  lemma {:induction false} FirstMaxIsFirstMax(scores: seq<HandScore>)
    requires |scores| > 0
    ensures IsFirstMax(scores, FirstMax(scores))
    decreases |scores|
  {
    if |scores| == 1 {
      ScoreOrderIsTotal(scores[0], scores[0], scores[0]);
    } else {
      var init, last := scores[..|scores| - 1], scores[|scores| - 1];
      FirstMaxIsFirstMax(init);
      FirstMaxStep(init, FirstMax(init), last);
      assert init + [last] == scores;
    }
  }

  /** One iteration of find_hand's loop keeps the first maximum: only a strictly greater score replaces it. */
  lemma FirstMaxStep(scores: seq<HandScore>, j: int, s: HandScore)
    requires IsFirstMax(scores, j)
    ensures Greater(s, scores[j]) ==> IsFirstMax(scores + [s], |scores|)
    ensures !Greater(s, scores[j]) ==> IsFirstMax(scores + [s], j)
  {
    var t := scores + [s];
    GreaterIsConverse(s, scores[j]);
    if Greater(s, scores[j]) {
      forall i | 0 <= i < |scores| ensures Less(t[i], s) && !Less(s, t[i]) {
        ScoreOrderIsTotal(scores[i], scores[j], s);
        ScoreOrderIsTotal(scores[i], s, s);
      }
      ScoreOrderIsTotal(s, s, s);
    } else {
      ScoreOrderIsTotal(s, scores[j], s);
    }
  }

  /**
   * The first maximum is the best 5-subset: every strictly increasing choice of
   * five indices is one of the enumerated subsets, and none of them scores above it.
   */
  lemma FirstMaxIsBest(cards: seq<Card>, j: int, idx: seq<int>)
    requires IsFirstMax(ComboScores(cards), j)
    requires Combination(idx, 0, |cards|, HAND_LENGTH)
    ensures !Less(ComboScores(cards)[j], Score(Pick(cards, idx)))
  {
    CombosComplete(idx, 0, |cards|, HAND_LENGTH);
    var i :| 0 <= i < ComboCount(0, |cards|, HAND_LENGTH) && Combo(0, |cards|, HAND_LENGTH, i) == idx;
    ComboScoreAt(cards, i);
  }
}
