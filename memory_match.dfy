/**
 * The memory-match game (src/games/memory-match/MemoryMatchGame.tsx).
 *
 * The `setState` reducers are pure functions on `MemoryGameState`; the component is a
 * class whose `state` they replace. `Math.random` in `createCards` is replaced by the
 * shuffled deck it produces, any arrangement of the 16 faces. A click reads the current
 * state (the stale-closure races of rapid clicks are left out), and the two timeouts the
 * component schedules are modelled by what they will do when they fire: `pendingResets`
 * counts the mismatch resets not yet run, `completions` lists the scores handed to
 * `onComplete`.
 */
module MemoryMatch {

  import opened Wrappers

  /** `EMOJIS`: dog, cat, mouse, hamster, rabbit, fox, bear and panda faces. */
  const EMOJIS: seq<string> := ["\U{1F436}", "\U{1F431}", "\U{1F42D}", "\U{1F439}",
                                "\U{1F430}", "\U{1F98A}", "\U{1F43B}", "\U{1F43C}"]

  /** `TOTAL_PAIRS = EMOJIS.length`. */
  const TOTAL_PAIRS := 8
  const DECK_SIZE := 16

  /** `Card` of MemoryMatchTypes.ts. */
  datatype Card = Card(id: int, emoji: string, isFlipped: bool, isMatched: bool)

  /** `MemoryGameState` of MemoryMatchTypes.ts; None models `null`. */
  datatype MemoryGameState = MemoryGameState(
    cards: seq<Card>, moves: int, matchedPairs: int, isComplete: bool,
    firstCard: Option<Card>, secondCard: Option<Card>, isLocked: bool)

  // ---------------------------------------------------------------------------------
  // Score

  function Max(a: int, b: int): int { if a >= b then a else b }

  /** `computeScore`: 1000 less 20 per move beyond the eighth, never below 0. */
  function ComputeScore(moves: int): (score: int)
    ensures 0 <= score <= 1000
    ensures moves <= TOTAL_PAIRS ==> score == 1000
    ensures TOTAL_PAIRS <= moves <= 58 ==> score == 1000 - 20 * (moves - TOTAL_PAIRS)
    ensures moves >= 58 ==> score == 0
  {
    var base := 1000;
    var penalty := Max(0, (moves - TOTAL_PAIRS) * 20);
    Max(0, base - penalty)
  }

  /** More moves never score more. */
  lemma ComputeScoreNonIncreasing(a: int, b: int)
    requires a <= b
    ensures ComputeScore(a) >= ComputeScore(b)
  {
  }

  // ---------------------------------------------------------------------------------
  // Deck

  /** `[...EMOJIS, ...EMOJIS]`. */
  function Pairs(): seq<string> { EMOJIS + EMOJIS }

  predicate Distinct(s: seq<string>) {
    forall i, j :: 0 <= i < j < |s| ==> s[i] != s[j]
  }

  lemma {:induction false} DistinctOnce(s: seq<string>, x: string)
    requires Distinct(s)
    ensures multiset(s)[x] == if x in s then 1 else 0
  {
    if s != [] {
      assert s == [s[0]] + s[1..];
      assert Distinct(s[1..]) by {
        forall i, j | 0 <= i < j < |s[1..]| ensures s[1..][i] != s[1..][j] { assert s[1..][i] == s[i + 1]; }
      }
      DistinctOnce(s[1..], x);
      if x == s[0] {
        assert x !in s[1..] by {
          forall k | 0 <= k < |s[1..]| ensures s[1..][k] != x { assert s[1..][k] == s[k + 1]; }
        }
      }
    }
  }

  /** Each face occurs exactly twice in the unshuffled deck, and nothing else occurs. */
  lemma PairsTwice(x: string)
    ensures multiset(Pairs())[x] == if x in EMOJIS then 2 else 0
  {
    assert Distinct(EMOJIS);
    DistinctOnce(EMOJIS, x);
  }

  /** The faces of a row of cards, in order. */
  function EmojisOf(cards: seq<Card>): (r: seq<string>)
    ensures |r| == |cards| && forall i :: 0 <= i < |cards| ==> r[i] == cards[i].emoji
  {
    seq(|cards|, i requires 0 <= i < |cards| => cards[i].emoji)
  }

  /** A shuffle of the 16 faces: what `pairs.sort(() => Math.random() - 0.5)` can yield. */
  predicate IsShuffle(shuffled: seq<string>) {
    multiset(shuffled) == multiset(Pairs())
  }

  /** `createCards` on the given shuffle: 16 face-down unmatched cards with ids 0..15 in
      order, each face exactly twice. */
  function CreateCards(shuffled: seq<string>): (cards: seq<Card>)
    requires IsShuffle(shuffled)
    ensures |cards| == DECK_SIZE
    ensures forall i :: 0 <= i < |cards| ==> cards[i].id == i && !cards[i].isFlipped && !cards[i].isMatched
    ensures EmojisOf(cards) == shuffled
    ensures forall x :: multiset(EmojisOf(cards))[x] == if x in EMOJIS then 2 else 0
  {
    assert |shuffled| == |multiset(shuffled)| == |multiset(Pairs())| == DECK_SIZE;
    var cards := seq(|shuffled|, i requires 0 <= i < |shuffled| => Card(i, shuffled[i], false, false));
    assert EmojisOf(cards) == shuffled;
    assert forall x :: multiset(EmojisOf(cards))[x] == if x in EMOJIS then 2 else 0 by {
      forall x ensures multiset(EmojisOf(cards))[x] == if x in EMOJIS then 2 else 0 { PairsTwice(x); }
    }
    cards
  }

  /** The state `useState` and `handleRestart` install. */
  function InitialState(shuffled: seq<string>): MemoryGameState
    requires IsShuffle(shuffled)
  {
    MemoryGameState(CreateCards(shuffled), 0, 0, false, None, None, false)
  }

  // ---------------------------------------------------------------------------------
  // The reducers

  /** `cards.map((c) => c.id === id ? { ...c, isFlipped: true } : c)`. */
  function FlipCard(cards: seq<Card>, id: int): (r: seq<Card>)
    ensures |r| == |cards|
  {
    seq(|cards|, i requires 0 <= i < |cards| => if cards[i].id == id then cards[i].(isFlipped := true) else cards[i])
  }

  /** `cards.map((c) => c.emoji === emoji ? { ...c, isMatched: true } : c)`. */
  function MatchFace(cards: seq<Card>, emoji: string): (r: seq<Card>)
    ensures |r| == |cards|
  {
    seq(|cards|, i requires 0 <= i < |cards| => if cards[i].emoji == emoji then cards[i].(isMatched := true) else cards[i])
  }

  /** The id of an optional card: `prev.firstCard?.id`. */
  function IdOf(c: Option<Card>): Option<int> {
    if c.Some? then Some(c.value.id) else None
  }

  /** `cards.map((c) => c.id === a?.id || c.id === b?.id ? { ...c, isFlipped: false } : c)`. */
  function Unflip(cards: seq<Card>, a: Option<int>, b: Option<int>): (r: seq<Card>)
    ensures |r| == |cards|
  {
    seq(|cards|, i requires 0 <= i < |cards| =>
      if Some(cards[i].id) == a || Some(cards[i].id) == b then cards[i].(isFlipped := false) else cards[i])
  }

  /** What the click reducer returns, with the `onComplete` score its timeout will deliver
      when the move completes the game. */
  datatype Step = Step(next: MemoryGameState, completion: Option<int>)

  /** The `setState` reducer of `handleCardClick` for a click on `card`. */
  function ClickReducer(prev: MemoryGameState, card: Card): (r: Step)
    ensures |r.next.cards| == |prev.cards|
    ensures r.next.moves == prev.moves + (if prev.firstCard.Some? && prev.secondCard.None? then 1 else 0)
    ensures r.completion.Some? ==> r.next.isComplete && r.completion.value == ComputeScore(r.next.moves)
  {
    if prev.firstCard.None? then
      Step(prev.(cards := FlipCard(prev.cards, card.id), firstCard := Some(card)), None)
    else if prev.secondCard.Some? then
      Step(prev, None)
    else
      var newCards := FlipCard(prev.cards, card.id);
      var newMoves := prev.moves + 1;
      if prev.firstCard.value.emoji == card.emoji then
        var newMatchedPairs := prev.matchedPairs + 1;
        var isComplete := newMatchedPairs == TOTAL_PAIRS;
        Step(prev.(cards := MatchFace(newCards, card.emoji), moves := newMoves, matchedPairs := newMatchedPairs,
                   isComplete := isComplete, firstCard := None, secondCard := None, isLocked := false),
             if isComplete then Some(ComputeScore(newMoves)) else None)
      else
        Step(prev.(cards := newCards, moves := newMoves, secondCard := Some(card), isLocked := true), None)
  }

  /** The reducer of the 900 ms mismatch timeout. */
  function MismatchReset(prev: MemoryGameState): (r: MemoryGameState)
    ensures |r.cards| == |prev.cards|
    ensures prev.secondCard.None? ==> r == prev
    ensures prev.secondCard.Some? ==> r.firstCard.None? && !r.isLocked
    ensures r.secondCard.None? && r.moves == prev.moves && r.matchedPairs == prev.matchedPairs
    ensures r.isComplete == prev.isComplete
  {
    if prev.secondCard.None? then prev
    else
      prev.(cards := Unflip(prev.cards, IdOf(prev.firstCard), IdOf(prev.secondCard)),
            firstCard := None, secondCard := None, isLocked := false)
  }

  /** The outer guard of `handleCardClick`: `state.isLocked || card.isFlipped || card.isMatched`. */
  predicate Ignored(s: MemoryGameState, card: Card) {
    s.isLocked || card.isFlipped || card.isMatched
  }

  // ---------------------------------------------------------------------------------
  // The invariant of every reachable state

  /** The faces of the matched cards. */
  function MatchedFaces(cards: seq<Card>): set<string> {
    set i | 0 <= i < |cards| && cards[i].isMatched :: cards[i].emoji
  }

  /** A selected card: its deck slot shows the same face, face up and unmatched. */
  predicate Picked(cards: seq<Card>, c: Card) {
    0 <= c.id < |cards| && cards[c.id].emoji == c.emoji && cards[c.id].isFlipped && !cards[c.id].isMatched
  }

  /** Card `i` lies in slot `i`. */
  predicate IdsInPlace(cards: seq<Card>) {
    forall i :: 0 <= i < |cards| ==> cards[i].id == i
  }

  /** The deck: 16 slots, card `i` in slot `i`, each face twice. */
  ghost predicate Deck(cards: seq<Card>) {
    && |cards| == DECK_SIZE
    && IdsInPlace(cards)
    && multiset(EmojisOf(cards)) == multiset(Pairs())
  }

  /** Both cards of a face are matched together. */
  predicate MatchedInPairs(cards: seq<Card>) {
    forall i, j :: 0 <= i < |cards| && 0 <= j < |cards| && cards[i].emoji == cards[j].emoji
      ==> cards[i].isMatched == cards[j].isMatched
  }

  /** The counters agree with the cards. */
  predicate Counted(s: MemoryGameState) {
    && s.matchedPairs == |MatchedFaces(s.cards)|
    && (s.isComplete <==> s.matchedPairs == TOTAL_PAIRS)
    && s.moves >= 0
  }

  /** The selection: a first card, and a second one of another face only while locked. */
  predicate Selection(s: MemoryGameState) {
    && (s.firstCard.Some? ==> Picked(s.cards, s.firstCard.value))
    && (s.secondCard.Some? ==>
          s.firstCard.Some? && Picked(s.cards, s.secondCard.value)
          && s.secondCard.value.emoji != s.firstCard.value.emoji)
    && (s.isLocked <==> s.secondCard.Some?)
  }

  ghost predicate Inv(s: MemoryGameState) {
    Deck(s.cards) && MatchedInPairs(s.cards) && Counted(s) && Selection(s)
  }

  /** Two rows that agree on faces and matches have the same matched faces. */
  lemma SameMatchedFaces(a: seq<Card>, b: seq<Card>)
    requires |a| == |b|
    requires forall i :: 0 <= i < |a| ==> a[i].emoji == b[i].emoji && a[i].isMatched == b[i].isMatched
    ensures MatchedFaces(a) == MatchedFaces(b)
  {
    forall x | x in MatchedFaces(a) ensures x in MatchedFaces(b) {
      var i :| 0 <= i < |a| && a[i].isMatched && a[i].emoji == x;
      assert b[i].isMatched && b[i].emoji == x;
    }
    forall x | x in MatchedFaces(b) ensures x in MatchedFaces(a) {
      var i :| 0 <= i < |b| && b[i].isMatched && b[i].emoji == x;
      assert a[i].isMatched && a[i].emoji == x;
    }
  }

  /** Two rows that agree on ids, faces and matches have the same faces and matched faces. */
  lemma SameFaces(a: seq<Card>, b: seq<Card>)
    requires |a| == |b|
    requires forall i :: 0 <= i < |a| ==> a[i].id == b[i].id && a[i].emoji == b[i].emoji && a[i].isMatched == b[i].isMatched
    ensures EmojisOf(a) == EmojisOf(b)
    ensures MatchedFaces(a) == MatchedFaces(b)
    ensures Deck(a) ==> Deck(b)
    ensures MatchedInPairs(a) ==> MatchedInPairs(b)
  {
    SameMatchedFaces(a, b);
    assert EmojisOf(a) == EmojisOf(b);
  }

  lemma InitialStateInv(shuffled: seq<string>)
    requires IsShuffle(shuffled)
    ensures Inv(InitialState(shuffled))
  {
    var cards := CreateCards(shuffled);
    assert MatchedFaces(cards) == {};
    assert multiset(EmojisOf(cards)) == multiset(Pairs());
  }

  /** Turning up card `i` changes only its `isFlipped`. */
  lemma FlipOnly(cards: seq<Card>, i: int)
    requires Deck(cards) && 0 <= i < |cards|
    ensures var r := FlipCard(cards, i);
      && |r| == |cards|
      && (forall j :: 0 <= j < |cards| ==> r[j] == cards[j].(isFlipped := cards[j].isFlipped || j == i))
      && EmojisOf(r) == EmojisOf(cards) && MatchedFaces(r) == MatchedFaces(cards)
      && Deck(r) && (MatchedInPairs(cards) ==> MatchedInPairs(r))
  {
    var r := FlipCard(cards, i);
    forall j | 0 <= j < |cards| ensures r[j] == cards[j].(isFlipped := cards[j].isFlipped || j == i) {
      assert cards[j].id == j;
    }
    SameFaces(cards, r);
  }

  /** A first pick keeps the invariant. */
  lemma FirstPickKeepsInv(s: MemoryGameState, i: int)
    requires Inv(s) && 0 <= i < |s.cards| && !Ignored(s, s.cards[i]) && s.firstCard.None?
    ensures Inv(ClickReducer(s, s.cards[i]).next)
  {
    FlipOnly(s.cards, i);
  }

  /** A mismatching second pick keeps the invariant. */
  lemma MismatchKeepsInv(s: MemoryGameState, i: int)
    requires Inv(s) && 0 <= i < |s.cards| && !Ignored(s, s.cards[i])
    requires s.firstCard.Some? && s.firstCard.value.emoji != s.cards[i].emoji
    ensures Inv(ClickReducer(s, s.cards[i]).next)
  {
    FlipOnly(s.cards, i);
    assert s.firstCard.value.id != i;
  }

  /** Matching a face adds exactly that face to the matched ones. */
  lemma MatchFaceFaces(cards: seq<Card>, i: int)
    requires 0 <= i < |cards|
    ensures MatchedFaces(MatchFace(cards, cards[i].emoji)) == MatchedFaces(cards) + {cards[i].emoji}
  {
    var e := cards[i].emoji;
    var r := MatchFace(cards, e);
    forall x | x in MatchedFaces(r) ensures x in MatchedFaces(cards) + {e} {
      var j :| 0 <= j < |r| && r[j].isMatched && r[j].emoji == x;
      if x != e {
        assert cards[j].isMatched;
      }
    }
    forall x | x in MatchedFaces(cards) + {e} ensures x in MatchedFaces(r) {
      if x == e {
        assert r[i].isMatched && r[i].emoji == e;
      } else {
        var j :| 0 <= j < |cards| && cards[j].isMatched && cards[j].emoji == x;
        assert r[j].isMatched && r[j].emoji == x;
      }
    }
  }

  /** Matching a face nobody has matched yet adds one to the matched faces and keeps
      pairs matched together, faces and ids. */
  lemma MatchAddsFace(cards: seq<Card>, i: int)
    requires MatchedInPairs(cards) && 0 <= i < |cards| && !cards[i].isMatched
    ensures var e := cards[i].emoji;
      var r := MatchFace(cards, e);
      && |MatchedFaces(r)| == |MatchedFaces(cards)| + 1
      && MatchedInPairs(r)
      && EmojisOf(r) == EmojisOf(cards)
      && forall j :: 0 <= j < |cards| ==> r[j].id == cards[j].id
  {
    var e := cards[i].emoji;
    var r := MatchFace(cards, e);
    assert e !in MatchedFaces(cards) by {
      forall j | 0 <= j < |cards| && cards[j].emoji == e ensures !cards[j].isMatched {
        assert cards[j].isMatched == cards[i].isMatched;
      }
    }
    MatchFaceFaces(cards, i);
    assert EmojisOf(r) == EmojisOf(cards);
  }

  /** The cards after a matching second pick form a deck with one more matched face. */
  lemma MatchedCards(cards: seq<Card>, i: int)
    requires Deck(cards) && MatchedInPairs(cards) && 0 <= i < |cards| && !cards[i].isMatched
    ensures var r := MatchFace(FlipCard(cards, i), cards[i].emoji);
      Deck(r) && MatchedInPairs(r) && |MatchedFaces(r)| == |MatchedFaces(cards)| + 1
  {
    var flipped := FlipCard(cards, i);
    FlipOnly(cards, i);
    MatchAddsFace(flipped, i);
  }

  /** A matching second pick keeps the invariant. */
  lemma MatchKeepsInv(s: MemoryGameState, i: int)
    requires Inv(s) && 0 <= i < |s.cards| && !Ignored(s, s.cards[i])
    requires s.firstCard.Some? && s.firstCard.value.emoji == s.cards[i].emoji
    ensures Inv(ClickReducer(s, s.cards[i]).next)
  {
    MatchedCards(s.cards, i);
    var n := ClickReducer(s, s.cards[i]).next;
    assert n.cards == MatchFace(FlipCard(s.cards, i), s.cards[i].emoji);
    assert Counted(n);
  }

  /** Every click the guard lets through keeps the invariant. */
  lemma ClickKeepsInv(s: MemoryGameState, i: int)
    requires Inv(s) && 0 <= i < |s.cards| && !Ignored(s, s.cards[i])
    ensures Inv(ClickReducer(s, s.cards[i]).next)
  {
    if s.firstCard.None? {
      FirstPickKeepsInv(s, i);
    } else if s.firstCard.value.emoji == s.cards[i].emoji {
      MatchKeepsInv(s, i);
    } else {
      MismatchKeepsInv(s, i);
    }
  }

  /** The mismatch reset keeps the invariant. */
  lemma ResetKeepsInv(s: MemoryGameState)
    requires Inv(s)
    ensures Inv(MismatchReset(s))
  {
    if s.secondCard.Some? {
      var r := Unflip(s.cards, IdOf(s.firstCard), IdOf(s.secondCard));
      SameFaces(s.cards, r);
    }
  }

  lemma {:induction false} SubsetCardinality(a: set<string>, b: set<string>)
    requires a <= b
    ensures |a| <= |b|
    ensures |a| == |b| ==> a == b
  {
    if a != {} {
      var x :| x in a;
      SubsetCardinality(a - {x}, b - {x});
    } else if |b| == 0 {
      assert b == {};
    }
  }

  /** The eight faces as a set. */
  const FACES: set<string> := {"\U{1F436}", "\U{1F431}", "\U{1F42D}", "\U{1F439}",
                              "\U{1F430}", "\U{1F98A}", "\U{1F43B}", "\U{1F43C}"}

  /** Eight different faces. */
  lemma FaceCount()
    ensures |FACES| == TOTAL_PAIRS
    ensures forall x :: x in EMOJIS ==> x in FACES
  {
  }

  /** Every card of a deck shows one of the eight faces. */
  lemma DeckFaces(cards: seq<Card>)
    requires Deck(cards)
    ensures forall i :: 0 <= i < |cards| ==> cards[i].emoji in EMOJIS
  {
    forall i | 0 <= i < |cards| ensures cards[i].emoji in EMOJIS {
      assert EmojisOf(cards)[i] == cards[i].emoji;
      assert cards[i].emoji in multiset(EmojisOf(cards));
      PairsTwice(cards[i].emoji);
    }
  }

  /** In every reachable state at most 8 pairs are matched, and a complete game has every
      card matched. */
  lemma InvBounds(s: MemoryGameState)
    requires Inv(s)
    ensures 0 <= s.matchedPairs <= TOTAL_PAIRS
    ensures s.isComplete ==> forall i :: 0 <= i < |s.cards| ==> s.cards[i].isMatched
  {
    FaceCount();
    DeckFaces(s.cards);
    assert MatchedFaces(s.cards) <= FACES;
    SubsetCardinality(MatchedFaces(s.cards), FACES);
    if s.isComplete {
      forall i | 0 <= i < |s.cards| ensures s.cards[i].isMatched {
        assert s.cards[i].emoji in MatchedFaces(s.cards);
      }
    }
  }

  /** A complete game ignores every click. */
  lemma CompleteIgnoresClicks(s: MemoryGameState, i: int)
    requires Inv(s) && s.isComplete && 0 <= i < |s.cards|
    ensures Ignored(s, s.cards[i])
  {
    InvBounds(s);
  }

  // ---------------------------------------------------------------------------------
  // The transitions one by one

  /** The first pick turns up only that card and records it; `moves` does not change. */
  lemma FirstPick(s: MemoryGameState, i: int)
    requires IdsInPlace(s.cards) && Selection(s) && 0 <= i < |s.cards| && !Ignored(s, s.cards[i]) && s.firstCard.None?
    ensures var r := ClickReducer(s, s.cards[i]);
      r.completion.None? && r.next.firstCard == Some(s.cards[i]) && r.next.moves == s.moves
      && r.next.secondCard.None? && !r.next.isLocked && r.next.matchedPairs == s.matchedPairs
      && |r.next.cards| == |s.cards|
      && forall j :: 0 <= j < |s.cards| ==>
           r.next.cards[j] == s.cards[j].(isFlipped := s.cards[j].isFlipped || j == i)
  {
  }

  /** A pick while a second card is held changes nothing. */
  lemma PickWhileSecondHeld(s: MemoryGameState, card: Card)
    requires s.firstCard.Some? && s.secondCard.Some?
    ensures ClickReducer(s, card) == Step(s, None)
  {
  }

  /** A matching second pick matches both cards of that face, counts a pair and a move,
      clears the selection and unlocks; the game is complete exactly at 8 pairs, and only
      then is `onComplete` scheduled, with the score for the moves made. */
  lemma MatchingPick(s: MemoryGameState, i: int)
    requires IdsInPlace(s.cards) && Selection(s) && 0 <= i < |s.cards| && !Ignored(s, s.cards[i])
    requires s.firstCard.Some? && s.firstCard.value.emoji == s.cards[i].emoji
    ensures var r := ClickReducer(s, s.cards[i]);
      && r.next.moves == s.moves + 1 && r.next.matchedPairs == s.matchedPairs + 1
      && r.next.firstCard.None? && r.next.secondCard.None? && !r.next.isLocked
      && (r.next.isComplete <==> r.next.matchedPairs == TOTAL_PAIRS)
      && (r.completion.Some? <==> r.next.isComplete)
      && (r.completion.Some? ==> r.completion.value == ComputeScore(r.next.moves))
      && |r.next.cards| == |s.cards|
      && forall j :: 0 <= j < |s.cards| ==>
           r.next.cards[j] == s.cards[j].(isFlipped := s.cards[j].isFlipped || j == i,
                                          isMatched := s.cards[j].isMatched || s.cards[j].emoji == s.cards[i].emoji)
  {
    assert !s.isLocked;
  }

  /** A mismatching second pick turns up that card, counts a move, holds it as the second
      card and locks the board. */
  lemma MismatchingPick(s: MemoryGameState, i: int)
    requires IdsInPlace(s.cards) && Selection(s) && 0 <= i < |s.cards| && !Ignored(s, s.cards[i])
    requires s.firstCard.Some? && s.firstCard.value.emoji != s.cards[i].emoji
    ensures var r := ClickReducer(s, s.cards[i]);
      && r.completion.None? && r.next.moves == s.moves + 1 && r.next.matchedPairs == s.matchedPairs
      && r.next.firstCard == s.firstCard && r.next.secondCard == Some(s.cards[i]) && r.next.isLocked
      && |r.next.cards| == |s.cards|
      && forall j :: 0 <= j < |s.cards| ==>
           r.next.cards[j] == s.cards[j].(isFlipped := s.cards[j].isFlipped || j == i)
  {
    assert !s.isLocked;
  }

  /** The mismatch reset turns down exactly the two selected cards, clears the selection
      and unlocks; with no second card it is a no-op. */
  lemma ResetTurnsDownPair(s: MemoryGameState)
    requires IdsInPlace(s.cards) && Selection(s)
    ensures s.secondCard.None? ==> MismatchReset(s) == s
    ensures s.secondCard.Some? ==>
      var r := MismatchReset(s);
      && r.firstCard.None? && r.secondCard.None? && !r.isLocked
      && r.moves == s.moves && r.matchedPairs == s.matchedPairs
      && |r.cards| == |s.cards|
      && forall j :: 0 <= j < |s.cards| ==>
           r.cards[j] == s.cards[j].(isFlipped := s.cards[j].isFlipped
                                      && j != s.firstCard.value.id && j != s.secondCard.value.id)
  {
  }

  // ---------------------------------------------------------------------------------
  // The component

  class MemoryMatchGame {
    var state: MemoryGameState
    var pendingResets: nat
    var completions: seq<int>

    ghost predicate Valid()
      reads this
    {
      Inv(state)
    }

    constructor (shuffled: seq<string>)
      requires IsShuffle(shuffled)
      ensures Valid() && state == InitialState(shuffled) && pendingResets == 0 && completions == []
    {
      state := InitialState(shuffled);
      pendingResets := 0;
      completions := [];
      InitialStateInv(shuffled);
    }

    /** `handleCardClick` on the card shown in slot `i`. */
    method HandleCardClick(i: nat)
      requires Valid() && i < |state.cards|
      modifies this
      ensures Valid()
      ensures Ignored(old(state), old(state.cards[i])) ==>
        state == old(state) && pendingResets == old(pendingResets) && completions == old(completions)
      ensures !Ignored(old(state), old(state.cards[i])) ==>
        var step := ClickReducer(old(state), old(state.cards[i]));
        && state == step.next
        && completions == old(completions) + (if step.completion.Some? then [step.completion.value] else [])
        && pendingResets == old(pendingResets)
             + (if old(state.firstCard).Some? && old(state.firstCard).value.emoji != old(state.cards[i]).emoji then 1 else 0)
      ensures old(state.isComplete) ==> state == old(state)
    {
      if state.isComplete {
        CompleteIgnoresClicks(state, i);
      }
      var card := state.cards[i];
      if state.isLocked || card.isFlipped || card.isMatched {
        return;
      }
      ClickKeepsInv(state, i);
      var step := ClickReducer(state, card);
      var reset := if state.firstCard.Some? && state.firstCard.value.emoji != card.emoji then 1 else 0;
      state, completions, pendingResets :=
        step.next, completions + (if step.completion.Some? then [step.completion.value] else []), pendingResets + reset;
    }

    /** A scheduled mismatch timeout fires. */
    method MismatchTimeout()
      requires Valid() && pendingResets > 0
      modifies this`state, this`pendingResets
      ensures Valid()
      ensures state == MismatchReset(old(state)) && pendingResets == old(pendingResets) - 1
    {
      ResetKeepsInv(state);
      state := MismatchReset(state);
      pendingResets := pendingResets - 1;
    }

    /** `handleRestart`: a fresh deck and the initial counters; timeouts already scheduled
        still fire later. */
    method HandleRestart(shuffled: seq<string>)
      requires IsShuffle(shuffled)
      modifies this`state
      ensures Valid() && state == InitialState(shuffled)
    {
      state := InitialState(shuffled);
      InitialStateInv(shuffled);
    }
  }
}
