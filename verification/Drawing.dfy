/** Drawing cards, said without a loop; and shuffling, which can produce every order. */
module Drawing {
  import opened Cards
  import opened States
  import opened Zones
  import opened Primitives
  import opened Effects
  import opened Engine
  import opened Runs
  import opened Moves

  function Min(a: nat, b: nat): nat {
    if a < b then a else b
  }

  // ----- Drawing -----

  /** The top `k` cards come to the hand, topmost first, one event for each in that order. */
  function Dealt(s: State, px: nat, k: nat): State
    requires k <= |s.P(px).deck|
  {
    var p := s.P(px);
    var drawn := TopDown(p.deck, k);
    s.With(px, p.(hand := p.hand + drawn, deck := p.deck[..|p.deck| - k])).(log := s.log + MoveEvents(px, drawn, ToHand))
  }

  /** The reference: the top of the deck if it suffices; otherwise the whole deck first, then the shuffled discard pile
      as far as it goes. */
  function Drawn(s: State, px: nat, n: nat): State {
    var size := |s.P(px).deck|;
    if n <= size then Dealt(s, px, n)
    else
      var s1 := Dealt(s, px, size);
      if s1.P(px).discard == [] then s1
      else
        var r := Refill(s1, px);
        Dealt(r, px, Min(n - size, |r.P(px).deck|))
  }

  lemma DealtNone(s: State, px: nat)
    ensures Dealt(s, px, 0) == s
  {
    var p := s.P(px);
    assert p.deck[..|p.deck|] == p.deck;
    assert p.hand + TopDown(p.deck, 0) == p.hand;
    assert s.log + MoveEvents(px, [], ToHand) == s.log;
  }

  lemma TopStep(deck: seq<Card>, k: nat)
    requires k < |deck|
    ensures TopDown(deck, k + 1) == [deck[|deck| - 1]] + TopDown(deck[..|deck| - 1], k)
    ensures deck[..|deck| - 1][..|deck| - 1 - k] == deck[..|deck| - (k + 1)]
  {
  }

  lemma TopDealt(s: State, px: nat)
    requires px < |s.players| && s.P(px).deck != []
    ensures var p := s.P(px);
            var top := p.deck[|p.deck| - 1];
            DeliverTop(s, px, ToHand) ==
            s.(players := s.players[px := p.(deck := p.deck[..|p.deck| - 1], hand := p.hand + [top])],
               log := s.log + [MoveEvent(px, top, ToHand)])
  {
  }

  lemma DealtStep(s: State, px: nat, k: nat)
    requires px < |s.players| && k < |s.P(px).deck|
    ensures var s1 := DeliverTop(s, px, ToHand);
            k <= |s1.P(px).deck| && Dealt(s, px, k + 1) == Dealt(s1, px, k)
  {
    hide TopDown, MoveEvents, MoveEvent, DeliverTop;
    var p := s.P(px);
    var top, rest := p.deck[|p.deck| - 1], TopDown(p.deck[..|p.deck| - 1], k);
    TopStep(p.deck, k);
    TopDealt(s, px);
    EventsStep(px, top, rest);
    SnocAssoc(s.log, MoveEvent(px, top, ToHand), MoveEvents(px, rest, ToHand));
    SnocAssoc(p.hand, top, rest);
    var q := p.(hand := p.hand + ([top] + rest), deck := p.deck[..|p.deck| - (k + 1)]);
    assert s.players[px := p.(deck := p.deck[..|p.deck| - 1], hand := p.hand + [top])][px := q] == s.players[px := q];
  }

  lemma EventsStep(px: nat, top: Card, rest: seq<Card>)
    ensures MoveEvents(px, [top] + rest, ToHand) == [MoveEvent(px, top, ToHand)] + MoveEvents(px, rest, ToHand)
  {
  }

  lemma {:induction false} DrawFromDeck(s: State, px: nat, n: nat)
    requires px < |s.players| && n <= |s.P(px).deck|
    ensures DrawCards(s, px, n) == Dealt(s, px, n)
    decreases n
  {
    if n == 0 {
      DealtNone(s, px);
    } else {
      var s1 := DeliverTop(s, px, ToHand);
      assert DrawOne(s, px) == s1;
      DealtStep(s, px, n - 1);
      hide Dealt, DeliverTop;
      DrawFromDeck(s1, px, n - 1);
    }
  }

  lemma {:induction false} DrawSplits(s: State, px: nat, a: nat, b: nat)
    requires px < |s.players|
    ensures DrawCards(s, px, a + b) == DrawCards(DrawCards(s, px, a), px, b)
    decreases a
  {
    hide DrawOne;
    if a > 0 && Available(s.P(px)) > 0 { DrawSplits(DrawOne(s, px), px, a - 1, b); }
  }

  /** With an empty deck the first draw is from the shuffled discard pile. */
  lemma DrawRefills(s: State, px: nat, n: nat)
    requires px < |s.players| && s.P(px).deck == [] && s.P(px).discard != [] && n > 0
    ensures DrawCards(s, px, n) == DrawCards(Refill(s, px), px, n)
  {
    var r := Refill(s, px);
    assert RefillIfEmpty(s, px) == r && RefillIfEmpty(r, px) == r;
    hide Refill, DeliverTop, RefillIfEmpty;
    assert DrawOne(s, px) == DrawOne(r, px);
  }

  lemma NothingToDraw(s: State, px: nat, n: nat)
    requires Available(s.P(px)) == 0
    ensures DrawCards(s, px, n) == s
  {
  }

  lemma DealtSeat(s: State, px: nat, k: nat)
    requires px < |s.players| && k <= |s.P(px).deck|
    ensures var t, p := Dealt(s, px, k), s.P(px);
            t.P(px) == p.(hand := p.hand + TopDown(p.deck, k), deck := p.deck[..|p.deck| - k]) && |t.players| == |s.players|
  {
    hide TopDown, MoveEvents;
  }

  /** As many cards as asked for, from a deck that has just been refilled or is all there is. */
  lemma DrawLast(s: State, px: nat, n: nat)
    requires px < |s.players| && s.P(px).discard == []
    ensures DrawCards(s, px, n) == Dealt(s, px, Min(n, |s.P(px).deck|))
  {
    var size := |s.P(px).deck|;
    hide Dealt, DrawCards;
    if n <= size {
      DrawFromDeck(s, px, n);
    } else {
      DrawFromDeck(s, px, size);
      DealtSeat(s, px, size);
      DrawSplits(s, px, size, n - size);
      NothingToDraw(Dealt(s, px, size), px, n - size);
    }
  }

  /** `DrawCards` refines the reference: same cards, same order, same events, same shuffle. */
  lemma DrawCardsIs(s: State, px: nat, n: nat)
    requires px < |s.players|
    ensures DrawCards(s, px, n) == Drawn(s, px, n)
  {
    var size := |s.P(px).deck|;
    hide Dealt, DrawCards, Refill;
    if n <= size {
      DrawFromDeck(s, px, n);
    } else {
      var s1 := Dealt(s, px, size);
      DrawFromDeck(s, px, size);
      DealtSeat(s, px, size);
      DrawSplits(s, px, size, n - size);
      if s1.P(px).discard == [] {
        NothingToDraw(s1, px, n - size);
      } else {
        DrawRefills(s1, px, n - size);
        DrawLast(Refill(s1, px), px, n - size);
      }
    }
  }

  /** What a draw does to the seat: exactly as many cards as there are, up to `n`; the top `n` and an untouched discard
      pile if the deck suffices, the whole deck first otherwise; nothing lost. */
  lemma DrawnSeat(s: State, px: nat, n: nat)
    requires px < |s.players|
    ensures var p, q := s.P(px), DrawCards(s, px, n).P(px);
            && p.hand <= q.hand && |q.hand| == |p.hand| + Min(n, Available(p))
            && Available(q) == Available(p) - Min(n, Available(p))
            && (n <= |p.deck| ==>
                  q == p.(hand := p.hand + TopDown(p.deck, n), deck := p.deck[..|p.deck| - n]))
            && (n > |p.deck| ==>
                  p.hand + TopDown(p.deck, |p.deck|) <= q.hand && q.discard == [])
  {
    hide Dealt, DrawCards, TopDown, Refill;
    DrawCardsIs(s, px, n);
    var p := s.P(px);
    var size := |p.deck|;
    if n <= size {
      DealtSeat(s, px, n);
    } else {
      DealtSeat(s, px, size);
      var s1 := Dealt(s, px, size);
      if s1.P(px).discard != [] {
        var r := Refill(s1, px);
        DealtSeat(r, px, Min(n - size, |r.P(px).deck|));
      }
    }
  }

  /** After every end of turn the outgoing hand has five cards, or all the player owns if that is less. */
  lemma HandAfterCleanup(s: State)
    requires Inv(s) && s.pending.None? && !s.ended && s.phase == BuyPhase
    ensures s.players != []
    ensures var p, q := s.P(s.current), ApplyEndPhase(s).state.P(s.current);
            |q.hand| == Min(5, OwnedCount(p)) && OwnedCount(q) == OwnedCount(p)
  {
    hide DrawCards, CleanUpSeat, PassTurn, ApplyEndPhase, SweptTable, TopDown;
    NoCleanup(s);
    var px := s.current;
    var s0 := s.(phase := CleanupPhase);
    CleanUpIs(s0, px);
    SweptSeat(s0, px);
    DrawnSeat(SweptTable(s0, px), px, 5);
    DrawCardsSeat(SweptTable(s0, px), px, 5);
    PassedHand(CleanUpSeat(s0, px), px);
    EndBuyIs(s);
  }

  lemma SweptSeat(s: State, px: nat)
    requires px < |s.players|
    ensures var p, q := s.P(px), SweptTable(s, px).P(px);
            && q == Swept(p) && Available(q) == OwnedCount(p) && |q.hand| == 0 && OwnedCount(q) == OwnedCount(p)
            && |SweptTable(s, px).players| == |s.players|
  {
    hide DiscardEvents;
  }

  lemma PassedHand(s: State, px: nat)
    requires s.current < |s.players| && px < |s.players|
    ensures var p, q := s.P(px), PassTurn(s).P(px);
            q == p.(actions := q.actions, buys := q.buys, coins := q.coins)
  {
  }

  // ----- The cards to come -----

  /** All cards the seat can draw, in the order in which it will draw them: the deck from its top, then the discard pile
      as it will be shuffled. */
  function Coming(s: State, px: nat): (r: seq<Card>)
    ensures |r| == Available(s.P(px))
  {
    var p := s.P(px);
    var later := Shuffle(p.discard, s.rng).0;
    TopDown(p.deck, |p.deck|) + TopDown(later, |later|)
  }

  lemma ComingNone(s: State, px: nat)
    ensures Coming(s, px) == [] <==> Available(s.P(px)) == 0
  {
    hide Shuffle, TopDown;
  }

  lemma ComingSame(s: State, t: State, px: nat)
    requires t.P(px).deck == s.P(px).deck && t.P(px).discard == s.P(px).discard && t.rng == s.rng
    ensures Coming(t, px) == Coming(s, px)
  {
    hide Shuffle, TopDown;
  }

  lemma ComingTop(s: State, px: nat)
    requires px < |s.players| && s.P(px).deck != []
    ensures var t, p := DeliverTop(s, px, ToHand), s.P(px);
            var c := p.deck[|p.deck| - 1];
            && Coming(s, px) == [c] + Coming(t, px) && t.P(px).hand == p.hand + [c] && t.pending == s.pending
  {
    var t, p := DeliverTop(s, px, ToHand), s.P(px);
    var deck, less, c := p.deck, p.deck[..|p.deck| - 1], p.deck[|p.deck| - 1];
    assert TopDown(deck, |deck|) == [c] + TopDown(less, |less|);
    hide Shuffle, TopDown;
    var later := Shuffle(p.discard, s.rng).0;
    assert ([c] + TopDown(less, |less|)) + TopDown(later, |later|) ==
           [c] + (TopDown(less, |less|) + TopDown(later, |later|));
  }

  lemma ComingRefilled(s: State, px: nat)
    requires px < |s.players|
    ensures var r := RefillIfEmpty(s, px);
            Coming(r, px) == Coming(s, px) && r.P(px).hand == s.P(px).hand && |r.players| == |s.players|
  {
    var p, r := s.P(px), RefillIfEmpty(s, px);
    if p.deck == [] && p.discard != [] {
      assert [] + p.discard == p.discard;
      var later := Shuffle(p.discard, s.rng).0;
      assert r.P(px).deck == later && r.P(px).discard == [];
      assert Shuffle([], r.rng).0 == [] && TopDown([], 0) == [];
      hide Shuffle, TopDown;
      assert [] + TopDown(later, |later|) == TopDown(later, |later|) + [];
    }
  }

  /** Drawing takes the first card to come. */
  lemma ComingDrawn(s: State, px: nat)
    requires px < |s.players| && Available(s.P(px)) > 0
    ensures var t, p := DrawOne(s, px), s.P(px);
            && Coming(s, px) != [] && t.P(px).hand == p.hand + [Coming(s, px)[0]]
            && Coming(t, px) == Coming(s, px)[1..] && |t.players| == |s.players| && t.pending == s.pending
  {
    hide RefillIfEmpty, DeliverTop, Coming;
    var r := RefillIfEmpty(s, px);
    ComingRefilled(s, px);
    ComingTop(r, px);
    var c := r.P(px).deck[|r.P(px).deck| - 1];
    assert ([c] + Coming(DeliverTop(r, px, ToHand), px))[1..] == Coming(DeliverTop(r, px, ToHand), px);
  }

  /** Drawing takes the next cards to come, in order, and leaves the rest to come. */
  lemma {:induction false} HandComes(s: State, px: nat, n: nat)
    requires px < |s.players|
    ensures var t, k := DrawCards(s, px, n), Min(n, Available(s.P(px)));
            t.P(px).hand == s.P(px).hand + Coming(s, px)[..k] && Coming(t, px) == Coming(s, px)[k..]
    decreases n
  {
    hide DrawOne, Coming, Available;
    if n == 0 || Available(s.P(px)) == 0 {
      assert s.P(px).hand + [] == s.P(px).hand;
    } else {
      var s1 := DrawOne(s, px);
      var cards := Coming(s, px);
      ComingDrawn(s, px);
      HandComes(s1, px, n - 1);
      var k := Min(n - 1, Available(s1.P(px)));
      assert cards[1..][k..] == cards[k + 1..];
      assert s.P(px).hand + [cards[0]] + cards[1..][..k] == s.P(px).hand + cards[..k + 1];
    }
  }

  /** What a draw of `n` does to the zones of a seat: the next cards come to the hand, as many as there are; as long as the
      deck lasts it loses them from its top, otherwise the discard pile was shuffled in. */
  predicate Drew(s: State, t: State, px: nat, n: nat) {
    var p, q, cards := s.P(px), t.P(px), Coming(s, px);
    var k := Min(n, Available(p));
    && q.hand == p.hand + cards[..k] && q.inPlay == p.inPlay && q.setAside == p.setAside
    && (if k <= |p.deck| then q.deck == p.deck[..|p.deck| - k] && q.discard == p.discard
        else q.discard == [] && TopDown(q.deck, |q.deck|) == cards[k..])
  }

  lemma DeckToCome(t: State, px: nat)
    requires t.P(px).discard == []
    ensures Coming(t, px) == TopDown(t.P(px).deck, |t.P(px).deck|)
  {
    hide TopDown;
    assert TopDown([], 0) == [] by { TopDownNone(); }
  }

  lemma TopDownNone()
    ensures TopDown([], 0) == []
  {
  }

  lemma DrawsNext(s: State, px: nat, n: nat)
    requires px < |s.players|
    ensures Drew(s, DrawCards(s, px, n), px, n)
  {
    var p, t := s.P(px), DrawCards(s, px, n);
    hide DrawCards, Coming, TopDown;
    HandComes(s, px, n);
    DrawnSeat(s, px, n);
    DrawCardsSeat(s, px, n);
    if n > |p.deck| {
      DeckToCome(t, px);
      if p.discard == [] { assert p.deck[..0] == []; }
    }
  }

  // ----- Shuffling -----

  /** The first `k` places hold the same cards in both, and the later places agree. */
  predicate Agree(cards: seq<Card>, target: seq<Card>, k: nat) {
    && |cards| == |target| && k <= |cards|
    && multiset(cards[..k]) == multiset(target[..k])
    && forall i :: k <= i < |cards| ==> cards[i] == target[i]
  }

  lemma CancelLast(a: seq<Card>, b: seq<Card>, x: Card)
    requires multiset(a + [x]) == multiset(b + [x])
    ensures multiset(a) == multiset(b)
  {
    assert multiset(a + [x]) == multiset(a) + multiset{x};
    assert multiset(b + [x]) == multiset(b) + multiset{x};
    assert multiset(a) == multiset(a + [x]) - multiset{x};
  }

  /** The card wanted at place `i` is among the first `i + 1`; swapping it there leaves one place less to settle. */
  lemma AgreeStep(cards: seq<Card>, target: seq<Card>, i: nat)
    requires i > 0 && Agree(cards, target, i + 1)
    ensures var j := IndexOf(cards[..i + 1], target[i]);
            0 <= j <= i && Agree(Swap(cards, i, j), target, i)
  {
    var front, t := cards[..i + 1], target[i];
    assert target[..i + 1] == target[..i] + [t];
    MultisetMember(front, t);
    MultisetMember(target[..i + 1], t);
    var j := IndexOf(front, t);
    var next := Swap(cards, i, j);
    assert next[..i + 1] == Swap(front, i, j);
    assert next[..i + 1] == next[..i] + [t];
    hide IndexOf;
    CancelLast(next[..i], target[..i], t);
  }

  lemma SmallMod(j: nat, n: nat)
    requires j < n
    ensures j % n == j
  {
  }

  lemma ShuffleStep(cards: seq<Card>, i: nat, j: nat, rest: seq<nat>)
    requires 0 < i < |cards| && j <= i
    ensures ShuffleFrom(cards, i, [j] + rest) == ShuffleFrom(Swap(cards, i, j), i - 1, rest)
  {
    assert ([j] + rest)[1..] == rest;
    SmallMod(j, i + 1);
    hide Swap;
  }

  lemma ShuffleNone(cards: seq<Card>, rng: seq<nat>)
    requires cards != []
    ensures ShuffleFrom(cards, 0, rng) == (cards, rng)
  {
  }

  lemma AgreeInside(cards: seq<Card>, target: seq<Card>, i: nat)
    requires Agree(cards, target, i + 1)
    ensures i < |cards| == |target|
  {
  }

  lemma AgreeAll(cards: seq<Card>, target: seq<Card>)
    requires Agree(cards, target, 1)
    ensures cards == target
  {
    assert cards[..1] == [cards[0]] && target[..1] == [target[0]];
    assert multiset(cards[..1])[cards[0]] == multiset(target[..1])[cards[0]];
  }

  /** A stream of random numbers that turns `cards` into `target`, from index `i` down, and goes on with `more`. */
  lemma {:induction false} StreamFor(cards: seq<Card>, target: seq<Card>, i: nat, more: seq<nat>) returns (rng: seq<nat>)
    requires Agree(cards, target, i + 1)
    ensures i < |cards| && ShuffleFrom(cards, i, rng) == (target, more)
    decreases i
  {
    hide Agree, Swap, IndexOf, ShuffleFrom;
    AgreeInside(cards, target, i);
    if i == 0 {
      AgreeAll(cards, target);
      rng := more;
      ShuffleNone(cards, rng);
    } else {
      AgreeStep(cards, target, i);
      var j := IndexOf(cards[..i + 1], target[i]);
      var next := Swap(cards, i, j);
      var rest := StreamFor(next, target, i - 1, more);
      ShuffleStep(cards, i, j, rest);
      rng := [j] + rest;
    }
  }

  /** Every order of the cards is the outcome of some shuffle, whatever random numbers come after it: statements about all
      random streams are statements about all shuffles. */
  lemma ShuffleReaches(cards: seq<Card>, target: seq<Card>, more: seq<nat>)
    requires multiset(cards) == multiset(target)
    ensures exists rng :: Shuffle(cards, rng) == (target, more)
  {
    assert |multiset(cards)| == |cards| && |multiset(target)| == |target|;
    if cards == [] {
      assert Shuffle(cards, more) == (target, more);
    } else {
      var i := |cards| - 1;
      assert cards[..i + 1] == cards && target[..i + 1] == target;
      var rng := StreamFor(cards, target, i, more);
      assert Shuffle(cards, rng) == (target, more);
    }
  }
}
