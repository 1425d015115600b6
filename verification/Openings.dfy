/** A game from its first action on in which an answer strands a replay. */
module Openings {
  import opened Cards
  import opened States
  import opened Zones
  import opened Primitives
  import opened Effects
  import opened Engine
  import opened Census
  import opened Frames
  import opened Invariants
  import opened Plays
  import opened Runs
  import opened GameLaws
  import opened Acceptance
  import opened Discipline
  import opened Ledgers
  import opened Scoring
  import opened Drawing
  import opened NewGames
  import opened Rules
  import opened Entries

  // ----- Reaching a state -----

  /** Some actions lead from the one state to the other. */
  ghost predicate Leads(s: State, t: State) {
    s.players != [] && exists acts :: Run(s, acts) == t
  }

  lemma {:induction false} RunPlus(s: State, a: seq<Action>, b: seq<Action>)
    requires s.players != []
    ensures Run(s, a + b) == Run(Run(s, a), b)
    decreases |a|
  {
    hide Apply;
    if a == [] {
      assert a + b == b;
    } else {
      assert (a + b)[0] == a[0] && (a + b)[1..] == a[1..] + b;
      RunPlus(Apply(s, a[0]).state, a[1..], b);
    }
  }

  lemma LeadsTrans(s: State, t: State, u: State)
    requires Leads(s, t) && Leads(t, u)
    ensures Leads(s, u)
  {
    hide Run;
    var a :| Run(s, a) == t;
    var b :| Run(t, b) == u;
    RunPlus(s, a, b);
  }

  lemma LeadsBy(s: State, act: Action)
    requires s.players != []
    ensures Leads(s, Apply(s, act).state)
  {
    hide Apply;
    var t := Apply(s, act).state;
    assert [act][1..] == [] && Run(t, []) == t;
    assert Run(s, [act]) == t;
  }

  // ----- The steps of a plan -----

  /** A table of two in the middle of a turn, with nothing pending and nothing owed. */
  ghost predicate At(s: State, current: nat, a: PlayerState, b: PlayerState, phase: Phase, supply: map<Card, int>,
                     rng: seq<nat>) {
    && Inv(s) && !s.ended && s.pending.None? && s.plays == [] && s.players == [a, b] && s.current == current
    && s.phase == phase && s.supply == supply && s.rng == rng
  }

  lemma AtInv(s: State, act: Action)
    requires Inv(s) && s.players != []
    ensures Inv(Apply(s, act).state)
  {
    ApplyInv(s, act);
    hide Apply, Inv;
  }

  lemma EndsAction(s: State, px: nat, a: PlayerState, b: PlayerState, supply: map<Card, int>, rng: seq<nat>)
    requires At(s, px, a, b, ActionPhase, supply, rng)
    ensures s.players != []
    ensures var t := Apply(s, EndPhase(px)).state;
            Leads(s, t) && At(t, px, a, b, BuyPhase, supply, rng)
  {
    hide Inv, CleanupAndEndTurn, Leads;
    AtInv(s, EndPhase(px));
    LeadsBy(s, EndPhase(px));
  }

  lemma WithoutFirst(c: Card, rest: seq<Card>)
    ensures Without([c] + rest, c) == rest && c in [c] + rest
  {
  }

  /** The first card of seat 0's hand is a Copper, and it is played. */
  lemma PlaysCopper(s: State, a: PlayerState, b: PlayerState, rest: seq<Card>, supply: map<Card, int>, rng: seq<nat>)
    requires At(s, 0, a, b, BuyPhase, supply, rng) && a.hand == [Copper] + rest
    ensures s.players != []
    ensures var t := Apply(s, PlayCard(0, Copper)).state;
            && Leads(s, t)
            && At(t, 0, a.(hand := rest, inPlay := a.inPlay + [Copper], coins := a.coins + 1), b, BuyPhase, supply, rng)
  {
    WithoutFirst(Copper, rest);
    hide Inv, Leads, Without;
    AtInv(s, PlayCard(0, Copper));
    LeadsBy(s, PlayCard(0, Copper));
    var q := a.(hand := rest, inPlay := a.inPlay + [Copper], coins := a.coins + 1);
    assert [a, b][0 := a.(hand := rest, inPlay := a.inPlay + [Copper])][0 := q] == [q, b];
  }

  lemma Buys(s: State, a: PlayerState, b: PlayerState, c: Card, supply: map<Card, int>, rng: seq<nat>)
    requires At(s, 0, a, b, BuyPhase, supply, rng)
    requires Known(c) && c in supply && supply[c] > 0 && a.buys > 0 && a.coins >= Cost(c)
    ensures s.players != []
    ensures var t := Apply(s, BuyCard(0, c)).state;
            && Leads(s, t)
            && At(t, 0, a.(coins := a.coins - Cost(c), buys := a.buys - 1, discard := a.discard + [c]), b, BuyPhase,
                  supply[c := supply[c] - 1], rng)
  {
    hide Inv, Leads, Cost;
    AtInv(s, BuyCard(0, c));
    LeadsBy(s, BuyCard(0, c));
    var p := a.(coins := a.coins - Cost(c), buys := a.buys - 1);
    var q := p.(discard := a.discard + [c]);
    assert [a, b][0 := p][0 := q] == [q, b];
  }

  // ----- The end of a turn -----

  /** No pile is empty. */
  predicate Full(supply: map<Card, int>) {
    Province in supply && forall c :: c in supply ==> supply[c] > 0
  }

  lemma NotOver(supply: map<Card, int>)
    requires Full(supply)
    ensures !IsGameOver(supply)
  {
    assert (set c | c in supply && supply[c] <= 0) == {};
  }

  /** Whoever ends a turn, the other of the two is next. */
  lemma EndsTurnOf(s: State)
    requires Inv(s) && !s.ended && s.pending.None? && s.phase == BuyPhase && |s.players| == 2 && Full(s.supply)
    ensures var t := Apply(s, EndPhase(s.current)).state;
            var other := 1 - s.current;
            && s.current < 2 && Leads(s, t) && Inv(t) && !t.ended && t.pending.None? && t.plays == []
            && t.current == other && t.phase == ActionPhase && t.supply == s.supply && |t.players| == 2
            && t.P(other) == s.P(other).(actions := 1, buys := 1, coins := 0)
            && t.players == CleanupAndEndTurn(s).players && t.rng == CleanupAndEndTurn(s).rng
  {
    InvSeated(s);
    NotOver(s.supply);
    AtInv(s, EndPhase(s.current));
    LeadsBy(s, EndPhase(s.current));
    PassesTo(s);
    EndsBuy(s);
    hide Inv, Leads, CleanupAndEndTurn, Apply, Full, IsGameOver;
  }

  lemma EndsBuy(s: State)
    requires !s.ended && s.pending.None? && s.phase == BuyPhase && s.players != []
    requires !IsGameOver(CleanupAndEndTurn(s).supply)
    ensures Apply(s, EndPhase(s.current)).state == CleanupAndEndTurn(s)
  {
    hide CleanupAndEndTurn, IsGameOver;
  }

  lemma OtherSeat(px: nat)
    requires px < 2
    ensures (px + 1) % 2 == 1 - px && 1 - px != px
  {
  }

  lemma PassesTo(s: State)
    requires s.current < |s.players| == 2
    ensures var t := CleanupAndEndTurn(s);
            var other := 1 - s.current;
            && t.ended == s.ended && t.pending == s.pending && t.plays == [] && t.current == other
            && t.phase == ActionPhase && t.supply == s.supply && |t.players| == 2
            && t.P(other) == s.P(other).(actions := 1, buys := 1, coins := 0)
  {
    hide CleanupAndEndTurn, Conserved, Tally, Idle;
    OtherSeat(s.current);
    CleanupPasses(s);
  }

  /** The seat that ends its turn: swept, dealt and out of resources. */
  lemma CleanedSeat(s: State)
    requires s.current < |s.players| == 2
    ensures var z := SweptTable(s.(phase := CleanupPhase), s.current);
            var t, d := CleanupAndEndTurn(s), DrawCards(z, s.current, 5);
            && t.P(s.current) == Unspent(d.P(s.current)) && t.rng == d.rng
            && z.P(s.current) == Swept(s.P(s.current)) && z.rng == s.rng && |z.players| == 2
  {
    CleanUpIs(s.(phase := CleanupPhase), s.current);
    assert (s.current + 1) % 2 == 1 - s.current;
    hide CleanUpSeat, DrawCards, Unspent, Swept, DiscardEvents;
  }

  lemma DealsFromDeck(z: State, px: nat)
    requires px < |z.players| && z.P(px).hand == [] && |z.P(px).deck| >= 5
    ensures var p, d := z.P(px), DrawCards(z, px, 5);
            d.rng == z.rng && d.P(px) == p.(hand := TopDown(p.deck, 5), deck := p.deck[..|p.deck| - 5])
  {
    hide DrawCards, TopDown, Refill;
    DrawCardsIs(z, px, 5);
    assert [] + TopDown(z.P(px).deck, 5) == TopDown(z.P(px).deck, 5);
  }

  lemma DealsReshuffled(z: State, px: nat, target: seq<Card>, more: seq<nat>)
    requires px < |z.players| && z.P(px).hand == [] && z.P(px).deck == [] && z.P(px).discard != []
    requires Shuffle(z.P(px).discard, z.rng) == (target, more) && |target| >= 5
    ensures var p, d := z.P(px), DrawCards(z, px, 5);
            && d.rng == more
            && d.P(px) == p.(hand := TopDown(target, 5), deck := target[..|target| - 5], discard := [])
  {
    hide DrawCards, TopDown, Shuffle;
    DrawCardsIs(z, px, 5);
    DealtNone(z, px);
    assert [] + z.P(px).discard == z.P(px).discard;
    assert [] + TopDown(target, 5) == TopDown(target, 5);
    hide Dealt;
    DealtIs(Refill(z, px), px, 5);
  }

  lemma DealtIs(z: State, px: nat, k: nat)
    requires px < |z.players| && k <= |z.P(px).deck|
    ensures var p, d := z.P(px), Dealt(z, px, k);
            d.rng == z.rng && d.P(px) == p.(hand := p.hand + TopDown(p.deck, k), deck := p.deck[..|p.deck| - k])
  {
    hide TopDown;
  }

  lemma EndsTurnFromDeck(s: State, a: PlayerState, b: PlayerState, supply: map<Card, int>, rng: seq<nat>)
    requires At(s, 0, a, b, BuyPhase, supply, rng) && Full(supply) && |a.deck| >= 5
    ensures s.players != []
    ensures var t := Apply(s, EndPhase(0)).state;
            var dealt := Swept(a).(hand := TopDown(a.deck, 5), deck := a.deck[..|a.deck| - 5]);
            Leads(s, t) &&
            At(t, 1, Unspent(dealt), b.(actions := 1, buys := 1, coins := 0), ActionPhase, supply, rng)
  {
    EndsTurnOf(s);
    CleanedSeat(s);
    hide Inv, Leads, Apply, CleanupAndEndTurn, TopDown, DrawCards, SweptTable, Unspent, Full;
    DealsFromDeck(SweptTable(s.(phase := CleanupPhase), 0), 0);
    SeatsAre(Apply(s, EndPhase(0)).state);
  }

  lemma SeatsAre(t: State)
    requires |t.players| == 2
    ensures t.players == [t.P(0), t.P(1)]
  {
  }

  lemma EndsTurnReshuffled(s: State, a: PlayerState, b: PlayerState, supply: map<Card, int>, rng: seq<nat>,
                           target: seq<Card>, more: seq<nat>)
    requires At(s, 0, a, b, BuyPhase, supply, rng) && Full(supply) && a.deck == []
    requires Shuffle(Swept(a).discard, rng) == (target, more) && |target| >= 5
    ensures s.players != []
    ensures var t := Apply(s, EndPhase(0)).state;
            var dealt := Swept(a).(hand := TopDown(target, 5), deck := target[..|target| - 5], discard := []);
            Leads(s, t) &&
            At(t, 1, Unspent(dealt), b.(actions := 1, buys := 1, coins := 0), ActionPhase, supply, more)
  {
    EndsTurnOf(s);
    CleanedSeat(s);
    assert |target| == |Swept(a).discard|;
    hide Inv, Leads, Apply, CleanupAndEndTurn, TopDown, DrawCards, SweptTable, Unspent, Full, Shuffle;
    DealsReshuffled(SweptTable(s.(phase := CleanupPhase), 0), 0, target, more);
    SeatsAre(Apply(s, EndPhase(0)).state);
  }

  /** Seat 1 plays nothing. Its cleanup needs no random numbers if its deck holds five cards. */
  lemma OtherTurn(s: State, a: PlayerState, b: PlayerState, supply: map<Card, int>, rng: seq<nat>) returns (t: State)
    requires At(s, 1, a, b, ActionPhase, supply, rng) && Full(supply)
    ensures Leads(s, t) && |t.players| == 2
    ensures At(t, 0, a.(actions := 1, buys := 1, coins := 0), t.P(1), ActionPhase, supply, t.rng)
    ensures |b.deck| >= 5 ==> t.rng == rng
  {
    EndsAction(s, 1, a, b, supply, rng);
    var s1 := Apply(s, EndPhase(1)).state;
    hide Inv, Leads, Apply, CleanupAndEndTurn, TopDown, DrawCards, SweptTable, Unspent, Full;
    t := Apply(s1, EndPhase(1)).state;
    EndsTurnOf(s1);
    CleanedSeat(s1);
    if |b.deck| >= 5 { DealsFromDeck(SweptTable(s1.(phase := CleanupPhase), 1), 1); }
    SeatsAre(t);
    LeadsTrans(s, s1, t);
  }

  // ----- The opening -----

  /** The first deck of the game, bottom to top: four Coppers and an Estate come first, then three Coppers and two. */
  function FirstDeck(): (r: seq<Card>)
    ensures |r| == 10
  {
    (Repeat(Estate, 2) + Repeat(Copper, 3)) + (Repeat(Estate, 1) + Repeat(Copper, 4))
  }

  lemma PlusCount(a: seq<Card>, b: seq<Card>, c: Card)
    ensures multiset(a + b)[c] == multiset(a)[c] + multiset(b)[c]
  {
  }

  lemma FirstDeckIs()
    ensures multiset(FirstDeck()) == multiset(StartingDeck())
  {
    hide Repeat;
    forall c ensures multiset(FirstDeck())[c] == multiset(StartingDeck())[c] {
      PlusCount(Repeat(Estate, 2), Repeat(Copper, 3), c);
      PlusCount(Repeat(Estate, 1), Repeat(Copper, 4), c);
      PlusCount(Repeat(Estate, 2) + Repeat(Copper, 3), Repeat(Estate, 1) + Repeat(Copper, 4), c);
    }
  }

  lemma {:induction false} AllSame(c: Card, n: nat)
    ensures forall i :: 0 <= i < n ==> Repeat(c, n)[i] == c
  {
    if n > 0 { AllSame(c, n - 1); }
  }

  /** The hands of the first two turns. */
  lemma FirstHands()
    ensures var d := FirstDeck();
            && TopDown(d, 5) == [Copper, Copper, Copper, Copper, Estate]
            && TopDown(d[..5], 5) == [Copper, Copper, Copper, Estate, Estate]
  {
    AllSame(Estate, 2);
    AllSame(Copper, 3);
    AllSame(Estate, 1);
    AllSame(Copper, 4);
    hide Repeat;
  }

  /** The game at its first action, if the shuffles come out as given and seat 0 starts. */
  lemma Opens(kingdom: seq<Card>, seed: int, rng: seq<nat>, second: seq<Card>, mid: seq<nat>, later: seq<nat>)
    requires NewGame(2, kingdom, seed, rng).Some?
    requires Shuffle(StartingDeck(), rng) == (FirstDeck(), mid) && Shuffle(StartingDeck(), mid) == (second, [0] + later)
    ensures var s := NewGame(2, kingdom, seed, rng).value;
            var a := EMPTY_SEAT.(hand := TopDown(FirstDeck(), 5), deck := FirstDeck()[..5], actions := 1, buys := 1);
            && |s.players| == 2 && |s.P(1).deck| == 5
            && At(s, 0, a, s.P(1), ActionPhase, StartingSupply(ResolveKingdom(kingdom).cards), later)
  {
    var k := ResolveKingdom(kingdom).cards;
    NewGameEstablishes(kingdom, seed, rng);
    NewGameKnown(kingdom, seed, rng);
    IsFirstTurn(kingdom, seed, rng);
    var s := NewGame(2, kingdom, seed, rng).value;
    hide NewGame, ResolveKingdom, Inv, Books, Tidy, OnTurn, Decided, HandsDrawn, FirstTurn, StartingSupply, Shuffle,
      StartingDeck, TopDown, NoUnknown;
    HandsDealt(k, seed, rng, second, mid, later);
    FirstTurnIs(HandsDrawn(k, seed, rng), later);
    SeatsAre(s);
  }

  lemma HandsDealt(k: seq<Card>, seed: int, rng: seq<nat>, second: seq<Card>, mid: seq<nat>, later: seq<nat>)
    requires Shuffle(StartingDeck(), rng) == (FirstDeck(), mid) && Shuffle(StartingDeck(), mid) == (second, [0] + later)
    ensures var t := HandsDrawn(k, seed, rng);
            && |t.players| == 2 && t.rng == [0] + later && t.supply == StartingSupply(k)
            && t.P(0) == EMPTY_SEAT.(hand := TopDown(FirstDeck(), 5), deck := FirstDeck()[..5])
            && t.plays == [] && t.pending.None? && t.phase == ActionPhase && !t.ended
  {
    hide TableLaid, Shuffle, StartingDeck, StartingSupply, TopDown, DrawCards, SeatOnly, FirstDeck;
    var s := TableLaid(k, seed, rng);
    var s1 := DrawCards(s, 0, 5);
    LaidOut(k, seed, rng, second, mid, [0] + later);
    DealtTo(s, 0);
    DealtTo(s1, 1);
  }

  lemma LaidOut(k: seq<Card>, seed: int, rng: seq<nat>, second: seq<Card>, mid: seq<nat>, later: seq<nat>)
    requires Shuffle(StartingDeck(), rng) == (FirstDeck(), mid) && Shuffle(StartingDeck(), mid) == (second, later)
    ensures var s := TableLaid(k, seed, rng);
            && s.P(0) == EMPTY_SEAT.(deck := FirstDeck()) && s.P(1) == EMPTY_SEAT.(deck := second) && |second| == 10
            && s.rng == later && s.supply == StartingSupply(k) && |s.players| == 2
            && s.plays == [] && s.pending.None? && s.phase == ActionPhase && !s.ended
  {
    assert |StartingDeck()| == 10 && |second| == |StartingDeck()|;
    hide Shuffle, StartingDeck, StartingSupply, FirstDeck;
  }

  /** An opening hand. */
  lemma DealtTo(s: State, px: nat)
    requires px < |s.players| && s.P(px).hand == [] && |s.P(px).deck| >= 5
    ensures var p, t := s.P(px), DrawCards(s, px, 5);
            && t.rng == s.rng && t.supply == s.supply && t.plays == s.plays && t.pending == s.pending
            && t.phase == s.phase && t.ended == s.ended && |t.players| == |s.players|
            && (forall i: nat :: i != px ==> t.P(i) == s.P(i))
            && t.P(px) == p.(hand := TopDown(p.deck, 5), deck := p.deck[..|p.deck| - 5])
  {
    hide DrawCards, TopDown;
    DrawCardsSeat(s, px, 5);
    DealsFromDeck(s, px);
  }

  lemma FirstTurnIs(s: State, later: seq<nat>)
    requires |s.players| == 2 && s.rng == [0] + later
    ensures var t := FirstTurn(s);
            && t.current == 0 && t.rng == later && t.P(0) == s.P(0).(actions := 1, buys := 1, coins := 0)
            && t == s.(players := t.players, current := 0, starting := 0, rng := later, log := [])
  {
    assert ([0] + later)[1..] == later;
  }

  // ----- Two turns of shopping -----

  predicate AllCopper(cards: seq<Card>) {
    forall i :: 0 <= i < |cards| ==> cards[i] == Copper
  }

  /** The Coppers at the head of seat 0's hand are played. */
  lemma {:induction false} PlaysCoppers(s: State, a: PlayerState, b: PlayerState, coppers: seq<Card>, rest: seq<Card>,
                                        supply: map<Card, int>, rng: seq<nat>) returns (t: State)
    requires At(s, 0, a, b, BuyPhase, supply, rng) && AllCopper(coppers) && a.hand == coppers + rest
    ensures Leads(s, t)
    ensures At(t, 0, a.(hand := rest, inPlay := a.inPlay + coppers, coins := a.coins + |coppers|), b, BuyPhase, supply,
               rng)
    decreases |coppers|
  {
    hide Inv, Leads, Apply;
    if coppers == [] {
      t := s;
      assert coppers + rest == rest && a.inPlay + coppers == a.inPlay;
      LeadsSelf(s);
    } else {
      var more := coppers[1..];
      assert coppers + rest == [Copper] + (more + rest) && [Copper] + more == coppers;
      PlaysCopper(s, a, b, more + rest, supply, rng);
      var s1 := Apply(s, PlayCard(0, Copper)).state;
      var a1 := a.(hand := more + rest, inPlay := a.inPlay + [Copper], coins := a.coins + 1);
      t := PlaysCoppers(s1, a1, b, more, rest, supply, rng);
      assert a.inPlay + [Copper] + more == a.inPlay + coppers;
      LeadsTrans(s, s1, t);
    }
  }

  lemma LeadsSelf(s: State)
    requires At(s, s.current, s.P(0), s.P(1), s.phase, s.supply, s.rng)
    ensures Leads(s, s)
  {
    hide Inv;
    assert Run(s, []) == s;
  }

  /** Seat 0 plays the Coppers of its hand and buys a card with them. */
  lemma Shops(s: State, a: PlayerState, b: PlayerState, coppers: seq<Card>, rest: seq<Card>, c: Card,
              supply: map<Card, int>, rng: seq<nat>) returns (t: State)
    requires At(s, 0, a, b, ActionPhase, supply, rng) && AllCopper(coppers) && a.hand == coppers + rest
    requires Known(c) && c in supply && supply[c] > 0 && a.buys == 1 && a.coins == 0 && Cost(c) == |coppers|
    ensures Leads(s, t)
    ensures At(t, 0, a.(hand := rest, inPlay := a.inPlay + coppers, buys := 0, discard := a.discard + [c]), b, BuyPhase,
               supply[c := supply[c] - 1], rng)
  {
    hide Inv, Leads, Apply, Cost;
    EndsAction(s, 0, a, b, supply, rng);
    var s1 := Apply(s, EndPhase(0)).state;
    var s2 := PlaysCoppers(s1, a, b, coppers, rest, supply, rng);
    var a2 := a.(hand := rest, inPlay := a.inPlay + coppers, coins := a.coins + |coppers|);
    Buys(s2, a2, b, c, supply, rng);
    t := Apply(s2, BuyCard(0, c)).state;
    LeadsTrans(s, s1, s2);
    LeadsTrans(s, s2, t);
  }

  lemma StillFull(supply: map<Card, int>, c: Card)
    requires Full(supply) && c in supply && supply[c] > 1
    ensures Full(supply[c := supply[c] - 1])
  {
  }

  /** Seat 0 shops and its deck lasts for the next hand; then seat 1 passes. */
  lemma FirstRound(s: State, a: PlayerState, b: PlayerState, coppers: seq<Card>, rest: seq<Card>, c: Card,
                   supply: map<Card, int>, rng: seq<nat>) returns (t: State)
    requires At(s, 0, a, b, ActionPhase, supply, rng) && AllCopper(coppers) && a.hand == coppers + rest
    requires Known(c) && c in supply && supply[c] > 1 && Full(supply) && Cost(c) == |coppers|
    requires a == EMPTY_SEAT.(hand := a.hand, deck := a.deck, actions := 1, buys := 1) && |a.deck| == 5 && |b.deck| >= 5
    ensures Leads(s, t) && |t.players| == 2
    ensures At(t, 0, EMPTY_SEAT.(hand := TopDown(a.deck, 5), discard := [c] + (coppers + rest), actions := 1, buys := 1),
               t.P(1), ActionPhase, supply[c := supply[c] - 1], rng)
  {
    hide Inv, Leads, Apply, Cost, TopDown, Full;
    var s1 := Shops(s, a, b, coppers, rest, c, supply, rng);
    var a1 := a.(hand := rest, inPlay := a.inPlay + coppers, buys := 0, discard := a.discard + [c]);
    StillFull(supply, c);
    var stock := supply[c := supply[c] - 1];
    EndsTurnFromDeck(s1, a1, b, stock, rng);
    var s2 := Apply(s1, EndPhase(0)).state;
    var a2 := Unspent(Swept(a1).(hand := TopDown(a.deck, 5), deck := a.deck[..|a.deck| - 5]));
    t := OtherTurn(s2, a2, b.(actions := 1, buys := 1, coins := 0), stock, rng);
    assert a.deck[..0] == [] && a1.discard + (a1.setAside + a1.inPlay + a1.hand) == [c] + (coppers + rest);
    LeadsTrans(s, s1, s2);
    LeadsTrans(s, s2, t);
  }

  /** Seat 0 shops again, has to reshuffle for its next hand, and seat 1 passes. */
  lemma SecondRound(s: State, a: PlayerState, b: PlayerState, coppers: seq<Card>, rest: seq<Card>, c: Card,
                    supply: map<Card, int>, rng: seq<nat>, target: seq<Card>) returns (t: State)
    requires At(s, 0, a, b, ActionPhase, supply, rng) && AllCopper(coppers) && a.hand == coppers + rest
    requires Known(c) && c in supply && supply[c] > 1 && Full(supply) && Cost(c) == |coppers|
    requires a == EMPTY_SEAT.(hand := a.hand, discard := a.discard, actions := 1, buys := 1)
    requires Shuffle((a.discard + [c]) + (coppers + rest), rng) == (target, []) && |target| >= 5
    ensures Leads(s, t) && |t.players| == 2
    ensures At(t, 0, EMPTY_SEAT.(hand := TopDown(target, 5), deck := target[..|target| - 5], actions := 1, buys := 1),
               t.P(1), ActionPhase, supply[c := supply[c] - 1], t.rng)
  {
    hide Inv, Leads, Apply, Cost, TopDown, Full, Shuffle;
    var s1 := Shops(s, a, b, coppers, rest, c, supply, rng);
    var a1 := a.(hand := rest, inPlay := a.inPlay + coppers, buys := 0, discard := a.discard + [c]);
    StillFull(supply, c);
    var stock := supply[c := supply[c] - 1];
    assert a1.discard + (a1.setAside + a1.inPlay + a1.hand) == (a.discard + [c]) + (coppers + rest);
    EndsTurnReshuffled(s1, a1, b, stock, rng, target, []);
    var s2 := Apply(s1, EndPhase(0)).state;
    var a2 := Unspent(Swept(a1).(hand := TopDown(target, 5), deck := target[..|target| - 5], discard := []));
    t := OtherTurn(s2, a2, b.(actions := 1, buys := 1, coins := 0), stock, []);
    LeadsTrans(s, s1, s2);
    LeadsTrans(s, s2, t);
  }

  // ----- A doubled Workshop -----

  /** Throne Room may be played, and a Workshop is there to be chosen. */
  ghost predicate Doubling(s: State) {
    Playable(s, ThroneRoom) && Workshop in s.P(s.current).hand
  }

  lemma WorkshopStays(cards: seq<Card>)
    requires Workshop in cards
    ensures Workshop in Without(cards, ThroneRoom)
  {
    var less := Without(cards, ThroneRoom);
    assert multiset(less)[Workshop] == multiset(cards)[Workshop] by { hide Without; }
    MultisetMember(cards, Workshop);
    MultisetMember(less, Workshop);
  }

  lemma AsksToDouble(s: State, c: Card)
    requires c == ThroneRoom && HasAction(s.P(s.current).hand)
    ensures OnPlay(s, s.current, c) == RequestDecision(s, s.current, c, 0, ChooseActionFromHandPrompt, NoContext)
  {
    hide RequestDecision, HasAction;
  }

  lemma HoldsWorkshop(s: State, c: Card)
    requires Doubling(s) && c == ThroneRoom
    ensures var m := Entered(s, c); !m.ended && Workshop in m.P(s.current).hand && HasAction(m.P(s.current).hand)
  {
    InvSeated(s);
    WorkshopStays(s.P(s.current).hand);
    assert IsAction(Workshop);
    hide Inv, Without, Tidy;
  }

  lemma PlaysThroneRoom(s: State)
    requires Doubling(s)
    ensures s.players != []
    ensures var t := Apply(s, PlayCard(s.current, ThroneRoom)).state;
            && !t.ended && t.pending.Some? && t.pending.value.card == ThroneRoom && t.pending.value.player == s.current
            && t.plays == [] && t.current == s.current && Workshop in t.P(s.current).hand && |t.players| == |s.players|
            && s.current < |s.players|
  {
    var m := Entered(s, ThroneRoom);
    HoldsWorkshop(s, ThroneRoom);
    hide Playable, Entered, OnPlay, Apply, HasAction;
    PlayIs(s, ThroneRoom);
    EnteredFacts(s, ThroneRoom);
    AsksToDouble(m, ThroneRoom);
  }

  /** The first play of the Workshop asks, with one replay owed. */
  lemma DoublesWorkshop(s: State, d: Decision)
    requires d.player == s.current < |s.players| && Workshop in s.P(s.current).hand && s.plays == [] && !s.ended
    requires s.pending.None?
    ensures var r := ResolveThroneRoom(s, d, CardChoiceAnswer(Workshop, false));
            && r.error.None? && r.state.pending.Some? && r.state.pending.value.card == Workshop
            && r.state.pending.value.player == s.current && !r.state.ended && r.state.current == s.current
            && r.state.plays == [PendingPlay(s.current, Workshop, ThroneRoom)] && |r.state.players| == |s.players|
  {
    hide Without;
  }

  lemma ChoosesWorkshop(s: State, act: Action)
    requires s.players != [] && !s.ended && s.pending.Some? && s.pending.value.card == ThroneRoom && s.plays == []
    requires s.pending.value.player == s.current && Workshop in s.P(s.current).hand && s.current < |s.players|
    requires act == ResolveDecision(s.current, s.pending.value.id, CardChoiceAnswer(Workshop, false))
    ensures var t := Apply(s, act).state;
            && !t.ended && t.pending.Some? && t.pending.value.card == Workshop && t.pending.value.player == s.current
            && t.plays == [PendingPlay(s.current, Workshop, ThroneRoom)] && t.current == s.current
            && |t.players| == |s.players|
  {
    var s0, d := s.(pending := None), s.pending.value;
    assert Reaches(s, act);
    hide Apply, OnResolve, ResolveThroneRoom, Unwind;
    ReachesCard(s, act);
    ResolversOf(s0, d, act.answer);
    DoublesWorkshop(s0, d);
    UnwindPending(OnResolve(s0, d, act.answer).state);
  }

  lemma NamesGold(s: State, act: Action)
    requires !s.ended && s.pending.Some? && s.pending.value.card == Workshop && s.pending.value.player == s.current
    requires act == ResolveDecision(s.current, s.pending.value.id, CardChoiceAnswer(Gold, false))
    ensures Reaches(s, act) && !Takes(s, s.pending.value, act.answer)
  {
  }

  lemma OwedUntidy(s: State)
    requires s.pending.None? && s.plays != []
    ensures !Tidy(s)
  {
  }

  /** Whoever may play Throne Room on Workshop can strand the second Workshop: the first one is answered with a card that
      is too expensive, the answer is refused, and nothing is pending any more. */
  lemma StrandsWorkshop(s: State) returns (t: State)
    requires Doubling(s)
    ensures Leads(s, t) && Inv(t) && t.pending.None? && !t.ended && !Tidy(t)
    ensures t.plays == [PendingPlay(s.current, Workshop, ThroneRoom)] && t.current == s.current
  {
    InvSeated(s);
    assert Inv(s);
    hide Inv, Apply, Leads, Reaches, Takes, Tidy, Playable;
    var play := PlayCard(s.current, ThroneRoom);
    var s1 := Apply(s, play).state;
    PlaysThroneRoom(s);
    AtInv(s, play);
    LeadsBy(s, play);
    var choose := ResolveDecision(s.current, s1.pending.value.id, CardChoiceAnswer(Workshop, false));
    var s2 := Apply(s1, choose).state;
    ChoosesWorkshop(s1, choose);
    AtInv(s1, choose);
    LeadsBy(s1, choose);
    var name := ResolveDecision(s.current, s2.pending.value.id, CardChoiceAnswer(Gold, false));
    t := Apply(s2, name).state;
    NamesGold(s2, name);
    AtInv(s2, name);
    LeadsBy(s2, name);
    AcceptedExactly(s2, name);
    RejectedUnchanged(s2, name);
    StaysIn(s2, name);
    OwedUntidy(t);
    LeadsTrans(s, s1, s2);
    LeadsTrans(s, s2, t);
  }

  lemma StaysIn(s: State, act: Action)
    requires Inv(s) && s.players != [] && Reaches(s, act)
    ensures Apply(s, act).state.current == s.current && !Apply(s, act).state.ended
  {
    ApplyInv(s, act);
    assert !EndsTurn(s, act) && !s.ended;
    hide Inv, Apply, Conserved, SupplyShrinks;
  }

  // ----- From the first action -----

  lemma StockOf(k: seq<Card>, c: Card)
    requires c in k
    ensures c in StartingSupply(k) && StartingSupply(k)[c] == 10
  {
    hide BasicPile;
  }

  lemma StockFull(k: seq<Card>)
    requires forall c :: c in k ==> IsKingdom(c)
    ensures Full(StartingSupply(k))
  {
    var b := BASICS;
    assert b[5] == Province;
    assert b[0] == Copper && b[1] == Silver && b[2] == Gold && b[3] == Estate && b[4] == Duchy && b[6] == Curse;
    assert forall c :: c in b ==> BasicPile(c) > 0;
    hide BasicPile, IsKingdom;
  }

  lemma BothOnTop(pile: seq<Card>, target: seq<Card>)
    requires ThroneRoom in pile && Workshop in pile && |pile| >= 5
    requires target == Without(Without(pile, ThroneRoom), Workshop) + [Workshop] + [ThroneRoom]
    ensures multiset(target) == multiset(pile) && |target| == |pile|
    ensures ThroneRoom in TopDown(target, 5) && Workshop in TopDown(target, 5)
  {
    hide Without;
    var less := Without(pile, ThroneRoom);
    WorkshopStays(pile);
    PutBack(less, Workshop);
    PutBack(pile, ThroneRoom);
    var back := Without(less, Workshop) + [Workshop];
    assert multiset(back + [ThroneRoom]) == multiset(back) + multiset{ThroneRoom} ==
           multiset(less + [ThroneRoom]);
    assert TopDown(target, 5)[0] == ThroneRoom && TopDown(target, 5)[1] == Workshop;
  }

  lemma PutBack(cards: seq<Card>, c: Card)
    requires c in cards
    ensures multiset(Without(cards, c) + [c]) == multiset(cards) && |Without(cards, c)| + 1 == |cards|
  {
    hide Without;
  }

  /** Everything seat 0 has after two turns of shopping. */
  function AllBought(): (r: seq<Card>)
    ensures |r| == 12 && ThroneRoom in r && Workshop in r
  {
    var pile := ([ThroneRoom] + ([Copper, Copper, Copper, Copper] + [Estate])) + [Workshop];
    assert pile[0] == ThroneRoom && pile[6] == Workshop;
    pile + ([Copper, Copper, Copper] + [Estate, Estate])
  }

  /** Random numbers that deal the plan: both decks, seat 0 starts, and seat 0's first reshuffle. */
  lemma Deals() returns (rng: seq<nat>, mid: seq<nat>, later: seq<nat>, target: seq<Card>)
    ensures Shuffle(StartingDeck(), rng) == (FirstDeck(), mid)
    ensures Shuffle(StartingDeck(), mid) == (StartingDeck(), [0] + later)
    ensures Shuffle(AllBought(), later) == (target, []) && |target| == 12
    ensures ThroneRoom in TopDown(target, 5) && Workshop in TopDown(target, 5)
  {
    hide Shuffle, StartingDeck, FirstDeck, AllBought, TopDown, Without;
    var pile := AllBought();
    target := Without(Without(pile, ThroneRoom), Workshop) + [Workshop] + [ThroneRoom];
    BothOnTop(pile, target);
    ShuffleReaches(pile, target, []);
    later :| Shuffle(pile, later) == (target, []);
    ShuffleReaches(StartingDeck(), StartingDeck(), [0] + later);
    mid :| Shuffle(StartingDeck(), mid) == (StartingDeck(), [0] + later);
    FirstDeckIs();
    ShuffleReaches(StartingDeck(), FirstDeck(), mid);
    rng :| Shuffle(StartingDeck(), rng) == (FirstDeck(), mid);
  }

  /** Both rounds, from the first action on: one card for the Coppers of each hand. */
  lemma TwoRounds(s: State, a: PlayerState, four: seq<Card>, three: seq<Card>, x: Card, y: Card, supply: map<Card, int>,
                  later: seq<nat>, target: seq<Card>) returns (t: State)
    requires At(s, 0, a, s.P(1), ActionPhase, supply, later) && |s.P(1).deck| == 5 && Full(supply)
    requires AllCopper(four) && AllCopper(three) && Known(x) && Known(y) && x != y
    requires Cost(x) == |four| && Cost(y) == |three|
    requires a == EMPTY_SEAT.(hand := four + [Estate], deck := a.deck, actions := 1, buys := 1)
    requires |a.deck| == 5 && TopDown(a.deck, 5) == three + [Estate, Estate]
    requires x in supply && supply[x] > 1 && y in supply && supply[y] > 1
    requires Shuffle(([x] + (four + [Estate]) + [y]) + (three + [Estate, Estate]), later) == (target, [])
    requires |target| >= 5
    ensures Leads(s, t) && |t.players| == 2
    ensures At(t, 0, EMPTY_SEAT.(hand := TopDown(target, 5), deck := target[..|target| - 5], actions := 1, buys := 1),
               t.P(1), ActionPhase, t.supply, t.rng)
  {
    hide Inv, Leads, TopDown, Full, Shuffle, AllCopper, Cost;
    var s1 := FirstRound(s, a, s.P(1), four, [Estate], x, supply, later);
    StillFull(supply, x);
    var stock := supply[x := supply[x] - 1];
    var a1 := EMPTY_SEAT.(hand := TopDown(a.deck, 5), discard := [x] + (four + [Estate]), actions := 1, buys := 1);
    t := SecondRound(s1, a1, s1.P(1), three, [Estate, Estate], y, stock, later, target);
    LeadsTrans(s, s1, t);
  }

  lemma Prices(x: Card, y: Card)
    requires x == ThroneRoom && y == Workshop
    ensures Cost(x) == 4 && Cost(y) == 3
  {
  }

  lemma DoublingAt(t: State, target: seq<Card>)
    requires |target| >= 5 && |t.players| == 2
    requires At(t, 0, EMPTY_SEAT.(hand := TopDown(target, 5), deck := target[..|target| - 5], actions := 1, buys := 1),
                t.P(1), ActionPhase, t.supply, t.rng)
    requires ThroneRoom in TopDown(target, 5) && Workshop in TopDown(target, 5)
    ensures Doubling(t)
  {
    hide Inv, TopDown;
    assert t.P(0) == t.players[0] && IsAction(ThroneRoom);
    FreshTidy(t);
  }

  /** In every kingdom with Throne Room and Workshop there is a game, from its first action on, in which an answer is
      refused and leaves a replay owed with nothing pending: discipline fails in real games. */
  lemma StrandedGame(kingdom: seq<Card>, seed: int) returns (rng: seq<nat>, acts: seq<Action>)
    requires ResolveKingdom(kingdom).Chosen?
    requires ThroneRoom in ResolveKingdom(kingdom).cards && Workshop in ResolveKingdom(kingdom).cards
    ensures NewGame(2, kingdom, seed, rng).Some? && NewGame(2, kingdom, seed, rng).value.players != []
    ensures var t := Run(NewGame(2, kingdom, seed, rng).value, acts);
            && !t.ended && t.pending.None? && !Tidy(t)
            && t.plays == [PendingPlay(t.current, Workshop, ThroneRoom)]
  {
    hide Cost, ResolveKingdom, HandsDrawn, FirstTurn, Inv, StartingSupply, Shuffle, StartingDeck, FirstDeck, AllBought,
      TopDown, Full, IsKingdom, Run, Tidy, At;
    var mid, later, target;
    rng, mid, later, target := Deals();
    var s := NewGame(2, kingdom, seed, rng).value;
    var k := ResolveKingdom(kingdom).cards;
    KingdomIs(kingdom);
    Opens(kingdom, seed, rng, StartingDeck(), mid, later);
    FirstHands();
    HandsSplit();
    StockFull(k);
    StockOf(k, ThroneRoom);
    StockOf(k, Workshop);
    var a := EMPTY_SEAT.(hand := TopDown(FirstDeck(), 5), deck := FirstDeck()[..5], actions := 1, buys := 1);
    hide NewGame, Leads, Doubling;
    var four, three := [Copper, Copper, Copper, Copper], [Copper, Copper, Copper];
    AllBoughtIs();
    Prices(ThroneRoom, Workshop);
    var s1 := TwoRounds(s, a, four, three, ThroneRoom, Workshop, StartingSupply(k), later, target);
    DoublingAt(s1, target);
    var t := StrandsWorkshop(s1);
    LeadsTrans(s, s1, t);
    acts := ActionsOf(s, t);
  }

  lemma ActionsOf(s: State, t: State) returns (acts: seq<Action>)
    requires Leads(s, t)
    ensures s.players != [] && Run(s, acts) == t
  {
    hide Run;
    acts :| Run(s, acts) == t;
  }

  lemma AllBoughtIs()
    ensures var four, three := [Copper, Copper, Copper, Copper], [Copper, Copper, Copper];
            AllBought() == ([ThroneRoom] + (four + [Estate]) + [Workshop]) + (three + [Estate, Estate])
    ensures AllCopper([Copper, Copper, Copper, Copper]) && AllCopper([Copper, Copper, Copper])
  {
  }

  lemma HandsSplit()
    ensures [Copper, Copper, Copper, Copper, Estate] == [Copper, Copper, Copper, Copper] + [Estate]
    ensures [Copper, Copper, Copper, Estate, Estate] == [Copper, Copper, Copper] + [Estate, Estate]
  {
  }
}
