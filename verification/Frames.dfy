/** What every card effect keeps, as a relation between two states that composes along a run of building blocks. */
module Frames {
  import opened Cards
  import opened States
  import opened Zones
  import opened Primitives
  import opened Effects
  import opened Census

  // ----- The turn's log -----

  /** What the log says about the current turn: coins added, cards played, and cards replayed for Throne Room. */
  datatype Turn = Turn(coins: int, plays: seq<Card>, replays: seq<Card>)

  function Bump(t: Turn, e: Event): Turn {
    match e
    case TurnStarted(_, _) => Turn(0, [], [])
    case CoinsAdded(_, n) => t.(coins := t.coins + n)
    case CardPlayed(_, c) => t.(plays := t.plays + [c])
    case CardThroned(_, c) => t.(replays := t.replays + [c])
    case _ => t
  }

  function Tally(log: seq<Event>): Turn {
    if log == [] then Turn(0, [], []) else Bump(Tally(log[..|log| - 1]), log[|log| - 1])
  }

  lemma TallyEmit(log: seq<Event>, e: Event)
    ensures Tally(log + [e]) == Bump(Tally(log), e)
  {
    assert (log + [e])[..|log|] == log;
  }

  /** Events that the turn's summary does not record. */
  predicate Quiet(e: Event) {
    !e.TurnStarted? && !e.CoinsAdded? && !e.CardPlayed? && !e.CardThroned?
  }

  lemma {:induction false} TallyQuiet(log: seq<Event>, more: seq<Event>)
    requires forall e :: e in more ==> Quiet(e)
    ensures Tally(log + more) == Tally(log)
  {
    if more == [] {
      assert log + more == log;
    } else {
      var k := |more| - 1;
      assert more[k] in more;
      TallyQuiet(log, more[..k]);
      TallyEmit(log + more[..k], more[k]);
      assert log + more[..k] + [more[k]] == log + more;
    }
  }

  // ----- The relation -----

  /** Resources an effect hands to the current player, and whether it uses the set-aside zone. */
  datatype Yield = Yield(actions: int, buys: int, coins: int, charges: int, silver: bool, aside: bool)

  const NOTHING := Yield(0, 0, 0, 0, false, false)

  predicate SameResources(p: PlayerState, q: PlayerState) {
    q.actions == p.actions && q.buys == p.buys && q.coins == p.coins && q.charges == p.charges &&
    q.firstSilver == p.firstSilver
  }

  predicate Yields(p: PlayerState, q: PlayerState, y: Yield) {
    q.actions == p.actions + y.actions && q.buys == p.buys + y.buys && q.coins == p.coins + y.coins &&
    q.charges == p.charges + y.charges && q.firstSilver == (p.firstSilver || y.silver)
  }

  /** A seat whose turn it is not keeps its resources, its empty table and its set-aside zone. */
  predicate SeatKept(p: PlayerState, q: PlayerState) {
    SameResources(p, q) && q.inPlay == p.inPlay && q.setAside == p.setAside
  }

  predicate SameTable(s: State, t: State) {
    && |t.players| == |s.players| && t.current == s.current && t.starting == s.starting && t.seed == s.seed
    && t.phase == s.phase && t.turn == s.turn && t.ended == s.ended && t.winners == s.winners
  }

  /** Piles are neither added nor removed, never grow, and never go below zero. */
  ghost predicate SupplyShrinks(s: State, t: State) {
    && t.supply.Keys == s.supply.Keys
    && forall c :: c in s.supply ==> t.supply[c] <= s.supply[c] && (0 <= s.supply[c] ==> 0 <= t.supply[c])
  }

  /** No card is made or lost. */
  ghost predicate Conserved(s: State, t: State) {
    forall c :: Count(t, c) == Count(s, c)
  }

  /** At most one decision is requested, and only while none is live. */
  predicate AsksOnce(s: State, t: State) {
    || (t.pending == s.pending && t.decisionSeq == s.decisionSeq)
    || (s.pending.None? && t.pending.Some? && t.decisionSeq == s.decisionSeq + 1 &&
        t.pending.value.id == DecisionId(t.decisionSeq))
  }

  ghost predicate OthersKept(s: State, t: State)
    requires |t.players| == |s.players|
  {
    forall i :: 0 <= i < |s.players| && i != s.current ==> SeatKept(s.players[i], t.players[i])
  }

  /** What any card code keeps. */
  ghost predicate Core(s: State, t: State) {
    && SameTable(s, t)
    && SupplyShrinks(s, t)
    && Conserved(s, t)
    && AsksOnce(s, t)
    && OthersKept(s, t)
    && s.P(s.current).inPlay <= t.P(s.current).inPlay
  }

  predicate Grows(p: PlayerState, q: PlayerState) {
    q.actions >= p.actions && q.buys >= p.buys && q.coins >= p.coins && q.charges >= p.charges
  }

  /** The same, and the current player's resources do not shrink. */
  ghost predicate Frame(s: State, t: State) {
    Core(s, t) && Grows(s.P(s.current), t.P(s.current))
  }

  lemma FrameTrans(s: State, t: State, u: State)
    requires Frame(s, t) && Frame(t, u)
    ensures Frame(s, u)
  {
    hide Count;
  }

  /** A play effect: the frame, no replays pushed, nothing put into play, and exactly the resources `y`. */
  ghost predicate Keeps(s: State, t: State, y: Yield) {
    && Core(s, t)
    && t.plays == s.plays
    && t.P(s.current).inPlay == s.P(s.current).inPlay
    && Yields(s.P(s.current), t.P(s.current), y)
    && (!y.aside ==> t.P(s.current).setAside == s.P(s.current).setAside)
    && Tally(t.log) == Tally(s.log).(coins := Tally(s.log).coins + y.coins)
  }

  lemma KeepsSelf(s: State)
    ensures Keeps(s, s, NOTHING)
  {
  }

  /** Claiming to use the set-aside zone claims less. */
  lemma MayTouch(s: State, t: State, y: Yield)
    requires Keeps(s, t, y)
    ensures Keeps(s, t, y.(aside := true))
  {
  }

  // ----- Single steps -----

  /** One seat's zones are rearranged, nothing else: `q` replaces the seat at `px`. */
  ghost predicate Rearranged(s: State, t: State, px: nat, q: PlayerState, aside: bool) {
    && px < |s.players|
    && t == s.(players := s.players[px := q], rng := t.rng, log := t.log)
    && Tally(t.log) == Tally(s.log)
    && SameResources(s.players[px], q)
    && q.inPlay == s.players[px].inPlay
    && (px != s.current || !aside ==> q.setAside == s.players[px].setAside)
    && (forall c :: Copies(q, c) == Copies(s.players[px], c))
  }

  lemma RearrangedKeeps(s0: State, s: State, t: State, px: nat, q: PlayerState, y: Yield)
    requires Keeps(s0, s, y) && Rearranged(s, t, px, q, y.aside)
    ensures Keeps(s0, t, y)
  {
    forall c ensures Count(t, c) == Count(s, c) {
      HeldUpdate(s.players, px, q, c);
    }
  }

  /** One card leaves one seat's zones for the trash. */
  ghost predicate Trashed(s: State, t: State, px: nat, q: PlayerState, c: Card, aside: bool) {
    && px < |s.players|
    && t == s.(players := s.players[px := q], trash := s.trash + [c], log := t.log)
    && Tally(t.log) == Tally(s.log)
    && SameResources(s.players[px], q)
    && q.inPlay == s.players[px].inPlay
    && (px != s.current || !aside ==> q.setAside == s.players[px].setAside)
    && (forall d :: Copies(q, d) + (if d == c then 1 else 0) == Copies(s.players[px], d))
  }

  lemma TrashedKeeps(s0: State, s: State, t: State, px: nat, q: PlayerState, c: Card, y: Yield)
    requires Keeps(s0, s, y) && Trashed(s, t, px, q, c, y.aside)
    ensures Keeps(s0, t, y)
  {
    forall d ensures Count(t, d) == Count(s, d) {
      HeldUpdate(s.players, px, q, d);
    }
  }

  lemma RefillKeeps(s0: State, s: State, px: nat, y: Yield)
    requires Keeps(s0, s, y) && px < |s.players|
    ensures Keeps(s0, Refill(s, px), y)
  {
    var t := Refill(s, px);
    RearrangedKeeps(s0, s, t, px, t.P(px), y);
  }

  /** A seat gives up one copy of `c` from its hand, deck or set-aside zone. */
  ghost predicate GivesUp(p: PlayerState, q: PlayerState, c: Card) {
    && SameResources(p, q) && q.inPlay == p.inPlay
    && (forall d :: Copies(q, d) + (if d == c then 1 else 0) == Copies(p, d))
  }

  lemma ReceiveCopies(p: PlayerState, q: PlayerState, c: Card, to: Target)
    requires GivesUp(p, q, c) && to != ToTrash
    ensures forall d :: Copies(Receive(q, c, to), d) == Copies(p, d)
  {
  }

  lemma DeliverKeeps(s0: State, s: State, px: nat, q: PlayerState, c: Card, to: Target, y: Yield)
    requires Keeps(s0, s, y) && px < |s.players|
    requires GivesUp(s.P(px), q, c)
    requires px != s.current || !y.aside ==> q.setAside == s.P(px).setAside
    ensures Keeps(s0, Deliver(s, px, q, c, to), y)
  {
    hide Copies, Tally, Keeps, Rearranged, Trashed, GivesUp, Deliver;
    DeliverCases(s, px, q, c, to, y.aside);
    var t := Deliver(s, px, q, c, to);
    if to == ToTrash {
      TrashedKeeps(s0, s, t, px, q, c, y);
    } else {
      RearrangedKeeps(s0, s, t, px, Receive(q, c, to), y);
    }
  }

  lemma DeliverCases(s: State, px: nat, q: PlayerState, c: Card, to: Target, aside: bool)
    requires px < |s.players| && GivesUp(s.P(px), q, c)
    requires px != s.current || !aside ==> q.setAside == s.P(px).setAside
    ensures var t := Deliver(s, px, q, c, to);
            if to == ToTrash then Trashed(s, t, px, q, c, aside) else Rearranged(s, t, px, Receive(q, c, to), aside)
  {
    hide Copies, Tally;
    TallyEmit(s.log, MoveEvent(px, c, to));
    if to != ToTrash { ReceiveCopies(s.P(px), q, c, to); }
  }

  lemma RefillIfEmptyKeeps(s0: State, s: State, px: nat, y: Yield)
    requires Keeps(s0, s, y) && px < |s.players|
    ensures Keeps(s0, RefillIfEmpty(s, px), y)
  {
    var r := RefillIfEmpty(s, px);
    if r != s { RefillKeeps(s0, s, px, y); }
  }

  lemma DeliverTopKeeps(s0: State, s: State, px: nat, to: Target, y: Yield)
    requires Keeps(s0, s, y) && px < |s.players| && s.P(px).deck != []
    ensures Keeps(s0, DeliverTop(s, px, to), y)
  {
    var p := s.P(px);
    var rest, top := p.deck[..|p.deck| - 1], p.deck[|p.deck| - 1];
    assert p.deck == rest + [top];
    assert GivesUp(p, p.(deck := rest), top);
    hide Copies, Tally, Deliver, Keeps;
    DeliverKeeps(s0, s, px, p.(deck := rest), top, to, y);
  }

  lemma DrawOneKeeps(s0: State, s: State, px: nat, y: Yield)
    requires Keeps(s0, s, y) && px < |s.players|
    ensures Keeps(s0, DrawOne(s, px), y) && Keeps(s0, DiscardTop(s, px).0, y)
  {
    hide Keeps, DeliverTop;
    var r := RefillIfEmpty(s, px);
    RefillIfEmptyKeeps(s0, s, px, y);
    if r.P(px).deck != [] {
      DeliverTopKeeps(s0, r, px, ToHand, y);
      DeliverTopKeeps(s0, r, px, ToDiscard, y);
    }
  }

  lemma {:induction false} DrawCardsKeeps(s0: State, s: State, px: nat, n: nat, y: Yield)
    requires Keeps(s0, s, y) && px < |s.players|
    ensures Keeps(s0, DrawCards(s, px, n), y)
    decreases n
  {
    hide Keeps, DrawOne;
    if n > 0 && Available(s.P(px)) > 0 {
      DrawOneKeeps(s0, s, px, y);
      DrawCardsKeeps(s0, DrawOne(s, px), px, n - 1, y);
    }
  }

  lemma MoveOneKeeps(s0: State, s: State, px: nat, c: Card, to: Target, y: Yield)
    requires Keeps(s0, s, y) && px < |s.players|
    ensures Keeps(s0, MoveOne(s, px, c, to), y)
  {
    var p := s.P(px);
    if c in p.hand {
      var q := p.(hand := Without(p.hand, c));
      assert GivesUp(p, q, c);
      hide Copies, Tally, Deliver, Keeps;
      DeliverKeeps(s0, s, px, q, c, to, y);
    }
  }

  lemma {:induction false} MoveFromHandKeeps(s0: State, s: State, px: nat, cards: seq<Card>, to: Target, y: Yield)
    requires Keeps(s0, s, y) && px < |s.players|
    ensures Keeps(s0, MoveFromHand(s, px, cards, to), y)
    decreases |cards|
  {
    hide Keeps, MoveOne;
    if cards != [] {
      MoveOneKeeps(s0, s, px, cards[0], to, y);
      MoveFromHandKeeps(s0, MoveOne(s, px, cards[0], to), px, cards[1..], to, y);
    }
  }

  lemma {:induction false} RevealAndDiscardKeeps(s0: State, s: State, px: nat, n: nat, y: Yield)
    requires Keeps(s0, s, y) && px < |s.players|
    ensures Keeps(s0, RevealAndDiscardFromDeck(s, px, n).0, y)
    decreases n
  {
    hide Keeps, DiscardTop, DrawOne;
    if n > 0 && Available(s.P(px)) > 0 {
      DrawOneKeeps(s0, s, px, y);
      RevealAndDiscardKeeps(s0, DiscardTop(s, px).0, px, n - 1, y);
    }
  }

  lemma DeckGivesUp(p: PlayerState, c: Card)
    requires c in p.deck
    ensures GivesUp(p, p.(deck := Without(p.deck, c)), c)
  {
  }

  lemma TrashFromDeckKeeps(s0: State, s: State, px: nat, c: Card, y: Yield)
    requires Keeps(s0, s, y) && px < |s.players|
    ensures Keeps(s0, TrashFromDeck(s, px, c), y) && Keeps(s0, DiscardFromDeck(s, px, c), y)
  {
    hide Deliver, Keeps, Without, GivesUp;
    var p := s.P(px);
    if c in p.deck {
      var q := p.(deck := Without(p.deck, c));
      DeckGivesUp(p, c);
      DeliverKeeps(s0, s, px, q, c, ToTrash, y);
      DeliverKeeps(s0, s, px, q, c, ToDiscard, y);
    }
  }

  lemma SortOneKeeps(s0: State, s: State, px: nat, c: Card, to: Target, y: Yield)
    requires Keeps(s0, s, y) && px == s.current < |s.players| && y.aside
    ensures Keeps(s0, SortOne(s, px, c, to), y)
  {
    var p := s.P(px);
    if c in p.setAside {
      var q := p.(setAside := Without(p.setAside, c));
      assert GivesUp(p, q, c);
      hide Copies, Tally, Deliver, Keeps;
      DeliverKeeps(s0, s, px, q, c, to, y);
    }
  }

  lemma {:induction false} SortSetAsideKeeps(s0: State, s: State, px: nat, cards: seq<Card>, to: Target, y: Yield)
    requires Keeps(s0, s, y) && px == s.current < |s.players| && y.aside
    ensures Keeps(s0, SortSetAside(s, px, cards, to), y)
    decreases |cards|
  {
    hide Keeps, SortOne;
    if cards != [] {
      SortOneKeeps(s0, s, px, cards[0], to, y);
      SortSetAsideKeeps(s0, SortOne(s, px, cards[0], to), px, cards[1..], to, y);
    }
  }

  // ----- Resources -----

  /** The current player's seat changes resources only, by the difference of the yields `y` and `z`, and the log
      tells how many coins were added. */
  ghost predicate Granted(s: State, t: State, q: PlayerState, y: Yield, z: Yield) {
    && s.current < |s.players|
    && t == s.(players := s.players[s.current := q], log := t.log)
    && var p := s.players[s.current];
    && q == p.(actions := p.actions + z.actions - y.actions, buys := p.buys + z.buys - y.buys,
               coins := p.coins + z.coins - y.coins, charges := p.charges + z.charges - y.charges,
               firstSilver := p.firstSilver || (z.silver && !y.silver))
    && (y.silver ==> z.silver) && z.aside == y.aside
    && Tally(t.log) == Tally(s.log).(coins := Tally(s.log).coins + z.coins - y.coins)
  }

  lemma GrantedKeeps(s0: State, s: State, t: State, q: PlayerState, y: Yield, z: Yield)
    requires Keeps(s0, s, y) && Granted(s, t, q, y, z)
    ensures Keeps(s0, t, z)
  {
    hide Tally;
    forall c ensures Count(t, c) == Count(s, c) {
      HeldUpdate(s.players, s.current, q, c);
    }
  }

  lemma AddCoinsKeeps(s0: State, s: State, n: int, y: Yield)
    requires Keeps(s0, s, y) && s.current < |s.players|
    ensures Keeps(s0, AddCoins(s, s.current, n), y.(coins := y.coins + n))
  {
    var t := AddCoins(s, s.current, n);
    TallyEmit(s.log, CoinsAdded(s.current, n));
    hide Keeps, Tally;
    GrantedKeeps(s0, s, t, t.P(s.current), y, y.(coins := y.coins + n));
  }

  lemma AddBuysKeeps(s0: State, s: State, n: int, y: Yield)
    requires Keeps(s0, s, y) && s.current < |s.players|
    ensures Keeps(s0, AddBuys(s, s.current, n), y.(buys := y.buys + n))
  {
    var t := AddBuys(s, s.current, n);
    TallyEmit(s.log, BuysAdded(s.current, n));
    hide Keeps, Tally;
    GrantedKeeps(s0, s, t, t.P(s.current), y, y.(buys := y.buys + n));
  }

  lemma AddActionsKeeps(s0: State, s: State, n: int, y: Yield)
    requires Keeps(s0, s, y) && s.current < |s.players|
    ensures Keeps(s0, AddActions(s, s.current, n), y.(actions := y.actions + n))
  {
    var t := AddActions(s, s.current, n);
    TallyEmit(s.log, ActionsAdded(s.current, n));
    hide Keeps, Tally;
    GrantedKeeps(s0, s, t, t.P(s.current), y, y.(actions := y.actions + n));
  }

  // ----- Gains, requests, announcements -----

  /** A seat takes in one copy of `c`. */
  ghost predicate TakesIn(p: PlayerState, q: PlayerState, c: Card) {
    && SameResources(p, q) && q.inPlay == p.inPlay && q.setAside == p.setAside
    && (forall d :: Copies(q, d) == Copies(p, d) + (if d == c then 1 else 0))
  }

  lemma TakesInCard(p: PlayerState, c: Card)
    ensures TakesIn(p, p.(hand := p.hand + [c]), c)
    ensures TakesIn(p, p.(deck := p.deck + [c]), c)
    ensures TakesIn(p, p.(discard := p.discard + [c]), c)
  {
  }

  ghost predicate Gained(s: State, t: State, px: nat, q: PlayerState, c: Card) {
    && px < |s.players| && c in s.supply && s.supply[c] > 0
    && TakesIn(s.players[px], q, c)
    && t == s.(players := s.players[px := q], supply := s.supply[c := s.supply[c] - 1], log := t.log)
    && Tally(t.log) == Tally(s.log)
  }

  lemma GainedConserves(s: State, t: State, px: nat, q: PlayerState, c: Card)
    requires Gained(s, t, px, q, c)
    ensures Conserved(s, t) && SupplyShrinks(s, t)
  {
    hide Tally, Copies, Held;
    forall d ensures Count(t, d) == Count(s, d) {
      HeldUpdate(s.players, px, q, d);
    }
  }

  lemma GainedKeeps(s0: State, s: State, t: State, px: nat, q: PlayerState, c: Card, y: Yield)
    requires Keeps(s0, s, y) && Gained(s, t, px, q, c)
    ensures Keeps(s0, t, y)
  {
    GainedConserves(s, t, px, q, c);
    hide Tally, Copies, Count;
  }

  lemma GainCardKeeps(s0: State, s: State, px: nat, c: Card, dest: GainDest, y: Yield)
    requires Keeps(s0, s, y) && px < |s.players|
    ensures Keeps(s0, GainCard(s, px, c, dest), y)
  {
    var t := GainCard(s, px, c, dest);
    if s.Pile(c) > 0 {
      TakesInCard(s.P(px), c);
      TallyEmit(s.log, CardGained(px, c));
      hide Tally, Copies, Keeps;
      assert Gained(s, t, px, t.P(px), c);
      GainedKeeps(s0, s, t, px, t.P(px), c, y);
    }
  }

  lemma RequestKeeps(s0: State, s: State, px: nat, c: Card, step: nat, prompt: Prompt, context: Context, y: Yield)
    requires Keeps(s0, s, y) && s.pending.None?
    ensures Keeps(s0, RequestDecision(s, px, c, step, prompt, context), y)
  {
    var t := RequestDecision(s, px, c, step, prompt, context);
    TallyEmit(s.log, DecisionRequested(px));
    hide Tally;
    assert forall d :: Count(t, d) == Count(s, d);
  }

  lemma AnnounceKeeps(s0: State, s: State, more: seq<Event>, y: Yield)
    requires Keeps(s0, s, y)
    requires forall e :: e in more ==> Quiet(e)
    ensures Keeps(s0, s.(log := s.log + more), y)
  {
    TallyQuiet(s.log, more);
    hide Tally;
    var t := s.(log := s.log + more);
    assert forall d :: Count(t, d) == Count(s, d);
  }
}
