/** Who may do what, and when: every action's acceptance, its error and its direct effect, said from the state alone. */
module Rules {
  import opened Cards
  import opened States
  import opened Zones
  import opened Primitives
  import opened Effects
  import opened Engine
  import opened Frames
  import opened Invariants
  import opened Plays
  import opened Runs
  import opened GameLaws
  import opened Drawing

  // ----- Answers -----

  /** Only the asked player reaches the card, and only with the identifier of the pending decision. */
  lemma ReachesExactly(s: State, act: Action)
    requires Inv(s)
    ensures Reaches(s, act) <==>
              && !s.ended && s.pending.Some? && act.ResolveDecision?
              && act.decisionId == s.pending.value.id && act.player == s.pending.value.player
  {
    if s.pending.Some? {
      var d := s.pending.value;
      ClearingKeeps(s);
      assert HasResolve(d.card) && Known(d.card) by { hide Base; }
    }
    hide Inv;
  }

  /** What is refused before it reaches a card or a phase, and with which error. */
  lemma AtTheDoor(s: State, act: Action)
    requires Inv(s)
    ensures s.players != []
    ensures var r := Apply(s, act);
            && (s.ended ==> r == Fail(s, GameHasEnded))
            && (!s.ended && s.pending.Some? ==>
                  var d := s.pending.value;
                  && (!act.ResolveDecision? ==> r == Fail(s, DecisionPending))
                  && (act.ResolveDecision? && act.decisionId != d.id ==> r == Fail(s, WrongDecisionId))
                  && (act.ResolveDecision? && act.decisionId == d.id && act.player != d.player ==>
                        r == Fail(s, NotYourTurn)))
            && (!s.ended && s.pending.None? && act.player != s.current ==> r == Fail(s, NotYourTurn))
            && (!s.ended && s.pending.None? && act.player == s.current && act.ResolveDecision? ==>
                  r == Fail(s, NoDecisionPending))
  {
    InvSeated(s);
    hide Inv, OnResolve, Unwind, ApplyPlayCard, ApplyBuyCard, ApplyEndPhase;
  }

  // ----- Plays -----

  /** The current player may play `c` now. */
  predicate MayPlay(s: State, c: Card) {
    var p := s.P(s.current);
    && c in p.hand
    && ((s.phase == ActionPhase && IsAction(c) && p.actions > 0) || (s.phase == BuyPhase && IsTreasure(c)))
  }

  /** The card has left the hand for play; an Action has cost an action point, a Treasure nothing. */
  function Entered(s: State, c: Card): State {
    var p := s.P(s.current);
    var cost := if s.phase == ActionPhase then 1 else 0;
    s.(players := if s.current < |s.players| then
                    s.players[s.current := p.(actions := p.actions - cost, hand := Without(p.hand, c),
                                              inPlay := p.inPlay + [c])]
                  else s.players,
       log := s.log + [CardPlayed(s.current, c)])
  }

  lemma SpentFields(s: State)
    requires s.current < |s.players|
    ensures var t := SpendAction(s, s.current);
            t == s.(players := s.players[s.current := s.P(s.current).(actions := s.P(s.current).actions - 1)])
  {
  }

  /** Taking a card out of the hand and running it. */
  lemma FromHandIs(s: State, c: Card)
    requires s.current < |s.players|
    ensures var r, p := PlayCardFromZone(s, s.current, c, FromHand), s.P(s.current);
            if !Known(c) then r == Fail(s, UnknownCard)
            else if c !in p.hand then r == Fail(s, CardNotInHand)
            else
              r == Ok(OnPlay(s.(players := s.players[s.current := p.(hand := Without(p.hand, c), inPlay := p.inPlay + [c])],
                                log := s.log + [CardPlayed(s.current, c)]), s.current, c))
  {
    hide OnPlay, Without;
  }

  lemma RefusesAction(s: State, c: Card)
    requires s.current < |s.players| && s.phase == ActionPhase
    ensures var r, p := ApplyPlayCard(s, s.current, c), s.P(s.current);
            if !Known(c) then r == Fail(s, UnknownCard)
            else if !IsAction(c) then r == Fail(s, WrongPhase)
            else if p.actions <= 0 then r == Fail(s, NoActions)
            else r == PlayCardFromZone(SpendAction(s, s.current), s.current, c, FromHand)
  {
    hide SpendAction, PlayCardFromZone, IsAction, Known;
  }

  lemma RunsAction(s: State, c: Card)
    requires s.current < |s.players| && s.phase == ActionPhase && Known(c) && c in s.P(s.current).hand
    ensures PlayCardFromZone(SpendAction(s, s.current), s.current, c, FromHand) ==
            Ok(OnPlay(Entered(s, c), s.current, c))
  {
    hide OnPlay, Without, SpendAction, PlayCardFromZone, Known;
    SpentFields(s);
    FromHandIs(SpendAction(s, s.current), c);
    var p := s.P(s.current);
    var q := p.(actions := p.actions - 1, hand := Without(p.hand, c), inPlay := p.inPlay + [c]);
    assert s.players[s.current := p.(actions := p.actions - 1)][s.current := q] == s.players[s.current := q];
  }

  lemma LacksAction(s: State, c: Card)
    requires s.current < |s.players| && Known(c) && c !in s.P(s.current).hand
    ensures PlayCardFromZone(SpendAction(s, s.current), s.current, c, FromHand) ==
            Fail(SpendAction(s, s.current), CardNotInHand)
  {
    hide OnPlay, Without, SpendAction, PlayCardFromZone, Known;
    SpentFields(s);
    FromHandIs(SpendAction(s, s.current), c);
  }

  lemma PlaysAction(s: State, c: Card)
    requires s.current < |s.players| && s.phase == ActionPhase
    ensures var r, p := ApplyPlayCard(s, s.current, c), s.P(s.current);
            && (r.error.None? <==> c in p.hand && IsAction(c) && p.actions > 0)
            && (r.error.None? ==> r.state == OnPlay(Entered(s, c), s.current, c))
            && (r.error.Some? ==>
                  r.error.value == if !Known(c) then UnknownCard
                                   else if !IsAction(c) then WrongPhase
                                   else if p.actions <= 0 then NoActions
                                   else CardNotInHand)
  {
    assert IsAction(c) ==> Known(c);
    hide OnPlay, SpendAction, PlayCardFromZone, ApplyPlayCard, Entered, IsAction, Known;
    RefusesAction(s, c);
    if Known(c) {
      if c in s.P(s.current).hand { RunsAction(s, c); } else { LacksAction(s, c); }
    }
  }

  lemma RefusesTreasure(s: State, c: Card)
    requires s.current < |s.players| && s.phase == BuyPhase
    ensures var r := ApplyPlayCard(s, s.current, c);
            if !Known(c) then r == Fail(s, UnknownCard)
            else if !IsTreasure(c) then r == Fail(s, WrongPhase)
            else r == PlayCardFromZone(s, s.current, c, FromHand)
  {
    hide PlayCardFromZone, IsTreasure, Known;
  }

  lemma RunsTreasure(s: State, c: Card)
    requires s.current < |s.players| && s.phase == BuyPhase && Known(c)
    ensures PlayCardFromZone(s, s.current, c, FromHand) ==
            if c in s.P(s.current).hand then Ok(OnPlay(Entered(s, c), s.current, c)) else Fail(s, CardNotInHand)
  {
    hide OnPlay, Without, PlayCardFromZone, Known;
    FromHandIs(s, c);
    var p := s.P(s.current);
    assert p.(actions := p.actions - 0, hand := Without(p.hand, c), inPlay := p.inPlay + [c]) ==
           p.(hand := Without(p.hand, c), inPlay := p.inPlay + [c]);
  }

  lemma PlaysTreasure(s: State, c: Card)
    requires s.current < |s.players| && s.phase == BuyPhase
    ensures var r, p := ApplyPlayCard(s, s.current, c), s.P(s.current);
            && (r.error.None? <==> c in p.hand && IsTreasure(c))
            && (r.error.None? ==> r.state == OnPlay(Entered(s, c), s.current, c))
            && (r.error.Some? ==>
                  r.error.value == if !Known(c) then UnknownCard
                                   else if !IsTreasure(c) then WrongPhase
                                   else CardNotInHand)
  {
    assert IsTreasure(c) ==> Known(c);
    hide OnPlay, PlayCardFromZone, ApplyPlayCard, Entered, IsTreasure, Known;
    RefusesTreasure(s, c);
    if Known(c) { RunsTreasure(s, c); }
  }

  /** A play is accepted exactly if the card is in hand and the phase is right for it, with an action point left in the
      Action phase; then the card is in play, paid for, before it runs. */
  lemma PlaysExactly(s: State, c: Card)
    requires Inv(s) && !s.ended && s.pending.None?
    ensures s.players != []
    ensures var r, p := Apply(s, PlayCard(s.current, c)), s.P(s.current);
            && (r.error.None? <==> MayPlay(s, c))
            && (r.error.None? ==> r.state == OnPlay(Entered(s, c), s.current, c))
            && (r.error.Some? ==>
                  r.error.value == if !Known(c) then UnknownCard
                                   else if s.phase == ActionPhase && !IsAction(c) then WrongPhase
                                   else if s.phase == ActionPhase && p.actions <= 0 then NoActions
                                   else if s.phase == BuyPhase && !IsTreasure(c) then WrongPhase
                                   else CardNotInHand)
  {
    NoCleanup(s);
    hide Inv, OnPlay, Entered, ApplyPlayCard, IsAction, IsTreasure, Known;
    if s.phase == ActionPhase { PlaysAction(s, c); } else { PlaysTreasure(s, c); }
  }

  // ----- Buys -----

  /** The current player may buy `c` now. */
  predicate MayBuy(s: State, c: Card) {
    var p := s.P(s.current);
    s.phase == BuyPhase && Known(c) && c in s.supply && s.supply[c] > 0 && p.buys > 0 && p.coins >= Cost(c)
  }

  /** A buy costs one buy and the price, and the card moves from its pile to the buyer's discard pile. */
  function Bought(s: State, c: Card): State
    requires s.current < |s.players| && c in s.supply
  {
    var p := s.P(s.current);
    s.(players := s.players[s.current := p.(coins := p.coins - Cost(c), buys := p.buys - 1, discard := p.discard + [c])],
       supply := s.supply[c := s.supply[c] - 1], log := s.log + [CardGained(s.current, c)])
  }

  function BuyError(s: State, c: Card): Error {
    if s.phase == ActionPhase then WrongPhase
    else if !Known(c) then UnknownCard
    else if c !in s.supply || s.supply[c] <= 0 then CardNotInSupply
    else if s.P(s.current).buys <= 0 then NoBuys
    else InsufficientCoins
  }

  lemma PaysAndGains(s: State, c: Card)
    requires s.current < |s.players| && c in s.supply && s.supply[c] > 0
    ensures GainCard(PayFor(s, s.current, c), s.current, c, GainToDiscard) == Bought(s, c)
  {
    hide Cost;
    var px, p := s.current, s.P(s.current);
    var paid := p.(coins := p.coins - Cost(c), buys := p.buys - 1);
    var q := paid.(discard := p.discard + [c]);
    assert s.players[px := paid][px := q] == s.players[px := q];
  }

  lemma BuysIs(s: State, c: Card)
    requires s.current < |s.players| && s.phase != CleanupPhase
    ensures ApplyBuyCard(s, s.current, c) == if MayBuy(s, c) then Ok(Bought(s, c)) else Fail(s, BuyError(s, c))
  {
    hide Cost, Known, PayFor, GainCard, Bought;
    if MayBuy(s, c) { PaysAndGains(s, c); }
  }

  /** A buy is accepted exactly in the Buy phase, from a pile that has a card, with a buy left and enough coins. */
  lemma BuysExactly(s: State, c: Card)
    requires Inv(s) && !s.ended && s.pending.None?
    ensures s.players != [] && s.current < |s.players|
    ensures Apply(s, BuyCard(s.current, c)) == if MayBuy(s, c) then Ok(Bought(s, c)) else Fail(s, BuyError(s, c))
  {
    NoCleanup(s);
    hide Inv, MayBuy, Bought, BuyError, ApplyBuyCard;
    BuysIs(s, c);
  }

  // ----- Phases -----

  /** Ending the Action phase opens the Buy phase and does nothing else. */
  lemma ActionPhaseEnds(s: State)
    requires Inv(s) && !s.ended && s.pending.None? && s.phase == ActionPhase
    ensures s.players != []
    ensures Apply(s, EndPhase(s.current)) ==
            Ok(s.(phase := BuyPhase, log := s.log + [PhaseChanged(s.current, BuyPhase)]))
  {
    InvSeated(s);
    hide Inv;
  }

  /** The table with everything in front of the current player discarded: set-aside cards first, then what is in play,
      then the hand. */
  function Discarded(s: State): State {
    var p := s.P(s.current);
    s.With(s.current, p.(hand := [], inPlay := [], setAside := [],
                         discard := p.discard + p.setAside + p.inPlay + p.hand))
  }

  lemma DiscardedIs(s: State)
    requires s.current < |s.players|
    ensures var z := SweptTable(s.(phase := CleanupPhase), s.current);
            z.P(s.current) == Discarded(s).P(s.current) && z.rng == s.rng && |z.players| == |s.players|
  {
    var p := s.P(s.current);
    assert p.discard + (p.setAside + p.inPlay + p.hand) == p.discard + p.setAside + p.inPlay + p.hand;
    hide DiscardEvents;
  }

  lemma SameDrew(s: State, z: State, t: State, u: State, px: nat, n: nat)
    requires Drew(z, t, px, n) && z.P(px) == s.P(px) && z.rng == s.rng
    requires u.P(px) == t.P(px).(actions := u.P(px).actions, buys := u.P(px).buys, coins := u.P(px).coins,
                                 charges := u.P(px).charges, firstSilver := u.P(px).firstSilver)
    ensures Drew(s, u, px, n)
  {
    ComingSame(z, s, px);
    hide Coming, TopDown;
  }

  lemma HandedOn(s: State, t: State, px: nat)
    requires px < |s.players| && Handed(s, t) && (s.current + 1) % |s.players| != px
    ensures t.P(px) == s.P(px)
  {
    hide Conserved, Tally;
  }

  /** The outgoing seat after the hand-over. */
  lemma HandedSeat(s: State)
    requires s.current < |s.players| && 2 <= |s.players|
    ensures CleanupAndEndTurn(s).P(s.current) == CleanUpSeat(s.(phase := CleanupPhase), s.current).P(s.current)
  {
    hide CleanUpSeat, PassTurn, Handed;
    var s1 := CleanUpSeat(s.(phase := CleanupPhase), s.current);
    NotNext(s.current, |s.players|);
    PassTurnHands(s1);
    HandedOn(s1, PassTurn(s1), s.current);
  }

  lemma CleanedIs(s: State, px: nat)
    requires px < |s.players|
    ensures CleanUpSeat(s, px).P(px) == Unspent(DrawCards(SweptTable(s, px), px, 5).P(px))
  {
    hide CleanUpSeat, DrawCards, SweptTable;
    CleanUpIs(s, px);
    DrawCardsSeat(SweptTable(s, px), px, 5);
    assert |SweptTable(s, px).players| == |s.players| by { SweptSeat(s, px); }
  }

  lemma CleanedUp(s: State)
    requires s.current < |s.players| && 2 <= |s.players|
    ensures TurnedIn(s, CleanupAndEndTurn(s))
  {
    var px := s.current;
    var s0 := s.(phase := CleanupPhase);
    var z := SweptTable(s0, px);
    var t := CleanupAndEndTurn(s);
    hide CleanupAndEndTurn, CleanUpSeat, DrawCards, SweptTable, Discarded, Drew;
    HandedSeat(s);
    CleanedIs(s0, px);
    DiscardedIs(s);
    DrawsNext(z, px, 5);
    SameDrew(Discarded(s), z, DrawCards(z, px, 5), t, px, 5);
  }

  lemma NotNext(px: nat, n: nat)
    requires px < n && n >= 2
    ensures (px + 1) % n != px && (px + 1) % n < n
  {
    if px + 1 == n { ModSub(px + 1, n); }
  }

  /** The turn has gone to the next seat with one action and one buy; every other seat, trash and supply are as they
      were. */
  predicate HandedOver(s: State, t: State) {
    && 0 < |s.players| == |t.players|
    && var next := (s.current + 1) % |s.players|;
    && t.current == next && next != s.current && t.phase == ActionPhase
    && t.turn == (if next == s.starting then s.turn + 1 else s.turn)
    && t.P(next) == s.P(next).(actions := 1, buys := 1, coins := 0)
    && (forall i :: 0 <= i < |s.players| && i != s.current && i != next ==> t.players[i] == s.players[i])
    && t.trash == s.trash && t.supply == s.supply && t.plays == [] && t.pending == s.pending
  }

  lemma PassedOver(s: State, t: State)
    requires s.current < |s.players| && 2 <= |s.players| && TurnPassed(s, t)
    ensures HandedOver(s, t)
  {
    NotNext(s.current, |s.players|);
    hide Conserved, Tally, Idle;
  }

  /** What is left with the player whose turn ended: five cards drawn after everything was discarded, and no resources. */
  predicate TurnedIn(s: State, t: State) {
    var q := t.P(s.current);
    Drew(Discarded(s), t, s.current, 5) && q.actions == 0 && q.buys == 0 && q.coins == 0 && q.charges == 0 && !q.firstSilver
  }

  lemma SameHandOver(s: State, t: State, u: State)
    requires u == t.(ended := u.ended, winners := u.winners, log := u.log)
    requires HandedOver(s, t) && TurnedIn(s, t)
    ensures HandedOver(s, u) && TurnedIn(s, u)
  {
    hide Coming, TopDown, Discarded;
  }

  lemma TurnEnds(s: State)
    requires s.current < |s.players| && 2 <= |s.players| && s.phase == BuyPhase
    ensures HandedOver(s, ApplyEndPhase(s).state) && TurnedIn(s, ApplyEndPhase(s).state)
  {
    hide CleanupAndEndTurn, ApplyEndPhase, TurnPassed, HandedOver, TurnedIn, IsGameOver;
    var t := CleanupAndEndTurn(s);
    EndBuyIs(s);
    CleanupPasses(s);
    PassedOver(s, t);
    CleanedUp(s);
    SameHandOver(s, t, ApplyEndPhase(s).state);
  }

  /** Ending the Buy phase: the current player discards everything, draws the next five cards to come and keeps no
      resources; the next seat gets one action and one buy; the game ends exactly if the supply is finished. */
  lemma BuyPhaseEnds(s: State)
    requires Inv(s) && !s.ended && s.pending.None? && s.phase == BuyPhase
    ensures s.players != []
    ensures var r := Apply(s, EndPhase(s.current));
            && r.error.None? && HandedOver(s, r.state) && TurnedIn(s, r.state)
            && (r.state.ended <==> SupplyFinished(s.supply))
  {
    hide Inv, ApplyEndPhase, HandedOver, TurnedIn, SupplyFinished, Base, Apply;
    InvTable(s);
    EndsExactly(s, EndPhase(s.current));
    EndPhaseAccepted(s);
    EndPhaseApplied(s);
    TurnEnds(s);
  }

  lemma InvTable(s: State)
    requires Inv(s)
    ensures s.current < |s.players| && 2 <= |s.players|
  {
  }

  lemma EndPhaseApplied(s: State)
    requires s.players != [] && !s.ended && s.pending.None?
    ensures Apply(s, EndPhase(s.current)) == ApplyEndPhase(s)
  {
    hide ApplyEndPhase;
  }
}
