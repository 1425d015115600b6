/** The invariant of every reachable state, and runs of actions, accepted or rejected. */
module Runs {
  import opened Cards
  import opened States
  import opened Primitives
  import opened Effects
  import opened Engine
  import opened Census
  import opened Frames
  import opened Invariants
  import opened Plays
  import opened Resolutions

  predicate Solvent(p: PlayerState) {
    p.actions >= 0 && p.buys >= 0 && p.coins >= 0 && p.charges >= 0
  }

  /** A seat out of turn holds no resources and has nothing in front of it. */
  predicate Idle(p: PlayerState) {
    p.actions == 0 && p.buys == 0 && p.coins == 0 && p.charges == 0 && !p.firstSilver && p.inPlay == [] &&
    p.setAside == []
  }

  /** Replays are owed to the current player only, for cards the registry knows. */
  predicate OwedOk(s: State) {
    forall i :: 0 <= i < |s.plays| ==> s.plays[i].player == s.current && Known(s.plays[i].card)
  }

  ghost predicate NoUnknown(s: State) {
    forall c: Card :: c.Unknown? ==> Count(s, c) == 0
  }

  ghost predicate Stocked(s: State) {
    forall c :: c in s.supply ==> s.supply[c] >= 0
  }

  ghost predicate Seated(s: State) {
    && 2 <= |s.players| && s.current < |s.players| && s.starting < |s.players|
    && (forall i :: 0 <= i < |s.players| && i != s.current ==> Idle(s.players[i]))
    && Solvent(s.P(s.current))
  }

  ghost predicate Base(s: State) {
    Seated(s) && s.phase != CleanupPhase && s.turn >= 1 && Stocked(s) && NoUnknown(s) && OwedOk(s)
  }

  /** The invariant of all runs, whatever is refused on the way. */
  ghost predicate Inv(s: State) {
    Base(s) && AskedOk(s) && (s.ended ==> s.pending.None? && s.P(s.current).setAside == [])
  }

  lemma InvSeated(s: State)
    requires Inv(s)
    ensures s.players != [] && s.current < |s.players|
  {
  }

  lemma FrameBase(s: State, t: State)
    requires Base(s) && Frame(s, t) && OwedOk(t)
    ensures Base(t)
  {
    assert SupplyShrinks(s, t);
    forall c | c in t.supply ensures t.supply[c] >= 0 {
      assert c in s.supply;
    }
    hide Count;
  }

  /** No zone of any player holds a card the registry does not know. */
  lemma HandKnown(s: State, i: nat)
    requires NoUnknown(s) && Stocked(s) && i < |s.players|
    ensures forall c: Card :: c.Unknown? ==> c !in s.P(i).hand
  {
    forall c: Card | c.Unknown? ensures c !in s.P(i).hand {
      assert Count(s, c) == 0;
      HeldByOne(s.players, i, c);
      assert c in s.P(i).hand ==> Copies(s.players[i], c) > 0;
    }
  }

  /** A table of two seats that hold known cards only. */
  lemma TwoSeatsKnown(s: State)
    requires |s.players| == 2 && s.trash == [] && s.supply == map[]
    requires forall c: Card :: c.Unknown? ==> Copies(s.players[0], c) == 0 && Copies(s.players[1], c) == 0
    ensures NoUnknown(s)
  {
    hide Copies;
    var p, q := s.players[0], s.players[1];
    assert s.players == [] + [p] + [q];
    forall c: Card | c.Unknown? ensures Count(s, c) == 0 {
      assert Held([], c) == 0;
      HeldSnoc([], p, c);
      HeldSnoc([] + [p], q, c);
      assert multiset(s.trash)[c] == 0 && s.Pile(c) == 0;
    }
  }

  // ----- Answers -----

  /** What an answer does before owed replays are considered. */
  ghost predicate Answered(s: State, r: Outcome) {
    && Frame(s, r.state) && OwedOk(r.state) && AskedOk(r.state)
    && (r.error.Some? ==> r.state.pending.None?)
    && (r.state.plays == s.plays ||
        (r.error.None? && |r.state.plays| == |s.plays| + 1 && s.plays <= r.state.plays &&
         |r.state.P(s.current).inPlay| > |s.P(s.current).inPlay|))
  }

  lemma AnsweredUnchanged(s: State, r: Outcome)
    requires Base(s) && s.pending.None? && r.state == s
    ensures Answered(s, r)
  {
    PlaysFieldFrame(s, s);
    NotAsked(s);
    hide Frame;
  }

  lemma PlayedFacts(s: State, t: State, c: Card)
    requires PlayedFromZone(s, t, c)
    ensures Frame(s, t) && AskedOk(t) && t.plays == s.plays && t.current == s.current
    ensures s.P(s.current).setAside == [] ==> AsideOk(t)
    ensures |t.P(s.current).inPlay| == |s.P(s.current).inPlay| + 1
  {
  }

  lemma AnsweredPlayed(s: State, r: Outcome, c: Card)
    requires Base(s) && r.error.None? && PlayedFromZone(s, r.state, c)
    ensures Answered(s, r)
  {
    hide Frame, AskedOk, PlayedFromZone;
    PlayedFacts(s, r.state, c);
  }

  lemma AnsweredMore(s: State, r: Outcome)
    requires r.error.None? && Frame(s, r.state) && OwedOk(r.state) && AskedOk(r.state)
    requires |r.state.plays| == |s.plays| + 1 && s.plays <= r.state.plays
    requires |r.state.P(s.current).inPlay| == |s.P(s.current).inPlay| + 1
    ensures Answered(s, r)
  {
    hide Frame, OwedOk, AskedOk;
  }

  lemma AnsweredThroned(s: State, r: Outcome, c: Card)
    requires Base(s) && r.error.None? && Known(c)
    requires var owed := PendingPlay(s.current, c, ThroneRoom);
             r.state.plays == s.plays + [owed] && PlayedFromZone(s.(plays := s.plays + [owed]), r.state, c)
    ensures Answered(s, r)
  {
    hide Frame, AskedOk, PlayedFromZone, Base, Known, OwedOk, Answered, AsideOk;
    var s1 := s.(plays := s.plays + [PendingPlay(s.current, c, ThroneRoom)]);
    PlayedFacts(s1, r.state, c);
    PlaysFieldFrame(s, s1);
    FrameTrans(s, s1, r.state);
    ThroneOwes(s, c, r.state);
    AnsweredMore(s, r);
  }

  lemma ThroneOwes(s: State, c: Card, t: State)
    requires Base(s) && Known(c) && t.current == s.current
    requires t.plays == s.plays + [PendingPlay(s.current, c, ThroneRoom)]
    ensures OwedOk(t)
  {
  }

  lemma SameTableOf(s: State, t: State)
    requires Frame(s, t)
    ensures t.current == s.current && |t.players| == |s.players|
  {
  }

  lemma ThroneAnswers(s: State, d: Decision, answer: Answer)
    requires Base(s) && s.pending.None? && OwnAsked(s, d)
    ensures Answered(s, ResolveThroneRoom(s, d, answer))
  {
    var r := ResolveThroneRoom(s, d, answer);
    HandKnown(s, s.current);
    ThroneRoomPlays(s, d, answer);
    hide ResolveThroneRoom, PlayedFromZone, Answered, AskedOk;
    if r.error.None? {
      AnsweredThroned(s, r, answer.card);
    } else {
      AnsweredUnchanged(s, r);
    }
  }

  lemma VassalAnswers(s: State, d: Decision, answer: Answer)
    requires Base(s) && s.pending.None? && d.card == Vassal && Justified(s, d)
    ensures Answered(s, ResolveVassal(s, d, answer))
  {
    var r := ResolveVassal(s, d, answer);
    VassalPlays(s, d, answer);
    hide ResolveVassal, PlayedFromZone, Answered, AskedOk;
    if answer == YesNoAnswer(true) {
      AnsweredPlayed(s, r, d.context.card);
    } else {
      AnsweredUnchanged(s, r);
    }
  }

  lemma OnResolveAnswers(s: State, d: Decision, answer: Answer)
    requires Base(s) && s.pending.None? && d.player < |s.players| && Justified(s, d)
    ensures Answered(s, OnResolve(s, d, answer))
  {
    var r := OnResolve(s, d, answer);
    if d.card == ThroneRoom {
      ThroneAnswers(s, d, answer);
    } else if d.card == Vassal {
      VassalAnswers(s, d, answer);
    } else {
      ResolveSettles(s, d, answer);
      hide OnResolve, Count, Tally, Justified;
      KeepsFrame(s, r.state, AnswerYield(d, answer));
    }
  }

  /** The stack of owed replays is not part of what effects keep. */
  lemma PlaysFieldFrame(s: State, t: State)
    requires t == s.(plays := t.plays)
    ensures Frame(s, t)
  {
    assert forall c :: Count(t, c) == Count(s, c);
  }

  lemma PopFrame(s: State)
    requires s.plays != [] && s.current < |s.players|
    ensures var pp := s.plays[|s.plays| - 1];
            Frame(s, s.(plays := s.plays[..|s.plays| - 1]).Emit(CardThroned(pp.player, pp.card)))
  {
    var pp := s.plays[|s.plays| - 1];
    var t := s.(plays := s.plays[..|s.plays| - 1]).Emit(CardThroned(pp.player, pp.card));
    assert forall c :: Count(t, c) == Count(s, c);
    hide Count;
  }

  /** The unwinder never fails, leaves the lower part of the stack alone, and stops only at a new decision or at the
      bottom. */
  lemma {:induction false} UnwindKeeps(s: State)
    requires s.current < |s.players| && OwedOk(s) && AskedOk(s)
    ensures var r := Unwind(s);
            && r.error.None? && Frame(s, r.state) && AskedOk(r.state) && OwedOk(r.state)
            && r.state.plays <= s.plays
            && r.state.P(s.current).inPlay == s.P(s.current).inPlay
            && (r.state.pending.None? ==> r.state.plays == [])
            && (s.pending.None? && s.plays != [] ==> |r.state.plays| < |s.plays|)
            && (AsideOk(s) ==> AsideOk(r.state))
    decreases |s.plays|
  {
    hide Count, Tally, PlayInPlace, AskedOk, YieldOf, Played;
    PlaysFieldFrame(s, s);
    if s.pending.None? && s.plays != [] {
      var pp := s.plays[|s.plays| - 1];
      var s1 := s.(plays := s.plays[..|s.plays| - 1]).Emit(CardThroned(pp.player, pp.card));
      var s2 := PlayInPlace(s1, s.current, pp.card);
      PopFrame(s);
      hide Paid;
      PlayInPlaceKeeps(s1, pp.card);
      FrameTrans(s, s1, s2);
      UnwindKeeps(s2);
      FrameTrans(s, s2, Unwind(s2).state);
    }
  }

  // ----- One action -----

  lemma ResolveInv(s: State, px: nat, id: string, answer: Answer)
    requires Inv(s) && !s.ended
    ensures var r := ApplyResolveDecision(s, px, id, answer);
            && Inv(r.state) && !r.state.ended
            && (ResolveGuard(s, px, id).Some? ==> r.state == s && r.error.Some?)
            && (ResolveGuard(s, px, id).None? ==> Frame(s.(pending := None), r.state))
  {
    if ResolveGuard(s, px, id).None? {
      var d := s.pending.value;
      var s0 := s.(pending := None);
      assert Base(s0) && Justified(s0, d) by { ClearingKeeps(s); }
      OnResolveAnswers(s0, d, answer);
      var r := OnResolve(s0, d, answer);
      hide OnResolve, Justified, AskedOk, Base, Unwind;
      FrameBase(s0, r.state);
      if r.error.None? {
        assert r.state.current < |r.state.players|;
        UnwindKeeps(r.state);
        FrameTrans(s0, r.state, Unwind(r.state).state);
        FrameBase(s0, Unwind(r.state).state);
      }
    }
  }

  lemma ClearingKeeps(s: State)
    requires Inv(s) && s.pending.Some?
    ensures Base(s.(pending := None)) && Justified(s.(pending := None), s.pending.value)
  {
    var s0 := s.(pending := None);
    assert forall c :: Count(s0, c) == Count(s, c);
    hide Count;
  }

  // ----- The end of a turn -----

  /** Everything in front of a player goes to the discard pile. */
  function Swept(p: PlayerState): PlayerState {
    p.(discard := p.discard + (p.setAside + p.inPlay + p.hand), setAside := [], inPlay := [], hand := [])
  }

  lemma SweptCopies(p: PlayerState)
    ensures forall c :: Copies(Swept(p), c) == Copies(p, c)
  {
  }

  /** What the cleanup of the current player's seat and the hand-over of the turn leave behind. */
  ghost predicate TurnPassed(s: State, t: State)
    requires s.players != []
  {
    var next := (s.current + 1) % |s.players|;
    && |t.players| == |s.players| && t.current == next && t.starting == s.starting && t.seed == s.seed
    && t.phase == ActionPhase
    && t.turn == (if next == s.starting then s.turn + 1 else s.turn)
    && t.supply == s.supply && t.trash == s.trash && t.ended == s.ended && t.winners == s.winners
    && t.pending == s.pending && t.decisionSeq == s.decisionSeq && t.plays == []
    && Conserved(s, t)
    && (forall i :: 0 <= i < |s.players| && i != s.current && i != next ==> t.players[i] == s.players[i])
    && (next != s.current ==> t.P(next) == s.P(next).(actions := 1, buys := 1, coins := 0) && Idle(t.P(s.current)))
    && Tally(t.log) == Turn(0, [], [])
  }

  /** Only one seat's hand, deck and discard pile, the random stream and the log differ. */
  predicate SeatOnly(s: State, t: State, px: nat) {
    && px < |s.players|
    && t == s.(players := s.players[px := t.P(px)], rng := t.rng, log := t.log)
    && t.P(px) == s.P(px).(hand := t.P(px).hand, deck := t.P(px).deck, discard := t.P(px).discard)
  }

  lemma SeatOnlyTrans(s: State, t: State, u: State, px: nat)
    requires SeatOnly(s, t, px) && SeatOnly(t, u, px)
    ensures SeatOnly(s, u, px)
  {
    assert s.players[px := t.P(px)][px := u.P(px)] == s.players[px := u.P(px)];
  }

  lemma DrawOneSeat(s: State, px: nat)
    requires px < |s.players|
    ensures SeatOnly(s, DrawOne(s, px), px)
  {
    var r := RefillIfEmpty(s, px);
    assert SeatOnly(s, r, px);
    if r.P(px).deck != [] {
      assert SeatOnly(r, DeliverTop(r, px, ToHand), px);
      hide SeatOnly, RefillIfEmpty, DeliverTop;
      SeatOnlyTrans(s, r, DeliverTop(r, px, ToHand), px);
    }
  }

  lemma SeatOnlySelf(s: State, px: nat)
    requires px < |s.players|
    ensures SeatOnly(s, s, px)
  {
  }

  /** Drawing touches the drawing seat, the random stream and the log only. */
  lemma {:induction false} DrawCardsSeat(s: State, px: nat, n: nat)
    requires px < |s.players|
    ensures SeatOnly(s, DrawCards(s, px, n), px)
    decreases n
  {
    hide DrawOne, SeatOnly;
    SeatOnlySelf(s, px);
    if n > 0 && Available(s.P(px)) > 0 {
      var s1 := DrawOne(s, px);
      DrawOneSeat(s, px);
      DrawCardsSeat(s1, px, n - 1);
      SeatOnlyTrans(s, s1, DrawCards(s1, px, n - 1), px);
    }
  }

  /** The seat at `px` is replaced by one with the same cards. */
  lemma SeatSwapConserves(s: State, t: State, px: nat, q: PlayerState)
    requires px < |s.players| && t.players == s.players[px := q] && t.trash == s.trash && t.supply == s.supply
    requires forall c :: Copies(q, c) == Copies(s.P(px), c)
    ensures Conserved(s, t)
  {
    hide Copies;
    forall c ensures Count(t, c) == Count(s, c) { HeldUpdate(s.players, px, q, c); }
  }

  lemma DrawConserves(s: State, px: nat, n: nat)
    requires px < |s.players|
    ensures Conserved(s, DrawCards(s, px, n))
  {
    hide Count, DrawCards, Tally;
    KeepsSelf(s);
    DrawCardsKeeps(s, s, px, n, NOTHING);
  }

  ghost predicate SeatCleaned(s: State, t: State) {
    && s.current < |s.players| == |t.players|
    && t == s.(players := s.players[s.current := t.P(s.current)], plays := [], rng := t.rng, log := t.log)
    && Idle(t.P(s.current)) && Conserved(s, t)
  }

  /** The table with one seat swept. */
  function SweptTable(s: State, px: nat): State {
    var p := s.P(px);
    s.(plays := [], log := s.log + DiscardEvents(px, p.setAside + p.inPlay + p.hand)).With(px, Swept(p))
  }

  function Unspent(p: PlayerState): PlayerState {
    p.(actions := 0, buys := 0, coins := 0, charges := 0, firstSilver := false)
  }

  lemma CleanUpIs(s: State, px: nat)
    requires px < |s.players|
    ensures var t := DrawCards(SweptTable(s, px), px, 5);
            CleanUpSeat(s, px) == t.With(px, Unspent(t.P(px)))
  {
    hide DrawCards, DiscardEvents;
  }

  lemma SweptTableKeeps(s: State, px: nat)
    requires px < |s.players|
    ensures var t := SweptTable(s, px);
            && t == s.(players := s.players[px := Swept(s.P(px))], plays := [], log := t.log) && Conserved(s, t)
  {
    SweptCopies(s.P(px));
    hide Copies, Count, DiscardEvents, Swept;
    SeatSwapConserves(s, SweptTable(s, px), px, Swept(s.P(px)));
  }

  lemma UnspentKeeps(s: State, px: nat)
    requires px < |s.players|
    ensures Conserved(s, s.With(px, Unspent(s.P(px))))
  {
    var q := Unspent(s.P(px));
    assert forall c :: Copies(q, c) == Copies(s.P(px), c);
    hide Copies, Count;
    SeatSwapConserves(s, s.With(px, q), px, q);
  }

  lemma ConservedTrans(s: State, t: State, u: State)
    requires Conserved(s, t) && Conserved(t, u)
    ensures Conserved(s, u)
  {
    hide Count;
  }

  lemma CleanUpSeatKeeps(s: State)
    requires s.current < |s.players|
    ensures SeatCleaned(s, CleanUpSeat(s, s.current))
  {
    hide CleanUpSeat, DrawCards, SweptTable, Conserved;
    var px := s.current;
    var s1 := SweptTable(s, px);
    var s2 := DrawCards(s1, px, 5);
    CleanUpIs(s, px);
    SweptTableKeeps(s, px);
    DrawConserves(s1, px, 5);
    DrawCardsSeat(s1, px, 5);
    UnspentKeeps(s2, px);
    ConservedTrans(s, s1, s2);
    ConservedTrans(s, s2, CleanUpSeat(s, px));
    assert s.players[px := Swept(s.P(px))][px := s2.P(px)][px := Unspent(s2.P(px))] == s.players[px := Unspent(s2.P(px))];
  }

  ghost predicate Handed(s: State, t: State) {
    && 0 < |s.players|
    && var next := (s.current + 1) % |s.players|;
    && next < |s.players|
    && t == s.(players := s.players[next := s.players[next].(actions := 1, buys := 1, coins := 0)],
               current := next, turn := if next == s.starting then s.turn + 1 else s.turn,
               phase := ActionPhase, log := t.log)
    && Conserved(s, t) && Tally(t.log) == Turn(0, [], [])
  }

  lemma PassTurnHands(s: State)
    requires s.current < |s.players|
    ensures Handed(s, PassTurn(s))
  {
    var next := (s.current + 1) % |s.players|;
    var t := PassTurn(s);
    SeatSwapConserves(s, t, next, s.P(next).(actions := 1, buys := 1, coins := 0));
    var log := s.log + [PhaseChanged(next, ActionPhase)];
    TallyEmit(log, TurnStarted(next, t.turn));
    assert t.log == log + [TurnStarted(next, t.turn)];
  }

  lemma CleanedThenHanded(s: State, s1: State, t: State)
    requires s.current < |s.players|
    requires SeatCleaned(s.(phase := CleanupPhase), s1) && Handed(s1, t)
    ensures TurnPassed(s, t)
  {
    hide Count, Tally;
    var s0 := s.(phase := CleanupPhase);
    assert Conserved(s, s0) by { SeatSwapConserves(s, s0, s.current, s.P(s.current)); }
  }

  lemma CleanupPasses(s: State)
    requires s.current < |s.players|
    ensures TurnPassed(s, CleanupAndEndTurn(s))
  {
    var s0 := s.(phase := CleanupPhase);
    hide CleanUpSeat, PassTurn, SeatCleaned, Handed, TurnPassed;
    CleanUpSeatKeeps(s0);
    PassTurnHands(CleanUpSeat(s0, s.current));
    CleanedThenHanded(s, CleanUpSeat(s0, s.current), CleanupAndEndTurn(s));
  }

  // ----- Every action -----

  /** Decision numbers only move forward: a decision that is new has a new number. */
  predicate IdsMove(s: State, t: State) {
    || (t.decisionSeq == s.decisionSeq && (t.pending == s.pending || t.pending.None?))
    || (t.decisionSeq == s.decisionSeq + 1 && t.pending.Some?)
  }

  /** The action that ends a turn. */
  predicate EndsTurn(s: State, act: Action) {
    !s.ended && s.pending.None? && act.EndPhase? && act.player == s.current && s.phase == BuyPhase
  }

  /** Within a turn only the phase moves, forward, and cards in play stay there. */
  predicate SameTurn(s: State, t: State) {
    && t.current == s.current && t.turn == s.turn && t.ended == s.ended && t.winners == s.winners
    && (t.phase == s.phase || (s.phase == ActionPhase && t.phase == BuyPhase))
    && s.P(s.current).inPlay <= t.P(s.current).inPlay
  }

  /** At the end of a turn the next seat takes over, a new round starts with the starting seat, and the game is over
      exactly when the supply says so. */
  predicate NextTurn(s: State, t: State) {
    && 0 < |s.players| && t.current == (s.current + 1) % |s.players|
    && t.turn == (if t.current == s.starting then s.turn + 1 else s.turn)
    && t.phase == ActionPhase && t.supply == s.supply && t.ended == IsGameOver(s.supply)
  }

  /** What every action keeps. */
  ghost predicate Stepped(s: State, t: State, ends: bool) {
    && Conserved(s, t) && SupplyShrinks(s, t) && IdsMove(s, t)
    && |t.players| == |s.players| && t.starting == s.starting && t.seed == s.seed
    && (if ends then NextTurn(s, t) else SameTurn(s, t))
  }

  lemma SteppedSelf(s: State)
    ensures Stepped(s, s, false)
  {
  }

  lemma FrameStepped(s: State, t: State)
    requires Frame(s, t)
    ensures Stepped(s, t, false) && t.ended == s.ended
  {
    hide Conserved, SupplyShrinks;
  }

  /** A first change of resources or flags does not matter. */
  lemma SteppedFrom(s: State, s1: State, t: State)
    requires Stepped(s1, t, false) && Conserved(s, s1) && SameTurn(s, s1) && |s1.players| == |s.players|
    requires s1.supply == s.supply && s1.decisionSeq == s.decisionSeq && s1.starting == s.starting && s1.seed == s.seed
    requires s1.phase == s.phase && (s1.pending == s.pending || s1.pending.None?)
    ensures Stepped(s, t, false)
  {
    hide Count;
  }

  /** The current player pays with actions, buys or coins; nothing else changes. */
  predicate Spends(s: State, t: State) {
    && s.current < |s.players|
    && t == s.(players := s.players[s.current := t.P(s.current)])
    && var p, q := s.P(s.current), t.P(s.current);
    q == p.(actions := q.actions, buys := q.buys, coins := q.coins)
  }

  lemma SpendActionSpends(s: State)
    requires s.current < |s.players|
    ensures var t := SpendAction(s, s.current);
            Spends(s, t) && t.P(s.current) == s.P(s.current).(actions := s.P(s.current).actions - 1)
  {
  }

  lemma PayForSpends(s: State, c: Card)
    requires s.current < |s.players|
    ensures var p, t := s.P(s.current), PayFor(s, s.current, c);
            Spends(s, t) && t.P(s.current) == p.(coins := p.coins - Cost(c), buys := p.buys - 1)
  {
    hide Cost;
  }

  /** Spending leaves the cards and the turn alone. */
  lemma SpendKeeps(s: State, t: State)
    requires Base(s) && Spends(s, t) && Solvent(t.P(s.current))
    ensures Base(t) && Conserved(s, t)
  {
    var q := t.P(s.current);
    assert forall c :: Copies(q, c) == Copies(s.P(s.current), c);
    SeatSwapConserves(s, t, s.current, q);
    hide Count, Copies;
  }

  lemma SpendFields(s: State, t: State)
    requires Spends(s, t)
    ensures SameTurn(s, t) && |t.players| == |s.players| && t.supply == s.supply && t.decisionSeq == s.decisionSeq
    ensures t.starting == s.starting && t.seed == s.seed && t.phase == s.phase && t.pending == s.pending && t.ended == s.ended
    ensures t.plays == s.plays && t.P(s.current).setAside == s.P(s.current).setAside && t.log == s.log
  {
  }

  /** A play is refused at once, or taken from the hand after an action point was or was not spent. */
  lemma PlayCases(s: State, c: Card)
    ensures var r := ApplyPlayCard(s, s.current, c);
            || (r.error.Some? && r.state == s)
            || (s.P(s.current).actions > 0 && r == PlayCardFromZone(SpendAction(s, s.current), s.current, c, FromHand))
            || r == PlayCardFromZone(s, s.current, c, FromHand)
  {
    hide PlayCardFromZone, SpendAction;
  }

  lemma PlayInv(s: State, c: Card)
    requires Inv(s) && !s.ended && s.pending.None?
    ensures var r := ApplyPlayCard(s, s.current, c);
            Inv(r.state) && !r.state.ended && Stepped(s, r.state, false)
  {
    var s1 := SpendAction(s, s.current);
    var r := ApplyPlayCard(s, s.current, c);
    SteppedSelf(s);
    NoCleanup(s);
    assert Solvent(s.P(s.current));
    SpendActionSpends(s);
    hide PlayCardFromZone, Base, Inv, Stepped, ApplyPlayCard, SpendAction, Spends;
    PlayCases(s, c);
    if r == PlayCardFromZone(s, s.current, c, FromHand) {
      PlayFromZoneInv(s, c);
    } else if r == PlayCardFromZone(s1, s.current, c, FromHand) && s.P(s.current).actions > 0 {
      SpendKeeps(s, s1);
      SpendFields(s, s1);
      PlayFromZoneInv(s1, c);
      hide SameTurn, Conserved;
      SteppedFrom(s, s1, r.state);
    }
  }

  lemma PlayFromZoneInv(s: State, c: Card)
    requires Base(s) && s.pending.None? && !s.ended
    ensures var r := PlayCardFromZone(s, s.current, c, FromHand);
            Inv(r.state) && !r.state.ended && Stepped(s, r.state, false)
  {
    var r := PlayCardFromZone(s, s.current, c, FromHand);
    hide PlayCardFromZone, PlayedFromZone, AskedOk, Count, Stepped, Frame;
    PlayFromZoneKeeps(s, c, FromHand);
    if r.error.None? {
      PlayedFacts(s, r.state, c);
      FrameBase(s, r.state);
      FrameStepped(s, r.state);
    } else {
      NotAsked(s);
      SteppedSelf(s);
    }
  }

  lemma GainInv(s: State, c: Card)
    requires Base(s) && s.pending.None? && !s.ended
    ensures var t := GainCard(s, s.current, c, GainToDiscard);
            Inv(t) && !t.ended && Stepped(s, t, false)
  {
    var t := GainCard(s, s.current, c, GainToDiscard);
    assert t.pending.None? && t.ended == s.ended;
    NotAsked(t);
    KeepsSelf(s);
    hide Base, Tally, Count, GainCard, Keeps, AskedOk;
    GainCardKeeps(s, s, s.current, c, GainToDiscard, NOTHING);
    KeepsFrame(s, t, NOTHING);
    assert OwedOk(t) by { SameOwed(s, t); }
    FrameBase(s, t);
    FrameStepped(s, t);
  }

  lemma SameOwed(s: State, t: State)
    requires Base(s) && t.plays == s.plays && t.current == s.current
    ensures OwedOk(t)
  {
  }

  /** A buy is refused without a trace, or paid for and gained. */
  lemma BuyCases(s: State, c: Card)
    ensures var r, p := ApplyBuyCard(s, s.current, c), s.P(s.current);
            if r.error.Some? then r.state == s
            else p.buys > 0 && p.coins >= Cost(c) && s.Pile(c) > 0 && s.phase == BuyPhase &&
                 r == Ok(GainCard(PayFor(s, s.current, c), s.current, c, GainToDiscard))
  {
    hide GainCard, PayFor, Cost;
  }

  lemma BuyInv(s: State, c: Card)
    requires Inv(s) && !s.ended && s.pending.None?
    ensures var r := ApplyBuyCard(s, s.current, c);
            Inv(r.state) && !r.state.ended && Stepped(s, r.state, false)
  {
    var s1 := PayFor(s, s.current, c);
    SteppedSelf(s);
    NoCleanup(s);
    assert Solvent(s.P(s.current));
    PayForSpends(s, c);
    hide Base, Inv, ApplyBuyCard, Stepped, GainCard, PayFor, Spends, Cost;
    BuyCases(s, c);
    if ApplyBuyCard(s, s.current, c).error.None? {
      SpendKeeps(s, s1);
      SpendFields(s, s1);
      GainInv(s1, c);
      hide SameTurn, Conserved;
      SteppedFrom(s, s1, GainCard(s1, s.current, c, GainToDiscard));
    }
  }

  lemma TurnPassedInv(s: State, t: State)
    requires Base(s) && s.pending.None? && TurnPassed(s, t)
    ensures Base(t) && t.pending.None? && AskedOk(t) && t.P(t.current).setAside == []
    ensures t.current != s.current && (forall i :: 0 <= i < |t.players| ==> t.players[i].setAside == [])
  {
    var next := (s.current + 1) % |s.players|;
    assert next != s.current && next < |s.players| by {
      if s.current + 1 == |s.players| { ModSub(s.current + 1, |s.players|); }
    }
    forall c: Card | c.Unknown? ensures Count(t, c) == 0 { assert Count(s, c) == 0; }
    hide Count, Tally;
  }

  /** Fields that no other part of the invariant depends on. */
  lemma FlagsKeepBase(s: State, t: State)
    requires Base(s) && t.phase != CleanupPhase
    requires t == s.(phase := t.phase, ended := t.ended, winners := t.winners, log := t.log)
    ensures Base(t) && Conserved(s, t)
  {
    assert forall c :: Count(t, c) == Count(s, c);
    hide Count;
  }

  lemma EndActionInv(s: State)
    requires Inv(s) && !s.ended && s.pending.None? && s.phase == ActionPhase
    ensures Inv(ApplyEndPhase(s).state) && Stepped(s, ApplyEndPhase(s).state, false)
  {
    var u := ApplyEndPhase(s).state;
    FlagsKeepBase(s, u);
    NotAsked(u);
    hide Count, Base, AskedOk;
  }

  lemma EndBuyInv(s: State)
    requires Inv(s) && !s.ended && s.pending.None? && s.phase == BuyPhase
    ensures Inv(ApplyEndPhase(s).state) && Stepped(s, ApplyEndPhase(s).state, true)
  {
    var t, u := CleanupAndEndTurn(s), ApplyEndPhase(s).state;
    PassedCleanly(s);
    EndBuyIs(s);
    hide Count, CleanupAndEndTurn, Base, ApplyEndPhase;
    assert Inv(u) by {
      FlagsKeepBase(t, u);
      NotAsked(u);
      hide AskedOk, IsGameOver;
    }
    EndBuySteps(s, t, u);
  }

  lemma EndBuySteps(s: State, t: State, u: State)
    requires Conserved(s, t) && 0 < |s.players| == |t.players| && t.phase == ActionPhase && !t.ended
    requires t.supply == s.supply && t.decisionSeq == s.decisionSeq && t.starting == s.starting && t.seed == s.seed
    requires t.current == (s.current + 1) % |s.players| && t.pending.None?
    requires t.turn == (if t.current == s.starting then s.turn + 1 else s.turn)
    requires u == t.(ended := u.ended, winners := u.winners, log := u.log) && u.ended == IsGameOver(t.supply)
    ensures Stepped(s, u, true)
  {
    assert forall c :: Count(u, c) == Count(t, c);
    hide Count, IsGameOver;
  }

  lemma EndBuyIs(s: State)
    requires s.players != [] && s.phase == BuyPhase
    ensures var t, u := CleanupAndEndTurn(s), ApplyEndPhase(s).state;
            u == t.(ended := u.ended, winners := u.winners, log := u.log) &&
            u.ended == (t.ended || IsGameOver(t.supply))
  {
    hide CleanupAndEndTurn, IsGameOver, Scores, DetermineWinners;
  }

  lemma EndPhaseInv(s: State)
    requires Inv(s) && !s.ended && s.pending.None?
    ensures Inv(ApplyEndPhase(s).state) && Stepped(s, ApplyEndPhase(s).state, s.phase == BuyPhase)
  {
    NoCleanup(s);
    hide Inv, Stepped, ApplyEndPhase;
    if s.phase == ActionPhase { EndActionInv(s); } else { EndBuyInv(s); }
  }

  lemma NoCleanup(s: State)
    requires Base(s)
    ensures s.phase != CleanupPhase && s.current < |s.players|
  {
  }

  lemma PassedCleanly(s: State)
    requires Base(s) && s.pending.None? && !s.ended
    ensures s.players != []
    ensures var t := CleanupAndEndTurn(s);
            && Base(t) && Conserved(s, t) && t.pending.None? && !t.ended && t.phase == ActionPhase
            && t.supply == s.supply && t.decisionSeq == s.decisionSeq && t.starting == s.starting && t.seed == s.seed
            && t.current == (s.current + 1) % |s.players|
            && t.turn == (if t.current == s.starting then s.turn + 1 else s.turn)
            && t.P(t.current).setAside == []
  {
    hide CleanupAndEndTurn, Conserved, Base, Idle, Tally, AskedOk;
    NoCleanup(s);
    CleanupPasses(s);
    TurnPassedInv(s, CleanupAndEndTurn(s));
  }

  lemma EndPhaseAccepted(s: State)
    requires Inv(s)
    ensures s.players != [] && ApplyEndPhase(s).error.None?
  {
    NoCleanup(s);
    hide Inv, CleanupAndEndTurn, Scores, DetermineWinners, IsGameOver;
  }

  lemma ResolveStepped(s: State, px: nat, id: string, answer: Answer)
    requires Inv(s) && !s.ended
    ensures var r := ApplyResolveDecision(s, px, id, answer);
            Inv(r.state) && !r.state.ended && Stepped(s, r.state, false)
  {
    ResolveInv(s, px, id, answer);
    SteppedSelf(s);
    var s0 := s.(pending := None);
    PlaysFieldFrame(s0, s0);
    assert forall c :: Count(s0, c) == Count(s, c);
    var t := ApplyResolveDecision(s, px, id, answer).state;
    hide ApplyResolveDecision, Inv, Stepped, Frame, Count;
    if ResolveGuard(s, px, id).None? {
      FrameStepped(s0, t);
      SteppedFrom(s, s0, t);
    }
  }

  /** Every action, accepted or rejected, keeps the invariant, makes or loses no card, only shrinks piles, and moves
      decision numbers forward. */
  lemma ApplyInv(s: State, act: Action)
    requires Inv(s)
    ensures Inv(Apply(s, act).state) && Stepped(s, Apply(s, act).state, EndsTurn(s, act))
  {
    SteppedSelf(s);
    hide ApplyResolveDecision, ApplyPlayCard, ApplyBuyCard, ApplyEndPhase, Stepped;
    if !s.ended {
      if s.pending.Some? {
        if act.ResolveDecision? { ResolveStepped(s, act.player, act.decisionId, act.answer); }
      } else if act.player == s.current {
        match act
        case PlayCard(_, c) => PlayInv(s, c);
        case BuyCard(_, c) => BuyInv(s, c);
        case EndPhase(_) => EndPhaseInv(s);
        case ResolveDecision(_, _, _) =>
      }
    }
  }

  // ----- Runs -----

  /** The state after a list of actions, each of them accepted or rejected. */
  function Run(s: State, acts: seq<Action>): (t: State)
    requires s.players != []
    ensures |t.players| == |s.players|
    decreases |acts|
  {
    if acts == [] then s else Run(Apply(s, acts[0]).state, acts[1..])
  }

  lemma {:induction false} RunInv(s: State, acts: seq<Action>)
    requires Inv(s)
    ensures Inv(Run(s, acts))
    decreases |acts|
  {
    hide Apply;
    if acts != [] {
      ApplyInv(s, acts[0]);
      RunInv(Apply(s, acts[0]).state, acts[1..]);
    }
  }
}
