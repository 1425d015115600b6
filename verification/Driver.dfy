/** The engine's entry point on the mutable game state: scoring, phases and actions, in place. Each method is proved
    against the function of the same name on states. */
module Driver {
  import opened Cards
  import opened States
  import opened GameStates
  import opened CardCode
  import opened CardAnswers
  import P = Primitives
  import E = Effects
  import G = Engine
  import Inv = Runs
  import opened Invariants

  // ----- Scoring -----

  method IsGameOver(supply: map<Card, int>) returns (over: bool)
    ensures over <==> G.IsGameOver(supply)
  {
    if Province !in supply || supply[Province] <= 0 { return true; }
    var empty := CountEmptyPiles(supply);
    return empty >= 3;
  }

  method AddZone(total: int, zone: seq<Card>, owned: nat) returns (t: int)
    ensures t == total + G.ZoneScore(zone, owned)
  {
    t := total;
    var i := 0;
    while i < |zone|
      invariant i <= |zone| && t == total + G.ZoneScore(zone[..i], owned)
    {
      assert zone[..i + 1][..i] == zone[..i];
      t := t + VictoryPoints(zone[i], owned);
      i := i + 1;
    }
    assert zone[..|zone|] == zone;
  }

  /** Adds up every zone except the set-aside one. */
  method ComputeScore(p: PlayerState) returns (total: int)
    ensures total == G.ComputeScore(p)
  {
    var owned := |p.hand| + |p.deck| + |p.discard| + |p.inPlay| + |p.setAside|;
    total := AddZone(0, p.hand, owned);
    total := AddZone(total, p.deck, owned);
    total := AddZone(total, p.discard, owned);
    total := AddZone(total, p.inPlay, owned);
  }

  method ComputeScores(players: seq<PlayerState>) returns (scores: seq<int>)
    ensures scores == G.Scores(players)
  {
    hide G.ComputeScore;
    scores := [];
    var i := 0;
    while i < |players|
      invariant i <= |players| && |scores| == i
      invariant forall j :: 0 <= j < i ==> scores[j] == G.ComputeScore(players[j])
    {
      var score := ComputeScore(players[i]);
      scores := scores + [score];
      i := i + 1;
    }
  }

  lemma MaxStep(scores: seq<int>, i: nat)
    requires 0 < i < |scores|
    ensures var best := G.MaxOf(scores[..i]);
            G.MaxOf(scores[..i + 1]) == if scores[i] > best then scores[i] else best
  {
    var more := scores[..i + 1];
    assert more[..i] == scores[..i] && more[i] == scores[i] && |more| > 1;
  }

  lemma IndexStep(scores: seq<int>, best: int, i: nat)
    requires i < |scores|
    ensures G.IndicesOf(scores, best, i + 1) == G.IndicesOf(scores, best, i) + (if scores[i] == best then [i] else [])
  {
  }

  lemma FirstMax(scores: seq<int>)
    requires scores != []
    ensures G.MaxOf(scores[..1]) == scores[0]
  {
  }

  method BestOf(scores: seq<int>) returns (best: int)
    requires scores != []
    ensures best == G.MaxOf(scores)
  {
    hide G.MaxOf;
    best := scores[0];
    FirstMax(scores);
    var i := 1;
    while i < |scores|
      invariant 1 <= i <= |scores| && best == G.MaxOf(scores[..i])
    {
      MaxStep(scores, i);
      if scores[i] > best { best := scores[i]; }
      i := i + 1;
    }
    assert scores[..|scores|] == scores;
  }

  method DetermineWinners(scores: seq<int>) returns (winners: seq<nat>)
    requires scores != []
    ensures winners == G.DetermineWinners(scores)
  {
    hide G.MaxOf, G.IndicesOf;
    var best := BestOf(scores);
    winners := [];
    var i := 0;
    NoIndices(scores, best);
    while i < |scores|
      invariant i <= |scores| && winners == G.IndicesOf(scores, best, i)
    {
      IndexStep(scores, best, i);
      if scores[i] == best { winners := winners + [i]; }
      i := i + 1;
    }
  }

  lemma NoIndices(scores: seq<int>, best: int)
    ensures G.IndicesOf(scores, best, 0) == []
  {
  }

  // ----- Phases -----

  lemma DiscardTwice(s: State, px: nat, a: seq<Card>, b: seq<Card>)
    requires px < |s.players|
    ensures Discarded(Discarded(s, px, a), px, b) == Discarded(s, px, a + b)
  {
    var p := s.P(px);
    assert p.discard + a + b == p.discard + (a + b);
    assert E.DiscardEvents(px, a + b) == E.DiscardEvents(px, a) + E.DiscardEvents(px, b);
    assert s.log + E.DiscardEvents(px, a) + E.DiscardEvents(px, b) == s.log + E.DiscardEvents(px, a + b);
    hide E.DiscardEvents;
  }

  /** Three discarded zones, then emptied, are one swept seat. */
  lemma SweptIs(s: State, px: nat)
    requires px < |s.players|
    ensures var p := s.P(px);
            var pile := p.setAside + p.inPlay + p.hand;
            var t := Discarded(s, px, pile);
            t.With(px, t.P(px).(setAside := [], inPlay := [], hand := [])) ==
            s.(log := s.log + E.DiscardEvents(px, pile))
             .With(px, p.(discard := p.discard + pile, setAside := [], inPlay := [], hand := []))
  {
    hide E.DiscardEvents;
  }

  method CleanUpSeat(gs: GameState, px: nat)
    requires px < |gs.players|
    modifies gs
    ensures gs.Model() == G.CleanUpSeat(old(gs.Model()), px)
  {
    hide P.DrawCards, E.DiscardEvents;
    gs.plays := [];
    ghost var s := gs.Model();
    var p := gs.Seat(px);
    DiscardEach(gs, px, p.setAside);
    DiscardEach(gs, px, p.inPlay);
    DiscardTwice(s, px, p.setAside, p.inPlay);
    DiscardEach(gs, px, p.hand);
    DiscardTwice(s, px, p.setAside + p.inPlay, p.hand);
    SweptIs(s, px);
    gs.SetSeat(px, gs.Seat(px).(setAside := [], inPlay := [], hand := []));
    gs.DrawCards(px, 5);
    gs.SetSeat(px, gs.Seat(px).(actions := 0, buys := 0, coins := 0, charges := 0, firstSilver := false));
  }

  method NextSeat(current: nat, n: nat) returns (next: nat)
    requires n > 0
    ensures next == (current + 1) % n && next < n
  {
    next := (current + 1) % n;
  }

  method PassTurn(gs: GameState)
    requires gs.players != []
    modifies gs
    ensures gs.Model() == G.PassTurn(old(gs.Model()))
  {
    var next := NextSeat(gs.current, |gs.players|);
    gs.SetSeat(next, gs.Seat(next).(actions := 1, buys := 1, coins := 0));
    gs.current := next;
    if next == gs.starting { gs.turn := gs.turn + 1; }
    gs.phase := ActionPhase;
    gs.log := gs.log + [PhaseChanged(next, ActionPhase), TurnStarted(next, gs.turn)];
  }

  method CleanupAndEndTurn(gs: GameState)
    requires gs.current < |gs.players|
    modifies gs
    ensures gs.Model() == G.CleanupAndEndTurn(old(gs.Model()))
  {
    hide G.CleanUpSeat, G.PassTurn;
    gs.phase := CleanupPhase;
    CleanUpSeat(gs, gs.current);
    PassTurn(gs);
  }

  // ----- Actions -----

  method SpendAction(gs: GameState, px: nat)
    modifies gs
    ensures gs.Model() == G.SpendAction(old(gs.Model()), px)
    ensures |gs.players| == |old(gs.players)|
  {
    gs.SetSeat(px, gs.Seat(px).(actions := gs.Seat(px).actions - 1));
  }

  method ApplyPlayCard(gs: GameState, px: nat, c: Card) returns (err: Option<Error>)
    requires px < |gs.players|
    modifies gs
    ensures Outcome(gs.Model(), err) == G.ApplyPlayCard(old(gs.Model()), px, c)
  {
    hide E.PlayCardFromZone, Known, IsAction, IsTreasure, G.SpendAction;
    if !Known(c) { return Some(UnknownCard); }
    if gs.phase == CleanupPhase { return Some(WrongPhase); }
    if gs.phase == ActionPhase {
      if !IsAction(c) { return Some(WrongPhase); }
      if gs.Seat(px).actions <= 0 { return Some(NoActions); }
      SpendAction(gs, px);
    } else if !IsTreasure(c) {
      return Some(WrongPhase);
    }
    err := PlayCardFromZone(gs, px, c, E.FromHand);
  }

  method ApplyBuyCard(gs: GameState, px: nat, c: Card) returns (err: Option<Error>)
    modifies gs
    ensures Outcome(gs.Model(), err) == G.ApplyBuyCard(old(gs.Model()), px, c)
  {
    hide P.GainCard, Cost, Known;
    if gs.phase != BuyPhase { return Some(WrongPhase); }
    if !Known(c) { return Some(UnknownCard); }
    if gs.Pile(c) <= 0 { return Some(CardNotInSupply); }
    var p := gs.Seat(px);
    if p.buys <= 0 { return Some(NoBuys); }
    if p.coins < Cost(c) { return Some(InsufficientCoins); }
    gs.SetSeat(px, p.(coins := p.coins - Cost(c), buys := p.buys - 1));
    gs.GainCard(px, c, GainToDiscard);
    return None;
  }

  method ApplyEndPhase(gs: GameState) returns (err: Option<Error>)
    requires gs.current < |gs.players|
    modifies gs
    ensures Outcome(gs.Model(), err) == G.ApplyEndPhase(old(gs.Model()))
  {
    hide G.CleanupAndEndTurn, G.IsGameOver, G.DetermineWinners, G.ComputeScore;
    match gs.phase {
      case ActionPhase =>
        gs.phase := BuyPhase;
        gs.Emit(PhaseChanged(gs.current, BuyPhase));
        return None;
      case BuyPhase =>
        CleanupAndEndTurn(gs);
        var over := IsGameOver(gs.supply);
        if over {
          var scores := ComputeScores(gs.players);
          gs.ended := true;
          gs.winners := DetermineWinners(scores);
          gs.Emit(GameEnded);
        }
        return None;
      case CleanupPhase => return Some(WrongPhase);
    }
  }

  /** Runs owed replays, latest first, until one of them asks for a decision. */
  method Unwind(gs: GameState) returns (err: Option<Error>)
    requires gs.current < |gs.players| && Inv.OwedOk(gs.Model())
    modifies gs
    ensures Outcome(gs.Model(), err) == G.Unwind(old(gs.Model()))
  {
    hide E.PlayInPlace;
    ghost var t := gs.Model();
    while gs.pending.None? && |gs.plays| > 0
      invariant gs.current < |gs.players| && Inv.OwedOk(gs.Model())
      invariant G.Unwind(gs.Model()) == G.Unwind(t)
      decreases |gs.plays|
    {
      var last := |gs.plays| - 1;
      var pp := gs.plays[last];
      gs.plays := gs.plays[..last];
      gs.Emit(CardThroned(pp.player, pp.card));
      err := PlayCardInPlace(gs, pp.player, pp.card);
      if err.Some? { return err; }
    }
    return None;
  }

  /** Resumes the suspended card, then runs the replays its completion releases. */
  method ApplyResolveDecision(gs: GameState, px: nat, id: string, answer: Answer) returns (err: Option<Error>)
    requires Inv.Inv(gs.Model())
    modifies gs
    ensures Outcome(gs.Model(), err) == G.ApplyResolveDecision(old(gs.Model()), px, id, answer)
  {
    hide E.OnResolve, G.Unwind, Inv.Inv, Inv.OwedOk;
    ghost var s := gs.Model();
    if gs.pending.None? { return Some(NoDecisionPending); }
    var d := gs.pending.value;
    if d.id != id { return Some(WrongDecisionId); }
    if d.player != px { return Some(NotYourTurn); }
    if !Known(d.card) { return Some(UnknownCard); }
    if !E.HasResolve(d.card) { return Some(NoResolveHandler); }
    gs.pending := None;
    AnswerRange(s, answer);
    err := OnResolve(gs, d, answer);
    if err.Some? { return err; }
    err := Unwind(gs);
  }

  /** After an answer, accepted or not, owed replays still belong to seated players. */
  lemma AnswerRange(s: State, answer: Answer)
    requires Inv.Inv(s) && s.pending.Some?
    ensures s.pending.value.player < |s.players|
    ensures var t := E.OnResolve(s.(pending := None), s.pending.value, answer).state;
            t.current < |t.players| && Inv.OwedOk(t)
  {
    Inv.ClearingKeeps(s);
    hide E.OnResolve, Justified, Inv.Base, AskedOk;
    var s0 := s.(pending := None);
    assert s.pending.value.player < |s.players| by { AskedRange(s); }
    Inv.OnResolveAnswers(s0, s.pending.value, answer);
    Inv.SameTableOf(s0, E.OnResolve(s0, s.pending.value, answer).state);
    Inv.NoCleanup(s0);
  }

  lemma AskedRange(s: State)
    requires Inv.Inv(s) && s.pending.Some?
    ensures s.pending.value.player < |s.players|
  {
  }

  /** One action on the game, accepted or rejected. */
  method Apply(gs: GameState, act: Action) returns (err: Option<Error>)
    requires Inv.Inv(gs.Model())
    modifies gs
    ensures gs.Model().players != [] && old(gs.Model()).players != []
    ensures Outcome(gs.Model(), err) == G.Apply(old(gs.Model()), act)
    ensures Inv.Inv(gs.Model())
  {
    hide G.ApplyResolveDecision, G.ApplyPlayCard, G.ApplyBuyCard, G.ApplyEndPhase, Inv.Inv;
    Inv.InvSeated(gs.Model());
    Inv.ApplyInv(gs.Model(), act);
    if gs.ended { return Some(GameHasEnded); }
    if gs.pending.Some? {
      if !act.ResolveDecision? { return Some(DecisionPending); }
      err := ApplyResolveDecision(gs, act.player, act.decisionId, act.answer);
      return err;
    }
    if act.player != gs.current { return Some(NotYourTurn); }
    match act {
      case PlayCard(px, c) => err := ApplyPlayCard(gs, px, c);
      case BuyCard(px, c) => err := ApplyBuyCard(gs, px, c);
      case EndPhase(_) => err := ApplyEndPhase(gs);
      case ResolveDecision(_, _, _) => err := Some(NoDecisionPending);
    }
  }
}
