/** The engine's entry point: one action applied to one state. */
module Engine {
  import opened Cards
  import opened States
  import opened Primitives
  import opened Effects

  // ----- Scoring -----

  predicate IsGameOver(supply: map<Card, int>) {
    (if Province in supply then supply[Province] else 0) <= 0 || EmptyPiles(supply) >= 3
  }

  /** Victory points of the cards of one zone for an owner of `owned` cards. */
  function ZoneScore(cards: seq<Card>, owned: nat): int {
    if cards == [] then 0
    else ZoneScore(cards[..|cards| - 1], owned) + VictoryPoints(cards[|cards| - 1], owned)
  }

  function OwnedCount(p: PlayerState): nat {
    |p.hand| + |p.deck| + |p.discard| + |p.inPlay| + |p.setAside|
  }

  function ComputeScore(p: PlayerState): int {
    var n := OwnedCount(p);
    ZoneScore(p.hand, n) + ZoneScore(p.deck, n) + ZoneScore(p.discard, n) + ZoneScore(p.inPlay, n)
  }

  function Scores(players: seq<PlayerState>): (r: seq<int>)
    ensures |r| == |players|
    ensures forall i :: 0 <= i < |r| ==> r[i] == ComputeScore(players[i])
  {
    seq(|players|, i requires 0 <= i < |players| => ComputeScore(players[i]))
  }

  function MaxOf(scores: seq<int>): (m: int)
    requires scores != []
    ensures m in scores
    ensures forall i :: 0 <= i < |scores| ==> scores[i] <= m
  {
    var last := scores[|scores| - 1];
    if |scores| == 1 then last
    else
      var rest := MaxOf(scores[..|scores| - 1]);
      if last > rest then last else rest
  }

  /** The indices, below `n`, of the entries equal to `best`. */
  function IndicesOf(scores: seq<int>, best: int, n: nat): (r: seq<nat>)
    requires n <= |scores|
    ensures forall i: nat :: i in r <==> i < n && scores[i] == best
    ensures forall i, j :: 0 <= i < j < |r| ==> r[i] < r[j]
  {
    if n == 0 then []
    else
      var rest := IndicesOf(scores, best, n - 1);
      assert forall i :: 0 <= i < |rest| ==> rest[i] in rest;
      if scores[n - 1] == best then rest + [n - 1] else rest
  }

  function DetermineWinners(scores: seq<int>): seq<nat> {
    if scores == [] then [] else IndicesOf(scores, MaxOf(scores), |scores|)
  }

  // ----- Phases -----

  /** Discards everything in front of the player, draws five cards and clears the turn's resources. */
  function CleanUpSeat(s: State, px: nat): (t: State)
    ensures |t.players| == |s.players| && t.current == s.current
  {
    var p := s.P(px);
    var pile := p.setAside + p.inPlay + p.hand;
    var s1 := s.(plays := [], log := s.log + DiscardEvents(px, pile))
               .With(px, p.(discard := p.discard + pile, setAside := [], inPlay := [], hand := []));
    var s2 := DrawCards(s1, px, 5);
    s2.With(px, s2.P(px).(actions := 0, buys := 0, coins := 0, charges := 0, firstSilver := false))
  }

  /** Hands the turn to the next seat. */
  function PassTurn(s: State): (t: State)
    requires s.players != []
    ensures |t.players| == |s.players|
  {
    var next := (s.current + 1) % |s.players|;
    var turn := if next == s.starting then s.turn + 1 else s.turn;
    s.With(next, s.P(next).(actions := 1, buys := 1, coins := 0))
     .(current := next, turn := turn, phase := ActionPhase,
       log := s.log + [PhaseChanged(next, ActionPhase), TurnStarted(next, turn)])
  }

  function CleanupAndEndTurn(s: State): (t: State)
    requires s.players != []
    ensures |t.players| == |s.players|
  {
    PassTurn(CleanUpSeat(s.(phase := CleanupPhase), s.current))
  }

  // ----- Actions -----

  function SpendAction(s: State, px: nat): (t: State)
    ensures |t.players| == |s.players|
  {
    s.With(px, s.P(px).(actions := s.P(px).actions - 1))
  }

  function PayFor(s: State, px: nat, c: Card): (t: State)
    ensures |t.players| == |s.players|
  {
    s.With(px, s.P(px).(coins := s.P(px).coins - Cost(c), buys := s.P(px).buys - 1))
  }

  function ApplyPlayCard(s: State, px: nat, c: Card): (r: Outcome)
    ensures |r.state.players| == |s.players|
  {
    if !Known(c) then Fail(s, UnknownCard)
    else match s.phase
      case ActionPhase =>
        if !IsAction(c) then Fail(s, WrongPhase)
        else if s.P(px).actions <= 0 then Fail(s, NoActions)
        else PlayCardFromZone(SpendAction(s, px), px, c, FromHand)
      case BuyPhase => if !IsTreasure(c) then Fail(s, WrongPhase) else PlayCardFromZone(s, px, c, FromHand)
      case CleanupPhase => Fail(s, WrongPhase)
  }

  function ApplyBuyCard(s: State, px: nat, c: Card): (r: Outcome)
    ensures |r.state.players| == |s.players|
  {
    if s.phase != BuyPhase then Fail(s, WrongPhase)
    else if !Known(c) then Fail(s, UnknownCard)
    else if s.Pile(c) <= 0 then Fail(s, CardNotInSupply)
    else if s.P(px).buys <= 0 then Fail(s, NoBuys)
    else if s.P(px).coins < Cost(c) then Fail(s, InsufficientCoins)
    else Ok(GainCard(PayFor(s, px, c), px, c, GainToDiscard))
  }

  function ApplyEndPhase(s: State): (r: Outcome)
    requires s.players != []
    ensures |r.state.players| == |s.players|
  {
    match s.phase
    case ActionPhase => Ok(s.(phase := BuyPhase).Emit(PhaseChanged(s.current, BuyPhase)))
    case BuyPhase =>
      var t := CleanupAndEndTurn(s);
      if IsGameOver(t.supply) then
        Ok(t.(ended := true, winners := DetermineWinners(Scores(t.players))).Emit(GameEnded))
      else Ok(t)
    case CleanupPhase => Fail(s, WrongPhase)
  }

  /** Runs owed replays, latest first, until one of them asks for a decision. */
  function Unwind(s: State): (r: Outcome)
    ensures |r.state.players| == |s.players|
    decreases |s.plays|
  {
    if s.pending.Some? || s.plays == [] then Ok(s)
    else
      var pp := s.plays[|s.plays| - 1];
      var s1 := s.(plays := s.plays[..|s.plays| - 1]).Emit(CardThroned(pp.player, pp.card));
      if !Known(pp.card) then Fail(s1, UnknownCard) else Unwind(PlayInPlace(s1, pp.player, pp.card))
  }

  /** The checks a ResolveDecision message must pass before it reaches its card. */
  function ResolveGuard(s: State, px: nat, id: string): Option<Error> {
    if s.pending.None? then Some(NoDecisionPending)
    else if s.pending.value.id != id then Some(WrongDecisionId)
    else if s.pending.value.player != px then Some(NotYourTurn)
    else if !Known(s.pending.value.card) then Some(UnknownCard)
    else if !HasResolve(s.pending.value.card) then Some(NoResolveHandler)
    else None
  }

  function ApplyResolveDecision(s: State, px: nat, id: string, answer: Answer): (r: Outcome)
    ensures |r.state.players| == |s.players|
  {
    var refused := ResolveGuard(s, px, id);
    if refused.Some? then Fail(s, refused.value)
    else
      var r := OnResolve(s.(pending := None), s.pending.value, answer);
      if r.error.Some? then r else Unwind(r.state)
  }

  function Apply(s: State, act: Action): (r: Outcome)
    requires s.players != []
    ensures |r.state.players| == |s.players|
  {
    if s.ended then Fail(s, GameHasEnded)
    else if s.pending.Some? then
      if act.ResolveDecision? then ApplyResolveDecision(s, act.player, act.decisionId, act.answer)
      else Fail(s, DecisionPending)
    else if act.player != s.current then Fail(s, NotYourTurn)
    else match act
      case PlayCard(px, c) => ApplyPlayCard(s, px, c)
      case BuyCard(px, c) => ApplyBuyCard(s, px, c)
      case EndPhase(_) => ApplyEndPhase(s)
      case ResolveDecision(_, _, _) => Fail(s, NoDecisionPending)
  }
}
