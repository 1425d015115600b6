/** What each card does when it is played and when its decision is answered. */
module Effects {
  import opened Cards
  import opened States
  import opened Zones
  import opened Primitives

  // ----- Helpers shared by several cards -----

  predicate HasAction(hand: seq<Card>) {
    exists c | c in hand :: IsAction(c)
  }

  predicate HasTreasure(hand: seq<Card>) {
    exists c | c in hand :: IsTreasure(c)
  }

  /** How many supply piles are empty. */
  function EmptyPiles(supply: map<Card, int>): nat {
    |set c | c in supply && supply[c] <= 0|
  }

  function DiscardEvents(px: nat, cards: seq<Card>): seq<Event> {
    seq(|cards|, i requires 0 <= i < |cards| => CardDiscarded(px, cards[i]))
  }

  function DeckEvents(px: nat, cards: seq<Card>): seq<Event> {
    seq(|cards|, i requires 0 <= i < |cards| => CardPutOnDeck(px, cards[i]))
  }

  function DrawEach(s: State, seats: seq<nat>): (t: State)
    ensures Unasked(s, t)
    decreases |seats|
  {
    if seats == [] then s else DrawEach(DrawCards(s, seats[0], 1), seats[1..])
  }

  function CurseEach(s: State, seats: seq<nat>): (t: State)
    ensures Unasked(s, t)
    decreases |seats|
  {
    if seats == [] then s else CurseEach(GainCard(s, seats[0], Curse, GainToDiscard), seats[1..])
  }

  // ----- Library -----

  function FlushSetAside(s: State, px: nat): (t: State)
    ensures Unasked(s, t)
  {
    var p := s.P(px);
    s.With(px, p.(discard := p.discard + p.setAside, setAside := []))
     .(log := s.log + DiscardEvents(px, p.setAside))
  }

  /** The card just drawn leaves the hand and waits to be judged. */
  function SetAsideLast(s: State, px: nat): (t: State)
    requires s.P(px).hand != []
    ensures Unasked(s, t)
  {
    var p := s.P(px);
    s.With(px, p.(hand := p.hand[..|p.hand| - 1], setAside := p.setAside + [p.hand[|p.hand| - 1]]))
  }

  /** Draws to seven cards, stopping at each Action drawn to ask about it. */
  function LibraryStep(s: State, px: nat): (t: State)
    ensures SameShape(s, t)
    decreases Available(s.P(px))
  {
    if |s.P(px).hand| >= 7 || Available(s.P(px)) == 0 then FlushSetAside(s, px)
    else
      var s1 := DrawOne(s, px);
      var drawn := s1.P(px).hand[|s1.P(px).hand| - 1];
      if IsAction(drawn) then
        RequestDecision(SetAsideLast(s1, px), px, Library, 0, SetAsideActionPrompt(drawn), CardContext(drawn))
      else LibraryStep(s1, px)
  }

  /** The player keeps the judged card. */
  function KeepDrawn(s: State, px: nat, drawn: Card): (t: State)
    ensures Unasked(s, t)
  {
    var p := s.P(px);
    s.With(px, p.(setAside := Without(p.setAside, drawn), hand := p.hand + [drawn]))
  }

  // ----- Militia -----

  function MilitiaQueue(s: State, attacker: nat, victims: seq<nat>): (t: State)
    ensures SameShape(s, t)
    decreases |victims|
  {
    if victims == [] then s
    else
      var v := victims[0];
      var size := |s.P(v).hand|;
      if size <= 3 then MilitiaQueue(s, attacker, victims[1..])
      else RequestDecision(s, v, Militia, 0, DiscardFromHandPrompt(size - 3, size - 3),
                           AttackContext(attacker, victims[1..], []))
  }

  // ----- Bureaucrat -----

  function VictoriesIn(hand: seq<Card>): seq<Card> {
    if hand == [] then []
    else (if IsVictory(hand[0]) then [hand[0]] else []) + VictoriesIn(hand[1..])
  }

  /** A victim with at most one Victory has no choice: show the hand, or put that card on the deck. */
  function BureaucratUnasked(s: State, v: nat): (t: State)
    ensures Unasked(s, t)
  {
    var victories := VictoriesIn(s.P(v).hand);
    if |victories| == 0 then s.Emit(CardRevealed(v)) else MoveFromHand(s, v, victories, ToDeck)
  }

  function BureaucratQueue(s: State, attacker: nat, victims: seq<nat>): (t: State)
    ensures SameShape(s, t)
    decreases |victims|
  {
    if victims == [] then s
    else
      var v := victims[0];
      if |VictoriesIn(s.P(v).hand)| <= 1 then BureaucratQueue(BureaucratUnasked(s, v), attacker, victims[1..])
      else RequestDecision(s, v, Bureaucrat, 0, PutOnDeckPrompt([Victory]), AttackContext(attacker, victims[1..], []))
  }

  // ----- Bandit -----

  function NonCopperTreasures(cards: seq<Card>): seq<Card> {
    if cards == [] then []
    else (if IsTreasure(cards[0]) && cards[0] != Copper then [cards[0]] else []) + NonCopperTreasures(cards[1..])
  }

  /** Discards the revealed cards from the deck, leaving out those equal to `skip`. */
  function DiscardRevealed(s: State, v: nat, revealed: seq<Card>, skip: Option<Card>): (t: State)
    ensures Unasked(s, t)
    decreases |revealed|
  {
    if revealed == [] then s
    else if skip == Some(revealed[0]) then DiscardRevealed(s, v, revealed[1..], skip)
    else DiscardRevealed(DiscardFromDeck(s, v, revealed[0]), v, revealed[1..], skip)
  }

  function BanditTrash(s: State, v: nat, revealed: seq<Card>, chosen: Card): (t: State)
    ensures Unasked(s, t)
  {
    DiscardRevealed(TrashFromDeck(s, v, chosen), v, revealed, Some(chosen))
  }

  function BanditReveal(s: State, v: nat): (r: (State, seq<Card>))
    ensures Unasked(s, r.0)
  {
    var (t, revealed) := RevealFromDeck(s, v, 2);
    (t.Emit(CardRevealed(v)), revealed)
  }

  /** A victim showing at most one non-Copper Treasure has no choice. */
  function BanditUnasked(s: State, v: nat, revealed: seq<Card>): (t: State)
    ensures Unasked(s, t)
  {
    var treasures := NonCopperTreasures(revealed);
    if |treasures| == 0 then DiscardRevealed(s, v, revealed, None) else BanditTrash(s, v, revealed, treasures[0])
  }

  function BanditQueue(s: State, attacker: nat, victims: seq<nat>): (t: State)
    ensures SameShape(s, t)
    decreases |victims|
  {
    if victims == [] then s
    else
      var v := victims[0];
      var (s1, revealed) := BanditReveal(s, v);
      var treasures := NonCopperTreasures(revealed);
      if |treasures| <= 1 then BanditQueue(BanditUnasked(s1, v, revealed), attacker, victims[1..])
      else RequestDecision(s1, v, Bandit, 0, TrashFromRevealedPrompt(treasures),
                           AttackContext(attacker, victims[1..], revealed))
  }

  // ----- Sentry -----

  /** Takes up to `n` cards off the deck into the set-aside zone, topmost first. */
  function Peel(p: PlayerState, n: nat): PlayerState
    decreases n
  {
    if n == 0 || p.deck == [] then p
    else
      Peel(p.(deck := p.deck[..|p.deck| - 1], setAside := p.setAside + [p.deck[|p.deck| - 1]]), n - 1)
  }

  function PeelToSetAside(s: State, px: nat, n: nat): (r: (State, seq<Card>))
    ensures Unasked(s, r.0)
  {
    var t := if |s.P(px).deck| < n && s.P(px).discard != [] then Refill(s, px) else s;
    var deck := t.P(px).deck;
    (t.With(px, Peel(t.P(px), n)), TopDown(deck, if |deck| < n then |deck| else n))
  }

  /** Moves one named card out of the set-aside zone; a card that is not there is skipped. */
  function SortOne(s: State, px: nat, c: Card, to: Target): (t: State)
    ensures Unasked(s, t)
  {
    var p := s.P(px);
    if c !in p.setAside then s else Deliver(s, px, p.(setAside := Without(p.setAside, c)), c, to)
  }

  function SortSetAside(s: State, px: nat, cards: seq<Card>, to: Target): (t: State)
    ensures Unasked(s, t)
    decreases |cards|
  {
    if cards == [] then s else SortSetAside(SortOne(s, px, cards[0], to), px, cards[1..], to)
  }

  /** After trashing: ask what to discard, unless nothing is left. */
  function SentryAfterTrash(s: State, px: nat): (t: State)
    ensures SameShape(s, t)
  {
    if s.P(px).setAside == [] then s
    else RequestDecision(s, px, Sentry, 1, DiscardFromRevealedPrompt(s.P(px).setAside), NoContext)
  }

  /** After discarding: a single card goes back unasked; two or more are ordered by the player. */
  function SentryAfterDiscard(s: State, px: nat): (t: State)
    ensures SameShape(s, t)
  {
    var p := s.P(px);
    if |p.setAside| == 0 then s
    else if |p.setAside| == 1 then
      Deliver(s, px, p.(setAside := []), p.setAside[0], ToDeck)
    else RequestDecision(s, px, Sentry, 2, ReorderCardsPrompt(p.setAside), NoContext)
  }

  /** Cards the answer did not name go on the deck as they lie. */
  function FlushToDeck(s: State, px: nat): (t: State)
    ensures Unasked(s, t)
  {
    var p := s.P(px);
    s.With(px, p.(deck := p.deck + p.setAside, setAside := [])).(log := s.log + DeckEvents(px, p.setAside))
  }

  function SentryReorder(s: State, px: nat, cards: seq<Card>): (r: Outcome)
    ensures Unasked(s, r.state)
    decreases |cards|
  {
    if cards == [] then Ok(FlushToDeck(s, px))
    else if cards[0] !in s.P(px).setAside then Fail(s, BadAnswer)
    else SentryReorder(SortOne(s, px, cards[0], ToDeck), px, cards[1..])
  }

  // ----- Playing a card -----

  function PlaySilver(s: State, px: nat): (t: State)
    ensures Unasked(s, t)
  {
    var s1 := AddCoins(s, px, 2);
    var p := s1.P(px);
    if p.firstSilver then s1
    else
      var s2 := s1.With(px, p.(firstSilver := true));
      if p.charges > 0 then AddCoins(s2, px, p.charges) else s2
  }

  function PlayMerchant(s: State, px: nat): (t: State)
    ensures Unasked(s, t)
  {
    var s1 := AddActions(DrawCards(s, px, 1), px, 1);
    s1.With(px, s1.P(px).(charges := s1.P(px).charges + 1))
  }

  function PlayHarbinger(s: State, px: nat): (t: State)
    ensures SameShape(s, t)
  {
    var s1 := AddActions(DrawCards(s, px, 1), px, 1);
    if s1.P(px).discard == [] then s1
    else RequestDecision(s1, px, Harbinger, 0, ChooseFromDiscardPrompt(s1.P(px).discard, true), NoContext)
  }

  function PlayPoacher(s: State, px: nat): (t: State)
    ensures SameShape(s, t)
  {
    var s1 := AddCoins(AddActions(DrawCards(s, px, 1), px, 1), px, 1);
    var n := EmptyPiles(s1.supply);
    if n == 0 then s1 else RequestDecision(s1, px, Poacher, 0, DiscardFromHandPrompt(n, n), NoContext)
  }

  function PlayVassal(s: State, px: nat): (t: State)
    ensures SameShape(s, t)
  {
    var (s1, revealed) := RevealAndDiscardFromDeck(s, px, 1);
    if revealed == [] || !IsAction(revealed[0]) then s1
    else RequestDecision(s1, px, Vassal, 0, MayPlayActionPrompt(revealed[0]), CardContext(revealed[0]))
  }

  function PlaySentry(s: State, px: nat): (t: State)
    ensures SameShape(s, t)
  {
    var s1 := AddActions(DrawCards(s, px, 1), px, 1);
    var (s2, revealed) := PeelToSetAside(s1, px, 2);
    if revealed == [] then s2
    else RequestDecision(s2, px, Sentry, 0, TrashFromRevealedPrompt(revealed), NoContext)
  }

  function PlayCellar(s: State, px: nat): (t: State)
    ensures SameShape(s, t)
  {
    var s1 := AddActions(s, px, 1);
    RequestDecision(s1, px, Cellar, 0, DiscardFromHandPrompt(0, |s1.P(px).hand|), NoContext)
  }

  function PlayCouncilRoom(s: State, px: nat): (t: State)
    ensures Unasked(s, t)
  {
    DrawEach(AddBuys(DrawCards(s, px, 4), px, 1), Others(|s.players|, px))
  }

  function PlayMilitia(s: State, px: nat): (t: State)
    ensures SameShape(s, t)
  {
    var (s1, victims) := ResolveAttackVictims(AddCoins(s, px, 2), px, Militia);
    MilitiaQueue(s1, px, victims)
  }

  function PlayBureaucrat(s: State, px: nat): (t: State)
    ensures SameShape(s, t)
  {
    var (s1, victims) := ResolveAttackVictims(GainCard(s, px, Silver, GainToDeck), px, Bureaucrat);
    BureaucratQueue(s1, px, victims)
  }

  function PlayBandit(s: State, px: nat): (t: State)
    ensures SameShape(s, t)
  {
    var (s1, victims) := ResolveAttackVictims(GainCard(s, px, Gold, GainToDiscard), px, Bandit);
    BanditQueue(s1, px, victims)
  }

  function PlayWitch(s: State, px: nat): (t: State)
    ensures Unasked(s, t)
  {
    var (s1, victims) := ResolveAttackVictims(DrawCards(s, px, 2), px, Witch);
    CurseEach(s1, victims)
  }

  /** A card's play effect; cards without one leave the state alone. */
  function OnPlay(s: State, px: nat, c: Card): (t: State)
    ensures SameShape(s, t)
  {
    match c
    case Copper => AddCoins(s, px, 1)
    case Silver => PlaySilver(s, px)
    case Gold => AddCoins(s, px, 3)
    case Estate | Duchy | Province | Curse | Gardens | Unknown(_) => s
    case Artisan => RequestDecision(s, px, Artisan, 0, GainFromSupplyPrompt(5, [], GainToHand), NoContext)
    case Bandit => PlayBandit(s, px)
    case Bureaucrat => PlayBureaucrat(s, px)
    case Cellar => PlayCellar(s, px)
    case Chapel => RequestDecision(s, px, Chapel, 0, TrashFromHandPrompt(0, 4, [], []), NoContext)
    case CouncilRoom => PlayCouncilRoom(s, px)
    case Festival => AddCoins(AddBuys(AddActions(s, px, 2), px, 1), px, 2)
    case Harbinger => PlayHarbinger(s, px)
    case Laboratory => AddActions(DrawCards(s, px, 2), px, 1)
    case Library => LibraryStep(s, px)
    case Market => AddCoins(AddBuys(AddActions(DrawCards(s, px, 1), px, 1), px, 1), px, 1)
    case Merchant => PlayMerchant(s, px)
    case Militia => PlayMilitia(s, px)
    case Mine =>
      if !HasTreasure(s.P(px).hand) then s
      else RequestDecision(s, px, Mine, 0, TrashFromHandPrompt(0, 1, [Treasure], []), NoContext)
    case Moat => DrawCards(s, px, 2)
    case Moneylender =>
      if Copper !in s.P(px).hand then s
      else RequestDecision(s, px, Moneylender, 0, TrashFromHandPrompt(0, 1, [], [Copper]), NoContext)
    case Poacher => PlayPoacher(s, px)
    case Remodel =>
      if s.P(px).hand == [] then s
      else RequestDecision(s, px, Remodel, 0, TrashFromHandPrompt(1, 1, [], []), NoContext)
    case Sentry => PlaySentry(s, px)
    case Smithy => DrawCards(s, px, 3)
    case ThroneRoom =>
      if !HasAction(s.P(px).hand) then s
      else RequestDecision(s, px, ThroneRoom, 0, ChooseActionFromHandPrompt, NoContext)
    case Vassal => PlayVassal(s, px)
    case Village => AddActions(DrawCards(s, px, 1), px, 2)
    case Witch => PlayWitch(s, px)
    case Workshop => RequestDecision(s, px, Workshop, 0, GainFromSupplyPrompt(4, [], GainToDiscard), NoContext)
  }

  /** One execution of a card's play effect, announced. */
  function PlayInPlace(s: State, px: nat, c: Card): (t: State)
    ensures SameShape(s, t)
  {
    OnPlay(s.Emit(CardPlayed(px, c)), px, c)
  }

  datatype Zone = FromHand | FromDiscard

  /** Moves a card from the hand or the discard pile into play and runs its effect. */
  function PlayCardFromZone(s: State, px: nat, c: Card, from: Zone): (r: Outcome)
    ensures SameShape(s, r.state)
  {
    var p := s.P(px);
    if !Known(c) then Fail(s, UnknownCard)
    else match from
      case FromHand =>
        if c !in p.hand then Fail(s, CardNotInHand)
        else Ok(PlayInPlace(s.With(px, p.(hand := Without(p.hand, c), inPlay := p.inPlay + [c])), px, c))
      case FromDiscard =>
        if c !in p.discard then Fail(s, CardNotInDiscard)
        else Ok(PlayInPlace(s.With(px, p.(discard := Without(p.discard, c), inPlay := p.inPlay + [c])), px, c))
  }

  // ----- Answering a decision -----

  function ResolveArtisan(s: State, d: Decision, answer: Answer): (r: Outcome)
    ensures |r.state.players| == |s.players|
  {
    if d.step > 1 then Fail(s, BadAnswer)
    else if !answer.CardChoiceAnswer? then Fail(s, Panicked)
    else if d.step == 1 then Ok(MoveFromHand(s, d.player, [answer.card], ToDeck))
    else if !Known(answer.card) then Fail(s, UnknownCard)
    else if Cost(answer.card) > 5 then Fail(s, BadAnswer)
    else Ok(RequestDecision(GainCard(s, d.player, answer.card, GainToHand), d.player, Artisan, 1,
                            PutOnDeckPrompt([]), NoContext))
  }

  function ResolveBandit(s: State, d: Decision, answer: Answer): (r: Outcome)
    ensures |r.state.players| == |s.players|
  {
    if !answer.CardChoiceAnswer? || !d.context.AttackContext? then Fail(s, Panicked)
    else if answer.card !in d.context.revealed then Fail(s, BadAnswer)
    else if !IsTreasure(answer.card) || answer.card == Copper then Fail(s, BadAnswer)
    else
      Ok(BanditQueue(BanditTrash(s, d.player, d.context.revealed, answer.card),
                     d.context.attacker, d.context.remaining))
  }

  function ResolveBureaucrat(s: State, d: Decision, answer: Answer): (r: Outcome)
    ensures |r.state.players| == |s.players|
  {
    if !answer.CardListAnswer? then Fail(s, Panicked)
    else if |answer.cards| != 1 || !IsVictory(answer.cards[0]) || answer.cards[0] !in s.P(d.player).hand then
      Fail(s, BadAnswer)
    else
      var s1 := MoveFromHand(s, d.player, answer.cards, ToDeck);
      if !d.context.AttackContext? then Fail(s1, Panicked)
      else Ok(BureaucratQueue(s1, d.context.attacker, d.context.remaining))
  }

  function ResolveMilitia(s: State, d: Decision, answer: Answer): (r: Outcome)
    ensures |r.state.players| == |s.players|
  {
    var size := |s.P(d.player).hand|;
    if !answer.CardListAnswer? then Fail(s, Panicked)
    else if |answer.cards| != (if size <= 3 then 0 else size - 3) then Fail(s, BadAnswer)
    else
      var s1 := MoveFromHand(s, d.player, answer.cards, ToDiscard);
      if !d.context.AttackContext? then Fail(s1, Panicked)
      else Ok(MilitiaQueue(s1, d.context.attacker, d.context.remaining))
  }

  function ResolveHarbinger(s: State, d: Decision, answer: Answer): (r: Outcome)
    ensures |r.state.players| == |s.players|
  {
    var p := s.P(d.player);
    if !answer.CardChoiceAnswer? then Fail(s, Panicked)
    else if answer.none || answer.card !in p.discard then Ok(s)
    else Ok(s.With(d.player, p.(discard := Without(p.discard, answer.card), deck := p.deck + [answer.card])))
  }

  function ResolveLibrary(s: State, d: Decision, answer: Answer): (r: Outcome)
    ensures |r.state.players| == |s.players|
  {
    if !answer.YesNoAnswer? || !d.context.CardContext? then Fail(s, BadAnswer)
    else Ok(LibraryStep(if answer.yes then s else KeepDrawn(s, d.player, d.context.card), d.player))
  }

  function ResolveMine(s: State, d: Decision, answer: Answer): (r: Outcome)
    ensures |r.state.players| == |s.players|
  {
    if d.step == 0 then
      if !answer.CardListAnswer? then Fail(s, Panicked)
      else if answer.cards == [] then Ok(s)
      else
        var s1 := MoveFromHand(s, d.player, answer.cards, ToTrash);
        var trashed := answer.cards[0];
        if !Known(trashed) then Fail(s1, UnknownCard)
        else Ok(RequestDecision(s1, d.player, Mine, 1, GainFromSupplyPrompt(Cost(trashed) + 3, [Treasure], GainToHand),
                                CostContext(Cost(trashed))))
    else if d.step == 1 then
      if !answer.CardChoiceAnswer? then Fail(s, Panicked)
      else if !Known(answer.card) then Fail(s, UnknownCard)
      else if !d.context.CostContext? then Fail(s, Panicked)
      else if Cost(answer.card) > d.context.trashedCost + 3 || !IsTreasure(answer.card) then Fail(s, BadAnswer)
      else Ok(GainCard(s, d.player, answer.card, GainToHand))
    else Fail(s, BadAnswer)
  }

  function ResolveRemodel(s: State, d: Decision, answer: Answer): (r: Outcome)
    ensures |r.state.players| == |s.players|
  {
    if d.step == 0 then
      if !answer.CardListAnswer? then Fail(s, Panicked)
      else if |answer.cards| != 1 then Fail(s, BadAnswer)
      else
        var s1 := MoveFromHand(s, d.player, answer.cards, ToTrash);
        var trashed := answer.cards[0];
        if !Known(trashed) then Fail(s1, UnknownCard)
        else Ok(RequestDecision(s1, d.player, Remodel, 1, GainFromSupplyPrompt(Cost(trashed) + 2, [], GainToDiscard),
                                CostContext(Cost(trashed))))
    else if d.step == 1 then
      if !answer.CardChoiceAnswer? then Fail(s, Panicked)
      else if !Known(answer.card) then Fail(s, UnknownCard)
      else if !d.context.CostContext? then Fail(s, Panicked)
      else if Cost(answer.card) > d.context.trashedCost + 2 then Fail(s, BadAnswer)
      else Ok(GainCard(s, d.player, answer.card, GainToDiscard))
    else Fail(s, BadAnswer)
  }

  function ResolveMoneylender(s: State, d: Decision, answer: Answer): (r: Outcome)
    ensures |r.state.players| == |s.players|
  {
    if !answer.CardListAnswer? then Fail(s, Panicked)
    else if answer.cards == [] then Ok(s)
    else Ok(AddCoins(MoveFromHand(s, d.player, answer.cards, ToTrash), d.player, 3))
  }

  function ResolveCellar(s: State, d: Decision, answer: Answer): (r: Outcome)
    ensures |r.state.players| == |s.players|
  {
    if !answer.CardListAnswer? then Fail(s, Panicked)
    else Ok(DrawCards(MoveFromHand(s, d.player, answer.cards, ToDiscard), d.player, |answer.cards|))
  }

  function ResolveSentry(s: State, d: Decision, answer: Answer): (r: Outcome)
    ensures |r.state.players| == |s.players|
  {
    if !answer.CardListAnswer? then Fail(s, BadAnswer)
    else if d.step == 0 then Ok(SentryAfterTrash(SortSetAside(s, d.player, answer.cards, ToTrash), d.player))
    else if d.step == 1 then Ok(SentryAfterDiscard(SortSetAside(s, d.player, answer.cards, ToDiscard), d.player))
    else if d.step == 2 then SentryReorder(s, d.player, answer.cards)
    else Ok(s)
  }

  /** The chosen card goes into play, one replay is owed for later, and the first play runs now. */
  function ResolveThroneRoom(s: State, d: Decision, answer: Answer): (r: Outcome)
    ensures |r.state.players| == |s.players|
  {
    var p := s.P(d.player);
    if !answer.CardChoiceAnswer? then Fail(s, BadAnswer)
    else if answer.card !in p.hand then Fail(s, CardNotInHand)
    else
      var s1 := s.With(d.player, p.(hand := Without(p.hand, answer.card), inPlay := p.inPlay + [answer.card]))
                 .(plays := s.plays + [PendingPlay(d.player, answer.card, ThroneRoom)])
                 .Emit(CardPlayed(d.player, answer.card));
      if !Known(answer.card) then Fail(s1, UnknownCard) else Ok(OnPlay(s1, d.player, answer.card))
  }

  function ResolveVassal(s: State, d: Decision, answer: Answer): (r: Outcome)
    ensures |r.state.players| == |s.players|
  {
    if !answer.YesNoAnswer? then Fail(s, Panicked)
    else if !answer.yes then Ok(s)
    else if !d.context.CardContext? then Fail(s, Panicked)
    else PlayCardFromZone(s, d.player, d.context.card, FromDiscard)
  }

  function ResolveWorkshop(s: State, d: Decision, answer: Answer): (r: Outcome)
    ensures |r.state.players| == |s.players|
  {
    if !answer.CardChoiceAnswer? then Fail(s, Panicked)
    else if !Known(answer.card) then Fail(s, UnknownCard)
    else if !d.prompt.GainFromSupplyPrompt? then Fail(s, Panicked)
    else if Cost(answer.card) > d.prompt.maxCost then Fail(s, BadAnswer)
    else Ok(GainCard(s, d.player, answer.card, d.prompt.dest))
  }

  /** The cards that ask for decisions. */
  predicate HasResolve(c: Card) {
    c in {Artisan, Bandit, Bureaucrat, Cellar, Chapel, Harbinger, Library, Militia, Mine, Moneylender,
          Poacher, Remodel, Sentry, ThroneRoom, Vassal, Workshop}
  }

  /** Resumes a suspended card with the player's answer. */
  function OnResolve(s: State, d: Decision, answer: Answer): (r: Outcome)
    ensures |r.state.players| == |s.players|
  {
    match d.card
    case Artisan => ResolveArtisan(s, d, answer)
    case Bandit => ResolveBandit(s, d, answer)
    case Bureaucrat => ResolveBureaucrat(s, d, answer)
    case Cellar => ResolveCellar(s, d, answer)
    case Chapel =>
      if !answer.CardListAnswer? then Fail(s, Panicked) else Ok(MoveFromHand(s, d.player, answer.cards, ToTrash))
    case Harbinger => ResolveHarbinger(s, d, answer)
    case Library => ResolveLibrary(s, d, answer)
    case Militia => ResolveMilitia(s, d, answer)
    case Mine => ResolveMine(s, d, answer)
    case Moneylender => ResolveMoneylender(s, d, answer)
    case Poacher =>
      if !answer.CardListAnswer? then Fail(s, Panicked) else Ok(MoveFromHand(s, d.player, answer.cards, ToDiscard))
    case Remodel => ResolveRemodel(s, d, answer)
    case Sentry => ResolveSentry(s, d, answer)
    case ThroneRoom => ResolveThroneRoom(s, d, answer)
    case Vassal => ResolveVassal(s, d, answer)
    case Workshop => ResolveWorkshop(s, d, answer)
    case _ => Fail(s, NoResolveHandler)
  }
}
