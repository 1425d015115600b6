/** How suspended cards resume with an answer, in place. Each method is proved against the effect of the same name on
    states, errors included. */
module CardAnswers {
  import opened Cards
  import opened States
  import opened GameStates
  import opened CardCode
  import P = Primitives
  import E = Effects

  method ResolveArtisan(gs: GameState, d: Decision, answer: Answer) returns (err: Option<Error>)
    modifies gs
    ensures Outcome(gs.Model(), err) == E.ResolveArtisan(old(gs.Model()), d, answer)
  {
    hide P.MoveFromHand, P.GainCard, P.RequestDecision;
    if d.step > 1 { return Some(BadAnswer); }
    if !answer.CardChoiceAnswer? { return Some(Panicked); }
    if d.step == 1 {
      gs.MoveFromHand(d.player, [answer.card], P.ToDeck);
      return None;
    }
    if !Known(answer.card) { return Some(UnknownCard); }
    if Cost(answer.card) > 5 { return Some(BadAnswer); }
    gs.GainCard(d.player, answer.card, GainToHand);
    gs.RequestDecision(d.player, Artisan, 1, PutOnDeckPrompt([]), NoContext);
    return None;
  }

  method ResolveBandit(gs: GameState, d: Decision, answer: Answer) returns (err: Option<Error>)
    modifies gs
    ensures Outcome(gs.Model(), err) == E.ResolveBandit(old(gs.Model()), d, answer)
  {
    hide E.BanditTrash, E.BanditQueue;
    if !answer.CardChoiceAnswer? || !d.context.AttackContext? { return Some(Panicked); }
    if answer.card !in d.context.revealed { return Some(BadAnswer); }
    if !IsTreasure(answer.card) || answer.card == Copper { return Some(BadAnswer); }
    BanditTrash(gs, d.player, d.context.revealed, answer.card);
    BanditQueue(gs, d.context.attacker, d.context.remaining);
    return None;
  }

  method ResolveBureaucrat(gs: GameState, d: Decision, answer: Answer) returns (err: Option<Error>)
    modifies gs
    ensures Outcome(gs.Model(), err) == E.ResolveBureaucrat(old(gs.Model()), d, answer)
  {
    hide P.MoveFromHand, E.BureaucratQueue;
    if !answer.CardListAnswer? { return Some(Panicked); }
    if |answer.cards| != 1 || !IsVictory(answer.cards[0]) { return Some(BadAnswer); }
    if answer.cards[0] !in gs.Seat(d.player).hand { return Some(BadAnswer); }
    gs.MoveFromHand(d.player, answer.cards, P.ToDeck);
    if !d.context.AttackContext? { return Some(Panicked); }
    BureaucratQueue(gs, d.context.attacker, d.context.remaining);
    return None;
  }

  method ResolveMilitia(gs: GameState, d: Decision, answer: Answer) returns (err: Option<Error>)
    modifies gs
    ensures Outcome(gs.Model(), err) == E.ResolveMilitia(old(gs.Model()), d, answer)
  {
    hide P.MoveFromHand, E.MilitiaQueue;
    if !answer.CardListAnswer? { return Some(Panicked); }
    var expected := |gs.Seat(d.player).hand| - 3;
    if expected < 0 { expected := 0; }
    if |answer.cards| != expected { return Some(BadAnswer); }
    gs.MoveFromHand(d.player, answer.cards, P.ToDiscard);
    if !d.context.AttackContext? { return Some(Panicked); }
    MilitiaQueue(gs, d.context.attacker, d.context.remaining);
    return None;
  }

  method ResolveHarbinger(gs: GameState, d: Decision, answer: Answer) returns (err: Option<Error>)
    modifies gs
    ensures Outcome(gs.Model(), err) == E.ResolveHarbinger(old(gs.Model()), d, answer)
  {
    if !answer.CardChoiceAnswer? { return Some(Panicked); }
    if answer.none { return None; }
    var p := gs.Seat(d.player);
    var found, rest := TakeOut(p.discard, answer.card);
    if !found { return None; }
    gs.SetSeat(d.player, p.(discard := rest, deck := p.deck + [answer.card]));
    return None;
  }

  /** "Yes" leaves the card set aside; "no" takes it back into the hand. */
  method ResolveLibrary(gs: GameState, d: Decision, answer: Answer) returns (err: Option<Error>)
    requires d.player < |gs.players|
    modifies gs
    ensures Outcome(gs.Model(), err) == E.ResolveLibrary(old(gs.Model()), d, answer)
  {
    hide E.LibraryStep;
    if !answer.YesNoAnswer? || !d.context.CardContext? { return Some(BadAnswer); }
    if !answer.yes {
      var drawn := d.context.card;
      var p := gs.Seat(d.player);
      var _, aside := TakeOut(p.setAside, drawn);
      gs.SetSeat(d.player, p.(setAside := aside, hand := p.hand + [drawn]));
    }
    LibraryStep(gs, d.player);
    return None;
  }

  method ResolveMine(gs: GameState, d: Decision, answer: Answer) returns (err: Option<Error>)
    modifies gs
    ensures Outcome(gs.Model(), err) == E.ResolveMine(old(gs.Model()), d, answer)
  {
    hide P.MoveFromHand, P.GainCard, P.RequestDecision, Cost;
    if d.step == 0 {
      if !answer.CardListAnswer? { return Some(Panicked); }
      if |answer.cards| == 0 { return None; }
      var trashed := answer.cards[0];
      gs.MoveFromHand(d.player, answer.cards, P.ToTrash);
      if !Known(trashed) { return Some(UnknownCard); }
      gs.RequestDecision(d.player, Mine, 1, GainFromSupplyPrompt(Cost(trashed) + 3, [Treasure], GainToHand),
                         CostContext(Cost(trashed)));
      return None;
    }
    if d.step == 1 {
      if !answer.CardChoiceAnswer? { return Some(Panicked); }
      if !Known(answer.card) { return Some(UnknownCard); }
      if !d.context.CostContext? { return Some(Panicked); }
      if Cost(answer.card) > d.context.trashedCost + 3 || !IsTreasure(answer.card) { return Some(BadAnswer); }
      gs.GainCard(d.player, answer.card, GainToHand);
      return None;
    }
    return Some(BadAnswer);
  }

  method ResolveRemodel(gs: GameState, d: Decision, answer: Answer) returns (err: Option<Error>)
    modifies gs
    ensures Outcome(gs.Model(), err) == E.ResolveRemodel(old(gs.Model()), d, answer)
  {
    hide P.MoveFromHand, P.GainCard, P.RequestDecision, Cost;
    if d.step == 0 {
      if !answer.CardListAnswer? { return Some(Panicked); }
      if |answer.cards| != 1 { return Some(BadAnswer); }
      var trashed := answer.cards[0];
      gs.MoveFromHand(d.player, answer.cards, P.ToTrash);
      if !Known(trashed) { return Some(UnknownCard); }
      gs.RequestDecision(d.player, Remodel, 1, GainFromSupplyPrompt(Cost(trashed) + 2, [], GainToDiscard),
                         CostContext(Cost(trashed)));
      return None;
    }
    if d.step == 1 {
      if !answer.CardChoiceAnswer? { return Some(Panicked); }
      if !Known(answer.card) { return Some(UnknownCard); }
      if !d.context.CostContext? { return Some(Panicked); }
      if Cost(answer.card) > d.context.trashedCost + 2 { return Some(BadAnswer); }
      gs.GainCard(d.player, answer.card, GainToDiscard);
      return None;
    }
    return Some(BadAnswer);
  }

  /** Chapel, Poacher, Moneylender and Cellar take any list. */
  method ResolveList(gs: GameState, d: Decision, answer: Answer) returns (err: Option<Error>)
    requires d.card.Chapel? || d.card.Poacher? || d.card.Moneylender? || d.card.Cellar?
    modifies gs
    ensures Outcome(gs.Model(), err) == E.OnResolve(old(gs.Model()), d, answer)
  {
    hide E.ResolveArtisan, E.ResolveBandit, E.ResolveBureaucrat, E.ResolveHarbinger, E.ResolveLibrary, E.ResolveMilitia,
      E.ResolveMine, E.ResolveRemodel, E.ResolveSentry, E.ResolveThroneRoom, E.ResolveVassal, E.ResolveWorkshop,
      P.MoveFromHand, P.AddCoins, P.DrawCards;
    if !answer.CardListAnswer? { return Some(Panicked); }
    match d.card {
      case Chapel => gs.MoveFromHand(d.player, answer.cards, P.ToTrash);
      case Poacher => gs.MoveFromHand(d.player, answer.cards, P.ToDiscard);
      case Moneylender =>
        if |answer.cards| == 0 { return None; }
        gs.MoveFromHand(d.player, answer.cards, P.ToTrash);
        gs.AddCoins(d.player, 3);
      case Cellar =>
        gs.MoveFromHand(d.player, answer.cards, P.ToDiscard);
        gs.DrawCards(d.player, |answer.cards|);
    }
    return None;
  }

  method ResolveSentry(gs: GameState, d: Decision, answer: Answer) returns (err: Option<Error>)
    requires d.player < |gs.players|
    modifies gs
    ensures Outcome(gs.Model(), err) == E.ResolveSentry(old(gs.Model()), d, answer)
  {
    hide E.SortSetAside, E.SentryAfterTrash, E.SentryAfterDiscard, E.SentryReorder;
    if !answer.CardListAnswer? { return Some(BadAnswer); }
    if d.step == 0 {
      SortSetAside(gs, d.player, answer.cards, P.ToTrash);
      SentryAfterTrash(gs, d.player);
    } else if d.step == 1 {
      SortSetAside(gs, d.player, answer.cards, P.ToDiscard);
      SentryAfterDiscard(gs, d.player);
    } else if d.step == 2 {
      err := SentryReorder(gs, d.player, answer.cards);
      return err;
    }
    return None;
  }

  /** The chosen card goes into play, its second play is owed, and its first play runs now. */
  method ResolveThroneRoom(gs: GameState, d: Decision, answer: Answer) returns (err: Option<Error>)
    requires d.player < |gs.players|
    modifies gs
    ensures Outcome(gs.Model(), err) == E.ResolveThroneRoom(old(gs.Model()), d, answer)
  {
    hide E.OnPlay;
    if !answer.CardChoiceAnswer? { return Some(BadAnswer); }
    var p := gs.Seat(d.player);
    var found, rest := TakeOut(p.hand, answer.card);
    if !found { return Some(CardNotInHand); }
    gs.SetSeat(d.player, p.(hand := rest, inPlay := p.inPlay + [answer.card]));
    gs.Emit(CardPlayed(d.player, answer.card));
    gs.plays := gs.plays + [PendingPlay(d.player, answer.card, ThroneRoom)];
    if !Known(answer.card) { return Some(UnknownCard); }
    OnPlay(gs, d.player, answer.card);
    return None;
  }

  method ResolveVassal(gs: GameState, d: Decision, answer: Answer) returns (err: Option<Error>)
    requires d.player < |gs.players|
    modifies gs
    ensures Outcome(gs.Model(), err) == E.ResolveVassal(old(gs.Model()), d, answer)
  {
    hide E.PlayCardFromZone;
    if !answer.YesNoAnswer? { return Some(Panicked); }
    if !answer.yes { return None; }
    if !d.context.CardContext? { return Some(Panicked); }
    err := PlayCardFromZone(gs, d.player, d.context.card, E.FromDiscard);
  }

  method ResolveWorkshop(gs: GameState, d: Decision, answer: Answer) returns (err: Option<Error>)
    modifies gs
    ensures Outcome(gs.Model(), err) == E.ResolveWorkshop(old(gs.Model()), d, answer)
  {
    hide P.GainCard, Cost;
    if !answer.CardChoiceAnswer? { return Some(Panicked); }
    if !Known(answer.card) { return Some(UnknownCard); }
    if !d.prompt.GainFromSupplyPrompt? { return Some(Panicked); }
    if Cost(answer.card) > d.prompt.maxCost { return Some(BadAnswer); }
    gs.GainCard(d.player, answer.card, d.prompt.dest);
    return None;
  }

  method OnResolve(gs: GameState, d: Decision, answer: Answer) returns (err: Option<Error>)
    requires d.player < |gs.players|
    modifies gs
    ensures Outcome(gs.Model(), err) == E.OnResolve(old(gs.Model()), d, answer)
  {
    hide E.ResolveArtisan, E.ResolveBandit, E.ResolveBureaucrat, E.ResolveCellar, E.ResolveHarbinger, E.ResolveLibrary,
      E.ResolveMilitia, E.ResolveMine, E.ResolveMoneylender, E.ResolveRemodel, E.ResolveSentry, E.ResolveThroneRoom,
      E.ResolveVassal, E.ResolveWorkshop, P.MoveFromHand;
    match d.card {
      case Artisan => err := ResolveArtisan(gs, d, answer);
      case Bandit => err := ResolveBandit(gs, d, answer);
      case Bureaucrat => err := ResolveBureaucrat(gs, d, answer);
      case Cellar | Chapel | Moneylender | Poacher => err := ResolveList(gs, d, answer);
      case Harbinger => err := ResolveHarbinger(gs, d, answer);
      case Library => err := ResolveLibrary(gs, d, answer);
      case Militia => err := ResolveMilitia(gs, d, answer);
      case Mine => err := ResolveMine(gs, d, answer);
      case Remodel => err := ResolveRemodel(gs, d, answer);
      case Sentry => err := ResolveSentry(gs, d, answer);
      case ThroneRoom => err := ResolveThroneRoom(gs, d, answer);
      case Vassal => err := ResolveVassal(gs, d, answer);
      case Workshop => err := ResolveWorkshop(gs, d, answer);
      case _ => err := Some(NoResolveHandler);
    }
  }
}
