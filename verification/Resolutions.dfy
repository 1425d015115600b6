/** What answering a decision keeps, whatever the answer. */
module Resolutions {
  import opened Cards
  import opened States
  import opened Zones
  import opened Primitives
  import opened Effects
  import opened Census
  import opened Frames
  import opened Invariants
  import opened Plays

  /** Only Moneylender pays on an answer. */
  function Payment(d: Decision, answer: Answer): int {
    if d.card == Moneylender && answer.CardListAnswer? && answer.cards != [] then 3 else 0
  }

  /** What an answer that plays no card hands out: Library and Sentry also use the set-aside zone. */
  function AnswerYield(d: Decision, answer: Answer): Yield {
    Yield(0, 0, Payment(d, answer), 0, false, d.card == Library || d.card == Sentry)
  }

  const ASIDE := NOTHING.(aside := true)

  /** The outcome of an answer that plays no card. */
  ghost predicate Settled(s: State, r: Outcome, y: Yield) {
    && Keeps(s, r.state, y) && AskedOk(r.state)
    && (r.error.Some? ==> r.state.pending.None?)
  }

  lemma SettledPlain(s: State, r: Outcome, y: Yield)
    requires Keeps(s, r.state, y) && AskedOk(r.state)
    requires r.error.Some? ==> r.state.pending.None?
    ensures Settled(s, r, y)
  {
  }

  lemma SettledUnasked(s: State, r: Outcome, y: Yield)
    requires Keeps(s, r.state, y) && r.state.pending.None?
    ensures Settled(s, r, y)
  {
  }

  lemma SettledFail(s: State, e: Error)
    requires s.pending.None?
    ensures Settled(s, Fail(s, e), NOTHING) && Settled(s, Fail(s, e), ASIDE)
  {
    KeepsSelf(s);
    MayTouch(s, s, NOTHING);
    SettledUnasked(s, Fail(s, e), NOTHING);
    SettledUnasked(s, Fail(s, e), ASIDE);
  }

  lemma ArtisanSettles(s: State, d: Decision, answer: Answer)
    requires s.pending.None? && s.current < |s.players| && OwnAsked(s, d)
    ensures Settled(s, ResolveArtisan(s, d, answer), NOTHING)
  {
    var r := ResolveArtisan(s, d, answer);
    KeepsSelf(s);
    hide Keeps, Settled, GainCard, MoveFromHand;
    if r.error.Some? {
      SettledFail(s, r.error.value);
    } else if d.step == 1 {
      MoveFromHandKeeps(s, s, d.player, [answer.card], ToDeck, NOTHING);
      SettledUnasked(s, r, NOTHING);
    } else {
      GainCardKeeps(s, s, d.player, answer.card, GainToHand, NOTHING);
      RequestKeeps(s, GainCard(s, d.player, answer.card, GainToHand), d.player, Artisan, 1, PutOnDeckPrompt([]),
                   NoContext, NOTHING);
      SettledPlain(s, r, NOTHING);
    }
  }

  /** After the answer `d`'s remaining victims are still opponents. */
  lemma RemainingOpponents(s: State, t: State, d: Decision)
    requires VictimAsked(s, d) && SameShape(s, t)
    ensures d.player < |s.players| && d.player != s.current && Opponents(t, d.context.remaining)
  {
    var all := [d.player] + d.context.remaining;
    assert all[0] == d.player;
    assert forall i :: 0 <= i < |d.context.remaining| ==> d.context.remaining[i] == all[i + 1];
  }

  lemma BanditSettles(s: State, d: Decision, answer: Answer)
    requires s.pending.None? && s.current < |s.players| && VictimAsked(s, d)
    ensures Settled(s, ResolveBandit(s, d, answer), NOTHING)
  {
    var r := ResolveBandit(s, d, answer);
    KeepsSelf(s);
    RemainingOpponents(s, s, d);
    hide Keeps, Settled, AskedOk, BanditTrash, BanditQueue;
    if r.error.Some? {
      SettledFail(s, r.error.value);
    } else {
      var s1 := BanditTrash(s, d.player, d.context.revealed, answer.card);
      BanditTrashKeeps(s, s, d.player, d.context.revealed, answer.card, NOTHING);
      RemainingOpponents(s, s1, d);
      BanditQueueKeeps(s, s1, d.context.remaining, NOTHING);
      SettledPlain(s, r, NOTHING);
    }
  }

  lemma BureaucratSettles(s: State, d: Decision, answer: Answer)
    requires s.pending.None? && s.current < |s.players| && VictimAsked(s, d)
    ensures Settled(s, ResolveBureaucrat(s, d, answer), NOTHING)
  {
    var r := ResolveBureaucrat(s, d, answer);
    KeepsSelf(s);
    RemainingOpponents(s, s, d);
    hide Keeps, Settled, AskedOk, MoveFromHand, BureaucratQueue;
    if r.error.Some? {
      SettledFail(s, r.error.value);
    } else {
      var s1 := MoveFromHand(s, d.player, answer.cards, ToDeck);
      MoveFromHandKeeps(s, s, d.player, answer.cards, ToDeck, NOTHING);
      RemainingOpponents(s, s1, d);
      BureaucratQueueKeeps(s, s1, d.context.remaining, NOTHING);
      SettledPlain(s, r, NOTHING);
    }
  }

  lemma MilitiaSettles(s: State, d: Decision, answer: Answer)
    requires s.pending.None? && s.current < |s.players| && VictimAsked(s, d)
    ensures Settled(s, ResolveMilitia(s, d, answer), NOTHING)
  {
    var r := ResolveMilitia(s, d, answer);
    KeepsSelf(s);
    RemainingOpponents(s, s, d);
    hide Keeps, Settled, AskedOk, MoveFromHand, MilitiaQueue;
    if r.error.Some? {
      SettledFail(s, r.error.value);
    } else {
      var s1 := MoveFromHand(s, d.player, answer.cards, ToDiscard);
      MoveFromHandKeeps(s, s, d.player, answer.cards, ToDiscard, NOTHING);
      RemainingOpponents(s, s1, d);
      MilitiaQueueKeeps(s, s1, d.context.remaining, NOTHING);
      SettledPlain(s, r, NOTHING);
    }
  }

  lemma DiscardToDeck(p: PlayerState, c: Card)
    requires c in p.discard
    ensures forall d :: Copies(p.(discard := Without(p.discard, c), deck := p.deck + [c]), d) == Copies(p, d)
  {
  }

  lemma HarbingerSettles(s: State, d: Decision, answer: Answer)
    requires s.pending.None? && s.current < |s.players| && OwnAsked(s, d)
    ensures Settled(s, ResolveHarbinger(s, d, answer), NOTHING)
  {
    var r := ResolveHarbinger(s, d, answer);
    KeepsSelf(s);
    if r.error.Some? {
      SettledFail(s, r.error.value);
    } else if r.state == s {
      SettledUnasked(s, r, NOTHING);
    } else {
      var p := s.P(d.player);
      var q := p.(discard := Without(p.discard, answer.card), deck := p.deck + [answer.card]);
      DiscardToDeck(p, answer.card);
      hide Keeps, Settled, Copies, Tally, Without;
      RearrangedKeeps(s, s, r.state, d.player, q, NOTHING);
      SettledUnasked(s, r, NOTHING);
    }
  }

  lemma LibrarySettles(s: State, d: Decision, answer: Answer)
    requires s.pending.None? && s.current < |s.players| && d.card == Library && Justified(s, d)
    ensures Settled(s, ResolveLibrary(s, d, answer), ASIDE)
  {
    var r := ResolveLibrary(s, d, answer);
    KeepsSelf(s);
    MayTouch(s, s, NOTHING);
    hide Keeps, Settled, AskedOk, LibraryStep, KeepDrawn;
    if r.error.Some? {
      SettledFail(s, r.error.value);
    } else {
      var s1 := if answer.yes then s else KeepDrawn(s, d.player, d.context.card);
      if !answer.yes { KeepDrawnKeeps(s, s, d.context.card, ASIDE); }
      LibraryStepKeeps(s, s1, ASIDE);
      SettledPlain(s, r, ASIDE);
    }
  }

  lemma SettledMine(s: State, d: Decision, answer: Answer)
    requires s.pending.None? && s.current < |s.players| && OwnAsked(s, d)
    ensures Settled(s, ResolveMine(s, d, answer), NOTHING)
  {
    var r := ResolveMine(s, d, answer);
    KeepsSelf(s);
    hide Keeps, Settled, GainCard, MoveFromHand;
    if r.error.Some? && r.state == s {
      SettledFail(s, r.error.value);
    } else if r.state == s {
      SettledUnasked(s, r, NOTHING);
    } else if d.step == 0 {
      var s1 := MoveFromHand(s, d.player, answer.cards, ToTrash);
      var cost := Cost(answer.cards[0]);
      MoveFromHandKeeps(s, s, d.player, answer.cards, ToTrash, NOTHING);
      RequestKeeps(s, s1, d.player, Mine, 1, GainFromSupplyPrompt(cost + 3, [Treasure], GainToHand), CostContext(cost),
                   NOTHING);
      SettledPlain(s, r, NOTHING);
    } else {
      GainCardKeeps(s, s, d.player, answer.card, GainToHand, NOTHING);
      SettledUnasked(s, r, NOTHING);
    }
  }

  lemma SettledRemodel(s: State, d: Decision, answer: Answer)
    requires s.pending.None? && s.current < |s.players| && OwnAsked(s, d)
    ensures Settled(s, ResolveRemodel(s, d, answer), NOTHING)
  {
    var r := ResolveRemodel(s, d, answer);
    KeepsSelf(s);
    hide Keeps, Settled, GainCard, MoveFromHand;
    if r.error.Some? && r.state == s {
      SettledFail(s, r.error.value);
    } else if d.step == 0 {
      var s1 := MoveFromHand(s, d.player, answer.cards, ToTrash);
      var cost := Cost(answer.cards[0]);
      MoveFromHandKeeps(s, s, d.player, answer.cards, ToTrash, NOTHING);
      RequestKeeps(s, s1, d.player, Remodel, 1, GainFromSupplyPrompt(cost + 2, [], GainToDiscard), CostContext(cost),
                   NOTHING);
      SettledPlain(s, r, NOTHING);
    } else {
      GainCardKeeps(s, s, d.player, answer.card, GainToDiscard, NOTHING);
      SettledUnasked(s, r, NOTHING);
    }
  }

  lemma MoneylenderSettles(s: State, d: Decision, answer: Answer)
    requires s.pending.None? && s.current < |s.players| && OwnAsked(s, d) && d.card == Moneylender
    ensures Settled(s, ResolveMoneylender(s, d, answer), NOTHING.(coins := Payment(d, answer)))
  {
    var r := ResolveMoneylender(s, d, answer);
    KeepsSelf(s);
    hide Keeps, MoveFromHand, AddCoins;
    if r.error.Some? {
      SettledFail(s, r.error.value);
    } else if answer.cards == [] {
      SettledUnasked(s, r, NOTHING);
    } else {
      var s1 := MoveFromHand(s, d.player, answer.cards, ToTrash);
      MoveFromHandKeeps(s, s, d.player, answer.cards, ToTrash, NOTHING);
      AddCoinsKeeps(s, s1, 3, NOTHING);
      NotAsked(r.state);
    }
  }

  lemma CellarSettles(s: State, d: Decision, answer: Answer)
    requires s.pending.None? && s.current < |s.players| && OwnAsked(s, d)
    ensures Settled(s, ResolveCellar(s, d, answer), NOTHING)
  {
    var r := ResolveCellar(s, d, answer);
    KeepsSelf(s);
    hide Keeps, Settled, MoveFromHand, DrawCards;
    if r.error.Some? {
      SettledFail(s, r.error.value);
    } else {
      var s1 := MoveFromHand(s, d.player, answer.cards, ToDiscard);
      MoveFromHandKeeps(s, s, d.player, answer.cards, ToDiscard, NOTHING);
      DrawCardsKeeps(s, s1, d.player, |answer.cards|, NOTHING);
      SettledUnasked(s, r, NOTHING);
    }
  }

  /** Chapel trashes and Poacher discards exactly what it is told, as far as it is in hand. */
  lemma MoveSettles(s: State, d: Decision, cards: seq<Card>, to: Target)
    requires s.pending.None? && s.current < |s.players| && OwnAsked(s, d)
    ensures Settled(s, Ok(MoveFromHand(s, d.player, cards, to)), NOTHING)
  {
    KeepsSelf(s);
    hide Keeps, Settled, MoveFromHand;
    MoveFromHandKeeps(s, s, d.player, cards, to, NOTHING);
    SettledUnasked(s, Ok(MoveFromHand(s, d.player, cards, to)), NOTHING);
  }

  lemma WorkshopSettles(s: State, d: Decision, answer: Answer)
    requires s.pending.None? && s.current < |s.players| && OwnAsked(s, d)
    ensures Settled(s, ResolveWorkshop(s, d, answer), NOTHING)
  {
    var r := ResolveWorkshop(s, d, answer);
    KeepsSelf(s);
    hide Keeps, Settled, GainCard;
    if r.error.Some? {
      SettledFail(s, r.error.value);
    } else {
      GainCardKeeps(s, s, d.player, answer.card, d.prompt.dest, NOTHING);
      SettledUnasked(s, r, NOTHING);
    }
  }

  // ----- Sentry -----

  lemma AfterTrashSettles(s: State, s1: State, px: nat)
    requires Keeps(s, s1, ASIDE) && s1.pending.None? && px == s1.current < |s1.players|
    ensures Settled(s, Ok(SentryAfterTrash(s1, px)), ASIDE)
  {
    hide Keeps, Settled;
    RequestKeeps(s, s1, px, Sentry, 1, DiscardFromRevealedPrompt(s1.P(px).setAside), NoContext, ASIDE);
    SettledPlain(s, Ok(SentryAfterTrash(s1, px)), ASIDE);
  }

  lemma LoneCardGivenUp(p: PlayerState)
    requires |p.setAside| == 1
    ensures GivesUp(p, p.(setAside := []), p.setAside[0])
  {
    assert p.setAside == [p.setAside[0]];
  }

  lemma AfterDiscardSettles(s: State, s1: State, px: nat)
    requires Keeps(s, s1, ASIDE) && s1.pending.None? && px == s1.current < |s1.players|
    ensures Settled(s, Ok(SentryAfterDiscard(s1, px)), ASIDE)
  {
    var p := s1.P(px);
    var r := SentryAfterDiscard(s1, px);
    if |p.setAside| == 1 {
      var q, c := p.(setAside := []), p.setAside[0];
      LoneCardGivenUp(p);
      NotAsked(r);
      hide Keeps, Settled, GivesUp, Deliver, AskedOk;
      DeliverKeeps(s, s1, px, q, c, ToDeck, ASIDE);
      SettledPlain(s, Ok(r), ASIDE);
    } else {
      hide Keeps, Settled;
      RequestKeeps(s, s1, px, Sentry, 2, ReorderCardsPrompt(p.setAside), NoContext, ASIDE);
      SettledPlain(s, Ok(r), ASIDE);
    }
  }

  lemma {:induction false} ReorderSettles(s: State, s1: State, px: nat, cards: seq<Card>)
    requires Keeps(s, s1, ASIDE) && s1.pending.None? && px == s1.current < |s1.players|
    ensures Settled(s, SentryReorder(s1, px, cards), ASIDE)
    decreases |cards|
  {
    hide Keeps, Settled, SortOne, AskedOk;
    if cards == [] {
      FlushKeeps(s, s1, ASIDE);
      NotAsked(FlushToDeck(s1, px));
      SettledPlain(s, SentryReorder(s1, px, cards), ASIDE);
    } else if cards[0] !in s1.P(px).setAside {
      NotAsked(s1);
      SettledPlain(s, SentryReorder(s1, px, cards), ASIDE);
    } else {
      SortOneKeeps(s, s1, px, cards[0], ToDeck, ASIDE);
      ReorderSettles(s, SortOne(s1, px, cards[0], ToDeck), px, cards[1..]);
    }
  }

  lemma SentrySettles(s: State, d: Decision, answer: Answer)
    requires s.pending.None? && s.current < |s.players| && OwnAsked(s, d)
    ensures Settled(s, ResolveSentry(s, d, answer), ASIDE)
  {
    KeepsSelf(s);
    MayTouch(s, s, NOTHING);
    var r := ResolveSentry(s, d, answer);
    var px := d.player;
    hide Keeps, Settled, SortSetAside, SentryAfterTrash, SentryAfterDiscard, SentryReorder;
    if !answer.CardListAnswer? {
      SettledFail(s, BadAnswer);
    } else if d.step == 0 {
      SortSetAsideKeeps(s, s, px, answer.cards, ToTrash, ASIDE);
      AfterTrashSettles(s, SortSetAside(s, px, answer.cards, ToTrash), px);
    } else if d.step == 1 {
      SortSetAsideKeeps(s, s, px, answer.cards, ToDiscard, ASIDE);
      AfterDiscardSettles(s, SortSetAside(s, px, answer.cards, ToDiscard), px);
    } else if d.step == 2 {
      ReorderSettles(s, s, px, answer.cards);
    } else {
      SettledUnasked(s, r, ASIDE);
    }
  }

  // ----- All answers -----

  /** An answer that plays no card: nothing is made or lost, replays and plays are untouched, at most one new
      decision is asked with good reason, and only Moneylender pays. */
  lemma ResolveSettles(s: State, d: Decision, answer: Answer)
    requires s.pending.None? && s.current < |s.players| && d.player < |s.players| && Justified(s, d)
    requires d.card != ThroneRoom && d.card != Vassal
    ensures Settled(s, OnResolve(s, d, answer), AnswerYield(d, answer))
  {
    hide Keeps, Settled, MoveFromHand, ResolveArtisan, ResolveBandit, ResolveBureaucrat, ResolveCellar,
      ResolveHarbinger, ResolveLibrary, ResolveMilitia, ResolveMine, ResolveMoneylender, ResolveRemodel, ResolveSentry,
      ResolveWorkshop;
    match d.card
    case Artisan => ArtisanSettles(s, d, answer);
    case Bandit => BanditSettles(s, d, answer);
    case Bureaucrat => BureaucratSettles(s, d, answer);
    case Cellar => CellarSettles(s, d, answer);
    case Chapel =>
      if answer.CardListAnswer? { MoveSettles(s, d, answer.cards, ToTrash); } else { SettledFail(s, Panicked); }
    case Harbinger => HarbingerSettles(s, d, answer);
    case Library => LibrarySettles(s, d, answer);
    case Militia => MilitiaSettles(s, d, answer);
    case Mine => SettledMine(s, d, answer);
    case Moneylender => MoneylenderSettles(s, d, answer);
    case Poacher =>
      if answer.CardListAnswer? { MoveSettles(s, d, answer.cards, ToDiscard); } else { SettledFail(s, Panicked); }
    case Remodel => SettledRemodel(s, d, answer);
    case Sentry => SentrySettles(s, d, answer);
    case Workshop => WorkshopSettles(s, d, answer);
  }

  // ----- Answers that play a card -----

  /** Throne Room: the chosen card is in play, owed one replay, and has been played once. */
  lemma ThroneRoomPlays(s: State, d: Decision, answer: Answer)
    requires s.pending.None? && s.current < |s.players| && OwnAsked(s, d)
    requires forall c: Card :: c.Unknown? ==> c !in s.P(s.current).hand
    ensures var r := ResolveThroneRoom(s, d, answer);
            if r.error.Some? then r.state == s
            else
              var owed := PendingPlay(s.current, answer.card, ThroneRoom);
              && answer.CardChoiceAnswer? && answer.card in s.P(s.current).hand
              && r.state.plays == s.plays + [owed]
              && PlayedFromZone(s.(plays := s.plays + [owed]), r.state, answer.card)
  {
    var p := s.P(s.current);
    if answer.CardChoiceAnswer? && answer.card in p.hand {
      var c := answer.card;
      var q := p.(hand := Without(p.hand, c), inPlay := p.inPlay + [c]);
      var s1 := s.(plays := s.plays + [PendingPlay(s.current, c, ThroneRoom)]);
      assert ResolveThroneRoom(s, d, answer) == Ok(PlayInPlace(s1.With(s.current, q), s.current, c));
      FromHandIntoPlay(p, c);
      hide PlayInPlace, Without, IntoPlay, PlayedFromZone, Printed, ResolveThroneRoom;
      EnterAndPlay(s1, q, c);
    }
  }

  /** Vassal: the revealed Action is still on the discard pile, so "yes" always plays it. */
  lemma VassalPlays(s: State, d: Decision, answer: Answer)
    requires s.pending.None? && s.current < |s.players| && d.card == Vassal && Justified(s, d)
    ensures d.context.CardContext?
    ensures var r := ResolveVassal(s, d, answer);
            if answer == YesNoAnswer(true) then r.error.None? && PlayedFromZone(s, r.state, d.context.card)
            else r.state == s && (r.error.None? <==> answer == YesNoAnswer(false))
  {
    hide PlayedFromZone;
    if answer == YesNoAnswer(true) { PlayFromZoneKeeps(s, d.context.card, FromDiscard); }
  }
}
