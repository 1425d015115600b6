/** Which answers a suspended card accepts, and that the answers following its prompt are among them. */
module Acceptance {
  import opened Cards
  import opened States
  import opened Zones
  import opened Primitives
  import opened Effects
  import opened Engine
  import opened Frames
  import opened Invariants
  import opened Plays
  import opened Resolutions
  import opened Runs
  import opened GameLaws
  import opened Sentries

  // ----- Answers that follow their prompt -----

  /** A filter with no types lets every card through. */
  predicate Allowed(c: Card, types: seq<CardType>) {
    types == [] || exists t | t in types :: HasType(c, t)
  }

  /** Between `min` and `max` cards of `zone`; fewer than `min` only when the zone runs out. */
  predicate Picks(cards: seq<Card>, zone: seq<Card>, min: int, max: int) {
    multiset(cards) <= multiset(zone) && |cards| <= max && (|cards| >= min || |cards| == |zone|)
  }

  /** An answer of the right kind that stays within the bounds and filters of the prompt. */
  predicate Follows(s: State, d: Decision, answer: Answer) {
    var p := s.P(d.player);
    match d.prompt
    case DiscardFromHandPrompt(min, max) => answer.CardListAnswer? && Picks(answer.cards, p.hand, min, max)
    case TrashFromHandPrompt(min, max, types, only) =>
      && answer.CardListAnswer? && Picks(answer.cards, p.hand, min, max)
      && (forall c :: c in answer.cards ==> Allowed(c, types) && (only == [] || c in only))
    case GainFromSupplyPrompt(maxCost, types, _) =>
      answer.CardChoiceAnswer? && Known(answer.card) && Cost(answer.card) <= maxCost && Allowed(answer.card, types)
    case ChooseFromDiscardPrompt(cards, optional) =>
      answer.CardChoiceAnswer? && (if answer.none then optional else answer.card in cards)
    case PutOnDeckPrompt(types) =>
      if d.card == Bureaucrat then
        answer.CardListAnswer? && |answer.cards| == 1 && answer.cards[0] in p.hand && Allowed(answer.cards[0], types)
      else answer.CardChoiceAnswer? && (p.hand == [] || (answer.card in p.hand && Allowed(answer.card, types)))
    case MayPlayActionPrompt(_) => answer.YesNoAnswer?
    case SetAsideActionPrompt(_) => answer.YesNoAnswer?
    case TrashFromRevealedPrompt(cards) =>
      if d.card == Sentry then answer.CardListAnswer? && multiset(answer.cards) <= multiset(cards)
      else answer.CardChoiceAnswer? && answer.card in cards
    case ChooseActionFromHandPrompt => answer.CardChoiceAnswer? && answer.card in p.hand && IsAction(answer.card)
    case DiscardFromRevealedPrompt(cards) => answer.CardListAnswer? && multiset(answer.cards) <= multiset(cards)
    case ReorderCardsPrompt(cards) => answer.CardListAnswer? && multiset(answer.cards) == multiset(cards)
  }

  // ----- Answers that are accepted -----

  /** What the code checks of an answer to the pending decision `d`. Most cards check less than their prompt offers:
      neither the number nor the place of listed cards, and Throne Room not even that the card is an Action. */
  predicate Takes(s: State, d: Decision, answer: Answer) {
    var p := s.P(d.player);
    match d.card
    case Cellar | Chapel | Moneylender | Poacher => answer.CardListAnswer?
    case Library | Vassal => answer.YesNoAnswer?
    case Harbinger => answer.CardChoiceAnswer?
    case Artisan => answer.CardChoiceAnswer? && (d.step == 1 || (Known(answer.card) && Cost(answer.card) <= 5))
    case Workshop => answer.CardChoiceAnswer? && Known(answer.card) && Cost(answer.card) <= 4
    case ThroneRoom => answer.CardChoiceAnswer? && answer.card in p.hand
    case Mine =>
      if d.step == 0 then answer.CardListAnswer? && (answer.cards == [] || Known(answer.cards[0]))
      else answer.CardChoiceAnswer? && IsTreasure(answer.card) && d.context.CostContext? &&
           Cost(answer.card) <= d.context.trashedCost + 3
    case Remodel =>
      if d.step == 0 then answer.CardListAnswer? && |answer.cards| == 1 && Known(answer.cards[0])
      else answer.CardChoiceAnswer? && Known(answer.card) && d.context.CostContext? &&
           Cost(answer.card) <= d.context.trashedCost + 2
    case Sentry => answer.CardListAnswer? && (d.step == 2 ==> multiset(answer.cards) <= multiset(p.setAside))
    case Bandit => answer.CardChoiceAnswer? && d.prompt.TrashFromRevealedPrompt? && answer.card in d.prompt.cards
    case Bureaucrat =>
      answer.CardListAnswer? && |answer.cards| == 1 && IsVictory(answer.cards[0]) && answer.cards[0] in p.hand
    case Militia => answer.CardListAnswer? && |answer.cards| == |p.hand| - 3
    case _ => false
  }

  lemma {:induction false} VictoriesAre(hand: seq<Card>)
    ensures forall c :: c in VictoriesIn(hand) <==> c in hand && IsVictory(c)
  {
    if hand != [] {
      VictoriesAre(hand[1..]);
      assert hand == [hand[0]] + hand[1..];
    }
  }

  lemma {:induction false} NonCopperAre(cards: seq<Card>)
    ensures forall c :: c in NonCopperTreasures(cards) <==> c in cards && IsTreasure(c) && c != Copper
  {
    if cards != [] {
      NonCopperAre(cards[1..]);
      assert cards == [cards[0]] + cards[1..];
    }
  }

  /** What `Takes` relies on: the decision is the one its card asked, and what it noted still holds. */
  ghost predicate Live(s: State, d: Decision) {
    Base(s) && s.pending.None? && d.player < |s.players| && Justified(s, d) && Prompted(s, d)
  }

  lemma OwnTaken(s: State, d: Decision, answer: Answer)
    requires Live(s, d)
    requires match d.card
      case Artisan | Cellar | Chapel | Harbinger | Library | Moneylender | Poacher | Workshop => true
      case _ => false
    ensures OnResolve(s, d, answer).error.None? <==> Takes(s, d, answer)
  {
    hide Base, LibraryStep, MoveFromHand, DrawCards, GainCard, EmptyPiles, Without, Cost;
  }

  lemma TrashTaken(s: State, d: Decision, answer: Answer)
    requires Live(s, d)
    requires d.card == Mine || d.card == Remodel
    ensures OnResolve(s, d, answer).error.None? <==> Takes(s, d, answer)
  {
    hide Base, MoveFromHand, GainCard, Cost;
  }

  lemma AttackTaken(s: State, d: Decision, answer: Answer)
    requires Live(s, d)
    requires d.card == Bandit || d.card == Bureaucrat || d.card == Militia
    ensures OnResolve(s, d, answer).error.None? <==> Takes(s, d, answer)
  {
    if d.card == Bandit { NonCopperAre(d.context.revealed); }
    hide Base, MoveFromHand, BanditTrash, BanditQueue, BureaucratQueue, MilitiaQueue, NonCopperTreasures, VictoriesIn;
  }

  lemma SentryTaken(s: State, d: Decision, answer: Answer)
    requires Live(s, d) && d.card == Sentry
    ensures OnResolve(s, d, answer).error.None? <==> Takes(s, d, answer)
  {
    hide Base, SortSetAside, SentryReorder, SentryAfterDiscard, SentryAfterTrash, SortedOut;
    if d.step == 2 && answer.CardListAnswer? { ReorderOutcome(s, d.player, answer.cards); }
  }

  lemma ThroneTaken(s: State, d: Decision, answer: Answer)
    requires Live(s, d) && d.card == ThroneRoom
    ensures ResolveThroneRoom(s, d, answer).error.None? <==> Takes(s, d, answer)
  {
    HandKnown(s, d.player);
    hide OnPlay, Without, Base;
  }

  lemma VassalTaken(s: State, d: Decision, answer: Answer)
    requires Live(s, d) && d.card == Vassal
    ensures ResolveVassal(s, d, answer).error.None? <==> Takes(s, d, answer)
  {
    NoCleanup(s);
    hide PlayedFromZone, ResolveVassal, Justified, Base;
    VassalPlays(s, d, answer);
    assert answer.YesNoAnswer? ==> answer == YesNoAnswer(true) || answer == YesNoAnswer(false);
  }

  lemma PlayingTaken(s: State, d: Decision, answer: Answer)
    requires Live(s, d) && (d.card == ThroneRoom || d.card == Vassal)
    ensures OnResolve(s, d, answer).error.None? <==> Takes(s, d, answer)
  {
    hide ResolveThroneRoom, ResolveVassal, Live, Takes;
    if d.card == ThroneRoom { ThroneTaken(s, d, answer); } else { VassalTaken(s, d, answer); }
  }

  /** A suspended card accepts an answer exactly if it passes the card's checks. */
  lemma TakenExactly(s: State, d: Decision, answer: Answer)
    requires Live(s, d)
    ensures OnResolve(s, d, answer).error.None? <==> Takes(s, d, answer)
  {
    assert HasResolve(d.card) by { hide Base, Prompted; }
    hide OnResolve, Live, Takes;
    match d.card
    case Mine | Remodel => TrashTaken(s, d, answer);
    case Bandit | Bureaucrat | Militia => AttackTaken(s, d, answer);
    case Sentry => SentryTaken(s, d, answer);
    case ThroneRoom | Vassal => PlayingTaken(s, d, answer);
    case _ => OwnTaken(s, d, answer);
  }

  // ----- Through the entry point -----

  lemma StillLive(s: State)
    requires Inv(s) && s.pending.Some?
    ensures Live(s.(pending := None), s.pending.value)
    ensures ResolveGuard(s, s.pending.value.player, s.pending.value.id).None?
  {
    ClearingKeeps(s);
    hide Base;
  }

  lemma SameTakes(s: State, d: Decision, answer: Answer)
    ensures Takes(s.(pending := None), d, answer) <==> Takes(s, d, answer)
  {
  }

  /** In every reachable state a message that reaches its card is accepted exactly if the card takes the answer: the
      replays it sets off cannot fail. */
  lemma AcceptedExactly(s: State, act: Action)
    requires Inv(s) && Reaches(s, act)
    ensures s.players != []
    ensures Apply(s, act).error.None? <==> Takes(s, s.pending.value, act.answer)
  {
    var d := s.pending.value;
    var s0 := s.(pending := None);
    StillLive(s);
    SameTakes(s, d, act.answer);
    TakenExactly(s0, d, act.answer);
    assert Base(s0) && d.player < |s0.players| && Justified(s0, d);
    NoCleanup(s0);
    OnResolveAnswers(s0, d, act.answer);
    var r := OnResolve(s0, d, act.answer);
    hide OnResolve, Justified, Prompted, Takes, Base, Unwind, Frame, AskedOk, Live;
    SameTableOf(s0, r.state);
    if r.error.None? { UnwindKeeps(r.state); }
  }

  // ----- Following the prompt is enough -----

  lemma PickedKnown(s: State, i: nat, cards: seq<Card>, c: Card)
    requires Base(s) && i < |s.players| && multiset(cards) <= multiset(s.P(i).hand) && c in cards
    ensures c in s.P(i).hand && Known(c)
  {
    HandKnown(s, i);
    MultisetMember(cards, c);
    MultisetMember(s.P(i).hand, c);
  }

  lemma FollowsTrash(s: State, d: Decision, answer: Answer)
    requires Live(s, d) && Follows(s, d, answer) && (d.card == Mine || d.card == Remodel)
    ensures Takes(s, d, answer)
  {
    if d.step == 0 && answer.cards != [] {
      assert answer.cards[0] in answer.cards;
      PickedKnown(s, d.player, answer.cards, answer.cards[0]);
    }
    hide Base, Cost;
  }

  lemma FollowsAttack(s: State, d: Decision, answer: Answer)
    requires Live(s, d) && Follows(s, d, answer) && (d.card == Bandit || d.card == Bureaucrat || d.card == Militia)
    ensures Takes(s, d, answer)
  {
    hide Base, TopDown, VictoriesIn, NonCopperTreasures;
  }

  lemma FollowsTaken(s: State, d: Decision, answer: Answer)
    requires Live(s, d) && Follows(s, d, answer)
    ensures Takes(s, d, answer)
  {
    if d.card == Mine || d.card == Remodel {
      FollowsTrash(s, d, answer);
    } else if d.card == Bandit || d.card == Bureaucrat || d.card == Militia {
      FollowsAttack(s, d, answer);
    } else {
      hide Base, EmptyPiles, Cost, Picks;
    }
  }

  lemma SameFollows(s: State, d: Decision, answer: Answer)
    requires Follows(s, d, answer)
    ensures Follows(s.(pending := None), d, answer)
  {
  }

  /** Every answer that follows its prompt is taken, in every reachable state: what the card noted when it asked still
      holds. */
  lemma FollowingTaken(s: State, answer: Answer)
    requires Inv(s) && s.pending.Some? && Follows(s, s.pending.value, answer)
    ensures Takes(s, s.pending.value, answer)
  {
    hide Inv, Live, Follows, Takes;
    StillLive(s);
    SameFollows(s, s.pending.value, answer);
    FollowsTaken(s.(pending := None), s.pending.value, answer);
    SameTakes(s, s.pending.value, answer);
  }

  lemma FollowingAccepted(s: State, answer: Answer)
    requires Inv(s) && s.pending.Some? && Follows(s, s.pending.value, answer)
    ensures s.players != []
    ensures var d := s.pending.value;
            Apply(s, ResolveDecision(d.player, d.id, answer)).error.None?
  {
    var d := s.pending.value;
    FollowingTaken(s, answer);
    StillLive(s);
    assert !s.ended;
    hide Inv, Live, Follows, Takes, Apply;
    AcceptedExactly(s, ResolveDecision(d.player, d.id, answer));
  }
}
