/** No deadlock: in every reachable state that has not ended some action is accepted. */
module Progress {
  import opened Cards
  import opened States
  import opened Zones
  import opened Primitives
  import opened Effects
  import opened Engine
  import opened Frames
  import opened Invariants
  import opened Plays
  import opened Resolutions
  import opened Runs
  import opened Acceptance

  // ----- Such an answer exists -----

  /** The first Action in a hand that has one. */
  function FirstAction(hand: seq<Card>): (c: Card)
    requires HasAction(hand)
    ensures c in hand && IsAction(c)
  {
    if IsAction(hand[0]) then hand[0]
    else
      assert hand == [hand[0]] + hand[1..];
      FirstAction(hand[1..])
  }

  /** An answer that follows the prompt, for every card that asks. */
  function SomeAnswer(s: State, d: Decision): Answer {
    var p := s.P(d.player);
    match d.prompt
    case DiscardFromHandPrompt(min, max) =>
      CardListAnswer(if min <= 0 then [] else if min <= |p.hand| then p.hand[..min] else p.hand)
    case TrashFromHandPrompt(min, _, _, _) => CardListAnswer(if min <= 0 || p.hand == [] then [] else [p.hand[0]])
    case GainFromSupplyPrompt(_, _, _) => CardChoiceAnswer(Copper, false)
    case ChooseFromDiscardPrompt(_, _) => CardChoiceAnswer(Copper, true)
    case PutOnDeckPrompt(_) =>
      if d.card == Bureaucrat then CardListAnswer(if VictoriesIn(p.hand) == [] then [] else [VictoriesIn(p.hand)[0]])
      else CardChoiceAnswer(if p.hand == [] then Copper else p.hand[0], false)
    case MayPlayActionPrompt(_) => YesNoAnswer(false)
    case SetAsideActionPrompt(_) => YesNoAnswer(true)
    case TrashFromRevealedPrompt(cards) =>
      if d.card == Sentry then CardListAnswer([]) else CardChoiceAnswer(if cards == [] then Gold else cards[0], false)
    case ChooseActionFromHandPrompt =>
      CardChoiceAnswer(if HasAction(p.hand) then FirstAction(p.hand) else ThroneRoom, false)
    case DiscardFromRevealedPrompt(_) => CardListAnswer([])
    case ReorderCardsPrompt(cards) => CardListAnswer(cards)
  }

  lemma PrefixPicks(zone: seq<Card>, n: nat, max: int)
    requires n <= max
    ensures Picks(if n <= |zone| then zone[..n] else zone, zone, n, max)
  {
    if n <= |zone| { assert zone == zone[..n] + zone[n..]; }
  }

  lemma FirstPicked(zone: seq<Card>)
    requires zone != []
    ensures Picks([zone[0]], zone, 1, 1)
  {
    assert zone == [zone[0]] + zone[1..];
  }

  /** Cards answered with a list. */
  lemma SomeListFollows(s: State, d: Decision)
    requires Justified(s, d) && Prompted(s, d)
    requires match d.card
      case Bureaucrat | Cellar | Chapel | Militia | Moneylender | Poacher | Sentry => true
      case Mine | Remodel => d.step == 0
      case _ => false
    ensures Follows(s, d, SomeAnswer(s, d))
  {
    hide VictoriesIn, EmptyPiles, FirstAction, NonCopperTreasures, TopDown, Cost;
    var p := s.P(d.player);
    if d.card == Bureaucrat {
      VictoriesAre(p.hand);
      assert VictoriesIn(p.hand)[0] in VictoriesIn(p.hand);
      assert HasType(VictoriesIn(p.hand)[0], Victory);
    } else if d.card == Remodel {
      FirstPicked(p.hand);
    } else if d.prompt.DiscardFromHandPrompt? && d.prompt.min > 0 {
      PrefixPicks(p.hand, d.prompt.min, d.prompt.max);
    }
  }

  /** Cards answered with a single choice, or with yes or no. */
  lemma SomeChoiceFollows(s: State, d: Decision)
    requires Justified(s, d) && Prompted(s, d)
    requires match d.card
      case Artisan | Bandit | Harbinger | ThroneRoom | Workshop | Library | Vassal => true
      case Mine | Remodel => d.step == 1
      case _ => false
    ensures Follows(s, d, SomeAnswer(s, d))
  {
    hide VictoriesIn, EmptyPiles, FirstAction, NonCopperTreasures, TopDown, Picks;
    assert HasType(Copper, Treasure);
  }

  lemma SomeAnswerFollows(s: State, d: Decision)
    requires Justified(s, d) && Prompted(s, d)
    ensures Follows(s, d, SomeAnswer(s, d))
  {
    if d.card == Mine || d.card == Remodel { assert d.step <= 1; }
    hide Prompted, Follows, SomeAnswer;
    match d.card
    case Mine | Remodel => if d.step == 0 { SomeListFollows(s, d); } else { SomeChoiceFollows(s, d); }
    case Bureaucrat | Cellar | Chapel | Militia | Moneylender | Poacher | Sentry => SomeListFollows(s, d);
    case Artisan | Bandit | Harbinger | ThroneRoom | Workshop | Library | Vassal => SomeChoiceFollows(s, d);
  }

  /** The action that is accepted: the current player ends the phase, or the asked player answers. */
  function SomeAction(s: State): Action {
    match s.pending
    case None => EndPhase(s.current)
    case Some(d) => ResolveDecision(d.player, d.id, SomeAnswer(s, d))
  }

  /** No deadlock: after any run, unless the game has ended, some action is accepted. */
  lemma NoDeadlock(s: State, acts: seq<Action>)
    requires Inv(s)
    ensures s.players != []
    ensures var t := Run(s, acts);
            !t.ended ==> Apply(t, SomeAction(t)).error.None?
  {
    RunInv(s, acts);
    NoCleanup(s);
    var t := Run(s, acts);
    hide Run;
    if t.pending.Some? {
      SomeAnswerFollows(t, t.pending.value);
      hide Inv, Apply, Follows, Prompted, Justified, SomeAnswer;
      FollowingAccepted(t, SomeAnswer(t, t.pending.value));
    } else {
      EndPhaseAccepted(t);
      hide Inv, ApplyEndPhase;
    }
  }
}
