/** The facts a suspended card relies on when its answer arrives, and the invariant of every reachable state. */
module Invariants {
  import opened Cards
  import opened States
  import opened Zones
  import opened Primitives
  import opened Effects
  import opened Census
  import opened Frames

  /** Distinct seats other than the current player's. */
  ghost predicate Opponents(s: State, seats: seq<nat>) {
    && (forall i :: 0 <= i < |seats| ==> seats[i] < |s.players| && seats[i] != s.current)
    && (forall i, j :: 0 <= i < j < |seats| ==> seats[i] != seats[j])
  }

  /** An attack decision belongs to an opponent and remembers the opponents still to come. */
  ghost predicate VictimAsked(s: State, d: Decision) {
    && d.context.AttackContext? && d.context.attacker == s.current
    && Opponents(s, [d.player] + d.context.remaining)
  }

  predicate OwnAsked(s: State, d: Decision) {
    d.player == s.current
  }

  predicate CostKnown(d: Decision) {
    d.step == 1 && d.context.CostContext? && d.context.trashedCost >= 0
  }

  /** What was true when a card asked is still true while its decision is pending. */
  ghost predicate Justified(s: State, d: Decision) {
    var p := s.P(d.player);
    match d.card
    case Artisan => OwnAsked(s, d) && d.step <= 1
    case Cellar | Chapel | Poacher => OwnAsked(s, d)
    case Harbinger => OwnAsked(s, d) && p.discard != []
    case Library =>
      OwnAsked(s, d) && d.context.CardContext? && d.context.card in p.setAside && IsAction(d.context.card) &&
      |p.hand| < 7
    case Mine =>
      OwnAsked(s, d) && (if d.step == 0 then HasTreasure(p.hand) else CostKnown(d))
    case Moneylender => OwnAsked(s, d) && Copper in p.hand
    case Remodel =>
      OwnAsked(s, d) && (if d.step == 0 then p.hand != [] else CostKnown(d))
    case Sentry => OwnAsked(s, d) && d.step <= 2 && p.setAside != []
    case ThroneRoom => OwnAsked(s, d) && HasAction(p.hand)
    case Vassal =>
      OwnAsked(s, d) && d.context.CardContext? && d.context.card in p.discard && IsAction(d.context.card)
    case Workshop => OwnAsked(s, d) && d.prompt == GainFromSupplyPrompt(4, [], GainToDiscard)
    case Bandit =>
      VictimAsked(s, d) && |p.deck| >= 2 && d.context.revealed == TopDown(p.deck, 2) &&
      |NonCopperTreasures(d.context.revealed)| == 2
    case Bureaucrat => VictimAsked(s, d) && |VictoriesIn(p.hand)| >= 2
    case Militia => VictimAsked(s, d) && |p.hand| > 3
    case _ => false
  }

  /** The prompt still describes the choice: what it offers is there, and its bounds are those of the current state. */
  predicate Prompted(s: State, d: Decision) {
    var p := s.P(d.player);
    match d.card
    case Artisan => d.prompt == if d.step == 0 then GainFromSupplyPrompt(5, [], GainToHand) else PutOnDeckPrompt([])
    case Cellar => d.prompt == DiscardFromHandPrompt(0, |p.hand|)
    case Chapel => d.prompt == TrashFromHandPrompt(0, 4, [], [])
    case Poacher => d.prompt == DiscardFromHandPrompt(EmptyPiles(s.supply), EmptyPiles(s.supply))
    case Harbinger => d.prompt == ChooseFromDiscardPrompt(p.discard, true)
    case Library => d.context.CardContext? && d.prompt == SetAsideActionPrompt(d.context.card)
    case Mine =>
      if d.step == 0 then d.prompt == TrashFromHandPrompt(0, 1, [Treasure], [])
      else d.context.CostContext? &&
           d.prompt == GainFromSupplyPrompt(d.context.trashedCost + 3, [Treasure], GainToHand)
    case Moneylender => d.prompt == TrashFromHandPrompt(0, 1, [], [Copper])
    case Remodel =>
      if d.step == 0 then d.prompt == TrashFromHandPrompt(1, 1, [], [])
      else d.context.CostContext? && d.prompt == GainFromSupplyPrompt(d.context.trashedCost + 2, [], GainToDiscard)
    case Sentry =>
      if d.step == 0 then d.prompt.TrashFromRevealedPrompt? && multiset(d.prompt.cards) <= multiset(p.setAside)
      else d.prompt == (if d.step == 1 then DiscardFromRevealedPrompt(p.setAside) else ReorderCardsPrompt(p.setAside))
    case ThroneRoom => d.prompt == ChooseActionFromHandPrompt
    case Vassal => d.context.CardContext? && d.prompt == MayPlayActionPrompt(d.context.card)
    case Workshop => d.prompt == GainFromSupplyPrompt(4, [], GainToDiscard)
    case Bandit => d.context.AttackContext? && d.prompt == TrashFromRevealedPrompt(NonCopperTreasures(d.context.revealed))
    case Bureaucrat => d.prompt == PutOnDeckPrompt([Victory])
    case Militia => d.prompt == DiscardFromHandPrompt(|p.hand| - 3, |p.hand| - 3)
    case _ => true
  }

  ghost predicate DecisionOk(s: State, d: Decision) {
    d.id == DecisionId(s.decisionSeq) && d.player < |s.players| && Justified(s, d) && Prompted(s, d)
  }

  ghost predicate AskedOk(s: State) {
    s.pending.Some? ==> DecisionOk(s, s.pending.value)
  }

  // ----- Attacks -----

  lemma OpponentsTail(s: State, t: State, seats: seq<nat>)
    requires Opponents(s, seats) && seats != []
    requires |t.players| == |s.players| && t.current == s.current
    ensures seats[0] < |s.players| && seats[0] != s.current
    ensures Opponents(t, seats[1..])
  {
  }

  lemma ModSub(x: nat, n: nat)
    requires n <= x < 2 * n
    ensures x % n == x - n
  {
    var q := x / n;
    assert x == n * q + x % n && 0 <= x % n < n;
    assert q >= 2 ==> n * q >= n * 2;
    assert q <= 0 ==> n * q <= 0;
  }

  /** Turn order without the modulus. */
  lemma OthersAt(n: nat, except: nat, i: nat)
    requires except < n && i < n - 1
    ensures Others(n, except)[i] == if except + i + 1 < n then except + i + 1 else except + i + 1 - n
  {
    var x := except + i + 1;
    assert Others(n, except)[i] == x % n;
    hide Others;
    if x >= n { ModSub(x, n); }
  }

  lemma OthersAreOpponents(s: State)
    requires s.current < |s.players|
    ensures Opponents(s, Others(|s.players|, s.current))
  {
    var n := |s.players|;
    var others := Others(n, s.current);
    forall i | 0 <= i < |others|
      ensures others[i] == if s.current + i + 1 < n then s.current + i + 1 else s.current + i + 1 - n
    {
      OthersAt(n, s.current, i);
    }
    hide Others;
  }

  /** The victims are exactly the seats without a Moat, in the order given. */
  lemma {:induction false} UnblockedAre(s: State, seats: seq<nat>)
    requires Opponents(s, seats)
    ensures Opponents(s, Unblocked(s, seats))
    ensures forall v :: v in Unblocked(s, seats) <==> v in seats && Moat !in s.P(v).hand
  {
    if seats != [] {
      var rest := seats[1..];
      assert Opponents(s, rest);
      UnblockedAre(s, rest);
      assert seats[0] !in rest;
      assert seats == [seats[0]] + rest;
      var r := Unblocked(s, rest);
      assert forall i :: 0 <= i < |r| ==> r[i] in rest;
    }
  }

  lemma {:induction false} ReactionsQuiet(hand: seq<Card>, victim: nat)
    ensures forall e :: e in Reactions(hand, victim) ==> e == ReactionTriggered(victim, Moat)
  {
    if hand != [] { ReactionsQuiet(hand[1..], victim); }
  }

  lemma {:induction false} AllReactionsQuiet(s: State, seats: seq<nat>)
    ensures forall e :: e in ReactionsOfAll(s, seats) ==> Quiet(e)
  {
    if seats != [] {
      ReactionsQuiet(s.P(seats[0]).hand, seats[0]);
      AllReactionsQuiet(s, seats[1..]);
    }
  }

  lemma AttackKeeps(s0: State, s: State, card: Card, y: Yield)
    requires Keeps(s0, s, y) && s.current < |s.players|
    ensures var (t, victims) := ResolveAttackVictims(s, s.current, card);
            Keeps(s0, t, y) && Opponents(t, victims)
  {
    var others := Others(|s.players|, s.current);
    OthersAreOpponents(s);
    UnblockedAre(s, others);
    AllReactionsQuiet(s, others);
    var more := [AttackPlayed(s.current, card)] + ReactionsOfAll(s, others);
    assert s.log + [AttackPlayed(s.current, card)] + ReactionsOfAll(s, others) == s.log + more;
    AnnounceKeeps(s0, s, more, y);
  }

  lemma {:induction false} MilitiaQueueKeeps(s0: State, s: State, victims: seq<nat>, y: Yield)
    requires Keeps(s0, s, y) && s.pending.None? && Opponents(s, victims)
    ensures var t := MilitiaQueue(s, s.current, victims);
            Keeps(s0, t, y) && AskedOk(t)
    decreases |victims|
  {
    hide Keeps;
    if victims != [] {
      var v, rest := victims[0], victims[1..];
      var size := |s.P(v).hand|;
      assert victims == [v] + rest;
      if size <= 3 {
        MilitiaQueueKeeps(s0, s, rest, y);
      } else {
        RequestKeeps(s0, s, v, Militia, 0, DiscardFromHandPrompt(size - 3, size - 3),
                     AttackContext(s.current, rest, []), y);
      }
    }
  }

  lemma BureaucratUnaskedKeeps(s0: State, s: State, v: nat, y: Yield)
    requires Keeps(s0, s, y) && v < |s.players|
    ensures Keeps(s0, BureaucratUnasked(s, v), y)
  {
    hide Keeps, MoveFromHand;
    AnnounceKeeps(s0, s, [CardRevealed(v)], y);
    MoveFromHandKeeps(s0, s, v, VictoriesIn(s.P(v).hand), ToDeck, y);
  }

  lemma {:induction false} BureaucratQueueKeeps(s0: State, s: State, victims: seq<nat>, y: Yield)
    requires Keeps(s0, s, y) && s.pending.None? && Opponents(s, victims)
    ensures var t := BureaucratQueue(s, s.current, victims);
            Keeps(s0, t, y) && AskedOk(t)
    decreases |victims|
  {
    hide Keeps, BureaucratUnasked;
    if victims != [] {
      var v, rest := victims[0], victims[1..];
      assert victims == [v] + rest;
      if |VictoriesIn(s.P(v).hand)| <= 1 {
        BureaucratUnaskedKeeps(s0, s, v, y);
        BureaucratQueueKeeps(s0, BureaucratUnasked(s, v), rest, y);
      } else {
        RequestKeeps(s0, s, v, Bureaucrat, 0, PutOnDeckPrompt([Victory]), AttackContext(s.current, rest, []), y);
      }
    }
  }

  lemma {:induction false} NonCopperBound(cards: seq<Card>)
    ensures |NonCopperTreasures(cards)| <= |cards|
  {
    if cards != [] { NonCopperBound(cards[1..]); }
  }

  lemma BanditRevealKeeps(s0: State, s: State, v: nat, y: Yield)
    requires Keeps(s0, s, y) && v < |s.players|
    ensures Keeps(s0, BanditReveal(s, v).0, y)
  {
    var t := RevealFromDeck(s, v, 2).0;
    assert Keeps(s0, t, y) by {
      if t != s { RefillKeeps(s0, s, v, y); }
    }
    AnnounceKeeps(s0, t, [CardRevealed(v)], y);
  }

  lemma {:induction false} DiscardRevealedKeeps(s0: State, s: State, v: nat, revealed: seq<Card>, skip: Option<Card>,
                                                y: Yield)
    requires Keeps(s0, s, y) && v < |s.players|
    ensures Keeps(s0, DiscardRevealed(s, v, revealed, skip), y)
    decreases |revealed|
  {
    hide Keeps, DiscardFromDeck;
    if revealed != [] {
      var s1 := if skip == Some(revealed[0]) then s else DiscardFromDeck(s, v, revealed[0]);
      TrashFromDeckKeeps(s0, s, v, revealed[0], y);
      DiscardRevealedKeeps(s0, s1, v, revealed[1..], skip, y);
    }
  }

  lemma BanditTrashKeeps(s0: State, s: State, v: nat, revealed: seq<Card>, chosen: Card, y: Yield)
    requires Keeps(s0, s, y) && v < |s.players|
    ensures Keeps(s0, BanditTrash(s, v, revealed, chosen), y)
  {
    hide Keeps;
    TrashFromDeckKeeps(s0, s, v, chosen, y);
    DiscardRevealedKeeps(s0, TrashFromDeck(s, v, chosen), v, revealed, Some(chosen), y);
  }

  lemma BanditAsks(s: State, v: nat, rest: seq<nat>)
    requires Opponents(s, [v] + rest)
    ensures var (s1, revealed) := BanditReveal(s, v);
            var treasures := NonCopperTreasures(revealed);
            |treasures| >= 2 ==>
              AskedOk(RequestDecision(s1, v, Bandit, 0, TrashFromRevealedPrompt(treasures),
                                      AttackContext(s.current, rest, revealed)))
  {
    var (s1, revealed) := BanditReveal(s, v);
    NonCopperBound(revealed);
    hide TopDown, NonCopperTreasures, Refill;
  }

  lemma BanditUnaskedKeeps(s0: State, s: State, v: nat, revealed: seq<Card>, y: Yield)
    requires Keeps(s0, s, y) && v < |s.players|
    ensures Keeps(s0, BanditUnasked(s, v, revealed), y)
  {
    hide Keeps, DiscardRevealed, BanditTrash;
    var treasures := NonCopperTreasures(revealed);
    DiscardRevealedKeeps(s0, s, v, revealed, None, y);
    if treasures != [] { BanditTrashKeeps(s0, s, v, revealed, treasures[0], y); }
  }

  lemma {:induction false} BanditQueueKeeps(s0: State, s: State, victims: seq<nat>, y: Yield)
    requires Keeps(s0, s, y) && s.pending.None? && Opponents(s, victims)
    ensures var t := BanditQueue(s, s.current, victims);
            Keeps(s0, t, y) && AskedOk(t)
    decreases |victims|
  {
    assert AskedOk(s);
    hide Keeps, AskedOk, BanditReveal, BanditUnasked, NonCopperTreasures, RequestDecision, Opponents;
    if victims != [] {
      var v, rest := victims[0], victims[1..];
      assert victims == [v] + rest;
      var (s1, revealed) := BanditReveal(s, v);
      OpponentsTail(s, BanditUnasked(s1, v, revealed), victims);
      BanditRevealKeeps(s0, s, v, y);
      if |NonCopperTreasures(revealed)| <= 1 {
        BanditUnaskedKeeps(s0, s1, v, revealed, y);
        BanditQueueKeeps(s0, BanditUnasked(s1, v, revealed), rest, y);
      } else {
        BanditAsks(s, v, rest);
        RequestKeeps(s0, s1, v, Bandit, 0, TrashFromRevealedPrompt(NonCopperTreasures(revealed)),
                     AttackContext(s.current, rest, revealed), y);
      }
    }
  }

  lemma {:induction false} CurseEachKeeps(s0: State, s: State, seats: seq<nat>, y: Yield)
    requires Keeps(s0, s, y) && Opponents(s, seats)
    ensures Keeps(s0, CurseEach(s, seats), y)
    decreases |seats|
  {
    hide Keeps, GainCard;
    if seats != [] {
      assert seats == [seats[0]] + seats[1..];
      GainCardKeeps(s0, s, seats[0], Curse, GainToDiscard, y);
      CurseEachKeeps(s0, GainCard(s, seats[0], Curse, GainToDiscard), seats[1..], y);
    }
  }

  lemma {:induction false} DrawEachKeeps(s0: State, s: State, seats: seq<nat>, y: Yield)
    requires Keeps(s0, s, y) && Opponents(s, seats)
    ensures Keeps(s0, DrawEach(s, seats), y)
    decreases |seats|
  {
    hide Keeps, DrawCards;
    if seats != [] {
      assert seats == [seats[0]] + seats[1..];
      DrawCardsKeeps(s0, s, seats[0], 1, y);
      DrawEachKeeps(s0, DrawCards(s, seats[0], 1), seats[1..], y);
    }
  }

  // ----- Library -----

  lemma EventsQuiet(px: nat, cards: seq<Card>)
    ensures forall e :: e in DiscardEvents(px, cards) || e in DeckEvents(px, cards) ==> Quiet(e)
  {
  }

  lemma FlushKeeps(s0: State, s: State, y: Yield)
    requires y.aside && Keeps(s0, s, y) && s.current < |s.players|
    ensures Keeps(s0, FlushSetAside(s, s.current), y)
    ensures Keeps(s0, FlushToDeck(s, s.current), y)
  {
    var px := s.current;
    var p := s.P(px);
    EventsQuiet(px, p.setAside);
    TallyQuiet(s.log, DiscardEvents(px, p.setAside));
    TallyQuiet(s.log, DeckEvents(px, p.setAside));
    var q := p.(discard := p.discard + p.setAside, setAside := []);
    var r := p.(deck := p.deck + p.setAside, setAside := []);
    assert forall c :: Copies(q, c) == Copies(p, c) && Copies(r, c) == Copies(p, c);
    hide Copies, Tally, Keeps;
    RearrangedKeeps(s0, s, FlushSetAside(s, px), px, q, y);
    RearrangedKeeps(s0, s, FlushToDeck(s, px), px, r, y);
  }

  lemma SetAsideLastKeeps(s0: State, s: State, y: Yield)
    requires y.aside && Keeps(s0, s, y) && s.current < |s.players| && s.P(s.current).hand != []
    ensures Keeps(s0, SetAsideLast(s, s.current), y)
  {
    var p := s.P(s.current);
    var rest, last := p.hand[..|p.hand| - 1], p.hand[|p.hand| - 1];
    assert p.hand == rest + [last];
    var q := p.(hand := rest, setAside := p.setAside + [last]);
    assert forall c :: Copies(q, c) == Copies(p, c);
    hide Copies, Tally, Keeps;
    RearrangedKeeps(s0, s, SetAsideLast(s, s.current), s.current, q, y);
  }

  lemma KeepDrawnKeeps(s0: State, s: State, drawn: Card, y: Yield)
    requires y.aside && Keeps(s0, s, y) && s.current < |s.players| && drawn in s.P(s.current).setAside
    ensures Keeps(s0, KeepDrawn(s, s.current, drawn), y)
  {
    var p := s.P(s.current);
    var q := p.(setAside := Without(p.setAside, drawn), hand := p.hand + [drawn]);
    assert forall c :: Copies(q, c) == Copies(p, c);
    hide Copies, Tally, Keeps;
    RearrangedKeeps(s0, s, KeepDrawn(s, s.current, drawn), s.current, q, y);
  }

  lemma LibraryAsks(s: State, drawn: Card)
    requires s.current < |s.players| && IsAction(drawn) && drawn in s.P(s.current).setAside && |s.P(s.current).hand| < 7
    ensures AskedOk(RequestDecision(s, s.current, Library, 0, SetAsideActionPrompt(drawn), CardContext(drawn)))
  {
  }

  lemma {:induction false} LibraryStepKeeps(s0: State, s: State, y: Yield)
    requires y.aside && Keeps(s0, s, y) && s.current < |s.players| && s.pending.None?
    ensures var t := LibraryStep(s, s.current);
            Keeps(s0, t, y) && AskedOk(t)
    decreases Available(s.P(s.current))
  {
    hide Keeps, DrawOne, Justified, Prompted;
    var px := s.current;
    if |s.P(px).hand| >= 7 || Available(s.P(px)) == 0 {
      FlushKeeps(s0, s, y);
    } else {
      DrawOneKeeps(s0, s, px, y);
      var s1 := DrawOne(s, px);
      var drawn := s1.P(px).hand[|s1.P(px).hand| - 1];
      if IsAction(drawn) {
        SetAsideLastKeeps(s0, s1, y);
        LibraryAsks(SetAsideLast(s1, px), drawn);
        RequestKeeps(s0, SetAsideLast(s1, px), px, Library, 0, SetAsideActionPrompt(drawn), CardContext(drawn), y);
      } else {
        LibraryStepKeeps(s0, s1, y);
      }
    }
  }

  // ----- Sentry -----

  /** Peeling takes the topmost cards, topmost first. */
  lemma {:induction false} PeelTakes(p: PlayerState, n: nat)
    ensures var k := if |p.deck| < n then |p.deck| else n;
            Peel(p, n) == p.(deck := p.deck[..|p.deck| - k], setAside := p.setAside + TopDown(p.deck, k))
    decreases n
  {
    var k := if |p.deck| < n then |p.deck| else n;
    if k == 0 {
      assert p.deck[..|p.deck|] == p.deck;
      assert p.setAside + TopDown(p.deck, 0) == p.setAside;
    } else {
      var rest, top := p.deck[..|p.deck| - 1], p.deck[|p.deck| - 1];
      PeelTakes(p.(deck := rest, setAside := p.setAside + [top]), n - 1);
      assert [top] + TopDown(rest, k - 1) == TopDown(p.deck, k);
      assert p.setAside + [top] + TopDown(rest, k - 1) == p.setAside + TopDown(p.deck, k);
      assert rest[..|rest| - (k - 1)] == p.deck[..|p.deck| - k];
    }
  }

  lemma PeelCopies(p: PlayerState, n: nat)
    ensures forall c :: Copies(Peel(p, n), c) == Copies(p, c)
  {
    var k := if |p.deck| < n then |p.deck| else n;
    PeelTakes(p, n);
    TopDownSplit(p.deck, k);
    hide Peel, TopDown;
  }

  lemma SuffixWithin(a: seq<Card>, b: seq<Card>)
    ensures multiset(b) <= multiset(a + b)
  {
    assert multiset(a + b) == multiset(a) + multiset(b);
  }

  lemma PeelToSetAsideKeeps(s0: State, s: State, n: nat, y: Yield)
    requires y.aside && Keeps(s0, s, y) && s.current < |s.players|
    ensures var (t, revealed) := PeelToSetAside(s, s.current, n);
            Keeps(s0, t, y) && (revealed != [] ==> t.P(s.current).setAside != []) &&
            multiset(revealed) <= multiset(t.P(s.current).setAside)
  {
    hide Keeps, Peel, Copies, Tally, Refill, TopDown, Rearranged;
    var px := s.current;
    var r := if |s.P(px).deck| < n && s.P(px).discard != [] then Refill(s, px) else s;
    if r != s { RefillKeeps(s0, s, px, y); }
    var q := Peel(r.P(px), n);
    PeelTakes(r.P(px), n);
    PeelRearranges(r, n, y.aside);
    SuffixWithin(r.P(px).setAside, PeelToSetAside(s, px, n).1);
    RearrangedKeeps(s0, r, r.With(px, q), px, q, y);
  }

  lemma PeelRearranges(s: State, n: nat, aside: bool)
    requires s.current < |s.players| && aside
    ensures var q := Peel(s.P(s.current), n);
            Rearranged(s, s.With(s.current, q), s.current, q, aside)
  {
    hide Peel, Copies, Tally, TopDown;
    PeelTakes(s.P(s.current), n);
    PeelCopies(s.P(s.current), n);
  }
}
