/** Whole cards through the entry point: a card is played from the hand and its questions are answered by messages. */
module Entries {
  import opened Cards
  import opened States
  import opened Zones
  import opened Primitives
  import opened Effects
  import opened Engine
  import opened Frames
  import opened Invariants
  import opened Plays
  import opened Runs
  import opened Rules
  import opened GameLaws
  import opened Acceptance
  import opened Discipline
  import opened Termination
  import opened Ledgers
  import opened Chains
  import opened Attacks
  import opened Victims
  import opened Libraries
  import opened Sentries
  import opened Census
  import opened Moves
  import opened Drawing
  import opened Exchanges

  // ----- Answering by messages -----

  /** The pending decision, if any, belongs to a card that plays no other card. */
  predicate PlaysNothing(t: State) {
    t.pending.Some? ==> t.pending.value.card != ThroneRoom && t.pending.value.card != Vassal
  }

  lemma NoReplay(t: State)
    requires t.plays == []
    ensures Unwind(t) == Ok(t)
  {
  }

  /** One message: accepted as the card accepts it, with nothing after it. */
  lemma OneMessage(t: State, act: Action)
    requires Inv(t) && t.players != [] && Reaches(t, act) && t.plays == [] && PlaysNothing(t)
    ensures var r := OnResolve(t.(pending := None), t.pending.value, act.answer);
            && (r.error.Some? ==> Apply(t, act).error.Some?)
            && (r.error.None? ==>
                  Apply(t, act) == r && Inv(r.state) && !r.state.ended && r.state.plays == [] && PlaysNothing(r.state))
  {
    var t0, d := t.(pending := None), t.pending.value;
    var r := OnResolve(t0, d, act.answer);
    ReachesCard(t, act);
    StillLive(t);
    assert t.current < |t.players| && Justified(t0, d) by { NoCleanup(t0); }
    hide OnResolve, Unwind, Apply, Inv, Live, Justified, Takes, Reaches, OwedBy, Tally, ChainWork;
    AnswerReplays(t0, d, act.answer);
    AnswerShortens(t, d, act.answer);
    assert OwedBy(t0, d, act.answer) == [] by { NotThroned(t0, d, act.answer); }
    NoReplay(r.state);
    if r.error.None? { KeptByMessage(t, act); }
  }

  lemma NotThroned(s: State, d: Decision, answer: Answer)
    requires d.card != ThroneRoom
    ensures OwedBy(s, d, answer) == s.plays
  {
  }

  lemma KeptByMessage(t: State, act: Action)
    requires Inv(t) && t.players != [] && Reaches(t, act)
    ensures Inv(Apply(t, act).state) && !Apply(t, act).state.ended
  {
    ApplyInv(t, act);
    assert !t.ended && !EndsTurn(t, act);
    hide Inv, Apply, Conserved, SupplyShrinks;
  }

  /** The messages are all accepted and leave nothing pending exactly if the chain of answers comes to its end, and then
      both end in the same state. */
  lemma {:induction false} SubmittedExactly(t: State, answers: seq<Answer>)
    requires Inv(t) && !t.ended && t.plays == [] && PlaysNothing(t)
    ensures t.players != []
    ensures var r, u := Submitted(t, answers), Suspended(t, answers);
            && (u.Some? <==> r.error.None? && r.state.pending.None?)
            && (u.Some? ==> r == Ok(u.value))
    decreases |answers|
  {
    InvSeated(t);
    if answers != [] && t.pending.Some? {
      var d := t.pending.value;
      var act := ResolveDecision(d.player, d.id, answers[0]);
      var r := OnResolve(t.(pending := None), d, answers[0]);
      StillLive(t);
      assert Reaches(t, act) by { hide Inv, Live; }
      hide OnResolve, Apply, Inv, Live, PlaysNothing;
      OneMessage(t, act);
      if r.error.None? { SubmittedExactly(r.state, answers[1..]); }
    }
  }

  // ----- From the hand -----

  /** An Action that the current player may play. */
  ghost predicate Playable(s: State, c: Card) {
    && Inv(s) && Tidy(s) && !s.ended && s.pending.None? && s.phase == ActionPhase && IsAction(c)
    && s.P(s.current).actions > 0 && c in s.P(s.current).hand
  }

  /** The play and all its answers. */
  function Completed(s: State, c: Card, answers: seq<Answer>): Outcome
    requires s.players != []
  {
    var r := Apply(s, PlayCard(s.current, c));
    if r.error.Some? then r else Submitted(r.state, answers)
  }

  lemma PlayIs(s: State, c: Card)
    requires Playable(s, c)
    ensures s.players != [] && Apply(s, PlayCard(s.current, c)) == Ok(OnPlay(Entered(s, c), s.current, c))
  {
    InvSeated(s);
    hide Inv, OnPlay, Entered;
    PlaysExactly(s, c);
  }

  lemma EnteredFacts(s: State, c: Card)
    requires Playable(s, c)
    ensures var t := Entered(s, c);
            && t.current == s.current < |s.players| == |t.players| && t.pending.None? && t.plays == []
            && t.P(s.current).setAside == []
            && (forall i: nat :: i != s.current ==> t.P(i) == s.P(i))
  {
    InvSeated(s);
    hide Inv, Without;
  }

  /** A playable card whose questions are its own ends by messages exactly as its chain of answers does. */
  lemma CompletedIs(s: State, c: Card, answers: seq<Answer>)
    requires Playable(s, c) && PlaysNothing(OnPlay(Entered(s, c), s.current, c))
    ensures s.players != []
    ensures var r, u := Completed(s, c, answers), Suspended(OnPlay(Entered(s, c), s.current, c), answers);
            && (u.Some? <==> r.error.None? && r.state.pending.None?)
            && (u.Some? ==> r == Ok(u.value))
  {
    var act := PlayCard(s.current, c);
    PlayIs(s, c);
    EnteredFacts(s, c);
    ApplyInv(s, act);
    assert !EndsTurn(s, act) && !s.ended && Inv(s);
    hide Inv, Apply, OnPlay, Entered, PlaysNothing, Suspended, Submitted, Conserved, SupplyShrinks;
    SubmittedExactly(OnPlay(Entered(s, c), s.current, c), answers);
  }

  // ----- Attacks -----

  lemma AttackOwn(c: Card, s: State)
    requires Asking(c) && s.pending.None?
    ensures PlaysNothing(OnPlay(s, s.current, c))
  {
    var (s1, victims) := ResolveAttackVictims(Opening(c, s), s.current, c);
    PlayedAttack(c, s);
    hide OnPlay, Opening, ResolveAttackVictims, MilitiaQueue, BureaucratQueue, BanditQueue, ChainWork;
    assert s1.pending.None? by { OpeningQuiet(c, s); }
    MilitiaShortens(s1, s.current, victims);
    BureaucratShortens(s1, s.current, victims);
    BanditShortens(s1, s.current, victims);
  }

  lemma OpeningQuiet(c: Card, s: State)
    requires Asking(c) && s.pending.None?
    ensures ResolveAttackVictims(Opening(c, s), s.current, c).0.pending.None?
  {
    hide Opening;
  }

  /** An attack played from the hand and answered by messages, in every reachable state with nothing left over. The
      messages are all accepted and nothing stays pending exactly if the plain loop over the Moat-less opponents accepts
      the answers, and then the loop's result is the engine's: Moat holders keep everything and every other opponent is
      struck once. */
  lemma AttackCompleted(c: Card, s: State, answers: seq<Answer>, i: nat)
    requires Asking(c) && Playable(s, c) && i < |s.players| && i != s.current
    ensures s.players != []
    ensures var r := Completed(s, c, answers);
            var (s1, victims) := ResolveAttackVictims(Opening(c, Entered(s, c)), s.current, c);
            var u := Direct(c, s1, victims, answers);
            && (u.Some? <==> r.error.None? && r.state.pending.None?)
            && (u.Some? ==>
                  && r == Ok(u.value)
                  && (if Moat in s.P(i).hand then u.value.P(i) == s.P(i)
                      else Struck(c, s.P(i), u.value.P(i), answers)))
  {
    var t := Entered(s, c);
    EnteredFacts(s, c);
    AttackOwn(c, t);
    CompletedIs(s, c, answers);
    hide Playable, OnPlay, Entered, Completed, Suspended, Direct, Opening, ResolveAttackVictims, Struck, Queue, Asking;
    PlayedAttack(c, t);
    VictimsOf(c, t, i);
    var (s1, victims) := ResolveAttackVictims(Opening(c, t), t.current, c);
    AttackRefines(c, s1, t.current, victims, answers);
    if Suspended(OnPlay(t, t.current, c), answers).Some? { AttackStrikes(c, t, answers, i); }
  }

  // ----- Library and Sentry -----

  /** Library played from the hand and answered by messages: they are all accepted and leave nothing pending exactly if
      there is one yes or no for each Action that comes while the hand has fewer than seven cards. */
  lemma LibraryCompleted(s: State, answers: seq<Answer>)
    requires Playable(s, Library)
    ensures s.players != []
    ensures var r, m, px := Completed(s, Library, answers), Entered(s, Library), s.current;
            var p, cards, verdicts := m.P(px), Coming(m, px), Verdicts(OnPlay(m, px, Library), answers);
            && (r.error.None? && r.state.pending.None? <==> Judgeable(|p.hand|, cards, answers))
            && (r.error.None? && r.state.pending.None? ==>
                  && verdicts == Judgements(|p.hand|, cards, answers)
                  && r.state.P(px).hand == p.hand + Kept(|p.hand|, cards, answers)
                  && LibraryDone(p, r.state.P(px), verdicts) && Recorded(m, r.state, px, verdicts, answers))
  {
    var m := Entered(s, Library);
    EnteredFacts(s, Library);
    LibraryOwn(m, Library);
    CompletedIs(s, Library, answers);
    hide Playable, OnPlay, Entered, Completed, Suspended, Verdicts, LibraryDone, Recorded, Judgeable, Judgements, Kept,
      Coming;
    LibraryToTheEnd(m, answers);
  }

  lemma LibraryOwn(s: State, c: Card)
    requires c == Library && s.pending.None? && s.current < |s.players|
    ensures PlaysNothing(OnPlay(s, s.current, c))
  {
    PlayedLibrary(s, s.current, c);
    hide OnPlay, LibraryStep, ChainWork;
    LibraryShortens(s);
  }

  lemma SentryOwn(s: State, c: Card)
    requires c == Sentry && s.pending.None? && s.current < |s.players| && s.P(s.current).setAside == []
    ensures PlaysNothing(OnPlay(s, s.current, c))
  {
    PlayedSentry(s, s.current, c);
    LooksAt(s, s.current);
    hide OnPlay, Looking;
  }

  /** Sentry played from the hand and answered by messages: they are all accepted and leave nothing pending exactly if
      the answers are acceptable for the cards looked at, and then each of these goes where the answers say. */
  lemma SentryCompleted(s: State, answers: seq<Answer>)
    requires Playable(s, Sentry)
    ensures s.players != []
    ensures var r := Completed(s, Sentry, answers);
            var (m, looked) := Looking(Entered(s, Sentry), s.current);
            && (r.error.None? && r.state.pending.None? <==>
                  if looked == [] then answers == [] else Acceptable(looked, answers))
            && (r.error.None? && r.state.pending.None? ==>
                  SortedOut(m, r.state, s.current, TrashedOf(looked, answers), DiscardedOf(looked, answers),
                            ReturnedOf(looked, answers),
                            if looked == [] then [] else SentryEvents(s.current, looked, answers)))
  {
    var t := Entered(s, Sentry);
    EnteredFacts(s, Sentry);
    SentryOwn(t, Sentry);
    CompletedIs(s, Sentry, answers);
    hide Playable, OnPlay, Entered, Completed, Suspended, Looking, SortedOut, Acceptable, TrashedOf, DiscardedOf,
      ReturnedOf, SentryEvents;
    SentryToTheEnd(t, answers);
  }

  // ----- Cards that exchange cards -----

  /** Whatever these cards ask is their own question. */
  lemma ExchangeOwn(s: State, c: Card)
    requires s.pending.None? && (c == Remodel || c == Mine || c == Artisan || c == Cellar)
    ensures PlaysNothing(OnPlay(s, s.current, c))
  {
    hide OnPlay, RequestDecision, AddActions, HasTreasure;
    match c
    case Remodel =>
      AsksNothing(s, c);
      if s.P(s.current).hand != [] {
        AsksToTrash(s, c);
        RequestFields(s, s.current, c, 0, TrashFromHandPrompt(1, 1, [], []), NoContext);
      }
    case Mine =>
      AsksNothing(s, c);
      if HasTreasure(s.P(s.current).hand) {
        AsksForTreasure(s, c);
        RequestFields(s, s.current, c, 0, TrashFromHandPrompt(0, 1, [Treasure], []), NoContext);
      }
    case Artisan =>
      AsksForGain(s, c);
      RequestFields(s, s.current, c, 0, GainFromSupplyPrompt(5, [], GainToHand), NoContext);
    case Cellar =>
      AsksToDiscard(s, c);
      var s1 := AddActions(s, s.current, 1);
      RequestFields(s1, s.current, c, 0, DiscardFromHandPrompt(0, |s1.P(s.current).hand|), NoContext);
  }

  /** Remodel and Mine do nothing if there is nothing to trash. */
  lemma AsksNothing(s: State, c: Card)
    requires c == Remodel || c == Mine
    ensures c == Remodel && s.P(s.current).hand == [] ==> OnPlay(s, s.current, c) == s
    ensures c == Mine && !HasTreasure(s.P(s.current).hand) ==> OnPlay(s, s.current, c) == s
  {
    hide PlaySilver, PlayHarbinger, LibraryStep, PlayMerchant, PlayPoacher, PlaySentry, PlayVassal, PlayCouncilRoom,
      PlayMilitia, PlayBureaucrat, PlayBandit, PlayWitch, PlayCellar, DrawCards, AddActions, AddBuys, AddCoins,
      RequestDecision, HasTreasure;
  }

  /** Remodel played from the hand and answered by messages. */
  lemma RemodelCompleted(s: State, answers: seq<Answer>)
    requires Playable(s, Remodel)
    ensures s.players != []
    ensures var r, m := Completed(s, Remodel, answers), Entered(s, Remodel);
            var done := r.error.None? && r.state.pending.None?;
            if m.P(s.current).hand == [] then (done <==> answers == []) && (done ==> r.state == m)
            else
              && (done <==> |answers| == 2 && NamesOne(answers[0]) && Names(answers[1], Cost(answers[0].cards[0]) + 2))
              && (done ==> r.state == Remodelled(m, s.current, answers[0].cards[0], answers[1].card))
  {
    var m := Entered(s, Remodel);
    EnteredFacts(s, Remodel);
    ExchangeOwn(m, Remodel);
    CompletedIs(s, Remodel, answers);
    hide Playable, OnPlay, Entered, Completed, Suspended, Cost, Remodelled, PlaysNothing;
    if m.P(s.current).hand == [] {
      AsksNothing(m, Remodel);
      Settles(m, answers);
    } else {
      RemodelChain(m, Remodel, answers);
    }
  }

  /** Mine played from the hand and answered by messages. */
  lemma MineCompleted(s: State, answers: seq<Answer>)
    requires Playable(s, Mine)
    ensures s.players != []
    ensures var r, m := Completed(s, Mine, answers), Entered(s, Mine);
            var done := r.error.None? && r.state.pending.None?;
            if !HasTreasure(m.P(s.current).hand) then (done <==> answers == []) && (done ==> r.state == m)
            else
              && (done <==> || answers == [CardListAnswer([])]
                            || (|answers| == 2 && NamesSome(answers[0]) &&
                                Names(answers[1], Cost(answers[0].cards[0]) + 3) && IsTreasure(answers[1].card)))
              && (done ==>
                    r.state == if |answers| == 1 then Noted(m, s.current)
                               else Mined(m, s.current, answers[0].cards, answers[1].card))
  {
    var m := Entered(s, Mine);
    EnteredFacts(s, Mine);
    ExchangeOwn(m, Mine);
    CompletedIs(s, Mine, answers);
    hide Playable, OnPlay, Entered, Completed, Suspended, Cost, Mined, Noted, PlaysNothing, HasTreasure, IsTreasure;
    if HasTreasure(m.P(s.current).hand) {
      MineChain(m, Mine, answers);
    } else {
      AsksNothing(m, Mine);
      Settles(m, answers);
    }
  }

  /** Artisan played from the hand and answered by messages. */
  lemma ArtisanCompleted(s: State, answers: seq<Answer>)
    requires Playable(s, Artisan)
    ensures s.players != []
    ensures var r := Completed(s, Artisan, answers);
            var done := r.error.None? && r.state.pending.None?;
            && (done <==> |answers| == 2 && Names(answers[0], 5) && answers[1].CardChoiceAnswer?)
            && (done ==> r.state == Crafted(Entered(s, Artisan), s.current, answers[0].card, answers[1].card))
  {
    var m := Entered(s, Artisan);
    EnteredFacts(s, Artisan);
    ExchangeOwn(m, Artisan);
    CompletedIs(s, Artisan, answers);
    hide Playable, OnPlay, Entered, Completed, Suspended, Cost, Crafted, PlaysNothing;
    ArtisanChain(m, Artisan, answers);
  }

  /** Cellar played from the hand and answered by messages, with the size of the hand it leaves. */
  lemma CellarCompleted(s: State, answers: seq<Answer>)
    requires Playable(s, Cellar)
    ensures s.players != []
    ensures var r, m := Completed(s, Cellar, answers), Entered(s, Cellar);
            var done := r.error.None? && r.state.pending.None?;
            && (done <==> |answers| == 1 && answers[0].CardListAnswer?)
            && (done ==>
                  && r.state == Exchanged(m, s.current, answers[0].cards)
                  && SizeAfter(m.P(s.current).hand, Available(m.P(s.current)), answers[0].cards,
                               |r.state.P(s.current).hand|))
  {
    var m := Entered(s, Cellar);
    EnteredFacts(s, Cellar);
    ExchangeOwn(m, Cellar);
    CompletedIs(s, Cellar, answers);
    hide Playable, OnPlay, Entered, Completed, Suspended, Exchanged, PlaysNothing, SizeAfter, Available;
    CellarChain(m, Cellar, answers);
    if |answers| == 1 && answers[0].CardListAnswer? { ExchangedHand(m, s.current, answers[0].cards); }
  }

  /** Seat 0 holds a Cellar and has one Gold to draw. */
  function CellarHeld(): State {
    State([EMPTY_SEAT.(hand := [Cellar], deck := [Gold], actions := 1, buys := 1), EMPTY_SEAT], 0, 0, ActionPhase, map[],
          [], 1, false, [], None, 0, [], 0, [], [])
  }

  lemma CellarPlayable()
    ensures Playable(CellarHeld(), Cellar)
  {
    var s := CellarHeld();
    forall c: Card | c.Unknown? ensures Copies(s.players[0], c) == 0 && Copies(s.players[1], c) == 0 {}
    assert Tidy(s) && AskedOk(s) && Seated(s) && OwedOk(s);
    hide Copies, Tidy, AskedOk, Seated, OwedOk;
    TwoSeatsKnown(s);
    hide NoUnknown;
  }

  lemma CellarEntered()
    ensures var p := Entered(CellarHeld(), Cellar).P(0);
            p.hand == [] && Available(p) == 1 && Found(p.hand, [Copper]) == []
  {
    FoundLength([], [Copper]);
    hide Without, Found;
    assert |Without([Cellar], Cellar)| == 0;
  }

  /** Cellar answered with a card that is not held discards nothing and draws all the same: the hand grows. */
  lemma CellarOverdraws()
    ensures var s := CellarHeld();
            && Playable(s, Cellar) && Entered(s, Cellar).P(0).hand == []
            && var r := Completed(s, Cellar, [CardListAnswer([Copper])]);
            && r.error.None? && r.state.pending.None? && |r.state.P(0).hand| == 1
  {
    hide Playable, Entered, Completed, Exchanged, Available, Found;
    CellarPlayable();
    CellarEntered();
    CellarCompleted(CellarHeld(), [CardListAnswer([Copper])]);
  }
}
