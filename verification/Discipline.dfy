/** Decision discipline: how decisions and owed replays are requested, and what an idle engine looks like. */
module Discipline {
  import opened Cards
  import opened States
  import opened Zones
  import opened Primitives
  import opened Effects
  import opened Engine
  import opened Frames
  import opened Invariants
  import opened Plays
  import opened Resolutions
  import opened Runs
  import opened GameLaws
  import opened Acceptance

  /** No decision pending means nothing is left over: no owed replay, and no card set aside except under the eyes of
      Library or Sentry. */
  predicate Tidy(s: State) {
    (s.pending.None? ==> s.plays == []) && AsideOk(s)
  }

  /** The names at the head of the list use up the set-aside cards. */
  predicate UsesUp(cards: seq<Card>, aside: seq<Card>) {
    |cards| >= |aside| && multiset(cards[..|aside|]) == multiset(aside)
  }

  /** Refusing this answer would leave nothing behind: no replay is owed, and no card stays set aside. Library always
      keeps one there; Sentry does unless its last answer runs out of cards before it goes wrong. */
  predicate LeavesNothing(s: State, d: Decision, answer: Answer) {
    && s.plays == [] && d.card != Library
    && (d.card == Sentry ==> d.step == 2 && answer.CardListAnswer? && UsesUp(answer.cards, s.P(d.player).setAside))
  }

  /** The answer is refused, and something is left over that nobody waits for any more. */
  predicate Strands(s: State, act: Action) {
    Reaches(s, act) && !Takes(s, s.pending.value, act.answer) && !LeavesNothing(s, s.pending.value, act.answer)
  }

  // ----- Answers -----

  lemma {:induction false} ReorderAside(s: State, px: nat, cards: seq<Card>)
    requires px < |s.players|
    ensures var r := SentryReorder(s, px, cards);
            r.error.None? ==> r.state.P(px).setAside == []
    decreases |cards|
  {
    hide SortOne;
    if cards != [] && cards[0] in s.P(px).setAside {
      ReorderAside(SortOne(s, px, cards[0], ToDeck), px, cards[1..]);
    }
  }

  lemma SentryAnswerAside(s: State, d: Decision, answer: Answer)
    requires s.pending.None? && s.current < |s.players| && d.player == s.current && d.step <= 2
    ensures var r := ResolveSentry(s, d, answer);
            r.error.None? ==> AsideOk(r.state)
  {
    if answer.CardListAnswer? {
      ReorderAside(s, d.player, answer.cards);
      hide SortSetAside, SentryReorder, Deliver;
      if d.step == 1 {
        AfterDiscardAside(SortSetAside(s, d.player, answer.cards, ToDiscard));
      }
    }
  }

  lemma AfterDiscardAside(s: State)
    requires s.pending.None? && s.current < |s.players|
    ensures AsideOk(SentryAfterDiscard(s, s.current))
  {
  }

  lemma SettledAside(s: State, d: Decision, answer: Answer)
    requires s.pending.None? && s.current < |s.players| && d.player < |s.players| && Justified(s, d)
    requires d.card != ThroneRoom && d.card != Vassal && d.card != Library && d.card != Sentry
    requires s.P(s.current).setAside == []
    ensures AsideOk(OnResolve(s, d, answer).state)
  {
    hide OnResolve, AskedOk, Tally, Conserved, SupplyShrinks, OthersKept, Justified;
    ResolveSettles(s, d, answer);
  }

  lemma ThroneAside(s: State, d: Decision, answer: Answer)
    requires s.pending.None? && s.current < |s.players| && OwnAsked(s, d) && s.P(s.current).setAside == []
    requires forall c: Card :: c.Unknown? ==> c !in s.P(s.current).hand
    ensures AsideOk(ResolveThroneRoom(s, d, answer).state)
  {
    hide ResolveThroneRoom, PlayedFromZone, AsideOk;
    ThroneRoomPlays(s, d, answer);
    var r := ResolveThroneRoom(s, d, answer);
    if r.error.None? {
      PlayedFacts(s.(plays := s.plays + [PendingPlay(s.current, answer.card, ThroneRoom)]), r.state, answer.card);
    } else {
      EmptyAside(s);
    }
  }

  lemma EmptyAside(s: State)
    requires s.P(s.current).setAside == []
    ensures AsideOk(s)
  {
  }

  lemma VassalAside(s: State, d: Decision, answer: Answer)
    requires s.pending.None? && s.current < |s.players| && d.card == Vassal && Justified(s, d)
    requires s.P(s.current).setAside == []
    ensures AsideOk(ResolveVassal(s, d, answer).state)
  {
    hide ResolveVassal, PlayedFromZone, AsideOk;
    VassalPlays(s, d, answer);
    EmptyAside(s);
    if answer == YesNoAnswer(true) { PlayedFacts(s, ResolveVassal(s, d, answer).state, d.context.card); }
  }

  /** An answer, accepted unless it is to Library or Sentry, leaves cards set aside only under Library or Sentry. */
  lemma AnswerAside(s: State, d: Decision, answer: Answer)
    requires Base(s) && s.pending.None? && d.player < |s.players| && Justified(s, d)
    requires d.card == Library || d.card == Sentry || s.P(s.current).setAside == []
    requires d.card == Library || d.card == Sentry ==> OnResolve(s, d, answer).error.None?
    ensures AsideOk(OnResolve(s, d, answer).state)
  {
    if d.card == Library {
      hide LibraryStep;
      LibraryAside(if answer.yes then s else KeepDrawn(s, d.player, d.context.card));
    } else if d.card == Sentry {
      hide ResolveSentry;
      SentryAnswerAside(s, d, answer);
    } else if d.card == ThroneRoom {
      hide ResolveThroneRoom;
      HandKnown(s, s.current);
      ThroneAside(s, d, answer);
    } else if d.card == Vassal {
      hide ResolveVassal;
      VassalAside(s, d, answer);
    } else {
      hide OnResolve;
      SettledAside(s, d, answer);
    }
  }

  // ----- Refused answers -----

  lemma AddedAlike(a: multiset<Card>, b: multiset<Card>, c: Card)
    ensures a + multiset{c} == b + multiset{c} <==> a == b
  {
    assert a + multiset{c} - multiset{c} == a && b + multiset{c} - multiset{c} == b;
  }

  lemma HeadCounts(c: Card, rest: seq<Card>, n: nat)
    requires 0 < n <= |rest| + 1
    ensures multiset(([c] + rest)[..n]) == multiset(rest[..n - 1]) + multiset{c}
  {
    assert ([c] + rest)[..n] == [c] + rest[..n - 1];
  }

  lemma UsesUpStep(c: Card, rest: seq<Card>, aside: seq<Card>)
    requires c in aside
    ensures UsesUp([c] + rest, aside) <==> UsesUp(rest, Without(aside, c))
  {
    var n := |aside|;
    var less := Without(aside, c);
    assert multiset(aside) == multiset(less) + multiset{c} && |less| == n - 1;
    hide Without;
    if |rest| >= n - 1 {
      HeadCounts(c, rest, n);
      AddedAlike(multiset(rest[..n - 1]), multiset(less), c);
    }
  }

  lemma FirstMissing(cards: seq<Card>, aside: seq<Card>)
    requires cards != [] && cards[0] !in aside
    ensures UsesUp(cards, aside) <==> aside == []
  {
    if aside != [] && |cards| >= |aside| {
      assert cards[..|aside|][0] == cards[0];
      assert cards[0] in multiset(cards[..|aside|]);
    }
  }

  /** A refused order stops at the first name that is not there. */
  lemma {:induction false} ReorderLeaves(s: State, px: nat, cards: seq<Card>)
    requires px < |s.players|
    ensures var r := SentryReorder(s, px, cards);
            r.error.Some? ==> (r.state.P(px).setAside == [] <==> UsesUp(cards, s.P(px).setAside))
    decreases |cards|
  {
    if cards != [] {
      var c, rest := cards[0], cards[1..];
      var aside := s.P(px).setAside;
      assert cards == [c] + rest;
      if c in aside {
        var s1 := SortOne(s, px, c, ToDeck);
        assert s1.P(px).setAside == Without(aside, c) && px < |s1.players|;
        UsesUpStep(c, rest, aside);
        hide SortOne, Without, UsesUp;
        ReorderLeaves(s1, px, rest);
      } else {
        FirstMissing(cards, aside);
      }
    }
  }

  lemma InspectingRefused(s: State, d: Decision, answer: Answer)
    requires d.player == s.current < |s.players| && Justified(s, d) && OnResolve(s, d, answer).error.Some?
    requires d.card == Library || d.card == Sentry
    ensures OnResolve(s, d, answer).state.P(s.current).setAside == [] <==>
            d.card == Sentry && d.step == 2 && answer.CardListAnswer? && UsesUp(answer.cards, s.P(s.current).setAside)
  {
    hide LibraryStep, KeepDrawn, SentryReorder, SortSetAside, SentryAfterTrash, SentryAfterDiscard, UsesUp;
    if d.card == Sentry && d.step == 2 && answer.CardListAnswer? { ReorderLeaves(s, d.player, answer.cards); }
  }

  /** What a refused answer leaves set aside. */
  lemma RefusedAside(s: State, d: Decision, answer: Answer)
    requires Live(s, d) && OnResolve(s, d, answer).error.Some?
    requires d.card == Library || d.card == Sentry || s.P(s.current).setAside == []
    ensures var t := OnResolve(s, d, answer).state;
            && t.pending.None? && t.plays == s.plays && t.current == s.current
            && (s.plays == [] && t.P(t.current).setAside == [] <==> LeavesNothing(s, d, answer))
  {
    assert d.player < |s.players| && Justified(s, d) && Base(s);
    if d.card == Library || d.card == Sentry { assert d.player == s.current; }
    NoCleanup(s);
    hide OnResolve, Justified, Live, Base, Frame, AskedOk, OwedOk, UsesUp;
    OnResolveAnswers(s, d, answer);
    SameTableOf(s, OnResolve(s, d, answer).state);
    if d.card == Library || d.card == Sentry {
      InspectingRefused(s, d, answer);
    } else {
      AnswerAside(s, d, answer);
    }
  }

  // ----- Actions -----

  lemma TidyParts(s: State)
    requires Tidy(s) && s.pending.Some?
    ensures var c := s.pending.value.card;
            c == Library || c == Sentry || s.P(s.current).setAside == []
  {
  }

  lemma SameLeaves(s: State, d: Decision, answer: Answer)
    ensures LeavesNothing(s.(pending := None), d, answer) <==> LeavesNothing(s, d, answer)
  {
    hide UsesUp;
  }

  lemma TidyIdle(t: State)
    requires t.pending.None?
    ensures Tidy(t) <==> t.plays == [] && t.P(t.current).setAside == []
  {
  }

  lemma ReachingTidy(s: State, act: Action)
    requires Inv(s) && s.players != [] && Tidy(s) && Reaches(s, act)
    ensures Tidy(Apply(s, act).state) <==> !Strands(s, act)
  {
    var d := s.pending.value;
    var s0 := s.(pending := None);
    var r := OnResolve(s0, d, act.answer);
    StillLive(s);
    TidyParts(s);
    SameTakes(s, d, act.answer);
    SameLeaves(s, d, act.answer);
    assert Base(s0) && d.player < |s0.players| && Justified(s0, d);
    NoCleanup(s0);
    ReachesCard(s, act);
    hide OnResolve, Justified, Live, Inv, Base, Unwind, Frame, AskedOk, AsideOk, Takes, LeavesNothing, Apply, Tidy,
      OwedOk;
    TakenExactly(s0, d, act.answer);
    if r.error.None? {
      OnResolveAnswers(s0, d, act.answer);
      AnswerAside(s0, d, act.answer);
      SameTableOf(s0, r.state);
      UnwindKeeps(r.state);
      assert Tidy(Unwind(r.state).state) by { TidyFrom(Unwind(r.state).state); }
    } else {
      RefusedAside(s0, d, act.answer);
      TidyIdle(r.state);
    }
  }

  lemma TidyFrom(t: State)
    requires AsideOk(t) && (t.pending.None? ==> t.plays == [])
    ensures Tidy(t)
  {
  }

  lemma PlayTidy(s: State, c: Card)
    requires Inv(s) && !s.ended && s.pending.None? && Tidy(s)
    ensures Tidy(ApplyPlayCard(s, s.current, c).state)
  {
    var s1 := SpendAction(s, s.current);
    NoCleanup(s);
    SpendActionSpends(s);
    assert s.plays == [] && s.P(s.current).setAside == [];
    hide PlayCardFromZone, Inv, Tidy, ApplyPlayCard, SpendAction, Spends, SameTurn;
    SpendFields(s, s1);
    PlayCases(s, c);
    FromZoneTidy(s, c);
    FromZoneTidy(s1, c);
  }

  lemma FromZoneTidy(s: State, c: Card)
    requires s.current < |s.players| && s.pending.None? && s.plays == [] && s.P(s.current).setAside == []
    ensures Tidy(PlayCardFromZone(s, s.current, c, FromHand).state)
  {
    hide PlayCardFromZone, PlayedFromZone, AsideOk;
    EmptyAside(s);
    PlayFromZoneKeeps(s, c, FromHand);
    var r := PlayCardFromZone(s, s.current, c, FromHand);
    if r.error.None? { PlayedFacts(s, r.state, c); }
  }

  lemma BuyTidy(s: State, c: Card)
    requires s.current < |s.players| && s.pending.None? && Tidy(s)
    ensures Tidy(ApplyBuyCard(s, s.current, c).state)
  {
    var s1 := PayFor(s, s.current, c);
    PayForSpends(s, c);
    hide ApplyBuyCard, PayFor, GainCard, Cost, Spends, SameTurn;
    SpendFields(s, s1);
    BuyCases(s, c);
    GainAside(s1, c);
  }

  lemma GainAside(s: State, c: Card)
    requires s.current < |s.players|
    ensures GainCard(s, s.current, c, GainToDiscard).P(s.current).setAside == s.P(s.current).setAside
  {
  }

  lemma EndPhaseTidy(s: State)
    requires Inv(s) && !s.ended && s.pending.None? && Tidy(s)
    ensures Tidy(ApplyEndPhase(s).state)
  {
    NoCleanup(s);
    if s.phase == BuyPhase {
      CleanupPasses(s);
      var t := CleanupAndEndTurn(s);
      TurnPassedInv(s, t);
      EndBuyIs(s);
      var u := ApplyEndPhase(s).state;
      assert u.P(u.current) == t.P(t.current) && u.pending == t.pending && u.plays == t.plays;
      assert t.plays == [];
      hide CleanupAndEndTurn, ApplyEndPhase, TurnPassed;
    }
  }

  /** From a tidy state one action leads to a tidy state exactly if it does not strand anything. */
  lemma TidyStep(s: State, act: Action)
    requires Inv(s) && Tidy(s)
    ensures s.players != []
    ensures Tidy(Apply(s, act).state) <==> !Strands(s, act)
  {
    InvSeated(s);
    if Reaches(s, act) {
      hide Inv, Tidy, Strands, Apply, Reaches;
      ReachingTidy(s, act);
    } else {
      hide Strands;
      OtherTidy(s, act);
      assert !Strands(s, act) by { hide Takes, LeavesNothing, Reaches; }
    }
  }

  lemma OtherTidy(s: State, act: Action)
    requires Inv(s) && s.players != [] && Tidy(s) && !Reaches(s, act)
    ensures Tidy(Apply(s, act).state)
  {
    hide ApplyPlayCard, ApplyBuyCard, ApplyEndPhase, Tidy;
    if s.ended || s.pending.Some? || act.player != s.current {
      hide Inv, Apply, Reaches;
      RefusedAtDoor(s, act);
    } else {
      match act
      case PlayCard(_, c) => PlayTidy(s, c);
      case BuyCard(_, c) => NoCleanup(s); BuyTidy(s, c);
      case EndPhase(_) => EndPhaseTidy(s);
      case ResolveDecision(_, _, _) =>
    }
  }

  /** Every state along the run is tidy. */
  predicate AllTidy(s: State, acts: seq<Action>)
    requires s.players != []
    decreases |acts|
  {
    Tidy(s) && (acts == [] || AllTidy(Apply(s, acts[0]).state, acts[1..]))
  }

  /** No answer along the run strands anything. */
  predicate StrandsNothing(s: State, acts: seq<Action>)
    requires s.players != []
    decreases |acts|
  {
    acts == [] || (!Strands(s, acts[0]) && StrandsNothing(Apply(s, acts[0]).state, acts[1..]))
  }

  /** Both defensive flushes at cleanup find nothing to flush along a run exactly if no answer of the run strands
      anything. */
  lemma {:induction false} TidyOverRun(s: State, acts: seq<Action>)
    requires Inv(s) && s.players != [] && Tidy(s)
    ensures AllTidy(s, acts) <==> StrandsNothing(s, acts)
    decreases |acts|
  {
    hide Inv, Tidy, Apply, Strands;
    if acts != [] {
      ApplyInv(s, acts[0]);
      TidyStep(s, acts[0]);
      if Strands(s, acts[0]) {
        StaysUntidy(Apply(s, acts[0]).state, acts[1..]);
      } else {
        TidyOverRun(Apply(s, acts[0]).state, acts[1..]);
      }
    }
  }

  lemma StaysUntidy(s: State, acts: seq<Action>)
    requires s.players != [] && !Tidy(s)
    ensures !AllTidy(s, acts)
  {
  }

  lemma {:induction false} TidyAtEnd(s: State, acts: seq<Action>)
    requires s.players != [] && AllTidy(s, acts)
    ensures Tidy(Run(s, acts))
    decreases |acts|
  {
    hide Tidy, Apply;
    if acts != [] { TidyAtEnd(Apply(s, acts[0]).state, acts[1..]); }
  }

  /** The players keep to their prompts: every answer that reaches its card follows the prompt. */
  predicate KeepsToPrompts(s: State, acts: seq<Action>)
    requires s.players != []
    decreases |acts|
  {
    || acts == []
    || ((Reaches(s, acts[0]) ==> Follows(s, s.pending.value, acts[0].answer)) &&
        KeepsToPrompts(Apply(s, acts[0]).state, acts[1..]))
  }

  /** Players who keep to their prompts never strand anything, whatever else they try. */
  lemma {:induction false} PromptsKeepTidy(s: State, acts: seq<Action>)
    requires Inv(s) && s.players != [] && Tidy(s) && KeepsToPrompts(s, acts)
    ensures AllTidy(s, acts)
    decreases |acts|
  {
    hide Inv, Tidy, Apply, Follows, Takes, LeavesNothing;
    if acts != [] {
      ApplyInv(s, acts[0]);
      TidyStep(s, acts[0]);
      if Reaches(s, acts[0]) { FollowingTaken(s, acts[0].answer); }
      PromptsKeepTidy(Apply(s, acts[0]).state, acts[1..]);
    }
  }

  /** One action requests at most one decision, and requests it only when none is live: the request counter moves by
      one exactly when a new decision is pending afterwards. */
  lemma OneRequest(s: State, act: Action)
    requires Inv(s)
    ensures s.players != []
    ensures var t := Apply(s, act).state;
            (t.decisionSeq == s.decisionSeq && (t.pending == s.pending || t.pending.None?)) ||
            (t.decisionSeq == s.decisionSeq + 1 && t.pending.Some? && t.pending.value.id == DecisionId(t.decisionSeq))
  {
    ApplyInv(s, act);
    hide Apply, Conserved, SupplyShrinks;
  }

  // ----- Rejected actions -----

  /** Playing an Action that is not in hand: the action point is spent before the hand is looked at. */
  predicate LosesAction(s: State, act: Action) {
    !s.ended && s.pending.None? && act.PlayCard? && act.player == s.current && IsAction(act.card) &&
    s.phase == ActionPhase && s.P(s.current).actions > 0 && act.card !in s.P(s.current).hand
  }

  /** A rejected action leaves the state alone except in exactly two cases: it played a missing Action, or it was an
      answer that its card refused. */
  lemma RejectedUnchanged(s: State, act: Action)
    requires Inv(s) && s.players != [] && Apply(s, act).error.Some?
    ensures Apply(s, act).state == s <==> !LosesAction(s, act) && !Reaches(s, act)
    ensures LosesAction(s, act) ==>
              Apply(s, act).state == SpendAction(s, s.current)
    ensures Reaches(s, act) ==> Apply(s, act).state.pending.None? && Apply(s, act).state.plays == s.plays
  {
    NoCleanup(s);
    if Reaches(s, act) {
      RefusedAnswer(s, act);
    } else if !s.ended && s.pending.None? && act.player == s.current && act.PlayCard? {
      hide Inv, PlayInPlace;
      RefusedPlay(s, act.card);
    } else {
      hide Inv, OnResolve, PlayCardFromZone, GainCard, CleanupAndEndTurn, Cost;
    }
  }

  lemma RefusedAnswer(s: State, act: Action)
    requires Inv(s) && s.players != [] && Reaches(s, act) && Apply(s, act).error.Some?
    ensures Apply(s, act).state.pending.None? && Apply(s, act).state.plays == s.plays && Apply(s, act).state != s
  {
    var s0 := s.(pending := None);
    var d := s.pending.value;
    ClearingKeeps(s);
    assert d.player < |s.players|;
    hide OnResolve, Justified, Inv, Base, Unwind, Frame, AskedOk;
    OnResolveAnswers(s0, d, act.answer);
    var r := OnResolve(s0, d, act.answer);
    if r.error.None? {
      assert r.state.current < |r.state.players| by { SameTableOf(s0, r.state); NoCleanup(s0); }
      UnwindKeeps(r.state);
    }
  }

  lemma RefusedPlay(s: State, c: Card)
    requires s.current < |s.players| && s.pending.None? && !s.ended
    requires ApplyPlayCard(s, s.current, c).error.Some?
    ensures var t := ApplyPlayCard(s, s.current, c).state;
            if LosesAction(s, PlayCard(s.current, c)) then t == SpendAction(s, s.current) && t != s
            else t == s
  {
    hide PlayInPlace;
    var t := SpendAction(s, s.current);
    assert t.P(s.current).hand == s.P(s.current).hand && t.P(s.current).actions != s.P(s.current).actions;
  }

  /** The one case in which a rejected action that reached no card costs something. */
  lemma MissingAction(s: State, c: Card)
    requires s.current < |s.players| && LosesAction(s, PlayCard(s.current, c))
    ensures Apply(s, PlayCard(s.current, c)) == Outcome(SpendAction(s, s.current), Some(CardNotInHand))
    ensures SpendAction(s, s.current).P(s.current).actions == s.P(s.current).actions - 1
  {
    hide PlayInPlace;
    assert SpendAction(s, s.current).P(s.current).hand == s.P(s.current).hand;
  }
}
