/** A refused answer in the middle of a Throne Room: the replay it leaves behind runs after a later, unrelated card. */
module Stranded {
  import opened Cards
  import opened States
  import opened Primitives
  import opened Effects
  import opened Engine
  import opened Census
  import opened Frames
  import opened Invariants
  import opened Plays
  import opened Runs
  import opened GameLaws
  import opened Acceptance
  import opened Discipline
  import opened Ledgers

  /** Any card can set off a replay that was left behind: with nothing pending and a replay owed, a Chapel is played and
      answered with no card at all, and the latest owed replays run. */
  lemma LateReplay(s: State)
    requires Inv(s) && !s.ended && s.pending.None? && s.plays != []
    requires s.phase == ActionPhase && s.P(s.current).actions > 0 && Chapel in s.P(s.current).hand
    ensures s.players != []
    ensures var s1 := Apply(s, PlayCard(s.current, Chapel)).state;
            && s1.players != [] && s1.pending.Some?
            && var r := Apply(s1, ResolveDecision(s.current, s1.pending.value.id, CardListAnswer([])));
            && r.error.None? && |r.state.plays| < |s.plays| && Replayed(s, r.state, s.plays)
  {
    InvSeated(s);
    var play := PlayCard(s.current, Chapel);
    var s1 := Apply(s, play).state;
    PlaysChapel(s);
    ApplyInv(s, play);
    assert s1.players != [] && s1.current == s.current by { hide Inv, Apply, Conserved, SupplyShrinks; }
    ReplayWaits(s, play);
    var act := ResolveDecision(s.current, s1.pending.value.id, CardListAnswer([]));
    ChapelReleases(s1, act);
    hide Inv, Apply, Stepped, OwedBy, Releases, LatestFirst, Tally, Takes, Reaches;
    AcceptedExactly(s1, act);
    ReplayWaits(s1, act);
    SameOwed(s1, act);
    ReplayedFrom(s, s1, Apply(s1, act).state, s.plays);
  }

  /** Chapel, played from the hand, asks its player. */
  lemma PlaysChapel(s: State)
    requires s.current < |s.players| && !s.ended && s.pending.None?
    requires s.phase == ActionPhase && s.P(s.current).actions > 0 && Chapel in s.P(s.current).hand
    ensures var r := Apply(s, PlayCard(s.current, Chapel));
            && r.error.None? && !r.state.ended && r.state.pending.Some? && r.state.pending.value.card == Chapel
            && r.state.pending.value.player == s.current
  {
  }

  lemma ChapelReleases(s: State, act: Action)
    requires !s.ended && s.pending.Some? && s.pending.value.card == Chapel && s.pending.value.player == s.current
    requires act == ResolveDecision(s.current, s.pending.value.id, CardListAnswer([]))
    ensures Reaches(s, act) && Takes(s, s.pending.value, act.answer) && Releases(s, act)
  {
  }

  lemma SameOwed(s: State, act: Action)
    requires s.pending.Some? && s.pending.value.card == Chapel && act.ResolveDecision?
    ensures OwedBy(s, s.pending.value, act.answer) == s.plays
  {
  }

  // ----- An example -----

  /** Seat 0 has chosen Militia for Throne Room, and seat 1, with four cards in hand, is asked for the first time. */
  function MilitiaAsked(): State {
    var thrower := EMPTY_SEAT.(hand := [Chapel], inPlay := [ThroneRoom, Militia], actions := 1, buys := 1, coins := 2);
    var victim := EMPTY_SEAT.(hand := [Copper, Copper, Copper, Copper]);
    State([thrower, victim], 0, 0, ActionPhase, map[], [], 1, false, [],
          Some(Decision(DecisionId(1), 1, Militia, 0, DiscardFromHandPrompt(1, 1), AttackContext(0, [], []))), 1,
          [PendingPlay(0, Militia, ThroneRoom)], 0, [], [])
  }

  lemma AskedKnown()
    ensures NoUnknown(MilitiaAsked())
  {
    var s := MilitiaAsked();
    forall c: Card | c.Unknown? ensures Copies(s.players[0], c) == 0 && Copies(s.players[1], c) == 0 {}
    hide Copies, Decimal;
    TwoSeatsKnown(s);
  }

  lemma AskedBase()
    ensures Base(MilitiaAsked())
  {
    hide NoUnknown, Decimal;
    AskedKnown();
  }

  lemma AskedInv()
    ensures Inv(MilitiaAsked()) && Tidy(MilitiaAsked())
  {
    hide Base, Decimal;
    AskedBase();
  }

  lemma TallyNone()
    ensures Tally([]).replays == []
  {
  }

  /** Discipline fails here: the victim names no card, the answer is refused and nobody is asked any more, yet the second
      Militia is still owed. It runs after the Chapel that seat 0 plays next and answers with nothing. */
  lemma SecondMilitiaLate()
    ensures var s := MilitiaAsked();
            && Inv(s) && Tidy(s)
            && var r := Apply(s, ResolveDecision(1, DecisionId(1), CardListAnswer([])));
            && r.error == Some(BadAnswer) && r.state == s.(pending := None) && !Tidy(r.state)
            && var s1 := Apply(r.state, PlayCard(0, Chapel)).state;
            && s1.players != [] && s1.pending.Some?
            && var u := Apply(s1, ResolveDecision(0, s1.pending.value.id, CardListAnswer([])));
            && u.error.None? && Tally(u.state.log).replays == [Militia]
  {
    var s := MilitiaAsked();
    AskedInv();
    var t := s.(pending := None);
    var act := ResolveDecision(1, DecisionId(1), CardListAnswer([]));
    assert Apply(s, act) == Fail(t, BadAnswer) by { hide Decimal; }
    ApplyInv(s, act);
    LateReplay(t);
    hide Apply, Inv, Tally;
    assert s.plays[0..] == s.plays && LatestFirst(s.plays) == [Militia] + LatestFirst([]);
    assert Tally(t.log).replays == [] by { TallyNone(); }
  }
}
