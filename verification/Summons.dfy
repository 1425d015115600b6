/** The cards that play other cards: Vassal and Throne Room, from the hand to the last answer. */
module Summons {
  import opened Cards
  import opened States
  import opened Zones
  import opened Primitives
  import opened Effects
  import opened Engine
  import opened Frames
  import opened Invariants
  import opened Runs
  import opened GameLaws
  import opened Moves
  import opened Drawing
  import opened Ledgers
  import opened Chains
  import opened Acceptance
  import opened Rules
  import opened Entries

  // ----- Turning over the top card -----

  /** The seat turned its top card over onto its discard pile, after shuffling the discard pile into an empty deck; with
      nothing to turn over nothing has happened. */
  predicate TurnsUp(s: State, t: State, px: nat, revealed: seq<Card>) {
    var p := s.P(px);
    if p.deck == [] && p.discard == [] then t == s && revealed == []
    else
      var (deck, rng) := if p.deck != [] then (p.deck, s.rng) else Shuffle(p.discard, s.rng);
      var rest := if p.deck != [] then p.discard else [];
      var top := deck[|deck| - 1];
      && px < |s.players| && revealed == [top]
      && t == s.(players := s.players[px := p.(deck := deck[..|deck| - 1], discard := rest + [top])], rng := rng,
                 log := s.log + [CardDiscarded(px, top)])
  }

  lemma TopTurned(s: State, px: nat)
    requires px < |s.players| && s.P(px).deck != []
    ensures TurnsUp(s, DiscardTop(s, px).0, px, DiscardTop(s, px).1)
  {
    hide Shuffle;
  }

  lemma RefilledTurned(s: State, px: nat)
    requires px < |s.players| && s.P(px).deck == [] && s.P(px).discard != []
    ensures var r, p := RefillIfEmpty(s, px), s.P(px);
            && r == s.(players := s.players[px := p.(deck := Shuffle(p.discard, s.rng).0, discard := [])],
                       rng := Shuffle(p.discard, s.rng).1)
            && DiscardTop(s, px) == DiscardTop(r, px)
  {
    assert [] + s.P(px).discard == s.P(px).discard;
    hide Shuffle, DeliverTop;
  }

  lemma RevealOneIs(s: State, px: nat)
    requires Available(s.P(px)) > 0
    ensures RevealAndDiscardFromDeck(s, px, 1) == DiscardTop(s, px)
  {
    var (s1, top) := DiscardTop(s, px);
    assert RevealAndDiscardFromDeck(s1, px, 0) == (s1, []);
    assert top + [] == top;
    hide DiscardTop;
  }

  /** One reveal takes exactly the top card of the deck, or of the shuffled discard pile if the deck is empty. */
  lemma RevealsTop(s: State, px: nat)
    requires px < |s.players|
    ensures var (t, revealed) := RevealAndDiscardFromDeck(s, px, 1);
            TurnsUp(s, t, px, revealed)
  {
    var p := s.P(px);
    if Available(p) > 0 {
      RevealOneIs(s, px);
      if p.deck != [] {
        TopTurned(s, px);
      } else {
        var r := RefillIfEmpty(s, px);
        RefilledTurned(s, px);
        TopTurned(r, px);
        hide RevealAndDiscardFromDeck, DiscardTop, RefillIfEmpty, Shuffle;
        TurnedAfterRefill(s, r, DiscardTop(r, px).0, px, DiscardTop(r, px).1);
      }
    }
  }

  lemma TurnedAfterRefill(s: State, r: State, t: State, px: nat, revealed: seq<Card>)
    requires px < |s.players| && s.P(px).deck == [] && s.P(px).discard != []
    requires var p, (deck, rng) := s.P(px), Shuffle(s.P(px).discard, s.rng);
             r == s.(players := s.players[px := p.(deck := deck, discard := [])], rng := rng)
    requires TurnsUp(r, t, px, revealed)
    ensures TurnsUp(s, t, px, revealed)
  {
    hide Shuffle;
    var p, q := s.P(px), t.P(px);
    assert s.players[px := r.P(px)][px := q] == s.players[px := q];
  }

  lemma RevealStep(s: State, px: nat, n: nat)
    requires px < |s.players| && s.P(px).deck != [] && n > 0
    ensures var (s1, top) := DiscardTop(s, px);
            var (s2, rest) := RevealAndDiscardFromDeck(s1, px, n - 1);
            RevealAndDiscardFromDeck(s, px, n) == (s2, top + rest)
  {
    hide DiscardTop;
  }

  lemma RevealNone(s: State, px: nat)
    ensures RevealAndDiscardFromDeck(s, px, 0) == (s, []) && TopDown(s.P(px).deck, 0) == []
    ensures s.P(px) == s.P(px).(deck := s.P(px).deck[..|s.P(px).deck|], discard := s.P(px).discard + [])
  {
  }

  lemma TurnedSeat(s: State, px: nat)
    requires px < |s.players| && s.P(px).deck != []
    ensures var (t, revealed) := DiscardTop(s, px);
            var p := s.P(px);
            && |t.players| == |s.players| && revealed == [p.deck[|p.deck| - 1]]
            && t.P(px) == p.(deck := p.deck[..|p.deck| - 1], discard := p.discard + revealed)
  {
    hide DiscardTop;
    TopTurned(s, px);
  }

  /** As long as the deck lasts, `n` reveals take its top `n` cards in order. */
  lemma {:induction false} RevealsTopCards(s: State, px: nat, n: nat)
    requires px < |s.players| && n <= |s.P(px).deck|
    ensures var (t, revealed) := RevealAndDiscardFromDeck(s, px, n);
            var p := s.P(px);
            && revealed == TopDown(p.deck, n)
            && t.P(px) == p.(deck := p.deck[..|p.deck| - n], discard := p.discard + revealed)
    decreases n
  {
    hide DiscardTop, TopDown, RevealAndDiscardFromDeck;
    var p := s.P(px);
    if n == 0 {
      RevealNone(s, px);
    } else {
      var s1, top := DiscardTop(s, px).0, p.deck[|p.deck| - 1];
      RevealStep(s, px, n);
      TurnedSeat(s, px);
      TopStep(p.deck, n - 1);
      SnocAssoc(p.discard, top, TopDown(s1.P(px).deck, n - 1));
      RevealsTopCards(s1, px, n - 1);
    }
  }

  // ----- Vassal -----

  /** The question that Vassal asks about the card it turned over, on top of `z`. */
  predicate Offered(z: State, t: State, px: nat, top: Card) {
    var n := z.decisionSeq + 1;
    t == z.(decisionSeq := n, log := z.log + [DecisionRequested(px)],
            pending := Some(Decision(DecisionId(n), px, Vassal, 0, MayPlayActionPrompt(top), CardContext(top))))
  }

  lemma VassalRuns(s: State, px: nat, c: Card)
    requires c == Vassal
    ensures var (z, revealed) := RevealAndDiscardFromDeck(s, px, 1);
            var t := OnPlay(s, px, c);
            if revealed != [] && IsAction(revealed[0]) then Offered(z, t, px, revealed[0]) else t == z
  {
    hide RevealAndDiscardFromDeck, DecisionId;
  }

  /** Vassal played from the hand turns over exactly the next card of its player's deck, and asks about that card if and
      only if it is an Action. */
  lemma VassalPlayed(s: State)
    requires Playable(s, Vassal)
    ensures s.players != []
    ensures var r, m := Apply(s, PlayCard(s.current, Vassal)), Entered(s, Vassal);
            var (z, revealed) := RevealAndDiscardFromDeck(m, s.current, 1);
            && r.error.None? && TurnsUp(m, z, s.current, revealed) && m.pending.None?
            && (if revealed != [] && IsAction(revealed[0]) then Offered(z, r.state, s.current, revealed[0])
                else r.state == z)
  {
    PlayIs(s, Vassal);
    EnteredFacts(s, Vassal);
    hide Playable, Apply, OnPlay, Entered, RevealAndDiscardFromDeck, TurnsUp, Offered;
    RevealsTop(Entered(s, Vassal), s.current);
    VassalRuns(Entered(s, Vassal), s.current, Vassal);
  }

  /** The card moves from the discard pile into play. */
  function Raised(s: State, px: nat, c: Card): State {
    var p := s.P(px);
    s.(players := if px < |s.players| then
                    s.players[px := p.(discard := Without(p.discard, c), inPlay := p.inPlay + [c])]
                  else s.players,
       log := s.log + [CardPlayed(px, c)])
  }

  lemma RaisedIs(s: State, px: nat, c: Card)
    requires px < |s.players| && c in s.P(px).discard && Known(c)
    ensures PlayCardFromZone(s, px, c, FromDiscard) == Ok(OnPlay(Raised(s, px, c), px, c))
  {
    hide OnPlay, Without, Known;
  }

  lemma OfferedFields(z: State, t: State, px: nat, top: Card)
    requires Offered(z, t, px, top) && z.pending.None?
    ensures t.pending.Some? && t.(pending := None) == Noted(z, px) && t.plays == z.plays && t.ended == z.ended
    ensures var d := t.pending.value; d.player == px && d.card == Vassal && d.context == CardContext(top)
  {
  }

  /** The answer to Vassal's question, with nothing owed. */
  lemma VassalResumes(z: State, t: State, px: nat, top: Card, yes: bool)
    requires Inv(t) && t.players != [] && !t.ended && Offered(z, t, px, top) && z.pending.None? && z.plays == []
    requires px < |z.players| && top in z.P(px).discard && Known(top)
    ensures t.pending.Some?
    ensures Apply(t, ResolveDecision(px, t.pending.value.id, YesNoAnswer(yes))) ==
            Ok(if yes then OnPlay(Raised(Noted(z, px), px, top), px, top) else Noted(z, px))
  {
    OfferedFields(z, t, px, top);
    var d, act := t.pending.value, ResolveDecision(px, t.pending.value.id, YesNoAnswer(yes));
    assert act.player == px && act.decisionId == d.id && act.answer == YesNoAnswer(yes) && act.ResolveDecision?;
    hide Inv, Apply, OnPlay, OnResolve, Raised, Noted, Offered, Unwind, Known, PlayCardFromZone, Reaches;
    ReachesExactly(t, act);
    ReachesCard(t, act);
    var s0 := Noted(z, px);
    ResolversOf(s0, d, act.answer);
    NotedSeat(z, px);
    if yes { RaisedIs(s0, px, top); }
    NoReplay(if yes then OnPlay(Raised(s0, px, top), px, top) else s0);
  }

  lemma NotedSeat(z: State, px: nat)
    ensures Noted(z, px).P(px) == z.P(px) && |Noted(z, px).players| == |z.players| && Noted(z, px).plays == z.plays
    ensures forall c :: Raised(Noted(z, px), px, c).plays == z.plays
  {
    hide Without;
  }

  /** Vassal's question answered: "yes" takes exactly the card turned over from the discard pile into play and runs it
      once, "no" leaves it on the discard pile. */
  lemma VassalAnswered(s: State, yes: bool)
    requires Playable(s, Vassal)
    ensures s.players != []
    ensures var t, m, px := Apply(s, PlayCard(s.current, Vassal)).state, Entered(s, Vassal), s.current;
            var (z, revealed) := RevealAndDiscardFromDeck(m, px, 1);
            t.pending.Some? ==>
              && revealed != []
              && Apply(t, ResolveDecision(px, t.pending.value.id, YesNoAnswer(yes))) ==
                 Ok(if yes then OnPlay(Raised(Noted(z, px), px, revealed[0]), px, revealed[0]) else Noted(z, px))
  {
    var m, px := Entered(s, Vassal), s.current;
    var act := PlayCard(px, Vassal);
    var (z, revealed) := RevealAndDiscardFromDeck(m, px, 1);
    EnteredFacts(s, Vassal);
    VassalPlayed(s);
    PlayedOn(s, Vassal);
    var t := Apply(s, act).state;
    hide Playable, Apply, Entered, RevealAndDiscardFromDeck, OnPlay, Raised, Noted, Offered, IsAction;
    TurnedFacts(m, z, px, revealed);
    if t.pending.Some? {
      assert IsAction(revealed[0]);
      ActionsKnown(revealed[0]);
      VassalResumes(z, t, px, revealed[0], yes);
    }
  }

  lemma ActionsKnown(c: Card)
    requires IsAction(c)
    ensures Known(c)
  {
  }

  lemma PlayedOn(s: State, c: Card)
    requires Playable(s, c)
    ensures s.players != []
    ensures var t := Apply(s, PlayCard(s.current, c)).state; Inv(t) && !t.ended && t.players != []
  {
    var act := PlayCard(s.current, c);
    InvSeated(s);
    ApplyInv(s, act);
    assert !EndsTurn(s, act) && !s.ended && Inv(s);
    hide Inv, Apply, Conserved, SupplyShrinks;
  }

  lemma TurnedFacts(m: State, z: State, px: nat, revealed: seq<Card>)
    requires TurnsUp(m, z, px, revealed)
    ensures z.pending == m.pending && z.plays == m.plays && |z.players| == |m.players|
    ensures revealed != [] ==> px < |z.players| && revealed[0] in z.P(px).discard
  {
    hide Shuffle;
  }

  // ----- Throne Room -----

  predicate Doubles(z: State, t: State, px: nat) {
    var n := z.decisionSeq + 1;
    t == z.(decisionSeq := n, log := z.log + [DecisionRequested(px)],
            pending := Some(Decision(DecisionId(n), px, ThroneRoom, 0, ChooseActionFromHandPrompt, NoContext)))
  }

  lemma ThroneRuns(s: State, px: nat, c: Card)
    requires c == ThroneRoom
    ensures if HasAction(s.P(px).hand) then Doubles(s, OnPlay(s, px, c), px) else OnPlay(s, px, c) == s
  {
    hide DecisionId, HasAction;
  }

  /** Throne Room played from the hand asks exactly if an Action is left in the hand. */
  lemma ThroneRoomPlayed(s: State)
    requires Playable(s, ThroneRoom)
    ensures s.players != []
    ensures var r, m := Apply(s, PlayCard(s.current, ThroneRoom)), Entered(s, ThroneRoom);
            && r.error.None?
            && (if exists c | c in m.P(s.current).hand :: IsAction(c) then Doubles(m, r.state, s.current)
                else r.state == m)
  {
    PlayIs(s, ThroneRoom);
    hide Playable, Apply, OnPlay, Entered, Doubles, IsAction;
    ThroneRuns(Entered(s, ThroneRoom), s.current, ThroneRoom);
  }

  /** The chosen card goes from the hand into play, and its replay is owed. */
  function Throned(s: State, px: nat, c: Card): State {
    var p := s.P(px);
    s.(players := if px < |s.players| then s.players[px := p.(hand := Without(p.hand, c), inPlay := p.inPlay + [c])]
                  else s.players,
       plays := s.plays + [PendingPlay(px, c, ThroneRoom)], log := s.log + [CardPlayed(px, c)])
  }

  lemma ThronedIs(s: State, d: Decision, c: Card, none: bool)
    requires d.player < |s.players|
    ensures var r := ResolveThroneRoom(s, d, CardChoiceAnswer(c, none));
            if c !in s.P(d.player).hand then r == Fail(s, CardNotInHand)
            else Known(c) ==> r == Ok(OnPlay(Throned(s, d.player, c), d.player, c))
  {
    hide OnPlay, Without, Known;
  }

  /** The second run of a card that left nothing pending: the owed replay is taken off and runs in place. */
  function Again(t: State, px: nat, c: Card): State {
    var s := t.(plays := [], log := t.log + [CardThroned(px, c), CardPlayed(px, c)]);
    OnPlay(s, px, c)
  }

  lemma OneReplay(t: State, px: nat, c: Card)
    requires t.plays == [PendingPlay(px, c, ThroneRoom)] && Known(c)
    ensures Unwind(t) == Ok(if t.pending.Some? then t else Again(t, px, c))
  {
    if t.pending.None? {
      var s1 := t.(plays := t.plays[..|t.plays| - 1], log := t.log + [CardThroned(px, c)]);
      assert t.log + [CardThroned(px, c)] + [CardPlayed(px, c)] == t.log + [CardThroned(px, c), CardPlayed(px, c)];
      assert PlayInPlace(s1, px, c) == Again(t, px, c);
      hide OnPlay, Known;
      NoReplay(Again(t, px, c));
    }
  }

  lemma DoublesFields(z: State, t: State, px: nat)
    requires Doubles(z, t, px) && z.pending.None?
    ensures t.pending.Some? && t.(pending := None) == Noted(z, px) && t.ended == z.ended
    ensures t.pending.value.player == px && t.pending.value.card == ThroneRoom
  {
  }

  lemma ThronedPlays(z: State, px: nat, c: Card)
    requires z.plays == []
    ensures OnPlay(Throned(Noted(z, px), px, c), px, c).plays == [PendingPlay(px, c, ThroneRoom)]
  {
    hide OnPlay, Without;
  }

  lemma ThroneResumes(z: State, t: State, px: nat, c: Card, none: bool)
    requires Inv(t) && t.players != [] && !t.ended && Doubles(z, t, px) && z.pending.None? && z.plays == []
    requires px < |z.players| && (c in z.P(px).hand ==> Known(c))
    ensures t.pending.Some?
    ensures Apply(t, ResolveDecision(px, t.pending.value.id, CardChoiceAnswer(c, none))) ==
            if c !in z.P(px).hand then Fail(Noted(z, px), CardNotInHand)
            else
              var u := OnPlay(Throned(Noted(z, px), px, c), px, c);
              Ok(if u.pending.Some? then u else Again(u, px, c))
  {
    DoublesFields(z, t, px);
    var d, act := t.pending.value, ResolveDecision(px, t.pending.value.id, CardChoiceAnswer(c, none));
    assert act.player == px && act.decisionId == d.id && act.answer == CardChoiceAnswer(c, none) && act.ResolveDecision?;
    hide Inv, Apply, OnPlay, OnResolve, Throned, Noted, Doubles, Unwind, Known, ResolveThroneRoom, Reaches, Again;
    ReachesExactly(t, act);
    ReachesCard(t, act);
    var s0 := Noted(z, px);
    ResolversOf(s0, d, act.answer);
    NotedSeat(z, px);
    ThronedIs(s0, d, c, none);
    ThronedPlays(z, px, c);
    if c in z.P(px).hand { OneReplay(OnPlay(Throned(s0, px, c), px, c), px, c); }
  }

  /** Throne Room's question answered: a card of the hand goes into play and runs, and if that leaves nothing pending it
      runs a second time at once; otherwise its replay stays owed. A card that is not in the hand is refused. */
  lemma ThroneRoomAnswered(s: State, c: Card, none: bool)
    requires Playable(s, ThroneRoom)
    ensures s.players != []
    ensures var t, m, px := Apply(s, PlayCard(s.current, ThroneRoom)).state, Entered(s, ThroneRoom), s.current;
            t.pending.Some? ==>
              Apply(t, ResolveDecision(px, t.pending.value.id, CardChoiceAnswer(c, none))) ==
              if c !in m.P(px).hand then Fail(Noted(m, px), CardNotInHand)
              else
                var u := OnPlay(Throned(Noted(m, px), px, c), px, c);
                Ok(if u.pending.Some? then u else Again(u, px, c))
  {
    var m, px := Entered(s, ThroneRoom), s.current;
    EnteredFacts(s, ThroneRoom);
    ThroneRoomPlayed(s);
    PlayedOn(s, ThroneRoom);
    EnteredKnown(s, ThroneRoom, c);
    var t := Apply(s, PlayCard(px, ThroneRoom)).state;
    hide Playable, Apply, Entered, OnPlay, Throned, Noted, Doubles, IsAction, Again, Known;
    if t.pending.Some? { ThroneResumes(m, t, px, c, none); }
  }

  lemma EnteredHand(s: State, c: Card)
    requires s.current < |s.players|
    ensures Entered(s, c).P(s.current).hand == Without(s.P(s.current).hand, c)
  {
    hide Without;
  }

  lemma WithoutMember(cards: seq<Card>, c: Card, d: Card)
    requires d in Without(cards, c)
    ensures d in cards
  {
    MultisetMember(Without(cards, c), d);
    MultisetMember(cards, d);
  }

  lemma PlayableKnown(s: State, c: Card)
    requires Playable(s, c)
    ensures s.current < |s.players| && forall d: Card :: d.Unknown? ==> d !in s.P(s.current).hand
  {
    InvSeated(s);
    HandsKnown(s);
  }

  lemma EnteredKnown(s: State, c: Card, d: Card)
    requires Playable(s, c)
    ensures d in Entered(s, c).P(s.current).hand ==> Known(d)
  {
    hide Playable, Without, Entered;
    PlayableKnown(s, c);
    EnteredHand(s, c);
    if d in Without(s.P(s.current).hand, c) { WithoutMember(s.P(s.current).hand, c, d); }
  }
}
