/** Library, from the play to the last answer. */
module Libraries {
  import opened Cards
  import opened States
  import opened Zones
  import opened Primitives
  import opened Effects
  import opened Census
  import opened Chains
  import opened Drawing

  /** How many cards a log says were drawn. */
  function Draws(log: seq<Event>): nat {
    if log == [] then 0 else Draws(log[..|log| - 1]) + (if log[|log| - 1].CardDrawn? then 1 else 0)
  }

  lemma DrawsEmit(log: seq<Event>, e: Event)
    ensures Draws(log + [e]) == Draws(log) + (if e.CardDrawn? then 1 else 0)
  {
    assert (log + [e])[..|log|] == log;
  }

  lemma {:induction false} DrawsNone(log: seq<Event>, more: seq<Event>)
    requires forall e :: e in more ==> !e.CardDrawn?
    ensures Draws(log + more) == Draws(log)
    decreases |more|
  {
    if more == [] {
      assert log + more == log;
    } else {
      var k := |more| - 1;
      assert more[k] in more;
      DrawsNone(log, more[..k]);
      DrawsEmit(log + more[..k], more[k]);
      assert log + more[..k] + [more[k]] == log + more;
    }
  }

  /** An Action the player was asked about, and whether it was left aside. */
  datatype Verdict = Verdict(card: Card, aside: bool)

  /** The player's verdicts, in the order of the questions. */
  function Verdicts(t: State, answers: seq<Answer>): seq<Verdict>
    decreases |answers|
  {
    if t.pending.None? || answers == [] then []
    else
      var d := t.pending.value;
      (if answers[0].YesNoAnswer? && d.context.CardContext? then [Verdict(d.context.card, answers[0].yes)] else []) +
      Verdicts(OnResolve(t.(pending := None), d, answers[0]).state, answers[1..])
  }

  /** The Actions answered "yes". */
  function YesOf(verdicts: seq<Verdict>): seq<Card> {
    if verdicts == [] then []
    else (if verdicts[0].aside then [verdicts[0].card] else []) + YesOf(verdicts[1..])
  }

  /** The set-aside zone after the verdicts: each Action joins it at the end, and a kept one takes the first equal card
      out again. */
  function LeftAside(zone: seq<Card>, verdicts: seq<Verdict>): seq<Card>
    decreases |verdicts|
  {
    if verdicts == [] then zone else LeftAside(AfterVerdict(zone, verdicts[0]), verdicts[1..])
  }

  function AfterVerdict(zone: seq<Card>, v: Verdict): seq<Card> {
    if v.aside then zone + [v.card] else Without(zone + [v.card], v.card)
  }

  lemma {:induction false} LeftAsideCount(zone: seq<Card>, verdicts: seq<Verdict>, c: Card)
    ensures multiset(LeftAside(zone, verdicts))[c] == multiset(zone)[c] + multiset(YesOf(verdicts))[c]
    decreases |verdicts|
  {
    if verdicts != [] {
      var v, rest := verdicts[0], verdicts[1..];
      var next := AfterVerdict(zone, v);
      LeftAsideCount(next, rest, c);
      assert multiset(next)[c] == multiset(zone)[c] + (if v.aside && v.card == c then 1 else 0) by { hide Without; }
      hide AfterVerdict;
    }
  }

  /** As a multiset, the verdicts leave aside exactly the Actions answered "yes". */
  lemma LeftAsideIs(zone: seq<Card>, verdicts: seq<Verdict>)
    ensures multiset(LeftAside(zone, verdicts)) == multiset(zone) + multiset(YesOf(verdicts))
  {
    hide LeftAside, YesOf;
    forall c ensures multiset(LeftAside(zone, verdicts))[c] == multiset(zone)[c] + multiset(YesOf(verdicts))[c] {
      LeftAsideCount(zone, verdicts, c);
    }
  }

  ghost predicate SameCopies(p: PlayerState, q: PlayerState) {
    forall c :: Copies(q, c) == Copies(p, c)
  }

  /** The seat `q` is what a finished Library leaves of the seat `p`, where `rest` is the part of the discard pile that
      was not drawn through. */
  ghost predicate Finished(p: PlayerState, q: PlayerState, rest: seq<Card>, verdicts: seq<Verdict>) {
    && q == p.(hand := q.hand, deck := q.deck, discard := rest + LeftAside(p.setAside, verdicts), setAside := [])
    && p.hand <= q.hand
    && (|q.hand| >= 7 || (q.deck == [] && rest == []))
    && (|q.hand| <= 7 || q.hand == p.hand)
    && SameCopies(p, q)
  }

  /** Every card drawn came to the hand or was set aside. As long as they all came from the deck the discard pile stays
      as it was and the deck loses them from its top; otherwise the discard pile was shuffled in. */
  ghost predicate LibraryDone(p: PlayerState, q: PlayerState, verdicts: seq<Verdict>) {
    var drawn := |q.hand| - |p.hand| + |YesOf(verdicts)|;
    && 0 <= drawn
    && Finished(p, q, if drawn <= |p.deck| then p.discard else [], verdicts)
    && (drawn <= |p.deck| ==> q.deck == p.deck[..|p.deck| - drawn])
  }

  // ----- Single steps -----

  /** The deck and the discard pile after one draw: the discard pile was shuffled in only if the deck was empty. */
  predicate DeckDrew(p: PlayerState, q: PlayerState) {
    if p.deck != [] then q.deck == p.deck[..|p.deck| - 1] && q.discard == p.discard else q.discard == []
  }

  /** The seat after one draw. */
  predicate DrewOne(p: PlayerState, q: PlayerState) {
    && q.hand != [] && p.hand == q.hand[..|q.hand| - 1]
    && q == p.(hand := q.hand, deck := q.deck, discard := q.discard)
    && DeckDrew(p, q)
  }

  lemma RefilledCopies(s: State, px: nat)
    requires px < |s.players|
    ensures var r := RefillIfEmpty(s, px);
            && SameCopies(s.P(px), r.P(px)) && r.log == s.log && |r.players| == |s.players|
            && r.P(px) == s.P(px).(deck := r.P(px).deck, discard := r.P(px).discard)
            && (if s.P(px).deck != [] then r == s else r.P(px).discard == [])
  {
  }

  lemma TopDrawn(s: State, px: nat)
    requires px < |s.players| && s.P(px).deck != []
    ensures var t := DeliverTop(s, px, ToHand);
            && SameCopies(s.P(px), t.P(px)) && Draws(t.log) == Draws(s.log) + 1 && |t.players| == |s.players|
            && t.P(px) == s.P(px).(deck := t.P(px).deck, hand := t.P(px).hand)
            && t.P(px).hand != [] && s.P(px).hand == t.P(px).hand[..|t.P(px).hand| - 1]
            && t.P(px).deck == s.P(px).deck[..|s.P(px).deck| - 1]
  {
    var deck := s.P(px).deck;
    var top := deck[|deck| - 1];
    assert deck == deck[..|deck| - 1] + [top];
    DrawsEmit(s.log, CardDrawn(px, top));
    hide Draws;
  }

  lemma CopiesTrans(p: PlayerState, q: PlayerState, r: PlayerState)
    requires SameCopies(p, q) && SameCopies(q, r)
    ensures SameCopies(p, r)
  {
    hide Copies;
  }

  lemma DrawOneDraws(s: State, px: nat)
    requires px < |s.players| && Available(s.P(px)) > 0
    ensures var t := DrawOne(s, px);
            && DrewOne(s.P(px), t.P(px)) && SameCopies(s.P(px), t.P(px))
            && Draws(t.log) == Draws(s.log) + 1 && |t.players| == |s.players|
  {
    hide RefillIfEmpty, DeliverTop, Draws, SameCopies;
    var r := RefillIfEmpty(s, px);
    RefilledCopies(s, px);
    TopDrawn(r, px);
    CopiesTrans(s.P(px), r.P(px), DeliverTop(r, px, ToHand).P(px));
  }

  lemma FlushFinishes(s: State, px: nat)
    requires px < |s.players|
    requires |s.P(px).hand| >= 7 || Available(s.P(px)) == 0
    ensures var t := FlushSetAside(s, px);
            LibraryDone(s.P(px), t.P(px), []) && Draws(t.log) == Draws(s.log)
  {
    var p := s.P(px);
    assert p.deck[..|p.deck|] == p.deck && LeftAside(p.setAside, []) == p.setAside && YesOf([]) == [];
    DrawsNone(s.log, DiscardEvents(px, p.setAside));
    hide Draws, LeftAside;
  }

  /** After one draw, and at most one verdict on the card drawn, Library goes on from the seat `p1`. */
  predicate Advanced(p: PlayerState, p1: PlayerState, first: seq<Verdict>) {
    && p1 == p.(hand := p1.hand, deck := p1.deck, discard := p1.discard, setAside := LeftAside(p.setAside, first))
    && DeckDrew(p, p1) && |first| <= 1
    && p.hand <= p1.hand && |p1.hand| + |YesOf(first)| == |p.hand| + 1
  }

  lemma OneVerdict(zone: seq<Card>, v: Verdict, later: seq<Verdict>)
    ensures LeftAside(zone, [v] + later) == LeftAside(AfterVerdict(zone, v), later)
    ensures LeftAside(zone, [v]) == AfterVerdict(zone, v)
    ensures YesOf([v] + later) == (if v.aside then [v.card] else []) + YesOf(later)
    ensures YesOf([v]) == if v.aside then [v.card] else []
  {
    hide AfterVerdict;
    var all := [v] + later;
    assert all[1..] == later;
    assert [v][1..] == [];
    assert YesOf([]) == [] && LeftAside(AfterVerdict(zone, v), []) == AfterVerdict(zone, v);
  }

  lemma VerdictFirst(zone: seq<Card>, first: seq<Verdict>, later: seq<Verdict>)
    requires |first| <= 1
    ensures LeftAside(zone, first + later) == LeftAside(LeftAside(zone, first), later)
    ensures YesOf(first + later) == YesOf(first) + YesOf(later)
  {
    if first == [] {
      assert first + later == later && LeftAside(zone, []) == zone && YesOf([]) == [];
    } else {
      assert first == [first[0]];
      hide LeftAside, YesOf, AfterVerdict;
      OneVerdict(zone, first[0], later);
    }
  }

  /** One more draw in front. */
  lemma GoesOn(p: PlayerState, p1: PlayerState, q: PlayerState, first: seq<Verdict>, later: seq<Verdict>)
    requires Advanced(p, p1, first) && |p.hand| < 7 && SameCopies(p, p1) && LibraryDone(p1, q, later)
    ensures LibraryDone(p, q, first + later)
  {
    hide SameCopies, LeftAside, YesOf, Without;
    VerdictFirst(p.setAside, first, later);
    CopiesTrans(p, p1, q);
    var drawn := |q.hand| - |p1.hand| + |YesOf(later)|;
    if p.deck != [] && drawn <= |p1.deck| {
      assert p.deck[..|p.deck| - 1][..|p1.deck| - drawn] == p.deck[..|p.deck| - (drawn + 1)];
    }
  }

  lemma DrewAdvanced(p: PlayerState, p1: PlayerState)
    requires DrewOne(p, p1)
    ensures Advanced(p, p1, [])
  {
  }

  // ----- The whole chain -----

  /** Library stopped at the last card of the hand. */
  function AskAbout(s: State, px: nat, drawn: Card): State
    requires s.P(px).hand != []
  {
    RequestDecision(SetAsideLast(s, px), px, Library, 0, SetAsideActionPrompt(drawn), CardContext(drawn))
  }

  /** The state in which Library goes on after the answer. */
  function Resumed(s: State, px: nat, drawn: Card, yes: bool): State
    requires s.P(px).hand != []
  {
    var s2 := AskAbout(s, px, drawn).(pending := None);
    if yes then s2 else KeepDrawn(s2, px, drawn)
  }

  lemma SetAsideSeat(s: State, px: nat, drawn: Card)
    requires px < |s.players| && s.P(px).hand != [] && drawn == s.P(px).hand[|s.P(px).hand| - 1]
    ensures var p1, s2 := s.P(px), Resumed(s, px, drawn, true);
            && s2.P(px) == p1.(hand := p1.hand[..|p1.hand| - 1], setAside := p1.setAside + [drawn])
            && SameCopies(p1, s2.P(px)) && Draws(s2.log) == Draws(s.log) && |s2.players| == |s.players|
  {
    var p1 := s.P(px);
    var rest := p1.hand[..|p1.hand| - 1];
    assert p1.hand == rest + [drawn];
    DrawsEmit(s.log, DecisionRequested(px));
    var p2 := p1.(hand := rest, setAside := p1.setAside + [drawn]);
    assert SameCopies(p1, p2);
    hide Draws, SameCopies;
  }

  lemma KeepSeat(s: State, px: nat, drawn: Card)
    requires px < |s.players| && drawn in s.P(px).setAside
    ensures var p2, s3 := s.P(px), KeepDrawn(s, px, drawn);
            && s3.P(px) == p2.(hand := p2.hand + [drawn], setAside := Without(p2.setAside, drawn))
            && SameCopies(p2, s3.P(px)) && s3.log == s.log && |s3.players| == |s.players|
  {
    var p2 := s.P(px);
    var p3 := p2.(hand := p2.hand + [drawn], setAside := Without(p2.setAside, drawn));
    assert SameCopies(p2, p3);
    hide SameCopies, Without;
  }

  /** From `s` one card was drawn, asked about and judged; Library goes on in `s3`. */
  ghost predicate Judged(s: State, s3: State, px: nat, drawn: Card, yes: bool) {
    var p, p3 := s.P(px), s3.P(px);
    && s3.pending.None? && |s3.players| == |s.players| && Draws(s3.log) == Draws(s.log) + 1
    && Available(p3) == Available(p) - 1 && SameCopies(p, p3)
    && (exists p1 :: DrewOne(p, p1) &&
          p3 == if yes then p1.(hand := p.hand, setAside := p.setAside + [drawn])
                else p1.(hand := p.hand + [drawn], setAside := Without(p.setAside + [drawn], drawn)))
  }

  lemma DrewParts(p: PlayerState, p1: PlayerState)
    requires DrewOne(p, p1)
    ensures p1.hand != [] && p1.hand[..|p1.hand| - 1] == p.hand && p1.setAside == p.setAside
  {
  }

  lemma JudgedBy(s: State, s3: State, px: nat, drawn: Card, yes: bool, p1: PlayerState)
    requires s3.pending.None? && |s3.players| == |s.players| && Draws(s3.log) == Draws(s.log) + 1
    requires Available(s3.P(px)) == Available(s.P(px)) - 1 && SameCopies(s.P(px), s3.P(px))
    requires DrewOne(s.P(px), p1)
    requires s3.P(px) == if yes then p1.(hand := s.P(px).hand, setAside := s.P(px).setAside + [drawn])
                         else p1.(hand := s.P(px).hand + [drawn],
                                  setAside := Without(s.P(px).setAside + [drawn], drawn))
    ensures Judged(s, s3, px, drawn, yes)
  {
    hide Draws, SameCopies, DrewOne, Without, Available;
  }

  lemma ResumedJudged(s: State, px: nat, drawn: Card, yes: bool)
    requires s.pending.None? && px < |s.players| && Available(s.P(px)) > 0
    requires DrawOne(s, px).P(px).hand != [] && drawn == DrawOne(s, px).P(px).hand[|DrawOne(s, px).P(px).hand| - 1]
    ensures Judged(s, Resumed(DrawOne(s, px), px, drawn, yes), px, drawn, yes)
  {
    var s1 := DrawOne(s, px);
    var p, p1 := s.P(px), s1.P(px);
    var s2 := Resumed(s1, px, drawn, true);
    assert s2.pending.None? && KeepDrawn(s2, px, drawn).pending.None?;
    assert Resumed(s1, px, drawn, false) == KeepDrawn(s2, px, drawn);
    hide Draws, SameCopies, DrawOne, KeepDrawn, DrewOne, Without, Resumed, AskAbout, Judged;
    DrawOneDraws(s, px);
    DrewParts(p, p1);
    SetAsideSeat(s1, px, drawn);
    CopiesTrans(p, p1, s2.P(px));
    if yes {
      JudgedBy(s, s2, px, drawn, yes, p1);
    } else {
      KeepSeat(s2, px, drawn);
      CopiesTrans(p, s2.P(px), KeepDrawn(s2, px, drawn).P(px));
      JudgedBy(s, KeepDrawn(s2, px, drawn), px, drawn, yes, p1);
    }
  }

  lemma VerdictAdvances(p: PlayerState, p1: PlayerState, p3: PlayerState, drawn: Card, yes: bool)
    requires DrewOne(p, p1)
    requires p3 == if yes then p1.(hand := p.hand, setAside := p.setAside + [drawn])
                   else p1.(hand := p.hand + [drawn], setAside := Without(p.setAside + [drawn], drawn))
    ensures Advanced(p, p3, [Verdict(drawn, yes)])
  {
    OneVerdict(p.setAside, Verdict(drawn, yes), []);
    hide Without, LeftAside, YesOf;
  }

  lemma JudgedAdvanced(s: State, s3: State, px: nat, drawn: Card, yes: bool)
    requires Judged(s, s3, px, drawn, yes)
    ensures Advanced(s.P(px), s3.P(px), [Verdict(drawn, yes)]) && SameCopies(s.P(px), s3.P(px))
  {
    hide Draws, SameCopies, Without, LeftAside, YesOf, DrewOne, Advanced, Available;
    var p, p3 := s.P(px), s3.P(px);
    var p1 :| DrewOne(p, p1) &&
              p3 == if yes then p1.(hand := p.hand, setAside := p.setAside + [drawn])
                    else p1.(hand := p.hand + [drawn], setAside := Without(p.setAside + [drawn], drawn));
    VerdictAdvances(p, p1, p3, drawn, yes);
  }

  lemma JudgedThen(s: State, s3: State, px: nat, drawn: Card, yes: bool, q: PlayerState, later: seq<Verdict>)
    requires Judged(s, s3, px, drawn, yes) && |s.P(px).hand| < 7 && LibraryDone(s3.P(px), q, later)
    ensures LibraryDone(s.P(px), q, [Verdict(drawn, yes)] + later)
  {
    hide SameCopies, LibraryDone, Judged, Advanced;
    JudgedAdvanced(s, s3, px, drawn, yes);
    GoesOn(s.P(px), s3.P(px), q, [Verdict(drawn, yes)], later);
  }

  /** Each answer is the verdict on one Action. */
  predicate AsAnswered(verdicts: seq<Verdict>, answers: seq<Answer>) {
    && |verdicts| == |answers|
    && (forall i :: 0 <= i < |verdicts| ==>
          IsAction(verdicts[i].card) && answers[i] == YesNoAnswer(verdicts[i].aside))
  }

  /** What the log and the answers say about a finished Library. */
  ghost predicate Recorded(s: State, u: State, px: nat, verdicts: seq<Verdict>, answers: seq<Answer>) {
    && Draws(u.log) + |s.P(px).hand| == Draws(s.log) + |u.P(px).hand| + |YesOf(verdicts)|
    && |answers| <= Available(s.P(px)) && AsAnswered(verdicts, answers)
  }

  lemma MoreVerdicts(v: Verdict, later: seq<Verdict>, answers: seq<Answer>)
    requires answers != [] && IsAction(v.card) && answers[0] == YesNoAnswer(v.aside)
    requires AsAnswered(later, answers[1..])
    ensures AsAnswered([v] + later, answers)
  {
    hide IsAction;
    var all := [v] + later;
    forall i | 0 <= i < |all| ensures IsAction(all[i].card) && answers[i] == YesNoAnswer(all[i].aside) {
      if i > 0 { assert all[i] == later[i - 1] && answers[i] == answers[1..][i - 1]; }
    }
  }

  lemma JudgedCounts(s: State, s3: State, px: nat, drawn: Card, yes: bool)
    requires Judged(s, s3, px, drawn, yes)
    ensures Draws(s3.log) == Draws(s.log) + 1 && Available(s3.P(px)) == Available(s.P(px)) - 1
    ensures |s3.P(px).hand| + |YesOf([Verdict(drawn, yes)])| == |s.P(px).hand| + 1
  {
    hide Draws, SameCopies, DrewOne, Without, Available, YesOf, LeftAside, DeckDrew;
    JudgedAdvanced(s, s3, px, drawn, yes);
  }

  lemma JudgedRecord(s: State, s3: State, u: State, px: nat, drawn: Card, later: seq<Verdict>, answers: seq<Answer>)
    requires answers != [] && answers[0].YesNoAnswer? && IsAction(drawn)
    requires Judged(s, s3, px, drawn, answers[0].yes) && Recorded(s3, u, px, later, answers[1..])
    ensures Recorded(s, u, px, [Verdict(drawn, answers[0].yes)] + later, answers)
  {
    var v := Verdict(drawn, answers[0].yes);
    hide Draws, Judged, Available, IsAction, YesOf, LeftAside, AsAnswered;
    JudgedCounts(s, s3, px, drawn, answers[0].yes);
    VerdictFirst([], [v], later);
    MoreVerdicts(v, later, answers);
  }

  lemma FlushLength(s: State, px: nat)
    requires px < |s.players|
    ensures FlushSetAside(s, px).P(px).hand == s.P(px).hand && FlushSetAside(s, px).pending == s.pending
  {
  }

  lemma DrewRecord(s: State, s1: State, u: State, px: nat, verdicts: seq<Verdict>, answers: seq<Answer>)
    requires DrewOne(s.P(px), s1.P(px)) && Draws(s1.log) == Draws(s.log) + 1
    requires Available(s1.P(px)) <= Available(s.P(px)) && Recorded(s1, u, px, verdicts, answers)
    ensures Recorded(s, u, px, verdicts, answers)
  {
    hide Draws, Available, IsAction;
  }

  lemma FlushRecord(s: State, px: nat)
    requires px < |s.players| && (|s.P(px).hand| >= 7 || Available(s.P(px)) == 0)
    ensures LibraryDone(s.P(px), FlushSetAside(s, px).P(px), [])
    ensures Recorded(s, FlushSetAside(s, px), px, [], [])
  {
    hide Draws, LibraryDone, FlushSetAside, IsAction;
    FlushFinishes(s, px);
    FlushLength(s, px);
  }

  lemma {:induction false} LibraryChain(s: State, px: nat, answers: seq<Answer>)
    requires s.pending.None? && px < |s.players| && Suspended(LibraryStep(s, px), answers).Some?
    ensures var u, verdicts := Suspended(LibraryStep(s, px), answers).value, Verdicts(LibraryStep(s, px), answers);
            LibraryDone(s.P(px), u.P(px), verdicts) && Recorded(s, u, px, verdicts, answers)
    decreases Available(s.P(px))
  {
    hide Draws, LibraryDone, Recorded, OnResolve, DrawOne, IsAction, FlushSetAside, KeepDrawn, SetAsideLast, DrewOne,
      SameCopies, RequestDecision, Judged, Available;
    var p := s.P(px);
    if |p.hand| >= 7 || Available(p) == 0 {
      FlushLength(s, px);
      FlushRecord(s, px);
    } else {
      var s1 := DrawOne(s, px);
      var drawn := s1.P(px).hand[|s1.P(px).hand| - 1];
      if !IsAction(drawn) {
        DrawOneDraws(s, px);
        LibraryChain(s1, px, answers);
        var u, verdicts := Suspended(LibraryStep(s1, px), answers).value, Verdicts(LibraryStep(s1, px), answers);
        DrewAdvanced(p, s1.P(px));
        GoesOn(p, s1.P(px), u.P(px), [], verdicts);
        assert [] + verdicts == verdicts;
        DrewRecord(s, s1, u, px, verdicts, answers);
      } else {
        AskedChain(s, px, drawn, answers);
      }
    }
  }

  lemma AskIs(s: State, px: nat)
    requires |s.P(px).hand| < 7 && Available(s.P(px)) > 0
    ensures var s1 := DrawOne(s, px);
            var drawn := s1.P(px).hand[|s1.P(px).hand| - 1];
            IsAction(drawn) ==> LibraryStep(s, px) == AskAbout(s1, px, drawn) && LibraryStep(s, px).pending.Some?
  {
    hide DrawOne, IsAction, SetAsideLast;
  }

  lemma AskedChain(s: State, px: nat, drawn: Card, answers: seq<Answer>)
    requires s.pending.None? && px < |s.players| && Suspended(LibraryStep(s, px), answers).Some?
    requires |s.P(px).hand| < 7 && Available(s.P(px)) > 0
    requires var p1 := DrawOne(s, px).P(px);
             p1.hand != [] && drawn == p1.hand[|p1.hand| - 1] && IsAction(drawn)
    ensures var u, verdicts := Suspended(LibraryStep(s, px), answers).value, Verdicts(LibraryStep(s, px), answers);
            LibraryDone(s.P(px), u.P(px), verdicts) && Recorded(s, u, px, verdicts, answers)
    decreases Available(s.P(px)), 0
  {
    hide Draws, LibraryDone, Recorded, OnResolve, DrawOne, IsAction, LibraryStep, Verdicts, RequestDecision, DrewOne,
      SameCopies, Judged, AskAbout, Resumed, Available;
    AskIs(s, px);
    assert answers != [];
    hide Suspended;
    AskedAnswer(DrawOne(s, px), px, drawn, answers);
    ResumedJudged(s, px, drawn, answers[0].yes);
    var s3 := Resumed(DrawOne(s, px), px, drawn, answers[0].yes);
    JudgedFacts(s, s3, px, drawn, answers[0].yes);
    LibraryChain(s3, px, answers[1..]);
    var u, later := Suspended(LibraryStep(s3, px), answers[1..]).value, Verdicts(LibraryStep(s3, px), answers[1..]);
    JudgedThen(s, s3, px, drawn, answers[0].yes, u.P(px), later);
    JudgedRecord(s, s3, u, px, drawn, later, answers);
  }

  lemma JudgedFacts(s: State, s3: State, px: nat, drawn: Card, yes: bool)
    requires Judged(s, s3, px, drawn, yes)
    ensures s3.pending.None? && |s3.players| == |s.players| && Available(s3.P(px)) < Available(s.P(px))
  {
  }

  // ----- Which answers are accepted -----

  /** How many questions Library asks with `held` cards in hand and `cards` to come, if it is answered so. */
  function Asked(held: nat, cards: seq<Card>, answers: seq<Answer>): nat
    decreases |cards|
  {
    if held >= 7 || cards == [] then 0
    else if !IsAction(cards[0]) then Asked(held + 1, cards[1..], answers)
    else if answers == [] then 1
    else 1 + Asked(if answers[0] == YesNoAnswer(true) then held else held + 1, cards[1..], answers[1..])
  }

  /** The cards that come to the hand, in order. */
  function Kept(held: nat, cards: seq<Card>, answers: seq<Answer>): seq<Card>
    decreases |cards|
  {
    if held >= 7 || cards == [] then []
    else if !IsAction(cards[0]) then [cards[0]] + Kept(held + 1, cards[1..], answers)
    else if answers == [] then []
    else if answers[0] == YesNoAnswer(true) then Kept(held, cards[1..], answers[1..])
    else [cards[0]] + Kept(held + 1, cards[1..], answers[1..])
  }

  /** The Actions asked about, each with its answer. */
  function Judgements(held: nat, cards: seq<Card>, answers: seq<Answer>): seq<Verdict>
    decreases |cards|
  {
    if held >= 7 || cards == [] then []
    else if !IsAction(cards[0]) then Judgements(held + 1, cards[1..], answers)
    else if answers == [] then []
    else
      var yes := answers[0] == YesNoAnswer(true);
      [Verdict(cards[0], yes)] + Judgements(if yes then held else held + 1, cards[1..], answers[1..])
  }

  /** One answer, yes or no, for each question. */
  predicate Judgeable(held: nat, cards: seq<Card>, answers: seq<Answer>) {
    |answers| == Asked(held, cards, answers) && forall i :: 0 <= i < |answers| ==> answers[i].YesNoAnswer?
  }

  /** One answer to a suspended Library, accepted exactly if it is yes or no. */
  lemma AskedAnswer(s: State, px: nat, drawn: Card, answers: seq<Answer>)
    requires s.P(px).hand != []
    ensures var t := AskAbout(s, px, drawn);
            if answers == [] || !answers[0].YesNoAnswer? then Suspended(t, answers).None?
            else
              var s3 := Resumed(s, px, drawn, answers[0].yes);
              && Suspended(t, answers) == Suspended(LibraryStep(s3, px), answers[1..])
              && Verdicts(t, answers) ==
                 [Verdict(drawn, answers[0].yes)] + Verdicts(LibraryStep(s3, px), answers[1..])
  {
    hide LibraryStep, KeepDrawn, SetAsideLast;
  }

  lemma ResumedFields(s: State, px: nat, drawn: Card, yes: bool)
    requires s.pending.None? && px < |s.players| && s.P(px).hand != [] && drawn == s.P(px).hand[|s.P(px).hand| - 1]
    ensures var t, p := Resumed(s, px, drawn, yes), s.P(px);
            && t.P(px).deck == p.deck && t.P(px).discard == p.discard && t.rng == s.rng
            && t.pending.None? && |t.players| == |s.players|
            && t.P(px).hand == (if yes then p.hand[..|p.hand| - 1] else p.hand[..|p.hand| - 1] + [drawn])
  {
    hide Without;
  }

  lemma ResumedComing(s: State, px: nat, drawn: Card, yes: bool)
    requires s.pending.None? && px < |s.players| && s.P(px).hand != [] && drawn == s.P(px).hand[|s.P(px).hand| - 1]
    ensures var t, p := Resumed(s, px, drawn, yes), s.P(px);
            && Coming(t, px) == Coming(s, px) && t.pending.None? && |t.players| == |s.players|
            && t.P(px).hand == (if yes then p.hand[..|p.hand| - 1] else p.hand)
            && Available(t.P(px)) == Available(p)
  {
    hide Resumed, Coming;
    ResumedFields(s, px, drawn, yes);
    ComingSame(s, Resumed(s, px, drawn, yes), px);
    assert s.P(px).hand == s.P(px).hand[..|s.P(px).hand| - 1] + [drawn];
  }

  /** What the reference says of a finished or refused chain. */
  ghost predicate Matches(s: State, px: nat, answers: seq<Answer>) {
    var t, p, cards := LibraryStep(s, px), s.P(px), Coming(s, px);
    && (Suspended(t, answers).Some? <==> Judgeable(|p.hand|, cards, answers))
    && (Suspended(t, answers).Some? ==>
          && Suspended(t, answers).value.P(px).hand == p.hand + Kept(|p.hand|, cards, answers)
          && Verdicts(t, answers) == Judgements(|p.hand|, cards, answers))
  }

  lemma FlushMatches(s: State, px: nat, answers: seq<Answer>)
    requires s.pending.None? && px < |s.players| && (|s.P(px).hand| >= 7 || Available(s.P(px)) == 0)
    ensures Matches(s, px, answers)
  {
    hide FlushSetAside, Coming, OnResolve;
    ComingNone(s, px);
    FlushLength(s, px);
    assert s.P(px).hand + [] == s.P(px).hand;
  }

  /** A card that simply comes to the hand. */
  lemma PlainMatches(s: State, s1: State, px: nat, answers: seq<Answer>)
    requires |s.P(px).hand| < 7 && Coming(s, px) != [] && !IsAction(Coming(s, px)[0])
    requires s1.P(px).hand == s.P(px).hand + [Coming(s, px)[0]] && Coming(s1, px) == Coming(s, px)[1..]
    requires LibraryStep(s, px) == LibraryStep(s1, px) && Matches(s1, px, answers)
    ensures Matches(s, px, answers)
  {
    hide LibraryStep, Suspended, Verdicts, Coming, IsAction;
    var p, c := s.P(px), Coming(s, px)[0];
    HandThen(p.hand, c, Kept(|p.hand| + 1, Coming(s, px)[1..], answers));
  }

  lemma HandThen(hand: seq<Card>, c: Card, more: seq<Card>)
    ensures (hand + [c]) + more == hand + ([c] + more)
  {
  }

  /** An Action that is asked about. */
  lemma AskedMatches(s: State, s3: State, px: nat, answers: seq<Answer>)
    requires |s.P(px).hand| < 7 && Coming(s, px) != [] && IsAction(Coming(s, px)[0])
    requires answers != [] && answers[0].YesNoAnswer?
    requires s3.P(px).hand == (if answers[0].yes then s.P(px).hand else s.P(px).hand + [Coming(s, px)[0]])
    requires Coming(s3, px) == Coming(s, px)[1..] && Matches(s3, px, answers[1..])
    requires Suspended(LibraryStep(s, px), answers) == Suspended(LibraryStep(s3, px), answers[1..])
    requires Verdicts(LibraryStep(s, px), answers) ==
             [Verdict(Coming(s, px)[0], answers[0].yes)] + Verdicts(LibraryStep(s3, px), answers[1..])
    ensures Matches(s, px, answers)
  {
    hide LibraryStep, Suspended, Verdicts, Coming, IsAction;
    var p, c := s.P(px), Coming(s, px)[0];
    assert (answers[0] == YesNoAnswer(true)) == answers[0].yes;
    YesNoTail(answers);
    if !answers[0].yes { HandThen(p.hand, c, Kept(|p.hand| + 1, Coming(s, px)[1..], answers[1..])); }
  }

  lemma YesNoTail(answers: seq<Answer>)
    requires answers != [] && answers[0].YesNoAnswer?
    ensures (forall i :: 0 <= i < |answers| ==> answers[i].YesNoAnswer?) <==>
            (forall i :: 0 <= i < |answers[1..]| ==> answers[1..][i].YesNoAnswer?)
  {
    if forall i :: 0 <= i < |answers[1..]| ==> answers[1..][i].YesNoAnswer? {
      forall i | 0 <= i < |answers| ensures answers[i].YesNoAnswer? {
        assert i > 0 ==> answers[i] == answers[1..][i - 1];
      }
    }
  }

  lemma RefusedMatches(s: State, px: nat, answers: seq<Answer>)
    requires |s.P(px).hand| < 7 && Coming(s, px) != [] && IsAction(Coming(s, px)[0])
    requires (answers == [] || !answers[0].YesNoAnswer?) && Suspended(LibraryStep(s, px), answers).None?
    ensures Matches(s, px, answers)
  {
    hide LibraryStep, Suspended, Verdicts, Coming, IsAction;
  }

  /** Library accepts exactly one yes or no for each Action that comes while the hand has fewer than seven cards, and then
      the hand grows by the cards the answers leave to it, in the order of drawing. */
  lemma {:induction false} LibraryAccepts(s: State, px: nat, answers: seq<Answer>)
    requires s.pending.None? && px < |s.players|
    ensures Matches(s, px, answers)
    decreases Available(s.P(px))
  {
    hide Matches, Suspended, Verdicts, Coming, DrawOne, IsAction, FlushSetAside, SetAsideLast, RequestDecision, Available,
      AskAbout, Resumed;
    var p := s.P(px);
    if |p.hand| >= 7 || Available(p) == 0 {
      FlushMatches(s, px, answers);
    } else {
      var s1 := DrawOne(s, px);
      ComingDrawn(s, px);
      var c := Coming(s, px)[0];
      assert s1.P(px).hand[|s1.P(px).hand| - 1] == c && s1.P(px).hand[..|p.hand|] == p.hand;
      if !IsAction(c) {
        LibraryAccepts(s1, px, answers);
        PlainMatches(s, s1, px, answers);
      } else {
        AskIs(s, px);
        AskedAnswer(s1, px, c, answers);
        if answers == [] || !answers[0].YesNoAnswer? {
          hide LibraryStep;
          RefusedMatches(s, px, answers);
        } else {
          ResumedComing(s1, px, c, answers[0].yes);
          hide LibraryStep;
          LibraryAccepts(Resumed(s1, px, c, answers[0].yes), px, answers[1..]);
          AskedMatches(s, Resumed(s1, px, c, answers[0].yes), px, answers);
        }
      }
    }
  }

  lemma PlayedLibrary(s: State, px: nat, c: Card)
    requires c == Library
    ensures OnPlay(s, px, c) == LibraryStep(s, px)
  {
    hide LibraryStep;
  }

  /** Library, played with nothing set aside and answered to the end, whatever the answers: nothing stays set aside; the
      hand grew to exactly seven, or was longer already, or deck and discard pile ran out first; exactly the Actions
      answered "yes" lie on what is left of the discard pile, in an order the verdicts fix; the discard pile was shuffled
      in only if more cards were drawn than the deck had, and otherwise the deck lost just those from its top; the log
      shows one draw for each card that came to the hand or was set aside, so nothing set aside was drawn again, not even
      across a reshuffle; and there were at most as many questions as cards to draw. It is answered to the end exactly if
      there is one yes or no for each Action that comes while the hand has fewer than seven cards; the hand grows by the
      cards to come, in order, without the Actions answered "yes". */
  lemma LibraryToTheEnd(s: State, answers: seq<Answer>)
    requires s.pending.None? && s.current < |s.players| && s.P(s.current).setAside == []
    ensures var t, p := OnPlay(s, s.current, Library), s.P(s.current);
            var r, cards := Suspended(t, answers), Coming(s, s.current);
            && (r.Some? <==> Judgeable(|p.hand|, cards, answers))
            && (r.Some? ==>
                  var verdicts := Verdicts(t, answers);
                  && verdicts == Judgements(|p.hand|, cards, answers)
                  && r.value.P(s.current).hand == p.hand + Kept(|p.hand|, cards, answers)
                  && LibraryDone(p, r.value.P(s.current), verdicts) && Recorded(s, r.value, s.current, verdicts, answers)
                  && multiset(LeftAside([], verdicts)) == multiset(YesOf(verdicts)))
  {
    hide LibraryStep, Suspended, Verdicts, OnPlay, LibraryDone, Recorded, LeftAside, YesOf, Judgeable, Judgements, Kept,
      Coming;
    PlayedLibrary(s, s.current, Library);
    LibraryAccepts(s, s.current, answers);
    if Suspended(OnPlay(s, s.current, Library), answers).Some? {
      LibraryChain(s, s.current, answers);
      var verdicts := Verdicts(OnPlay(s, s.current, Library), answers);
      LeftAsideIs([], verdicts);
      assert multiset([]) + multiset(YesOf(verdicts)) == multiset(YesOf(verdicts));
    }
  }
}
