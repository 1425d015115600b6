/** Sentry, from the play to the last answer. */
module Sentries {
  import opened Cards
  import opened States
  import opened Zones
  import opened Primitives
  import opened Effects
  import opened Invariants
  import opened Runs
  import opened Moves
  import opened Chains

  // ----- Peeling -----

  function Reversed(cards: seq<Card>): (r: seq<Card>)
    ensures |r| == |cards| && forall i :: 0 <= i < |r| ==> r[i] == cards[|cards| - 1 - i]
  {
    if cards == [] then [] else Reversed(cards[1..]) + [cards[0]]
  }

  lemma SuffixIs(a: seq<Card>, b: seq<Card>)
    ensures (a + b)[|a|..] == b && a <= a + b
  {
  }

  lemma TopReversed(deck: seq<Card>, k: nat)
    requires k <= |deck|
    ensures deck[..|deck| - k] + Reversed(TopDown(deck, k)) == deck
  {
    hide Reversed, TopDown;
  }

  /** Putting the peeled cards back in reverse order restores the deck. */
  lemma PeelRestores(p: PlayerState, n: nat)
    ensures var q := Peel(p, n);
            && |p.setAside| <= |q.setAside|
            && q.deck + Reversed(q.setAside[|p.setAside|..]) == p.deck
            && q == p.(deck := q.deck, setAside := q.setAside) && p.setAside <= q.setAside
  {
    hide Peel, TopDown, Reversed;
    var k := if |p.deck| < n then |p.deck| else n;
    PeelTakes(p, n);
    SuffixIs(p.setAside, TopDown(p.deck, k));
    TopReversed(p.deck, k);
  }

  /** Two different cards put back as they were shown, top first, end up exchanged. */
  lemma EchoSwaps(p: PlayerState)
    requires |p.deck| >= 2 && p.setAside == []
    ensures var q := Peel(p, 2);
            && |q.setAside| == 2
            && (q.deck + q.setAside == p.deck <==> p.deck[|p.deck| - 1] == p.deck[|p.deck| - 2])
  {
    PeelTakes(p, 2);
    var a, b := p.deck[|p.deck| - 1], p.deck[|p.deck| - 2];
    var q := Peel(p, 2);
    assert q.setAside == [a, b] by { hide Peel; }
    assert p.deck == p.deck[..|p.deck| - 2] + [b, a];
    hide Peel, TopDown;
    assert (q.deck + [a, b])[|q.deck|] == a && p.deck[|q.deck|] == b;
  }

  /** The peel of a play: as many cards as there are, at most `n`, from the top of the deck, which is refilled first
      only if it is too short. */
  lemma PeelIs(s: State, px: nat, n: nat)
    requires px < |s.players| && s.P(px).setAside == []
    ensures var (t, revealed) := PeelToSetAside(s, px, n);
            var p, q := s.P(px), t.P(px);
            && q == p.(deck := q.deck, discard := q.discard, setAside := revealed)
            && |revealed| == (if Available(p) < n then Available(p) else n)
            && (if |p.deck| < n && p.discard != [] then
                  q.discard == [] && multiset(q.deck + Reversed(revealed)) == multiset(p.deck + p.discard)
                else q.discard == p.discard && q.deck + Reversed(revealed) == p.deck)
            && t.trash == s.trash && t.pending == s.pending
  {
    var r := if |s.P(px).deck| < n && s.P(px).discard != [] then Refill(s, px) else s;
    PeelTakes(r.P(px), n);
    PeelRestores(r.P(px), n);
    hide Peel, TopDown, Shuffle, Reversed;
    var revealed := PeelToSetAside(s, px, n).1;
    assert [] + revealed == revealed;
    assert revealed[0..] == revealed;
  }

  // ----- The answers -----

  function Named(answers: seq<Answer>, i: nat): seq<Card> {
    if i < |answers| && answers[i].CardListAnswer? then answers[i].cards else []
  }

  /** What each answer takes from the cards `looked` at. */
  function TrashedOf(looked: seq<Card>, answers: seq<Answer>): seq<Card> {
    Found(looked, Named(answers, 0))
  }

  function AfterTrash(looked: seq<Card>, answers: seq<Answer>): seq<Card> {
    Remaining(looked, Named(answers, 0))
  }

  function DiscardedOf(looked: seq<Card>, answers: seq<Answer>): seq<Card> {
    Found(AfterTrash(looked, answers), Named(answers, 1))
  }

  function AfterDiscard(looked: seq<Card>, answers: seq<Answer>): seq<Card> {
    Remaining(AfterTrash(looked, answers), Named(answers, 1))
  }

  /** In the order of the last answer, cards it leaves out on top. */
  function ReturnedOf(looked: seq<Card>, answers: seq<Answer>): seq<Card> {
    Named(answers, 2) + Remaining(AfterDiscard(looked, answers), Named(answers, 2))
  }

  /** How many answers Sentry wants: it stops asking when nothing, or nothing to order, is left. */
  function Wanted(looked: seq<Card>, answers: seq<Answer>): nat {
    if AfterTrash(looked, answers) == [] then 1 else if |AfterDiscard(looked, answers)| <= 1 then 2 else 3
  }

  /** The answers Sentry accepts: lists, as many as wanted, the last one naming only cards still set aside. */
  predicate Acceptable(looked: seq<Card>, answers: seq<Answer>) {
    && |answers| == Wanted(looked, answers)
    && (forall i :: 0 <= i < |answers| ==> answers[i].CardListAnswer?)
    && multiset(Named(answers, 2)) <= multiset(AfterDiscard(looked, answers))
  }

  lemma {:induction false} ReorderIs(s: State, px: nat, cards: seq<Card>)
    requires px < |s.players|
    ensures var r := SentryReorder(s, px, cards);
            if multiset(cards) <= multiset(s.P(px).setAside) then r == Ok(FlushToDeck(SortSetAside(s, px, cards, ToDeck), px))
            else r.error.Some?
    decreases |cards|
  {
    if cards != [] {
      var c, rest := cards[0], cards[1..];
      var aside := s.P(px).setAside;
      assert cards == [c] + rest;
      NamesStep(aside, c, rest);
      if c in aside {
        var s1 := SortOne(s, px, c, ToDeck);
        assert s1.P(px).setAside == Without(aside, c) && px < |s1.players|;
        hide SortOne, Without, FlushToDeck;
        ReorderIs(s1, px, rest);
      }
    }
  }

  lemma NamesStep(zone: seq<Card>, c: Card, rest: seq<Card>)
    ensures multiset([c] + rest) <= multiset(zone) <==>
            c in zone && multiset(rest) <= multiset(Without(zone, c))
  {
    MultisetMember(zone, c);
    assert multiset([c] + rest) == multiset{c} + multiset(rest);
    hide Without;
  }

  /** The seat, the trash and the log after the set-aside cards have gone their ways. */
  predicate SortedOut(s: State, u: State, px: nat, trashed: seq<Card>, discarded: seq<Card>, returned: seq<Card>,
                      events: seq<Event>) {
    var p := s.P(px);
    && u.P(px) == p.(setAside := [], discard := p.discard + discarded, deck := p.deck + returned)
    && u.trash == s.trash + trashed
    && u.log == s.log + events
  }

  /** What is reported from the last question on, or without one: each card put back, in order. */
  function OrderEvents(px: nat, asked: bool, returned: seq<Card>): seq<Event> {
    (if asked then [DecisionRequested(px)] else []) + MoveEvents(px, returned, ToDeck)
  }

  /** What Sentry reports: its questions, and each card as it goes, in the order named. */
  function SentryEvents(px: nat, looked: seq<Card>, answers: seq<Answer>): seq<Event> {
    var rest := AfterTrash(looked, answers);
    [DecisionRequested(px)] + MoveEvents(px, TrashedOf(looked, answers), ToTrash) +
    (if rest == [] then []
     else DiscardEventsOf(px, DiscardedOf(looked, answers), |AfterDiscard(looked, answers)| > 1,
                          ReturnedOf(looked, answers)))
  }

  /** What is reported from the second question on. */
  function DiscardEventsOf(px: nat, discarded: seq<Card>, asked: bool, returned: seq<Card>): seq<Event> {
    [DecisionRequested(px)] + MoveEvents(px, discarded, ToDiscard) + OrderEvents(px, asked, returned)
  }

  lemma LogThen(log: seq<Event>, a: seq<Event>, b: seq<Event>, c: seq<Event>)
    ensures ((log + a) + b) + c == log + (a + b + c)
  {
  }

  lemma EventsPlus(px: nat, a: seq<Card>, b: seq<Card>, to: Target)
    ensures MoveEvents(px, a + b, to) == MoveEvents(px, a, to) + MoveEvents(px, b, to)
  {
  }

  lemma DiscardSeat(s: State, px: nat, cards: seq<Card>)
    requires px < |s.players|
    ensures var t, p := SortSetAside(s, px, cards, ToDiscard), s.P(px);
            && t.P(px) == p.(setAside := Remaining(p.setAside, cards), discard := p.discard + Found(p.setAside, cards))
            && t.log == s.log + MoveEvents(px, Found(p.setAside, cards), ToDiscard)
            && t.trash == s.trash && t.pending == s.pending && |t.players| == |s.players|
  {
    SortSetAsideIs(s, px, cards, ToDiscard);
    hide SortSetAside, Found, Remaining, MoveEvents;
  }

  lemma TrashSeat(s: State, px: nat, cards: seq<Card>)
    requires px < |s.players|
    ensures var t, p := SortSetAside(s, px, cards, ToTrash), s.P(px);
            && t.P(px) == p.(setAside := Remaining(p.setAside, cards))
            && t.log == s.log + MoveEvents(px, Found(p.setAside, cards), ToTrash)
            && t.trash == s.trash + Found(p.setAside, cards) && t.pending == s.pending && |t.players| == |s.players|
  {
    SortSetAsideIs(s, px, cards, ToTrash);
    hide SortSetAside, Found, Remaining, MoveEvents;
  }

  lemma DeckSeat(s: State, px: nat, cards: seq<Card>)
    requires px < |s.players| && multiset(cards) <= multiset(s.P(px).setAside)
    ensures var t, p := SortSetAside(s, px, cards, ToDeck), s.P(px);
            && t.P(px) == p.(setAside := Remaining(p.setAside, cards), deck := p.deck + cards)
            && t.log == s.log + MoveEvents(px, cards, ToDeck)
            && t.trash == s.trash && t.pending == s.pending && |t.players| == |s.players|
  {
    SortSetAsideIs(s, px, cards, ToDeck);
    FoundExactly(s.P(px).setAside, cards);
    hide SortSetAside, Found, Remaining, MoveEvents;
  }

  lemma FlushSeat(s: State, px: nat)
    requires px < |s.players|
    ensures var t, p := FlushToDeck(s, px), s.P(px);
            && t.P(px) == p.(deck := p.deck + p.setAside, setAside := [])
            && t.log == s.log + MoveEvents(px, p.setAside, ToDeck)
            && t.trash == s.trash && t.pending == s.pending && |t.players| == |s.players|
  {
    assert DeckEvents(px, s.P(px).setAside) == MoveEvents(px, s.P(px).setAside, ToDeck);
  }

  lemma ReorderSeat(s: State, px: nat, cards: seq<Card>)
    requires px < |s.players| && multiset(cards) <= multiset(s.P(px).setAside)
    ensures var u := FlushToDeck(SortSetAside(s, px, cards, ToDeck), px);
            var back := cards + Remaining(s.P(px).setAside, cards);
            && SortedOut(s, u, px, [], [], back, MoveEvents(px, back, ToDeck)) && u.pending == s.pending
  {
    hide SortSetAside, Found, Remaining, FlushToDeck, MoveEvents;
    DeckSeat(s, px, cards);
    FlushSeat(SortSetAside(s, px, cards, ToDeck), px);
    var p, rest := s.P(px), Remaining(s.P(px).setAside, cards);
    EventsPlus(px, cards, rest, ToDeck);
    LogThen(s.log, [], MoveEvents(px, cards, ToDeck), MoveEvents(px, rest, ToDeck));
    assert s.log + [] == s.log && [] + MoveEvents(px, cards, ToDeck) == MoveEvents(px, cards, ToDeck);
    assert p.deck + cards + rest == p.deck + (cards + rest);
    assert p.discard + [] == p.discard && s.trash + [] == s.trash;
  }

  /** One answer to a suspended Sentry. */
  lemma SentryAnswer(s: State, px: nat, step: nat, prompt: Prompt, answers: seq<Answer>)
    requires s.pending.None? && px < |s.players| && answers != []
    ensures var t := RequestDecision(s, px, Sentry, step, prompt, NoContext);
            var s2 := t.(pending := None);
            var r := ResolveSentry(s2, t.pending.value, answers[0]);
            && s2.P(px) == s.P(px) && s2.trash == s.trash && |s2.players| == |s.players|
            && s2.log == s.log + [DecisionRequested(px)]
            && t.pending.value.step == step && t.pending.value.player == px
            && Suspended(t, answers) == if r.error.Some? then None else Suspended(r.state, answers[1..])
  {
    hide ResolveSentry;
  }

  lemma ResolveThird(s: State, d: Decision, answer: Answer)
    requires d.step == 2
    ensures ResolveSentry(s, d, answer) ==
            if answer.CardListAnswer? then SentryReorder(s, d.player, answer.cards) else Fail(s, BadAnswer)
  {
    hide SentryReorder;
  }

  lemma ReorderOutcome(s: State, px: nat, cards: seq<Card>)
    requires px < |s.players|
    ensures var r := SentryReorder(s, px, cards);
            && (r.error.None? <==> multiset(cards) <= multiset(s.P(px).setAside))
            && (r.error.None? ==>
                  var back := cards + Remaining(s.P(px).setAside, cards);
                  SortedOut(s, r.state, px, [], [], back, MoveEvents(px, back, ToDeck)) &&
                  r.state.pending == s.pending)
  {
    hide SentryReorder, SortSetAside, FlushToDeck, Remaining, SortedOut, MoveEvents;
    ReorderIs(s, px, cards);
    if multiset(cards) <= multiset(s.P(px).setAside) { ReorderSeat(s, px, cards); }
  }

  /** From the question to its answer. */
  lemma SortedOutAsked(s: State, s2: State, u: State, px: nat, returned: seq<Card>, events: seq<Event>)
    requires s2.P(px) == s.P(px) && s2.trash == s.trash && s2.log == s.log + [DecisionRequested(px)]
    requires SortedOut(s2, u, px, [], [], returned, events)
    ensures SortedOut(s, u, px, [], [], returned, [DecisionRequested(px)] + events)
  {
    assert (s.log + [DecisionRequested(px)]) + events == s.log + ([DecisionRequested(px)] + events);
  }

  lemma Unanswered(t: State, answers: seq<Answer>)
    requires t.pending.None?
    ensures Suspended(t, answers) == if answers == [] then Some(t) else None
  {
  }

  lemma ThirdAnswer(s: State, px: nat, prompt: Prompt, answers: seq<Answer>)
    requires s.pending.None? && px < |s.players|
    ensures var r := Suspended(RequestDecision(s, px, Sentry, 2, prompt, NoContext), answers);
            var aside := s.P(px).setAside;
            && (r.Some? <==> |answers| == 1 && answers[0].CardListAnswer? &&
                             multiset(answers[0].cards) <= multiset(aside))
            && (r.Some? ==>
                  var back := answers[0].cards + Remaining(aside, answers[0].cards);
                  SortedOut(s, r.value, px, [], [], back, OrderEvents(px, true, back)))
  {
    var t := RequestDecision(s, px, Sentry, 2, prompt, NoContext);
    assert t.pending.Some? && t.(pending := None).pending.None?;
    assert answers == [] ==> Suspended(t, answers).None? by { hide OnResolve; }
    hide Suspended, OnResolve, SentryReorder, ResolveSentry, Remaining, SortedOut, RequestDecision, MoveEvents;
    if answers != [] {
      SentryAnswer(s, px, 2, prompt, answers);
      var s2 := t.(pending := None);
      ResolveThird(s2, t.pending.value, answers[0]);
      if answers[0].CardListAnswer? {
        var cards := answers[0].cards;
        var u := SentryReorder(s2, px, cards).state;
        ReorderOutcome(s2, px, cards);
        if SentryReorder(s2, px, cards).error.None? {
          Unanswered(u, answers[1..]);
          var back := cards + Remaining(s.P(px).setAside, cards);
          SortedOutAsked(s, s2, u, px, back, MoveEvents(px, back, ToDeck));
        }
      }
    }
  }

  lemma AsksOrder(s: State, px: nat)
    requires |s.P(px).setAside| > 1
    ensures SentryAfterDiscard(s, px) == RequestDecision(s, px, Sentry, 2, ReorderCardsPrompt(s.P(px).setAside), NoContext)
  {
    hide RequestDecision;
  }

  lemma NoOrder(rest: seq<Card>, order: seq<Card>)
    requires order == []
    ensures order + Remaining(rest, order) == rest && multiset(order) <= multiset(rest)
  {
  }

  /** What is left to do once the discards are made. */
  lemma AfterDiscardIs(s: State, px: nat, answers: seq<Answer>)
    requires s.pending.None? && px < |s.players|
    ensures var r := Suspended(SentryAfterDiscard(s, px), answers);
            var rest := s.P(px).setAside;
            var order := Named(answers, 0);
            && (r.Some? <==> |answers| == (if |rest| <= 1 then 0 else 1) &&
                             (forall i :: 0 <= i < |answers| ==> answers[i].CardListAnswer?) &&
                             multiset(order) <= multiset(rest))
            && (r.Some? ==>
                  var back := order + Remaining(rest, order);
                  SortedOut(s, r.value, px, [], [], back, OrderEvents(px, |rest| > 1, back)))
  {
    hide MoveEvents, SentryAfterDiscard, Suspended, Remaining, RequestDecision, SortedOut, OnResolve;
    var rest := s.P(px).setAside;
    if |rest| <= 1 {
      LastCard(s, px);
      Unanswered(SentryAfterDiscard(s, px), answers);
      if answers == [] {
        NoOrder(rest, Named(answers, 0));
        assert [] + MoveEvents(px, rest, ToDeck) == MoveEvents(px, rest, ToDeck);
      }
    } else {
      AsksOrder(s, px);
      ThirdAnswer(s, px, ReorderCardsPrompt(rest), answers);
    }
  }

  lemma LastCard(s: State, px: nat)
    requires px < |s.players| && |s.P(px).setAside| <= 1
    ensures var t := SentryAfterDiscard(s, px);
            SortedOut(s, t, px, [], [], s.P(px).setAside, MoveEvents(px, s.P(px).setAside, ToDeck)) &&
            t.pending == s.pending
  {
    var p := s.P(px);
    assert s.log + [] == s.log;
    assert p.discard + [] == p.discard && s.trash + [] == s.trash && p.deck + [] == p.deck;
    if |p.setAside| == 1 { assert p.setAside == [p.setAside[0]]; }
  }

  /** From the second question on. */
  lemma SecondAnswer(s: State, px: nat, prompt: Prompt, answers: seq<Answer>)
    requires s.pending.None? && px < |s.players|
    ensures var r := Suspended(RequestDecision(s, px, Sentry, 1, prompt, NoContext), answers);
            var aside := s.P(px).setAside;
            var rest := Remaining(aside, Named(answers, 0));
            var order := Named(answers, 1);
            && (r.Some? <==> |answers| == (if |rest| <= 1 then 1 else 2) &&
                             (forall i :: 0 <= i < |answers| ==> answers[i].CardListAnswer?) &&
                             multiset(order) <= multiset(rest))
            && (r.Some? ==>
                  var out, back := Found(aside, Named(answers, 0)), order + Remaining(rest, order);
                  SortedOut(s, r.value, px, [], out, back, DiscardEventsOf(px, out, |rest| > 1, back)))
  {
    hide MoveEvents, OrderEvents, SortedOut, SortSetAside, Remaining, Found, OnResolve, SentryReorder, SentryAfterDiscard;
    if answers != [] {
      SentryAnswer(s, px, 1, prompt, answers);
      if answers[0].CardListAnswer? {
        var s2 := RequestDecision(s, px, Sentry, 1, prompt, NoContext).(pending := None);
        var s3 := SortSetAside(s2, px, answers[0].cards, ToDiscard);
        DiscardSeat(s2, px, answers[0].cards);
        hide ResolveSentry, Suspended, RequestDecision;
        AfterDiscardIs(s3, px, answers[1..]);
        ListTail(answers);
        var r := Suspended(SentryAfterDiscard(s3, px), answers[1..]);
        if r.Some? {
          var rest, order := s3.P(px).setAside, Named(answers, 1);
          var back := order + Remaining(rest, order);
          SortedOutDiscards(s, s2, s3, r.value, px, Found(s.P(px).setAside, answers[0].cards), back,
                            OrderEvents(px, |rest| > 1, back));
        }
      }
    }
  }

  /** The discards in front of what follows. */
  lemma SortedOutDiscards(s: State, s2: State, s3: State, u: State, px: nat, out: seq<Card>, returned: seq<Card>,
                          events: seq<Event>)
    requires s2.P(px) == s.P(px) && s2.trash == s.trash && s2.log == s.log + [DecisionRequested(px)]
    requires s3.P(px) == s2.P(px).(setAside := s3.P(px).setAside, discard := s2.P(px).discard + out)
    requires s3.trash == s2.trash && s3.log == s2.log + MoveEvents(px, out, ToDiscard)
    requires SortedOut(s3, u, px, [], [], returned, events)
    ensures SortedOut(s, u, px, [], out, returned, [DecisionRequested(px)] + MoveEvents(px, out, ToDiscard) + events)
  {
    hide MoveEvents;
    LogThen(s.log, [DecisionRequested(px)], MoveEvents(px, out, ToDiscard), events);
    assert s.P(px).discard + out + [] == s.P(px).discard + out;
  }

  /** The trashed cards in front of what follows. */
  lemma SortedOutTrashed(s: State, s2: State, s3: State, u: State, px: nat, gone: seq<Card>, out: seq<Card>,
                         returned: seq<Card>, events: seq<Event>)
    requires s2.P(px) == s.P(px) && s2.trash == s.trash && s2.log == s.log + [DecisionRequested(px)]
    requires s3.P(px) == s2.P(px).(setAside := s3.P(px).setAside)
    requires s3.trash == s2.trash + gone && s3.log == s2.log + MoveEvents(px, gone, ToTrash)
    requires SortedOut(s3, u, px, [], out, returned, events)
    ensures SortedOut(s, u, px, gone, out, returned, [DecisionRequested(px)] + MoveEvents(px, gone, ToTrash) + events)
  {
    hide MoveEvents;
    LogThen(s.log, [DecisionRequested(px)], MoveEvents(px, gone, ToTrash), events);
    assert s.trash + gone + [] == s.trash + gone;
  }

  lemma ListTail(answers: seq<Answer>)
    requires answers != [] && answers[0].CardListAnswer?
    ensures (forall i :: 0 <= i < |answers| ==> answers[i].CardListAnswer?) <==>
            (forall i :: 0 <= i < |answers[1..]| ==> answers[1..][i].CardListAnswer?)
    ensures forall i: nat :: Named(answers[1..], i) == Named(answers, i + 1)
  {
    if forall i :: 0 <= i < |answers[1..]| ==> answers[1..][i].CardListAnswer? {
      forall i | 0 <= i < |answers| ensures answers[i].CardListAnswer? {
        assert i > 0 ==> answers[i] == answers[1..][i - 1];
      }
    }
  }

  /** From the first question on: Sentry accepts exactly the acceptable answers, and then every card looked at is
      trashed, discarded or returned as the answers say. */
  lemma FirstAnswer(s: State, px: nat, prompt: Prompt, answers: seq<Answer>)
    requires s.pending.None? && px < |s.players| && s.P(px).setAside != []
    ensures var r := Suspended(RequestDecision(s, px, Sentry, 0, prompt, NoContext), answers);
            var looked := s.P(px).setAside;
            && (r.Some? <==> Acceptable(looked, answers))
            && (r.Some? ==> SortedOut(s, r.value, px, TrashedOf(looked, answers), DiscardedOf(looked, answers),
                                      ReturnedOf(looked, answers), SentryEvents(px, looked, answers)))
  {
    hide MoveEvents, OrderEvents, DiscardEventsOf, SortedOut, SortSetAside, Remaining, Found, OnResolve,
      SentryReorder, SentryAfterDiscard;
    if answers != [] {
      SentryAnswer(s, px, 0, prompt, answers);
      if answers[0].CardListAnswer? {
        var s2 := RequestDecision(s, px, Sentry, 0, prompt, NoContext).(pending := None);
        var s3 := SortSetAside(s2, px, answers[0].cards, ToTrash);
        TrashSeat(s2, px, answers[0].cards);
        ListTail(answers);
        if s3.P(px).setAside != [] {
          hide ResolveSentry, Suspended, RequestDecision;
          SecondAnswer(s3, px, DiscardFromRevealedPrompt(s3.P(px).setAside), answers[1..]);
          var r := Suspended(SentryAfterTrash(s3, px), answers[1..]);
          if r.Some? {
            var looked := s.P(px).setAside;
            SortedOutTrashed(s, s2, s3, r.value, px, TrashedOf(looked, answers), DiscardedOf(looked, answers),
                             ReturnedOf(looked, answers),
                             DiscardEventsOf(px, DiscardedOf(looked, answers), |AfterDiscard(looked, answers)| > 1,
                                             ReturnedOf(looked, answers)));
          }
        } else {
          NothingLeft();
          Unanswered(s3, answers[1..]);
          NothingMore(s3, px);
          var looked := s.P(px).setAside;
          SortedOutTrashed(s, s2, s3, s3, px, TrashedOf(looked, answers), [], [], []);
          if answers[1..] == [] {
            assert Named(answers, 1) == [] && Named(answers, 2) == [] && AfterTrash(looked, answers) == [];
            assert DiscardedOf(looked, answers) == [] && ReturnedOf(looked, answers) == [];
          }
        }
      }
    }
  }

  lemma NothingMore(s: State, px: nat)
    requires s.P(px).setAside == []
    ensures SortedOut(s, s, px, [], [], [], [])
  {
    var p := s.P(px);
    assert p.discard + [] == p.discard && s.trash + [] == s.trash && p.deck + [] == p.deck && s.log + [] == s.log;
  }

  lemma NothingLeft()
    ensures Remaining([], []) == [] && Found([], []) == []
  {
  }

  // ----- The whole chain -----

  lemma SplitCount(zone: seq<Card>, cards: seq<Card>, c: Card)
    ensures multiset(zone)[c] == multiset(Found(zone, cards))[c] + multiset(Remaining(zone, cards))[c]
  {
    FoundCount(zone, cards, c);
    hide Found, Remaining;
  }

  /** Every card looked at goes exactly one way. */
  lemma Partition(looked: seq<Card>, answers: seq<Answer>, c: Card)
    requires Acceptable(looked, answers)
    ensures multiset(looked)[c] ==
            multiset(TrashedOf(looked, answers))[c] + multiset(DiscardedOf(looked, answers))[c] +
            multiset(ReturnedOf(looked, answers))[c]
  {
    hide Found, Remaining;
    var named := Named(answers, 2);
    var kept := AfterDiscard(looked, answers);
    SplitCount(looked, Named(answers, 0), c);
    SplitCount(AfterTrash(looked, answers), Named(answers, 1), c);
    SplitCount(kept, named, c);
    FoundExactly(kept, named);
    assert multiset(named + Remaining(kept, named))[c] == multiset(named)[c] + multiset(Remaining(kept, named))[c];
  }

  /** An order that names every card left is the order they get. */
  lemma PermutationReturned(looked: seq<Card>, answers: seq<Answer>)
    requires multiset(Named(answers, 2)) == multiset(AfterDiscard(looked, answers))
    ensures ReturnedOf(looked, answers) == Named(answers, 2)
  {
    hide Found, Remaining;
    var named, kept := Named(answers, 2), AfterDiscard(looked, answers);
    FoundExactly(kept, named);
    SameLength(named, kept);
    assert Remaining(kept, named) == [];
  }

  lemma SameLength(a: seq<Card>, b: seq<Card>)
    requires multiset(a) == multiset(b)
    ensures |a| == |b|
  {
    assert |multiset(a)| == |a| && |multiset(b)| == |b|;
  }

  /** The state in which Sentry looks at its cards, and those cards. */
  function Looking(s: State, px: nat): (State, seq<Card>) {
    PeelToSetAside(AddActions(DrawCards(s, px, 1), px, 1), px, 2)
  }

  lemma PlayedSentry(s: State, px: nat, c: Card)
    requires c == Sentry
    ensures var (m, looked) := Looking(s, px);
            OnPlay(s, px, c) ==
              if looked == [] then m
              else RequestDecision(m, px, Sentry, 0, TrashFromRevealedPrompt(looked), NoContext)
  {
    hide DrawCards, AddActions, PeelToSetAside, RequestDecision;
  }

  lemma LooksAt(s: State, px: nat)
    requires px < |s.players| && s.P(px).setAside == [] && s.pending.None?
    ensures var (m, looked) := Looking(s, px);
            && m.P(px).setAside == looked && px < |m.players| && m.pending.None?
            && |looked| == (if Available(DrawCards(s, px, 1).P(px)) < 2 then Available(DrawCards(s, px, 1).P(px)) else 2)
  {
    var s1 := DrawCards(s, px, 1);
    DrawCardsSeat(s, px, 1);
    var s2 := AddActions(s1, px, 1);
    assert s2.P(px).setAside == [] && Available(s2.P(px)) == Available(s1.P(px)) && s2.pending == s.pending by {
      hide DrawCards;
    }
    hide DrawCards, AddActions, PeelToSetAside;
    PeelIs(s2, px, 2);
  }

  /** Sentry, played with nothing set aside: it looks at the top two cards after its draw, or as many as there are. The
      chain of answers is accepted exactly if every answer is a list, there are as many as wanted, and the last one
      names only cards still set aside. Then each card looked at is trashed, discarded or put back, as the answers say
      and nothing else, nothing stays set aside, and the log reports the questions and each card in that order. */
  lemma SentryToTheEnd(s: State, answers: seq<Answer>)
    requires s.pending.None? && s.current < |s.players| && s.P(s.current).setAside == []
    ensures var px := s.current;
            var (m, looked) := Looking(s, px);
            var r := Suspended(OnPlay(s, px, Sentry), answers);
            && m.P(px).setAside == looked
            && (r.Some? <==> (if looked == [] then answers == [] else Acceptable(looked, answers)))
            && (r.Some? ==> SortedOut(m, r.value, px, TrashedOf(looked, answers), DiscardedOf(looked, answers),
                                      ReturnedOf(looked, answers),
                                      if looked == [] then [] else SentryEvents(px, looked, answers)))
  {
    var px := s.current;
    hide SentryEvents, OnPlay, Looking, RequestDecision, SortedOut, Acceptable, TrashedOf, DiscardedOf, ReturnedOf,
      OnResolve, DrawCards;
    PlayedSentry(s, px, Sentry);
    LooksAt(s, px);
    var (m, looked) := Looking(s, px);
    if looked == [] {
      NothingSorted(m, px);
      assert answers != [] ==> Suspended(m, answers).None?;
    } else {
      FirstAnswer(m, px, TrashFromRevealedPrompt(looked), answers);
    }
  }

  lemma NothingSorted(m: State, px: nat)
    requires px < |m.players| && m.P(px).setAside == []
    ensures SortedOut(m, m, px, TrashedOf([], []), DiscardedOf([], []), ReturnedOf([], []), [])
  {
    NothingLeft();
    var p := m.P(px);
    assert p.discard + [] == p.discard && m.trash + [] == m.trash && p.deck + [] == p.deck && m.log + [] == m.log;
    assert ReturnedOf([], []) == [];
  }
}
