/** The cards that ask one question, from the hand to the end: Chapel, Moneylender, Workshop, Harbinger and Poacher. */
module Questions {
  import opened Cards
  import opened States
  import opened Zones
  import opened Primitives
  import opened Effects
  import opened Engine
  import opened Frames
  import opened Invariants
  import opened Plays
  import opened Runs
  import opened GameLaws
  import opened Moves
  import opened Drawing
  import opened Chains
  import opened Exchanges
  import opened Rules
  import opened Entries
  import opened Outcomes

  /** The play is over: one seat, trash and supply are as given, one decision number is used up, nothing else differs. */
  predicate Ends(s: State, u: State, px: nat, q: PlayerState, trash: seq<Card>, supply: map<Card, int>) {
    && px < |s.players|
    && u == s.(players := s.players[px := q], trash := trash, supply := supply, decisionSeq := s.decisionSeq + 1,
               log := u.log)
  }

  predicate NamesList(answers: seq<Answer>) {
    |answers| == 1 && answers[0].CardListAnswer?
  }

  // ----- The moves -----

  lemma EndsByTrash(s: State, px: nat, cards: seq<Card>)
    requires px < |s.players|
    ensures var p := s.P(px);
            Ends(s, MoveFromHand(Noted(s, px), px, cards, ToTrash), px, p.(hand := Remaining(p.hand, cards)),
                 s.trash + Found(p.hand, cards), s.supply)
  {
    hide MoveFromHand, Remaining, Found, MoveEvents;
    MoveFromHandIs(Noted(s, px), px, cards, ToTrash);
  }

  lemma EndsByDiscard(s: State, px: nat, cards: seq<Card>)
    requires px < |s.players|
    ensures var p := s.P(px);
            Ends(s, MoveFromHand(Noted(s, px), px, cards, ToDiscard), px,
                 p.(hand := Remaining(p.hand, cards), discard := p.discard + Found(p.hand, cards)), s.trash, s.supply)
  {
    hide MoveFromHand, Remaining, Found, MoveEvents;
    MoveFromHandIs(Noted(s, px), px, cards, ToDiscard);
  }

  lemma EndsWithCoins(s: State, u: State, px: nat, q: PlayerState, trash: seq<Card>, supply: map<Card, int>, n: int)
    requires Ends(s, u, px, q, trash, supply)
    ensures Ends(s, AddCoins(u, px, n), px, q.(coins := q.coins + n), trash, supply)
  {
    assert s.players[px := q][px := q.(coins := q.coins + n)] == s.players[px := q.(coins := q.coins + n)];
  }

  lemma EndsIdle(s: State, px: nat)
    requires px < |s.players|
    ensures Ends(s, Noted(s, px), px, s.P(px), s.trash, s.supply)
  {
    assert s.players[px := s.players[px]] == s.players;
  }

  lemma EndsByGain(s: State, px: nat, y: Card)
    requires px < |s.players|
    ensures var p, u := s.P(px), GainCard(Noted(s, px), px, y, GainToDiscard);
            if s.Pile(y) > 0 then
              Ends(s, u, px, p.(discard := p.discard + [y]), s.trash, s.supply[y := s.Pile(y) - 1])
            else Ends(s, u, px, p, s.trash, s.supply)
  {
    EndsIdle(s, px);
  }

  // ----- Chapel -----

  lemma ChapelAsks(s: State, c: Card)
    requires c == Chapel
    ensures OnPlay(s, s.current, c) ==
            RequestDecision(s, s.current, c, 0, TrashFromHandPrompt(0, 4, [], []), NoContext)
  {
    hide RequestDecision;
  }

  lemma OnlyChapel(s: State, d: Decision, answer: Answer)
    requires d.card == Chapel
    ensures var r := OnResolve(s, d, answer);
            if answer.CardListAnswer? then r == Ok(MoveFromHand(s, d.player, answer.cards, ToTrash)) else r.error.Some?
  {
    hide MoveFromHand;
  }

  lemma ChapelChain(s: State, c: Card, answers: seq<Answer>)
    requires c == Chapel && s.pending.None?
    ensures var r := Suspended(OnPlay(s, s.current, c), answers);
            && (r.Some? <==> NamesList(answers))
            && (r.Some? ==> r.value == MoveFromHand(Noted(s, s.current), s.current, answers[0].cards, ToTrash))
  {
    hide MoveFromHand, RequestDecision, OnResolve, Noted, Suspended, OnPlay;
    var px, prompt := s.current, TrashFromHandPrompt(0, 4, [], []);
    ChapelAsks(s, c);
    OneAnswer(s, px, c, 0, prompt, NoContext, answers);
    if answers != [] {
      RequestFields(s, px, c, 0, prompt, NoContext);
      OnlyChapel(Noted(s, px), RequestDecision(s, px, c, 0, prompt, NoContext).pending.value, answers[0]);
      if answers[0].CardListAnswer? {
        Settles(MoveFromHand(Noted(s, px), px, answers[0].cards, ToTrash), answers[1..]);
      }
    }
  }

  lemma ChapelOwn(s: State, c: Card)
    requires c == Chapel
    ensures PlaysNothing(OnPlay(s, s.current, c))
  {
    hide OnPlay, RequestDecision;
    ChapelAsks(s, c);
    RequestFields(s, s.current, c, 0, TrashFromHandPrompt(0, 4, [], []), NoContext);
  }

  /** Chapel: any one list is accepted, and the named cards that are held go from the hand to the trash. */
  lemma ChapelCompleted(s: State, answers: seq<Answer>)
    requires Playable(s, Chapel)
    ensures s.players != []
    ensures var r, m, px := Completed(s, Chapel, answers), Entered(s, Chapel), s.current;
            var p, done := m.P(px), r.error.None? && r.state.pending.None?;
            && (done <==> NamesList(answers))
            && (done ==>
                  var cards := answers[0].cards;
                  Ends(m, r.state, px, p.(hand := Remaining(p.hand, cards)), m.trash + Found(p.hand, cards), m.supply))
  {
    var m := Entered(s, Chapel);
    EnteredFacts(s, Chapel);
    ChapelOwn(m, Chapel);
    CompletedIs(s, Chapel, answers);
    hide Playable, OnPlay, Entered, Completed, Suspended, Ends, PlaysNothing, Remaining, Found, MoveFromHand, Noted;
    ChapelChain(m, Chapel, answers);
    if NamesList(answers) { EndsByTrash(m, s.current, answers[0].cards); }
  }

  // ----- Moneylender -----

  lemma MoneylenderAsks(s: State, c: Card)
    requires c == Moneylender
    ensures OnPlay(s, s.current, c) ==
            if Copper !in s.P(s.current).hand then s
            else RequestDecision(s, s.current, c, 0, TrashFromHandPrompt(0, 1, [], [Copper]), NoContext)
  {
    hide RequestDecision;
  }

  lemma OnlyMoneylender(s: State, d: Decision, answer: Answer)
    requires d.card == Moneylender
    ensures var r := OnResolve(s, d, answer);
            if !answer.CardListAnswer? then r.error.Some?
            else if answer.cards == [] then r == Ok(s)
            else r == Ok(AddCoins(MoveFromHand(s, d.player, answer.cards, ToTrash), d.player, 3))
  {
    hide MoveFromHand, AddCoins;
  }

  /** What Moneylender makes of its answer. */
  function Lent(s: State, px: nat, cards: seq<Card>): (u: State)
    ensures u.pending == s.pending
  {
    if cards == [] then Noted(s, px) else AddCoins(MoveFromHand(Noted(s, px), px, cards, ToTrash), px, 3)
  }

  lemma MoneylenderChain(s: State, c: Card, answers: seq<Answer>)
    requires c == Moneylender && s.pending.None? && Copper in s.P(s.current).hand
    ensures var r := Suspended(OnPlay(s, s.current, c), answers);
            && (r.Some? <==> NamesList(answers))
            && (r.Some? ==> r.value == Lent(s, s.current, answers[0].cards))
  {
    hide MoveFromHand, RequestDecision, OnResolve, Noted, Suspended, OnPlay, AddCoins;
    var px, prompt := s.current, TrashFromHandPrompt(0, 1, [], [Copper]);
    MoneylenderAsks(s, c);
    OneAnswer(s, px, c, 0, prompt, NoContext, answers);
    if answers != [] {
      RequestFields(s, px, c, 0, prompt, NoContext);
      OnlyMoneylender(Noted(s, px), RequestDecision(s, px, c, 0, prompt, NoContext).pending.value, answers[0]);
      if answers[0].CardListAnswer? { Settles(Lent(s, px, answers[0].cards), answers[1..]); }
    }
  }

  /** The seat after the trade: the named cards are gone, and naming any pays three coins. */
  function Paid(p: PlayerState, cards: seq<Card>): PlayerState {
    p.(hand := Remaining(p.hand, cards), coins := p.coins + (if cards == [] then 0 else 3))
  }

  lemma EndsLent(s: State, px: nat, cards: seq<Card>)
    requires px < |s.players|
    ensures var p := s.P(px);
            Ends(s, Lent(s, px, cards), px, Paid(p, cards), s.trash + Found(p.hand, cards), s.supply)
  {
    hide MoveFromHand, AddCoins, Noted, Ends, Remaining, Found;
    var p := s.P(px);
    if cards == [] {
      EndsIdle(s, px);
      FoundNone(p.hand);
      assert s.trash + [] == s.trash;
    } else {
      EndsByTrash(s, px, cards);
      EndsWithCoins(s, MoveFromHand(Noted(s, px), px, cards, ToTrash), px, p.(hand := Remaining(p.hand, cards)),
                    s.trash + Found(p.hand, cards), s.supply, 3);
    }
  }

  lemma MoneylenderOwn(s: State, c: Card)
    requires c == Moneylender && s.pending.None?
    ensures PlaysNothing(OnPlay(s, s.current, c))
  {
    hide OnPlay, RequestDecision;
    MoneylenderAsks(s, c);
    RequestFields(s, s.current, c, 0, TrashFromHandPrompt(0, 1, [], [Copper]), NoContext);
  }

  lemma MoneylenderEnds(s: State, c: Card, answers: seq<Answer>)
    requires c == Moneylender && s.pending.None? && s.current < |s.players|
    ensures var r, px, p := Suspended(OnPlay(s, s.current, c), answers), s.current, s.P(s.current);
            if Copper !in p.hand then (r.Some? <==> answers == []) && (r.Some? ==> r.value == s)
            else
              && (r.Some? <==> NamesList(answers))
              && (r.Some? ==>
                    var cards := answers[0].cards;
                    Ends(s, r.value, px, Paid(p, cards), s.trash + Found(p.hand, cards), s.supply))
  {
    hide OnPlay, Suspended, Ends, Remaining, Found, Lent, Paid;
    if Copper in s.P(s.current).hand {
      MoneylenderChain(s, c, answers);
      if NamesList(answers) { EndsLent(s, s.current, answers[0].cards); }
    } else {
      MoneylenderAsks(s, c);
      Settles(s, answers);
    }
  }

  /** Moneylender: nothing happens without a Copper in hand. Otherwise any one list is accepted; the named cards that are
      held are trashed, and naming anything at all pays three coins. */
  lemma MoneylenderCompleted(s: State, answers: seq<Answer>)
    requires Playable(s, Moneylender)
    ensures s.players != []
    ensures var r, m, px := Completed(s, Moneylender, answers), Entered(s, Moneylender), s.current;
            var p, done := m.P(px), r.error.None? && r.state.pending.None?;
            if Copper !in p.hand then (done <==> answers == []) && (done ==> r.state == m)
            else
              && (done <==> NamesList(answers))
              && (done ==>
                    var cards := answers[0].cards;
                    Ends(m, r.state, px, Paid(p, cards), m.trash + Found(p.hand, cards), m.supply))
  {
    var m := Entered(s, Moneylender);
    EnteredFacts(s, Moneylender);
    MoneylenderOwn(m, Moneylender);
    CompletedIs(s, Moneylender, answers);
    hide Playable, OnPlay, Entered, Completed, Suspended, Ends, PlaysNothing, Remaining, Found, Paid;
    MoneylenderEnds(m, Moneylender, answers);
  }

  // ----- Workshop -----

  lemma WorkshopAsks(s: State, c: Card)
    requires c == Workshop
    ensures OnPlay(s, s.current, c) ==
            RequestDecision(s, s.current, c, 0, GainFromSupplyPrompt(4, [], GainToDiscard), NoContext)
  {
    hide RequestDecision;
  }

  lemma OnlyWorkshop(s: State, d: Decision, answer: Answer)
    requires d.card == Workshop && d.prompt == GainFromSupplyPrompt(4, [], GainToDiscard)
    ensures var r := OnResolve(s, d, answer);
            if Names(answer, 4) then r == Ok(GainCard(s, d.player, answer.card, GainToDiscard)) else r.error.Some?
  {
    hide GainCard, Cost;
  }

  lemma PromptField(s: State, px: nat, c: Card, step: nat, prompt: Prompt, context: Context)
    ensures var p := RequestDecision(s, px, c, step, prompt, context).pending; p.Some? && p.value.prompt == prompt
  {
  }

  lemma WorkshopChain(s: State, c: Card, answers: seq<Answer>)
    requires c == Workshop && s.pending.None?
    ensures var r := Suspended(OnPlay(s, s.current, c), answers);
            && (r.Some? <==> |answers| == 1 && Names(answers[0], 4))
            && (r.Some? ==> r.value == GainCard(Noted(s, s.current), s.current, answers[0].card, GainToDiscard))
  {
    hide GainCard, RequestDecision, OnResolve, Noted, Suspended, OnPlay, Cost;
    var px, prompt := s.current, GainFromSupplyPrompt(4, [], GainToDiscard);
    WorkshopAsks(s, c);
    OneAnswer(s, px, c, 0, prompt, NoContext, answers);
    if answers != [] {
      RequestFields(s, px, c, 0, prompt, NoContext);
      PromptField(s, px, c, 0, prompt, NoContext);
      OnlyWorkshop(Noted(s, px), RequestDecision(s, px, c, 0, prompt, NoContext).pending.value, answers[0]);
      if answers[0].CardChoiceAnswer? { Settles(GainCard(Noted(s, px), px, answers[0].card, GainToDiscard), answers[1..]); }
    }
  }

  lemma WorkshopOwn(s: State, c: Card)
    requires c == Workshop
    ensures PlaysNothing(OnPlay(s, s.current, c))
  {
    hide OnPlay, RequestDecision;
    WorkshopAsks(s, c);
    RequestFields(s, s.current, c, 0, GainFromSupplyPrompt(4, [], GainToDiscard), NoContext);
  }

  lemma WorkshopEnds(s: State, c: Card, answers: seq<Answer>)
    requires c == Workshop && s.pending.None? && s.current < |s.players|
    ensures var r, px, p := Suspended(OnPlay(s, s.current, c), answers), s.current, s.P(s.current);
            && (r.Some? <==> |answers| == 1 && Names(answers[0], 4))
            && (r.Some? ==>
                  var y := answers[0].card;
                  if s.Pile(y) > 0 then
                    Ends(s, r.value, px, p.(discard := p.discard + [y]), s.trash, s.supply[y := s.Pile(y) - 1])
                  else Ends(s, r.value, px, p, s.trash, s.supply))
  {
    hide OnPlay, Suspended, Ends, GainCard, Noted, Cost;
    WorkshopChain(s, c, answers);
    if |answers| == 1 && Names(answers[0], 4) { EndsByGain(s, s.current, answers[0].card); }
  }

  /** Workshop: one known card of cost at most four is accepted, and comes from its pile to the discard pile if there is
      one left. */
  lemma WorkshopCompleted(s: State, answers: seq<Answer>)
    requires Playable(s, Workshop)
    ensures s.players != []
    ensures var r, m, px := Completed(s, Workshop, answers), Entered(s, Workshop), s.current;
            var p, done := m.P(px), r.error.None? && r.state.pending.None?;
            && (done <==> |answers| == 1 && Names(answers[0], 4))
            && (done ==>
                  var y := answers[0].card;
                  if m.Pile(y) > 0 then
                    Ends(m, r.state, px, p.(discard := p.discard + [y]), m.trash, m.supply[y := m.Pile(y) - 1])
                  else Ends(m, r.state, px, p, m.trash, m.supply))
  {
    var m := Entered(s, Workshop);
    EnteredFacts(s, Workshop);
    WorkshopOwn(m, Workshop);
    CompletedIs(s, Workshop, answers);
    hide Playable, OnPlay, Entered, Completed, Suspended, Ends, PlaysNothing, Names;
    WorkshopEnds(m, Workshop, answers);
  }

  // ----- Harbinger -----

  /** One card and one action. */
  function OneMore(s: State, px: nat): (t: State)
    ensures t.pending == s.pending && |t.players| == |s.players|
  {
    AddActions(DrawCards(s, px, 1), px, 1)
  }

  lemma HarbingerAsks(s: State, c: Card)
    requires c == Harbinger
    ensures var z := OneMore(s, s.current);
            var discard := z.P(s.current).discard;
            OnPlay(s, s.current, c) ==
            if discard == [] then z
            else RequestDecision(z, s.current, c, 0, ChooseFromDiscardPrompt(discard, true), NoContext)
  {
    hide RequestDecision, DrawCards, AddActions;
  }

  /** The chosen card moves from the discard pile to the top of the deck, unless none is chosen or it is not there. */
  function PutBack(p: PlayerState, answer: Answer): PlayerState
    requires answer.CardChoiceAnswer?
  {
    if answer.none || answer.card !in p.discard then p
    else p.(discard := Without(p.discard, answer.card), deck := p.deck + [answer.card])
  }

  lemma OnlyHarbinger(s: State, d: Decision, answer: Answer)
    requires d.card == Harbinger && d.player < |s.players|
    ensures var r := OnResolve(s, d, answer);
            if answer.CardChoiceAnswer? then
              r == Ok(s.(players := s.players[d.player := PutBack(s.P(d.player), answer)]))
            else r.error.Some?
  {
    hide Without;
    if answer.CardChoiceAnswer? { assert s.players[d.player := s.players[d.player]] == s.players; }
  }

  lemma HarbingerChain(c: Card, z: State, px: nat, answers: seq<Answer>)
    requires c == Harbinger && z.pending.None? && px < |z.players|
    ensures var t := RequestDecision(z, px, c, 0, ChooseFromDiscardPrompt(z.P(px).discard, true), NoContext);
            var r := Suspended(t, answers);
            && (r.Some? <==> |answers| == 1 && answers[0].CardChoiceAnswer?)
            && (r.Some? ==> Ends(z, r.value, px, PutBack(z.P(px), answers[0]), z.trash, z.supply))
  {
    hide RequestDecision, OnResolve, Noted, Suspended, PutBack, Ends;
    var prompt := ChooseFromDiscardPrompt(z.P(px).discard, true);
    OneAnswer(z, px, c, 0, prompt, NoContext, answers);
    if answers != [] {
      RequestFields(z, px, c, 0, prompt, NoContext);
      NotedTable(z, px);
      OnlyHarbinger(Noted(z, px), RequestDecision(z, px, c, 0, prompt, NoContext).pending.value, answers[0]);
      if answers[0].CardChoiceAnswer? {
        var q := PutBack(z.P(px), answers[0]);
        var u := Noted(z, px).(players := z.players[px := q]);
        Settles(u, answers[1..]);
        EndsSeat(z, px, q);
      }
    }
  }

  lemma NotedTable(s: State, px: nat)
    ensures Noted(s, px).players == s.players
  {
  }

  lemma EndsSeat(s: State, px: nat, q: PlayerState)
    requires px < |s.players|
    ensures Ends(s, Noted(s, px).(players := s.players[px := q]), px, q, s.trash, s.supply)
  {
  }

  lemma HarbingerGives(s: State, px: nat, c: Card)
    requires c == Harbinger && px < |s.players|
    ensures Gives(s, OneMore(s, px), px, 1, Printed(c))
  {
    hide Gives, DrawCards, AddActions;
    DrawnThenActions(s, px, 1, 1);
  }

  lemma HarbingerEnds(s: State, c: Card, answers: seq<Answer>)
    requires c == Harbinger && s.pending.None? && s.current < |s.players|
    ensures var r, z, px := Suspended(OnPlay(s, s.current, c), answers), OneMore(s, s.current), s.current;
            && Gives(s, z, px, 1, Printed(c))
            && (if z.P(px).discard == [] then (r.Some? <==> answers == []) && (r.Some? ==> r.value == z)
                else
                  && (r.Some? <==> |answers| == 1 && answers[0].CardChoiceAnswer?)
                  && (r.Some? ==> Ends(z, r.value, px, PutBack(z.P(px), answers[0]), z.trash, z.supply)))
  {
    var z := OneMore(s, s.current);
    hide OnPlay, RequestDecision, Suspended, Ends, Gives, PutBack, OneMore, Printed;
    HarbingerGives(s, s.current, c);
    HarbingerAsks(s, c);
    if z.P(s.current).discard == [] { Settles(z, answers); } else { HarbingerChain(c, z, s.current, answers); }
  }

  lemma HarbingerOwn(s: State, c: Card)
    requires c == Harbinger && s.pending.None?
    ensures PlaysNothing(OnPlay(s, s.current, c))
  {
    var z := OneMore(s, s.current);
    hide OnPlay, RequestDecision, OneMore;
    HarbingerAsks(s, c);
    RequestFields(z, s.current, c, 0, ChooseFromDiscardPrompt(z.P(s.current).discard, true), NoContext);
  }

  /** Harbinger: one card and one action, and then a question exactly if the discard pile is not empty; the card chosen
      from it goes on top of the deck. */
  lemma HarbingerCompleted(s: State, answers: seq<Answer>)
    requires Playable(s, Harbinger)
    ensures s.players != []
    ensures var r, m, px := Completed(s, Harbinger, answers), Entered(s, Harbinger), s.current;
            var z, done := OneMore(m, px), r.error.None? && r.state.pending.None?;
            && Gives(m, z, px, 1, Printed(Harbinger))
            && (if z.P(px).discard == [] then (done <==> answers == []) && (done ==> r.state == z)
                else
                  && (done <==> |answers| == 1 && answers[0].CardChoiceAnswer?)
                  && (done ==> Ends(z, r.state, px, PutBack(z.P(px), answers[0]), z.trash, z.supply)))
  {
    var m := Entered(s, Harbinger);
    EnteredFacts(s, Harbinger);
    HarbingerOwn(m, Harbinger);
    CompletedIs(s, Harbinger, answers);
    hide Playable, OnPlay, Entered, Completed, Suspended, Ends, PlaysNothing, Gives, PutBack, OneMore, Printed;
    HarbingerEnds(m, Harbinger, answers);
  }

  // ----- Poacher -----

  /** One card, one action and one coin. */
  function OneOfEach(s: State, px: nat): (t: State)
    ensures t.pending == s.pending && |t.players| == |s.players|
  {
    AddCoins(OneMore(s, px), px, 1)
  }

  lemma PoacherAsks(s: State, c: Card)
    requires c == Poacher
    ensures var z := OneOfEach(s, s.current);
            var n := EmptyPiles(z.supply);
            OnPlay(s, s.current, c) ==
            if n == 0 then z else RequestDecision(z, s.current, c, 0, DiscardFromHandPrompt(n, n), NoContext)
  {
    hide RequestDecision, DrawCards, AddActions, AddCoins, EmptyPiles;
  }

  lemma NoneEmpty(supply: map<Card, int>)
    ensures EmptyPiles(supply) == 0 <==> forall k :: k in supply ==> !Gone(supply, k)
  {
    var empty := set k | k in supply && supply[k] <= 0;
    assert forall k :: k in empty <==> Gone(supply, k);
    if empty != {} { var k :| k in empty; assert Gone(supply, k); }
  }

  lemma OnlyPoacher(s: State, d: Decision, answer: Answer)
    requires d.card == Poacher
    ensures var r := OnResolve(s, d, answer);
            if answer.CardListAnswer? then r == Ok(MoveFromHand(s, d.player, answer.cards, ToDiscard)) else r.error.Some?
  {
    hide MoveFromHand;
  }

  function Poached(p: PlayerState, cards: seq<Card>): PlayerState {
    p.(hand := Remaining(p.hand, cards), discard := p.discard + Found(p.hand, cards))
  }

  lemma PoacherChain(c: Card, z: State, px: nat, n: nat, answers: seq<Answer>)
    requires c == Poacher && z.pending.None? && px < |z.players|
    ensures var t := RequestDecision(z, px, c, 0, DiscardFromHandPrompt(n, n), NoContext);
            var r := Suspended(t, answers);
            && (r.Some? <==> NamesList(answers))
            && (r.Some? ==> Ends(z, r.value, px, Poached(z.P(px), answers[0].cards), z.trash, z.supply))
  {
    hide RequestDecision, OnResolve, Noted, Suspended, MoveFromHand, Ends, Remaining, Found;
    var prompt := DiscardFromHandPrompt(n, n);
    OneAnswer(z, px, c, 0, prompt, NoContext, answers);
    if answers != [] {
      RequestFields(z, px, c, 0, prompt, NoContext);
      OnlyPoacher(Noted(z, px), RequestDecision(z, px, c, 0, prompt, NoContext).pending.value, answers[0]);
      if answers[0].CardListAnswer? {
        Settles(MoveFromHand(Noted(z, px), px, answers[0].cards, ToDiscard), answers[1..]);
        EndsByDiscard(z, px, answers[0].cards);
      }
    }
  }

  lemma PoacherGives(s: State, px: nat, c: Card)
    requires c == Poacher && px < |s.players|
    ensures Gives(s, OneOfEach(s, px), px, 1, Printed(c)) && OneOfEach(s, px).supply == s.supply
  {
    hide Gives, DrawCards, AddActions, AddCoins;
    DrawnThenActions(s, px, 1, 1);
    GivesCoins(s, OneMore(s, px), px, 1, NOTHING.(actions := 1), 1);
    hide OneOfEach;
    GivesTable(s, OneOfEach(s, px), px, 1, Printed(c));
  }

  lemma PoacherEnds(s: State, c: Card, answers: seq<Answer>)
    requires c == Poacher && s.pending.None? && s.current < |s.players|
    ensures var r, z, px := Suspended(OnPlay(s, s.current, c), answers), OneOfEach(s, s.current), s.current;
            && Gives(s, z, px, 1, Printed(c))
            && (if forall k :: k in s.supply ==> !Gone(s.supply, k) then
                  (r.Some? <==> answers == []) && (r.Some? ==> r.value == z)
                else
                  && (r.Some? <==> NamesList(answers))
                  && (r.Some? ==> Ends(z, r.value, px, Poached(z.P(px), answers[0].cards), z.trash, z.supply)))
  {
    var z := OneOfEach(s, s.current);
    hide OnPlay, RequestDecision, Suspended, Ends, Gives, Poached, Gone, EmptyPiles, OneOfEach, NamesList, Printed;
    PoacherGives(s, s.current, c);
    PoacherAsks(s, c);
    NoneEmpty(s.supply);
    if EmptyPiles(s.supply) == 0 {
      Settles(z, answers);
    } else {
      PoacherChain(c, z, s.current, EmptyPiles(s.supply), answers);
    }
  }

  lemma PoacherOwn(s: State, c: Card)
    requires c == Poacher && s.pending.None?
    ensures PlaysNothing(OnPlay(s, s.current, c))
  {
    var z := OneOfEach(s, s.current);
    var n := EmptyPiles(z.supply);
    hide OnPlay, RequestDecision, OneOfEach, EmptyPiles;
    PoacherAsks(s, c);
    RequestFields(z, s.current, c, 0, DiscardFromHandPrompt(n, n), NoContext);
  }

  /** Poacher: one card, one action and one coin, and then a question exactly if a pile is empty; of the cards named those
      that are held are discarded. */
  lemma PoacherCompleted(s: State, answers: seq<Answer>)
    requires Playable(s, Poacher)
    ensures s.players != []
    ensures var r, m, px := Completed(s, Poacher, answers), Entered(s, Poacher), s.current;
            var z, done := OneOfEach(m, px), r.error.None? && r.state.pending.None?;
            && Gives(m, z, px, 1, Printed(Poacher))
            && (if forall k :: k in s.supply ==> !Gone(s.supply, k) then (done <==> answers == []) && (done ==> r.state == z)
                else
                  && (done <==> NamesList(answers))
                  && (done ==> Ends(z, r.state, px, Poached(z.P(px), answers[0].cards), z.trash, z.supply)))
  {
    var m := Entered(s, Poacher);
    EnteredFacts(s, Poacher);
    EnteredTable(s, Poacher);
    PoacherOwn(m, Poacher);
    CompletedIs(s, Poacher, answers);
    hide Playable, OnPlay, Entered, Completed, Suspended, Ends, PlaysNothing, Gives, Poached, OneOfEach, Printed, Gone;
    PoacherEnds(m, Poacher, answers);
  }
}
