/** Exact effects of the cards that exchange cards: Remodel, Mine, Artisan, Harbinger, Poacher, Cellar and Witch. */
module Exchanges {
  import opened Cards
  import opened States
  import opened Zones
  import opened Primitives
  import opened Effects
  import opened Invariants
  import opened Acceptance
  import opened Moves
  import opened Chains
  import opened Drawing
  import opened Victims

  // ----- Remodel and Mine -----

  /** The card that a one-card list names. */
  predicate NamesOne(answer: Answer) {
    answer.CardListAnswer? && |answer.cards| == 1 && Known(answer.cards[0])
  }

  /** What Remodel makes of two answers: the named card is trashed if it is held, and a card of at most its cost plus
      two is gained if the supply has one. */
  function Remodelled(s: State, px: nat, trashed: Card, gained: Card): State {
    GainCard(Noted(MoveFromHand(Noted(s, px), px, [trashed], ToTrash), px), px, gained, GainToDiscard)
  }

  lemma FirstRemodel(s: State, d: Decision, answer: Answer)
    requires d.card == Remodel && d.step == 0
    ensures var r := OnResolve(s, d, answer);
            if NamesOne(answer) then
              var x := answer.cards[0];
              r == Ok(RequestDecision(MoveFromHand(s, d.player, [x], ToTrash), d.player, Remodel, 1,
                                      GainFromSupplyPrompt(Cost(x) + 2, [], GainToDiscard), CostContext(Cost(x))))
            else r.error.Some?
  {
    hide MoveFromHand, RequestDecision, Cost;
    if NamesOne(answer) { assert answer.cards == [answer.cards[0]]; }
  }

  lemma SecondRemodel(s: State, d: Decision, answer: Answer, cost: int)
    requires d.card == Remodel && d.step == 1 && d.context == CostContext(cost)
    ensures var r := OnResolve(s, d, answer);
            if answer.CardChoiceAnswer? && Known(answer.card) && Cost(answer.card) <= cost + 2 then
              r == Ok(GainCard(s, d.player, answer.card, GainToDiscard))
            else r.error.Some?
  {
    hide GainCard, Cost;
  }

  /** One card of at most the given cost. */
  predicate Names(answer: Answer, maxCost: int) {
    answer.CardChoiceAnswer? && Known(answer.card) && Cost(answer.card) <= maxCost
  }

  lemma Settles(t: State, answers: seq<Answer>)
    requires t.pending.None?
    ensures Suspended(t, answers) == if answers == [] then Some(t) else None
  {
  }

  /** Remodel, to the end: accepted exactly if one known card is named first and then one that costs at most two more.
      The first card need not be held: the gain happens either way. */
  lemma RemodelChain(s: State, c: Card, answers: seq<Answer>)
    requires c == Remodel && s.pending.None? && s.P(s.current).hand != []
    ensures var r := Suspended(OnPlay(s, s.current, c), answers);
            && (r.Some? <==> |answers| == 2 && NamesOne(answers[0]) && Names(answers[1], Cost(answers[0].cards[0]) + 2))
            && (r.Some? ==> r.value == Remodelled(s, s.current, answers[0].cards[0], answers[1].card))
  {
    hide MoveFromHand, RequestDecision, Cost, GainCard, OnResolve, Noted, Suspended, OnPlay;
    var px := s.current;
    AsksToTrash(s, c);
    var prompt := TrashFromHandPrompt(1, 1, [], []);
    OneAnswer(s, px, c, 0, prompt, NoContext, answers);
    if answers != [] {
      RequestFields(s, px, c, 0, prompt, NoContext);
      FirstRemodel(Noted(s, px), RequestDecision(s, px, c, 0, prompt, NoContext).pending.value, answers[0]);
      if NamesOne(answers[0]) {
        var x := answers[0].cards[0];
        RemodelSecond(MoveFromHand(Noted(s, px), px, [x], ToTrash), px, Cost(x), answers[1..]);
      }
    }
  }

  lemma RemodelSecond(s: State, px: nat, cost: int, answers: seq<Answer>)
    requires s.pending.None?
    ensures var t := RequestDecision(s, px, Remodel, 1, GainFromSupplyPrompt(cost + 2, [], GainToDiscard),
                                     CostContext(cost));
            var r := Suspended(t, answers);
            && (r.Some? <==> |answers| == 1 && Names(answers[0], cost + 2))
            && (r.Some? ==> r.value == GainCard(Noted(s, px), px, answers[0].card, GainToDiscard))
  {
    hide RequestDecision, Cost, GainCard, OnResolve, Noted, Suspended;
    var prompt := GainFromSupplyPrompt(cost + 2, [], GainToDiscard);
    OneAnswer(s, px, Remodel, 1, prompt, CostContext(cost), answers);
    if answers != [] {
      RequestFields(s, px, Remodel, 1, prompt, CostContext(cost));
      SecondRemodel(Noted(s, px), RequestDecision(s, px, Remodel, 1, prompt, CostContext(cost)).pending.value,
                    answers[0], cost);
      if Names(answers[0], cost + 2) { Settles(GainCard(Noted(s, px), px, answers[0].card, GainToDiscard), answers[1..]); }
    }
  }

  /** What Mine makes of two answers: all named cards that are held are trashed, and a Treasure of at most the first
      one's cost plus three is gained to the hand. */
  function Mined(s: State, px: nat, trashed: seq<Card>, gained: Card): State {
    GainCard(Noted(MoveFromHand(Noted(s, px), px, trashed, ToTrash), px), px, gained, GainToHand)
  }

  predicate NamesSome(answer: Answer) {
    answer.CardListAnswer? && answer.cards != [] && Known(answer.cards[0])
  }

  lemma FirstMine(s: State, d: Decision, answer: Answer)
    requires d.card == Mine && d.step == 0
    ensures var r := OnResolve(s, d, answer);
            if NamesSome(answer) then
              var cost := Cost(answer.cards[0]);
              r == Ok(RequestDecision(MoveFromHand(s, d.player, answer.cards, ToTrash), d.player, Mine, 1,
                                      GainFromSupplyPrompt(cost + 3, [Treasure], GainToHand), CostContext(cost)))
            else if answer == CardListAnswer([]) then r == Ok(s)
            else r.error.Some?
  {
    hide MoveFromHand, RequestDecision, Cost;
  }

  lemma SecondMine(s: State, d: Decision, answer: Answer, cost: int)
    requires d.card == Mine && d.step == 1 && d.context == CostContext(cost)
    ensures var r := OnResolve(s, d, answer);
            if answer.CardChoiceAnswer? && IsTreasure(answer.card) && Cost(answer.card) <= cost + 3 then
              r == Ok(GainCard(s, d.player, answer.card, GainToHand))
            else r.error.Some?
  {
    hide GainCard, Cost;
  }

  lemma AsksForTreasure(s: State, c: Card)
    requires c == Mine && HasTreasure(s.P(s.current).hand)
    ensures OnPlay(s, s.current, c) ==
            RequestDecision(s, s.current, c, 0, TrashFromHandPrompt(0, 1, [Treasure], []), NoContext)
  {
    hide PlaySilver, PlayHarbinger, LibraryStep, PlayMerchant, PlayPoacher, PlaySentry, PlayVassal, PlayCouncilRoom,
      PlayMilitia, PlayBureaucrat, PlayBandit, PlayWitch, PlayCellar, DrawCards, AddActions, AddBuys, AddCoins,
      RequestDecision, HasTreasure;
  }

  /** Mine, to the end: accepted exactly if an empty list is named, or a list led by a known card and then a Treasure
      that costs at most three more. Neither the number nor the type of the trashed cards is checked, only those of the
      gain. */
  lemma MineChain(s: State, c: Card, answers: seq<Answer>)
    requires c == Mine && s.pending.None? && HasTreasure(s.P(s.current).hand)
    ensures var r := Suspended(OnPlay(s, s.current, c), answers);
            && (r.Some? <==> || answers == [CardListAnswer([])]
                             || (|answers| == 2 && NamesSome(answers[0]) &&
                                 Names(answers[1], Cost(answers[0].cards[0]) + 3) && IsTreasure(answers[1].card)))
            && (r.Some? ==>
                  r.value == if |answers| == 1 then Noted(s, s.current)
                             else Mined(s, s.current, answers[0].cards, answers[1].card))
  {
    hide MoveFromHand, RequestDecision, Cost, GainCard, OnResolve, Noted, Suspended, OnPlay, HasTreasure, IsTreasure;
    var px := s.current;
    AsksForTreasure(s, c);
    var prompt := TrashFromHandPrompt(0, 1, [Treasure], []);
    OneAnswer(s, px, c, 0, prompt, NoContext, answers);
    if answers != [] {
      RequestFields(s, px, c, 0, prompt, NoContext);
      FirstMine(Noted(s, px), RequestDecision(s, px, c, 0, prompt, NoContext).pending.value, answers[0]);
      if NamesSome(answers[0]) {
        var cards := answers[0].cards;
        MineSecond(MoveFromHand(Noted(s, px), px, cards, ToTrash), px, Cost(cards[0]), answers[1..]);
      } else {
        Settles(Noted(s, px), answers[1..]);
      }
    }
  }

  lemma MineSecond(s: State, px: nat, cost: int, answers: seq<Answer>)
    requires s.pending.None?
    ensures var t := RequestDecision(s, px, Mine, 1, GainFromSupplyPrompt(cost + 3, [Treasure], GainToHand),
                                     CostContext(cost));
            var r := Suspended(t, answers);
            && (r.Some? <==> |answers| == 1 && Names(answers[0], cost + 3) && IsTreasure(answers[0].card))
            && (r.Some? ==> r.value == GainCard(Noted(s, px), px, answers[0].card, GainToHand))
  {
    hide RequestDecision, Cost, GainCard, OnResolve, Noted, Suspended;
    var prompt := GainFromSupplyPrompt(cost + 3, [Treasure], GainToHand);
    OneAnswer(s, px, Mine, 1, prompt, CostContext(cost), answers);
    if answers != [] {
      RequestFields(s, px, Mine, 1, prompt, CostContext(cost));
      SecondMine(Noted(s, px), RequestDecision(s, px, Mine, 1, prompt, CostContext(cost)).pending.value, answers[0], cost);
      if answers[0].CardChoiceAnswer? { Settles(GainCard(Noted(s, px), px, answers[0].card, GainToHand), answers[1..]); }
    }
  }

  lemma RequestFields(s: State, px: nat, c: Card, step: nat, prompt: Prompt, context: Context)
    ensures var p := RequestDecision(s, px, c, step, prompt, context).pending;
            p.Some? && p.value.card == c && p.value.step == step && p.value.player == px && p.value.context == context
  {
  }

  lemma AsksToTrash(s: State, c: Card)
    requires c == Remodel && s.P(s.current).hand != []
    ensures OnPlay(s, s.current, c) ==
            RequestDecision(s, s.current, c, 0, TrashFromHandPrompt(1, 1, [], []), NoContext)
  {
    hide PlaySilver, PlayHarbinger, LibraryStep, PlayMerchant, PlayPoacher, PlaySentry, PlayVassal, PlayCouncilRoom,
      PlayMilitia, PlayBureaucrat, PlayBandit, PlayWitch, PlayCellar, DrawCards, AddActions, AddBuys, AddCoins,
      RequestDecision;
  }

  /** The zones after a Remodel: the trashed card leaves hand for trash if it was held; the gained card comes from its
      pile to the discard pile if there is one left. */
  lemma RemodelledZones(s: State, px: nat, x: Card, y: Card)
    requires px < |s.players|
    ensures var p, u := s.P(px), Remodelled(s, px, x, y);
            var q := u.P(px);
            && u.trash == s.trash + (if x in p.hand then [x] else [])
            && (if s.Pile(y) > 0 then
                  q == p.(hand := Without(p.hand, x), discard := p.discard + [y]) &&
                  u.supply == s.supply[y := s.supply[y] - 1]
                else q == p.(hand := Without(p.hand, x)) && u.supply == s.supply)
  {
    hide Without, Noted, MoveFromHand, GainCard;
    var s0 := Noted(s, px);
    TrashesNamed(s0, px, x);
    var s1 := Noted(MoveFromHand(s0, px, [x], ToTrash), px);
    Gains(s1, px, y);
  }

  lemma TrashesNamed(s: State, px: nat, x: Card)
    requires px < |s.players|
    ensures var p, t := s.P(px), MoveFromHand(s, px, [x], ToTrash);
            && t.P(px) == p.(hand := Without(p.hand, x))
            && t.trash == s.trash + (if x in p.hand then [x] else [])
            && t.supply == s.supply && |t.players| == |s.players|
  {
    hide Without;
    var s1 := MoveOne(s, px, x, ToTrash);
    assert MoveFromHand(s, px, [x], ToTrash) == MoveFromHand(s1, px, [x][1..], ToTrash) == s1;
    hide MoveFromHand;
    assert s.trash + [] == s.trash;
  }

  lemma Gains(s: State, px: nat, y: Card)
    requires px < |s.players|
    ensures var p, t := s.P(px), GainCard(s, px, y, GainToDiscard);
            && t.trash == s.trash
            && (if s.Pile(y) > 0 then
                  t.P(px) == p.(discard := p.discard + [y]) && t.supply == s.supply[y := s.supply[y] - 1]
                else t.P(px) == p && t.supply == s.supply)
  {
  }

  // ----- Artisan -----

  lemma FirstArtisan(s: State, d: Decision, answer: Answer)
    requires d.card == Artisan && d.step == 0
    ensures var r := OnResolve(s, d, answer);
            if answer.CardChoiceAnswer? && Known(answer.card) && Cost(answer.card) <= 5 then
              r == Ok(RequestDecision(GainCard(s, d.player, answer.card, GainToHand), d.player, Artisan, 1,
                                      PutOnDeckPrompt([]), NoContext))
            else r.error.Some?
  {
    hide GainCard, RequestDecision, MoveFromHand, Cost;
  }

  lemma SecondArtisan(s: State, d: Decision, answer: Answer)
    requires d.card == Artisan && d.step == 1
    ensures var r := OnResolve(s, d, answer);
            if answer.CardChoiceAnswer? then r == Ok(MoveFromHand(s, d.player, [answer.card], ToDeck)) else r.error.Some?
  {
    hide GainCard, RequestDecision, MoveFromHand, Cost;
  }

  lemma AsksForGain(s: State, c: Card)
    requires c == Artisan
    ensures OnPlay(s, s.current, c) ==
            RequestDecision(s, s.current, c, 0, GainFromSupplyPrompt(5, [], GainToHand), NoContext)
  {
    hide PlaySilver, PlayHarbinger, LibraryStep, PlayMerchant, PlayPoacher, PlaySentry, PlayVassal, PlayCouncilRoom,
      PlayMilitia, PlayBureaucrat, PlayBandit, PlayWitch, PlayCellar, DrawCards, AddActions, AddBuys, AddCoins,
      RequestDecision;
  }

  /** The gained card comes to the hand before one card of the hand goes on the deck. */
  function Crafted(s: State, px: nat, gained: Card, returned: Card): State {
    MoveFromHand(Noted(GainCard(Noted(s, px), px, gained, GainToHand), px), px, [returned], ToDeck)
  }

  /** Artisan, to the end: accepted exactly if a known card of cost at most five is named first and any card second. */
  lemma ArtisanChain(s: State, c: Card, answers: seq<Answer>)
    requires c == Artisan && s.pending.None?
    ensures var r := Suspended(OnPlay(s, s.current, c), answers);
            && (r.Some? <==> |answers| == 2 && Names(answers[0], 5) && answers[1].CardChoiceAnswer?)
            && (r.Some? ==> r.value == Crafted(s, s.current, answers[0].card, answers[1].card))
  {
    hide MoveFromHand, RequestDecision, Cost, GainCard, OnResolve, Noted, Suspended, OnPlay;
    var px := s.current;
    AsksForGain(s, c);
    var prompt := GainFromSupplyPrompt(5, [], GainToHand);
    OneAnswer(s, px, c, 0, prompt, NoContext, answers);
    if answers != [] {
      RequestFields(s, px, c, 0, prompt, NoContext);
      FirstArtisan(Noted(s, px), RequestDecision(s, px, c, 0, prompt, NoContext).pending.value, answers[0]);
      if Names(answers[0], 5) {
        ArtisanSecond(GainCard(Noted(s, px), px, answers[0].card, GainToHand), px, answers[1..]);
      }
    }
  }

  lemma ArtisanSecond(s: State, px: nat, answers: seq<Answer>)
    requires s.pending.None?
    ensures var r := Suspended(RequestDecision(s, px, Artisan, 1, PutOnDeckPrompt([]), NoContext), answers);
            && (r.Some? <==> |answers| == 1 && answers[0].CardChoiceAnswer?)
            && (r.Some? ==> r.value == MoveFromHand(Noted(s, px), px, [answers[0].card], ToDeck))
  {
    hide MoveFromHand, RequestDecision, OnResolve, Noted, Suspended;
    OneAnswer(s, px, Artisan, 1, PutOnDeckPrompt([]), NoContext, answers);
    if answers != [] {
      RequestFields(s, px, Artisan, 1, PutOnDeckPrompt([]), NoContext);
      SecondArtisan(Noted(s, px), RequestDecision(s, px, Artisan, 1, PutOnDeckPrompt([]), NoContext).pending.value,
                    answers[0]);
      if answers[0].CardChoiceAnswer? {
        Settles(MoveFromHand(Noted(s, px), px, [answers[0].card], ToDeck), answers[1..]);
      }
    }
  }

  /** The zones after an Artisan: the card put back may be the one just gained. */
  lemma CraftedZones(s: State, px: nat, x: Card, y: Card)
    requires px < |s.players|
    ensures var p, q := s.P(px), Crafted(s, px, x, y).P(px);
            var hand := if s.Pile(x) > 0 then p.hand + [x] else p.hand;
            q == p.(hand := Without(hand, y), deck := if y in hand then p.deck + [y] else p.deck)
  {
    hide Without, Noted, MoveFromHand, GainCard;
    var s0 := Noted(s, px);
    GainsToHand(s0, px, x);
    PutsNamed(Noted(GainCard(s0, px, x, GainToHand), px), px, y);
  }

  lemma GainsToHand(s: State, px: nat, x: Card)
    requires px < |s.players|
    ensures var p, t := s.P(px), GainCard(s, px, x, GainToHand);
            t.P(px) == (if s.Pile(x) > 0 then p.(hand := p.hand + [x]) else p) && |t.players| == |s.players|
  {
  }

  lemma PutsNamed(s: State, px: nat, y: Card)
    requires px < |s.players|
    ensures var p, t := s.P(px), MoveFromHand(s, px, [y], ToDeck);
            t.P(px) == p.(hand := Without(p.hand, y), deck := if y in p.hand then p.deck + [y] else p.deck)
  {
    hide Without;
    var s1 := MoveOne(s, px, y, ToDeck);
    assert MoveFromHand(s, px, [y], ToDeck) == MoveFromHand(s1, px, [y][1..], ToDeck) == s1;
  }

  // ----- Harbinger and Poacher -----

  /** Harbinger: the chosen card moves from the discard pile to the top of the deck if it is there; declining, or naming
      a card that is not there, changes nothing. */
  lemma HarbingerMoves(s: State, d: Decision, answer: Answer)
    requires d.card == Harbinger && d.player < |s.players| && answer.CardChoiceAnswer?
    ensures var r, p := OnResolve(s, d, answer), s.P(d.player);
            && r.error.None?
            && r.state == (if answer.none || answer.card !in p.discard then s
                           else s.With(d.player, r.state.P(d.player)))
            && (!answer.none && answer.card in p.discard ==>
                  var q := r.state.P(d.player);
                  && q == p.(deck := p.deck + [answer.card], discard := q.discard)
                  && multiset(p.discard) == multiset(q.discard) + multiset{answer.card})
  {
    hide Without;
  }

  /** Poacher: an answer that follows the prompt discards one card for each empty pile, as far as the hand goes. */
  lemma PoacherDiscards(s: State, d: Decision, answer: Answer)
    requires d.card == Poacher && d.player < |s.players| && Prompted(s, d) && Follows(s, d, answer)
    ensures var r, p := OnResolve(s, d, answer), s.P(d.player);
            && r.error.None?
            && |r.state.P(d.player).hand| == |p.hand| - Min(EmptyPiles(s.supply), |p.hand|)
            && r.state.P(d.player).discard == p.discard + answer.cards
  {
    hide MoveFromHand, Found, Remaining, EmptyPiles, MoveEvents;
    var p := s.P(d.player);
    DiscardsNamed(s, d.player, answer.cards);
    FoundExactly(p.hand, answer.cards);
  }

  // ----- Cellar -----

  /** The size of the hand after a Cellar that names `cards`, with `more` cards to draw before the discards: what is named
      and held is discarded, and as many cards as were named, held or not, are drawn as far as there are any. The hand
      never shrinks, because the discards themselves can be drawn again, and it keeps its size exactly if all named cards
      were held or there was nothing to draw. */
  predicate SizeAfter(hand: seq<Card>, more: nat, cards: seq<Card>, size: nat) {
    && size == |hand| - |Found(hand, cards)| + Min(|cards|, more + |Found(hand, cards)|)
    && size >= |hand|
    && (size == |hand| <==> multiset(cards) <= multiset(hand) || more == 0)
  }

  lemma CellarHand(s: State, px: nat, cards: seq<Card>)
    requires px < |s.players|
    ensures var p, t := s.P(px), DrawCards(MoveFromHand(s, px, cards, ToDiscard), px, |cards|);
            SizeAfter(p.hand, Available(p), cards, |t.P(px).hand|) && Remaining(p.hand, cards) <= t.P(px).hand
  {
    hide MoveFromHand, Found, Remaining, DrawCards, MoveEvents;
    var p := s.P(px);
    var s1 := MoveFromHand(s, px, cards, ToDiscard);
    DiscardsNamed(s, px, cards);
    MoveElsewhere(s, px, cards, ToDiscard);
    FoundExactly(p.hand, cards);
    DrawnSeat(s1, px, |cards|);
  }

  /** What Cellar makes of its answer. */
  function Exchanged(s: State, px: nat, cards: seq<Card>): State {
    DrawCards(MoveFromHand(Noted(AddActions(s, px, 1), px), px, cards, ToDiscard), px, |cards|)
  }

  /** Cellar, to the end: accepted exactly if one list is named, whatever it names. */
  lemma CellarChain(s: State, c: Card, answers: seq<Answer>)
    requires c == Cellar && s.pending.None?
    ensures var r := Suspended(OnPlay(s, s.current, c), answers);
            && (r.Some? <==> |answers| == 1 && answers[0].CardListAnswer?)
            && (r.Some? ==> r.value == Exchanged(s, s.current, answers[0].cards))
  {
    hide MoveFromHand, RequestDecision, DrawCards, OnResolve, Noted, Suspended, OnPlay, AddActions;
    var px := s.current;
    var s1 := AddActions(s, px, 1);
    var prompt := DiscardFromHandPrompt(0, |s1.P(px).hand|);
    AsksToDiscard(s, c);
    OneAnswer(s1, px, Cellar, 0, prompt, NoContext, answers);
    if answers != [] {
      RequestFields(s1, px, Cellar, 0, prompt, NoContext);
      OnlyCellar(Noted(s1, px), RequestDecision(s1, px, Cellar, 0, prompt, NoContext).pending.value, answers[0]);
      if answers[0].CardListAnswer? { Settles(Exchanged(s, px, answers[0].cards), answers[1..]); }
    }
  }

  lemma OnlyCellar(s: State, d: Decision, answer: Answer)
    requires d.card == Cellar
    ensures var r := OnResolve(s, d, answer);
            if answer.CardListAnswer? then
              r == Ok(DrawCards(MoveFromHand(s, d.player, answer.cards, ToDiscard), d.player, |answer.cards|))
            else r.error.Some?
  {
    hide MoveFromHand, DrawCards;
  }

  lemma AsksToDiscard(s: State, c: Card)
    requires c == Cellar
    ensures var s1 := AddActions(s, s.current, 1);
            OnPlay(s, s.current, c) ==
            RequestDecision(s1, s.current, Cellar, 0, DiscardFromHandPrompt(0, |s1.P(s.current).hand|), NoContext)
  {
    hide AddActions, RequestDecision;
  }

  /** The hand after a Cellar. */
  lemma ExchangedHand(s: State, px: nat, cards: seq<Card>)
    requires px < |s.players|
    ensures SizeAfter(s.P(px).hand, Available(s.P(px)), cards, |Exchanged(s, px, cards).P(px).hand|)
  {
    var s1 := Noted(AddActions(s, px, 1), px);
    assert s1.P(px).hand == s.P(px).hand && Available(s1.P(px)) == Available(s.P(px)) && px < |s1.players|;
    hide MoveFromHand, DrawCards, SizeAfter, Noted, AddActions, Available;
    CellarHand(s1, px, cards);
  }

  // ----- Witch -----

  /** Curses go to the victims in turn order for as long as the pile lasts. */
  lemma {:induction false} CursesInOrder(s: State, seats: seq<nat>, i: nat)
    requires Distinct(s, seats) && s.Pile(Curse) >= 0
    ensures var t := CurseEach(s, seats);
            && t.Pile(Curse) == (if |seats| <= s.Pile(Curse) then s.Pile(Curse) - |seats| else 0)
            && (i < |seats| ==>
                  t.P(seats[i]) == if i < s.Pile(Curse) then
                                     s.P(seats[i]).(discard := s.P(seats[i]).discard + [Curse])
                                   else s.P(seats[i]))
            && (forall v: nat :: v !in seats ==> t.P(v) == s.P(v))
    decreases |seats|
  {
    if seats != [] {
      var v, rest := seats[0], seats[1..];
      var s1 := GainCard(s, v, Curse, GainToDiscard);
      assert seats == [v] + rest;
      DistinctTail(s, s1, seats);
      CurseOne(s, v);
      hide GainCard, Distinct;
      CursesInOrder(s1, rest, if i == 0 then 0 else i - 1);
    }
  }

  lemma CurseOne(s: State, v: nat)
    requires v < |s.players|
    ensures var t := GainCard(s, v, Curse, GainToDiscard);
            && t.Pile(Curse) == (if s.Pile(Curse) > 0 then s.Pile(Curse) - 1 else s.Pile(Curse))
            && t.P(v) == (if s.Pile(Curse) > 0 then s.P(v).(discard := s.P(v).discard + [Curse]) else s.P(v))
            && (forall w: nat :: w != v ==> t.P(w) == s.P(w))
            && |t.players| == |s.players|
  {
  }
}
