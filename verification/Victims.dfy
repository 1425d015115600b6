/** What an attack does to each seat: every victim is struck exactly once, nobody else is touched. */
module Victims {
  import opened Cards
  import opened States
  import opened Zones
  import opened Primitives
  import opened Effects
  import opened Invariants
  import opened Acceptance
  import opened Moves
  import opened Chains
  import opened Attacks

  // ----- One victim -----

  /** Militia: a hand of more than three gives up the named cards it holds, in order, to the discard pile; exactly
      three cards stay if and only if every named card was held. */
  predicate Disarmed(p: PlayerState, q: PlayerState, answer: Answer) {
    && answer.CardListAnswer? && |answer.cards| == |p.hand| - 3
    && q == p.(hand := q.hand, discard := p.discard + Found(p.hand, answer.cards))
    && multiset(q.hand) == multiset(p.hand) - multiset(answer.cards)
    && |q.hand| >= 3
    && (|q.hand| == 3 <==> multiset(answer.cards) <= multiset(p.hand))
  }

  /** Bureaucrat: exactly one Victory moves from the hand to the top of the deck if the hand holds one. */
  predicate Taxed(p: PlayerState, q: PlayerState) {
    if exists c | c in p.hand :: IsVictory(c) then
      exists c | c in p.hand ::
        IsVictory(c) && q == p.(hand := Without(p.hand, c), deck := p.deck + [c])
    else q == p
  }

  /** The deck is reshuffled together with the discard pile only if it is too short for two cards. */
  predicate Refreshed(p: PlayerState, r: PlayerState) {
    if |p.deck| < 2 && p.discard != [] then
      r == p.(deck := r.deck, discard := []) && multiset(r.deck) == multiset(p.deck + p.discard)
    else r == p
  }

  function TopTwo(deck: seq<Card>): seq<Card> {
    TopDown(deck, if |deck| < 2 then |deck| else 2)
  }

  /** The revealed cards that are discarded: those not equal to the trashed one. */
  function Spared(revealed: seq<Card>, skip: Option<Card>): seq<Card> {
    if revealed == [] then []
    else (if skip == Some(revealed[0]) then [] else [revealed[0]]) + Spared(revealed[1..], skip)
  }

  /** The deck gave up the cards of `out` and, if any, the card `taken`, and kept the rest. */
  ghost predicate Split(deck: seq<Card>, rest: seq<Card>, out: seq<Card>, taken: Option<Card>) {
    forall d ::
      multiset(deck)[d] == multiset(rest)[d] + multiset(out)[d] + (if taken == Some(d) then 1 else 0)
  }

  /** Bandit on a seat whose deck is ready: one non-Copper Treasure among the top two is trashed if there is one, the
      other revealed cards go to the discard pile, and the rest of the deck keeps its cards. Each of these cards leaves
      the deck as its deepest copy, which need not be the one that was shown. */
  ghost predicate Robbed(p: PlayerState, q: PlayerState, taken: Option<Card>) {
    var revealed := TopTwo(p.deck);
    var spared := Spared(revealed, taken);
    && (if NonCopperTreasures(revealed) == [] then taken == None
        else taken.Some? && taken.value in NonCopperTreasures(revealed))
    && q == p.(deck := Remaining(if taken.Some? then Without(p.deck, taken.value) else p.deck, spared),
               discard := p.discard + spared)
    && Split(p.deck, q.deck, spared, taken)
  }

  ghost predicate Looted(p: PlayerState, q: PlayerState) {
    exists r, taken :: Refreshed(p, r) && Robbed(r, q, taken)
  }

  lemma LootedBy(p: PlayerState, r: PlayerState, q: PlayerState, taken: Option<Card>)
    requires Refreshed(p, r) && Robbed(r, q, taken)
    ensures Looted(p, q)
  {
    hide Refreshed, Robbed;
  }

  /** What the attack `c` does to one victim's seat. */
  ghost predicate Struck(c: Card, p: PlayerState, q: PlayerState, answers: seq<Answer>)
    requires Asking(c)
  {
    match c
    case Militia => if |p.hand| <= 3 then q == p else exists a | a in answers :: Disarmed(p, q, a)
    case Bureaucrat => Taxed(p, q)
    case Bandit => Looted(p, q)
  }

  lemma DiscardsNamed(s: State, v: nat, cards: seq<Card>)
    requires v < |s.players|
    ensures var p := s.P(v);
            MoveFromHand(s, v, cards, ToDiscard).P(v) ==
            p.(hand := Remaining(p.hand, cards), discard := p.discard + Found(p.hand, cards))
  {
    hide Found, Remaining, MoveFromHand, MoveEvents;
    MoveFromHandIs(s, v, cards, ToDiscard);
  }

  lemma DisarmsVictim(s: State, v: nat, answer: Answer)
    requires v < |s.players| && |s.P(v).hand| > 3 && Accepts(Militia, s, v, [], answer)
    ensures Disarmed(s.P(v), Chosen(Militia, s, v, [], answer).P(v), answer)
  {
    hide Found, Remaining, MoveFromHand, MoveEvents;
    var p := s.P(v);
    DiscardsNamed(s, v, answer.cards);
    FoundIs(p.hand, answer.cards);
    FoundExactly(p.hand, answer.cards);
  }

  /** Putting one card of the hand on the deck. */
  lemma PutsOne(s: State, v: nat, c: Card)
    requires v < |s.players| && c in s.P(v).hand
    ensures var p := s.P(v);
            MoveFromHand(s, v, [c], ToDeck).P(v) == p.(hand := Without(p.hand, c), deck := p.deck + [c])
  {
    var s1 := MoveOne(s, v, c, ToDeck);
    assert MoveFromHand(s, v, [c], ToDeck) == MoveFromHand(s1, v, [c][1..], ToDeck) == s1;
    hide Without;
  }

  lemma TaxesVictim(s: State, v: nat, answer: Answer)
    requires v < |s.players| && Accepts(Bureaucrat, s, v, [], answer)
    ensures Taxed(s.P(v), Chosen(Bureaucrat, s, v, [], answer).P(v))
  {
    assert answer.cards == [answer.cards[0]];
    PutsOne(s, v, answer.cards[0]);
    hide Without, MoveFromHand;
  }

  lemma TaxesUnasked(s: State, v: nat)
    requires v < |s.players| && |VictoriesIn(s.P(v).hand)| <= 1
    ensures Taxed(s.P(v), BureaucratUnasked(s, v).P(v))
  {
    var p := s.P(v);
    var victories := VictoriesIn(p.hand);
    VictoriesAre(p.hand);
    hide Without, MoveFromHand, VictoriesIn;
    if victories != [] {
      assert victories == [victories[0]] && victories[0] in victories;
      PutsOne(s, v, victories[0]);
    } else {
      forall c | c in p.hand ensures !IsVictory(c) { assert IsVictory(c) ==> c in victories; }
    }
  }

  // ----- Bandit -----

  lemma RevealsTopTwo(s: State, v: nat)
    requires v < |s.players|
    ensures var (t, revealed) := BanditReveal(s, v);
            Refreshed(s.P(v), t.P(v)) && revealed == TopTwo(t.P(v).deck)
  {
    hide TopDown, Shuffle;
  }

  /** The top two cards are in the deck. */
  lemma TopTwoWithin(deck: seq<Card>)
    ensures multiset(TopTwo(deck)) <= multiset(deck)
  {
    TopDownSplit(deck, if |deck| < 2 then |deck| else 2);
    hide TopDown;
  }

  lemma {:induction false} SparedIs(revealed: seq<Card>, skip: Option<Card>)
    ensures forall d :: multiset(Spared(revealed, skip))[d] == if skip == Some(d) then 0 else multiset(revealed)[d]
  {
    if revealed != [] {
      assert revealed == [revealed[0]] + revealed[1..];
      SparedIs(revealed[1..], skip);
    }
  }

  /** There are enough copies in the deck. */
  ghost predicate Covered(deck: seq<Card>, cards: seq<Card>) {
    forall d :: multiset(cards)[d] <= multiset(deck)[d]
  }

  lemma ConsCount(x: Card, rest: seq<Card>, d: Card)
    ensures multiset([x] + rest)[d] == multiset(rest)[d] + (if d == x then 1 else 0)
  {
  }

  lemma CoveredStep(deck: seq<Card>, x: Card, later: seq<Card>)
    requires Covered(deck, [x] + later)
    ensures x in deck && Covered(Without(deck, x), later)
  {
    ConsCount(x, later, x);
    MultisetMember(deck, x);
    forall d ensures multiset(later)[d] <= multiset(Without(deck, x))[d] {
      ConsCount(x, later, d);
      WithoutCount(deck, x, d);
    }
    hide Without;
  }

  lemma SplitStep(deck: seq<Card>, x: Card, rest: seq<Card>, later: seq<Card>)
    requires x in deck && Split(Without(deck, x), rest, later, None)
    ensures Split(deck, rest, [x] + later, None)
  {
    hide Without;
    forall d ensures multiset(deck)[d] == multiset(rest)[d] + multiset([x] + later)[d] {
      ConsCount(x, later, d);
      WithoutCount(deck, x, d);
    }
  }

  lemma SplitTaken(deck: seq<Card>, x: Card, rest: seq<Card>, out: seq<Card>)
    requires x in deck && Split(Without(deck, x), rest, out, None)
    ensures Split(deck, rest, out, Some(x))
  {
    hide Without;
    forall d ensures multiset(deck)[d] == multiset(rest)[d] + multiset(out)[d] + (if x == d then 1 else 0) {
      WithoutCount(deck, x, d);
    }
  }

  lemma DiscardsOne(s: State, v: nat, x: Card)
    requires v < |s.players| && x in s.P(v).deck
    ensures var t := DiscardFromDeck(s, v, x);
            && t.P(v) == s.P(v).(deck := Without(s.P(v).deck, x), discard := s.P(v).discard + [x])
            && t.trash == s.trash && |t.players| == |s.players|
  {
    hide Without;
  }

  lemma {:induction false} DiscardsSpared(s: State, v: nat, revealed: seq<Card>, skip: Option<Card>)
    requires v < |s.players| && Covered(s.P(v).deck, Spared(revealed, skip))
    ensures var t, p := DiscardRevealed(s, v, revealed, skip), s.P(v);
            && t.P(v) == p.(deck := Remaining(p.deck, Spared(revealed, skip)),
                            discard := p.discard + Spared(revealed, skip))
            && Split(p.deck, t.P(v).deck, Spared(revealed, skip), None)
            && t.trash == s.trash
    decreases |revealed|
  {
    hide Without, DiscardFromDeck, Split, Covered, Remaining;
    var p := s.P(v);
    if revealed == [] {
      assert p.discard + [] == p.discard;
      FoundNone(p.deck);
      SplitNone(p.deck);
    } else {
      var x, rest := revealed[0], revealed[1..];
      var later := Spared(rest, skip);
      if skip == Some(x) {
        assert [] + later == later;
        DiscardsSpared(s, v, rest, skip);
      } else {
        var s1 := DiscardFromDeck(s, v, x);
        assert ([x] + later)[1..] == later;
        FoundStep(p.deck, [x] + later);
        CoveredStep(p.deck, x, later);
        DiscardsOne(s, v, x);
        DiscardsSpared(s1, v, rest, skip);
        SnocAssoc(p.discard, x, later);
        SplitStep(p.deck, x, DiscardRevealed(s1, v, rest, skip).P(v).deck, later);
      }
    }
  }

  lemma SplitNone(deck: seq<Card>)
    ensures Split(deck, deck, [], None)
  {
  }

  lemma SpareAll(deck: seq<Card>, revealed: seq<Card>)
    requires multiset(revealed) <= multiset(deck)
    ensures Covered(deck, Spared(revealed, None))
  {
    SparedIs(revealed, None);
    hide Spared;
  }

  lemma SpareOthers(deck: seq<Card>, revealed: seq<Card>, x: Card)
    requires multiset(revealed) <= multiset(deck) && x in revealed
    ensures x in deck && Covered(Without(deck, x), Spared(revealed, Some(x)))
  {
    SparedIs(revealed, Some(x));
    MultisetMember(revealed, x);
    MultisetMember(deck, x);
    hide Spared, Without;
    forall d ensures multiset(Spared(revealed, Some(x)))[d] <= multiset(Without(deck, x))[d] {
      WithoutCount(deck, x, d);
    }
  }

  lemma TrashesOne(s: State, v: nat, x: Card)
    requires v < |s.players| && x in s.P(v).deck
    ensures var t := TrashFromDeck(s, v, x);
            && t.P(v) == s.P(v).(deck := Without(s.P(v).deck, x))
            && t.trash == s.trash + [x] && |t.players| == |s.players|
  {
    hide Without;
  }

  /** The robbery itself, on a seat whose top two cards are `revealed`. */
  lemma RobsOf(s: State, v: nat, revealed: seq<Card>, x: Card)
    requires v < |s.players| && revealed == TopTwo(s.P(v).deck) && x in NonCopperTreasures(revealed)
    ensures Robbed(s.P(v), BanditTrash(s, v, revealed, x).P(v), Some(x))
    ensures BanditTrash(s, v, revealed, x).trash == s.trash + [x]
  {
    var p := s.P(v);
    hide Without, Spared, DiscardRevealed, TrashFromDeck, Split, Covered, Remaining;
    NonCopperAre(revealed);
    hide NonCopperTreasures;
    TopTwoWithin(p.deck);
    hide TopTwo;
    SpareOthers(p.deck, revealed, x);
    var s1 := TrashFromDeck(s, v, x);
    TrashesOne(s, v, x);
    DiscardsSpared(s1, v, revealed, Some(x));
    SplitTaken(p.deck, x, DiscardRevealed(s1, v, revealed, Some(x)).P(v).deck, Spared(revealed, Some(x)));
  }

  lemma RobsNothing(s: State, v: nat, revealed: seq<Card>)
    requires v < |s.players| && revealed == TopTwo(s.P(v).deck) && NonCopperTreasures(revealed) == []
    ensures Robbed(s.P(v), DiscardRevealed(s, v, revealed, None).P(v), None)
    ensures DiscardRevealed(s, v, revealed, None).trash == s.trash
  {
    hide Spared, NonCopperTreasures, DiscardRevealed, Split, Covered, Remaining;
    TopTwoWithin(s.P(v).deck);
    hide TopTwo;
    SpareAll(s.P(v).deck, revealed);
    DiscardsSpared(s, v, revealed, None);
  }

  // ----- Everybody else -----

  ghost predicate Elsewhere(s: State, t: State, v: nat) {
    |t.players| == |s.players| && forall i: nat :: i != v ==> t.P(i) == s.P(i)
  }

  lemma MoveElsewhere(s: State, v: nat, cards: seq<Card>, to: Target)
    requires v < |s.players| && to != ToHand
    ensures Elsewhere(s, MoveFromHand(s, v, cards, to), v)
  {
    hide MoveFromHand, Found, Remaining, MoveEvents, ReceiveAll;
    MoveFromHandIs(s, v, cards, to);
  }

  lemma {:induction false} DiscardElsewhere(s: State, v: nat, revealed: seq<Card>, skip: Option<Card>)
    requires v < |s.players|
    ensures Elsewhere(s, DiscardRevealed(s, v, revealed, skip), v)
    decreases |revealed|
  {
    if revealed != [] {
      var s1 := if skip == Some(revealed[0]) then s else DiscardFromDeck(s, v, revealed[0]);
      assert Elsewhere(s, s1, v);
      hide DiscardFromDeck;
      DiscardElsewhere(s1, v, revealed[1..], skip);
    }
  }

  lemma TrashElsewhere(s: State, v: nat, revealed: seq<Card>, x: Card)
    requires v < |s.players|
    ensures Elsewhere(s, BanditTrash(s, v, revealed, x), v)
  {
    var s1 := TrashFromDeck(s, v, x);
    assert Elsewhere(s, s1, v);
    hide TrashFromDeck;
    DiscardElsewhere(s1, v, revealed, Some(x));
  }

  // ----- One turn of the loop -----

  /** From `s` the loop strikes seat `v` and reaches `t`. */
  ghost predicate Strikes(c: Card, s: State, t: State, v: nat, answers: seq<Answer>)
    requires Asking(c)
  {
    Elsewhere(s, t, v) && Struck(c, s.P(v), t.P(v), answers)
  }

  lemma ElsewhereTrans(s: State, t: State, u: State, v: nat)
    requires Elsewhere(s, t, v) && Elsewhere(t, u, v)
    ensures Elsewhere(s, u, v)
  {
  }

  lemma RevealElsewhere(s: State, v: nat)
    requires v < |s.players|
    ensures Elsewhere(s, BanditReveal(s, v).0, v) && Elsewhere(s, Noted(BanditReveal(s, v).0, v), v)
    ensures v < |BanditReveal(s, v).0.players|
  {
    hide TopDown, Shuffle;
  }

  lemma BanditStrikes(s: State, t: State, v: nat, answers: seq<Answer>)
    requires Elsewhere(s, t, v) && Looted(s.P(v), t.P(v))
    ensures Strikes(Bandit, s, t, v, answers)
  {
    hide Elsewhere, Looted;
  }

  lemma ForcedBandit(s: State, v: nat, answers: seq<Answer>)
    requires v < |s.players|
    ensures var (s1, revealed) := BanditReveal(s, v);
            !HasChoice(Bandit, s1, v, revealed) ==> Strikes(Bandit, s, BanditUnasked(s1, v, revealed), v, answers)
  {
    hide BanditReveal, BanditTrash, DiscardRevealed, NonCopperTreasures, TopTwo, Refreshed, Robbed, Elsewhere, Looted,
      Strikes;
    var (s1, revealed) := BanditReveal(s, v);
    RevealsTopTwo(s, v);
    RevealElsewhere(s, v);
    var treasures := NonCopperTreasures(revealed);
    var t := BanditUnasked(s1, v, revealed);
    if treasures == [] {
      DiscardElsewhere(s1, v, revealed, None);
      RobsNothing(s1, v, revealed);
      LootedBy(s.P(v), s1.P(v), t.P(v), None);
      ElsewhereTrans(s, s1, t, v);
      BanditStrikes(s, t, v, answers);
    } else if |treasures| == 1 {
      assert treasures[0] in treasures;
      TrashElsewhere(s1, v, revealed, treasures[0]);
      RobsOf(s1, v, revealed, treasures[0]);
      LootedBy(s.P(v), s1.P(v), t.P(v), Some(treasures[0]));
      ElsewhereTrans(s, s1, t, v);
      BanditStrikes(s, t, v, answers);
    }
  }

  lemma ForcedStrikes(c: Card, s: State, v: nat, answers: seq<Answer>)
    requires Asking(c) && v < |s.players|
    ensures var (s1, revealed) := Shown(c, s, v);
            !HasChoice(c, s1, v, revealed) ==> Strikes(c, s, Forced(c, s1, v, revealed), v, answers)
  {
    if c == Bandit {
      hide BanditReveal, BanditUnasked, Strikes;
      ForcedBandit(s, v, answers);
    } else if c == Bureaucrat {
      MoveElsewhere(s, v, VictoriesIn(s.P(v).hand), ToDeck);
      hide Taxed, VictoriesIn, MoveFromHand;
      if |VictoriesIn(s.P(v).hand)| <= 1 { TaxesUnasked(s, v); }
    }
  }

  lemma AcceptedLoot(revealed: seq<Card>, s: State, v: nat, answer: Answer)
    requires Accepts(Bandit, s, v, revealed, answer)
    ensures answer.card in NonCopperTreasures(revealed)
  {
    NonCopperAre(revealed);
    hide NonCopperTreasures;
  }

  lemma ChosenBandit(s: State, v: nat, answer: Answer, answers: seq<Answer>)
    requires v < |s.players|
    ensures var (s1, revealed) := BanditReveal(s, v);
            Accepts(Bandit, s1, v, revealed, answer) ==>
              Strikes(Bandit, s, Chosen(Bandit, Noted(s1, v), v, revealed, answer), v, answers)
  {
    hide BanditReveal, BanditTrash, NonCopperTreasures, TopTwo, Refreshed, Robbed, Elsewhere, Looted, Strikes, Noted;
    var (s1, revealed) := BanditReveal(s, v);
    RevealsTopTwo(s, v);
    RevealElsewhere(s, v);
    if Accepts(Bandit, s1, v, revealed, answer) {
      var s2 := Noted(s1, v);
      var t := BanditTrash(s2, v, revealed, answer.card);
      AcceptedLoot(revealed, s1, v, answer);
      TrashElsewhere(s2, v, revealed, answer.card);
      RobsOf(s2, v, revealed, answer.card);
      LootedBy(s.P(v), s2.P(v), t.P(v), Some(answer.card));
      ElsewhereTrans(s, s2, t, v);
      BanditStrikes(s, t, v, answers);
    }
  }

  lemma ChosenStrikes(c: Card, s: State, v: nat, answers: seq<Answer>)
    requires Asking(c) && v < |s.players| && answers != []
    ensures var (s1, revealed) := Shown(c, s, v);
            HasChoice(c, s1, v, revealed) && Accepts(c, Noted(s1, v), v, revealed, answers[0]) ==>
              Strikes(c, s, Chosen(c, Noted(s1, v), v, revealed, answers[0]), v, answers)
  {
    var answer := answers[0];
    if c == Bandit {
      hide BanditReveal, BanditTrash, Strikes;
      ChosenBandit(s, v, answer, answers);
    } else {
      var s1 := Noted(s, v);
      assert Elsewhere(s, s1, v);
      hide Taxed, Disarmed, VictoriesIn, MoveFromHand, Noted;
      if HasChoice(c, s, v, []) && Accepts(c, s1, v, [], answer) {
        assert answer in answers;
        MoveElsewhere(s1, v, answer.cards, if c == Militia then ToDiscard else ToDeck);
        if c == Militia { DisarmsVictim(s1, v, answer); } else { TaxesVictim(s1, v, answer); }
      }
    }
  }

  // ----- The whole loop -----

  lemma StruckMore(c: Card, p: PlayerState, q: PlayerState, answers: seq<Answer>)
    requires Asking(c) && answers != [] && Struck(c, p, q, answers[1..])
    ensures Struck(c, p, q, answers)
  {
    assert forall a :: a in answers[1..] ==> a in answers;
    hide Taxed, Disarmed, Looted;
  }

  /** Distinct seats at the table. */
  predicate Distinct(s: State, seats: seq<nat>) {
    && (forall i :: 0 <= i < |seats| ==> seats[i] < |s.players|)
    && (forall i, j :: 0 <= i < j < |seats| ==> seats[i] != seats[j])
  }

  lemma DistinctTail(s: State, t: State, seats: seq<nat>)
    requires Distinct(s, seats) && seats != [] && |t.players| == |s.players|
    ensures seats[0] < |s.players| && seats[0] !in seats[1..] && Distinct(t, seats[1..])
  {
  }

  /** Every victim is struck exactly once, and every other seat keeps everything it has. */
  lemma {:induction false} LoopStrikes(c: Card, s: State, victims: seq<nat>, answers: seq<Answer>, i: nat)
    requires Asking(c) && Distinct(s, victims) && Direct(c, s, victims, answers).Some?
    ensures var u := Direct(c, s, victims, answers).value;
            if i in victims then Struck(c, s.P(i), u.P(i), answers) else u.P(i) == s.P(i)
    decreases |victims|
  {
    hide Struck, Shown, HasChoice, Forced, Chosen, Accepts, Noted, Distinct;
    if victims != [] {
      var v, rest := victims[0], victims[1..];
      var (s1, revealed) := Shown(c, s, v);
      assert victims == [v] + rest;
      DistinctTail(s, s, victims);
      if !HasChoice(c, s1, v, revealed) {
        ForcedStrikes(c, s, v, answers);
        var t := Forced(c, s1, v, revealed);
        DistinctTail(s, t, victims);
        LoopStrikes(c, t, rest, answers, i);
      } else {
        ChosenStrikes(c, s, v, answers);
        var t := Chosen(c, Noted(s1, v), v, revealed, answers[0]);
        DistinctTail(s, t, victims);
        LoopStrikes(c, t, rest, answers[1..], i);
        if i in rest {
          StruckMore(c, t.P(i), Direct(c, t, rest, answers[1..]).value.P(i), answers);
        }
      }
    }
  }

  // ----- Attacks as played -----

  lemma OpponentsDistinct(s: State, seats: seq<nat>)
    requires Opponents(s, seats)
    ensures Distinct(s, seats)
  {
  }

  /** The seats in the list of opponents are exactly the others at the table. */
  lemma OthersAll(s: State, i: nat)
    requires s.current < |s.players| && i < |s.players| && i != s.current
    ensures i in Others(|s.players|, s.current)
  {
    var n := |s.players|;
    var k := if i > s.current then i - s.current - 1 else i + n - s.current - 1;
    OthersAt(n, s.current, k);
    hide Others;
    assert Others(n, s.current)[k] == i;
  }

  /** What the attacker does before the victims are visited. */
  function Opening(c: Card, s: State): (t: State)
    requires Asking(c)
    ensures Unasked(s, t)
  {
    match c
    case Militia => AddCoins(s, s.current, 2)
    case Bureaucrat => GainCard(s, s.current, Silver, GainToDeck)
    case Bandit => GainCard(s, s.current, Gold, GainToDiscard)
  }

  lemma OpeningElsewhere(c: Card, s: State)
    requires Asking(c) && s.current < |s.players|
    ensures Elsewhere(s, Opening(c, s), s.current)
  {
  }

  lemma PlayedAttack(c: Card, s: State)
    requires Asking(c)
    ensures var (s1, victims) := ResolveAttackVictims(Opening(c, s), s.current, c);
            OnPlay(s, s.current, c) == Queue(c, s1, s.current, victims)
  {
    hide ResolveAttackVictims, MilitiaQueue, BureaucratQueue, BanditQueue, AddCoins, GainCard;
  }

  /** The victims of an attack that `i` belongs to: exactly the opponents without a Moat. */
  lemma VictimsOf(c: Card, s: State, i: nat)
    requires Asking(c) && s.current < |s.players| && i < |s.players| && i != s.current
    ensures var (s1, victims) := ResolveAttackVictims(Opening(c, s), s.current, c);
            && Distinct(s1, victims) && (i in victims <==> Moat !in s.P(i).hand)
            && s1.P(i) == s.P(i) && s1.pending == s.pending
  {
    hide Opening, Unblocked, Others, Opponents, Distinct, ReactionsOfAll;
    var s0 := Opening(c, s);
    OpeningElsewhere(c, s);
    OthersAreOpponents(s0);
    OthersAll(s0, i);
    UnblockedAre(s0, Others(|s0.players|, s.current));
    OpponentsDistinct(s0, Unblocked(s0, Others(|s0.players|, s.current)));
    DistinctSame(s0, ResolveAttackVictims(s0, s.current, c).0, Unblocked(s0, Others(|s0.players|, s.current)));
  }

  lemma DistinctSame(s: State, t: State, seats: seq<nat>)
    requires Distinct(s, seats) && |t.players| == |s.players|
    ensures Distinct(t, seats)
  {
  }

  /** An attack played and answered to the end, whatever its players answer: a seat that shows a Moat keeps
      everything, every other opponent is struck exactly once, and the result is that of the plain loop. */
  lemma AttackStrikes(c: Card, s: State, answers: seq<Answer>, i: nat)
    requires Asking(c) && s.pending.None? && s.current < |s.players| && i < |s.players| && i != s.current
    requires Suspended(OnPlay(s, s.current, c), answers).Some?
    ensures var u := Suspended(OnPlay(s, s.current, c), answers).value;
            && (if Moat in s.P(i).hand then u.P(i) == s.P(i) else Struck(c, s.P(i), u.P(i), answers))
            && var (s1, victims) := ResolveAttackVictims(Opening(c, s), s.current, c);
               Direct(c, s1, victims, answers) == Some(u)
  {
    hide Suspended, Direct, OnPlay, Opening, Queue, Struck, ResolveAttackVictims, Distinct, Asking;
    var (s1, victims) := ResolveAttackVictims(Opening(c, s), s.current, c);
    PlayedAttack(c, s);
    VictimsOf(c, s, i);
    AttackRefines(c, s1, s.current, victims, answers);
    LoopStrikes(c, s1, victims, answers, i);
  }
}
