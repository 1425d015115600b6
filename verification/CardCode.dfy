/** The code of the cards, acting on the mutable game state in place. Each method is proved against the effect of the
    same name on states. */
module CardCode {
  import opened Cards
  import opened States
  import opened Zones
  import opened GameStates
  import P = Primitives
  import E = Effects

  // ----- Scans -----

  method HandHasAction(hand: seq<Card>) returns (found: bool)
    ensures found <==> E.HasAction(hand)
  {
    var i := 0;
    while i < |hand|
      invariant i <= |hand|
      invariant forall j :: 0 <= j < i ==> !IsAction(hand[j])
    {
      if IsAction(hand[i]) { return true; }
      i := i + 1;
    }
    return false;
  }

  method HandHasTreasure(hand: seq<Card>) returns (found: bool)
    ensures found <==> E.HasTreasure(hand)
  {
    found := false;
    var i := 0;
    while i < |hand|
      invariant i <= |hand|
      invariant !found && forall j :: 0 <= j < i ==> !IsTreasure(hand[j])
    {
      if IsTreasure(hand[i]) { found := true; break; }
      i := i + 1;
    }
  }

  /** Counts the empty piles, in whatever order the map is walked. */
  method CountEmptyPiles(supply: map<Card, int>) returns (n: nat)
    ensures n == E.EmptyPiles(supply)
  {
    n := 0;
    var left := supply.Keys;
    ghost var seen: set<Card> := {};
    while left != {}
      invariant left <= supply.Keys && seen == supply.Keys - left
      invariant n == |set c | c in seen && supply[c] <= 0|
      decreases left
    {
      var c :| c in left;
      ghost var before := set d | d in seen && supply[d] <= 0;
      left := left - {c};
      seen := seen + {c};
      ghost var after := set d | d in seen && supply[d] <= 0;
      assert after == if supply[c] <= 0 then before + {c} else before;
      if supply[c] <= 0 { n := n + 1; }
    }
    assert (set c | c in seen && supply[c] <= 0) == (set c | c in supply && supply[c] <= 0);
  }

  lemma {:induction false} VictoriesSnoc(hand: seq<Card>, c: Card)
    ensures E.VictoriesIn(hand + [c]) == E.VictoriesIn(hand) + (if IsVictory(c) then [c] else [])
  {
    hide IsVictory;
    var more := hand + [c];
    if hand == [] {
      assert more == [c] && [c][1..] == [];
    } else {
      assert more[0] == hand[0] && more[1..] == hand[1..] + [c];
      VictoriesSnoc(hand[1..], c);
      var first := if IsVictory(hand[0]) then [hand[0]] else [];
      assert E.VictoriesIn(more) == first + E.VictoriesIn(more[1..]);
      assert E.VictoriesIn(hand) == first + E.VictoriesIn(hand[1..]);
    }
  }

  method VictoriesInHand(hand: seq<Card>) returns (out: seq<Card>)
    ensures out == E.VictoriesIn(hand)
  {
    out := [];
    var i := 0;
    while i < |hand|
      invariant i <= |hand| && out == E.VictoriesIn(hand[..i])
    {
      assert hand[..i + 1] == hand[..i] + [hand[i]];
      VictoriesSnoc(hand[..i], hand[i]);
      if IsVictory(hand[i]) { out := out + [hand[i]]; }
      i := i + 1;
    }
    assert hand[..|hand|] == hand;
  }

  lemma {:induction false} TreasuresSnoc(cards: seq<Card>, c: Card)
    ensures E.NonCopperTreasures(cards + [c]) ==
            E.NonCopperTreasures(cards) + (if IsTreasure(c) && c != Copper then [c] else [])
  {
    hide IsTreasure;
    var more := cards + [c];
    if cards == [] {
      assert more == [c] && [c][1..] == [];
    } else {
      assert more[0] == cards[0] && more[1..] == cards[1..] + [c];
      TreasuresSnoc(cards[1..], c);
      var first := if IsTreasure(cards[0]) && cards[0] != Copper then [cards[0]] else [];
      assert E.NonCopperTreasures(more) == first + E.NonCopperTreasures(more[1..]);
      assert E.NonCopperTreasures(cards) == first + E.NonCopperTreasures(cards[1..]);
    }
  }

  method NonCopperTreasures(cards: seq<Card>) returns (out: seq<Card>)
    ensures out == E.NonCopperTreasures(cards)
  {
    out := [];
    var i := 0;
    while i < |cards|
      invariant i <= |cards| && out == E.NonCopperTreasures(cards[..i])
    {
      assert cards[..i + 1] == cards[..i] + [cards[i]];
      TreasuresSnoc(cards[..i], cards[i]);
      if cards[i] != Copper && IsTreasure(cards[i]) { out := out + [cards[i]]; }
      i := i + 1;
    }
    assert cards[..|cards|] == cards;
  }

  // ----- Emptying a zone -----

  /** The seat with `cards` added to its discard pile, each reported. */
  ghost function Discarded(s: State, px: nat, cards: seq<Card>): State {
    var p := s.P(px);
    s.With(px, p.(discard := p.discard + cards)).(log := s.log + E.DiscardEvents(px, cards))
  }

  lemma DiscardedNone(s: State, px: nat)
    ensures Discarded(s, px, []) == s
  {
    var p := s.P(px);
    assert p.discard + [] == p.discard && s.log + E.DiscardEvents(px, []) == s.log;
  }

  lemma DiscardedOne(s: State, px: nat, done: seq<Card>, c: Card)
    requires px < |s.players|
    ensures var t := Discarded(s, px, done);
            t.With(px, t.P(px).(discard := t.P(px).discard + [c])).Emit(CardDiscarded(px, c)) ==
            Discarded(s, px, done + [c])
  {
    var p := s.P(px);
    assert p.discard + done + [c] == p.discard + (done + [c]);
    assert E.DiscardEvents(px, done + [c]) == E.DiscardEvents(px, done) + [CardDiscarded(px, c)];
    assert s.log + E.DiscardEvents(px, done) + [CardDiscarded(px, c)] == s.log + E.DiscardEvents(px, done + [c]);
  }

  method DiscardEach(gs: GameState, px: nat, cards: seq<Card>)
    requires px < |gs.players|
    modifies gs
    ensures gs.Model() == Discarded(old(gs.Model()), px, cards)
  {
    ghost var s := gs.Model();
    DiscardedNone(s, px);
    var i := 0;
    while i < |cards|
      invariant i <= |cards| && |gs.players| == |s.players|
      invariant gs.Model() == Discarded(s, px, cards[..i])
    {
      DiscardedOne(s, px, cards[..i], cards[i]);
      assert cards[..i + 1] == cards[..i] + [cards[i]];
      gs.SetSeat(px, gs.Seat(px).(discard := gs.Seat(px).discard + [cards[i]]));
      gs.Emit(CardDiscarded(px, cards[i]));
      i := i + 1;
    }
    assert cards[..|cards|] == cards;
  }

  /** Moves the set-aside cards to the discard pile. */
  method FlushSetAside(gs: GameState, px: nat)
    requires px < |gs.players|
    modifies gs
    ensures gs.Model() == E.FlushSetAside(old(gs.Model()), px)
  {
    var aside := gs.Seat(px).setAside;
    DiscardEach(gs, px, aside);
    gs.SetSeat(px, gs.Seat(px).(setAside := []));
  }

  // ----- Library -----

  /** Draws until the hand holds seven cards or nothing is left to draw, stopping at each Action to ask about it. */
  method LibraryStep(gs: GameState, px: nat)
    requires px < |gs.players|
    modifies gs
    ensures gs.Model() == E.LibraryStep(old(gs.Model()), px)
  {
    hide P.DrawOne, E.FlushSetAside, IsAction, P.RequestDecision;
    ghost var s := gs.Model();
    while true
      invariant |gs.players| == |s.players|
      invariant E.LibraryStep(gs.Model(), px) == E.LibraryStep(s, px)
      decreases P.Available(gs.Model().P(px))
    {
      var p := gs.Seat(px);
      if |p.hand| >= 7 || (p.deck == [] && p.discard == []) {
        FlushSetAside(gs, px);
        return;
      }
      ghost var before := gs.Model();
      gs.DrawCards(px, 1);
      DrawsOne(before, px);
      var q := gs.Seat(px);
      var drawn := q.hand[|q.hand| - 1];
      if IsAction(drawn) {
        gs.SetSeat(px, q.(hand := q.hand[..|q.hand| - 1], setAside := q.setAside + [drawn]));
        gs.RequestDecision(px, Library, 0, SetAsideActionPrompt(drawn), CardContext(drawn));
        return;
      }
    }
  }

  lemma DrawsOne(s: State, px: nat)
    ensures P.DrawCards(s, px, 1) == if P.Available(s.P(px)) == 0 then s else P.DrawOne(s, px)
  {
    hide P.DrawOne;
  }

  // ----- Attack queues -----

  method MilitiaQueue(gs: GameState, attacker: nat, victims: seq<nat>)
    modifies gs
    ensures gs.Model() == E.MilitiaQueue(old(gs.Model()), attacker, victims)
  {
    hide P.RequestDecision;
    ghost var s := gs.Model();
    var i := 0;
    while i < |victims|
      invariant i <= |victims| && gs.Model() == s
      invariant E.MilitiaQueue(s, attacker, victims[i..]) == E.MilitiaQueue(s, attacker, victims)
    {
      var size := |gs.Seat(victims[i]).hand|;
      assert victims[i..][1..] == victims[i + 1..];
      if size > 3 {
        gs.RequestDecision(victims[i], Militia, 0, DiscardFromHandPrompt(size - 3, size - 3),
                           AttackContext(attacker, victims[i + 1..], []));
        return;
      }
      i := i + 1;
    }
  }

  method BureaucratQueue(gs: GameState, attacker: nat, victims: seq<nat>)
    modifies gs
    ensures gs.Model() == E.BureaucratQueue(old(gs.Model()), attacker, victims)
  {
    hide P.RequestDecision, P.MoveFromHand, E.VictoriesIn;
    ghost var s := gs.Model();
    var i := 0;
    while i < |victims|
      invariant i <= |victims|
      invariant E.BureaucratQueue(gs.Model(), attacker, victims[i..]) == E.BureaucratQueue(s, attacker, victims)
    {
      var v := victims[i];
      assert victims[i..][0] == v && victims[i..][1..] == victims[i + 1..];
      var victories := VictoriesInHand(gs.Seat(v).hand);
      if |victories| == 0 {
        gs.Emit(CardRevealed(v));
      } else if |victories| == 1 {
        gs.MoveFromHand(v, victories, P.ToDeck);
      } else {
        gs.RequestDecision(v, Bureaucrat, 0, PutOnDeckPrompt([Victory]), AttackContext(attacker, victims[i + 1..], []));
        return;
      }
      i := i + 1;
    }
  }

  /** Discards the revealed cards from the deck, leaving out those equal to `skip`. */
  method DiscardRevealed(gs: GameState, v: nat, revealed: seq<Card>, skip: Option<Card>)
    modifies gs
    ensures gs.Model() == E.DiscardRevealed(old(gs.Model()), v, revealed, skip)
  {
    hide P.DiscardFromDeck;
    ghost var s := gs.Model();
    var i := 0;
    while i < |revealed|
      invariant i <= |revealed|
      invariant E.DiscardRevealed(gs.Model(), v, revealed[i..], skip) == E.DiscardRevealed(s, v, revealed, skip)
    {
      assert revealed[i..][0] == revealed[i] && revealed[i..][1..] == revealed[i + 1..];
      i := i + 1;
      if skip == Some(revealed[i - 1]) { continue; }
      gs.DiscardFromDeck(v, revealed[i - 1]);
    }
  }

  method BanditTrash(gs: GameState, v: nat, revealed: seq<Card>, chosen: Card)
    modifies gs
    ensures gs.Model() == E.BanditTrash(old(gs.Model()), v, revealed, chosen)
  {
    gs.TrashFromDeck(v, chosen);
    DiscardRevealed(gs, v, revealed, Some(chosen));
  }

  method BanditQueue(gs: GameState, attacker: nat, victims: seq<nat>)
    modifies gs
    ensures gs.Model() == E.BanditQueue(old(gs.Model()), attacker, victims)
  {
    hide P.RequestDecision, P.RevealFromDeck, E.BanditTrash, E.DiscardRevealed, E.NonCopperTreasures;
    ghost var s := gs.Model();
    var i := 0;
    while i < |victims|
      invariant i <= |victims|
      invariant E.BanditQueue(gs.Model(), attacker, victims[i..]) == E.BanditQueue(s, attacker, victims)
    {
      var v := victims[i];
      assert victims[i..][0] == v && victims[i..][1..] == victims[i + 1..];
      var revealed := gs.RevealFromDeck(v, 2);
      gs.Emit(CardRevealed(v));
      var treasures := NonCopperTreasures(revealed);
      if |treasures| == 0 {
        DiscardRevealed(gs, v, revealed, None);
      } else if |treasures| == 1 {
        BanditTrash(gs, v, revealed, treasures[0]);
      } else {
        gs.RequestDecision(v, Bandit, 0, TrashFromRevealedPrompt(treasures),
                           AttackContext(attacker, victims[i + 1..], revealed));
        return;
      }
      i := i + 1;
    }
  }

  /** Witch: every victim gains a Curse, in turn order, while the pile lasts. */
  method CurseEach(gs: GameState, victims: seq<nat>)
    modifies gs
    ensures gs.Model() == E.CurseEach(old(gs.Model()), victims)
  {
    hide P.GainCard;
    ghost var s := gs.Model();
    var i := 0;
    while i < |victims|
      invariant i <= |victims|
      invariant E.CurseEach(gs.Model(), victims[i..]) == E.CurseEach(s, victims)
    {
      assert victims[i..][0] == victims[i] && victims[i..][1..] == victims[i + 1..];
      gs.GainCard(victims[i], Curse, GainToDiscard);
      i := i + 1;
    }
  }

  /** Council Room: every other player draws a card, in turn order. */
  method EachOtherDraws(gs: GameState, except: nat)
    modifies gs
    ensures gs.Model() == E.DrawEach(old(gs.Model()), P.Others(|old(gs.Model()).players|, except))
  {
    hide P.DrawCards, P.Others;
    ghost var s := gs.Model();
    var n := |gs.players|;
    ghost var others := P.Others(n, except);
    var step := 1;
    while step < n
      invariant 1 <= step <= |others| + 1 && |gs.players| == n
      invariant E.DrawEach(gs.Model(), others[step - 1..]) == E.DrawEach(s, others)
    {
      assert others[step - 1..][0] == others[step - 1] && others[step - 1..][1..] == others[step..];
      gs.DrawCards((except + step) % n, 1);
      step := step + 1;
    }
  }

  // ----- Sentry -----

  lemma PeelStep(p: PlayerState, n: nat)
    requires n > 0 && p.deck != []
    ensures E.Peel(p, n) ==
            E.Peel(p.(deck := p.deck[..|p.deck| - 1], setAside := p.setAside + [p.deck[|p.deck| - 1]]), n - 1)
  {
  }

  lemma PeelNone(p: PlayerState, n: nat)
    requires n == 0 || p.deck == []
    ensures E.Peel(p, n) == p
  {
  }

  lemma TopSnoc(deck: seq<Card>, i: nat)
    requires i < |deck|
    ensures TopDown(deck, i) + [deck[|deck| - 1 - i]] == TopDown(deck, i + 1)
    ensures deck[..|deck| - i][..|deck| - i - 1] == deck[..|deck| - (i + 1)]
  {
  }

  /** Takes the top cards off a deck and sets them aside, topmost first, up to `n` of them. */
  method PeelOff(p: PlayerState, n: nat) returns (q: PlayerState, out: seq<Card>)
    ensures q == E.Peel(p, n)
    ensures out == TopDown(p.deck, if |p.deck| < n then |p.deck| else n)
  {
    hide TopDown, E.Peel;
    q, out := p, [];
    var i := 0;
    while i < n && |q.deck| > 0
      invariant i <= n && i <= |p.deck| && q.deck == p.deck[..|p.deck| - i]
      invariant E.Peel(q, n - i) == E.Peel(p, n)
      invariant out == TopDown(p.deck, i)
    {
      var top := q.deck[|q.deck| - 1];
      PeelStep(q, n - i);
      TopSnoc(p.deck, i);
      q := q.(deck := q.deck[..|q.deck| - 1], setAside := q.setAside + [top]);
      out := out + [top];
      i := i + 1;
    }
    PeelNone(q, n - i);
  }

  method PeelToSetAside(gs: GameState, px: nat, n: nat) returns (out: seq<Card>)
    modifies gs
    ensures (gs.Model(), out) == E.PeelToSetAside(old(gs.Model()), px, n)
  {
    hide P.Refill, TopDown, E.Peel;
    if |gs.Seat(px).deck| < n && gs.Seat(px).discard != [] { gs.Refill(px); }
    var q;
    q, out := PeelOff(gs.Seat(px), n);
    gs.SetSeat(px, q);
  }

  /** Moves the named cards from the set-aside zone to their target, skipping those that are not there. */
  method SortSetAside(gs: GameState, px: nat, cards: seq<Card>, to: P.Target)
    modifies gs
    ensures gs.Model() == E.SortSetAside(old(gs.Model()), px, cards, to)
  {
    hide P.Deliver;
    ghost var s := gs.Model();
    var i := 0;
    while i < |cards|
      invariant i <= |cards|
      invariant E.SortSetAside(gs.Model(), px, cards[i..], to) == E.SortSetAside(s, px, cards, to)
    {
      var p := gs.Seat(px);
      var found, rest := TakeOut(p.setAside, cards[i]);
      assert cards[i..][0] == cards[i] && cards[i..][1..] == cards[i + 1..];
      i := i + 1;
      if !found { continue; }
      gs.Deliver(px, p.(setAside := rest), cards[i - 1], to);
    }
  }

  /** Puts the named cards back in order, and the rest on top of them; a card that is not there stops the call halfway. */
  method SentryReorder(gs: GameState, px: nat, cards: seq<Card>) returns (err: Option<Error>)
    requires px < |gs.players|
    modifies gs
    ensures Outcome(gs.Model(), err) == E.SentryReorder(old(gs.Model()), px, cards)
  {
    hide P.Deliver, E.FlushToDeck;
    ghost var s := gs.Model();
    var i := 0;
    while i < |cards|
      invariant i <= |cards| && |gs.players| == |s.players|
      invariant E.SentryReorder(gs.Model(), px, cards[i..]) == E.SentryReorder(s, px, cards)
    {
      var p := gs.Seat(px);
      var found, rest := TakeOut(p.setAside, cards[i]);
      assert cards[i..][0] == cards[i] && cards[i..][1..] == cards[i + 1..];
      if !found { return Some(BadAnswer); }
      DeliverShape(gs.Model(), px, p.(setAside := rest), cards[i]);
      gs.Deliver(px, p.(setAside := rest), cards[i], P.ToDeck);
      i := i + 1;
    }
    FlushToDeck(gs, px);
    return None;
  }

  lemma DeliverShape(s: State, px: nat, q: PlayerState, c: Card)
    ensures |P.Deliver(s, px, q, c, P.ToDeck).players| == |s.players|
  {
  }

  /** The seat with `cards` added to its deck, each reported. */
  ghost function Returned(s: State, px: nat, cards: seq<Card>): State {
    var p := s.P(px);
    s.With(px, p.(deck := p.deck + cards)).(log := s.log + E.DeckEvents(px, cards))
  }

  lemma ReturnedNone(s: State, px: nat)
    ensures Returned(s, px, []) == s
  {
    var p := s.P(px);
    assert p.deck + [] == p.deck && s.log + E.DeckEvents(px, []) == s.log;
  }

  lemma ReturnedOne(s: State, px: nat, done: seq<Card>, c: Card)
    requires px < |s.players|
    ensures var t := Returned(s, px, done);
            t.With(px, t.P(px).(deck := t.P(px).deck + [c])).Emit(CardPutOnDeck(px, c)) == Returned(s, px, done + [c])
  {
    var p := s.P(px);
    assert p.deck + done + [c] == p.deck + (done + [c]);
    assert E.DeckEvents(px, done + [c]) == E.DeckEvents(px, done) + [CardPutOnDeck(px, c)];
    assert s.log + E.DeckEvents(px, done) + [CardPutOnDeck(px, c)] == s.log + E.DeckEvents(px, done + [c]);
  }

  method FlushToDeck(gs: GameState, px: nat)
    requires px < |gs.players|
    modifies gs
    ensures gs.Model() == E.FlushToDeck(old(gs.Model()), px)
  {
    ghost var s := gs.Model();
    var cards := gs.Seat(px).setAside;
    ReturnedNone(s, px);
    var i := 0;
    while i < |cards|
      invariant i <= |cards| && |gs.players| == |s.players|
      invariant gs.Model() == Returned(s, px, cards[..i])
    {
      ReturnedOne(s, px, cards[..i], cards[i]);
      assert cards[..i + 1] == cards[..i] + [cards[i]];
      gs.SetSeat(px, gs.Seat(px).(deck := gs.Seat(px).deck + [cards[i]]));
      gs.Emit(CardPutOnDeck(px, cards[i]));
      i := i + 1;
    }
    assert cards[..|cards|] == cards;
    gs.SetSeat(px, gs.Seat(px).(setAside := []));
  }

  method SentryAfterTrash(gs: GameState, px: nat)
    modifies gs
    ensures gs.Model() == E.SentryAfterTrash(old(gs.Model()), px)
  {
    hide P.RequestDecision;
    if |gs.Seat(px).setAside| == 0 { return; }
    gs.RequestDecision(px, Sentry, 1, DiscardFromRevealedPrompt(gs.Seat(px).setAside), NoContext);
  }

  method SentryAfterDiscard(gs: GameState, px: nat)
    modifies gs
    ensures gs.Model() == E.SentryAfterDiscard(old(gs.Model()), px)
  {
    hide P.RequestDecision, P.Deliver;
    var p := gs.Seat(px);
    if |p.setAside| == 0 {
      return;
    } else if |p.setAside| == 1 {
      gs.Deliver(px, p.(setAside := []), p.setAside[0], P.ToDeck);
    } else {
      gs.RequestDecision(px, Sentry, 2, ReorderCardsPrompt(p.setAside), NoContext);
    }
  }

  // ----- Playing a card -----

  /** The first Silver of the turn pays one coin for each Merchant charge. */
  method PlaySilver(gs: GameState, px: nat)
    modifies gs
    ensures gs.Model() == E.PlaySilver(old(gs.Model()), px)
  {
    hide P.AddCoins;
    gs.AddCoins(px, 2);
    var p := gs.Seat(px);
    if p.firstSilver { return; }
    gs.SetSeat(px, p.(firstSilver := true));
    if p.charges > 0 { gs.AddCoins(px, p.charges); }
  }

  method PlayMerchant(gs: GameState, px: nat)
    modifies gs
    ensures gs.Model() == E.PlayMerchant(old(gs.Model()), px)
  {
    hide P.DrawCards, P.AddActions;
    gs.DrawCards(px, 1);
    gs.AddActions(px, 1);
    gs.SetSeat(px, gs.Seat(px).(charges := gs.Seat(px).charges + 1));
  }

  method PlayHarbinger(gs: GameState, px: nat)
    modifies gs
    ensures gs.Model() == E.PlayHarbinger(old(gs.Model()), px)
  {
    hide P.DrawCards, P.AddActions, P.RequestDecision;
    gs.DrawCards(px, 1);
    gs.AddActions(px, 1);
    if |gs.Seat(px).discard| == 0 { return; }
    gs.RequestDecision(px, Harbinger, 0, ChooseFromDiscardPrompt(gs.Seat(px).discard, true), NoContext);
  }

  method PlayPoacher(gs: GameState, px: nat)
    modifies gs
    ensures gs.Model() == E.PlayPoacher(old(gs.Model()), px)
  {
    hide P.DrawCards, P.AddActions, P.AddCoins, P.RequestDecision, E.EmptyPiles;
    gs.DrawCards(px, 1);
    gs.AddActions(px, 1);
    gs.AddCoins(px, 1);
    var n := CountEmptyPiles(gs.supply);
    if n == 0 { return; }
    gs.RequestDecision(px, Poacher, 0, DiscardFromHandPrompt(n, n), NoContext);
  }

  method PlayVassal(gs: GameState, px: nat)
    modifies gs
    ensures gs.Model() == E.PlayVassal(old(gs.Model()), px)
  {
    hide P.RevealAndDiscardFromDeck, P.RequestDecision, IsAction;
    var revealed := gs.RevealAndDiscardFromDeck(px, 1);
    if |revealed| == 0 || !IsAction(revealed[0]) { return; }
    gs.RequestDecision(px, Vassal, 0, MayPlayActionPrompt(revealed[0]), CardContext(revealed[0]));
  }

  method PlaySentry(gs: GameState, px: nat)
    requires px < |gs.players|
    modifies gs
    ensures gs.Model() == E.PlaySentry(old(gs.Model()), px)
  {
    hide P.DrawCards, P.AddActions, E.PeelToSetAside, P.RequestDecision;
    gs.DrawCards(px, 1);
    gs.AddActions(px, 1);
    var revealed := PeelToSetAside(gs, px, 2);
    if |revealed| == 0 { return; }
    gs.RequestDecision(px, Sentry, 0, TrashFromRevealedPrompt(revealed), NoContext);
  }

  method PlayCouncilRoom(gs: GameState, px: nat)
    modifies gs
    ensures gs.Model() == E.PlayCouncilRoom(old(gs.Model()), px)
  {
    hide P.DrawCards, P.AddBuys, P.Others;
    gs.DrawCards(px, 4);
    gs.AddBuys(px, 1);
    EachOtherDraws(gs, px);
  }

  method PlayMilitia(gs: GameState, px: nat)
    modifies gs
    ensures gs.Model() == E.PlayMilitia(old(gs.Model()), px)
  {
    hide P.AddCoins, P.ResolveAttackVictims, E.MilitiaQueue;
    gs.AddCoins(px, 2);
    var victims := gs.ResolveAttackVictims(px, Militia);
    MilitiaQueue(gs, px, victims);
  }

  method PlayBureaucrat(gs: GameState, px: nat)
    modifies gs
    ensures gs.Model() == E.PlayBureaucrat(old(gs.Model()), px)
  {
    hide P.GainCard, P.ResolveAttackVictims, E.BureaucratQueue;
    gs.GainCard(px, Silver, GainToDeck);
    var victims := gs.ResolveAttackVictims(px, Bureaucrat);
    BureaucratQueue(gs, px, victims);
  }

  method PlayBandit(gs: GameState, px: nat)
    modifies gs
    ensures gs.Model() == E.PlayBandit(old(gs.Model()), px)
  {
    hide P.GainCard, P.ResolveAttackVictims, E.BanditQueue;
    gs.GainCard(px, Gold, GainToDiscard);
    var victims := gs.ResolveAttackVictims(px, Bandit);
    BanditQueue(gs, px, victims);
  }

  method PlayWitch(gs: GameState, px: nat)
    modifies gs
    ensures gs.Model() == E.PlayWitch(old(gs.Model()), px)
  {
    hide P.DrawCards, P.ResolveAttackVictims, E.CurseEach;
    gs.DrawCards(px, 2);
    var victims := gs.ResolveAttackVictims(px, Witch);
    CurseEach(gs, victims);
  }

  method PlayCellar(gs: GameState, px: nat)
    modifies gs
    ensures gs.Model() == E.PlayCellar(old(gs.Model()), px)
  {
    hide P.AddActions, P.RequestDecision;
    gs.AddActions(px, 1);
    gs.RequestDecision(px, Cellar, 0, DiscardFromHandPrompt(0, |gs.Seat(px).hand|), NoContext);
  }

  /** The printed effects of the cards that only add and draw, in the order the cards print them. */
  ghost function Plain(s: State, px: nat, c: Card): State {
    match c
    case Copper => P.AddCoins(s, px, 1)
    case Gold => P.AddCoins(s, px, 3)
    case Festival => P.AddCoins(P.AddBuys(P.AddActions(s, px, 2), px, 1), px, 2)
    case Market => P.AddCoins(P.AddBuys(P.AddActions(P.DrawCards(s, px, 1), px, 1), px, 1), px, 1)
    case Laboratory => P.AddActions(P.DrawCards(s, px, 2), px, 1)
    case Moat => P.DrawCards(s, px, 2)
    case Smithy => P.DrawCards(s, px, 3)
    case Village => P.AddActions(P.DrawCards(s, px, 1), px, 2)
    case _ => s
  }

  predicate IsPlain(c: Card) {
    c.Copper? || c.Gold? || c.Festival? || c.Market? || c.Laboratory? || c.Moat? || c.Smithy? || c.Village?
  }

  lemma PlainEffects(s: State, px: nat, c: Card)
    requires IsPlain(c)
    ensures E.OnPlay(s, px, c) == Plain(s, px, c)
  {
    hide P.AddCoins, P.AddActions, P.AddBuys, P.DrawCards, P.RequestDecision, P.GainCard, E.PlaySilver, E.PlayHarbinger,
      E.LibraryStep, E.PlayMerchant, E.PlayPoacher, E.PlaySentry, E.PlayVassal, E.PlayCouncilRoom, E.PlayMilitia,
      E.PlayBureaucrat, E.PlayBandit, E.PlayWitch, E.PlayCellar, E.HasAction, E.HasTreasure;
  }

  /** Cards that only add and draw. */
  method PlayPlain(gs: GameState, px: nat, c: Card)
    requires IsPlain(c)
    modifies gs
    ensures gs.Model() == E.OnPlay(old(gs.Model()), px, c)
  {
    hide E.OnPlay, P.AddCoins, P.AddActions, P.AddBuys, P.DrawCards;
    PlainEffects(gs.Model(), px, c);
    match c {
      case Copper => gs.AddCoins(px, 1);
      case Gold => gs.AddCoins(px, 3);
      case Festival => gs.AddActions(px, 2); gs.AddBuys(px, 1); gs.AddCoins(px, 2);
      case Market => gs.DrawCards(px, 1); gs.AddActions(px, 1); gs.AddBuys(px, 1); gs.AddCoins(px, 1);
      case Laboratory => gs.DrawCards(px, 2); gs.AddActions(px, 1);
      case Moat => gs.DrawCards(px, 2);
      case Smithy => gs.DrawCards(px, 3);
      case Village => gs.DrawCards(px, 1); gs.AddActions(px, 2);
    }
  }

  /** The questions of the cards that ask at once, and when they have nothing to ask. */
  lemma AskingEffects(s: State, px: nat, c: Card)
    ensures var hand, t := s.P(px).hand, E.OnPlay(s, px, c);
            && (c.Artisan? ==> t == P.RequestDecision(s, px, c, 0, GainFromSupplyPrompt(5, [], GainToHand), NoContext))
            && (c.Chapel? ==> t == P.RequestDecision(s, px, c, 0, TrashFromHandPrompt(0, 4, [], []), NoContext))
            && (c.Workshop? ==> t == P.RequestDecision(s, px, c, 0, GainFromSupplyPrompt(4, [], GainToDiscard), NoContext))
            && (c.Mine? ==>
                  t == if !E.HasTreasure(hand) then s
                       else P.RequestDecision(s, px, c, 0, TrashFromHandPrompt(0, 1, [Treasure], []), NoContext))
            && (c.Moneylender? ==>
                  t == if Copper !in hand then s
                       else P.RequestDecision(s, px, c, 0, TrashFromHandPrompt(0, 1, [], [Copper]), NoContext))
            && (c.Remodel? ==>
                  t == if hand == [] then s
                       else P.RequestDecision(s, px, c, 0, TrashFromHandPrompt(1, 1, [], []), NoContext))
            && (c.ThroneRoom? ==>
                  t == if !E.HasAction(hand) then s
                       else P.RequestDecision(s, px, c, 0, ChooseActionFromHandPrompt, NoContext))
  {
    hide P.AddCoins, P.AddActions, P.AddBuys, P.DrawCards, P.RequestDecision, P.GainCard, E.PlaySilver, E.PlayHarbinger,
      E.LibraryStep, E.PlayMerchant, E.PlayPoacher, E.PlaySentry, E.PlayVassal, E.PlayCouncilRoom, E.PlayMilitia,
      E.PlayBureaucrat, E.PlayBandit, E.PlayWitch, E.PlayCellar, E.HasAction, E.HasTreasure;
  }

  /** Cards that ask at once, if there is something to ask about. */
  method PlayAsking(gs: GameState, px: nat, c: Card)
    requires c.Artisan? || c.Chapel? || c.Mine? || c.Moneylender? || c.Remodel? || c.ThroneRoom? || c.Workshop?
    modifies gs
    ensures gs.Model() == E.OnPlay(old(gs.Model()), px, c)
  {
    hide E.OnPlay, P.RequestDecision, E.HasAction, E.HasTreasure;
    AskingEffects(gs.Model(), px, c);
    var hand := gs.Seat(px).hand;
    match c {
      case Artisan => gs.RequestDecision(px, c, 0, GainFromSupplyPrompt(5, [], GainToHand), NoContext);
      case Chapel => gs.RequestDecision(px, c, 0, TrashFromHandPrompt(0, 4, [], []), NoContext);
      case Mine =>
        var hasTreasure := HandHasTreasure(hand);
        if hasTreasure { gs.RequestDecision(px, c, 0, TrashFromHandPrompt(0, 1, [Treasure], []), NoContext); }
      case Moneylender =>
        if Copper in hand { gs.RequestDecision(px, c, 0, TrashFromHandPrompt(0, 1, [], [Copper]), NoContext); }
      case Remodel =>
        if |hand| > 0 { gs.RequestDecision(px, c, 0, TrashFromHandPrompt(1, 1, [], []), NoContext); }
      case ThroneRoom =>
        var hasAction := HandHasAction(hand);
        if hasAction { gs.RequestDecision(px, c, 0, ChooseActionFromHandPrompt, NoContext); }
      case Workshop => gs.RequestDecision(px, c, 0, GainFromSupplyPrompt(4, [], GainToDiscard), NoContext);
    }
  }

  method OnPlay(gs: GameState, px: nat, c: Card)
    requires px < |gs.players|
    modifies gs
    ensures gs.Model() == E.OnPlay(old(gs.Model()), px, c)
  {
    hide P.AddCoins, P.AddActions, P.AddBuys, P.DrawCards, P.RequestDecision, P.GainCard, E.PlaySilver, E.PlayHarbinger,
      E.LibraryStep, E.PlayMerchant, E.PlayPoacher, E.PlaySentry, E.PlayVassal, E.PlayCouncilRoom, E.PlayMilitia,
      E.PlayBureaucrat, E.PlayBandit, E.PlayWitch, E.PlayCellar, E.HasAction, E.HasTreasure;
    match c {
      case Estate | Duchy | Province | Curse | Gardens | Unknown(_) =>
      case Silver => PlaySilver(gs, px);
      case Copper | Gold | Festival | Market | Laboratory | Moat | Smithy | Village => PlayPlain(gs, px, c);
      case Militia => PlayMilitia(gs, px);
      case Bureaucrat => PlayBureaucrat(gs, px);
      case Bandit => PlayBandit(gs, px);
      case Witch => PlayWitch(gs, px);
      case Cellar => PlayCellar(gs, px);
      case Artisan | Chapel | Mine | Moneylender | Remodel | ThroneRoom | Workshop => PlayAsking(gs, px, c);
      case CouncilRoom => PlayCouncilRoom(gs, px);
      case Harbinger => PlayHarbinger(gs, px);
      case Library => LibraryStep(gs, px);
      case Merchant => PlayMerchant(gs, px);
      case Poacher => PlayPoacher(gs, px);
      case Sentry => PlaySentry(gs, px);
      case Vassal => PlayVassal(gs, px);
    }
  }

  /** Runs a card that is already in play. */
  method PlayCardInPlace(gs: GameState, px: nat, c: Card) returns (err: Option<Error>)
    requires px < |gs.players|
    modifies gs
    ensures Outcome(gs.Model(), err) ==
            if Known(c) then Ok(E.PlayInPlace(old(gs.Model()), px, c)) else Fail(old(gs.Model()), UnknownCard)
  {
    hide E.OnPlay;
    if !Known(c) { return Some(UnknownCard); }
    gs.Emit(CardPlayed(px, c));
    OnPlay(gs, px, c);
    return None;
  }

  /** The card leaves `from`, unless it is not there, and enters play. */
  method EnterPlay(gs: GameState, px: nat, c: Card, from: E.Zone) returns (err: Option<Error>)
    requires px < |gs.players|
    modifies gs
    ensures |gs.players| == |old(gs.players)|
    ensures var s := old(gs.Model());
            var p := s.P(px);
            if from == E.FromHand then
              if c in p.hand then
                err == None && gs.Model() == s.With(px, p.(hand := Without(p.hand, c), inPlay := p.inPlay + [c]))
              else err == Some(CardNotInHand) && gs.Model() == s
            else
              if c in p.discard then
                err == None && gs.Model() == s.With(px, p.(discard := Without(p.discard, c), inPlay := p.inPlay + [c]))
              else err == Some(CardNotInDiscard) && gs.Model() == s
  {
    hide Without;
    var p := gs.Seat(px);
    match from {
      case FromHand =>
        var found, rest := TakeOut(p.hand, c);
        if !found { return Some(CardNotInHand); }
        gs.SetSeat(px, p.(hand := rest, inPlay := p.inPlay + [c]));
      case FromDiscard =>
        var found, rest := TakeOut(p.discard, c);
        if !found { return Some(CardNotInDiscard); }
        gs.SetSeat(px, p.(discard := rest, inPlay := p.inPlay + [c]));
    }
    return None;
  }

  /** Moves a card from the hand or the discard pile into play and runs it. */
  method PlayCardFromZone(gs: GameState, px: nat, c: Card, from: E.Zone) returns (err: Option<Error>)
    requires px < |gs.players|
    modifies gs
    ensures Outcome(gs.Model(), err) == E.PlayCardFromZone(old(gs.Model()), px, c, from)
  {
    hide E.PlayInPlace, Without, Known;
    if !Known(c) { return Some(UnknownCard); }
    err := EnterPlay(gs, px, c, from);
    if err.Some? { return err; }
    err := PlayCardInPlace(gs, px, c);
  }
}
