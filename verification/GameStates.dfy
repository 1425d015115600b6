/** The engine's mutable game state and its building blocks, updated in place. Each method is proved against the
    function of the same name on states. */
module GameStates {
  import opened Cards
  import opened States
  import opened Zones
  import P = Primitives

  /** The first index of `c`, or -1. */
  method FindIndex(cards: seq<Card>, c: Card) returns (i: int)
    ensures i == IndexOf(cards, c)
  {
    i := 0;
    while i < |cards|
      invariant 0 <= i <= |cards|
      invariant IndexOf(cards, c) ==
                (var r := IndexOf(cards[i..], c); if r < 0 then -1 else r + i)
    {
      if cards[i] == c { return i; }
      i := i + 1;
    }
    return -1;
  }

  /** The cards without the one at index `i`. */
  method RemoveAt(cards: seq<Card>, i: int) returns (r: seq<Card>)
    requires 0 <= i < |cards| && i == IndexOf(cards, cards[i])
    ensures r == Without(cards, cards[i])
  {
    r := cards[..i] + cards[i + 1..];
  }

  /** Takes the first copy of `c` out of a zone, if there is one. */
  method TakeOut(zone: seq<Card>, c: Card) returns (found: bool, rest: seq<Card>)
    ensures found <==> c in zone
    ensures rest == Without(zone, c)
  {
    var at := FindIndex(zone, c);
    if at < 0 { return false, zone; }
    rest := RemoveAt(zone, at);
    found := true;
  }

  lemma SwapStep(cards: seq<Card>, i: nat, rng: seq<nat>)
    requires 0 < i < |cards|
    ensures var (j, rest) := NextBelow(rng, i + 1);
            ShuffleFrom(cards, i, rng) == ShuffleFrom(Swap(cards, i, j), i - 1, rest)
  {
    hide Swap, NextBelow;
  }

  method SwapInPlace(a: array<Card>, i: nat, j: nat)
    requires i < a.Length && j < a.Length
    modifies a
    ensures a[..] == Swap(old(a[..]), i, j)
  {
    a[i], a[j] := a[j], a[i];
  }

  /** Shuffles the array in place: a pass of swaps, each with a random place not above it. */
  method ShuffleCards(a: array<Card>, rng: seq<nat>) returns (rest: seq<nat>)
    modifies a
    ensures (a[..], rest) == Shuffle(old(a[..]), rng)
  {
    hide ShuffleFrom, Swap, NextBelow;
    rest := rng;
    var i: nat := if a.Length == 0 then 0 else a.Length - 1;
    while i > 0
      invariant i < a.Length || (i == 0 && a.Length == 0)
      invariant ShuffleFrom(a[..], i, rest) == Shuffle(old(a[..]), rng)
    {
      var (j, later) := NextBelow(rest, i + 1);
      SwapStep(a[..], i, rest);
      SwapInPlace(a, i, j);
      rest := later;
      i := i - 1;
    }
    ShuffleEnds(a[..], rest);
  }

  lemma ShuffleEnds(cards: seq<Card>, rng: seq<nat>)
    ensures ShuffleFrom(cards, 0, rng) == (cards, rng)
  {
  }

  class GameState {
    var players: seq<PlayerState>
    var current: nat
    var starting: nat
    var phase: Phase
    var supply: map<Card, int>
    var trash: seq<Card>
    var turn: int
    var ended: bool
    var winners: seq<nat>
    var pending: Option<Decision>
    var decisionSeq: nat
    var plays: seq<PendingPlay>
    const seed: int
    var rng: seq<nat>
    var log: seq<Event>

    /** The state as a value. */
    ghost function Model(): State
      reads this
    {
      State(players, current, starting, phase, supply, trash, turn, ended, winners, pending, decisionSeq, plays, seed,
            rng, log)
    }

    constructor (s: State)
      ensures Model() == s
    {
      players, current, starting, phase, supply, trash := s.players, s.current, s.starting, s.phase, s.supply, s.trash;
      turn, ended, winners, pending, decisionSeq := s.turn, s.ended, s.winners, s.pending, s.decisionSeq;
      plays, seed, rng, log := s.plays, s.seed, s.rng, s.log;
    }

    function Seat(i: nat): (p: PlayerState)
      reads this
      ensures p == Model().P(i)
    {
      if i < |players| then players[i] else EMPTY_SEAT
    }

    method SetSeat(i: nat, p: PlayerState)
      modifies this`players
      ensures Model() == old(Model()).With(i, p)
    {
      if i < |players| { players := players[i := p]; }
    }

    method Emit(e: Event)
      modifies this`log
      ensures Model() == old(Model()).Emit(e)
    {
      log := log + [e];
    }

    /** The discard pile goes under the deck and the whole is shuffled. */
    method Refill(px: nat)
      modifies this
      ensures Model() == P.Refill(old(Model()), px)
    {
      var p := Seat(px);
      var cards := p.deck + p.discard;
      var a := new Card[|cards|](i requires 0 <= i < |cards| => cards[i]);
      assert a[..] == cards;
      rng := ShuffleCards(a, rng);
      SetSeat(px, p.(deck := a[..], discard := []));
    }

    /** The seat `q`, which has just given up `c`, replaces seat `px`, and `c` goes to its target. */
    method Deliver(px: nat, q: PlayerState, c: Card, to: P.Target)
      modifies this
      ensures Model() == P.Deliver(old(Model()), px, q, c, to)
    {
      match to {
        case ToHand => SetSeat(px, q.(hand := q.hand + [c])); Emit(CardDrawn(px, c));
        case ToDiscard => SetSeat(px, q.(discard := q.discard + [c])); Emit(CardDiscarded(px, c));
        case ToTrash => SetSeat(px, q); trash := trash + [c]; Emit(CardTrashed(px, c));
        case ToDeck => SetSeat(px, q.(deck := q.deck + [c])); Emit(CardPutOnDeck(px, c));
      }
    }

    /** Sends the top card of a non-empty deck to its target. */
    method DeliverTop(px: nat, to: P.Target) returns (top: Card)
      requires Model().P(px).deck != []
      modifies this
      ensures Model() == P.DeliverTop(old(Model()), px, to)
      ensures top == old(Model()).P(px).deck[|old(Model()).P(px).deck| - 1]
    {
      var p := Seat(px);
      top := p.deck[|p.deck| - 1];
      Deliver(px, p.(deck := p.deck[..|p.deck| - 1]), top, to);
    }

    method DrawCards(px: nat, n: nat)
      modifies this
      ensures Model() == P.DrawCards(old(Model()), px, n)
    {
      hide P.Refill, P.DeliverTop;
      var i := 0;
      while i < n
        invariant i <= n
        invariant P.DrawCards(Model(), px, n - i) == P.DrawCards(old(Model()), px, n)
      {
        ghost var s := Model();
        if Seat(px).deck == [] {
          if Seat(px).discard == [] { return; }
          Refill(px);
        }
        assert Model() == P.RefillIfEmpty(s, px);
        var _ := DeliverTop(px, P.ToHand);
        i := i + 1;
      }
    }

    /** `DiscardFromHand`, `TrashFromHand` and `PutOnDeck`, by target: moves the named cards one by one and skips those
        that are not in the hand. */
    method MoveFromHand(px: nat, cards: seq<Card>, to: P.Target)
      modifies this
      ensures Model() == P.MoveFromHand(old(Model()), px, cards, to)
    {
      hide P.Deliver;
      var i := 0;
      while i < |cards|
        invariant i <= |cards|
        invariant P.MoveFromHand(Model(), px, cards[i..], to) == P.MoveFromHand(old(Model()), px, cards, to)
      {
        var p := Seat(px);
        var found, rest := TakeOut(p.hand, cards[i]);
        assert cards[i..][1..] == cards[i + 1..];
        i := i + 1;
        if !found { continue; }
        Deliver(px, p.(hand := rest), cards[i - 1], to);
      }
    }

    /** Turns over up to `n` cards onto the discard pile. */
    method RevealAndDiscardFromDeck(px: nat, n: nat) returns (revealed: seq<Card>)
      modifies this
      ensures (Model(), revealed) == P.RevealAndDiscardFromDeck(old(Model()), px, n)
    {
      hide P.Refill, P.DeliverTop;
      revealed := [];
      var i := 0;
      while i < n
        invariant i <= n
        invariant P.RevealAndDiscardFromDeck(Model(), px, n - i).0 == P.RevealAndDiscardFromDeck(old(Model()), px, n).0
        invariant revealed + P.RevealAndDiscardFromDeck(Model(), px, n - i).1 ==
                  P.RevealAndDiscardFromDeck(old(Model()), px, n).1
      {
        ghost var s := Model();
        if Seat(px).deck == [] {
          if Seat(px).discard == [] { assert revealed + [] == revealed; return; }
          Refill(px);
        }
        assert Model() == P.RefillIfEmpty(s, px);
        var top := DeliverTop(px, P.ToDiscard);
        assert (Model(), [top]) == P.DiscardTop(s, px);
        RevealStep(s, px, n - i, revealed, top);
        i := i + 1;
        revealed := revealed + [top];
      }
      assert revealed + [] == revealed;
    }

    method AddCoins(px: nat, n: int)
      modifies this
      ensures Model() == P.AddCoins(old(Model()), px, n)
    {
      SetSeat(px, Seat(px).(coins := Seat(px).coins + n));
      Emit(CoinsAdded(px, n));
    }

    method AddBuys(px: nat, n: int)
      modifies this
      ensures Model() == P.AddBuys(old(Model()), px, n)
    {
      SetSeat(px, Seat(px).(buys := Seat(px).buys + n));
      Emit(BuysAdded(px, n));
    }

    method AddActions(px: nat, n: int)
      modifies this
      ensures Model() == P.AddActions(old(Model()), px, n)
    {
      SetSeat(px, Seat(px).(actions := Seat(px).actions + n));
      Emit(ActionsAdded(px, n));
    }

    function Pile(c: Card): (n: int)
      reads this
      ensures n == Model().Pile(c)
    {
      if c in supply then supply[c] else 0
    }

    method GainCard(px: nat, c: Card, dest: GainDest)
      modifies this
      ensures Model() == P.GainCard(old(Model()), px, c, dest)
    {
      if Pile(c) <= 0 { return; }
      supply := supply[c := supply[c] - 1];
      var p := Seat(px);
      match dest {
        case GainToHand => SetSeat(px, p.(hand := p.hand + [c]));
        case GainToDeck => SetSeat(px, p.(deck := p.deck + [c]));
        case GainToDiscard => SetSeat(px, p.(discard := p.discard + [c]));
      }
      Emit(CardGained(px, c));
    }

    /** Looks at the top `n` cards, topmost first, without moving them. */
    method RevealFromDeck(px: nat, n: nat) returns (revealed: seq<Card>)
      modifies this
      ensures (Model(), revealed) == P.RevealFromDeck(old(Model()), px, n)
    {
      hide P.Refill;
      if |Seat(px).deck| < n && Seat(px).discard != [] { Refill(px); }
      var deck := Seat(px).deck;
      var available := if |deck| > n then n else |deck|;
      revealed := [];
      var i := 0;
      while i < available
        invariant i <= available
        invariant revealed == TopDown(deck, i)
      {
        revealed := revealed + [deck[|deck| - 1 - i]];
        i := i + 1;
      }
    }

    method TrashFromDeck(px: nat, c: Card)
      modifies this
      ensures Model() == P.TrashFromDeck(old(Model()), px, c)
    {
      hide P.Deliver;
      var p := Seat(px);
      var found, rest := TakeOut(p.deck, c);
      if !found { return; }
      Deliver(px, p.(deck := rest), c, P.ToTrash);
    }

    method DiscardFromDeck(px: nat, c: Card)
      modifies this
      ensures Model() == P.DiscardFromDeck(old(Model()), px, c)
    {
      hide P.Deliver;
      var p := Seat(px);
      var found, rest := TakeOut(p.deck, c);
      if !found { return; }
      Deliver(px, p.(deck := rest), c, P.ToDiscard);
    }

    method RequestDecision(px: nat, card: Card, step: nat, prompt: Prompt, context: Context)
      modifies this
      ensures Model() == P.RequestDecision(old(Model()), px, card, step, prompt, context)
    {
      decisionSeq := decisionSeq + 1;
      pending := Some(Decision(DecisionId(decisionSeq), px, card, step, prompt, context));
      Emit(DecisionRequested(px));
    }

    /** Announces an attack, lets every opponent's hand react in turn order, and collects those not blocked. */
    method ResolveAttackVictims(attacker: nat, card: Card) returns (victims: seq<nat>)
      modifies this`log
      ensures (Model(), victims) == P.ResolveAttackVictims(old(Model()), attacker, card)
    {
      hide P.Others, P.Unblocked, P.ReactionsOfAll, P.Reactions;
      ghost var s := Model();
      var n := |players|;
      ghost var others := P.Others(n, attacker);
      var events := [];
      victims := [];
      NoneYet(s, others);
      var step := 1;
      while step < n
        invariant 1 <= step <= |others| + 1
        invariant victims == P.Unblocked(s, others[..step - 1])
        invariant events == P.ReactionsOfAll(s, others[..step - 1])
        invariant Model() == s
      {
        var victim := (attacker + step) % n;
        assert others[step - 1] == victim;
        assert others[..step] == others[..step - 1] + [victim];
        VictimsSnoc(s, others[..step - 1], victim);
        var blocked, reactions := HandReacts(Seat(victim).hand, victim);
        events := events + reactions;
        if !blocked { victims := victims + [victim]; }
        step := step + 1;
      }
      assert others[..|others|] == others;
      log := log + [AttackPlayed(attacker, card)] + events;
    }
  }

  lemma RevealStep(s: State, px: nat, n: nat, revealed: seq<Card>, top: Card)
    requires n > 0 && P.Available(s.P(px)) > 0 && P.DiscardTop(s, px).1 == [top]
    ensures var (t, rest) := P.RevealAndDiscardFromDeck(P.DiscardTop(s, px).0, px, n - 1);
            && P.RevealAndDiscardFromDeck(s, px, n).0 == t
            && revealed + P.RevealAndDiscardFromDeck(s, px, n).1 == revealed + [top] + rest
  {
    hide P.DiscardTop;
  }

  lemma NoneYet(s: State, others: seq<nat>)
    ensures P.Unblocked(s, others[..0]) == [] && P.ReactionsOfAll(s, others[..0]) == []
  {
  }

  lemma {:induction false} VictimsSnoc(s: State, seats: seq<nat>, v: nat)
    ensures P.Unblocked(s, seats + [v]) == P.Unblocked(s, seats) + (if Moat in s.P(v).hand then [] else [v])
    ensures P.ReactionsOfAll(s, seats + [v]) == P.ReactionsOfAll(s, seats) + P.Reactions(s.P(v).hand, v)
  {
    hide P.Reactions;
    if seats == [] {
      assert seats + [v] == [v];
    } else {
      assert (seats + [v])[1..] == seats[1..] + [v];
      VictimsSnoc(s, seats[1..], v);
    }
  }

  lemma {:induction false} ReactionsSnoc(hand: seq<Card>, c: Card, victim: nat)
    ensures P.Reactions(hand + [c], victim) ==
            P.Reactions(hand, victim) + (if c == Moat then [ReactionTriggered(victim, Moat)] else [])
  {
    if hand == [] {
      assert hand + [c] == [c];
    } else {
      assert (hand + [c])[1..] == hand[1..] + [c];
      ReactionsSnoc(hand[1..], c, victim);
    }
  }

  /** Scans one hand for Moats: each reacts, one is enough to block. */
  method HandReacts(hand: seq<Card>, victim: nat) returns (blocked: bool, events: seq<Event>)
    ensures blocked <==> Moat in hand
    ensures events == P.Reactions(hand, victim)
  {
    blocked, events := false, [];
    var i := 0;
    while i < |hand|
      invariant i <= |hand|
      invariant blocked <==> Moat in hand[..i]
      invariant events == P.Reactions(hand[..i], victim)
    {
      ReactionsSnoc(hand[..i], hand[i], victim);
      assert hand[..i + 1] == hand[..i] + [hand[i]];
      if hand[i] == Moat {
        events := events + [ReactionTriggered(victim, Moat)];
        blocked := true;
      }
      i := i + 1;
    }
    assert hand[..|hand|] == hand;
  }
}
