/** Moving named cards between zones, said without a loop. */
module Moves {
  import opened Cards
  import opened States
  import opened Zones
  import opened Primitives
  import opened Effects

  /** The cards of the list that are found in the zone, each copy taken at most once, in the order named. */
  function Found(zone: seq<Card>, cards: seq<Card>): seq<Card>
    decreases |cards|
  {
    if cards == [] then []
    else if cards[0] in zone then [cards[0]] + Found(Without(zone, cards[0]), cards[1..])
    else Found(zone, cards[1..])
  }

  /** What stays in the zone. */
  function Remaining(zone: seq<Card>, cards: seq<Card>): seq<Card>
    decreases |cards|
  {
    if cards == [] then zone else Remaining(Without(zone, cards[0]), cards[1..])
  }

  function Fewer(a: nat, b: nat): nat {
    if a < b then a else b
  }

  lemma WithoutCount(cards: seq<Card>, c: Card, d: Card)
    ensures multiset(Without(cards, c))[d] == multiset(cards)[d] - (if c == d && c in cards then 1 else 0)
  {
    hide Without;
  }

  lemma {:induction false} FoundCount(zone: seq<Card>, cards: seq<Card>, d: Card)
    ensures multiset(Found(zone, cards))[d] == Fewer(multiset(zone)[d], multiset(cards)[d])
    ensures multiset(Remaining(zone, cards))[d] == multiset(zone)[d] - Fewer(multiset(zone)[d], multiset(cards)[d])
    decreases |cards|
  {
    if cards != [] {
      var c, rest := cards[0], cards[1..];
      assert cards == [c] + rest;
      FoundCount(Without(zone, c), rest, d);
      WithoutCount(zone, c, d);
      MultisetMember(zone, c);
      hide Without;
    }
  }

  lemma FoundNone(zone: seq<Card>)
    ensures Found(zone, []) == [] && Remaining(zone, []) == zone
  {
  }

  lemma {:induction false} FoundLength(zone: seq<Card>, cards: seq<Card>)
    ensures |Remaining(zone, cards)| + |Found(zone, cards)| == |zone|
    ensures |Found(zone, cards)| <= |cards|
    ensures |Found(zone, cards)| == |cards| ==> Found(zone, cards) == cards
    decreases |cards|
  {
    hide Without, Found, Remaining;
    if cards == [] {
      FoundNone(zone);
    } else {
      FoundLength(Without(zone, cards[0]), cards[1..]);
      FoundStep(zone, cards);
      assert cards == [cards[0]] + cards[1..];
    }
  }

  lemma SharedIs(a: multiset<Card>, b: multiset<Card>, c: multiset<Card>)
    requires forall d :: c[d] == Fewer(a[d], b[d])
    ensures c == a * b
  {
  }

  lemma RestIs(a: multiset<Card>, b: multiset<Card>, c: multiset<Card>)
    requires forall d :: c[d] == a[d] - Fewer(a[d], b[d])
    ensures c == a - b
  {
  }

  /** The found cards are what zone and list have in common, and the rest stays. */
  lemma FoundIs(zone: seq<Card>, cards: seq<Card>)
    ensures multiset(Found(zone, cards)) == multiset(zone) * multiset(cards)
    ensures multiset(Remaining(zone, cards)) == multiset(zone) - multiset(cards)
  {
    hide Found, Remaining;
    var a, b, found, rest := multiset(zone), multiset(cards), multiset(Found(zone, cards)), multiset(Remaining(zone, cards));
    forall d ensures found[d] == Fewer(a[d], b[d]) && rest[d] == a[d] - Fewer(a[d], b[d]) {
      FoundCount(zone, cards, d);
    }
    SharedIs(a, b, found);
    RestIs(a, b, rest);
  }

  /** Everything named is found exactly when the zone holds as many copies as are named. */
  lemma FoundExactly(zone: seq<Card>, cards: seq<Card>)
    ensures Found(zone, cards) == cards <==> multiset(cards) <= multiset(zone)
    ensures |Found(zone, cards)| == |cards| <==> multiset(cards) <= multiset(zone)
    ensures |Found(zone, cards)| <= |cards| && |Remaining(zone, cards)| + |Found(zone, cards)| == |zone|
  {
    hide Found, Remaining;
    FoundLength(zone, cards);
    if multiset(cards) <= multiset(zone) {
      FoundAll(zone, cards);
    } else {
      FoundIs(zone, cards);
    }
  }

  lemma FoundStep(zone: seq<Card>, cards: seq<Card>)
    requires cards != []
    ensures Remaining(zone, cards) == Remaining(Without(zone, cards[0]), cards[1..])
    ensures cards[0] in zone ==> Found(zone, cards) == [cards[0]] + Found(Without(zone, cards[0]), cards[1..])
    ensures cards[0] !in zone ==> Found(zone, cards) == Found(Without(zone, cards[0]), cards[1..])
  {
  }

  lemma {:induction false} FoundAll(zone: seq<Card>, cards: seq<Card>)
    requires multiset(cards) <= multiset(zone)
    ensures Found(zone, cards) == cards
    decreases |cards|
  {
    if cards != [] {
      assert cards == [cards[0]] + cards[1..];
      MultisetMember(zone, cards[0]);
      FoundAll(Without(zone, cards[0]), cards[1..]);
    }
  }

  function MoveEvents(px: nat, cards: seq<Card>, to: Target): seq<Event> {
    seq(|cards|, i requires 0 <= i < |cards| => MoveEvent(px, cards[i], to))
  }

  /** The seat after the cards arrived at their target; the trash is not part of a seat. */
  function ReceiveAll(p: PlayerState, cards: seq<Card>, to: Target): PlayerState {
    match to
    case ToHand => p.(hand := p.hand + cards)
    case ToDiscard => p.(discard := p.discard + cards)
    case ToTrash => p
    case ToDeck => p.(deck := p.deck + cards)
  }

  function DeliverAll(s: State, px: nat, q: PlayerState, cards: seq<Card>, to: Target): State {
    s.With(px, ReceiveAll(q, cards, to))
     .(trash := if to == ToTrash then s.trash + cards else s.trash, log := s.log + MoveEvents(px, cards, to))
  }

  lemma DeliverNone(s: State, px: nat, to: Target)
    ensures DeliverAll(s, px, s.P(px), [], to) == s
  {
    assert MoveEvents(px, [], to) == [];
    assert ReceiveAll(s.P(px), [], to) == s.P(px);
  }

  lemma SnocAssoc<T>(a: seq<T>, x: T, b: seq<T>)
    ensures (a + [x]) + b == a + ([x] + b)
  {
  }

  lemma ReceiveStep(q: PlayerState, r: PlayerState, x: Card, rest: seq<Card>, to: Target)
    requires to != ToHand
    requires r == Receive(q, x, to).(hand := r.hand, setAside := r.setAside)
    ensures ReceiveAll(r, rest, to) == ReceiveAll(q.(hand := r.hand, setAside := r.setAside), [x] + rest, to)
  {
    SnocAssoc(q.discard, x, rest);
    SnocAssoc(q.deck, x, rest);
  }

  /** One card, then the rest: all of them. */
  lemma DeliverStep(s: State, px: nat, q: PlayerState, q': PlayerState, x: Card, rest: seq<Card>, to: Target)
    requires px < |s.players| && to != ToHand
    requires var s1 := Deliver(s, px, q, x, to);
             q' == s1.P(px).(hand := q'.hand, setAside := q'.setAside)
    ensures DeliverAll(Deliver(s, px, q, x, to), px, q', rest, to) ==
            DeliverAll(s, px, q.(hand := q'.hand, setAside := q'.setAside), [x] + rest, to)
  {
    var s1 := Deliver(s, px, q, x, to);
    ReceiveStep(q, q', x, rest, to);
    assert MoveEvents(px, [x] + rest, to) == [MoveEvent(px, x, to)] + MoveEvents(px, rest, to);
    SnocAssoc(s.log, MoveEvent(px, x, to), MoveEvents(px, rest, to));
    SnocAssoc(s.trash, x, rest);
    hide ReceiveAll, Receive, MoveEvents, MoveEvent;
    var r := ReceiveAll(q', rest, to);
    assert s1.players[px := r] == s.players[px := r];
  }

  /** `DiscardFromHand`, `TrashFromHand` and `PutOnDeck` move exactly the found cards, in order, and report each. */
  lemma {:induction false} MoveFromHandIs(s: State, px: nat, cards: seq<Card>, to: Target)
    requires px < |s.players| && to != ToHand
    ensures var p := s.P(px);
            MoveFromHand(s, px, cards, to) ==
            DeliverAll(s, px, p.(hand := Remaining(p.hand, cards)), Found(p.hand, cards), to)
    decreases |cards|
  {
    var p := s.P(px);
    if cards == [] {
      DeliverNone(s, px, to);
    } else {
      var c, rest := cards[0], cards[1..];
      var s1 := MoveOne(s, px, c, to);
      FoundStep(p.hand, cards);
      MoveFromHandIs(s1, px, rest, to);
      if c in p.hand {
        var q := p.(hand := Without(p.hand, c));
        var q' := s1.P(px).(hand := Remaining(q.hand, rest));
        assert s1.P(px).hand == q.hand;
        hide DeliverAll, Deliver, Found, Remaining, Without;
        DeliverStep(s, px, q, q', c, Found(q.hand, rest), to);
      }
    }
  }

  /** Sentry's answers sort the set-aside cards the same way. */
  lemma {:induction false} SortSetAsideIs(s: State, px: nat, cards: seq<Card>, to: Target)
    requires px < |s.players| && to != ToHand
    ensures var p := s.P(px);
            SortSetAside(s, px, cards, to) ==
            DeliverAll(s, px, p.(setAside := Remaining(p.setAside, cards)), Found(p.setAside, cards), to)
    decreases |cards|
  {
    var p := s.P(px);
    if cards == [] {
      DeliverNone(s, px, to);
    } else {
      var c, rest := cards[0], cards[1..];
      var s1 := SortOne(s, px, c, to);
      FoundStep(p.setAside, cards);
      SortSetAsideIs(s1, px, rest, to);
      if c in p.setAside {
        var q := p.(setAside := Without(p.setAside, c));
        var q' := s1.P(px).(setAside := Remaining(q.setAside, rest));
        assert s1.P(px).setAside == q.setAside;
        hide DeliverAll, Deliver, Found, Remaining, Without;
        DeliverStep(s, px, q, q', c, Found(q.setAside, rest), to);
      }
    }
  }
}
