/** Every deal of a new game can happen. */
module Deals {
  import opened Cards
  import opened States
  import opened Zones
  import opened Primitives
  import opened Drawing
  import opened NewGames
  import opened Openings

  /** Seat `f` begins, and each seat holds the five top cards of its deck. */
  predicate DealtAs(s: State, first: seq<Card>, second: seq<Card>, f: nat)
    requires |first| == 10 && |second| == 10
  {
    && |s.players| == 2 && s.current == f && s.starting == f
    && s.P(0).hand == TopDown(first, 5) && s.P(0).deck == first[..5]
    && s.P(1).hand == TopDown(second, 5) && s.P(1).deck == second[..5]
  }

  lemma TableFrom(k: seq<Card>, seed: int, rng: seq<nat>, first: seq<Card>, second: seq<Card>, mid: seq<nat>, f: nat)
    requires Shuffle(StartingDeck(), rng) == (first, mid) && Shuffle(StartingDeck(), mid) == (second, [f])
    ensures var s := TableLaid(k, seed, rng);
            && s.P(0).hand == [] && s.P(0).deck == first && s.P(1).hand == [] && s.P(1).deck == second
            && s.rng == [f] && |s.players| == 2
  {
    hide Shuffle, StartingDeck, StartingSupply;
  }

  lemma HandsUnfold(k: seq<Card>, seed: int, rng: seq<nat>)
    ensures HandsDrawn(k, seed, rng) == DrawCards(DrawCards(TableLaid(k, seed, rng), 0, 5), 1, 5)
  {
    hide DrawCards, TableLaid;
  }

  /** Two opening hands. */
  lemma TwoHands(s: State, a: nat, b: nat)
    requires a != b && a < |s.players| && b < |s.players| && s.P(a).hand == [] && s.P(b).hand == []
    requires |s.P(a).deck| == 10 && |s.P(b).deck| == 10
    ensures var p, q, t := s.P(a), s.P(b), DrawCards(DrawCards(s, a, 5), b, 5);
            && t.rng == s.rng && |t.players| == |s.players|
            && t.P(a) == p.(hand := TopDown(p.deck, 5), deck := p.deck[..5])
            && t.P(b) == q.(hand := TopDown(q.deck, 5), deck := q.deck[..5])
  {
    hide *;
    DealtTo(s, a);
    DealtTo(DrawCards(s, a, 5), b);
  }

  lemma HandsFrom(k: seq<Card>, seed: int, rng: seq<nat>, first: seq<Card>, second: seq<Card>, mid: seq<nat>, f: nat)
    requires Shuffle(StartingDeck(), rng) == (first, mid) && Shuffle(StartingDeck(), mid) == (second, [f])
    requires |first| == 10 && |second| == 10
    ensures var t := HandsDrawn(k, seed, rng);
            && |t.players| == 2 && t.rng == [f]
            && t.P(0).hand == TopDown(first, 5) && t.P(0).deck == first[..5]
            && t.P(1).hand == TopDown(second, 5) && t.P(1).deck == second[..5]
  {
    hide *;
    TableFrom(k, seed, rng, first, second, mid, f);
    TwoHands(TableLaid(k, seed, rng), 0, 1);
    HandsUnfold(k, seed, rng);
  }

  lemma BeginsWith(s: State, f: nat)
    requires |s.players| == 2 && s.rng == [f] && f < 2
    ensures var t := FirstTurn(s);
            && t.current == f && t.starting == f && |t.players| == 2
            && (forall i :: 0 <= i < 2 ==> t.P(i).hand == s.P(i).hand && t.P(i).deck == s.P(i).deck)
  {
    SmallMod(f, 2);
  }

  /** Every deal can happen: any order of either deck, together with either seat to begin. */
  lemma EveryDeal(kingdom: seq<Card>, seed: int, first: seq<Card>, second: seq<Card>, f: nat) returns (rng: seq<nat>)
    requires ResolveKingdom(kingdom).Chosen? && f < 2
    requires multiset(first) == multiset(StartingDeck()) && multiset(second) == multiset(StartingDeck())
    ensures |first| == 10 && |second| == 10
    ensures NewGame(2, kingdom, seed, rng).Some? && DealtAs(NewGame(2, kingdom, seed, rng).value, first, second, f)
  {
    assert |multiset(first)| == |first| && |multiset(second)| == |second| && |multiset(StartingDeck())| == 10;
    var k := ResolveKingdom(kingdom).cards;
    hide Shuffle, StartingDeck, ResolveKingdom, HandsDrawn, FirstTurn, TopDown;
    ShuffleReaches(StartingDeck(), second, [f]);
    var mid :| Shuffle(StartingDeck(), mid) == (second, [f]);
    ShuffleReaches(StartingDeck(), first, mid);
    rng :| Shuffle(StartingDeck(), rng) == (first, mid);
    HandsFrom(k, seed, rng, first, second, mid, f);
    BeginsWith(HandsDrawn(k, seed, rng), f);
  }
}
