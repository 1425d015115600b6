/** Zones are sequences of cards; these are the list operations the engine performs on them. */
module Zones {
  import opened Cards

  /** The first index of `c`, or -1. */
  function IndexOf(cards: seq<Card>, c: Card): (i: int)
    ensures -1 <= i < |cards|
    ensures i >= 0 ==> cards[i] == c && c !in cards[..i]
    ensures i < 0 <==> c !in cards
  {
    if cards == [] then -1
    else if cards[0] == c then 0
    else
      var r := IndexOf(cards[1..], c);
      if r < 0 then -1 else r + 1
  }

  /** `cards` without its first copy of `c`; `cards` itself when there is none. */
  function Without(cards: seq<Card>, c: Card): (r: seq<Card>)
    ensures multiset(r) == multiset(cards) - multiset{c}
    ensures c !in cards ==> r == cards
    ensures c in cards ==> |r| == |cards| - 1 && multiset(cards) == multiset(r) + multiset{c}
  {
    var i := IndexOf(cards, c);
    if i < 0 then cards
    else
      assert cards == cards[..i] + [c] + cards[i + 1..];
      cards[..i] + cards[i + 1..]
  }

  /** The `k` topmost cards of a deck, topmost first. */
  function TopDown(deck: seq<Card>, k: nat): (r: seq<Card>)
    requires k <= |deck|
    ensures |r| == k
    ensures forall i :: 0 <= i < k ==> r[i] == deck[|deck| - 1 - i]
  {
    seq(k, i requires 0 <= i < k => deck[|deck| - 1 - i])
  }

  lemma {:induction false} TopDownCards(deck: seq<Card>, k: nat)
    requires k <= |deck|
    ensures multiset(TopDown(deck, k)) == multiset(deck[|deck| - k..])
    decreases k
  {
    if k > 0 {
      var m := |deck| - k;
      TopDownCards(deck, k - 1);
      assert TopDown(deck, k) == TopDown(deck, k - 1) + [deck[m]];
      assert deck[m..] == [deck[m]] + deck[m + 1..];
      hide TopDown;
    }
  }

  /** Taking the top cards off a deck and keeping the rest loses nothing. */
  lemma TopDownSplit(deck: seq<Card>, k: nat)
    requires k <= |deck|
    ensures multiset(deck) == multiset(deck[..|deck| - k]) + multiset(TopDown(deck, k))
  {
    TopDownCards(deck, k);
    assert deck == deck[..|deck| - k] + deck[|deck| - k..];
    hide TopDown;
  }

  function Swap(cards: seq<Card>, i: nat, j: nat): (r: seq<Card>)
    requires i < |cards| && j < |cards|
    ensures |r| == |cards|
    ensures multiset(r) == multiset(cards)
  {
    cards[i := cards[j]][j := cards[i]]
  }

  /** The next random number below `bound`; an exhausted stream yields zeros. */
  function NextBelow(rng: seq<nat>, bound: nat): (r: (nat, seq<nat>))
    requires bound > 0
    ensures r.0 < bound
  {
    if rng == [] then (0, []) else (rng[0] % bound, rng[1..])
  }

  /** One pass of swaps from index `i` down to 1, each with an arbitrary index not above it. */
  function ShuffleFrom(cards: seq<Card>, i: nat, rng: seq<nat>): (r: (seq<Card>, seq<nat>))
    requires i < |cards| || (i == 0 && cards == [])
    ensures |r.0| == |cards|
    ensures multiset(r.0) == multiset(cards)
    decreases i
  {
    if i == 0 then (cards, rng)
    else
      var (j, rest) := NextBelow(rng, i + 1);
      ShuffleFrom(Swap(cards, i, j), i - 1, rest)
  }

  /** A shuffle: some permutation of the cards, chosen by the random stream. */
  function Shuffle(cards: seq<Card>, rng: seq<nat>): (r: (seq<Card>, seq<nat>))
    ensures |r.0| == |cards|
    ensures multiset(r.0) == multiset(cards)
  {
    ShuffleFrom(cards, if |cards| == 0 then 0 else |cards| - 1, rng)
  }

  lemma MultisetMember(cards: seq<Card>, c: Card)
    ensures c in cards <==> multiset(cards)[c] > 0
  {
  }
}
