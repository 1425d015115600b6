/** Counting cards: who owns what, and how many copies of each card the whole game holds. */
module Census {
  import opened Cards
  import opened States

  /** A player's copies of `c`, over all five zones. */
  function Copies(p: PlayerState, c: Card): nat {
    multiset(p.hand)[c] + multiset(p.deck)[c] + multiset(p.discard)[c] + multiset(p.inPlay)[c] +
    multiset(p.setAside)[c]
  }

  /** Copies of `c` over all seats. */
  function Held(players: seq<PlayerState>, c: Card): nat {
    if players == [] then 0 else Held(players[..|players| - 1], c) + Copies(players[|players| - 1], c)
  }

  /** Copies of `c` with the players, in the trash and in the supply. */
  function Count(s: State, c: Card): int {
    Held(s.players, c) + multiset(s.trash)[c] + s.Pile(c)
  }

  lemma HeldSnoc(players: seq<PlayerState>, p: PlayerState, c: Card)
    ensures Held(players + [p], c) == Held(players, c) + Copies(p, c)
  {
    hide Copies;
    assert (players + [p])[..|players|] == players;
  }

  lemma {:induction false} HeldUpdate(players: seq<PlayerState>, i: nat, p: PlayerState, c: Card)
    requires i < |players|
    ensures Held(players[i := p], c) == Held(players, c) - Copies(players[i], c) + Copies(p, c)
  {
    hide Copies;
    var k := |players| - 1;
    var q := players[i := p];
    assert Held(q, c) == Held(q[..k], c) + Copies(q[k], c);
    assert Held(players, c) == Held(players[..k], c) + Copies(players[k], c);
    hide Held;
    if i == k {
      assert q[..k] == players[..k];
    } else {
      assert q[..k] == players[..k][i := p];
      HeldUpdate(players[..k], i, p, c);
    }
  }

  lemma {:induction false} HeldByOne(players: seq<PlayerState>, i: nat, c: Card)
    requires i < |players|
    ensures Copies(players[i], c) <= Held(players, c)
  {
    hide Copies;
    var k := |players| - 1;
    if i < k {
      HeldByOne(players[..k], i, c);
    }
  }

  lemma {:induction false} HeldPointwise(a: seq<PlayerState>, b: seq<PlayerState>, c: Card)
    requires |a| == |b|
    requires forall i :: 0 <= i < |a| ==> Copies(a[i], c) == Copies(b[i], c)
    ensures Held(a, c) == Held(b, c)
  {
    hide Copies;
    if a != [] {
      HeldPointwise(a[..|a| - 1], b[..|b| - 1], c);
    }
  }
}
