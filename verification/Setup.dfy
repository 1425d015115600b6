/** Setting up a game by loops and assignments, proved against the initial state as a value. */
module Setup {
  import opened Cards
  import opened States
  import opened Zones
  import opened GameStates
  import P = Primitives
  import N = NewGames

  method ResolveKingdom(requested: seq<Card>) returns (k: N.Kingdom)
    ensures k == N.ResolveKingdom(requested)
  {
    hide IsKingdom, N.KingdomsOf;
    if |requested| == 0 {
      var all := AllKingdomCards();
      return N.Chosen(all);
    }
    var out := [];
    var i := 0;
    while i < |requested|
      invariant i <= |requested|
      invariant N.Collect(requested[i..], out) == N.Collect(requested, [])
    {
      var c := requested[i];
      assert requested[i..][0] == c && requested[i..][1..] == requested[i + 1..];
      if !Known(c) { return N.UnknownKingdomCard(c); }
      if !IsKingdom(c) { return N.NotAKingdomCard(c); }
      i := i + 1;
      if c in out { continue; }
      out := out + [c];
    }
    return N.Chosen(out);
  }

  lemma {:induction false} KingdomsSnoc(cards: seq<Card>, c: Card)
    ensures N.KingdomsOf(cards + [c]) == N.KingdomsOf(cards) + (if IsKingdom(c) then [c] else [])
  {
    hide IsKingdom;
    var more := cards + [c];
    if cards == [] {
      assert more == [c] && [c][1..] == [];
    } else {
      assert more[0] == cards[0] && more[1..] == cards[1..] + [c];
      KingdomsSnoc(cards[1..], c);
      var first := if IsKingdom(cards[0]) then [cards[0]] else [];
      assert N.KingdomsOf(more) == first + N.KingdomsOf(more[1..]);
      assert N.KingdomsOf(cards) == first + N.KingdomsOf(cards[1..]);
    }
  }

  method KingdomCardsAmong(cards: seq<Card>) returns (ids: seq<Card>)
    ensures ids == N.KingdomsOf(cards)
  {
    hide IsKingdom;
    ids := [];
    var i := 0;
    while i < |cards|
      invariant i <= |cards| && ids == N.KingdomsOf(cards[..i])
    {
      assert cards[..i + 1] == cards[..i] + [cards[i]];
      KingdomsSnoc(cards[..i], cards[i]);
      if IsKingdom(cards[i]) { ids := ids + [cards[i]]; }
      i := i + 1;
    }
    assert cards[..|cards|] == cards;
  }

  method AllKingdomCards() returns (ids: seq<Card>)
    ensures ids == N.KingdomsOf(REGISTRY)
  {
    ids := KingdomCardsAmong(REGISTRY);
  }

  /** The basic piles, then ten copies of each kingdom card. */
  method StockSupply(kingdom: seq<Card>) returns (piles: map<Card, int>)
    ensures piles == N.StartingSupply(kingdom)
  {
    piles := map[Copper := 60 - 7 * 2, Silver := 40, Gold := 30, Estate := 14 - 3 * 2, Duchy := 8, Province := 8,
                 Curse := 10];
    BasicSupply(piles);
    var i := 0;
    while i < |kingdom|
      invariant i <= |kingdom| && piles == N.StartingSupply(kingdom[..i])
    {
      SupplyStep(kingdom, i);
      piles := piles[kingdom[i] := 10];
      i := i + 1;
    }
    assert kingdom[..|kingdom|] == kingdom;
  }

  lemma BasicSupply(piles: map<Card, int>)
    requires piles == map[Copper := 60 - 7 * 2, Silver := 40, Gold := 30, Estate := 14 - 3 * 2, Duchy := 8,
                          Province := 8, Curse := 10]
    ensures piles == N.StartingSupply([])
  {
    var supply := N.StartingSupply([]);
    forall c ensures c in piles <==> c in supply { BasicCard(c); }
    forall c | c in piles ensures piles[c] == supply[c] { BasicCard(c); }
  }

  lemma BasicCard(c: Card)
    ensures c in N.BASICS + [] <==>
            c == Copper || c == Silver || c == Gold || c == Estate || c == Duchy || c == Province || c == Curse
  {
    var b := N.BASICS;
    assert b[0] == Copper && b[1] == Silver && b[2] == Gold && b[3] == Estate && b[4] == Duchy && b[5] == Province &&
           b[6] == Curse && |b| == 7;
  }

  lemma SupplyStep(kingdom: seq<Card>, i: nat)
    requires i < |kingdom|
    ensures N.StartingSupply(kingdom[..i])[kingdom[i] := 10] == N.StartingSupply(kingdom[..i + 1])
  {
    assert kingdom[..i + 1] == kingdom[..i] + [kingdom[i]];
    hide N.BasicPile;
  }

  /** Seven Coppers and three Estates, shuffled in place. */
  method ShuffledDeck(rng: seq<nat>) returns (deck: seq<Card>, rest: seq<nat>)
    ensures (deck, rest) == Shuffle(N.StartingDeck(), rng)
  {
    hide Shuffle;
    deck := [];
    var k := 0;
    while k < 7
      invariant k <= 7 && deck == N.Repeat(Copper, k)
    {
      deck := deck + [Copper];
      k := k + 1;
    }
    k := 0;
    assert deck + [] == deck;
    while k < 3
      invariant k <= 3 && deck == N.Repeat(Copper, 7) + N.Repeat(Estate, k)
    {
      deck := deck + [Estate];
      k := k + 1;
    }
    var a := new Card[|deck|](i requires 0 <= i < |deck| => deck[i]);
    assert a[..] == deck;
    rest := ShuffleCards(a, rng);
    deck := a[..];
  }

  /** Picks the starting seat and gives it its first turn's resources. */
  method FirstTurn(gs: GameState)
    modifies gs
    ensures gs.Model() == N.FirstTurn(old(gs.Model()))
  {
    hide NextBelow;
    var (start, later) := NextBelow(gs.rng, 2);
    gs.rng := later;
    gs.current := start;
    gs.starting := start;
    gs.SetSeat(start, gs.Seat(start).(actions := 1, buys := 1, coins := 0));
    gs.log := [];
  }

  /** The initial state of a two-player game, or nothing if the players or the kingdom will not do. */
  method NewGame(players: nat, kingdom: seq<Card>, seed: int, rng: seq<nat>) returns (r: Option<GameState>)
    ensures r.Some? <==> N.NewGame(players, kingdom, seed, rng).Some?
    ensures r.Some? ==> fresh(r.value) && r.value.Model() == N.NewGame(players, kingdom, seed, rng).value
  {
    hide Shuffle, N.StartingDeck, N.StartingSupply, P.DrawCards, N.ResolveKingdom, N.Table, N.FirstTurn;
    if players != 2 { return None; }
    var first, rest := ShuffledDeck(rng);
    var second, last := ShuffledDeck(rest);
    var k := ResolveKingdom(kingdom);
    if !k.Chosen? { return None; }
    var piles := StockSupply(k.cards);
    var gs := new GameState(N.Table(first, second, piles, seed, last));
    gs.DrawCards(0, 5);
    gs.DrawCards(1, 5);
    FirstTurn(gs);
    return Some(gs);
  }
}
