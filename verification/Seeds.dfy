/** What the seed in every view gives away: one view of one seat at one time fixes the whole opening of the game. */
module Seeds {
  import opened Cards
  import opened States
  import opened Engine
  import opened Census
  import opened Frames
  import opened Runs
  import opened GameLaws
  import opened Discipline
  import opened Ledgers
  import opened Scoring
  import opened FanOut
  import opened NewGames

  // ----- What a run keeps -----

  lemma {:induction false} SeedOverRun(s: State, acts: seq<Action>)
    requires Inv(s)
    ensures s.players != [] && Run(s, acts).seed == s.seed
    decreases |acts|
  {
    RunSeated(s);
    if acts != [] {
      var t := Apply(s, acts[0]).state;
      ApplyInv(s, acts[0]);
      assert t.seed == s.seed by { hide Apply, Inv, Conserved, SupplyShrinks; }
      hide Apply, Inv, Stepped;
      SeedOverRun(t, acts[1..]);
    }
  }

  lemma PilesOverRun(s: State, acts: seq<Action>)
    requires Inv(s)
    ensures s.players != [] && Run(s, acts).supply.Keys == s.supply.Keys
  {
    RunSeated(s);
    SupplyOverRun(s, acts);
    hide Inv, Run;
  }

  // ----- The piles tell the kingdom -----

  lemma SamePiles(k: seq<Card>, m: seq<Card>)
    requires forall c :: c in k ==> IsKingdom(c)
    requires forall c :: c in m ==> IsKingdom(c)
    requires StartingSupply(k).Keys == StartingSupply(m).Keys
    ensures StartingSupply(k) == StartingSupply(m)
  {
    forall c ensures c in k <==> c in m { SamePile(k, m, c); }
    var a, b := StartingSupply(k), StartingSupply(m);
    assert forall c :: c in a ==> a[c] == b[c] by { hide BasicPile, IsKingdom; }
    hide StartingSupply, IsKingdom;
  }

  lemma SamePile(k: seq<Card>, m: seq<Card>, c: Card)
    requires forall d :: d in k ==> IsKingdom(d)
    requires forall d :: d in m ==> IsKingdom(d)
    requires StartingSupply(k).Keys == StartingSupply(m).Keys
    ensures c in k <==> c in m
  {
    assert c in StartingSupply(k) <==> c in BASICS + k by { hide BasicPile, IsKingdom; }
    assert c in StartingSupply(m) <==> c in BASICS + m by { hide BasicPile, IsKingdom; }
    hide StartingSupply;
    assert c in BASICS ==> !IsKingdom(c);
    hide IsKingdom;
    assert c in StartingSupply(k).Keys <==> c in StartingSupply(m).Keys;
  }

  /** The first state depends on the kingdom only through the piles. */
  lemma SameOpening(k: seq<Card>, m: seq<Card>, seed: int, rng: seq<nat>)
    requires StartingSupply(k) == StartingSupply(m)
    ensures HandsDrawn(k, seed, rng) == HandsDrawn(m, seed, rng)
  {
    hide StartingSupply, StartingDeck;
    assert TableLaid(k, seed, rng) == TableLaid(m, seed, rng);
  }

  lemma OpeningFields(kingdom: seq<Card>, seed: int, rng: seq<nat>)
    requires NewGame(2, kingdom, seed, rng).Some?
    ensures var s, k := NewGame(2, kingdom, seed, rng).value, ResolveKingdom(kingdom);
            && k.Chosen? && (forall c :: c in k.cards ==> IsKingdom(c))
            && s == FirstTurn(HandsDrawn(k.cards, seed, rng)) && Inv(s)
            && s.seed == seed && s.supply == StartingSupply(k.cards)
  {
    hide NewGame, ResolveKingdom, HandsDrawn, FirstTurn, Inv, IsKingdom, StartingSupply, Opening, TableLaid, Count,
      Books, Tidy, OnTurn, Decided;
    NewGameKnown(kingdom, seed, rng);
    NewGameEstablishes(kingdom, seed, rng);
    IsFirstTurn(kingdom, seed, rng);
    KingdomIs(kingdom);
    var k := ResolveKingdom(kingdom).cards;
    HandsAre(k, seed, rng);
    FirstTurnSeats(HandsDrawn(k, seed, rng));
    TableSupply(k, seed, rng);
  }

  /** Two games whose random numbers come from the same generator, whatever it is, started with their seeds. If at any
      time, after any actions, some seat's view of the one is some seat's view of the other, the games began in the same
      state: the view fixes both opening hands, both decks and every random number still to come. */
  lemma ViewFixesOpening(gen: int -> seq<nat>, k: seq<Card>, a: int, m: seq<Card>, b: int, acts: seq<Action>,
                         more: seq<Action>, i: nat, j: nat)
    requires NewGame(2, k, a, gen(a)).Some? && NewGame(2, m, b, gen(b)).Some?
    ensures var s, t := NewGame(2, k, a, gen(a)).value, NewGame(2, m, b, gen(b)).value;
            && s.players != [] && t.players != []
            && (ViewOf(Run(s, acts), i) == ViewOf(Run(t, more), j) ==> s == t)
  {
    hide NewGame, ResolveKingdom, HandsDrawn, FirstTurn, Inv, IsKingdom, StartingSupply, Run;
    var s, t := NewGame(2, k, a, gen(a)).value, NewGame(2, m, b, gen(b)).value;
    OpeningFields(k, a, gen(a));
    OpeningFields(m, b, gen(b));
    SeedOverRun(s, acts);
    SeedOverRun(t, more);
    PilesOverRun(s, acts);
    PilesOverRun(t, more);
    if ViewOf(Run(s, acts), i) == ViewOf(Run(t, more), j) {
      SameSeedAndPiles(Run(s, acts), Run(t, more), i, j);
      SamePiles(ResolveKingdom(k).cards, ResolveKingdom(m).cards);
      SameOpening(ResolveKingdom(k).cards, ResolveKingdom(m).cards, a, gen(a));
    }
  }

  lemma SameSeedAndPiles(s: State, t: State, i: nat, j: nat)
    requires ViewOf(s, i) == ViewOf(t, j)
    ensures s.seed == t.seed && s.supply == t.supply
  {
  }
}
