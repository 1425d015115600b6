/** The initial state of a two-player game, and what it establishes. */
module NewGames {
  import opened Cards
  import opened States
  import opened Zones
  import opened Primitives
  import opened Engine
  import opened Census
  import opened Invariants
  import opened Plays
  import opened Runs
  import opened GameLaws
  import opened Discipline
  import opened Ledgers
  import opened Scoring
  import opened Drawing

  // ----- The kingdom -----

  datatype Kingdom = Chosen(cards: seq<Card>) | UnknownKingdomCard(card: Card) | NotAKingdomCard(card: Card)

  /** Takes over the requested cards one by one, skipping repeats; the first card that will not do is reported. */
  function Collect(requested: seq<Card>, out: seq<Card>): Kingdom
    decreases |requested|
  {
    if requested == [] then Chosen(out)
    else
      var c := requested[0];
      if !Known(c) then UnknownKingdomCard(c)
      else if !IsKingdom(c) then NotAKingdomCard(c)
      else Collect(requested[1..], if c in out then out else out + [c])
  }

  function KingdomsOf(cards: seq<Card>): seq<Card> {
    if cards == [] then [] else (if IsKingdom(cards[0]) then [cards[0]] else []) + KingdomsOf(cards[1..])
  }

  /** An empty request means every kingdom card there is. */
  function ResolveKingdom(requested: seq<Card>): Kingdom {
    if requested == [] then Chosen(KingdomsOf(REGISTRY)) else Collect(requested, [])
  }

  predicate NoRepeats(cards: seq<Card>) {
    forall i, j :: 0 <= i < j < |cards| ==> cards[i] != cards[j]
  }

  /** `c` is the first of the requested cards that is not a kingdom card. */
  predicate FirstBad(requested: seq<Card>, c: Card) {
    exists i :: 0 <= i < |requested| && requested[i] == c && !IsKingdom(c) &&
                forall j :: 0 <= j < i ==> IsKingdom(requested[j])
  }

  /** Collecting succeeds exactly if all requested cards are kingdom cards, and then yields each of them once; otherwise
      it names the first that is not, and says whether it is unknown. */
  lemma {:induction false} CollectIs(requested: seq<Card>, out: seq<Card>)
    requires NoRepeats(out)
    ensures var k := Collect(requested, out);
            && (k.Chosen? <==> forall c :: c in requested ==> IsKingdom(c))
            && (k.Chosen? ==> NoRepeats(k.cards) && forall c :: c in k.cards <==> c in out || c in requested)
            && (!k.Chosen? ==> FirstBad(requested, k.card) && (k.UnknownKingdomCard? <==> !Known(k.card)))
    decreases |requested|
  {
    if requested != [] {
      var c, rest := requested[0], requested[1..];
      assert requested == [c] + rest;
      if IsKingdom(c) {
        var next := if c in out then out else out + [c];
        CollectIs(rest, next);
        var k := Collect(rest, next);
        if !k.Chosen? {
          var i :| 0 <= i < |rest| && rest[i] == k.card && forall j :: 0 <= j < i ==> IsKingdom(rest[j]);
          assert requested[i + 1] == k.card;
          assert forall j :: 0 <= j < i + 1 ==> IsKingdom(requested[j]);
        }
      } else {
        assert requested[0] == c;
      }
    }
  }

  lemma {:induction false} KingdomsAre(cards: seq<Card>)
    ensures forall c :: c in KingdomsOf(cards) <==> c in cards && IsKingdom(c)
  {
    if cards != [] {
      KingdomsAre(cards[1..]);
      assert cards == [cards[0]] + cards[1..];
      hide IsKingdom;
    }
  }

  /** A resolved kingdom holds kingdom cards only. */
  lemma KingdomIs(requested: seq<Card>)
    ensures var k := ResolveKingdom(requested);
            && (k.Chosen? <==> forall c :: c in requested ==> IsKingdom(c))
            && (k.Chosen? ==> forall c :: c in k.cards ==> IsKingdom(c))
            && (requested != [] && k.Chosen? ==> forall c :: c in k.cards <==> c in requested)
            && (requested == [] ==> forall c :: c in k.cards <==> c in REGISTRY && IsKingdom(c))
  {
    hide KingdomsOf, Collect, IsKingdom;
    KingdomsAre(REGISTRY);
    CollectIs(requested, []);
  }

  // ----- The supply and the first state -----

  const BASICS: seq<Card> := [Copper, Silver, Gold, Estate, Duchy, Province, Curse]

  function BasicPile(c: Card): nat {
    match c
    case Copper => 60 - 7 * 2
    case Silver => 40
    case Gold => 30
    case Estate => 14 - 3 * 2
    case Duchy | Province => 8
    case Curse => 10
    case _ => 0
  }

  function StartingSupply(kingdom: seq<Card>): map<Card, int> {
    map c | c in BASICS + kingdom :: if c in kingdom then 10 else BasicPile(c)
  }

  function Repeat(c: Card, n: nat): (r: seq<Card>)
    ensures |r| == n
    ensures forall d :: multiset(r)[d] == if d == c then n else 0
  {
    if n == 0 then [] else Repeat(c, n - 1) + [c]
  }

  function StartingDeck(): (r: seq<Card>)
    ensures |r| == 10
    ensures forall d :: multiset(r)[d] == if d == Copper then 7 else if d == Estate then 3 else 0
  {
    Repeat(Copper, 7) + Repeat(Estate, 3)
  }

  /** Two seats with a deck each, and the supply. */
  function Table(first: seq<Card>, second: seq<Card>, supply: map<Card, int>, seed: int, rng: seq<nat>): State {
    State([EMPTY_SEAT.(deck := first), EMPTY_SEAT.(deck := second)], 0, 0, ActionPhase, supply, [], 1, false, [], None, 0,
          [], seed, rng, [])
  }

  /** Both decks shuffled, nothing drawn yet. */
  function TableLaid(kingdom: seq<Card>, seed: int, rng: seq<nat>): State {
    var (first, rest) := Shuffle(StartingDeck(), rng);
    var (second, last) := Shuffle(StartingDeck(), rest);
    Table(first, second, StartingSupply(kingdom), seed, last)
  }

  /** Both hands drawn; the events of these draws are not reported. */
  function HandsDrawn(kingdom: seq<Card>, seed: int, rng: seq<nat>): State {
    DrawCards(DrawCards(TableLaid(kingdom, seed, rng), 0, 5), 1, 5)
  }

  /** A random seat starts with one action and one buy. */
  function FirstTurn(s: State): State {
    var (first, rest) := NextBelow(s.rng, 2);
    s.With(first, s.P(first).(actions := 1, buys := 1, coins := 0))
     .(current := first, starting := first, rng := rest, log := [])
  }

  /** `None` if there are not two players or the kingdom will not do. */
  function NewGame(players: nat, kingdom: seq<Card>, seed: int, rng: seq<nat>): Option<State> {
    if players != 2 then None
    else
      var k := ResolveKingdom(kingdom);
      if !k.Chosen? then None else Some(FirstTurn(HandsDrawn(k.cards, seed, rng)))
  }

  // ----- What it establishes -----

  /** A seat before its first turn: it owns a starting deck, half of it in hand. */
  predicate Opening(p: PlayerState) {
    && p == EMPTY_SEAT.(hand := p.hand, deck := p.deck)
    && |p.hand| == 5 && |p.deck| == 5
    && multiset(p.hand) + multiset(p.deck) == multiset(StartingDeck())
  }

  lemma OpeningDraw(s: State, px: nat)
    requires px < |s.players| && s.P(px) == EMPTY_SEAT.(deck := s.P(px).deck)
    requires multiset(s.P(px).deck) == multiset(StartingDeck()) && |s.P(px).deck| == 10
    ensures Opening(DrawCards(s, px, 5).P(px))
  {
    hide DrawCards, TopDown, StartingDeck, Opening;
    var p := s.P(px);
    DrawnSeat(s, px, 5);
    TopDownSplit(p.deck, 5);
    assert p.hand + TopDown(p.deck, 5) == TopDown(p.deck, 5);
    OpeningFrom(p.deck, DrawCards(s, px, 5).P(px));
  }

  lemma OpeningFrom(deck: seq<Card>, q: PlayerState)
    requires |deck| == 10 && multiset(deck) == multiset(StartingDeck())
    requires q == EMPTY_SEAT.(hand := TopDown(deck, 5), deck := deck[..5])
    requires multiset(deck) == multiset(deck[..5]) + multiset(TopDown(deck, 5))
    ensures Opening(q)
  {
    hide StartingDeck;
    assert multiset(q.hand) + multiset(q.deck) == multiset(q.deck) + multiset(q.hand);
  }

  /** One shuffled starting deck in front of each seat. */
  lemma TableDecks(kingdom: seq<Card>, seed: int, rng: seq<nat>, px: nat)
    requires px < 2
    ensures var s := TableLaid(kingdom, seed, rng);
            && |s.players| == 2 && s.P(px) == EMPTY_SEAT.(deck := s.P(px).deck)
            && multiset(s.P(px).deck) == multiset(StartingDeck()) && |s.P(px).deck| == 10
  {
    hide StartingDeck, Shuffle, StartingSupply;
  }

  lemma HandsAre(kingdom: seq<Card>, seed: int, rng: seq<nat>)
    ensures var s, s0 := HandsDrawn(kingdom, seed, rng), TableLaid(kingdom, seed, rng);
            && |s.players| == 2 && Opening(s.P(0)) && Opening(s.P(1))
            && s == s0.(players := s.players, rng := s.rng, log := s.log)
            && (forall c :: Count(s, c) == Count(s0, c))
  {
    hide DrawCards, TableLaid, Opening, Count, StartingDeck;
    var s0 := TableLaid(kingdom, seed, rng);
    var s1 := DrawCards(s0, 0, 5);
    TableDecks(kingdom, seed, rng, 0);
    TableDecks(kingdom, seed, rng, 1);
    DrawCardsSeat(s0, 0, 5);
    DrawCardsSeat(s1, 1, 5);
    OpeningDraw(s0, 0);
    OpeningDraw(s1, 1);
    DrawConserves(s0, 0, 5);
    DrawConserves(s1, 1, 5);
  }

  /** Copies of each card in the whole game. */
  function StartingCount(c: Card, kingdom: seq<Card>): nat {
    match c
    case Copper => 60
    case Silver => 40
    case Gold => 30
    case Estate => 14
    case Duchy | Province => 8
    case Curse => 10
    case _ => if c in kingdom then 10 else 0
  }

  lemma HeldByTwo(players: seq<PlayerState>, c: Card)
    requires |players| == 2
    ensures Held(players, c) == Copies(players[0], c) + Copies(players[1], c)
  {
    hide Copies;
    assert Held([], c) == 0;
    hide Held;
    HeldSnoc([], players[0], c);
    HeldSnoc([players[0]], players[1], c);
    assert players == [players[0]] + [players[1]] && [] + [players[0]] == [players[0]];
  }

  lemma DeckOnly(p: PlayerState, c: Card)
    requires p == EMPTY_SEAT.(deck := p.deck)
    ensures Copies(p, c) == multiset(p.deck)[c]
  {
  }

  lemma DeckCopies(p: PlayerState, c: Card)
    requires p == EMPTY_SEAT.(deck := p.deck) && multiset(p.deck) == multiset(StartingDeck())
    ensures Copies(p, c) == if c == Copper then 7 else if c == Estate then 3 else 0
  {
    DeckOnly(p, c);
    hide Copies;
  }

  lemma TableHeld(kingdom: seq<Card>, seed: int, rng: seq<nat>, c: Card)
    ensures Held(TableLaid(kingdom, seed, rng).players, c) == 2 * (if c == Copper then 7 else if c == Estate then 3 else 0)
  {
    hide Held, Copies, TableLaid, StartingDeck;
    var s := TableLaid(kingdom, seed, rng);
    TableDecks(kingdom, seed, rng, 0);
    TableDecks(kingdom, seed, rng, 1);
    HeldByTwo(s.players, c);
    DeckCopies(s.players[0], c);
    DeckCopies(s.players[1], c);
  }

  lemma TableSupply(kingdom: seq<Card>, seed: int, rng: seq<nat>)
    ensures var s := TableLaid(kingdom, seed, rng);
            s.trash == [] && s.supply == StartingSupply(kingdom) && s.seed == seed
  {
    hide StartingDeck, Shuffle, StartingSupply;
  }

  lemma TableCount(kingdom: seq<Card>, seed: int, rng: seq<nat>, c: Card)
    requires forall k :: k in kingdom ==> IsKingdom(k)
    ensures Count(TableLaid(kingdom, seed, rng), c) == StartingCount(c, kingdom)
  {
    hide Held, Copies, TableLaid, IsKingdom, StartingSupply, BasicPile, StartingDeck, StartingCount;
    TableSupply(kingdom, seed, rng);
    TableHeld(kingdom, seed, rng, c);
    SupplyCount(kingdom, c);
    DeckAndPile(kingdom, c, if c == Copper then 7 else if c == Estate then 3 else 0);
  }

  lemma DeckAndPile(kingdom: seq<Card>, c: Card, n: nat)
    requires n == if c == Copper then 7 else if c == Estate then 3 else 0
    requires c in kingdom ==> IsKingdom(c)
    ensures 2 * n + (if c in kingdom then 10 else BasicPile(c)) == StartingCount(c, kingdom)
  {
  }

  lemma SupplyCount(kingdom: seq<Card>, c: Card)
    requires forall k :: k in kingdom ==> IsKingdom(k)
    ensures var supply := StartingSupply(kingdom);
            (if c in supply then supply[c] else 0) == (if c in kingdom then 10 else BasicPile(c))
  {
    var b := BASICS;
    assert b[0] == Copper && b[1] == Silver && b[2] == Gold && b[3] == Estate && b[4] == Duchy && b[5] == Province &&
           b[6] == Curse;
    assert c !in b ==> BasicPile(c) == 0;
  }

  lemma FirstTurnCount(s: State, c: Card)
    requires |s.players| == 2
    ensures Count(FirstTurn(s), c) == Count(s, c)
  {
    var first := NextBelow(s.rng, 2).0;
    var q := s.P(first).(actions := 1, buys := 1, coins := 0);
    HeldUpdate(s.players, first, q, c);
    assert Copies(q, c) == Copies(s.players[first], c);
    hide Copies, Held, NextBelow;
  }

  /** Every card's number of copies: 60 Copper, 40 Silver, 30 Gold, 14 Estate, 8 Duchy, 8 Province, 10 Curse, 10 of each
      kingdom card, and none of anything else. */
  lemma NewGameCounts(kingdom: seq<Card>, seed: int, rng: seq<nat>, c: Card)
    requires NewGame(2, kingdom, seed, rng).Some?
    ensures Count(NewGame(2, kingdom, seed, rng).value, c) == StartingCount(c, ResolveKingdom(kingdom).cards)
  {
    hide Count, HandsDrawn, FirstTurn, IsKingdom, ResolveKingdom, StartingCount;
    KingdomIs(kingdom);
    var k := ResolveKingdom(kingdom).cards;
    HandsAre(k, seed, rng);
    TableCount(k, seed, rng, c);
    FirstTurnCount(HandsDrawn(k, seed, rng), c);
  }

  /** Half of a starting deck is in hand; the player who begins has one action and one buy. */
  predicate SeatDealt(p: PlayerState, begins: bool) {
    var n := if begins then 1 else 0;
    && p == EMPTY_SEAT.(hand := p.hand, deck := p.deck, actions := n, buys := n)
    && |p.hand| == 5 && |p.deck| == 5 && multiset(p.hand) + multiset(p.deck) == multiset(StartingDeck())
  }

  lemma FirstTurnSeats(s: State)
    requires |s.players| == 2 && Opening(s.P(0)) && Opening(s.P(1))
    ensures var t := FirstTurn(s);
            && Seated(t) && |t.players| == 2 && t.current == t.starting < 2
            && t == s.(players := t.players, current := t.current, starting := t.starting, rng := t.rng, log := [])
            && t.P(t.current).setAside == []
            && (var p := t.P(t.current); p.coins == 0 && p.charges == 0 && !p.firstSilver)
            && (forall i :: 0 <= i < 2 ==> SeatDealt(t.P(i), i == t.current))
  {
    hide NextBelow, StartingDeck;
  }

  /** A new game satisfies the invariant and owes nothing to anybody: every law of runs holds from here on. */
  lemma NewGameEstablishes(kingdom: seq<Card>, seed: int, rng: seq<nat>)
    requires NewGame(2, kingdom, seed, rng).Some?
    ensures var s := NewGame(2, kingdom, seed, rng).value;
            && Inv(s) && |s.players| == 2 && !s.ended
            && Tidy(s) && Books(s, NEW_TURN) && OnTurn(s, 0) && Decided(s)
            && s.phase == ActionPhase && s.turn == 1 && s.trash == [] && s.pending.None? && s.plays == []
            && (forall i :: 0 <= i < 2 ==> SeatDealt(s.P(i), i == s.current))
  {
    hide Count, NewGame, ResolveKingdom, HandsDrawn, FirstTurn, Opening, Books, Tidy, OnTurn, Seated, Stocked, NoUnknown,
      TableLaid, Decided, AskedOk;
    NewGameKnown(kingdom, seed, rng);
    var s := NewGame(2, kingdom, seed, rng).value;
    var k := ResolveKingdom(kingdom).cards;
    var s0 := HandsDrawn(k, seed, rng);
    HandsAre(k, seed, rng);
    IsFirstTurn(kingdom, seed, rng);
    FirstTurnSeats(s0);
    TableStocked(k, seed, rng);
    SameStock(TableLaid(k, seed, rng), s);
    FreshBooks(s);
    FreshTidy(s);
    FreshTurn(s);
    NotAsked(s);
    FreshDecided(s);
  }

  lemma SameStock(s: State, t: State)
    requires Stocked(s) && t.supply == s.supply
    ensures Stocked(t)
  {
  }

  lemma FreshDecided(s: State)
    requires !s.ended
    ensures Decided(s)
  {
  }

  lemma NewGameKnown(kingdom: seq<Card>, seed: int, rng: seq<nat>)
    requires NewGame(2, kingdom, seed, rng).Some?
    ensures ResolveKingdom(kingdom).Chosen? && NoUnknown(NewGame(2, kingdom, seed, rng).value)
  {
    var s := NewGame(2, kingdom, seed, rng).value;
    var k := ResolveKingdom(kingdom);
    assert k.Chosen? by { hide HandsDrawn, FirstTurn, ResolveKingdom; }
    hide Count, NewGame, ResolveKingdom, IsKingdom;
    KingdomIs(kingdom);
    KnownKingdom(k.cards);
    forall c: Card | c.Unknown? ensures Count(s, c) == 0 { NewGameCounts(kingdom, seed, rng, c); }
  }

  lemma IsFirstTurn(kingdom: seq<Card>, seed: int, rng: seq<nat>)
    requires NewGame(2, kingdom, seed, rng).Some?
    ensures NewGame(2, kingdom, seed, rng).value == FirstTurn(HandsDrawn(ResolveKingdom(kingdom).cards, seed, rng))
  {
    hide FirstTurn, HandsDrawn, ResolveKingdom;
  }

  lemma KnownKingdom(cards: seq<Card>)
    requires forall c :: c in cards ==> IsKingdom(c)
    ensures forall c: Card :: c.Unknown? ==> StartingCount(c, cards) == 0
  {
    assert forall c: Card :: c.Unknown? ==> !IsKingdom(c);
  }

  lemma TableStocked(kingdom: seq<Card>, seed: int, rng: seq<nat>)
    ensures Stocked(TableLaid(kingdom, seed, rng)) && TableLaid(kingdom, seed, rng).phase == ActionPhase
    ensures var s := TableLaid(kingdom, seed, rng);
            s.plays == [] && s.pending.None? && s.turn == 1 && !s.ended && s.trash == []
  {
  }

  lemma FreshTidy(s: State)
    requires s.plays == [] && s.P(s.current).setAside == []
    ensures Tidy(s)
  {
  }

  lemma FreshTurn(s: State)
    requires |s.players| == 2 && s.current == s.starting < 2 && s.turn == 1
    ensures OnTurn(s, 0)
  {
  }

  // ----- From a new game on -----

  /** A game is refused exactly if there are not two players or some requested card is not a kingdom card. */
  lemma RefusedGames(players: nat, kingdom: seq<Card>, seed: int, rng: seq<nat>)
    ensures NewGame(players, kingdom, seed, rng).Some? <==> players == 2 && forall c :: c in kingdom ==> IsKingdom(c)
  {
    hide ResolveKingdom, IsKingdom, HandsDrawn, FirstTurn;
    KingdomIs(kingdom);
  }

  /** Conservation over a whole game: after any actions, accepted or rejected, the copies of every card are those of the
      box. */
  lemma GameConserves(kingdom: seq<Card>, seed: int, rng: seq<nat>, acts: seq<Action>, c: Card)
    requires NewGame(2, kingdom, seed, rng).Some?
    ensures NewGame(2, kingdom, seed, rng).value.players != []
    ensures Count(Run(NewGame(2, kingdom, seed, rng).value, acts), c) == StartingCount(c, ResolveKingdom(kingdom).cards)
  {
    hide NewGame, ResolveKingdom, Count, Inv, Run, StartingCount;
    NewGameEstablishes(kingdom, seed, rng);
    NewGameCounts(kingdom, seed, rng, c);
    CardsConserved(NewGame(2, kingdom, seed, rng).value, acts, c);
  }

  lemma OpeningCards(p: PlayerState, c: Card)
    requires Opening(p) && c in p.hand
    ensures c == Copper || c == Estate
  {
    MultisetMember(p.hand, c);
    hide StartingDeck;
    assert multiset(StartingDeck())[c] == multiset(p.hand)[c] + multiset(p.deck)[c];
  }

  lemma FirstSeat(s: State)
    requires |s.players| == 2 && Opening(s.P(0)) && Opening(s.P(1))
    ensures var t := FirstTurn(s);
            t.P(t.current).actions == 1 && forall c :: c in t.P(t.current).hand ==> c == Copper || c == Estate
  {
    forall i, c | 0 <= i < 2 && c in s.P(i).hand ensures c == Copper || c == Estate { OpeningCards(s.P(i), c); }
    hide NextBelow, Opening;
  }

  lemma OpeningTurn(kingdom: seq<Card>, seed: int, rng: seq<nat>)
    requires NewGame(2, kingdom, seed, rng).Some?
    ensures var s := NewGame(2, kingdom, seed, rng).value;
            && s.current < |s.players| && s.phase == ActionPhase && s.pending.None? && !s.ended
            && s.P(s.current).actions == 1
            && (forall c :: c in s.P(s.current).hand ==> c == Copper || c == Estate)
  {
    hide NewGame, ResolveKingdom, HandsDrawn, FirstTurn, Opening, TableLaid, Count, Inv;
    NewGameKnown(kingdom, seed, rng);
    var k := ResolveKingdom(kingdom).cards;
    HandsAre(k, seed, rng);
    IsFirstTurn(kingdom, seed, rng);
    FirstTurnSeats(HandsDrawn(k, seed, rng));
    FirstSeat(HandsDrawn(k, seed, rng));
    TableStocked(k, seed, rng);
  }

  /** The first action of every new game can be rejected and still change the state: playing an Action, which nobody
      holds yet, costs the turn's only action point. */
  lemma RejectedButChanged(kingdom: seq<Card>, seed: int, rng: seq<nat>, c: Card)
    requires NewGame(2, kingdom, seed, rng).Some? && IsAction(c)
    ensures var s := NewGame(2, kingdom, seed, rng).value;
            s.players != [] &&
            var r := Apply(s, PlayCard(s.current, c));
            r.error == Some(CardNotInHand) && s.P(s.current).actions == 1 && r.state.P(s.current).actions == 0
  {
    hide NewGame, Apply, SpendAction, LosesAction, IsAction;
    OpeningTurn(kingdom, seed, rng);
    OpeningLoses(NewGame(2, kingdom, seed, rng).value, c);
    MissingAction(NewGame(2, kingdom, seed, rng).value, c);
  }

  lemma OpeningLoses(s: State, c: Card)
    requires s.phase == ActionPhase && s.pending.None? && !s.ended && s.P(s.current).actions == 1 && IsAction(c)
    requires forall d :: d in s.P(s.current).hand ==> d == Copper || d == Estate
    ensures LosesAction(s, PlayCard(s.current, c))
  {
  }
}
