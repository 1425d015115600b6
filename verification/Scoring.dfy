/** Final scores depend only on what each player owns, and the winners are exactly the best. */
module Scoring {
  import opened Cards
  import opened States
  import opened Engine
  import opened Census
  import opened Frames
  import opened Runs

  /** Everything a player owns, wherever it lies. */
  function Owned(p: PlayerState): multiset<Card> {
    multiset(p.hand) + multiset(p.deck) + multiset(p.discard) + multiset(p.inPlay) + multiset(p.setAside)
  }

  /** The value of a collection of cards: fixed points, and one point per ten cards for each Gardens. */
  function Score(owned: multiset<Card>): int {
    owned[Estate] + 3 * owned[Duchy] + 6 * owned[Province] - owned[Curse] + owned[Gardens] * (|owned| / 10)
  }

  /** The same for one zone, with the value `g` of a Gardens given. */
  function ZoneValue(zone: multiset<Card>, g: int): int {
    zone[Estate] + 3 * zone[Duchy] + 6 * zone[Province] - zone[Curse] + zone[Gardens] * g
  }

  lemma ZoneValueSum(a: multiset<Card>, b: multiset<Card>, g: int)
    ensures ZoneValue(a + b, g) == ZoneValue(a, g) + ZoneValue(b, g)
  {
    assert (a[Gardens] + b[Gardens]) * g == a[Gardens] * g + b[Gardens] * g;
  }

  lemma ZoneValueOne(c: Card, owned: nat)
    ensures ZoneValue(multiset{c}, owned / 10) == VictoryPoints(c, owned)
  {
  }

  lemma {:induction false} ZoneScoreIs(cards: seq<Card>, owned: nat)
    ensures ZoneScore(cards, owned) == ZoneValue(multiset(cards), owned / 10)
  {
    if cards != [] {
      var k := |cards| - 1;
      ZoneScoreIs(cards[..k], owned);
      ZoneValueOne(cards[k], owned);
      ZoneValueSum(multiset(cards[..k]), multiset{cards[k]}, owned / 10);
      assert cards == cards[..k] + [cards[k]];
      hide ZoneValue;
    }
  }

  lemma OwnedSize(p: PlayerState)
    ensures |Owned(p)| == OwnedCount(p)
  {
  }

  /** The computed score leaves out exactly what the set-aside cards are worth. */
  lemma ScoreMissesAside(p: PlayerState)
    ensures ComputeScore(p) + ZoneScore(p.setAside, OwnedCount(p)) == Score(Owned(p))
  {
    var n := OwnedCount(p);
    var g := n / 10;
    OwnedSize(p);
    ZoneScoreIs(p.hand, n);
    ZoneScoreIs(p.deck, n);
    ZoneScoreIs(p.discard, n);
    ZoneScoreIs(p.inPlay, n);
    ZoneScoreIs(p.setAside, n);
    var a, b, c, d, e := multiset(p.hand), multiset(p.deck), multiset(p.discard), multiset(p.inPlay), multiset(p.setAside);
    assert Score(Owned(p)) == ZoneValue(Owned(p), g);
    hide ZoneValue, Score, ZoneScore, OwnedCount;
    ZoneValueSum(a, b, g);
    ZoneValueSum(a + b, c, g);
    ZoneValueSum(a + b + c, d, g);
    ZoneValueSum(a + b + c + d, e, g);
  }

  /** The computed score is the value of everything owned if and only if the set-aside cards are worth nothing in
      sum. */
  lemma ScoreIsOwned(p: PlayerState)
    ensures ComputeScore(p) == Score(Owned(p)) <==> ZoneScore(p.setAside, OwnedCount(p)) == 0
    ensures p.setAside == [] ==> ComputeScore(p) == Score(Owned(p))
  {
    ScoreMissesAside(p);
    hide ComputeScore, Score, Owned;
  }

  /** With nothing set aside, the score does not depend on where the cards lie or in which order. */
  lemma ScoreInvariant(p: PlayerState, q: PlayerState)
    requires p.setAside == [] && q.setAside == []
    requires forall c :: Copies(p, c) == Copies(q, c)
    ensures ComputeScore(p) == ComputeScore(q)
  {
    ScoreIsOwned(p);
    ScoreIsOwned(q);
    hide ComputeScore, Score;
    forall c ensures Owned(p)[c] == Copies(p, c) && Owned(q)[c] == Copies(q, c) {}
    assert Owned(p) == Owned(q);
  }

  // ----- The winners -----

  /** `w` lists, in increasing order, exactly the places of the greatest values. */
  ghost predicate BestOf(w: seq<nat>, values: seq<int>) {
    && (forall i: nat :: i in w <==> i < |values| && forall j :: 0 <= j < |values| ==> values[j] <= values[i])
    && (forall i, j :: 0 <= i < j < |w| ==> w[i] < w[j])
  }

  /** What each player's cards are worth. */
  function Values(players: seq<PlayerState>): seq<int> {
    seq(|players|, i requires 0 <= i < |players| => Score(Owned(players[i])))
  }

  /** The winners are exactly the seats whose cards are worth most, in seat order. */
  ghost predicate WinnersRight(s: State) {
    BestOf(s.winners, Values(s.players))
  }

  lemma BestAre(scores: seq<int>)
    requires scores != []
    ensures BestOf(DetermineWinners(scores), scores)
  {
    hide MaxOf, IndicesOf;
    var best := MaxOf(scores);
    var k :| 0 <= k < |scores| && scores[k] == best;
  }

  /** The invariant at the end of the game: nobody has cards set aside, and the winners are right. */
  ghost predicate Decided(s: State) {
    s.ended ==> (forall i :: 0 <= i < |s.players| ==> s.players[i].setAside == []) && WinnersRight(s)
  }

  lemma ScoresAreValues(players: seq<PlayerState>)
    requires forall i :: 0 <= i < |players| ==> players[i].setAside == []
    ensures Scores(players) == Values(players)
  {
    hide Score, Owned, ComputeScore;
    forall i | 0 <= i < |players| ensures ComputeScore(players[i]) == Score(Owned(players[i])) {
      ScoreIsOwned(players[i]);
    }
  }

  lemma WinnersOfScores(s: State)
    requires s.players != [] && s.winners == DetermineWinners(Scores(s.players))
    requires forall i :: 0 <= i < |s.players| ==> s.players[i].setAside == []
    ensures WinnersRight(s)
  {
    ScoresAreValues(s.players);
    hide Values, DetermineWinners, Scores, BestOf;
    BestAre(Scores(s.players));
  }

  lemma EndBuyDecides(s: State)
    requires Inv(s) && !s.ended && s.pending.None? && s.phase == BuyPhase
    ensures s.players != [] && Decided(ApplyEndPhase(s).state)
  {
    var t, u := CleanupAndEndTurn(s), ApplyEndPhase(s).state;
    NoCleanup(s);
    assert u.ended ==> u.winners == DetermineWinners(Scores(u.players)) && u.players == t.players by {
      PassedCleanly(s);
      hide CleanupAndEndTurn, DetermineWinners, Scores, IsGameOver;
    }
    CleanupPasses(s);
    hide CleanupAndEndTurn, DetermineWinners, Scores, ApplyEndPhase, WinnersRight, TurnPassed, Inv;
    TurnPassedInv(s, t);
    if u.ended { WinnersOfScores(u); }
  }

  lemma DecidedStep(s: State, act: Action)
    requires Inv(s) && s.players != [] && Decided(s)
    ensures Decided(Apply(s, act).state)
  {
    hide Conserved, SupplyShrinks, Inv, WinnersRight, ApplyPlayCard, ApplyBuyCard, ApplyEndPhase, ApplyResolveDecision;
    if !s.ended && EndsTurn(s, act) {
      EndBuyDecides(s);
      hide Decided;
    } else {
      ApplyInv(s, act);
    }
  }

  /** Over every run: when the game has ended, nothing is set aside anywhere, so each computed score is the value of all
      the player owns, and the winners are exactly the seats of greatest value. */
  lemma {:induction false} WinnersOverRun(s: State, acts: seq<Action>)
    requires Inv(s) && s.players != [] && Decided(s)
    ensures Decided(Run(s, acts))
    decreases |acts|
  {
    hide Apply, Inv, Decided;
    if acts != [] {
      ApplyInv(s, acts[0]);
      DecidedStep(s, acts[0]);
      WinnersOverRun(Apply(s, acts[0]).state, acts[1..]);
    }
  }
}
