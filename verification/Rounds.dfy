/** Council Room and Witch, which reach every other seat in turn order. */
module Rounds {
  import opened Cards
  import opened States
  import opened Zones
  import opened Primitives
  import opened Effects
  import opened Engine
  import opened Frames
  import opened Invariants
  import opened Plays
  import opened Runs
  import opened Drawing
  import opened Exchanges
  import opened Victims
  import opened Sentries
  import opened Chains
  import opened Attacks
  import opened Moves
  import opened Rules
  import opened Entries
  import opened Outcomes

  // ----- The other seats in turn order -----

  /** The seat `d` places after `px`. */
  function Seat(s: State, px: nat, d: nat): nat
    requires s.players != []
  {
    (px + d) % |s.players|
  }

  lemma SeatAt(s: State, px: nat, d: nat)
    requires px < |s.players| && d < |s.players|
    ensures Seat(s, px, d) == if px + d < |s.players| then px + d else px + d - |s.players|
  {
    var n := |s.players|;
    if px + d >= n { ModSub(px + d, n); } else { SmallMod(px + d, n); }
  }

  lemma SeatsApart(s: State, px: nat, a: nat, b: nat)
    requires px < |s.players| && a < b < |s.players|
    ensures Seat(s, px, a) != Seat(s, px, b) && Seat(s, px, b) < |s.players|
  {
    SeatAt(s, px, a);
    SeatAt(s, px, b);
    hide Seat;
  }

  // ----- Council Room -----

  /** The table after the first `d` opponents in turn order have drawn a card each. */
  function Round(s: State, px: nat, d: nat): (t: State)
    requires s.players != []
    ensures |t.players| == |s.players|
    decreases d
  {
    if d == 0 then s else DrawCards(Round(s, px, d - 1), Seat(s, px, d), 1)
  }

  lemma OthersSize(s: State, px: nat)
    requires s.players != []
    ensures |Others(|s.players|, px)| == |s.players| - 1
  {
  }

  lemma OthersFrom(s: State, px: nat, d: nat)
    requires s.players != [] && d < |s.players| - 1
    ensures var seats := Others(|s.players|, px); seats[d..] == [Seat(s, px, d + 1)] + seats[d + 1..]
  {
    assert |Others(|s.players|, px)| == |s.players| - 1 && Others(|s.players|, px)[d] == Seat(s, px, d + 1);
    hide Others, Seat;
  }

  lemma DrawEachFirst(s: State, v: nat, rest: seq<nat>)
    ensures DrawEach(s, [v] + rest) == DrawEach(DrawCards(s, v, 1), rest)
  {
    assert ([v] + rest)[1..] == rest;
    hide DrawCards;
  }

  lemma DrawEachNone(s: State)
    ensures DrawEach(s, []) == s
  {
  }

  /** The code's walk over the other seats is that round. */
  lemma {:induction false} RoundIs(s: State, px: nat, d: nat)
    requires s.players != [] && d < |s.players|
    ensures DrawEach(Round(s, px, d), Others(|s.players|, px)[d..]) == Round(s, px, |s.players| - 1)
    decreases |s.players| - d
  {
    hide *;
    var seats := Others(|s.players|, px);
    OthersSize(s, px);
    if d < |s.players| - 1 {
      OthersFrom(s, px, d);
      DrawEachFirst(Round(s, px, d), Seat(s, px, d + 1), seats[d + 1..]);
      RoundStep(s, px, d + 1);
      RoundIs(s, px, d + 1);
    } else {
      assert seats[d..] == [];
      DrawEachNone(Round(s, px, d));
    }
  }

  /** Each seat draws once, at its place in the round. */
  lemma {:induction false} RoundKeeps(s: State, px: nat, d: nat, e: nat, i: nat)
    requires s.players != [] && d <= e
    requires forall k :: d < k <= e ==> Seat(s, px, k) != i
    ensures Round(s, px, e).P(i) == Round(s, px, d).P(i)
    decreases e
  {
    hide Seat, Round;
    if d < e {
      RoundKeeps(s, px, d, e - 1, i);
      RoundStep(s, px, e);
      DrawElsewhere(Round(s, px, e - 1), Seat(s, px, e), 1, i);
    }
  }

  lemma RoundStep(s: State, px: nat, d: nat)
    requires s.players != [] && d > 0
    ensures Seat(s, px, d) < |s.players|
    ensures Round(s, px, d) == DrawCards(Round(s, px, d - 1), Seat(s, px, d), 1)
  {
    hide DrawCards;
  }

  lemma DrawElsewhere(s: State, v: nat, n: nat, i: nat)
    requires v < |s.players| && i != v
    ensures DrawCards(s, v, n).P(i) == s.P(i)
  {
    hide DrawCards;
    DrawCardsSeat(s, v, n);
  }

  lemma DrawTable(s: State, v: nat, n: nat)
    requires v < |s.players|
    ensures TableOnly(s, DrawCards(s, v, n))
  {
    hide DrawCards;
    DrawCardsSeat(s, v, n);
  }

  lemma TableTrans(s: State, t: State, u: State)
    requires TableOnly(s, t) && TableOnly(t, u)
    ensures TableOnly(s, u)
  {
  }

  lemma TableSelf(s: State)
    ensures TableOnly(s, s)
  {
  }

  lemma RoundStart(s: State, px: nat)
    requires s.players != []
    ensures Round(s, px, 0) == s
  {
  }

  lemma {:induction false} RoundTable(s: State, px: nat, d: nat)
    requires s.players != []
    ensures TableOnly(s, Round(s, px, d))
    decreases d
  {
    hide TableOnly, Round, Seat;
    if d == 0 {
      RoundStart(s, px);
      TableSelf(s);
    } else {
      RoundTable(s, px, d - 1);
      RoundStep(s, px, d);
      DrawTable(Round(s, px, d - 1), Seat(s, px, d), 1);
      TableTrans(s, Round(s, px, d - 1), Round(s, px, d));
    }
  }

  /** The table when the opponents begin to draw. */
  function Called(s: State, px: nat): (t: State)
    ensures |t.players| == |s.players| && t.pending == s.pending
  {
    AddBuys(DrawCards(s, px, 4), px, 1)
  }

  lemma CouncilRuns(s: State, px: nat, c: Card)
    requires s.players != [] && c == CouncilRoom
    ensures OnPlay(s, px, c) == Round(Called(s, px), px, |s.players| - 1)
  {
    var t := Called(s, px);
    CouncilUnfolds(s, px, c);
    hide Called, DrawEach, OnPlay;
    RoundIs(t, px, 0);
    RoundStart(t, px);
    hide Round;
    assert Others(|t.players|, px)[0..] == Others(|t.players|, px);
  }

  lemma CouncilUnfolds(s: State, px: nat, c: Card)
    requires s.players != [] && c == CouncilRoom
    ensures OnPlay(s, px, c) == DrawEach(Called(s, px), Others(|s.players|, px))
  {
    hide DrawCards, AddBuys, DrawEach, Others;
  }

  lemma CouncilGives(s: State, px: nat, c: Card)
    requires px < |s.players| && c == CouncilRoom
    ensures Gives(s, Called(s, px), px, 4, Printed(c))
  {
    hide Gives, DrawCards, AddBuys;
    GivesCards(s, px, 4);
    GivesBuys(s, DrawCards(s, px, 4), px, 4, NOTHING, 1);
  }

  /** The seat drew `n` cards and has otherwise stayed as it was. */
  predicate DrewOnly(s: State, t: State, px: nat, n: nat) {
    && Drew(s, t, px, n)
    && t.P(px) == s.P(px).(hand := t.P(px).hand, deck := t.P(px).deck, discard := t.P(px).discard)
  }

  lemma DrawsOnly(s: State, px: nat, n: nat)
    requires px < |s.players|
    ensures DrewOnly(s, DrawCards(s, px, n), px, n)
  {
    hide Drew, DrawCards;
    DrawsNext(s, px, n);
    DrawCardsSeat(s, px, n);
  }

  /** A draw seen from a later state in which the seat is the same. */
  lemma DrewLater(s: State, t: State, u: State, px: nat, n: nat)
    requires u.P(px) == t.P(px)
    ensures Drew(s, t, px, n) ==> Drew(s, u, px, n)
    ensures DrewOnly(s, t, px, n) ==> DrewOnly(s, u, px, n)
  {
    hide Coming, TopDown;
  }

  lemma NoSeatTwice(s: State, px: nat, d: nat, lo: nat, hi: nat)
    requires px < |s.players| && d < |s.players| && hi < |s.players| && (d <= lo || hi < d)
    ensures forall k :: lo < k <= hi ==> Seat(s, px, k) != Seat(s, px, d)
  {
    hide Seat;
    forall k | lo < k <= hi ensures Seat(s, px, k) != Seat(s, px, d) {
      if d <= lo { SeatsApart(s, px, d, k); } else { SeatsApart(s, px, k, d); }
    }
  }

  lemma SameSeats(s: State, t: State, px: nat)
    requires s.players != [] && |t.players| == |s.players|
    ensures forall k: nat :: Seat(t, px, k) == Seat(s, px, k)
  {
  }

  lemma OwnSeat(s: State, px: nat)
    requires px < |s.players|
    ensures Seat(s, px, 0) == px
  {
    SeatAt(s, px, 0);
  }

  /** Before and after its own draw a seat only watches. */
  lemma WatchesOthers(s: State, px: nat, d: nat)
    requires px < |s.players| && 0 < d < |s.players|
    ensures Round(s, px, d - 1).P(Seat(s, px, d)) == s.P(Seat(s, px, d))
    ensures Round(s, px, |s.players| - 1).P(Seat(s, px, d)) == Round(s, px, d).P(Seat(s, px, d))
  {
    hide *;
    NoSeatTwice(s, px, d, 0, d - 1);
    RoundKeeps(s, px, 0, d - 1, Seat(s, px, d));
    RoundStart(s, px);
    NoSeatTwice(s, px, d, d, |s.players| - 1);
    RoundKeeps(s, px, d, |s.players| - 1, Seat(s, px, d));
  }

  /** The opponent at distance `d` draws from the table as the opponents before it left it. */
  lemma DrawsInRound(s: State, px: nat, d: nat)
    requires px < |s.players| && 0 < d < |s.players|
    ensures var z, i := Round(s, px, d - 1), Seat(s, px, d);
            z.P(i) == s.P(i) && DrewOnly(z, Round(s, px, |s.players| - 1), i, 1)
  {
    var z, i := Round(s, px, d - 1), Seat(s, px, d);
    hide *;
    WatchesOthers(s, px, d);
    RoundStep(s, px, d);
    DrawsOnly(z, i, 1);
    DrewLater(z, DrawCards(z, i, 1), Round(s, px, |s.players| - 1), i, 1);
  }

  /** The caller has only what was drawn and given before the round. */
  lemma WatchesRound(s: State, px: nat)
    requires px < |s.players|
    ensures Round(s, px, |s.players| - 1).P(px) == s.P(px)
  {
    hide Seat, Round;
    OwnSeat(s, px);
    NoSeatTwice(s, px, 0, 0, |s.players| - 1);
    RoundKeeps(s, px, 0, |s.players| - 1, px);
    RoundStart(s, px);
  }

  lemma CouncilOwn(s: State, px: nat, c: Card)
    requires px < |s.players| && c == CouncilRoom
    ensures var t := OnPlay(s, px, c); TableOnly(s, t) && Drew(s, t, px, 4) && Yields(s.P(px), t.P(px), Printed(c))
  {
    var s1, t, n := Called(s, px), OnPlay(s, px, c), |s.players|;
    hide *;
    CouncilRuns(s, px, c);
    CouncilGives(s, px, c);
    GivesTable(s, s1, px, 4, Printed(c));
    RoundTable(s1, px, n - 1);
    TableTrans(s, s1, t);
    WatchesRound(s1, px);
    GivesSeat(s, s1, t, px, 4, Printed(c));
  }

  lemma GivesSeat(s: State, t: State, u: State, px: nat, n: nat, y: Yield)
    requires Gives(s, t, px, n, y) && u.P(px) == t.P(px)
    ensures Drew(s, u, px, n) && Yields(s.P(px), u.P(px), y)
  {
    hide Drew, Yields;
    DrewLater(s, t, u, px, n);
  }

  lemma CouncilOther(s: State, px: nat, c: Card, d: nat)
    requires px < |s.players| && c == CouncilRoom && 0 < d < |s.players|
    ensures var z, i := Round(Called(s, px), px, d - 1), Seat(s, px, d);
            z.P(i) == s.P(i) && DrewOnly(z, OnPlay(s, px, c), i, 1)
  {
    var s1 := Called(s, px);
    hide *;
    CouncilRuns(s, px, c);
    CouncilGives(s, px, c);
    GivesTable(s, s1, px, 4, Printed(c));
    SameSeats(s, s1, px);
    OwnSeat(s, px);
    SeatsApart(s, px, 0, d);
    DrawsInRound(s1, px, d);
  }

  /** Council Room played from the hand: its player draws four cards and gets a buy; every opponent draws exactly one, from
      the table as the opponents before it in turn order left it. */
  lemma CouncilRoomPlayed(s: State, d: nat)
    requires Playable(s, CouncilRoom) && 0 < d < |s.players|
    ensures s.players != []
    ensures var r, m, px := Apply(s, PlayCard(s.current, CouncilRoom)), Entered(s, CouncilRoom), s.current;
            var z, i := Round(Called(m, px), px, d - 1), Seat(s, px, d);
            && r.error.None? && TableOnly(m, r.state)
            && Drew(m, r.state, px, 4) && Yields(m.P(px), r.state.P(px), Printed(CouncilRoom))
            && z.P(i) == s.P(i) && DrewOnly(z, r.state, i, 1)
  {
    var m, px := Entered(s, CouncilRoom), s.current;
    PlayIs(s, CouncilRoom);
    EnteredFacts(s, CouncilRoom);
    hide Playable, Apply, OnPlay, Entered, Round, Seat, Drew, DrewOnly, Called, TableOnly, Yields, Printed;
    OwnSeat(s, px);
    SeatsApart(s, px, 0, d);
    SameSeats(s, m, px);
    CouncilOwn(m, px, CouncilRoom);
    CouncilOther(m, px, CouncilRoom, d);
  }

  // ----- Witch -----

  /** How many of the first `d` opponents in turn order hold no Moat. */
  function Bare(s: State, px: nat, d: nat): nat
    requires s.players != []
    decreases d
  {
    if d == 0 then 0 else Bare(s, px, d - 1) + (if Moat in s.P(Seat(s, px, d)).hand then 0 else 1)
  }

  lemma {:induction false} UnblockedPlus(s: State, a: seq<nat>, b: seq<nat>)
    ensures Unblocked(s, a + b) == Unblocked(s, a) + Unblocked(s, b)
    decreases |a|
  {
    if a == [] {
      assert a + b == b;
    } else {
      assert (a + b)[0] == a[0] && (a + b)[1..] == a[1..] + b;
      UnblockedPlus(s, a[1..], b);
    }
  }

  lemma UnblockedOne(s: State, v: nat)
    ensures Unblocked(s, [v]) == if Moat in s.P(v).hand then [] else [v]
  {
    assert Unblocked(s, [v][1..]) == [];
  }

  lemma OthersStep(s: State, px: nat, d: nat)
    requires s.players != [] && 0 < d < |s.players|
    ensures Others(|s.players|, px)[..d] == Others(|s.players|, px)[..d - 1] + [Seat(s, px, d)]
  {
    assert Others(|s.players|, px)[d - 1] == Seat(s, px, d);
    hide Others, Seat;
  }

  lemma {:induction false} UnblockedCount(s: State, px: nat, d: nat)
    requires s.players != [] && d < |s.players|
    ensures |Unblocked(s, Others(|s.players|, px)[..d])| == Bare(s, px, d)
    decreases d
  {
    var seats := Others(|s.players|, px);
    if d > 0 {
      UnblockedCount(s, px, d - 1);
      OthersStep(s, px, d);
      UnblockedPlus(s, seats[..d - 1], [Seat(s, px, d)]);
      UnblockedOne(s, Seat(s, px, d));
      hide Unblocked, Others, Seat;
    }
    hide Others, Seat;
  }

  /** The victims come in turn order: before one of them come as many as there are bare opponents nearer to `px`. */
  lemma BareAt(s: State, px: nat, d: nat)
    requires s.players != [] && 0 < d < |s.players| && Moat !in s.P(Seat(s, px, d)).hand
    ensures var victims := Unblocked(s, Others(|s.players|, px));
            Bare(s, px, d - 1) < |victims| && victims[Bare(s, px, d - 1)] == Seat(s, px, d)
  {
    var seats, v := Others(|s.players|, px), Seat(s, px, d);
    hide *;
    UnblockedCount(s, px, d - 1);
    OthersSize(s, px);
    OthersStep(s, px, d);
    UnblockedOne(s, v);
    UnblockedPlus(s, seats[..d - 1], [v]);
    UnblockedPlus(s, seats[..d], seats[d..]);
    assert seats == seats[..d] + seats[d..];
  }

  lemma BareAll(s: State, px: nat)
    requires s.players != []
    ensures |Unblocked(s, Others(|s.players|, px))| == Bare(s, px, |s.players| - 1)
  {
    hide Others;
    UnblockedCount(s, px, |s.players| - 1);
    assert Others(|s.players|, px)[..|s.players| - 1] == Others(|s.players|, px);
  }

  lemma {:induction false} BareSame(s: State, t: State, px: nat, d: nat)
    requires px < |s.players| == |t.players| && d < |s.players| && forall i: nat :: i != px ==> t.P(i).hand == s.P(i).hand
    ensures Bare(t, px, d) == Bare(s, px, d)
    decreases d
  {
    if d > 0 {
      BareSame(s, t, px, d - 1);
      SameSeats(s, t, px);
      OwnSeat(s, px);
      SeatsApart(s, px, 0, d);
      hide Seat;
    }
  }

  /** The supply after `k` players were to gain a Curse. */
  function LessCurses(s: State, k: nat): map<Card, int> {
    if s.Pile(Curse) <= 0 then s.supply else s.supply[Curse := s.Pile(Curse) - Min(k, s.Pile(Curse))]
  }

  lemma OneCurse(s: State, v: nat, k: nat)
    requires v < |s.players|
    ensures var t := GainCard(s, v, Curse, GainToDiscard);
            && |t.players| == |s.players|
            && t == s.(players := t.players, supply := t.supply, log := t.log) && LessCurses(t, k) == LessCurses(s, k + 1)
  {
    var t := GainCard(s, v, Curse, GainToDiscard);
    if s.Pile(Curse) > 0 {
      assert t.supply == s.supply[Curse := s.Pile(Curse) - 1];
      assert s.supply[Curse := s.Pile(Curse) - 1][Curse := t.Pile(Curse) - Min(k, t.Pile(Curse))] ==
             s.supply[Curse := t.Pile(Curse) - Min(k, t.Pile(Curse))];
    }
  }

  lemma {:induction false} CursesTable(s: State, seats: seq<nat>)
    requires forall v :: v in seats ==> v < |s.players|
    ensures var t := CurseEach(s, seats);
            && |t.players| == |s.players|
            && t == s.(players := t.players, supply := LessCurses(s, |seats|), log := t.log)
    decreases |seats|
  {
    if seats == [] {
      LessNone(s);
    } else {
      assert seats[0] in seats && forall v :: v in seats[1..] ==> v in seats;
      OneCurse(s, seats[0], |seats| - 1);
      hide GainCard, LessCurses;
      CursesTable(GainCard(s, seats[0], Curse, GainToDiscard), seats[1..]);
    }
  }

  lemma LessNone(s: State)
    ensures LessCurses(s, 0) == s.supply
  {
    if s.Pile(Curse) > 0 { assert s.supply[Curse := s.supply[Curse]] == s.supply; }
  }

  /** What Witch's player has drawn before the others are cursed. */
  function Brewed(s: State, px: nat): (t: State)
    ensures |t.players| == |s.players|
  {
    ResolveAttackVictims(DrawCards(s, px, 2), px, Witch).0
  }

  function Targets(s: State, px: nat): seq<nat> {
    Unblocked(s, Others(|s.players|, px))
  }

  lemma {:induction false} UnblockedSame(s: State, t: State, seats: seq<nat>)
    requires t.players == s.players
    ensures Unblocked(t, seats) == Unblocked(s, seats)
    decreases |seats|
  {
    if seats != [] { UnblockedSame(s, t, seats[1..]); }
  }

  lemma WitchRuns(s: State, px: nat, c: Card)
    requires c == Witch
    ensures OnPlay(s, px, c) == PlayWitch(s, px)
  {
    hide PlayWitch;
  }

  lemma WitchUnfolds(s: State, px: nat, c: Card)
    requires c == Witch
    ensures OnPlay(s, px, c) == CurseEach(Brewed(s, px), Targets(Brewed(s, px), px))
  {
    hide OnPlay, DrawCards, CurseEach, Others, Unblocked, ReactionsOfAll;
    WitchRuns(s, px, c);
    UnblockedSame(DrawCards(s, px, 2), Brewed(s, px), Others(|s.players|, px));
  }

  lemma BrewedIs(s: State, px: nat)
    requires px < |s.players|
    ensures var z := Brewed(s, px);
            && TableOnly(s, z) && DrewOnly(s, z, px, 2) && forall i: nat :: i != px ==> z.P(i) == s.P(i)
  {
    var s1 := DrawCards(s, px, 2);
    hide *;
    BrewedDraws(s, px);
    BrewedSeat(s, px, px);
    DrawTable(s, px, 2);
    DrawsOnly(s, px, 2);
    DrewLater(s, s1, Brewed(s, px), px, 2);
    LogOnly(s, s1, Brewed(s, px));
    forall i: nat | i != px ensures Brewed(s, px).P(i) == s.P(i) {
      DrawElsewhere(s, px, 2, i);
      BrewedSeat(s, px, i);
    }
  }

  lemma BrewedDraws(s: State, px: nat)
    ensures Brewed(s, px) == DrawCards(s, px, 2).(log := Brewed(s, px).log)
  {
    hide DrawCards, Others, Unblocked, ReactionsOfAll;
  }

  lemma BrewedSeat(s: State, px: nat, i: nat)
    ensures Brewed(s, px).P(i) == DrawCards(s, px, 2).P(i)
  {
    hide DrawCards, Others, Unblocked, ReactionsOfAll;
  }

  lemma LogOnly(s: State, t: State, u: State)
    requires TableOnly(s, t) && u == t.(log := u.log)
    ensures TableOnly(s, u)
  {
  }

  /** The targets are distinct opponents without a Moat, each at its place. */
  lemma TargetsAre(s: State, px: nat)
    requires px == s.current < |s.players|
    ensures Distinct(s, Targets(s, px)) && px !in Targets(s, px) && |Targets(s, px)| == Bare(s, px, |s.players| - 1)
    ensures forall v :: v in Targets(s, px) ==> v < |s.players| && Moat !in s.P(v).hand
  {
    OthersAreOpponents(s);
    UnblockedAre(s, Others(|s.players|, px));
    OpponentsDistinct(s, Targets(s, px));
    BareAll(s, px);
    hide Unblocked, Others, Bare;
  }

  lemma TargetAt(s: State, px: nat, d: nat)
    requires px == s.current < |s.players| && 0 < d < |s.players|
    ensures Moat in s.P(Seat(s, px, d)).hand ==> Seat(s, px, d) !in Targets(s, px)
    ensures Moat !in s.P(Seat(s, px, d)).hand ==>
              Bare(s, px, d - 1) < |Targets(s, px)| && Targets(s, px)[Bare(s, px, d - 1)] == Seat(s, px, d)
  {
    var targets := Targets(s, px);
    assert targets == Unblocked(s, Others(|s.players|, px)) && s.players != [];
    hide Targets, Seat, Bare, Unblocked, Others, Distinct;
    TargetsAre(s, px);
    if Moat !in s.P(Seat(s, px, d)).hand { BareAt(s, px, d); }
  }

  /** The Curse an opponent gets, if it shows no Moat and fewer bare opponents sit before it than the pile has cards. */
  function Hexed(s: State, px: nat, d: nat): PlayerState
    requires s.players != [] && d > 0
  {
    var p := s.P(Seat(s, px, d));
    if Moat in p.hand || Bare(s, px, d - 1) >= s.Pile(Curse) then p else p.(discard := p.discard + [Curse])
  }

  lemma HexedAt(s: State, px: nat, d: nat)
    requires px == s.current < |s.players| && 0 < d < |s.players| && s.Pile(Curse) >= 0
    ensures CurseEach(s, Targets(s, px)).P(Seat(s, px, d)) == Hexed(s, px, d)
  {
    var targets := Targets(s, px);
    hide Targets, CurseEach, Seat, Bare, Distinct;
    TargetsAre(s, px);
    TargetAt(s, px, d);
    CursesInOrder(s, targets, Bare(s, px, d - 1));
  }

  lemma HexedSame(s: State, t: State, px: nat, d: nat)
    requires px < |s.players| == |t.players| && 0 < d < |s.players| && t.Pile(Curse) == s.Pile(Curse)
    requires forall i: nat :: i != px ==> t.P(i) == s.P(i)
    ensures Hexed(t, px, d) == Hexed(s, px, d) && Seat(t, px, d) == Seat(s, px, d)
  {
    hide Seat, Bare;
    BareSame(s, t, px, d - 1);
    SameSeats(s, t, px);
    OwnSeat(s, px);
    SeatsApart(s, px, 0, d);
  }

  lemma TableFields(s: State, t: State)
    requires TableOnly(s, t)
    ensures |t.players| == |s.players| && t.current == s.current && t.supply == s.supply && t.Pile(Curse) == s.Pile(Curse)
    ensures t.trash == s.trash && t.pending == s.pending
  {
  }

  lemma LessSame(s: State, t: State, k: nat)
    requires t.supply == s.supply
    ensures LessCurses(t, k) == LessCurses(s, k)
  {
  }

  /** The opponents' part of a Witch. */
  lemma WitchOther(s: State, px: nat, c: Card, d: nat)
    requires px == s.current < |s.players| && c == Witch && 0 < d < |s.players| && s.Pile(Curse) >= 0
    ensures OnPlay(s, px, c).P(Seat(s, px, d)) == Hexed(s, px, d)
  {
    var z := Brewed(s, px);
    hide *;
    WitchUnfolds(s, px, c);
    BrewedIs(s, px);
    TableFields(s, z);
    HexedSame(s, z, px, d);
    HexedAt(z, px, d);
  }

  /** The rest of the table. */
  lemma WitchOwn(s: State, px: nat, c: Card)
    requires px == s.current < |s.players| && c == Witch && s.Pile(Curse) >= 0
    ensures var t := OnPlay(s, px, c);
            && DrewOnly(s, t, px, 2) && |t.players| == |s.players|
            && t == s.(players := t.players, rng := t.rng, log := t.log,
                       supply := LessCurses(s, Bare(s, px, |s.players| - 1)))
  {
    var z := Brewed(s, px);
    hide *;
    WitchUnfolds(s, px, c);
    BrewedIs(s, px);
    TableFields(s, z);
    TargetsAre(z, px);
    CursesTable(z, Targets(z, px));
    BareSame(s, z, px, |s.players| - 1);
    LessSame(s, z, Bare(s, px, |s.players| - 1));
    CursesInOrder(z, Targets(z, px), 0);
    DrewLater(s, z, OnPlay(s, px, c), px, 2);
    TableThen(s, z, OnPlay(s, px, c), LessCurses(s, Bare(s, px, |s.players| - 1)));
  }

  lemma TableThen(s: State, z: State, t: State, supply: map<Card, int>)
    requires TableOnly(s, z) && |t.players| == |z.players| && t == z.(players := t.players, supply := supply, log := t.log)
    ensures |t.players| == |s.players| && t == s.(players := t.players, rng := t.rng, log := t.log, supply := supply)
  {
  }

  lemma CursesStocked(s: State, c: Card)
    requires Playable(s, c)
    ensures s.Pile(Curse) >= 0
  {
  }

  lemma WitchTable(s: State, c: Card)
    requires c == Witch && Playable(s, c)
    ensures s.players != []
    ensures var m, px := Entered(s, c), s.current;
            var t := OnPlay(m, px, c);
            && DrewOnly(m, t, px, 2) && |t.players| == |s.players|
            && t == m.(players := t.players, rng := t.rng, log := t.log,
                       supply := LessCurses(s, Bare(s, px, |s.players| - 1)))
  {
    var m, px := Entered(s, c), s.current;
    hide *;
    EnteredFacts(s, c);
    EnteredTable(s, c);
    CursesStocked(s, c);
    BareSame(s, m, px, |s.players| - 1);
    LessSame(s, m, Bare(s, px, |s.players| - 1));
    WitchOwn(m, px, c);
  }

  lemma WitchHexes(s: State, c: Card, d: nat)
    requires c == Witch && Playable(s, c) && 0 < d < |s.players|
    ensures OnPlay(Entered(s, c), s.current, c).P(Seat(s, s.current, d)) == Hexed(s, s.current, d)
  {
    var m, px := Entered(s, c), s.current;
    hide *;
    EnteredFacts(s, c);
    EnteredTable(s, c);
    CursesStocked(s, c);
    HexedSame(s, m, px, d);
    WitchOther(m, px, c, d);
  }

  /** Witch played from the hand: its player draws two cards; a Moat holder keeps its seat as it is; the opponents without
      a Moat get one Curse each in turn order for as long as the pile lasts, and it falls by that many. */
  lemma WitchPlayed(s: State, d: nat)
    requires Playable(s, Witch) && 0 < d < |s.players|
    ensures s.players != []
    ensures var r, m, px := Apply(s, PlayCard(s.current, Witch)), Entered(s, Witch), s.current;
            var t := r.state;
            && r.error.None? && DrewOnly(m, t, px, 2) && |t.players| == |s.players|
            && t.P(Seat(s, px, d)) == Hexed(s, px, d)
            && t == m.(players := t.players, rng := t.rng, log := t.log,
                       supply := LessCurses(s, Bare(s, px, |s.players| - 1)))
  {
    hide Playable, Apply, OnPlay, Entered, DrewOnly, Seat, Hexed, LessCurses, Bare;
    PlayIs(s, Witch);
    WitchTable(s, Witch);
    WitchHexes(s, Witch, d);
  }

  // ----- Moats -----

  lemma {:induction false} MoatsOfHand(hand: seq<Card>, v: nat, w: nat)
    ensures multiset(Reactions(hand, v))[ReactionTriggered(w, Moat)] == if w == v then multiset(hand)[Moat] else 0
    decreases |hand|
  {
    if hand != [] {
      assert hand == [hand[0]] + hand[1..];
      MoatsOfHand(hand[1..], v, w);
    }
  }

  lemma {:induction false} MoatsOfAll(s: State, seats: seq<nat>, w: nat)
    requires forall i, j :: 0 <= i < j < |seats| ==> seats[i] != seats[j]
    ensures multiset(ReactionsOfAll(s, seats))[ReactionTriggered(w, Moat)] ==
            if w in seats then multiset(s.P(w).hand)[Moat] else 0
    decreases |seats|
  {
    if seats != [] {
      var v, rest := seats[0], seats[1..];
      assert seats == [v] + rest && v !in rest;
      MoatsOfHand(s.P(v).hand, v, w);
      MoatsOfAll(s, rest, w);
      hide Reactions;
    }
  }

  /** An attack reports one reaction for every Moat in every opponent's hand, and none of the attacker's. */
  lemma MoatsShown(s: State, card: Card, w: nat)
    requires s.current < |s.players| && w < |s.players|
    ensures var t := ResolveAttackVictims(s, s.current, card).0;
            var shown := ReactionTriggered(w, Moat);
            && s.log + [AttackPlayed(s.current, card)] <= t.log
            && multiset(t.log)[shown] == multiset(s.log)[shown] + (if w == s.current then 0 else multiset(s.P(w).hand)[Moat])
  {
    var seats := Others(|s.players|, s.current);
    OthersAreOpponents(s);
    MoatsOfAll(s, seats, w);
    if w != s.current { OthersAll(s, w); }
    hide Others, ReactionsOfAll;
  }
}
