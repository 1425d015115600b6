/** What a card played from the hand leaves with its player: cards that draw, Treasures, Sentry's opening, and the
    attacker's part of an attack. */
module Outcomes {
  import opened Cards
  import opened States
  import opened Zones
  import opened Primitives
  import opened Effects
  import opened Engine
  import opened Frames
  import opened Invariants
  import opened Plays
  import opened Runs
  import opened Drawing
  import opened Exchanges
  import opened Victims
  import opened Sentries
  import opened Chains
  import opened Attacks
  import opened Moves
  import opened Rules
  import opened Entries

  // ----- Cards that draw and hand out resources -----

  /** The cards that ask nothing and touch no other seat. */
  predicate Plain(c: Card) {
    c in {Festival, Laboratory, Market, Merchant, Moat, Smithy, Village}
  }

  /** How many cards they draw. */
  function CardsOf(c: Card): nat {
    match c
    case Smithy => 3
    case Laboratory | Moat => 2
    case Market | Merchant | Village => 1
    case _ => 0
  }

  /** From `s` the seat drew `n` cards and got the resources `y`; nothing else has changed. */
  predicate Gives(s: State, t: State, px: nat, n: nat, y: Yield) {
    && px < |s.players| && t == s.(players := s.players[px := t.P(px)], rng := t.rng, log := t.log)
    && Drew(s, t, px, n) && Yields(s.P(px), t.P(px), y)
  }

  /** Only seats, the random stream and the log differ. */
  predicate TableOnly(s: State, t: State) {
    |t.players| == |s.players| && t == s.(players := t.players, rng := t.rng, log := t.log)
  }

  lemma GivesTable(s: State, t: State, px: nat, n: nat, y: Yield)
    requires Gives(s, t, px, n, y)
    ensures TableOnly(s, t) && forall i: nat :: i != px ==> t.P(i) == s.P(i)
  {
    hide Drew, Yields;
  }

  lemma GivesCards(s: State, px: nat, n: nat)
    requires px < |s.players|
    ensures Gives(s, DrawCards(s, px, n), px, n, NOTHING)
  {
    hide DrawCards, Drew;
    DrawsNext(s, px, n);
    DrawCardsSeat(s, px, n);
  }

  /** Resources on top of what has been given. */
  lemma GivesMore(s: State, t: State, u: State, px: nat, n: nat, y: Yield, z: Yield)
    requires Gives(s, t, px, n, y)
    requires var p, q := t.P(px), u.P(px);
             && u == t.(players := t.players[px := q], log := u.log)
             && q == p.(actions := q.actions, buys := q.buys, coins := q.coins, charges := q.charges,
                        firstSilver := q.firstSilver)
             && Yields(s.P(px), q, z)
    ensures Gives(s, u, px, n, z)
  {
    hide Coming, TopDown, Yields;
    assert s.players[px := t.P(px)][px := u.P(px)] == s.players[px := u.P(px)];
  }

  lemma GivesActions(s: State, t: State, px: nat, n: nat, y: Yield, k: int)
    requires Gives(s, t, px, n, y)
    ensures Gives(s, AddActions(t, px, k), px, n, y.(actions := y.actions + k))
  {
    hide Drew;
    GivesMore(s, t, AddActions(t, px, k), px, n, y, y.(actions := y.actions + k));
  }

  lemma GivesBuys(s: State, t: State, px: nat, n: nat, y: Yield, k: int)
    requires Gives(s, t, px, n, y)
    ensures Gives(s, AddBuys(t, px, k), px, n, y.(buys := y.buys + k))
  {
    hide Drew;
    GivesMore(s, t, AddBuys(t, px, k), px, n, y, y.(buys := y.buys + k));
  }

  lemma GivesCoins(s: State, t: State, px: nat, n: nat, y: Yield, k: int)
    requires Gives(s, t, px, n, y)
    ensures Gives(s, AddCoins(t, px, k), px, n, y.(coins := y.coins + k))
  {
    hide Drew;
    GivesMore(s, t, AddCoins(t, px, k), px, n, y, y.(coins := y.coins + k));
  }

  lemma GivesCharge(s: State, t: State, px: nat, n: nat, y: Yield)
    requires Gives(s, t, px, n, y)
    ensures Gives(s, t.With(px, t.P(px).(charges := t.P(px).charges + 1)), px, n, y.(charges := y.charges + 1))
  {
    hide Drew;
    GivesMore(s, t, t.With(px, t.P(px).(charges := t.P(px).charges + 1)), px, n, y, y.(charges := y.charges + 1));
  }

  lemma DrawnThenActions(s: State, px: nat, n: nat, k: int)
    requires px < |s.players|
    ensures Gives(s, AddActions(DrawCards(s, px, n), px, k), px, n, NOTHING.(actions := k))
  {
    hide Gives, DrawCards, AddActions;
    GivesCards(s, px, n);
    GivesActions(s, DrawCards(s, px, n), px, n, NOTHING, k);
  }

  lemma MarketGives(s: State, px: nat, c: Card)
    requires px < |s.players| && c == Market
    ensures Gives(s, OnPlay(s, px, c), px, CardsOf(c), Printed(c))
  {
    hide Gives, DrawCards, AddActions, AddBuys, AddCoins;
    var s1 := AddActions(DrawCards(s, px, 1), px, 1);
    var y := NOTHING.(actions := 1);
    DrawnThenActions(s, px, 1, 1);
    GivesBuys(s, s1, px, 1, y, 1);
    GivesCoins(s, AddBuys(s1, px, 1), px, 1, y.(buys := 1), 1);
  }

  lemma FestivalGives(s: State, px: nat, c: Card)
    requires px < |s.players| && c == Festival
    ensures Gives(s, OnPlay(s, px, c), px, CardsOf(c), Printed(c))
  {
    hide Gives, DrawCards, AddActions, AddBuys, AddCoins;
    DrawnThenActions(s, px, 0, 2);
    assert DrawCards(s, px, 0) == s by { DrawNone(s, px); }
    var s1 := AddActions(s, px, 2);
    var y := NOTHING.(actions := 2);
    GivesBuys(s, s1, px, 0, y, 1);
    GivesCoins(s, AddBuys(s1, px, 1), px, 0, y.(buys := 1), 2);
  }

  lemma DrawNone(s: State, px: nat)
    ensures DrawCards(s, px, 0) == s
  {
  }

  lemma MerchantGives(s: State, px: nat, c: Card)
    requires px < |s.players| && c == Merchant
    ensures Gives(s, OnPlay(s, px, c), px, CardsOf(c), Printed(c))
  {
    hide Gives, DrawCards, AddActions;
    DrawnThenActions(s, px, 1, 1);
    GivesCharge(s, AddActions(DrawCards(s, px, 1), px, 1), px, 1, NOTHING.(actions := 1));
  }

  lemma DrawersGive(s: State, px: nat, c: Card)
    requires px < |s.players| && (c == Laboratory || c == Moat || c == Smithy || c == Village)
    ensures Gives(s, OnPlay(s, px, c), px, CardsOf(c), Printed(c))
  {
    hide Gives, DrawCards, AddActions;
    match c
    case Moat => GivesCards(s, px, 2);
    case Smithy => GivesCards(s, px, 3);
    case Laboratory => DrawnThenActions(s, px, 2, 1);
    case Village => DrawnThenActions(s, px, 1, 2);
  }

  lemma PlainGives(s: State, px: nat, c: Card)
    requires px < |s.players| && Plain(c)
    ensures Gives(s, OnPlay(s, px, c), px, CardsOf(c), Printed(c))
  {
    hide Gives, OnPlay, CardsOf, Printed;
    match c
    case Market => MarketGives(s, px, c);
    case Festival => FestivalGives(s, px, c);
    case Merchant => MerchantGives(s, px, c);
    case _ => DrawersGive(s, px, c);
  }

  /** A plain card played from the hand draws the next cards to come, as many as it says, hands out what it prints and
      touches nothing else. */
  lemma PlainPlayed(s: State, c: Card)
    requires Playable(s, c) && Plain(c)
    ensures s.players != []
    ensures var r := Apply(s, PlayCard(s.current, c));
            r.error.None? && Gives(Entered(s, c), r.state, s.current, CardsOf(c), Printed(c))
  {
    PlayIs(s, c);
    EnteredFacts(s, c);
    hide Playable, Apply, OnPlay, Entered, Gives, CardsOf, Printed, Plain;
    PlainGives(Entered(s, c), s.current, c);
  }

  // ----- Sentry's opening -----

  /** The seat `q` has the `n` topmost cards of `p` set aside, or all there are; the discard pile was shuffled in only if the
      deck is too short. */
  predicate LooksAside(p: PlayerState, q: PlayerState, n: nat, looked: seq<Card>) {
    && q == p.(deck := q.deck, discard := q.discard, setAside := looked) && |looked| == Min(n, Available(p))
    && (if |p.deck| < n && p.discard != [] then
          q.discard == [] && multiset(q.deck + Reversed(looked)) == multiset(p.deck + p.discard)
        else q.discard == p.discard && q.deck + Reversed(looked) == p.deck)
  }

  lemma PeelLooks(s: State, px: nat, n: nat)
    requires px < |s.players| && s.P(px).setAside == []
    ensures var (t, looked) := PeelToSetAside(s, px, n);
            LooksAside(s.P(px), t.P(px), n, looked)
  {
    hide PeelToSetAside, Reversed;
    PeelIs(s, px, n);
  }

  lemma GivesAside(s: State, t: State, px: nat, n: nat, y: Yield)
    requires Gives(s, t, px, n, y)
    ensures t.P(px).setAside == s.P(px).setAside && |t.players| == |s.players|
  {
    hide Coming, TopDown;
  }

  /** Sentry's player draws a card and gets an action, and then has the two topmost cards set aside. */
  lemma SentryLooks(s: State)
    requires Playable(s, Sentry)
    ensures var m, px := Entered(s, Sentry), s.current;
            var z, (t, looked) := AddActions(DrawCards(m, px, 1), px, 1), Looking(m, px);
            Gives(m, z, px, 1, NOTHING.(actions := 1)) && LooksAside(z.P(px), t.P(px), 2, looked)
  {
    var m, px := Entered(s, Sentry), s.current;
    var z := AddActions(DrawCards(m, px, 1), px, 1);
    hide Playable, Entered, DrawCards, AddActions, Gives, LooksAside, PeelToSetAside;
    EnteredFacts(s, Sentry);
    DrawnThenActions(m, px, 1, 1);
    GivesAside(m, z, px, 1, NOTHING.(actions := 1));
    PeelLooks(z, px, 2);
  }

  // ----- Treasures -----

  lemma NothingGiven(s: State, px: nat)
    requires px < |s.players|
    ensures Gives(s, s, px, 0, NOTHING)
  {
    hide Gives, DrawCards;
    GivesCards(s, px, 0);
    DrawNone(s, px);
  }

  lemma CoinsGiven(s: State, px: nat, n: int)
    requires px < |s.players|
    ensures Gives(s, AddCoins(s, px, n), px, 0, NOTHING.(coins := n))
  {
    hide Gives, AddCoins;
    NothingGiven(s, px);
    GivesCoins(s, s, px, 0, NOTHING, n);
  }

  lemma GivesSilver(s: State, t: State, px: nat, n: nat, y: Yield)
    requires Gives(s, t, px, n, y)
    ensures Gives(s, t.With(px, t.P(px).(firstSilver := true)), px, n, y.(silver := true))
  {
    hide Drew;
    GivesMore(s, t, t.With(px, t.P(px).(firstSilver := true)), px, n, y, y.(silver := true));
  }

  lemma SilverUnfolds(s: State, px: nat, c: Card)
    requires px < |s.players| && c == Silver
    ensures var p, s1 := s.P(px), AddCoins(s, px, 2);
            var s2 := s1.With(px, s1.P(px).(firstSilver := true));
            OnPlay(s, px, c) ==
            if p.firstSilver then s1 else if p.charges > 0 then AddCoins(s2, px, p.charges) else s2
  {
  }

  lemma SilverGives(s: State, px: nat, c: Card)
    requires px < |s.players| && c == Silver
    ensures Gives(s, OnPlay(s, px, c), px, 0, YieldOf(s.P(px), c))
  {
    var p, s1, y := s.P(px), AddCoins(s, px, 2), NOTHING.(coins := 2);
    var s2 := s1.With(px, s1.P(px).(firstSilver := true));
    assert YieldOf(p, c) == Yield(0, 0, 2 + (if p.firstSilver || p.charges <= 0 then 0 else p.charges), 0, true, false);
    hide Gives, OnPlay, AddCoins, YieldOf;
    SilverUnfolds(s, px, c);
    CoinsGiven(s, px, 2);
    if p.firstSilver {
      SilverAgain(s, s1, px, 0, y);
    } else {
      GivesSilver(s, s1, px, 0, y);
      GivesCoins(s, s2, px, 0, y.(silver := true), p.charges);
    }
  }

  lemma SilverAgain(s: State, t: State, px: nat, n: nat, y: Yield)
    requires Gives(s, t, px, n, y) && s.P(px).firstSilver
    ensures Gives(s, t, px, n, y.(silver := true))
  {
    hide Drew;
  }

  lemma TreasuresGive(s: State, px: nat, c: Card)
    requires px < |s.players| && IsTreasure(c)
    ensures Gives(s, OnPlay(s, px, c), px, 0, YieldOf(s.P(px), c))
  {
    if c == Silver {
      SilverGives(s, px, c);
    } else {
      hide Gives, AddCoins, PlaySilver;
      CoinsGiven(s, px, if c == Copper then 1 else 3);
    }
  }

  lemma EnteredCharges(s: State, c: Card)
    requires s.current < |s.players|
    ensures YieldOf(Entered(s, c).P(s.current), c) == YieldOf(s.P(s.current), c)
    ensures |Entered(s, c).players| == |s.players| && Entered(s, c).current == s.current
  {
    hide Without, Printed;
  }

  /** A Treasure played from the hand brings its coins and nothing else: the first Silver of a turn brings one more for
      each Merchant played before it. */
  lemma TreasurePlayed(s: State, c: Card)
    requires Inv(s) && !s.ended && s.pending.None? && s.phase == BuyPhase && IsTreasure(c) && c in s.P(s.current).hand
    ensures s.players != []
    ensures var r := Apply(s, PlayCard(s.current, c));
            r.error.None? && Gives(Entered(s, c), r.state, s.current, 0, YieldOf(s.P(s.current), c))
  {
    InvTable(s);
    PlaysExactly(s, c);
    hide Inv, Apply, OnPlay, Entered, Gives, YieldOf, IsTreasure;
    EnteredCharges(s, c);
    TreasuresGive(Entered(s, c), s.current, c);
  }

  lemma EnteredTable(s: State, c: Card)
    ensures Entered(s, c).supply == s.supply && Entered(s, c).trash == s.trash
    ensures |Entered(s, c).players| == |s.players| && Entered(s, c).Pile(Curse) == s.Pile(Curse)
  {
    hide Without;
  }

  // ----- The attacker's own part of Militia, Bureaucrat and Bandit -----

  /** The supply is as before; so is the trash, unless Bandit takes something. */
  predicate StockKept(c: Card, s: State, t: State) {
    |t.players| == |s.players| && t.supply == s.supply && (c != Bandit ==> t.trash == s.trash)
  }

  lemma StockTrans(c: Card, s: State, t: State, u: State)
    requires StockKept(c, s, t) && StockKept(c, t, u)
    ensures StockKept(c, s, u)
  {
  }

  lemma MoveStock(c: Card, s: State, v: nat, cards: seq<Card>, to: Target)
    requires v < |s.players| && to != ToHand && to != ToTrash
    ensures StockKept(c, s, MoveFromHand(s, v, cards, to))
  {
    hide MoveFromHand, Found, Remaining, MoveEvents, ReceiveAll;
    MoveFromHandIs(s, v, cards, to);
  }

  lemma {:induction false} DiscardStock(c: Card, s: State, v: nat, revealed: seq<Card>, skip: Option<Card>)
    requires c == Bandit
    ensures StockKept(c, s, DiscardRevealed(s, v, revealed, skip))
    decreases |revealed|
  {
    if revealed != [] {
      var s1 := if skip == Some(revealed[0]) then s else DiscardFromDeck(s, v, revealed[0]);
      assert StockKept(c, s, s1);
      hide DiscardFromDeck, StockKept;
      DiscardStock(c, s1, v, revealed[1..], skip);
      StockTrans(c, s, s1, DiscardRevealed(s1, v, revealed[1..], skip));
    }
  }

  lemma TrashStock(c: Card, s: State, v: nat, revealed: seq<Card>, x: Card)
    requires c == Bandit
    ensures StockKept(c, s, BanditTrash(s, v, revealed, x))
  {
    var s1 := TrashFromDeck(s, v, x);
    assert StockKept(c, s, s1);
    hide TrashFromDeck, StockKept;
    DiscardStock(c, s1, v, revealed, Some(x));
    StockTrans(c, s, s1, BanditTrash(s, v, revealed, x));
  }

  lemma ShownStock(c: Card, s: State, v: nat)
    requires Asking(c)
    ensures StockKept(c, s, Shown(c, s, v).0) && StockKept(c, s, Noted(Shown(c, s, v).0, v))
  {
    hide TopDown, Shuffle;
  }

  lemma ForcedStock(c: Card, s: State, v: nat, revealed: seq<Card>)
    requires Asking(c) && v < |s.players|
    ensures StockKept(c, s, Forced(c, s, v, revealed))
  {
    hide MoveFromHand, DiscardRevealed, BanditTrash, NonCopperTreasures, VictoriesIn;
    match c
    case Militia =>
    case Bureaucrat => MoveStock(c, s, v, VictoriesIn(s.P(v).hand), ToDeck);
    case Bandit =>
      DiscardStock(c, s, v, revealed, None);
      if NonCopperTreasures(revealed) != [] { TrashStock(c, s, v, revealed, NonCopperTreasures(revealed)[0]); }
  }

  lemma ChosenStock(c: Card, s: State, v: nat, revealed: seq<Card>, answer: Answer)
    requires Asking(c) && v < |s.players| && Accepts(c, s, v, revealed, answer)
    ensures StockKept(c, s, Chosen(c, s, v, revealed, answer))
  {
    hide MoveFromHand, BanditTrash, StockKept;
    match c
    case Militia => MoveStock(c, s, v, answer.cards, ToDiscard);
    case Bureaucrat => MoveStock(c, s, v, answer.cards, ToDeck);
    case Bandit => TrashStock(c, s, v, revealed, answer.card);
  }

  /** The loop over the victims. */
  lemma {:induction false} LoopStock(c: Card, s: State, victims: seq<nat>, answers: seq<Answer>)
    requires Asking(c) && (forall v :: v in victims ==> v < |s.players|) && Direct(c, s, victims, answers).Some?
    ensures StockKept(c, s, Direct(c, s, victims, answers).value)
    decreases |victims|
  {
    hide Shown, HasChoice, Forced, Chosen, Accepts, Noted;
    if victims != [] {
      var v, rest := victims[0], victims[1..];
      var (s1, revealed) := Shown(c, s, v);
      assert v in victims && forall w :: w in rest ==> w in victims;
      ShownStock(c, s, v);
      if !HasChoice(c, s1, v, revealed) {
        var t := Forced(c, s1, v, revealed);
        ForcedStock(c, s1, v, revealed);
        LoopStock(c, t, rest, answers);
      } else {
        var t := Chosen(c, Noted(s1, v), v, revealed, answers[0]);
        ChosenStock(c, Noted(s1, v), v, revealed, answers[0]);
        LoopStock(c, t, rest, answers[1..]);
      }
    }
  }

  /** What the attack brings its player. */
  predicate Profits(c: Card, s: State, t: State, px: nat)
    requires Asking(c)
  {
    var p, q := s.P(px), t.P(px);
    match c
    case Militia => q == p.(coins := p.coins + 2) && t.supply == s.supply
    case Bureaucrat =>
      if s.Pile(Silver) <= 0 then q == p && t.supply == s.supply
      else q == p.(deck := p.deck + [Silver]) && t.supply == s.supply[Silver := s.Pile(Silver) - 1]
    case Bandit =>
      if s.Pile(Gold) <= 0 then q == p && t.supply == s.supply
      else q == p.(discard := p.discard + [Gold]) && t.supply == s.supply[Gold := s.Pile(Gold) - 1]
  }

  lemma OpeningProfits(c: Card, s: State)
    requires Asking(c) && s.current < |s.players|
    ensures var s1 := ResolveAttackVictims(Opening(c, s), s.current, c).0;
            Profits(c, s, s1, s.current) && s1.trash == s.trash && |s1.players| == |s.players|
  {
    hide Unblocked, ReactionsOfAll, Others;
  }

  /** The attacker is not among the victims. */
  lemma NotOwnVictim(c: Card, s: State)
    requires Asking(c) && s.current < |s.players|
    ensures var (s1, victims) := ResolveAttackVictims(Opening(c, s), s.current, c);
            Distinct(s1, victims) && s.current !in victims && s1.pending == s.pending
  {
    hide Opening, Unblocked, Others, Distinct, ReactionsOfAll;
    var s0 := Opening(c, s);
    var seats := Others(|s0.players|, s.current);
    OthersAreOpponents(s0);
    UnblockedAre(s0, seats);
    OpponentsDistinct(s0, Unblocked(s0, seats));
    DistinctSame(s0, ResolveAttackVictims(s0, s.current, c).0, Unblocked(s0, seats));
  }

  lemma DistinctSeats(s: State, seats: seq<nat>)
    requires Distinct(s, seats)
    ensures forall v :: v in seats ==> v < |s.players|
  {
  }

  lemma ProfitsLater(c: Card, s: State, t: State, u: State, px: nat)
    requires Asking(c) && Profits(c, s, t, px) && StockKept(c, t, u) && u.P(px) == t.P(px) && t.trash == s.trash
    ensures Profits(c, s, u, px) && (c != Bandit ==> u.trash == s.trash)
  {
  }

  lemma LoopProfits(c: Card, s: State, s1: State, victims: seq<nat>, answers: seq<Answer>, px: nat)
    requires Asking(c) && Profits(c, s, s1, px) && s1.trash == s.trash && Distinct(s1, victims) && px !in victims
    requires Direct(c, s1, victims, answers).Some?
    ensures var u := Direct(c, s1, victims, answers).value;
            Profits(c, s, u, px) && (c != Bandit ==> u.trash == s.trash)
  {
    hide *;
    DistinctSeats(s1, victims);
    LoopStrikes(c, s1, victims, answers, px);
    LoopStock(c, s1, victims, answers);
    ProfitsLater(c, s, s1, Direct(c, s1, victims, answers).value, px);
  }

  lemma AttackProfits(c: Card, s: State, answers: seq<Answer>)
    requires Asking(c) && s.pending.None? && s.current < |s.players|
    requires Suspended(OnPlay(s, s.current, c), answers).Some?
    ensures var u := Suspended(OnPlay(s, s.current, c), answers).value;
            Profits(c, s, u, s.current) && (c != Bandit ==> u.trash == s.trash)
  {
    hide *;
    var (s1, victims) := ResolveAttackVictims(Opening(c, s), s.current, c);
    PlayedAttack(c, s);
    OpeningProfits(c, s);
    NotOwnVictim(c, s);
    AttackRefines(c, s1, s.current, victims, answers);
    LoopProfits(c, s, s1, victims, answers, s.current);
  }

  /** An attack played from the hand and answered by messages, seen from its player's seat. */
  lemma AttackerProfits(c: Card, s: State, answers: seq<Answer>)
    requires Asking(c) && Playable(s, c)
    ensures s.players != []
    ensures var r, m := Completed(s, c, answers), Entered(s, c);
            r.error.None? && r.state.pending.None? ==>
              Profits(c, m, r.state, s.current) && (c != Bandit ==> r.state.trash == s.trash)
  {
    var m := Entered(s, c);
    EnteredFacts(s, c);
    EnteredTable(s, c);
    AttackOwn(c, m);
    CompletedIs(s, c, answers);
    hide Playable, OnPlay, Entered, Completed, Suspended, Asking, Profits, PlaysNothing;
    if Suspended(OnPlay(m, s.current, c), answers).Some? { AttackProfits(c, m, answers); }
  }
}
