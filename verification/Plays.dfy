/** What playing a card keeps and yields, and what answering a decision keeps. */
module Plays {
  import opened Cards
  import opened States
  import opened Zones
  import opened Primitives
  import opened Effects
  import opened Census
  import opened Frames
  import opened Invariants

  /** The printed bonuses of each card: actions, buys and coins, a Merchant charge, the Silver flag. */
  function Printed(c: Card): Yield {
    match c
    case Copper => Yield(0, 0, 1, 0, false, false)
    case Silver => Yield(0, 0, 2, 0, true, false)
    case Gold => Yield(0, 0, 3, 0, false, false)
    case Cellar | Harbinger | Laboratory => Yield(1, 0, 0, 0, false, false)
    case Library => Yield(0, 0, 0, 0, false, true)
    case Sentry => Yield(1, 0, 0, 0, false, true)
    case CouncilRoom => Yield(0, 1, 0, 0, false, false)
    case Festival => Yield(2, 1, 2, 0, false, false)
    case Market => Yield(1, 1, 1, 0, false, false)
    case Merchant => Yield(1, 0, 0, 1, false, false)
    case Militia => Yield(0, 0, 2, 0, false, false)
    case Poacher => Yield(1, 0, 1, 0, false, false)
    case Village => Yield(2, 0, 0, 0, false, false)
    case _ => NOTHING
  }

  /** What the first Silver of a turn pays on top: one coin for each Merchant charge. */
  function MerchantBonus(p: PlayerState, c: Card): int {
    if c != Silver || p.firstSilver || p.charges <= 0 then 0 else p.charges
  }

  function YieldOf(p: PlayerState, c: Card): Yield {
    var y := Printed(c);
    y.(coins := y.coins + MerchantBonus(p, c))
  }

  lemma SilverKeeps(s: State)
    requires s.current < |s.players|
    ensures Keeps(s, PlaySilver(s, s.current), Yield(0, 0, 2 + MerchantBonus(s.P(s.current), Silver), 0, true, false))
  {
    var px := s.current;
    var s1 := AddCoins(s, px, 2);
    var p1 := s1.P(px);
    assert p1 == s.P(px).(coins := s.P(px).coins + 2);
    var q := p1.(firstSilver := true);
    var s2 := s1.With(px, q);
    assert s2.log == s1.log && s2.P(px) == q && s2.current == s.current;
    assert Granted(s1, s2, q, Yield(0, 0, 2, 0, false, false), Yield(0, 0, 2, 0, true, false)) by { hide Tally, AddCoins; }
    hide Keeps, Tally, AddCoins, Granted;
    KeepsSelf(s);
    AddCoinsKeeps(s, s, 2, NOTHING);
    GrantedKeeps(s, s1, s2, q, Yield(0, 0, 2, 0, false, false), Yield(0, 0, 2, 0, true, false));
    AddCoinsKeeps(s, s2, p1.charges, Yield(0, 0, 2, 0, true, false));
    if p1.firstSilver { assert q == p1 && s2 == s1; }
  }

  lemma MerchantKeeps(s: State)
    requires s.current < |s.players|
    ensures Keeps(s, PlayMerchant(s, s.current), Yield(1, 0, 0, 1, false, false))
  {
    var px := s.current;
    hide Keeps, Tally, DrawCards, AddActions;
    DrawActKeeps(s, 1, 1);
    var s1 := AddActions(DrawCards(s, px, 1), px, 1);
    var q := s1.P(px).(charges := s1.P(px).charges + 1);
    GrantedKeeps(s, s1, s1.With(px, q), q, Yield(1, 0, 0, 0, false, false), Yield(1, 0, 0, 1, false, false));
  }

  /** +n cards, then +k actions: the opening of many cards. */
  lemma DrawActKeeps(s: State, n: nat, k: int)
    requires s.current < |s.players|
    ensures Keeps(s, DrawCards(s, s.current, n), NOTHING)
    ensures Keeps(s, AddActions(DrawCards(s, s.current, n), s.current, k), Yield(k, 0, 0, 0, false, false))
  {
    hide Keeps, DrawCards;
    KeepsSelf(s);
    DrawCardsKeeps(s, s, s.current, n, NOTHING);
    AddActionsKeeps(s, DrawCards(s, s.current, n), k, NOTHING);
  }

  lemma HarbingerKeeps(s: State)
    requires s.current < |s.players| && s.pending.None?
    ensures var t := PlayHarbinger(s, s.current);
            Keeps(s, t, Yield(1, 0, 0, 0, false, false)) && AskedOk(t)
  {
    hide Keeps, DrawCards, AddActions;
    DrawActKeeps(s, 1, 1);
    var s1 := AddActions(DrawCards(s, s.current, 1), s.current, 1);
    RequestKeeps(s, s1, s.current, Harbinger, 0, ChooseFromDiscardPrompt(s1.P(s.current).discard, true), NoContext,
                 Yield(1, 0, 0, 0, false, false));
  }

  lemma PoacherKeeps(s: State)
    requires s.current < |s.players| && s.pending.None?
    ensures var t := PlayPoacher(s, s.current);
            Keeps(s, t, Yield(1, 0, 1, 0, false, false)) && AskedOk(t)
  {
    hide Keeps, DrawCards, AddActions, AddCoins, EmptyPiles;
    DrawActKeeps(s, 1, 1);
    var s0 := AddActions(DrawCards(s, s.current, 1), s.current, 1);
    AddCoinsKeeps(s, s0, 1, Yield(1, 0, 0, 0, false, false));
    var s1 := AddCoins(s0, s.current, 1);
    var n := EmptyPiles(s1.supply);
    RequestKeeps(s, s1, s.current, Poacher, 0, DiscardFromHandPrompt(n, n), NoContext, Yield(1, 0, 1, 0, false, false));
  }

  lemma VassalKeeps(s: State)
    requires s.current < |s.players| && s.pending.None?
    ensures var t := PlayVassal(s, s.current);
            Keeps(s, t, NOTHING) && AskedOk(t)
  {
    hide Keeps, RevealAndDiscardFromDeck, RequestDecision, AskedOk, IsAction;
    KeepsSelf(s);
    RevealAndDiscardKeeps(s, s, s.current, 1, NOTHING);
    RevealOne(s, s.current);
    var (s1, revealed) := RevealAndDiscardFromDeck(s, s.current, 1);
    if revealed != [] && IsAction(revealed[0]) {
      RequestKeeps(s, s1, s.current, Vassal, 0, MayPlayActionPrompt(revealed[0]), CardContext(revealed[0]), NOTHING);
      VassalAsks(s1, revealed[0]);
    } else {
      NotAsked(s1);
    }
  }

  lemma VassalAsks(s: State, c: Card)
    requires s.current < |s.players| && c in s.P(s.current).discard && IsAction(c)
    ensures AskedOk(RequestDecision(s, s.current, Vassal, 0, MayPlayActionPrompt(c), CardContext(c)))
  {
    hide IsAction;
  }

  /** Turning over one card puts exactly that card on the discard pile. */
  lemma RevealOne(s: State, px: nat)
    requires px < |s.players|
    ensures var (t, revealed) := RevealAndDiscardFromDeck(s, px, 1);
            |revealed| <= 1 && (revealed != [] ==> revealed[0] in t.P(px).discard)
  {
    if Available(s.P(px)) > 0 {
      var (s1, top) := DiscardTop(s, px);
      assert RevealAndDiscardFromDeck(s1, px, 0) == (s1, []);
      assert top + [] == top;
    }
  }

  lemma SentryKeeps(s: State)
    requires s.current < |s.players| && s.pending.None?
    ensures var t := PlaySentry(s, s.current);
            Keeps(s, t, Yield(1, 0, 0, 0, false, true)) && AskedOk(t)
  {
    hide Keeps, DrawCards, AddActions, PeelToSetAside;
    DrawActKeeps(s, 1, 1);
    MayTouch(s, AddActions(DrawCards(s, s.current, 1), s.current, 1), Yield(1, 0, 0, 0, false, false));
    var y := Yield(1, 0, 0, 0, false, true);
    var s1 := AddActions(DrawCards(s, s.current, 1), s.current, 1);
    PeelToSetAsideKeeps(s, s1, 2, y);
    var (s2, revealed) := PeelToSetAside(s1, s.current, 2);
    RequestKeeps(s, s2, s.current, Sentry, 0, TrashFromRevealedPrompt(revealed), NoContext, y);
  }

  lemma CouncilRoomKeeps(s: State)
    requires s.current < |s.players|
    ensures Keeps(s, PlayCouncilRoom(s, s.current), Yield(0, 1, 0, 0, false, false))
  {
    hide Keeps, DrawCards, AddBuys, DrawEach, Others;
    DrawActKeeps(s, 4, 0);
    var s1 := DrawCards(s, s.current, 4);
    AddBuysKeeps(s, s1, 1, NOTHING);
    var s2 := AddBuys(s1, s.current, 1);
    OthersAreOpponents(s);
    DrawEachKeeps(s, s2, Others(|s.players|, s.current), Yield(0, 1, 0, 0, false, false));
  }

  lemma MilitiaKeeps(s: State)
    requires s.current < |s.players| && s.pending.None?
    ensures var t := PlayMilitia(s, s.current);
            Keeps(s, t, Yield(0, 0, 2, 0, false, false)) && AskedOk(t)
  {
    hide Keeps, AddCoins, ResolveAttackVictims, MilitiaQueue, AskedOk;
    KeepsSelf(s);
    AddCoinsKeeps(s, s, 2, NOTHING);
    var y := Yield(0, 0, 2, 0, false, false);
    AttackKeeps(s, AddCoins(s, s.current, 2), Militia, y);
    var (s1, victims) := ResolveAttackVictims(AddCoins(s, s.current, 2), s.current, Militia);
    MilitiaQueueKeeps(s, s1, victims, y);
  }

  lemma BureaucratKeeps(s: State)
    requires s.current < |s.players| && s.pending.None?
    ensures var t := PlayBureaucrat(s, s.current);
            Keeps(s, t, NOTHING) && AskedOk(t)
  {
    hide Keeps, GainCard, ResolveAttackVictims, BureaucratQueue, AskedOk;
    KeepsSelf(s);
    GainCardKeeps(s, s, s.current, Silver, GainToDeck, NOTHING);
    AttackKeeps(s, GainCard(s, s.current, Silver, GainToDeck), Bureaucrat, NOTHING);
    var (s1, victims) := ResolveAttackVictims(GainCard(s, s.current, Silver, GainToDeck), s.current, Bureaucrat);
    BureaucratQueueKeeps(s, s1, victims, NOTHING);
  }

  lemma BanditKeeps(s: State)
    requires s.current < |s.players| && s.pending.None?
    ensures var t := PlayBandit(s, s.current);
            Keeps(s, t, NOTHING) && AskedOk(t)
  {
    hide Keeps, GainCard, ResolveAttackVictims, BanditQueue, AskedOk;
    KeepsSelf(s);
    GainCardKeeps(s, s, s.current, Gold, GainToDiscard, NOTHING);
    AttackKeeps(s, GainCard(s, s.current, Gold, GainToDiscard), Bandit, NOTHING);
    var (s1, victims) := ResolveAttackVictims(GainCard(s, s.current, Gold, GainToDiscard), s.current, Bandit);
    BanditQueueKeeps(s, s1, victims, NOTHING);
  }

  lemma WitchKeeps(s: State)
    requires s.current < |s.players|
    ensures Keeps(s, PlayWitch(s, s.current), NOTHING)
  {
    hide Keeps, DrawCards, ResolveAttackVictims, CurseEach;
    DrawActKeeps(s, 2, 0);
    var s0 := DrawCards(s, s.current, 2);
    AttackKeeps(s, s0, Witch, NOTHING);
    var (s1, victims) := ResolveAttackVictims(s0, s.current, Witch);
    CurseEachKeeps(s, s1, victims, NOTHING);
  }

  /** Cards that ask at once, without doing anything first. */
  lemma AskingKeeps(s: State, c: Card)
    requires s.current < |s.players| && s.pending.None?
    requires c.Artisan? || c.Chapel? || c.Mine? || c.Moneylender? || c.Remodel? || c.ThroneRoom? || c.Workshop?
    ensures var t := OnPlay(s, s.current, c);
            Keeps(s, t, NOTHING) && AskedOk(t)
  {
    hide Keeps, AskedOk, OnPlay, RequestDecision;
    KeepsSelf(s);
    AsksOrNot(s, c);
    if OnPlay(s, s.current, c) == s {
      NotAsked(s);
    } else {
      RequestKeeps(s, s, s.current, c, 0, AskingPrompt(c), NoContext, NOTHING);
    }
  }

  /** What these cards ask. */
  function AskingPrompt(c: Card): Prompt {
    match c
    case Artisan => GainFromSupplyPrompt(5, [], GainToHand)
    case Chapel => TrashFromHandPrompt(0, 4, [], [])
    case Mine => TrashFromHandPrompt(0, 1, [Treasure], [])
    case Moneylender => TrashFromHandPrompt(0, 1, [], [Copper])
    case Remodel => TrashFromHandPrompt(1, 1, [], [])
    case Workshop => GainFromSupplyPrompt(4, [], GainToDiscard)
    case _ => ChooseActionFromHandPrompt
  }

  lemma AsksOrNot(s: State, c: Card)
    requires s.current < |s.players| && s.pending.None?
    requires c.Artisan? || c.Chapel? || c.Mine? || c.Moneylender? || c.Remodel? || c.ThroneRoom? || c.Workshop?
    ensures var t := OnPlay(s, s.current, c);
            t == s ||
            (t == RequestDecision(s, s.current, c, 0, AskingPrompt(c), NoContext) && AskedOk(t))
  {
    hide PlaySilver, PlayHarbinger, LibraryStep, PlayMerchant, PlayPoacher, PlaySentry, PlayVassal, PlayCouncilRoom,
      PlayMilitia, PlayBureaucrat, PlayBandit, PlayWitch, PlayCellar, DrawCards, AddActions, AddBuys, AddCoins;
  }

  lemma CellarKeeps(s: State)
    requires s.current < |s.players| && s.pending.None?
    ensures var t := PlayCellar(s, s.current);
            Keeps(s, t, Yield(1, 0, 0, 0, false, false)) && AskedOk(t)
  {
    hide Keeps, AddActions;
    KeepsSelf(s);
    AddActionsKeeps(s, s, 1, NOTHING);
    var s1 := AddActions(s, s.current, 1);
    RequestKeeps(s, s1, s.current, Cellar, 0, DiscardFromHandPrompt(0, |s1.P(s.current).hand|), NoContext,
                 Yield(1, 0, 0, 0, false, false));
  }

  lemma LaboratoryVillageKeeps(s: State, c: Card)
    requires s.current < |s.players| && (c.Laboratory? || c.Village?)
    ensures Keeps(s, OnPlay(s, s.current, c), Yield(if c.Village? then 2 else 1, 0, 0, 0, false, false))
  {
    hide Keeps, PlaySilver, PlayHarbinger, LibraryStep, PlayMerchant, PlayPoacher, PlaySentry, PlayVassal,
      PlayCouncilRoom, PlayMilitia, PlayBureaucrat, PlayBandit, PlayWitch, PlayCellar, DrawCards, AddActions, AddBuys,
      AddCoins, HasAction, HasTreasure, RequestDecision;
    DrawActKeeps(s, 2, 1);
    DrawActKeeps(s, 1, 2);
  }

  lemma FestivalKeeps(s: State)
    requires s.current < |s.players|
    ensures Keeps(s, OnPlay(s, s.current, Festival), Yield(2, 1, 2, 0, false, false))
  {
    hide Keeps, AddActions, AddCoins, AddBuys;
    KeepsSelf(s);
    var s1 := AddActions(s, s.current, 2);
    AddActionsKeeps(s, s, 2, NOTHING);
    AddBuysKeeps(s, s1, 1, Yield(2, 0, 0, 0, false, false));
    AddCoinsKeeps(s, AddBuys(s1, s.current, 1), 2, Yield(2, 1, 0, 0, false, false));
  }

  lemma MarketKeeps(s: State)
    requires s.current < |s.players|
    ensures Keeps(s, OnPlay(s, s.current, Market), Yield(1, 1, 1, 0, false, false))
  {
    hide Keeps, DrawCards, AddActions, AddCoins, AddBuys;
    var s1 := AddActions(DrawCards(s, s.current, 1), s.current, 1);
    DrawActKeeps(s, 1, 1);
    AddBuysKeeps(s, s1, 1, Yield(1, 0, 0, 0, false, false));
    AddCoinsKeeps(s, AddBuys(s1, s.current, 1), 1, Yield(1, 1, 0, 0, false, false));
  }

  lemma LibraryKeeps(s: State)
    requires s.current < |s.players| && s.pending.None?
    ensures var t := LibraryStep(s, s.current);
            Keeps(s, t, Yield(0, 0, 0, 0, false, true)) && AskedOk(t)
  {
    hide Keeps, LibraryStep, AskedOk;
    KeepsSelf(s);
    MayTouch(s, s, NOTHING);
    LibraryStepKeeps(s, s, Yield(0, 0, 0, 0, false, true));
  }

  lemma TreasureKeeps(s: State)
    requires s.current < |s.players|
    ensures Keeps(s, AddCoins(s, s.current, 1), Yield(0, 0, 1, 0, false, false))
    ensures Keeps(s, AddCoins(s, s.current, 3), Yield(0, 0, 3, 0, false, false))
  {
    hide Keeps, AddCoins;
    KeepsSelf(s);
    AddCoinsKeeps(s, s, 1, NOTHING);
    AddCoinsKeeps(s, s, 3, NOTHING);
  }

  lemma NotAsked(s: State)
    requires s.pending.None?
    ensures AskedOk(s)
  {
  }

  /** Cards without printed bonuses. */
  lemma UnprintedKeeps(s: State, c: Card)
    requires s.current < |s.players| && s.pending.None?
    requires match c
      case Copper | Silver | Gold | Cellar | CouncilRoom | Festival | Harbinger | Laboratory | Market | Merchant
         | Militia | Poacher | Sentry | Village | Library => false
      case _ => true
    ensures var t := OnPlay(s, s.current, c);
            Keeps(s, t, NOTHING) && AskedOk(t)
  {
    var t := OnPlay(s, s.current, c);
    hide Keeps, DrawCards, RequestDecision;
    KeepsSelf(s);
    match c
    case Estate | Duchy | Province | Curse | Gardens | Unknown(_) =>
    case Artisan | Chapel | Mine | Moneylender | Remodel | ThroneRoom | Workshop => AskingKeeps(s, c);
    case Bandit => BanditKeeps(s);
    case Bureaucrat => BureaucratKeeps(s);
    case Moat => DrawActKeeps(s, 2, 0);
    case Smithy => DrawActKeeps(s, 3, 0);
    case Vassal => VassalKeeps(s);
    case Witch => WitchKeeps(s);
  }

  /** Cards with printed bonuses. */
  lemma PrintedKeeps(s: State, c: Card)
    requires s.current < |s.players| && s.pending.None?
    requires match c
      case Copper | Silver | Gold | Cellar | CouncilRoom | Festival | Harbinger | Laboratory | Market | Merchant
         | Militia | Poacher | Sentry | Village | Library => true
      case _ => false
    ensures var t := OnPlay(s, s.current, c);
            Keeps(s, t, YieldOf(s.P(s.current), c)) && AskedOk(t)
  {
    var t := OnPlay(s, s.current, c);
    hide Keeps, AddActions, AddCoins, AddBuys, DrawCards, RequestDecision;
    match c
    case Copper | Gold => TreasureKeeps(s);
    case Silver => SilverKeeps(s);
    case Cellar => CellarKeeps(s);
    case CouncilRoom => CouncilRoomKeeps(s);
    case Festival => FestivalKeeps(s);
    case Harbinger => HarbingerKeeps(s);
    case Laboratory | Village => LaboratoryVillageKeeps(s, c);
    case Library => LibraryKeeps(s);
    case Market => MarketKeeps(s);
    case Merchant => MerchantKeeps(s);
    case Militia => MilitiaKeeps(s);
    case Poacher => PoacherKeeps(s);
    case Sentry => SentryKeeps(s);
  }

  lemma UnprintedYield(p: PlayerState, c: Card)
    ensures match c
      case Copper | Silver | Gold | Cellar | CouncilRoom | Festival | Harbinger | Laboratory | Market | Merchant
         | Militia | Poacher | Sentry | Village | Library => true
      case _ => YieldOf(p, c) == NOTHING
  {
  }

  /** Every card: no card is made or lost, at most one decision is asked and its reasons hold, no replay is pushed,
      nothing enters play, no other seat's resources move, and the player gets exactly the printed bonuses. */
  lemma OnPlayKeeps(s: State, c: Card)
    requires s.current < |s.players| && s.pending.None?
    ensures var t := OnPlay(s, s.current, c);
            Keeps(s, t, YieldOf(s.P(s.current), c)) && AskedOk(t)
  {
    hide Keeps, AskedOk, OnPlay, YieldOf;
    UnprintedYield(s.P(s.current), c);
    match c
    case Copper | Silver | Gold | Cellar | CouncilRoom | Festival | Harbinger | Laboratory | Market | Merchant
       | Militia | Poacher | Sentry | Village | Library => PrintedKeeps(s, c);
    case _ => UnprintedKeeps(s, c);
  }

  // ----- The set-aside zone -----

  /** Library or Sentry is waiting for its player. */
  predicate Inspecting(s: State) {
    s.pending.Some? && (s.pending.value.card == Library || s.pending.value.card == Sentry)
  }

  /** Cards are set aside only while Library or Sentry waits. */
  predicate AsideOk(s: State) {
    Inspecting(s) || s.P(s.current).setAside == []
  }

  /** Library stops either asking or with the set-aside zone emptied. */
  lemma {:induction false} LibraryAside(s: State)
    requires s.pending.None? && s.current < |s.players|
    ensures var t := LibraryStep(s, s.current);
            (t.pending.None? && t.P(t.current).setAside == []) || (t.pending.Some? && t.pending.value.card == Library)
    decreases Available(s.P(s.current))
  {
    hide DrawOne;
    if |s.P(s.current).hand| < 7 && Available(s.P(s.current)) > 0 {
      var s1 := DrawOne(s, s.current);
      if !IsAction(s1.P(s.current).hand[|s1.P(s.current).hand| - 1]) { LibraryAside(s1); }
    }
  }

  /** Peeling nothing leaves the set-aside zone as it was. */
  lemma PeelAside(s: State, n: nat)
    requires s.current < |s.players| && n > 0
    ensures var (t, revealed) := PeelToSetAside(s, s.current, n);
            revealed == [] ==> t.P(s.current).setAside == s.P(s.current).setAside
  {
    hide TopDown;
  }

  lemma SentryAside(s: State)
    requires s.pending.None? && s.current < |s.players| && s.P(s.current).setAside == []
    ensures AsideOk(PlaySentry(s, s.current))
  {
    hide DrawCards, AddActions, PeelToSetAside, Tally, Conserved, SupplyShrinks, OthersKept;
    DrawActKeeps(s, 1, 1);
    PeelAside(AddActions(DrawCards(s, s.current, 1), s.current, 1), 2);
  }

  lemma YieldAside(p: PlayerState, c: Card)
    ensures YieldOf(p, c).aside <==> c == Library || c == Sentry
  {
  }

  lemma OtherAside(s: State, c: Card)
    requires s.pending.None? && s.current < |s.players| && s.P(s.current).setAside == []
    requires c != Library && c != Sentry
    ensures AsideOk(OnPlay(s, s.current, c))
  {
    hide OnPlay, YieldOf, AskedOk, Tally, Conserved, SupplyShrinks, OthersKept;
    OnPlayKeeps(s, c);
    YieldAside(s.P(s.current), c);
  }

  lemma PlayAside(s: State, c: Card)
    requires s.pending.None? && s.current < |s.players| && s.P(s.current).setAside == []
    ensures AsideOk(OnPlay(s, s.current, c))
  {
    hide LibraryStep, PlaySentry;
    if c == Library {
      LibraryAside(s);
    } else if c == Sentry {
      SentryAside(s);
    } else {
      hide OnPlay, AsideOk;
      OtherAside(s, c);
    }
  }

  // ----- Frames of whole plays -----

  lemma YieldPositive(p: PlayerState, c: Card)
    ensures var y := YieldOf(p, c);
            y.actions >= 0 && y.buys >= 0 && y.coins >= 0 && y.charges >= 0
  {
  }

  lemma KeepsFrame(s: State, t: State, y: Yield)
    requires Keeps(s, t, y) && y.actions >= 0 && y.buys >= 0 && y.coins >= 0 && y.charges >= 0
    ensures Frame(s, t)
  {
  }

  /** The turn's log after a play of `c` that hands out `y`. */
  function Played(t: Turn, c: Card, y: Yield): Turn {
    Turn(t.coins + y.coins, t.plays + [c], t.replays)
  }

  /** What one execution of `c` does: it is announced once and run once. */
  ghost predicate Executed(s: State, t: State, c: Card) {
    && Frame(s, t) && AskedOk(t) && t.plays == s.plays
    && (s.P(s.current).setAside == [] ==> AsideOk(t))
    && Paid(s, t, c)
  }

  /** The player got the yield of `c`, and the log says so. */
  predicate Paid(s: State, t: State, c: Card) {
    var y := YieldOf(s.P(s.current), c);
    Yields(s.P(s.current), t.P(s.current), y) && Tally(t.log) == Played(Tally(s.log), c, y)
  }

  /** A card already in play is executed and stays where it is. */
  ghost predicate PlayedInPlace(s: State, t: State, c: Card) {
    Executed(s, t, c) && t.P(s.current).inPlay == s.P(s.current).inPlay
  }

  /** Announcing an event changes nothing but the log. */
  lemma EmitFrame(s: State, e: Event)
    ensures Frame(s, s.Emit(e))
  {
    assert forall d :: Count(s.Emit(e), d) == Count(s, d);
    hide Tally, Count;
  }

  lemma PlayInPlaceKeeps(s: State, c: Card)
    requires s.current < |s.players| && s.pending.None?
    ensures PlayedInPlace(s, PlayInPlace(s, s.current, c), c)
  {
    var s1 := s.Emit(CardPlayed(s.current, c));
    var y := YieldOf(s.P(s.current), c);
    var t := OnPlay(s1, s.current, c);
    TallyEmit(s.log, CardPlayed(s.current, c));
    hide OnPlay, YieldOf, Tally, Count, AsideOk, AskedOk;
    EmitFrame(s, CardPlayed(s.current, c));
    OnPlayKeeps(s1, c);
    if s.P(s.current).setAside == [] { PlayAside(s1, c); }
    YieldPositive(s.P(s.current), c);
    KeepsFrame(s1, t, y);
    FrameTrans(s, s1, t);
  }

  /** The current player's seat with `c` moved from the hand or the discard pile into play. */
  ghost predicate IntoPlay(p: PlayerState, q: PlayerState, c: Card) {
    && SameResources(p, q) && q.inPlay == p.inPlay + [c] && q.setAside == p.setAside
    && (forall d :: Copies(q, d) == Copies(p, d))
  }

  lemma IntoPlayFrame(s: State, t: State, q: PlayerState, c: Card)
    requires s.current < |s.players|
    requires IntoPlay(s.P(s.current), q, c)
    requires t == s.(players := s.players[s.current := q], plays := t.plays, log := t.log)
    ensures Frame(s, t)
  {
    hide Copies;
    forall d ensures Count(t, d) == Count(s, d) {
      HeldUpdate(s.players, s.current, q, d);
    }
  }

  lemma FromHandIntoPlay(p: PlayerState, c: Card)
    requires c in p.hand
    ensures IntoPlay(p, p.(hand := Without(p.hand, c), inPlay := p.inPlay + [c]), c)
  {
  }

  lemma FromDiscardIntoPlay(p: PlayerState, c: Card)
    requires c in p.discard
    ensures IntoPlay(p, p.(discard := Without(p.discard, c), inPlay := p.inPlay + [c]), c)
  {
  }

  /** A card that reaches play is played once and stays there. */
  ghost predicate PlayedFromZone(s: State, t: State, c: Card) {
    Executed(s, t, c) && t.P(s.current).inPlay == s.P(s.current).inPlay + [c]
  }

  lemma EnterAndPlay(s: State, q: PlayerState, c: Card)
    requires s.current < |s.players| && s.pending.None?
    requires IntoPlay(s.P(s.current), q, c) && YieldOf(q, c) == YieldOf(s.P(s.current), c)
    ensures PlayedFromZone(s, PlayInPlace(s.With(s.current, q), s.current, c), c)
  {
    var s1 := s.With(s.current, q);
    hide PlayInPlace, YieldOf, Tally, Count, Copies, Frame, Played, AsideOk;
    IntoPlayFrame(s, s1, q, c);
    PlayInPlaceKeeps(s1, c);
    FrameTrans(s, s1, PlayInPlace(s1, s.current, c));
  }

  /** Playing from a zone fails without a trace exactly when the card is unknown or not there. */
  lemma PlayFromZoneKeeps(s: State, c: Card, from: Zone)
    requires s.current < |s.players| && s.pending.None?
    ensures var r := PlayCardFromZone(s, s.current, c, from);
            if r.error.Some? then r.state == s else PlayedFromZone(s, r.state, c)
    ensures PlayCardFromZone(s, s.current, c, from).error.None? <==>
              Known(c) && (if from == FromHand then c in s.P(s.current).hand else c in s.P(s.current).discard)
  {
    var p := s.P(s.current);
    hide PlayInPlace, Without, IntoPlay, PlayedFromZone, Printed;
    if Known(c) && from == FromHand && c in p.hand {
      FromHandIntoPlay(p, c);
      EnterAndPlay(s, p.(hand := Without(p.hand, c), inPlay := p.inPlay + [c]), c);
    } else if Known(c) && from == FromDiscard && c in p.discard {
      FromDiscardIntoPlay(p, c);
      EnterAndPlay(s, p.(discard := Without(p.discard, c), inPlay := p.inPlay + [c]), c);
    }
  }
}
