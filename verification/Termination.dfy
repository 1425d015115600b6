/** Every turn is finite, whatever the players answer. */
module Termination {
  import opened Cards
  import opened States
  import opened Zones
  import opened Primitives
  import opened Effects
  import opened Engine
  import opened Census
  import opened Frames
  import opened Invariants
  import opened Plays
  import opened Resolutions
  import opened Runs
  import opened GameLaws

  // ----- How many cards there are -----

  function CountAll(s: State, cards: seq<Card>): int {
    if cards == [] then 0 else Count(s, cards[0]) + CountAll(s, cards[1..])
  }

  /** All cards of the game. */
  function Total(s: State): int {
    CountAll(s, REGISTRY)
  }

  lemma {:induction false} CountAllSame(s: State, t: State, cards: seq<Card>)
    requires Conserved(s, t)
    ensures CountAll(s, cards) == CountAll(t, cards)
  {
    hide Count;
    if cards != [] { CountAllSame(s, t, cards[1..]); }
  }

  function MultiplicityAll(zone: seq<Card>, cards: seq<Card>): nat {
    if cards == [] then 0 else multiset(zone)[cards[0]] + MultiplicityAll(zone, cards[1..])
  }

  lemma {:induction false} OneMore(zone: seq<Card>, x: Card, cards: seq<Card>)
    ensures MultiplicityAll(zone + [x], cards) >= MultiplicityAll(zone, cards) + (if x in cards then 1 else 0)
  {
    if cards != [] { OneMore(zone, x, cards[1..]); }
  }

  lemma {:induction false} ZoneBound(zone: seq<Card>, cards: seq<Card>)
    requires forall c :: c in zone ==> c in cards
    ensures |zone| <= MultiplicityAll(zone, cards)
  {
    if zone != [] {
      var k := |zone| - 1;
      assert zone == zone[..k] + [zone[k]];
      ZoneBound(zone[..k], cards);
      OneMore(zone[..k], zone[k], cards);
    }
  }

  lemma {:induction false} CountBound(s: State, i: nat, cards: seq<Card>)
    requires i < |s.players| && Stocked(s)
    ensures MultiplicityAll(s.P(i).inPlay, cards) <= CountAll(s, cards)
  {
    if cards != [] {
      HeldByOne(s.players, i, cards[0]);
      CountBound(s, i, cards[1..]);
    }
  }

  lemma Registered(c: Card)
    requires Known(c)
    ensures c in REGISTRY
  {
    var r := REGISTRY;
    assert |r| == 33;
    match c
    case Copper => assert r[0] == c;
    case Silver => assert r[1] == c;
    case Gold => assert r[2] == c;
    case Estate => assert r[3] == c;
    case Duchy => assert r[4] == c;
    case Province => assert r[5] == c;
    case Curse => assert r[6] == c;
    case Artisan => assert r[7] == c;
    case Bandit => assert r[8] == c;
    case Bureaucrat => assert r[9] == c;
    case Cellar => assert r[10] == c;
    case Chapel => assert r[11] == c;
    case CouncilRoom => assert r[12] == c;
    case Festival => assert r[13] == c;
    case Gardens => assert r[14] == c;
    case Harbinger => assert r[15] == c;
    case Laboratory => assert r[16] == c;
    case Library => assert r[17] == c;
    case Market => assert r[18] == c;
    case Merchant => assert r[19] == c;
    case Militia => assert r[20] == c;
    case Mine => assert r[21] == c;
    case Moat => assert r[22] == c;
    case Moneylender => assert r[23] == c;
    case Poacher => assert r[24] == c;
    case Remodel => assert r[25] == c;
    case Sentry => assert r[26] == c;
    case Smithy => assert r[27] == c;
    case ThroneRoom => assert r[28] == c;
    case Vassal => assert r[29] == c;
    case Village => assert r[30] == c;
    case Witch => assert r[31] == c;
    case Workshop => assert r[32] == c;
  }

  lemma InPlayKnown(s: State, i: nat)
    requires NoUnknown(s) && Stocked(s) && i < |s.players|
    ensures forall c :: c in s.P(i).inPlay ==> c in REGISTRY
  {
    forall c | c in s.P(i).inPlay ensures c in REGISTRY {
      HeldByOne(s.players, i, c);
      assert Count(s, c) > 0;
      Registered(c);
    }
  }

  /** There are never more cards in play than cards. */
  lemma InPlayBound(s: State)
    requires Inv(s)
    ensures |s.P(s.current).inPlay| <= Total(s)
  {
    InPlayKnown(s, s.current);
    ZoneBound(s.P(s.current).inPlay, REGISTRY);
    CountBound(s, s.current, REGISTRY);
  }

  // ----- The measure -----

  /** What is left to do for the suspended card. */
  function ChainWork(s: State): nat {
    if s.pending.None? then 0
    else
      var d := s.pending.value;
      match d.card
      case Library => 1 + Available(s.P(d.player))
      case Militia | Bureaucrat | Bandit => 1 + (if d.context.AttackContext? then |d.context.remaining| else 0)
      case Sentry => if d.step <= 2 then 3 - d.step else 1
      case Artisan | Mine | Remodel => if d.step <= 1 then 2 - d.step else 1
      case _ => 1
  }

  /** The measure of a turn, most significant part first. */
  datatype Measure = Measure(phases: nat, unplayed: nat, owed: nat, chain: nat, buys: nat)

  function MeasureOf(s: State): Measure
    requires Inv(s)
  {
    InPlayBound(s);
    Measure(if s.phase == ActionPhase then 1 else 0, Total(s) - |s.P(s.current).inPlay|, |s.plays|, ChainWork(s),
            s.P(s.current).buys)
  }

  predicate Less(m: Measure, n: Measure) {
    || m.phases < n.phases
    || (m.phases == n.phases && (
        || m.unplayed < n.unplayed
        || (m.unplayed == n.unplayed && (
            || m.owed < n.owed
            || (m.owed == n.owed && (
                || m.chain < n.chain
                || (m.chain == n.chain && m.buys < n.buys)))))))
  }

  // ----- Chains shorten -----

  /** If a decision is left, it belongs to the same card and less remains to be done. */
  predicate Shorter(t: State, c: Card, work: nat) {
    t.pending.Some? ==> t.pending.value.card == c && ChainWork(t) < work
  }

  lemma {:induction false} LibraryShortens(s: State)
    requires s.pending.None? && s.current < |s.players|
    ensures Shorter(LibraryStep(s, s.current), Library, 1 + Available(s.P(s.current)))
    decreases Available(s.P(s.current))
  {
    hide DrawOne;
    if |s.P(s.current).hand| < 7 && Available(s.P(s.current)) > 0 {
      var s1 := DrawOne(s, s.current);
      if !IsAction(s1.P(s.current).hand[|s1.P(s.current).hand| - 1]) { LibraryShortens(s1); }
    }
  }

  lemma {:induction false} MilitiaShortens(s: State, attacker: nat, victims: seq<nat>)
    requires s.pending.None?
    ensures Shorter(MilitiaQueue(s, attacker, victims), Militia, 1 + |victims|)
    decreases |victims|
  {
    if victims != [] && |s.P(victims[0]).hand| <= 3 { MilitiaShortens(s, attacker, victims[1..]); }
  }

  lemma {:induction false} BureaucratShortens(s: State, attacker: nat, victims: seq<nat>)
    requires s.pending.None?
    ensures Shorter(BureaucratQueue(s, attacker, victims), Bureaucrat, 1 + |victims|)
    decreases |victims|
  {
    hide BureaucratUnasked;
    if victims != [] && |VictoriesIn(s.P(victims[0]).hand)| <= 1 {
      BureaucratShortens(BureaucratUnasked(s, victims[0]), attacker, victims[1..]);
    }
  }

  lemma {:induction false} BanditShortens(s: State, attacker: nat, victims: seq<nat>)
    requires s.pending.None?
    ensures Shorter(BanditQueue(s, attacker, victims), Bandit, 1 + |victims|)
    decreases |victims|
  {
    hide BanditUnasked, BanditReveal, NonCopperTreasures;
    if victims != [] {
      var (s1, revealed) := BanditReveal(s, victims[0]);
      if |NonCopperTreasures(revealed)| <= 1 {
        BanditShortens(BanditUnasked(s1, victims[0], revealed), attacker, victims[1..]);
      }
    }
  }

  lemma {:induction false} ReorderEnds(s: State, px: nat, cards: seq<Card>)
    requires s.pending.None?
    ensures SentryReorder(s, px, cards).state.pending.None?
    decreases |cards|
  {
    hide SortOne;
    if cards != [] && cards[0] in s.P(px).setAside { ReorderEnds(SortOne(s, px, cards[0], ToDeck), px, cards[1..]); }
  }

  lemma SentryShortens(s: State, d: Decision, answer: Answer)
    requires s.pending.None? && d.card == Sentry && d.step <= 2
    ensures Shorter(ResolveSentry(s, d, answer).state, Sentry, 3 - d.step)
  {
    if answer.CardListAnswer? { ReorderEnds(s, d.player, answer.cards); }
    hide SortSetAside, SentryReorder, Deliver;
  }

  lemma ArtisanShortens(s: State, d: Decision, answer: Answer)
    requires s.pending.None? && d.step <= 1
    ensures Shorter(ResolveArtisan(s, d, answer).state, Artisan, 2 - d.step)
  {
    hide GainCard, MoveFromHand, Cost;
  }

  lemma MineShortens(s: State, d: Decision, answer: Answer)
    requires s.pending.None? && d.step <= 1
    ensures Shorter(ResolveMine(s, d, answer).state, Mine, 2 - d.step)
  {
    hide GainCard, MoveFromHand, Cost;
  }

  lemma RemodelShortens(s: State, d: Decision, answer: Answer)
    requires s.pending.None? && d.step <= 1
    ensures Shorter(ResolveRemodel(s, d, answer).state, Remodel, 2 - d.step)
  {
    hide GainCard, MoveFromHand, Cost;
  }

  lemma QueuesShorten(s: State, d: Decision, answer: Answer)
    requires s.pending.None? && d.context.AttackContext?
    ensures Shorter(ResolveBandit(s, d, answer).state, Bandit, 1 + |d.context.remaining|)
    ensures Shorter(ResolveBureaucrat(s, d, answer).state, Bureaucrat, 1 + |d.context.remaining|)
    ensures Shorter(ResolveMilitia(s, d, answer).state, Militia, 1 + |d.context.remaining|)
  {
    hide BanditTrash, BanditQueue, BureaucratQueue, MilitiaQueue, MoveFromHand, ChainWork;
    if answer.CardChoiceAnswer? {
      BanditShortens(BanditTrash(s, d.player, d.context.revealed, answer.card), d.context.attacker,
                     d.context.remaining);
    } else if answer.CardListAnswer? {
      BureaucratShortens(MoveFromHand(s, d.player, answer.cards, ToDeck), d.context.attacker, d.context.remaining);
      MilitiaShortens(MoveFromHand(s, d.player, answer.cards, ToDiscard), d.context.attacker, d.context.remaining);
    }
  }

  lemma LibraryAnswerShortens(s: State, d: Decision, answer: Answer)
    requires s.pending.None? && s.current < |s.players| && d.card == Library && Justified(s, d)
    ensures Shorter(ResolveLibrary(s, d, answer).state, Library, 1 + Available(s.P(d.player)))
  {
    hide LibraryStep, ChainWork, Without;
    if answer.YesNoAnswer? {
      LibraryShortens(if answer.yes then s else KeepDrawn(s, d.player, d.context.card));
    }
  }

  /** An answer that plays no card leaves less of the chain, or none. */
  lemma AnswerShortens(s: State, d: Decision, answer: Answer)
    requires s.pending.Some? && d == s.pending.value && s.current < |s.players| && Justified(s.(pending := None), d)
    requires d.card != ThroneRoom && d.card != Vassal
    ensures Shorter(OnResolve(s.(pending := None), d, answer).state, d.card, ChainWork(s))
  {
    var s0 := s.(pending := None);
    hide ResolveBandit, ResolveBureaucrat, ResolveMilitia, ResolveLibrary, ResolveSentry, ResolveArtisan, ResolveMine,
      ResolveRemodel, MoveFromHand, GainCard, DrawCards, AddCoins, Shorter, HasAction, HasTreasure, IsAction, TopDown,
      NonCopperTreasures, VictoriesIn, Opponents;
    match d.card
    case Bandit | Bureaucrat | Militia => QueuesShorten(s0, d, answer);
    case Library => LibraryAnswerShortens(s0, d, answer);
    case Sentry => SentryShortens(s0, d, answer);
    case Artisan => ArtisanShortens(s0, d, answer);
    case Mine => MineShortens(s0, d, answer);
    case Remodel => RemodelShortens(s0, d, answer);
    case _ => SimpleAnswersEnd(s0, d, answer);
  }

  /** The remaining cards ask once. */
  lemma SimpleAnswersEnd(s: State, d: Decision, answer: Answer)
    requires s.pending.None?
    requires match d.card
      case Cellar | Chapel | Harbinger | Moneylender | Poacher | Workshop => true
      case _ => false
    ensures Shorter(OnResolve(s, d, answer).state, d.card, 1)
  {
    hide MoveFromHand, GainCard, DrawCards, AddCoins, ChainWork, Cost;
  }

  // ----- Every accepted action descends -----

  /** What the measure looks at. */
  predicate SameWork(s: State, t: State) {
    && t.phase == s.phase && |t.P(t.current).inPlay| == |s.P(s.current).inPlay| && |t.plays| == |s.plays|
    && ChainWork(t) == ChainWork(s) && t.P(t.current).buys == s.P(s.current).buys
  }

  lemma TotalKept(s: State, t: State)
    requires Conserved(s, t)
    ensures Total(s) == Total(t)
  {
    CountAllSame(s, t, REGISTRY);
  }

  lemma SameMeasure(s: State, t: State)
    requires Inv(s) && Inv(t) && Conserved(s, t) && SameWork(s, t)
    ensures MeasureOf(t) == MeasureOf(s)
  {
    TotalKept(s, t);
    hide Inv, Conserved, Total, ChainWork;
  }

  /** A card entered play. */
  lemma MorePlayed(s: State, t: State)
    requires Inv(s) && Inv(t) && Conserved(s, t) && t.phase == s.phase
    requires |t.P(t.current).inPlay| > |s.P(s.current).inPlay|
    ensures Less(MeasureOf(t), MeasureOf(s))
  {
    TotalKept(s, t);
    hide Inv, Conserved, Total, ChainWork;
  }

  /** Nothing left play, and the stack or the chain got shorter. */
  lemma LessOwed(s: State, t: State)
    requires Inv(s) && Inv(t) && Conserved(s, t) && t.phase == s.phase
    requires |t.P(t.current).inPlay| >= |s.P(s.current).inPlay|
    requires |t.plays| < |s.plays| || (|t.plays| == |s.plays| && ChainWork(t) < ChainWork(s))
    ensures Less(MeasureOf(t), MeasureOf(s))
  {
    TotalKept(s, t);
    hide Inv, Conserved, Total, ChainWork;
  }

  lemma ChainPositive(s: State)
    requires s.pending.Some?
    ensures ChainWork(s) >= 1
  {
  }

  /** Before replays: a card entered play, or the stack is untouched and the chain is shorter. */
  predicate Descended(s: State, u: State) {
    || |u.P(s.current).inPlay| > |s.P(s.current).inPlay|
    || (u.plays == s.plays && ChainWork(u) < ChainWork(s))
  }

  lemma ChainGone(s: State, u: State)
    requires s.pending.Some? && u.pending.None? && u.plays == s.plays
    ensures Descended(s, u)
  {
    ChainPositive(s);
  }

  lemma ThroneDescends(s: State, d: Decision, answer: Answer)
    requires Inv(s) && s.pending == Some(d) && d.card == ThroneRoom
    ensures Descended(s, ResolveThroneRoom(s.(pending := None), d, answer).state)
  {
    var s0 := s.(pending := None);
    var r := ResolveThroneRoom(s0, d, answer);
    ClearingKeeps(s);
    HandKnown(s0, s0.current);
    hide ResolveThroneRoom, Executed, Inv, Base, ChainWork;
    ThroneRoomPlays(s0, d, answer);
    if r.error.Some? { ChainGone(s, s0); }
  }

  lemma EntersPlay(s: State, u: State)
    requires |u.P(s.current).inPlay| == |s.P(s.current).inPlay| + 1
    ensures Descended(s, u)
  {
  }

  lemma VassalDescends(s: State, d: Decision, answer: Answer)
    requires Inv(s) && s.pending == Some(d) && d.card == Vassal
    ensures Descended(s, ResolveVassal(s.(pending := None), d, answer).state)
  {
    hide ResolveVassal, PlayedFromZone, Inv, Base, ChainWork, Justified, Descended;
    var s0 := s.(pending := None);
    ClearingKeeps(s);
    NoCleanup(s0);
    VassalPlays(s0, d, answer);
    if answer == YesNoAnswer(true) {
      PlayedFacts(s0, ResolveVassal(s0, d, answer).state, d.context.card);
      EntersPlay(s, ResolveVassal(s0, d, answer).state);
    } else {
      ChainGone(s, s0);
    }
  }

  lemma OtherDescends(s: State, d: Decision, answer: Answer)
    requires Inv(s) && s.pending == Some(d) && d.card != ThroneRoom && d.card != Vassal
    ensures Descended(s, OnResolve(s.(pending := None), d, answer).state)
  {
    var s0 := s.(pending := None);
    ClearingKeeps(s);
    NoCleanup(s0);
    assert d.player < |s.players|;
    hide OnResolve, Inv, Base, ChainWork, Justified, Tally, Core;
    ResolveSettles(s0, d, answer);
    AnswerShortens(s, d, answer);
    var u := OnResolve(s0, d, answer).state;
    if u.pending.None? { ChainGone(s, u); }
  }

  lemma AnswerDescends(s: State, d: Decision, answer: Answer)
    requires Inv(s) && s.pending == Some(d)
    ensures Descended(s, OnResolve(s.(pending := None), d, answer).state)
  {
    if d.card == ThroneRoom {
      hide ResolveThroneRoom, Descended;
      ThroneDescends(s, d, answer);
    } else if d.card == Vassal {
      hide ResolveVassal, Descended;
      VassalDescends(s, d, answer);
    } else {
      hide OnResolve, Descended;
      OtherDescends(s, d, answer);
    }
  }

  /** Replays keep the descent: running one takes it off the stack. */
  lemma UnwindDescends(s: State, u: State)
    requires s.current == u.current < |u.players| && OwedOk(u) && AskedOk(u) && Descended(s, u)
    ensures var t := Unwind(u).state;
            || |t.P(s.current).inPlay| > |s.P(s.current).inPlay|
            || |t.plays| < |s.plays| || (t.plays == s.plays && ChainWork(t) < ChainWork(s))
  {
    if u.pending.Some? || u.plays == [] {
      hide AskedOk, ChainWork, PlayInPlace;
    } else {
      hide Unwind, AskedOk, ChainWork, Frame, AsideOk;
      UnwindKeeps(u);
    }
  }

  /** An answer that reached its card, accepted or refused, leaves less to do. */
  lemma ReachingDescends(s: State, act: Action)
    requires Inv(s) && s.players != [] && Reaches(s, act)
    ensures Inv(Apply(s, act).state) && Less(MeasureOf(Apply(s, act).state), MeasureOf(s))
  {
    var d := s.pending.value;
    var s0 := s.(pending := None);
    var r := OnResolve(s0, d, act.answer);
    var t := Apply(s, act).state;
    ApplyInv(s, act);
    ClearingKeeps(s);
    NoCleanup(s);
    assert d.player < |s.players|;
    assert t == (if r.error.Some? then r.state else Unwind(r.state).state) by { hide OnResolve, Unwind, Inv; }
    hide Inv, Apply, OnResolve, Unwind, Base, Justified, AskedOk, AsideOk, Reaches, ChainWork, Frame, Descended,
      Conserved, SupplyShrinks;
    OnResolveAnswers(s0, d, act.answer);
    AnswerDescends(s, d, act.answer);
    FrameFacts(s0, r.state);
    if r.error.None? {
      UnwindDescends(s, r.state);
      UnwindKeeps(r.state);
      FrameFacts(r.state, t);
    } else {
      DescendedCases(s, r.state);
    }
    if |t.P(s.current).inPlay| > |s.P(s.current).inPlay| { MorePlayed(s, t); } else { LessOwed(s, t); }
  }

  lemma DescendedCases(s: State, u: State)
    requires Descended(s, u)
    ensures |u.P(s.current).inPlay| > |s.P(s.current).inPlay| || (u.plays == s.plays && ChainWork(u) < ChainWork(s))
  {
  }

  lemma FrameFacts(s: State, t: State)
    requires Frame(s, t)
    ensures t.current == s.current && |t.players| == |s.players| && t.phase == s.phase
    ensures |t.P(s.current).inPlay| >= |s.P(s.current).inPlay|
  {
  }

  lemma SpendWork(s: State)
    requires s.current < |s.players|
    ensures var s1 := SpendAction(s, s.current);
            && SameWork(s, s) && SameWork(s, s1) && s1.P(s.current).inPlay == s.P(s.current).inPlay
            && s1.current == s.current && s1.phase == s.phase && s1.pending == s.pending && |s1.players| == |s.players|
  {
  }

  lemma PlayDescends(s: State, c: Card)
    requires Inv(s) && !s.ended && s.pending.None?
    ensures var r := ApplyPlayCard(s, s.current, c);
            Inv(r.state) && (if r.error.None? then Less(MeasureOf(r.state), MeasureOf(s))
                             else MeasureOf(r.state) == MeasureOf(s))
  {
    hide PlayCardFromZone, ApplyPlayCard, SpendAction, Executed, Inv, SupplyShrinks, Conserved, SameWork, ChainWork, Less,
      MeasureOf, IsAction, IsTreasure, Known;
    var s1 := SpendAction(s, s.current);
    var r := ApplyPlayCard(s, s.current, c);
    PlayInv(s, c);
    InvSeated(s);
    SpendWork(s);
    PlayCases(s, c);
    PlayFromZoneKeeps(s, c, FromHand);
    PlayFromZoneKeeps(s1, c, FromHand);
    if r.error.Some? {
      assert r.state == s || r.state == s1;
      SameMeasure(s, r.state);
    } else {
      assert |r.state.P(s.current).inPlay| > |s.P(s.current).inPlay|;
      PlayedTable(s, s1, r.state, c);
      MorePlayed(s, r.state);
    }
  }

  lemma PlayedTable(s: State, s1: State, t: State, c: Card)
    requires s1.current == s.current && s1.phase == s.phase
    requires Executed(s, t, c) || Executed(s1, t, c)
    ensures t.phase == s.phase && t.current == s.current
  {
  }

  lemma BuyDescends(s: State, c: Card)
    requires Inv(s) && !s.ended && s.pending.None?
    ensures var r := ApplyBuyCard(s, s.current, c);
            Inv(r.state) && (if r.error.None? then Less(MeasureOf(r.state), MeasureOf(s))
                             else MeasureOf(r.state) == MeasureOf(s))
  {
    var s1 := PayFor(s, s.current, c);
    var r := ApplyBuyCard(s, s.current, c);
    BuyInv(s, c);
    NoCleanup(s);
    PayForSpends(s, c);
    assert ChainWork(s) == 0;
    hide GainCard, ApplyBuyCard, PayFor, Spends, Inv, SupplyShrinks, Conserved, Total;
    SpendFields(s, s1);
    BuyCases(s, c);
    if r.error.None? {
      GainWork(s1, c);
      TotalKept(s, r.state);
    }
  }

  lemma GainWork(s: State, c: Card)
    requires s.current < |s.players|
    ensures var t := GainCard(s, s.current, c, GainToDiscard);
            && t.phase == s.phase && t.plays == s.plays && t.pending == s.pending && t.current == s.current
            && t.P(s.current).inPlay == s.P(s.current).inPlay && t.P(s.current).buys == s.P(s.current).buys
  {
  }

  lemma EndActionDescends(s: State)
    requires Inv(s) && !s.ended && s.pending.None? && s.phase == ActionPhase
    ensures Inv(ApplyEndPhase(s).state) && Less(MeasureOf(ApplyEndPhase(s).state), MeasureOf(s))
  {
    EndActionInv(s);
    hide Inv, Total, ChainWork;
  }

  /** An action of the current player while nothing is pending. */
  lemma OwnDescends(s: State, act: Action)
    requires Inv(s) && s.players != [] && !EndsTurn(s, act)
    requires !s.ended && s.pending.None? && act.player == s.current
    ensures var r := Apply(s, act);
            Inv(r.state) && (Less(MeasureOf(r.state), MeasureOf(s)) ||
                             (r.error.Some? && MeasureOf(r.state) == MeasureOf(s)))
  {
    hide ApplyPlayCard, ApplyBuyCard, ApplyEndPhase, MeasureOf, Less, Base, AskedOk;
    NoCleanup(s);
    hide Inv;
    match act
    case PlayCard(_, c) => PlayDescends(s, c);
    case BuyCard(_, c) => BuyDescends(s, c);
    case EndPhase(_) => EndActionDescends(s);
    case ResolveDecision(_, _, _) =>
  }

  /** Within a turn every accepted action descends and no rejected one ascends. */
  lemma Descent(s: State, act: Action)
    requires Inv(s) && s.players != [] && !EndsTurn(s, act)
    ensures var r := Apply(s, act);
            Inv(r.state) && (Less(MeasureOf(r.state), MeasureOf(s)) ||
                             (r.error.Some? && MeasureOf(r.state) == MeasureOf(s)))
  {
    hide Apply, Inv, MeasureOf, Reaches, EndsTurn;
    if Reaches(s, act) {
      ReachingDescends(s, act);
    } else if !s.ended && s.pending.None? && act.player == s.current {
      OwnDescends(s, act);
    } else {
      RefusedAtDoor(s, act);
    }
  }

  // ----- No endless turn -----

  /** An endless run: from each state the next one follows by some action, accepted or rejected. Only its first state is
      known to satisfy the invariant. */
  ghost predicate EndlessRun(run: nat -> State, acts: nat -> Action) {
    Inv(run(0)) && forall i: nat :: run(i).players != [] ==> run(i + 1) == Apply(run(i), acts(i)).state
  }

  predicate AcceptedAt(run: nat -> State, acts: nat -> Action, i: nat) {
    run(i).players != [] && Apply(run(i), acts(i)).error.None?
  }

  /** From `j` on nothing is accepted any more. */
  ghost predicate RejectedFrom(run: nat -> State, acts: nat -> Action, j: nat) {
    forall k: nat :: j <= k ==> !AcceptedAt(run, acts, k)
  }

  ghost predicate NeverEndsTurn(run: nat -> State, acts: nat -> Action, i: nat) {
    forall k: nat :: i <= k ==> !EndsTurn(run(k), acts(k))
  }

  lemma {:induction false} StaysInv(run: nat -> State, acts: nat -> Action, i: nat)
    requires EndlessRun(run, acts)
    ensures Inv(run(i)) && run(i).players != []
  {
    if i > 0 {
      StaysInv(run, acts, i - 1);
      ApplyInv(run(i - 1), acts(i - 1));
      assert run(i - 1 + 1) == Apply(run(i - 1), acts(i - 1)).state by { hide Inv, Apply; }
    }
    hide Apply, Base, AskedOk, Stepped;
    InvSeated(run(i));
  }

  lemma RunStep(run: nat -> State, acts: nat -> Action, i: nat)
    requires EndlessRun(run, acts)
    ensures Inv(run(i)) && run(i).players != [] && run(i + 1) == Apply(run(i), acts(i)).state && Inv(run(i + 1))
  {
    hide Inv, Apply;
    StaysInv(run, acts, i);
    StaysInv(run, acts, i + 1);
  }

  lemma {:induction false} NeverAscends(run: nat -> State, acts: nat -> Action, i: nat, j: nat)
    requires EndlessRun(run, acts) && i <= j && NeverEndsTurn(run, acts, i)
    ensures Inv(run(i)) && Inv(run(j))
    ensures MeasureOf(run(j)) == MeasureOf(run(i)) || Less(MeasureOf(run(j)), MeasureOf(run(i)))
    decreases j - i
  {
    hide Inv, MeasureOf, Apply, EndsTurn, EndlessRun;
    RunStep(run, acts, i);
    if i < j {
      Descent(run(i), acts(i));
      NeverAscends(run, acts, i + 1, j);
    }
  }

  /** Every turn is finite: in a run that from `i` on never ends a turn, some point is the last to accept an action. */
  lemma NoEndlessTurn(run: nat -> State, acts: nat -> Action, i: nat)
    requires EndlessRun(run, acts) && NeverEndsTurn(run, acts, i)
    ensures exists j: nat :: i <= j && RejectedFrom(run, acts, j)
  {
    hide Inv, EndlessRun;
    StaysInv(run, acts, i);
    LastAccepted(run, acts, i);
  }

  lemma {:induction false} LastAccepted(run: nat -> State, acts: nat -> Action, i: nat)
    requires EndlessRun(run, acts) && NeverEndsTurn(run, acts, i) && Inv(run(i))
    ensures exists j: nat :: i <= j && RejectedFrom(run, acts, j)
    decreases MeasureOf(run(i)).phases, MeasureOf(run(i)).unplayed, MeasureOf(run(i)).owed, MeasureOf(run(i)).chain,
              MeasureOf(run(i)).buys
  {
    hide Inv, MeasureOf, Apply, EndsTurn, EndlessRun, AcceptedAt;
    if k: nat :| i <= k && AcceptedAt(run, acts, k) {
      NeverAscends(run, acts, i, k);
      RunStep(run, acts, k);
      assert Apply(run(k), acts(k)).error.None? by { AcceptedMeans(run, acts, k); }
      Descent(run(k), acts(k));
      LastAccepted(run, acts, k + 1);
      var j: nat :| k + 1 <= j && RejectedFrom(run, acts, j);
      assert i <= j;
    } else {
      assert i <= i && RejectedFrom(run, acts, i);
    }
  }

  lemma AcceptedMeans(run: nat -> State, acts: nat -> Action, k: nat)
    requires AcceptedAt(run, acts, k)
    ensures run(k).players != [] && Apply(run(k), acts(k)).error.None?
  {
    hide Apply;
  }
}
