/** Accounting over a whole turn: who played what, what Throne Room owes, and where every coin came from. */
module Ledgers {
  import opened Cards
  import opened States
  import opened Zones
  import opened Primitives
  import opened Effects
  import opened Engine
  import opened Frames
  import opened Invariants
  import opened Plays
  import opened Resolutions
  import opened Runs
  import opened GameLaws
  import opened Acceptance
  import opened Discipline

  // ----- Reference definitions over the list of a turn's plays -----

  function PrintedCoins(plays: seq<Card>): int {
    if plays == [] then 0 else PrintedCoins(plays[..|plays| - 1]) + Printed(plays[|plays| - 1]).coins
  }

  function Occurrences(cards: seq<Card>, c: Card): nat {
    if cards == [] then 0
    else Occurrences(cards[..|cards| - 1], c) + (if cards[|cards| - 1] == c then 1 else 0)
  }

  /** The plays before the first Silver; all of them if there is none. */
  function BeforeSilver(plays: seq<Card>): seq<Card> {
    if Silver in plays then plays[..IndexOf(plays, Silver)] else plays
  }

  /** One coin for each Merchant played before the turn's first Silver; nothing without a Silver. */
  function BonusOf(plays: seq<Card>): nat {
    if Silver in plays then Occurrences(BeforeSilver(plays), Merchant) else 0
  }

  lemma OccurrencesSnoc(cards: seq<Card>, x: Card, c: Card)
    ensures Occurrences(cards + [x], c) == Occurrences(cards, c) + (if x == c then 1 else 0)
  {
    assert (cards + [x])[..|cards|] == cards;
  }

  lemma PrintedSnoc(plays: seq<Card>, x: Card)
    ensures PrintedCoins(plays + [x]) == PrintedCoins(plays) + Printed(x).coins
  {
    assert (plays + [x])[..|plays|] == plays;
    hide Printed;
  }

  /** The bonus is fixed by the first Silver. */
  lemma BonusSnoc(plays: seq<Card>, x: Card)
    ensures BonusOf(plays + [x]) ==
            if Silver in plays then BonusOf(plays) else if x == Silver then Occurrences(plays, Merchant) else 0
  {
    var more := plays + [x];
    if Silver in more {
      var i, j := IndexOf(more, Silver), IndexOf(plays, Silver);
      if Silver in plays {
        assert more[j] == Silver && Silver !in more[..j] by { assert more[..j] == plays[..j]; }
        assert i == j by { FirstIndex(more, i, j); }
        assert more[..i] == plays[..i];
      } else {
        FirstIndex(more, i, |plays|);
        assert more[..|plays|] == plays;
      }
    }
  }

  lemma FirstIndex(cards: seq<Card>, i: nat, j: nat)
    requires i < |cards| && j < |cards| && cards[i] == Silver && cards[j] == Silver
    requires Silver !in cards[..i] && Silver !in cards[..j]
    ensures i == j
  {
    assert forall k :: 0 <= k < j ==> cards[k] != Silver;
    assert forall k :: 0 <= k < i ==> cards[k] != Silver;
  }

  /** How often a card is owed a replay. */
  function Owed(plays: seq<PendingPlay>, c: Card): nat {
    if plays == [] then 0
    else Owed(plays[..|plays| - 1], c) + (if plays[|plays| - 1].card == c then 1 else 0)
  }

  // ----- The ledger -----

  /** What the accepted actions of the current turn did: Moneylender's payments, the costs of buys, the cards played
      from hand or by Vassal, and the cards chosen for Throne Room. */
  datatype Ledger = Ledger(lent: int, spent: int, direct: seq<Card>, throned: seq<Card>)

  const NEW_TURN := Ledger(0, 0, [], [])

  function Entry(l: Ledger, s: State, act: Action): Ledger
    requires s.players != []
  {
    if EndsTurn(s, act) then NEW_TURN
    else if Apply(s, act).error.Some? then l
    else match act
      case PlayCard(_, c) => l.(direct := l.direct + [c])
      case BuyCard(_, c) => l.(spent := l.spent + Cost(c))
      case EndPhase(_) => l
      case ResolveDecision(_, _, answer) =>
        if s.pending.None? then l
        else
          var d := s.pending.value;
          if d.card == ThroneRoom then (if answer.CardChoiceAnswer? then l.(throned := l.throned + [answer.card]) else l)
          else if d.card == Vassal then
            (if answer == YesNoAnswer(true) && d.context.CardContext? then l.(direct := l.direct + [d.context.card])
             else l)
          else l.(lent := l.lent + Payment(d, answer))
  }

  function RunLedger(l: Ledger, s: State, acts: seq<Action>): Ledger
    requires s.players != []
    decreases |acts|
  {
    if acts == [] then l else RunLedger(Entry(l, s, acts[0]), Apply(s, acts[0]).state, acts[1..])
  }

  /** Coins: what was added is what the plays print, the Merchant bonus and the loans; what is left is that minus the
      costs of buys. Merchant charges and the Silver flag say what was played. */
  predicate Money(s: State, lent: int, spent: int) {
    var t, p := Tally(s.log), s.P(s.current);
    && t.coins == PrintedCoins(t.plays) + BonusOf(t.plays) + lent
    && p.coins == t.coins - spent
    && p.charges == Occurrences(t.plays, Merchant)
    && p.firstSilver == (Silver in t.plays)
  }

  /** Every card was run once for each time it was played or chosen for Throne Room, and once more for each replay
      that is no longer owed. */
  ghost predicate PlaysBalance(s: State, direct: seq<Card>, throned: seq<Card>) {
    var t := Tally(s.log);
    forall c :: Occurrences(t.plays, c) + Owed(s.plays, c) == Occurrences(direct, c) + 2 * Occurrences(throned, c) &&
                Occurrences(t.replays, c) + Owed(s.plays, c) == Occurrences(throned, c)
  }

  ghost predicate Books(s: State, l: Ledger) {
    Money(s, l.lent, l.spent) && PlaysBalance(s, l.direct, l.throned)
  }

  // ----- Single steps -----

  /** What a play pays on top of its printed coins is what it adds to the bonus. */
  lemma BonusPaid(p: PlayerState, plays: seq<Card>, c: Card)
    requires p.charges == Occurrences(plays, Merchant) && p.firstSilver == (Silver in plays)
    ensures BonusOf(plays + [c]) == BonusOf(plays) + MerchantBonus(p, c)
  {
    BonusSnoc(plays, c);
    hide Occurrences, BeforeSilver;
  }

  lemma MoneyPlay(s: State, t: State, c: Card, lent: int, spent: int)
    requires Money(s, lent, spent) && t.current == s.current
    requires Paid(s, t, c)
    ensures Money(t, lent, spent)
  {
    hide Printed, Tally, PrintedCoins, BonusOf, Occurrences, MerchantBonus;
    var plays := Tally(s.log).plays;
    PrintedSnoc(plays, c);
    BonusPaid(s.P(s.current), plays, c);
    OccurrencesSnoc(plays, c, Merchant);
    PrintedFlags(c);
    assert (Silver in plays + [c]) == (Silver in plays || c == Silver);
  }

  lemma PrintedFlags(c: Card)
    ensures Printed(c).charges == (if c == Merchant then 1 else 0)
    ensures Printed(c).silver <==> c == Silver
  {
  }

  lemma MoneyQuiet(s: State, t: State, lent: int, spent: int, pay: int)
    requires Money(s, lent, spent) && t.current == s.current
    requires Tally(t.log) == Tally(s.log).(coins := Tally(s.log).coins + pay)
    requires Yields(s.P(s.current), t.P(s.current), NOTHING.(coins := pay, aside := true)) ||
             Yields(s.P(s.current), t.P(s.current), NOTHING.(coins := pay))
    ensures Money(t, lent + pay, spent)
  {
    hide Tally, PrintedCoins, BonusOf, Occurrences;
  }

  lemma OwedSnoc(plays: seq<PendingPlay>, pp: PendingPlay, c: Card)
    ensures Owed(plays + [pp], c) == Owed(plays, c) + (if pp.card == c then 1 else 0)
  {
    assert (plays + [pp])[..|plays|] == plays;
  }

  /** A card played directly. */
  lemma BalanceDirect(s: State, t: State, x: Card, direct: seq<Card>, throned: seq<Card>)
    requires PlaysBalance(s, direct, throned) && t.plays == s.plays && Tally(t.log).plays == Tally(s.log).plays + [x] &&
             Tally(t.log).replays == Tally(s.log).replays
    ensures PlaysBalance(t, direct + [x], throned)
  {
    hide Tally, Occurrences, Owed;
    forall c
      ensures Occurrences(Tally(t.log).plays, c) == Occurrences(Tally(s.log).plays, c) + (if x == c then 1 else 0)
      ensures Occurrences(direct + [x], c) == Occurrences(direct, c) + (if x == c then 1 else 0)
    {
      OccurrencesSnoc(Tally(s.log).plays, x, c);
      OccurrencesSnoc(direct, x, c);
    }
  }

  /** A card chosen for Throne Room: played once, owed once. */
  lemma BalanceThroned(s: State, t: State, x: Card, direct: seq<Card>, throned: seq<Card>)
    requires PlaysBalance(s, direct, throned) && t.plays == s.plays + [PendingPlay(s.current, x, ThroneRoom)]
    requires Tally(t.log).plays == Tally(s.log).plays + [x] &&
             Tally(t.log).replays == Tally(s.log).replays
    ensures PlaysBalance(t, direct, throned + [x])
  {
    hide Tally, Occurrences, Owed;
    forall c
      ensures Occurrences(Tally(t.log).plays, c) == Occurrences(Tally(s.log).plays, c) + (if x == c then 1 else 0)
      ensures Occurrences(throned + [x], c) == Occurrences(throned, c) + (if x == c then 1 else 0)
      ensures Owed(t.plays, c) == Owed(s.plays, c) + (if x == c then 1 else 0)
    {
      OccurrencesSnoc(Tally(s.log).plays, x, c);
      OccurrencesSnoc(throned, x, c);
      OwedSnoc(s.plays, PendingPlay(s.current, x, ThroneRoom), c);
    }
  }

  /** A replay: no longer owed, run once more. */
  lemma BalanceReplay(s: State, t: State, pp: PendingPlay, direct: seq<Card>, throned: seq<Card>)
    requires PlaysBalance(s, direct, throned) && s.plays == t.plays + [pp]
    requires Tally(t.log).plays == Tally(s.log).plays + [pp.card]
    requires Tally(t.log).replays == Tally(s.log).replays + [pp.card]
    ensures PlaysBalance(t, direct, throned)
  {
    var x := pp.card;
    hide Tally, Occurrences, Owed;
    forall c
      ensures Occurrences(Tally(t.log).plays, c) == Occurrences(Tally(s.log).plays, c) + (if x == c then 1 else 0)
      ensures Occurrences(Tally(t.log).replays, c) == Occurrences(Tally(s.log).replays, c) + (if x == c then 1 else 0)
      ensures Owed(s.plays, c) == Owed(t.plays, c) + (if x == c then 1 else 0)
    {
      OccurrencesSnoc(Tally(s.log).plays, x, c);
      OccurrencesSnoc(Tally(s.log).replays, x, c);
      OwedSnoc(t.plays, pp, c);
    }
  }

  lemma BalanceQuiet(s: State, t: State, direct: seq<Card>, throned: seq<Card>)
    requires PlaysBalance(s, direct, throned) && t.plays == s.plays
    requires Tally(t.log).plays == Tally(s.log).plays && Tally(t.log).replays == Tally(s.log).replays
    ensures PlaysBalance(t, direct, throned)
  {
    hide Tally, Occurrences, Owed;
  }

  // ----- Replays -----

  lemma ExecutedFacts(s: State, t: State, c: Card)
    requires Executed(s, t, c)
    ensures Frame(s, t) && Paid(s, t, c) && t.plays == s.plays && t.current == s.current && AskedOk(t)
    ensures Tally(t.log).plays == Tally(s.log).plays + [c] && Tally(t.log).replays == Tally(s.log).replays
  {
  }

  lemma ReplayBooks(s: State, s1: State, t: State, pp: PendingPlay, l: Ledger)
    requires Books(s, l) && s.plays == s1.plays + [pp] && s1.P(s1.current) == s.P(s.current)
    requires s1.log == s.log + [CardThroned(pp.player, pp.card)]
    requires Executed(s1, t, pp.card)
    ensures Books(t, l)
  {
    TallyEmit(s.log, CardThroned(pp.player, pp.card));
    hide Tally, PrintedCoins, BonusOf, Occurrences, Owed, Executed, Frame, Paid, AskedOk;
    ExecutedFacts(s1, t, pp.card);
    assert Money(s1, l.lent, l.spent);
    hide PlaysBalance, Money;
    MoneyPlay(s1, t, pp.card, l.lent, l.spent);
    BalanceReplay(s, t, pp, l.direct, l.throned);
  }

  /** The unwinder keeps the books. */
  lemma {:induction false} UnwindBooks(s: State, l: Ledger)
    requires s.current < |s.players| && OwedOk(s) && AskedOk(s) && Books(s, l)
    ensures Books(Unwind(s).state, l)
    decreases |s.plays|
  {
    hide Tally, PlayInPlace, AskedOk, Frame, Executed, Books;
    if s.pending.None? && s.plays != [] {
      var pp := s.plays[|s.plays| - 1];
      var s1 := s.(plays := s.plays[..|s.plays| - 1]).Emit(CardThroned(pp.player, pp.card));
      var s2 := PlayInPlace(s1, s.current, pp.card);
      PlayInPlaceKeeps(s1, pp.card);
      ExecutedFacts(s1, s2, pp.card);
      SameTableOf(s1, s2);
      ReplayBooks(s, s1, s2, pp, l);
      UnwindBooks(s2, l);
    }
  }

  // ----- One action -----

  lemma ClearedBooks(s: State, l: Ledger)
    requires Inv(s) && s.pending.Some? && Books(s, l)
    ensures Books(s.(pending := None), l) && s.pending.value.player < |s.players|
  {
    hide Tally, Occurrences, Owed, PrintedCoins, BonusOf, Justified, Prompted, Base;
  }

  /** An accepted answer, before replays: Moneylender's loan, a card played by Vassal, or a card doubled. */
  lemma AnswerBooks(s: State, s0: State, act: Action, l: Ledger)
    requires Inv(s) && s.players != [] && Reaches(s, act) && Books(s, l) && s0 == s.(pending := None)
    requires OnResolve(s0, s.pending.value, act.answer).error.None?
    requires Apply(s, act).error.None?
    ensures Books(OnResolve(s0, s.pending.value, act.answer).state, Entry(l, s, act))
  {
    hide Inv, Books, Base, Entry, Apply, Justified, OnResolve;
    var d := s.pending.value;
    ClearedBooks(s, l);
    ClearingKeeps(s);
    NoCleanup(s0);
    EntryOfAnswer(s, act, l);
    hide Reaches;
    if d.card == ThroneRoom {
      ThroneBooks(s0, d, act.answer, l);
    } else if d.card == Vassal {
      VassalBooks(s0, d, act.answer, l);
    } else {
      OtherBooks(s0, d, act.answer, l);
    }
  }

  /** The entry an accepted answer makes. */
  function AnswerEntry(l: Ledger, d: Decision, answer: Answer): Ledger {
    if d.card == ThroneRoom then (if answer.CardChoiceAnswer? then l.(throned := l.throned + [answer.card]) else l)
    else if d.card == Vassal then
      (if answer == YesNoAnswer(true) && d.context.CardContext? then l.(direct := l.direct + [d.context.card]) else l)
    else l.(lent := l.lent + Payment(d, answer))
  }

  lemma EntryOfAnswer(s: State, act: Action, l: Ledger)
    requires s.players != [] && Reaches(s, act) && Apply(s, act).error.None?
    ensures Entry(l, s, act) == AnswerEntry(l, s.pending.value, act.answer)
  {
    hide Apply, Payment;
  }

  lemma ThroneBooks(s: State, d: Decision, answer: Answer, l: Ledger)
    requires Base(s) && s.current < |s.players| && s.pending.None? && d.card == ThroneRoom && Justified(s, d)
    requires OnResolve(s, d, answer).error.None? && Books(s, l)
    ensures Books(OnResolve(s, d, answer).state, AnswerEntry(l, d, answer))
  {
    hide OnResolve, ResolveThroneRoom, Executed, Books, Base, Justified, Frame, Paid;
    var r := ResolveThroneRoom(s, d, answer);
    ResolversOf(s, d, answer);
    ThroneOwn(s, d);
    HandsKnown(s);
    ThroneRoomPlays(s, d, answer);
    var c := answer.card;
    var s1 := s.(plays := s.plays + [PendingPlay(s.current, c, ThroneRoom)]);
    ExecutedFacts(s1, r.state, c);
    assert Money(s1, l.lent, l.spent) && PlaysBalance(s, l.direct, l.throned) by { SameMoney(s, s1, l); }
    hide Money, PlaysBalance;
    MoneyPlay(s1, r.state, c, l.lent, l.spent);
    BalanceThroned(s, r.state, c, l.direct, l.throned);
    BooksFrom(r.state, l.(throned := l.throned + [c]));
  }

  lemma SameMoney(s: State, s1: State, l: Ledger)
    requires Books(s, l) && s1.log == s.log && s1.players == s.players && s1.current == s.current
    ensures Money(s1, l.lent, l.spent) && PlaysBalance(s, l.direct, l.throned)
  {
  }

  lemma BooksFrom(s: State, l: Ledger)
    requires Money(s, l.lent, l.spent) && PlaysBalance(s, l.direct, l.throned)
    ensures Books(s, l)
  {
  }

  /** A card played directly, from the hand or by Vassal. */
  lemma DirectBooks(s: State, t: State, c: Card, l: Ledger)
    requires Books(s, l) && Executed(s, t, c)
    ensures Books(t, l.(direct := l.direct + [c]))
  {
    hide Executed, Frame, Paid, Money, PlaysBalance;
    ExecutedFacts(s, t, c);
    MoneyPlay(s, t, c, l.lent, l.spent);
    BalanceDirect(s, t, c, l.direct, l.throned);
  }

  lemma VassalBooks(s: State, d: Decision, answer: Answer, l: Ledger)
    requires Base(s) && s.current < |s.players| && s.pending.None? && d.card == Vassal && Justified(s, d)
    requires OnResolve(s, d, answer).error.None? && Books(s, l)
    ensures Books(OnResolve(s, d, answer).state, AnswerEntry(l, d, answer))
  {
    hide OnResolve, ResolveVassal, Executed, Books, Base, Justified;
    var r := ResolveVassal(s, d, answer);
    ResolversOf(s, d, answer);
    VassalPlays(s, d, answer);
    if answer == YesNoAnswer(true) { DirectBooks(s, r.state, d.context.card, l); }
  }

  lemma OtherBooks(s: State, d: Decision, answer: Answer, l: Ledger)
    requires s.current < |s.players| && s.pending.None? && d.player < |s.players| && Justified(s, d)
    requires d.card != ThroneRoom && d.card != Vassal && Books(s, l)
    ensures Books(OnResolve(s, d, answer).state, AnswerEntry(l, d, answer))
  {
    hide OnResolve, Justified, AskedOk, Money, PlaysBalance;
    ResolveSettles(s, d, answer);
    var t := OnResolve(s, d, answer).state;
    var y := AnswerYield(d, answer);
    SettledMoney(s, t, y);
    MoneyQuiet(s, t, l.lent, l.spent, y.coins);
    BalanceQuiet(s, t, l.direct, l.throned);
  }

  lemma SettledMoney(s: State, t: State, y: Yield)
    requires Keeps(s, t, y) && y == NOTHING.(coins := y.coins, aside := y.aside)
    ensures t.current == s.current && t.plays == s.plays
    ensures Tally(t.log) == Tally(s.log).(coins := Tally(s.log).coins + y.coins)
    ensures Yields(s.P(s.current), t.P(s.current), NOTHING.(coins := y.coins))
  {
    hide Tally;
  }

  lemma ResolveBooks(s: State, act: Action, l: Ledger)
    requires Inv(s) && s.players != [] && Reaches(s, act) && Books(s, l)
    ensures Books(Apply(s, act).state, Entry(l, s, act))
  {
    hide Inv, Books, Base, Entry, Apply, Justified, OnResolve, Unwind, Frame, AskedOk;
    var d := s.pending.value;
    var s0 := s.(pending := None);
    var r := OnResolve(s0, d, act.answer);
    ClearedBooks(s, l);
    ClearingKeeps(s);
    OnResolveAnswers(s0, d, act.answer);
    ReachesCard(s, act);
    NoCleanup(s0);
    hide Reaches;
    assert r.state.current < |r.state.players| by { SameTableOf(s0, r.state); }
    if r.error.None? {
      UnwindKeeps(r.state);
      AnswerBooks(s, s0, act, l);
      UnwindBooks(r.state, Entry(l, s, act));
    } else {
      RefusedEntry(s, act, l);
      RefusedBooks(s0, d, act.answer, l);
    }
  }

  lemma RefusedEntry(s: State, act: Action, l: Ledger)
    requires s.players != [] && Apply(s, act).error.Some? && !EndsTurn(s, act)
    ensures Entry(l, s, act) == l
  {
    hide Apply;
  }

  lemma RefusedBooks(s: State, d: Decision, answer: Answer, l: Ledger)
    requires Base(s) && s.current < |s.players| && s.pending.None? && d.player < |s.players| && Justified(s, d)
    requires OnResolve(s, d, answer).error.Some? && Books(s, l)
    ensures Books(OnResolve(s, d, answer).state, l)
  {
    hide OnResolve, ResolveThroneRoom, ResolveVassal, PlayedFromZone, Books, Justified, Base;
    ResolversOf(s, d, answer);
    if d.card == ThroneRoom {
      assert OwnAsked(s, d) by { ThroneOwn(s, d); }
      HandsKnown(s);
      ThroneRoomPlays(s, d, answer);
    } else if d.card == Vassal {
      VassalPlays(s, d, answer);
    } else {
      RefusedPayment(s, d, answer);
      OtherBooks(s, d, answer, l);
    }
  }

  lemma ResolversOf(s: State, d: Decision, answer: Answer)
    ensures d.card == ThroneRoom ==> OnResolve(s, d, answer) == ResolveThroneRoom(s, d, answer)
    ensures d.card == Vassal ==> OnResolve(s, d, answer) == ResolveVassal(s, d, answer)
  {
    hide ResolveArtisan, ResolveBandit, ResolveBureaucrat, ResolveCellar, ResolveHarbinger, ResolveLibrary,
      ResolveMilitia, ResolveMine, ResolveMoneylender, ResolveRemodel, ResolveSentry, ResolveThroneRoom, ResolveVassal,
      ResolveWorkshop;
  }

  lemma ThroneOwn(s: State, d: Decision)
    requires Justified(s, d) && d.card == ThroneRoom
    ensures OwnAsked(s, d)
  {
  }

  lemma HandsKnown(s: State)
    requires Base(s)
    ensures forall c: Card :: c.Unknown? ==> c !in s.P(s.current).hand
  {
    HandKnown(s, s.current);
  }

  /** Moneylender pays only when it accepts the answer. */
  lemma RefusedPayment(s: State, d: Decision, answer: Answer)
    requires OnResolve(s, d, answer).error.Some?
    ensures Payment(d, answer) == 0
  {
    hide ResolveArtisan, ResolveBandit, ResolveBureaucrat, ResolveCellar, ResolveHarbinger, ResolveLibrary,
      ResolveMilitia, ResolveMine, ResolveRemodel, ResolveSentry, ResolveThroneRoom, ResolveVassal, ResolveWorkshop,
      MoveFromHand, AddCoins;
  }

  lemma PlayBooks(s: State, c: Card, l: Ledger)
    requires s.current < |s.players| && s.pending.None? && Books(s, l)
    ensures var r := ApplyPlayCard(s, s.current, c);
            Books(r.state, if r.error.None? then l.(direct := l.direct + [c]) else l)
  {
    var s1 := SpendAction(s, s.current);
    SpendActionSpends(s);
    assert Books(s1, l) by { SpentBooks(s, s1, 0, l); }
    hide PlayCardFromZone, Books, ApplyPlayCard, SpendAction, Spends, SameTurn;
    SpendFields(s, s1);
    PlayCases(s, c);
    FromHandBooks(s, c, l);
    FromHandBooks(s1, c, l);
  }

  lemma SpentBooks(s: State, s1: State, cost: int, l: Ledger)
    requires Spends(s, s1) && s1.P(s.current).coins == s.P(s.current).coins - cost && Books(s, l)
    ensures Books(s1, l.(spent := l.spent + cost))
  {
    hide Tally, Occurrences, Owed, PrintedCoins, BonusOf;
  }

  lemma FromHandBooks(s: State, c: Card, l: Ledger)
    requires s.current < |s.players| && s.pending.None? && Books(s, l)
    ensures var r := PlayCardFromZone(s, s.current, c, FromHand);
            Books(r.state, if r.error.None? then l.(direct := l.direct + [c]) else l)
  {
    hide PlayCardFromZone, Executed, Books;
    PlayFromZoneKeeps(s, c, FromHand);
    var r := PlayCardFromZone(s, s.current, c, FromHand);
    if r.error.None? { DirectBooks(s, r.state, c, l); }
  }

  lemma BuyBooks(s: State, c: Card, l: Ledger)
    requires s.current < |s.players| && s.pending.None? && Books(s, l)
    ensures var r := ApplyBuyCard(s, s.current, c);
            Books(r.state, if r.error.None? then l.(spent := l.spent + Cost(c)) else l)
  {
    var s1 := PayFor(s, s.current, c);
    PayForSpends(s, c);
    SpentBooks(s, s1, Cost(c), l);
    hide GainCard, Books, Cost, ApplyBuyCard, PayFor, Spends, SameTurn;
    SpendFields(s, s1);
    BuyCases(s, c);
    GainBooks(s1, c, l.(spent := l.spent + Cost(c)));
  }

  lemma GainBooks(s: State, c: Card, l: Ledger)
    requires s.current < |s.players| && Books(s, l)
    ensures Books(GainCard(s, s.current, c, GainToDiscard), l)
  {
    var t := GainCard(s, s.current, c, GainToDiscard);
    hide GainCard, Core, Tally, Money, PlaysBalance;
    KeepsSelf(s);
    GainCardKeeps(s, s, s.current, c, GainToDiscard, NOTHING);
    SettledMoney(s, t, NOTHING);
    MoneyQuiet(s, t, l.lent, l.spent, 0);
    BalanceQuiet(s, t, l.direct, l.throned);
  }

  lemma EndActionBooks(s: State, l: Ledger)
    requires s.players != [] && s.phase == ActionPhase && Books(s, l)
    ensures Books(ApplyEndPhase(s).state, l)
  {
    TallyEmit(s.log, PhaseChanged(s.current, BuyPhase));
    hide Tally, Occurrences, Owed, PrintedCoins, BonusOf;
  }

  /** A new turn starts with empty books. */
  lemma FreshBooks(u: State)
    requires Tally(u.log) == Turn(0, [], []) && u.plays == []
    requires var p := u.P(u.current); p.coins == 0 && p.charges == 0 && !p.firstSilver
    ensures Books(u, NEW_TURN)
  {
    hide Tally;
  }

  lemma EndBuyBooks(s: State)
    requires Inv(s) && !s.ended && s.pending.None? && s.phase == BuyPhase
    ensures s.players != [] && Books(ApplyEndPhase(s).state, NEW_TURN)
  {
    NoCleanup(s);
    CleanupPasses(s);
    EndBuyIs(s);
    EndBuyLog(s);
    var t, u := CleanupAndEndTurn(s), ApplyEndPhase(s).state;
    assert t.current != s.current by { hide CleanupAndEndTurn; TurnPassedInv(s, t); }
    hide ApplyEndPhase, CleanupAndEndTurn, Tally, Conserved, Books, IsGameOver;
    assert t.P(t.current) == s.P(t.current).(actions := 1, buys := 1, coins := 0);
    NextSeatIdle(s, t.current);
    assert u.P(u.current) == t.P(t.current);
    FreshBooks(u);
  }

  lemma NextSeatIdle(s: State, i: nat)
    requires Base(s) && i != s.current
    ensures Idle(s.P(i))
  {
  }

  lemma EndBuyLog(s: State)
    requires s.players != [] && s.phase == BuyPhase
    ensures Tally(ApplyEndPhase(s).state.log) == Tally(CleanupAndEndTurn(s).log)
  {
    hide CleanupAndEndTurn, Tally, ApplyEndPhase;
    TallyEmit(CleanupAndEndTurn(s).log, GameEnded);
    EndBuyEvents(s);
  }

  lemma EndBuyEvents(s: State)
    requires s.players != [] && s.phase == BuyPhase
    ensures var log := CleanupAndEndTurn(s).log;
            ApplyEndPhase(s).state.log == log || ApplyEndPhase(s).state.log == log + [GameEnded]
  {
    hide CleanupAndEndTurn, Scores, DetermineWinners, IsGameOver;
  }

  lemma EndPhaseBooks(s: State, l: Ledger)
    requires Inv(s) && !s.ended && s.pending.None? && Books(s, l)
    ensures s.players != []
    ensures Books(ApplyEndPhase(s).state, if s.phase == BuyPhase then NEW_TURN else l)
  {
    NoCleanup(s);
    hide Inv, Books, ApplyEndPhase;
    if s.phase == BuyPhase { EndBuyBooks(s); } else { EndActionBooks(s, l); }
  }

  /** An action of the current player while nothing is pending. */
  lemma OwnBooks(s: State, act: Action, l: Ledger)
    requires Inv(s) && s.players != [] && Books(s, l)
    requires !s.ended && s.pending.None? && act.player == s.current
    ensures Books(Apply(s, act).state, Entry(l, s, act))
  {
    hide ApplyPlayCard, ApplyBuyCard, ApplyEndPhase, Books, Inv, Cost;
    InvSeated(s);
    match act
    case PlayCard(_, c) => PlayBooks(s, c, l);
    case BuyCard(_, c) => BuyBooks(s, c, l);
    case EndPhase(_) => EndPhaseAccepted(s); EndPhaseBooks(s, l);
    case ResolveDecision(_, _, _) =>
  }

  /** Every action keeps the books. */
  lemma BooksStep(s: State, act: Action, l: Ledger)
    requires Inv(s) && s.players != [] && Books(s, l)
    ensures Books(Apply(s, act).state, Entry(l, s, act))
  {
    hide Apply, Inv, Books, Entry, Reaches;
    if Reaches(s, act) {
      ResolveBooks(s, act, l);
    } else if !s.ended && s.pending.None? && act.player == s.current {
      OwnBooks(s, act, l);
    } else {
      RefusedAtDoor(s, act);
      RefusedEntry(s, act, l);
    }
  }

  /** The books hold along every run. */
  lemma {:induction false} BooksOverRun(s: State, acts: seq<Action>, l: Ledger)
    requires Inv(s) && s.players != [] && Books(s, l)
    ensures Books(Run(s, acts), RunLedger(l, s, acts))
    decreases |acts|
  {
    hide Apply, Inv, Books, Entry;
    if acts != [] {
      ApplyInv(s, acts[0]);
      BooksStep(s, acts[0], l);
      BooksOverRun(Apply(s, acts[0]).state, acts[1..], Entry(l, s, acts[0]));
    }
  }

  // ----- What the books mean -----

  /** Each card chosen for Throne Room this turn has been run exactly twice, every other play exactly once, and there
      have been exactly as many replays as choices. */
  ghost predicate RunTwice(t: Turn, m: Ledger) {
    forall c :: Occurrences(t.plays, c) == Occurrences(m.direct, c) + 2 * Occurrences(m.throned, c) &&
                Occurrences(t.replays, c) == Occurrences(m.throned, c)
  }

  /** With no replay owed, and only then, the balance is exact. */
  lemma BalancedIdle(u: State, m: Ledger)
    requires PlaysBalance(u, m.direct, m.throned)
    ensures RunTwice(Tally(u.log), m) <==> u.plays == []
  {
    hide Tally, Occurrences;
    var t := Tally(u.log);
    if u.plays != [] {
      var c := u.plays[|u.plays| - 1].card;
      assert Owed(u.plays, c) > 0;
      assert Occurrences(t.replays, c) + Owed(u.plays, c) == Occurrences(m.throned, c);
    }
  }

  /** Throne Room: after any run the doubled cards have been run exactly twice if and only if no replay is owed. So it
      is at every idle point of a run that strands nothing. */
  lemma ThronedTwice(s: State, acts: seq<Action>, l: Ledger)
    requires Inv(s) && s.players != [] && Books(s, l)
    ensures var u := Run(s, acts);
            && (RunTwice(Tally(u.log), RunLedger(l, s, acts)) <==> u.plays == [])
            && (Tidy(s) && StrandsNothing(s, acts) && u.pending.None? ==> u.plays == [])
  {
    hide Inv, Run, RunLedger, Tally, Occurrences, Money, StrandsNothing, AllTidy, AsideOk, PlaysBalance, RunTwice;
    BooksOverRun(s, acts, l);
    BalancedIdle(Run(s, acts), RunLedger(l, s, acts));
    if Tidy(s) && StrandsNothing(s, acts) {
      TidyOverRun(s, acts);
      TidyAtEnd(s, acts);
    }
  }

  /** Merchant: whatever the run, the coins added this turn beyond the printed ones and Moneylender's are exactly one
      for each Merchant played, replays included, before the turn's first Silver; and coins in hand are coins added
      minus coins spent. */
  lemma CoinsAccounted(s: State, acts: seq<Action>, l: Ledger)
    requires Inv(s) && s.players != [] && Books(s, l)
    ensures var u := Run(s, acts);
            var t, m := Tally(u.log), RunLedger(l, s, acts);
            && t.coins - PrintedCoins(t.plays) - m.lent ==
               (if Silver in t.plays then Occurrences(t.plays[..IndexOf(t.plays, Silver)], Merchant) else 0)
            && u.P(u.current).coins == t.coins - m.spent
  {
    BooksOverRun(s, acts, l);
    hide Inv, Run, RunLedger, Tally, Occurrences, PrintedCoins, PlaysBalance;
  }

  // ----- When an owed replay runs -----

  /** The cards of the stack, latest first. */
  function LatestFirst(plays: seq<PendingPlay>): seq<Card> {
    if plays == [] then [] else [plays[|plays| - 1].card] + LatestFirst(plays[..|plays| - 1])
  }

  /** The replays owed once the answer has been taken: Throne Room adds the chosen card. */
  function OwedBy(s: State, d: Decision, answer: Answer): seq<PendingPlay> {
    if d.card == ThroneRoom && Takes(s, d, answer) then s.plays + [PendingPlay(s.current, answer.card, ThroneRoom)]
    else s.plays
  }

  /** The answer is taken and leaves no decision live. */
  predicate Releases(s: State, act: Action) {
    && Reaches(s, act) && Takes(s, s.pending.value, act.answer)
    && OnResolve(s.(pending := None), s.pending.value, act.answer).state.pending.None?
  }

  /** From the stack `owed` the replays above the new stack have run, from the top down. */
  predicate Replayed(s: State, t: State, owed: seq<PendingPlay>) {
    t.plays <= owed && Tally(t.log).replays == Tally(s.log).replays + LatestFirst(owed[|t.plays|..])
  }

  lemma NothingReplayed(s: State, t: State)
    requires Tally(t.log).replays == Tally(s.log).replays
    ensures Replayed(s, t, t.plays)
  {
    hide Tally;
    var owed := t.plays;
    assert owed[|owed|..] == [] && LatestFirst([]) == [];
  }

  lemma OneMore(s: State, s1: State, t: State, owed: seq<PendingPlay>, pp: PendingPlay)
    requires Tally(s1.log).replays == Tally(s.log).replays + [pp.card] && Replayed(s1, t, owed)
    ensures Replayed(s, t, owed + [pp])
  {
    hide Tally;
    var k := |t.plays|;
    assert (owed + [pp])[k..] == owed[k..] + [pp];
    assert (owed[k..] + [pp])[..|owed[k..]|] == owed[k..];
    assert LatestFirst(owed[k..] + [pp]) == [pp.card] + LatestFirst(owed[k..]);
    SeqAssoc(Tally(s.log).replays, [pp.card], LatestFirst(owed[k..]));
  }

  lemma SeqAssoc(a: seq<Card>, b: seq<Card>, c: seq<Card>)
    ensures (a + b) + c == a + (b + c)
  {
  }

  /** The unwinder runs replays from the top of the stack down. */
  lemma {:induction false} UnwindReplays(s: State)
    requires s.current < |s.players| && OwedOk(s) && AskedOk(s)
    ensures Replayed(s, Unwind(s).state, s.plays)
    decreases |s.plays|
  {
    hide Tally, PlayInPlace, AskedOk, Frame, Executed, Replayed, LatestFirst, Paid;
    if s.pending.None? && s.plays != [] {
      var pp := s.plays[|s.plays| - 1];
      var rest := s.plays[..|s.plays| - 1];
      var s1 := s.(plays := rest).Emit(CardThroned(pp.player, pp.card));
      var s2 := PlayInPlace(s1, s.current, pp.card);
      TallyEmit(s.log, CardThroned(pp.player, pp.card));
      PlayInPlaceKeeps(s1, pp.card);
      ExecutedFacts(s1, s2, pp.card);
      SameTableOf(s1, s2);
      UnwindReplays(s2);
      assert s.plays == rest + [pp];
      OneMore(s, s2, Unwind(s2).state, rest, pp);
    } else {
      NothingReplayed(s, s);
    }
  }

  /** An answer runs no replay itself. */
  lemma AnswerReplays(s: State, d: Decision, answer: Answer)
    requires Live(s, d)
    ensures var t := OnResolve(s, d, answer).state;
            t.plays == OwedBy(s, d, answer) && Tally(t.log).replays == Tally(s.log).replays
  {
    assert d.player < |s.players| && Justified(s, d) && Base(s);
    NoCleanup(s);
    TakenExactly(s, d, answer);
    ResolversOf(s, d, answer);
    hide OnResolve, ResolveThroneRoom, ResolveVassal, Executed, Justified, Base, Frame, Paid, Live, Takes, Tally, Keeps,
      AskedOk;
    var r := OnResolve(s, d, answer);
    if d.card == ThroneRoom {
      ThroneOwn(s, d);
      HandsKnown(s);
      ThroneRoomPlays(s, d, answer);
      if r.error.None? {
        ExecutedFacts(s.(plays := s.plays + [PendingPlay(s.current, answer.card, ThroneRoom)]), r.state, answer.card);
      }
    } else if d.card == Vassal {
      VassalPlays(s, d, answer);
      if answer == YesNoAnswer(true) { ExecutedFacts(s, r.state, d.context.card); }
    } else {
      ResolveSettles(s, d, answer);
      SettledMoney(s, r.state, AnswerYield(d, answer));
    }
  }

  lemma SameOwedBy(s: State, d: Decision, answer: Answer)
    ensures OwedBy(s.(pending := None), d, answer) == OwedBy(s, d, answer)
  {
    SameTakes(s, d, answer);
    hide Takes;
  }

  lemma ReplayedFrom(s: State, s1: State, t: State, owed: seq<PendingPlay>)
    requires Replayed(s1, t, owed) && Tally(s1.log).replays == Tally(s.log).replays
    ensures Replayed(s, t, owed)
  {
    hide Tally, LatestFirst;
  }

  /** The answer `r` and then the unwinder. */
  lemma UnwoundReplays(s: State, r: State, owed: seq<PendingPlay>)
    requires r.current < |r.players| && OwedOk(r) && AskedOk(r)
    requires r.plays == owed && Tally(r.log).replays == Tally(s.log).replays
    ensures var t := Unwind(r).state;
            && Replayed(s, t, owed)
            && (if r.pending.None? then (owed != [] ==> |t.plays| < |owed|) && (t.pending.None? ==> t.plays == [])
                else t.plays == owed)
  {
    hide Unwind, AskedOk, OwedOk, Frame, Replayed, Tally;
    UnwindKeeps(r);
    UnwindReplays(r);
    if r.pending.Some? { UnwindPending(r); }
    ReplayedFrom(s, r, Unwind(r).state, owed);
  }

  lemma ReachingReplays(s: State, act: Action)
    requires Inv(s) && s.players != [] && Reaches(s, act)
    ensures var t, owed := Apply(s, act).state, OwedBy(s, s.pending.value, act.answer);
            && Replayed(s, t, owed)
            && (if Releases(s, act) then (owed != [] ==> |t.plays| < |owed|) && (t.pending.None? ==> t.plays == [])
                else t.plays == owed)
  {
    var d := s.pending.value;
    var s0 := s.(pending := None);
    var r := OnResolve(s0, d, act.answer);
    StillLive(s);
    assert Base(s0) && d.player < |s0.players| && Justified(s0, d);
    NoCleanup(s0);
    ReachesCard(s, act);
    SameTakes(s, d, act.answer);
    SameOwedBy(s, d, act.answer);
    hide OnResolve, Inv, Justified, Live, Base, Unwind, Frame, AskedOk, OwedBy, Tally, LatestFirst, Takes, Reaches,
      Apply, Replayed, OwedOk;
    TakenExactly(s0, d, act.answer);
    OnResolveAnswers(s0, d, act.answer);
    AnswerReplays(s0, d, act.answer);
    SameTableOf(s0, r.state);
    if r.error.None? {
      UnwoundReplays(s, r.state, OwedBy(s, d, act.answer));
    } else {
      NothingReplayed(s, r.state);
    }
  }

  lemma UnwindPending(s: State)
    requires s.pending.Some?
    ensures Unwind(s).state == s
  {
  }

  lemma PlayReplays(s: State, c: Card)
    requires s.current < |s.players| && s.pending.None?
    ensures var t := ApplyPlayCard(s, s.current, c).state;
            t.plays == s.plays && Tally(t.log).replays == Tally(s.log).replays
  {
    var s1 := SpendAction(s, s.current);
    SpendActionSpends(s);
    hide PlayCardFromZone, ApplyPlayCard, SpendAction, Spends, SameTurn, Tally;
    SpendFields(s, s1);
    PlayCases(s, c);
    FromHandReplays(s, c);
    FromHandReplays(s1, c);
  }

  lemma FromHandReplays(s: State, c: Card)
    requires s.current < |s.players| && s.pending.None?
    ensures var t := PlayCardFromZone(s, s.current, c, FromHand).state;
            t.plays == s.plays && Tally(t.log).replays == Tally(s.log).replays
  {
    hide PlayCardFromZone, Executed, Tally;
    PlayFromZoneKeeps(s, c, FromHand);
    var r := PlayCardFromZone(s, s.current, c, FromHand);
    if r.error.None? { ExecutedFacts(s, r.state, c); }
  }

  lemma BuyReplays(s: State, c: Card)
    requires s.current < |s.players|
    ensures var t := ApplyBuyCard(s, s.current, c).state;
            t.plays == s.plays && Tally(t.log).replays == Tally(s.log).replays
  {
    var s1 := PayFor(s, s.current, c);
    PayForSpends(s, c);
    TallyEmit(s1.log, CardGained(s.current, c));
    hide Cost, ApplyBuyCard, PayFor, Spends, SameTurn, Tally;
    SpendFields(s, s1);
    BuyCases(s, c);
  }

  /** An action of the current player while nothing is pending runs no replay. */
  lemma OwnReplays(s: State, act: Action)
    requires Inv(s) && s.players != [] && !EndsTurn(s, act)
    requires !s.ended && s.pending.None? && act.player == s.current
    ensures var t := Apply(s, act).state;
            t.plays == s.plays && Tally(t.log).replays == Tally(s.log).replays
  {
    NoCleanup(s);
    TallyEmit(s.log, PhaseChanged(s.current, BuyPhase));
    hide ApplyPlayCard, ApplyBuyCard, CleanupAndEndTurn, Inv, Cost, Tally;
    match act
    case PlayCard(_, c) => PlayReplays(s, c);
    case BuyCard(_, c) => BuyReplays(s, c);
    case EndPhase(_) =>
    case ResolveDecision(_, _, _) =>
  }

  /** When an owed replay runs, in every reachable state and for every action: never while a decision is
      live, never at a play, a buy or a refused answer, but as soon as an answer leaves no decision live; then from the
      top of the stack down, until one of them asks or none is left. So the second play waits for every question of the
      first, nested Throne Rooms included, and a replay that a refused answer left behind runs after the next answer
      that leaves nothing to ask, whatever card it belongs to. The end of the turn drops what is still owed. */
  lemma ReplayWaits(s: State, act: Action)
    requires Inv(s)
    ensures s.players != []
    ensures var t := Apply(s, act).state;
            if EndsTurn(s, act) then t.plays == [] && Tally(t.log).replays == []
            else if Releases(s, act) then
              var owed := OwedBy(s, s.pending.value, act.answer);
              && Replayed(s, t, owed) && (owed != [] ==> |t.plays| < |owed|) && (t.pending.None? ==> t.plays == [])
            else
              && Tally(t.log).replays == Tally(s.log).replays
              && t.plays == (if Reaches(s, act) then OwedBy(s, s.pending.value, act.answer) else s.plays)
  {
    InvSeated(s);
    hide Inv, Apply, Tally, OwedBy, Releases, LatestFirst;
    if EndsTurn(s, act) {
      DropsOwed(s, act);
    } else if Reaches(s, act) {
      ReachingReplays(s, act);
      if !Releases(s, act) { SameReplays(s, Apply(s, act).state, OwedBy(s, s.pending.value, act.answer)); }
    } else if !s.ended && s.pending.None? && act.player == s.current {
      OwnReplays(s, act);
    } else {
      RefusedAtDoor(s, act);
    }
    assert Releases(s, act) ==> Reaches(s, act) by { hide Takes, OnResolve; }
  }

  lemma SameReplays(s: State, t: State, owed: seq<PendingPlay>)
    requires Replayed(s, t, owed) && t.plays == owed
    ensures Tally(t.log).replays == Tally(s.log).replays
  {
    hide Tally;
    assert owed[|owed|..] == [] && LatestFirst([]) == [];
  }

  lemma DropsOwed(s: State, act: Action)
    requires Inv(s) && s.players != [] && EndsTurn(s, act)
    ensures Apply(s, act).state.plays == [] && Tally(Apply(s, act).state.log).replays == []
  {
    NoCleanup(s);
    CleanupPasses(s);
    EndBuyIs(s);
    EndBuyLog(s);
    hide ApplyEndPhase, CleanupAndEndTurn, Tally, Conserved, IsGameOver, Inv;
  }
}
