/** Laws of whole runs: any actions, in any order, accepted or rejected, with any answers. */
module GameLaws {
  import opened Cards
  import opened States
  import opened Effects
  import opened Engine
  import opened Census
  import opened Frames
  import opened Runs

  // ----- Cards are neither made nor lost -----

  /** The number of copies of every card is the same after any run. */
  lemma {:induction false} CardsConserved(s: State, acts: seq<Action>, c: Card)
    requires Inv(s)
    ensures Count(Run(s, acts), c) == Count(s, c)
    decreases |acts|
  {
    hide Apply, Count, Inv;
    RunSeated(s);
    if acts != [] {
      ApplyInv(s, acts[0]);
      CardsConserved(Apply(s, acts[0]).state, acts[1..], c);
    }
  }

  lemma RunSeated(s: State)
    requires Inv(s)
    ensures s.players != []
  {
  }

  // ----- The end of the game -----

  lemma SmallerSet(a: set<Card>, b: set<Card>)
    requires a <= b
    ensures |a| <= |b|
  {
    assert b == a + (b - a);
  }

  /** The pile is there and empty. */
  predicate Gone(supply: map<Card, int>, c: Card) {
    c in supply && supply[c] <= 0
  }

  /** The Province pile is missing or empty, or three different piles are empty. */
  predicate SupplyFinished(supply: map<Card, int>) {
    || Province !in supply || supply[Province] <= 0
    || exists a, b, c | a in supply && b in supply && c in supply ::
         a != b && b != c && a != c && Gone(supply, a) && Gone(supply, b) && Gone(supply, c)
  }

  lemma ThreeWithin<T>(s: set<T>, a: T, b: T, c: T)
    requires a in s && b in s && c in s && a != b && b != c && a != c
    ensures |s| >= 3
  {
    var rest := s - {a} - {b} - {c};
    assert |s - {a}| == |s| - 1 && |s - {a} - {b}| == |s| - 2 && |rest| == |s| - 3;
  }

  lemma PickOne<T>(s: set<T>) returns (a: T)
    requires |s| > 0
    ensures a in s && |s - {a}| == |s| - 1
  {
    a :| a in s;
  }

  lemma PickThree<T>(s: set<T>) returns (a: T, b: T, c: T)
    requires |s| >= 3
    ensures a in s && b in s && c in s && a != b && b != c && a != c
  {
    a := PickOne(s);
    b := PickOne(s - {a});
    c := PickOne(s - {a} - {b});
  }

  /** The game-end test and the count of empty piles, said without a count. */
  lemma GameOverExactly(supply: map<Card, int>)
    ensures EmptyPiles(supply) == |set c | c in supply && supply[c] <= 0|
    ensures IsGameOver(supply) <==> SupplyFinished(supply)
  {
    var empty := set c | c in supply && supply[c] <= 0;
    assert forall c :: c in empty <==> Gone(supply, c);
    hide Gone;
    if |empty| >= 3 {
      var a, b, c := PickThree(empty);
      assert a in supply && b in supply && c in supply;
    }
    if a, b, c :| a in supply && b in supply && c in supply && a != b && b != c && a != c && Gone(supply, a) &&
                  Gone(supply, b) && Gone(supply, c) {
      ThreeWithin(empty, a, b, c);
    }
  }

  /** Piles only shrink, so a finished supply stays finished. */
  lemma GameOverShrinks(s: State, t: State)
    requires SupplyShrinks(s, t) && IsGameOver(s.supply)
    ensures IsGameOver(t.supply)
  {
    var a := set c | c in s.supply && s.supply[c] <= 0;
    var b := set c | c in t.supply && t.supply[c] <= 0;
    assert a <= b;
    SmallerSet(a, b);
  }

  /** Over any run piles never grow, never go negative, are never added or removed, and a reached game end is kept. */
  lemma {:induction false} SupplyOverRun(s: State, acts: seq<Action>)
    requires Inv(s)
    ensures SupplyShrinks(s, Run(s, acts)) && Stocked(Run(s, acts))
    ensures SupplyFinished(s.supply) ==> SupplyFinished(Run(s, acts).supply)
    decreases |acts|
  {
    hide SupplyFinished;
    GameOverExactly(s.supply);
    GameOverExactly(Run(s, acts).supply);
    RunInv(s, acts);
    RunSeated(s);
    if acts != [] {
      var t := Apply(s, acts[0]).state;
      ApplyInv(s, acts[0]);
      hide Apply, Inv, Conserved;
      SupplyOverRun(t, acts[1..]);
      assert SupplyShrinks(s, t);
    }
    if IsGameOver(s.supply) { GameOverShrinks(s, Run(s, acts)); }
  }

  /** The game ends at an end of turn with a finished supply, and at no other step. */
  lemma EndsExactly(s: State, act: Action)
    requires Inv(s) && !s.ended
    ensures s.players != []
    ensures Apply(s, act).state.ended <==>
              act == EndPhase(s.current) && s.pending.None? && s.phase == BuyPhase && SupplyFinished(s.supply)
  {
    RunSeated(s);
    ApplyInv(s, act);
    GameOverExactly(s.supply);
    hide Apply, Inv, Conserved, SupplyShrinks, IsGameOver, SupplyFinished;
  }

  /** Once the game has ended every action is rejected and nothing changes. */
  lemma {:induction false} EndedIsFrozen(s: State, acts: seq<Action>, act: Action)
    requires s.players != [] && s.ended
    ensures Run(s, acts) == s
    ensures Apply(s, act) == Outcome(s, Some(GameHasEnded))
    decreases |acts|
  {
    if acts != [] {
      assert Apply(s, acts[0]).state == s;
      EndedIsFrozen(s, acts[1..], act);
    }
  }

  // ----- Decisions are answered at most once -----

  /** A ResolveDecision message that passes every check and is handed to its card. */
  predicate Reaches(s: State, act: Action) {
    !s.ended && act.ResolveDecision? && ResolveGuard(s, act.player, act.decisionId).None?
  }

  /** An action that reaches its card is the card's answer, and the replays it releases. */
  lemma ReachesCard(s: State, act: Action)
    requires s.players != [] && Reaches(s, act)
    ensures var r := OnResolve(s.(pending := None), s.pending.value, act.answer);
            Apply(s, act) == if r.error.Some? then r else Unwind(r.state)
  {
    hide OnResolve, Unwind;
  }

  /** Any other action that reaches no card is refused at the door. */
  lemma RefusedAtDoor(s: State, act: Action)
    requires s.players != [] && !Reaches(s, act)
    requires s.ended || s.pending.Some? || act.player != s.current
    ensures Apply(s, act).state == s && Apply(s, act).error.Some?
  {
    hide OnResolve, Unwind, ApplyPlayCard, ApplyBuyCard, ApplyEndPhase;
  }

  /** Whatever is pending was requested after the first `k` requests. */
  predicate RequestedAfter(t: State, k: nat) {
    t.decisionSeq >= k && (t.pending.Some? ==> t.decisionSeq > k)
  }

  lemma {:induction false} StaysAfter(s: State, acts: seq<Action>, k: nat)
    requires Inv(s) && RequestedAfter(s, k)
    ensures RequestedAfter(Run(s, acts), k)
    decreases |acts|
  {
    RunSeated(s);
    if acts != [] {
      var t := Apply(s, acts[0]).state;
      ApplyInv(s, acts[0]);
      assert RequestedAfter(t, k) by { hide Conserved, SupplyShrinks, Apply, Inv; }
      hide Apply, Inv;
      StaysAfter(t, acts[1..], k);
    }
  }

  lemma AfterAnswer(s: State, act: Action)
    requires Inv(s) && Reaches(s, act)
    ensures RequestedAfter(Apply(s, act).state, s.decisionSeq)
  {
    ResolveInv(s, act.player, act.decisionId, act.answer);
    hide ApplyResolveDecision, Inv, Conserved, SupplyShrinks;
  }

  /** Once a message has reached its card, the same decision identifier is refused for ever, without any effect. */
  lemma AnsweredOnce(s: State, act: Action, acts: seq<Action>, again: Action)
    requires Inv(s) && Reaches(s, act)
    requires again.ResolveDecision? && again.decisionId == act.decisionId
    ensures s.players != []
    ensures var t := Run(Apply(s, act).state, acts);
            Apply(t, again).error.Some? && Apply(t, again).state == t
  {
    RunSeated(s);
    ApplyInv(s, act);
    AfterAnswer(s, act);
    var s1 := Apply(s, act).state;
    StaysAfter(s1, acts, s.decisionSeq);
    RunInv(s1, acts);
    var t := Run(s1, acts);
    if t.pending.Some? && t.pending.value.id == again.decisionId {
      assert again.decisionId == DecisionId(s.decisionSeq) by { hide Apply; }
      DecisionIdInjective(t.decisionSeq, s.decisionSeq);
    }
    hide Run, Apply, Inv;
    RefusedElsewhere(t, again);
  }

  lemma RefusedElsewhere(t: State, again: Action)
    requires t.players != [] && again.ResolveDecision?
    requires t.pending.Some? ==> t.pending.value.id != again.decisionId
    ensures Apply(t, again).error.Some? && Apply(t, again).state == t
  {
  }

  /** Since the first request numbered `k`, the decision that carried that number is pending or gone. */
  predicate SameOrGone(s: State, t: State) {
    t.decisionSeq >= s.decisionSeq &&
    (t.decisionSeq == s.decisionSeq ==> t.pending == s.pending || t.pending.None?)
  }

  lemma {:induction false} SameOrGoneOverRun(s0: State, s: State, acts: seq<Action>)
    requires Inv(s) && SameOrGone(s0, s)
    ensures SameOrGone(s0, Run(s, acts))
    decreases |acts|
  {
    RunSeated(s);
    if acts != [] {
      var t := Apply(s, acts[0]).state;
      ApplyInv(s, acts[0]);
      assert SameOrGone(s0, t) by { hide Conserved, SupplyShrinks, Apply, Inv; }
      hide Apply, Inv;
      SameOrGoneOverRun(s0, t, acts[1..]);
    }
  }

  /** Along a run, two pending decisions with the same identifier are the same decision. */
  lemma IdsIdentify(s: State, acts: seq<Action>)
    requires Inv(s) && s.pending.Some?
    ensures s.players != []
    ensures var t := Run(s, acts);
            t.pending.Some? && t.pending.value.id == s.pending.value.id ==> t.pending == s.pending
  {
    RunSeated(s);
    SameOrGoneOverRun(s, s, acts);
    RunInv(s, acts);
    var t := Run(s, acts);
    if t.pending.Some? && t.pending.value.id == s.pending.value.id {
      assert DecisionId(t.decisionSeq) == DecisionId(s.decisionSeq) by { hide Run; }
      DecisionIdInjective(t.decisionSeq, s.decisionSeq);
    }
  }

  // ----- Turn order -----

  /** How many turns end along a run. */
  function TurnEnds(s: State, acts: seq<Action>): nat
    requires s.players != []
    decreases |acts|
  {
    if acts == [] then 0
    else (if EndsTurn(s, acts[0]) then 1 else 0) + TurnEnds(Apply(s, acts[0]).state, acts[1..])
  }

  lemma NextSeat(n: nat, start: nat, k: nat)
    requires start < n && n >= 2
    ensures ((start + k) % n + 1) % n == (start + k + 1) % n
    ensures ((start + k + 1) % n == start) <==> (k + 1) % n == 0
    ensures 1 + (k + 1) / n == 1 + k / n + (if (k + 1) % n == 0 then 1 else 0)
  {
    ModStep(start + k, n);
    ModStep(k, n);
    ModShift(start, k + 1, n);
  }

  lemma MulMonotone(n: nat, a: int, b: int)
    ensures a <= b ==> n * a <= n * b
  {
  }

  /** Quotient and remainder are determined by their equation. */
  lemma DivModUnique(x: nat, n: nat, q: nat, r: nat)
    requires r < n && x == n * q + r
    ensures x / n == q && x % n == r
  {
    var q', r' := x / n, x % n;
    assert x == n * q' + r' && 0 <= r' < n;
    MulMonotone(n, q + 1, q');
    MulMonotone(n, q' + 1, q);
  }

  lemma ModStep(x: nat, n: nat)
    requires n >= 2
    ensures (x + 1) % n == (x % n + 1) % n
    ensures (x + 1) / n == x / n + (if (x + 1) % n == 0 then 1 else 0)
  {
    var q, r := x / n, x % n;
    assert x == n * q + r;
    if r + 1 < n {
      DivModUnique(x + 1, n, q, r + 1);
      DivModUnique(r + 1, n, 0, r + 1);
    } else {
      assert n * (q + 1) == n * q + n;
      DivModUnique(x + 1, n, q + 1, 0);
      DivModUnique(n, n, 1, 0);
    }
  }

  lemma ModShift(start: nat, k: nat, n: nat)
    requires start < n
    ensures (start + k) % n == start <==> k % n == 0
  {
    var q, r := k / n, k % n;
    assert k == n * q + r;
    if start + r < n {
      DivModUnique(start + k, n, q, start + r);
    } else {
      assert n * (q + 1) == n * q + n;
      DivModUnique(start + k, n, q + 1, start + r - n);
    }
  }

  /** The seat and the round number after `k` ended turns. */
  predicate OnTurn(s: State, k: nat)
    requires s.players != []
  {
    s.current == (s.starting + k) % |s.players| && s.turn == 1 + k / |s.players|
  }

  lemma OnTurnNext(s: State, t: State, k: nat)
    requires 2 <= |s.players| == |t.players| && s.starting < |s.players| && t.starting == s.starting
    requires OnTurn(s, k) && NextTurn(s, t)
    ensures OnTurn(t, k + 1)
  {
    hide IsGameOver;
    NextSeat(|s.players|, s.starting, k);
  }

  lemma OnTurnStep(s: State, act: Action, k: nat)
    requires Inv(s) && s.players != [] && OnTurn(s, k)
    ensures var t := Apply(s, act).state;
            OnTurn(t, if EndsTurn(s, act) then k + 1 else k) && t.starting == s.starting && Inv(t)
  {
    ApplyInv(s, act);
    assert 2 <= |s.players| && s.starting < |s.players|;
    hide Apply, Conserved, SupplyShrinks, Inv, OnTurn, NextTurn, SameTurn;
    var t := Apply(s, act).state;
    if EndsTurn(s, act) { OnTurnNext(s, t, k); } else { OnTurnSame(s, t, k); }
  }

  lemma OnTurnSame(s: State, t: State, k: nat)
    requires s.players != [] && |s.players| == |t.players| && t.starting == s.starting
    requires OnTurn(s, k) && SameTurn(s, t)
    ensures OnTurn(t, k)
  {
  }

  /** Turn order in closed form, from a state in which `k` turns have ended. */
  lemma {:induction false} TurnOrder(s: State, acts: seq<Action>, k: nat)
    requires Inv(s) && s.players != [] && OnTurn(s, k)
    ensures OnTurn(Run(s, acts), k + TurnEnds(s, acts)) && Run(s, acts).starting == s.starting
    decreases |acts|
  {
    hide Apply, Inv, OnTurn, EndsTurn;
    if acts != [] {
      var t := Apply(s, acts[0]).state;
      var m := if EndsTurn(s, acts[0]) then k + 1 else k;
      OnTurnStep(s, acts[0], k);
      TurnOrder(t, acts[1..], m);
    }
  }

  /** In every reachable state resources are non-negative, and a seat out of turn has none, nothing in play and
      nothing set aside. */
  lemma SeatsOverRun(s: State, acts: seq<Action>, i: nat)
    requires Inv(s) && i < |s.players|
    ensures var t := Run(s, acts);
            && |t.players| == |s.players| && Solvent(t.P(i))
            && (i != t.current ==> Idle(t.P(i)))
  {
    RunInv(s, acts);
    hide Run;
  }
}
