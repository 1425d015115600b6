/** Answering a suspended card until it is done. */
module Chains {
  import opened Cards
  import opened States
  import opened Primitives
  import opened Effects
  import opened Engine
  import opened Frames
  import opened Runs

  /** Answers a suspended card until it is done; `None` if an answer is refused, missing or left over. */
  function Suspended(t: State, answers: seq<Answer>): Option<State>
    decreases |answers|
  {
    if t.pending.None? then (if answers == [] then Some(t) else None)
    else if answers == [] then None
    else
      var r := OnResolve(t.(pending := None), t.pending.value, answers[0]);
      if r.error.Some? then None else Suspended(r.state, answers[1..])
  }

  /** The trace a question leaves once it is answered: its number and its announcement. */
  function Noted(s: State, v: nat): (t: State)
    ensures SameShape(s, t) && t.pending == s.pending && t.P(v) == s.P(v) && t.trash == s.trash && t.supply == s.supply
  {
    s.(decisionSeq := s.decisionSeq + 1).Emit(DecisionRequested(v))
  }

  lemma NotedIs(s: State, px: nat, c: Card, step: nat, prompt: Prompt, context: Context)
    requires s.pending.None?
    ensures RequestDecision(s, px, c, step, prompt, context).(pending := None) == Noted(s, px)
    ensures RequestDecision(s, px, c, step, prompt, context).pending.Some?
  {
  }

  /** One answer to a suspended card, accepted or refused. */
  lemma OneAnswer(s: State, px: nat, c: Card, step: nat, prompt: Prompt, context: Context, answers: seq<Answer>)
    requires s.pending.None?
    ensures var t := RequestDecision(s, px, c, step, prompt, context);
            Suspended(t, answers) ==
            if answers == [] then None
            else
              var r := OnResolve(Noted(s, px), t.pending.value, answers[0]);
              if r.error.Some? then None else Suspended(r.state, answers[1..])
  {
    NotedIs(s, px, c, step, prompt, context);
    hide OnResolve, RequestDecision, Noted;
  }

  // ----- Through the entry point -----

  /** Submits each answer as the player who is asked, to the decision that is pending. */
  function Submitted(t: State, answers: seq<Answer>): (r: Outcome)
    requires t.players != []
    decreases |answers|
  {
    if answers == [] then Ok(t)
    else if t.pending.None? then Fail(t, NoDecisionPending)
    else
      var d := t.pending.value;
      var r := Apply(t, ResolveDecision(d.player, d.id, answers[0]));
      if r.error.Some? then r else Submitted(r.state, answers[1..])
  }

  lemma SubmitOne(t: State, answer: Answer)
    requires t.players != [] && !t.ended && t.pending.Some?
    requires OnResolve(t.(pending := None), t.pending.value, answer).error.None?
    ensures var d := t.pending.value;
            Apply(t, ResolveDecision(d.player, d.id, answer)) == Unwind(OnResolve(t.(pending := None), d, answer).state)
  {
    var d := t.pending.value;
    assert HasResolve(d.card) by {
      hide ResolveArtisan, ResolveBandit, ResolveBureaucrat, ResolveCellar, ResolveHarbinger, ResolveLibrary,
        ResolveMilitia, ResolveMine, ResolveMoneylender, ResolveRemodel, ResolveSentry, ResolveThroneRoom,
        ResolveVassal, ResolveWorkshop;
    }
    hide OnResolve, Unwind;
  }

  /** Between two answers of a suspended card no replay starts; after the last one the owed replays run. */
  lemma {:induction false} SubmittedIs(t: State, answers: seq<Answer>)
    requires Inv(t) && !t.ended && answers != [] && Suspended(t, answers).Some?
    ensures t.players != [] && Submitted(t, answers) == Unwind(Suspended(t, answers).value)
    decreases |answers|
  {
    NoCleanup(t);
    var d := t.pending.value;
    var r := OnResolve(t.(pending := None), d, answers[0]);
    var act := ResolveDecision(d.player, d.id, answers[0]);
    hide OnResolve, Apply, Inv;
    SubmitOne(t, answers[0]);
    if answers[1..] != [] {
      assert r.state.pending.Some?;
      assert Apply(t, act) == Ok(r.state);
      assert Inv(r.state) && !r.state.ended by {
        hide Conserved, SupplyShrinks, Suspended, Submitted, Unwind;
        ApplyInv(t, act);
        assert !EndsTurn(t, act);
      }
      SubmittedIs(r.state, answers[1..]);
    }
  }
}
