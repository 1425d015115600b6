/** The lossy fan-out of snapshots to subscribers, and the client that reduces them. */
module FanOut {
  import opened Cards
  import opened States
  import opened Engine
  import opened Frames
  import opened Runs
  import opened GameLaws
  import opened Discipline

  // ----- What a viewer sees -----

  datatype PlayerView = PlayerView(
    handSize: nat, deckSize: nat, discardSize: nat, hand: seq<Card>, inPlay: seq<Card>, actions: int, buys: int, coins: int)

  datatype DecisionView = DecisionView(id: string, player: nat, card: Card, step: nat, prompt: Prompt)

  datatype View = View(
    seed: int, turn: int, current: nat, phase: Phase, trashSize: nat, ended: bool, players: seq<PlayerView>,
    supply: map<Card, int>, winners: seq<nat>, pending: Option<DecisionView>)

  /** Only the viewer's own hand is shown. */
  function SeatView(p: PlayerState, own: bool): PlayerView {
    PlayerView(|p.hand|, |p.deck|, |p.discard|, if own then p.hand else [], p.inPlay, p.actions, p.buys, p.coins)
  }

  function DecisionOf(d: Option<Decision>): Option<DecisionView> {
    match d
    case None => None
    case Some(x) => Some(DecisionView(x.id, x.player, x.card, x.step, x.prompt))
  }

  function ViewOf(s: State, viewer: nat): View {
    View(s.seed, s.turn, s.current, s.phase, |s.trash|, s.ended,
         seq(|s.players|, i requires 0 <= i < |s.players| => SeatView(s.players[i], i == viewer)),
         s.supply, s.winners, DecisionOf(s.pending))
  }

  datatype Message =
    | Snapshot(sequence: nat, view: View)
    | PhaseMessage(sequence: nat, phase: Phase)
    | TurnMessage(sequence: nat, turn: int, player: nat)
    | DecisionMessage(sequence: nat, decision: DecisionView, player: nat)
    | EndedMessage(sequence: nat)

  // ----- The client -----

  datatype ClientState = ClientState(
    me: nat, lastSeq: nat, snapshot: Option<View>, phase: Option<Phase>, turn: int, currentPlayer: nat,
    pending: Option<DecisionView>, decidingPlayer: nat, ended: bool, winners: seq<nat>, myTurnsTaken: nat,
    lastMyTurn: int)

  function NewClient(me: nat): ClientState {
    ClientState(me, 0, None, None, 0, 0, None, 0, false, [], 0, 0)
  }

  /** A gap: not the next number after a live event, and not an initial snapshot. */
  predicate IsGap(lastSeq: nat, sequence: nat) {
    lastSeq != 0 && sequence != lastSeq + 1 && sequence != 0
  }

  function TakeSnapshot(cs: ClientState, v: View): ClientState {
    var c := cs.(snapshot := Some(v), phase := Some(v.phase), turn := v.turn, currentPlayer := v.current,
                 pending := v.pending,
                 decidingPlayer := if v.pending.Some? then v.pending.value.player else cs.decidingPlayer,
                 ended := v.ended, winners := v.winners);
    if c.currentPlayer == c.me && c.turn != c.lastMyTurn then
      c.(myTurnsTaken := c.myTurnsTaken + 1, lastMyTurn := c.turn)
    else c
  }

  function Reduce(cs: ClientState, m: Message): ClientState {
    match m
    case Snapshot(_, v) => TakeSnapshot(cs, v)
    case PhaseMessage(_, phase) => cs.(phase := Some(phase))
    case TurnMessage(_, turn, player) => cs.(turn := turn, currentPlayer := player, pending := None)
    case DecisionMessage(_, d, player) => cs.(pending := Some(d), decidingPlayer := player)
    case EndedMessage(_) => cs.(ended := true)
  }

  /** The reduced state, and whether the event was accepted; a gap leaves the client as it was. */
  function ClientApply(cs: ClientState, m: Message): (ClientState, bool) {
    if IsGap(cs.lastSeq, m.sequence) then (cs, false) else (Reduce(cs.(lastSeq := m.sequence), m), true)
  }

  /** What the client shows is what the server state `s` shows to the client's own seat. */
  predicate Shows(cs: ClientState, s: State) {
    && cs.snapshot == Some(ViewOf(s, cs.me))
    && cs.phase == Some(s.phase) && cs.turn == s.turn && cs.currentPlayer == s.current
    && cs.pending == DecisionOf(s.pending)
    && (s.pending.Some? ==> cs.decidingPlayer == s.pending.value.player)
    && cs.ended == s.ended && cs.winners == s.winners
  }

  // ----- The service -----

  const CAPACITY: nat := 64

  /** One stream: a channel and the seat it serves. */
  datatype Subscriber = Subscriber(id: nat, viewer: nat, buffer: seq<Message>)

  /** A non-blocking send: a full channel drops the message. */
  function Offer(sub: Subscriber, m: Message): Subscriber {
    if |sub.buffer| < CAPACITY then sub.(buffer := sub.buffer + [m]) else sub
  }

  /** What fan-out number `k` sends about the state `s` to one seat. */
  function MessageFor(s: State, k: nat, viewer: nat): Message {
    if s.ended then EndedMessage(k) else Snapshot(k, ViewOf(s, viewer))
  }

  // ----- The whole system -----

  /** The game at some moment, and how many slips there had been: rejected actions that changed it all the same. */
  datatype Mark = Mark(state: State, slips: nat)

  /** A subscription and its client. The service sends the first snapshot before it registers the channel, so a session
      has two parts: `base` is the game that snapshot showed and `shot` the number of fan-outs before it; `since` is the
      number of fan-outs before the channel was registered, or so far if it is not yet. `taken` are the live messages
      handed to the client, `dropped` the fan-outs that found the channel full, and `gap` says whether the client has
      reported a gap and stopped reading. */
  datatype Session = Session(
    sub: Subscriber, registered: bool, base: Mark, shot: nat, since: nat, taken: seq<Message>, dropped: set<nat>,
    client: ClientState, gap: bool)

  /** `history[k - 1]` is the state that fan-out number `k` was about, `last` the game at the newest fan-out, or at the
      start if there was none. */
  datatype System = System(game: State, slips: nat, last: Mark, history: seq<State>, sessions: seq<Session>)

  function StartSystem(game: State): System {
    System(game, 0, Mark(game, 0), [], [])
  }

  function Offered(x: Session, s: State, k: nat): Session {
    if !x.registered then x.(since := k)
    else
      x.(sub := Offer(x.sub, MessageFor(s, k, x.sub.viewer)),
         dropped := if |x.sub.buffer| < CAPACITY then x.dropped else x.dropped + {k})
  }

  function OfferedAll(xs: seq<Session>, s: State, k: nat): seq<Session> {
    seq(|xs|, i requires 0 <= i < |xs| => Offered(xs[i], s, k))
  }

  /** A subscription starts with a snapshot numbered zero. */
  function Opened(id: nat, client: ClientState, now: Mark, count: nat): Session {
    Session(Subscriber(id, client.me, []), false, now, count, count, [], {},
            ClientApply(client.(lastSeq := 0), Snapshot(0, ViewOf(now.state, client.me))).0, false)
  }

  /** The client reads the next message of its stream. */
  function Received(x: Session): Session
    requires x.sub.buffer != []
  {
    var m := x.sub.buffer[0];
    var (cs, accepted) := ClientApply(x.client, m);
    x.(sub := x.sub.(buffer := x.sub.buffer[1..]), taken := x.taken + [m], client := cs, gap := !accepted)
  }

  datatype Step =
    | Submit(act: Action)
    | Subscribe(id: nat, seat: nat)
    | Register(index: nat)
    | Receive(index: nat)
    | Resubscribe(index: nat, newId: nat)
    | Unsubscribe(index: nat)

  /** One step; a step that does not apply changes nothing. Steps of different subscribers may come between the two
      halves of a subscription. */
  function Next(sys: System, step: Step): System
    requires sys.game.players != []
  {
    match step
    case Submit(act) =>
      var r := Apply(sys.game, act);
      if r.error.Some? then sys.(game := r.state, slips := if r.state == sys.game then sys.slips else sys.slips + 1)
      else
        System(r.state, sys.slips, Mark(r.state, sys.slips), sys.history + [r.state],
               OfferedAll(sys.sessions, r.state, |sys.history| + 1))
    case Subscribe(id, seat) =>
      sys.(sessions := sys.sessions + [Opened(id, NewClient(seat), Mark(sys.game, sys.slips), |sys.history|)])
    case Register(i) =>
      if i < |sys.sessions| && !sys.sessions[i].registered then
        sys.(sessions := sys.sessions[..i] + sys.sessions[i + 1..] + [sys.sessions[i].(registered := true)])
      else sys
    case Receive(i) =>
      if i < |sys.sessions| && !sys.sessions[i].gap && sys.sessions[i].sub.buffer != [] then
        sys.(sessions := sys.sessions[i := Received(sys.sessions[i])])
      else sys
    case Resubscribe(i, id) =>
      if i < |sys.sessions| && sys.sessions[i].gap then
        sys.(sessions :=
               sys.sessions[i := Opened(id, sys.sessions[i].client, Mark(sys.game, sys.slips), |sys.history|)])
      else sys
    case Unsubscribe(i) =>
      if i < |sys.sessions| then sys.(sessions := sys.sessions[..i] + sys.sessions[i + 1..]) else sys
  }

  // ----- The invariant -----

  /** Every live message of the session, read or still buffered. */
  function Live(x: Session): seq<Message> {
    x.taken + x.sub.buffer
  }

  /** The live messages are an in-order selection of the fan-outs since registration, each with the content that
      fan-out had for this seat. */
  predicate InOrder(live: seq<Message>, history: seq<State>, since: nat, viewer: nat) {
    && (forall i :: 0 <= i < |live| ==>
          since < live[i].sequence <= |history| &&
          live[i] == MessageFor(history[live[i].sequence - 1], live[i].sequence, viewer))
    && (forall i, j :: 0 <= i < j < |live| ==> live[i].sequence < live[j].sequence)
  }

  /** Every fan-out since registration was either delivered to the channel or dropped, never both. */
  ghost predicate Accounted(live: seq<Message>, dropped: set<nat>, since: nat, count: nat) {
    && (forall k :: k in dropped ==> since < k <= count)
    && forall k: nat :: since < k <= count ==> ((exists i :: 0 <= i < |live| && live[i].sequence == k) <==> k !in dropped)
  }

  /** What the client knows comes from the last message it accepted. */
  predicate ClientOk(x: Session, history: seq<State>) {
    && x.client.me == x.sub.viewer
    && (x.gap ==> x.taken != [])
    && (!x.gap && x.taken == [] ==> x.client.lastSeq == 0 && Shows(x.client, x.base.state))
    && (!x.gap && x.taken != [] ==>
          var k := x.taken[|x.taken| - 1].sequence;
          && x.client.lastSeq == k
          && 0 < k <= |history|
          && (if history[k - 1].ended then x.client.ended else Shows(x.client, history[k - 1])))
  }

  ghost predicate SessionOk(x: Session, history: seq<State>) {
    && x.shot <= x.since <= |history| && |x.sub.buffer| <= CAPACITY
    && (!x.registered ==> x.since == |history|)
    && InOrder(Live(x), history, x.since, x.sub.viewer)
    && Accounted(Live(x), x.dropped, x.since, |history|)
    && ClientOk(x, history)
  }

  /** What slips do to a game, and no slip takes back: a pending decision is lost, or action points are. */
  predicate Drifted(s: State, t: State) {
    && t.current == s.current && |t.players| == |s.players| && t.pending.None?
    && (s.pending.None? ==> s.current < |s.players| && t.P(s.current).actions < s.P(s.current).actions)
  }

  /** Since the mark only slips have changed the game. */
  predicate Tracks(m: Mark, game: State, slips: nat) {
    if m.slips == slips then game == m.state else m.slips < slips && Drifted(m.state, game)
  }

  ghost predicate SystemOk(sys: System) {
    && Inv(sys.game) && Tracks(sys.last, sys.game, sys.slips)
    && (sys.history != [] ==> sys.last.state == sys.history[|sys.history| - 1])
    && forall i :: 0 <= i < |sys.sessions| ==>
         && SessionOk(sys.sessions[i], sys.history)
         && (sys.sessions[i].shot == |sys.history| ==> Tracks(sys.sessions[i].base, sys.game, sys.slips))
  }

  // ----- Steps keep it -----

  /** An accepted snapshot shows exactly the state it was made from. */
  lemma SnapshotShows(cs: ClientState, s: State, k: nat)
    requires !IsGap(cs.lastSeq, k)
    ensures var (c, accepted) := ClientApply(cs, Snapshot(k, ViewOf(s, cs.me)));
            accepted && Shows(c, s) && c.lastSeq == k && c.me == cs.me
  {
  }

  lemma OpenedOk(id: nat, client: ClientState, now: Mark, history: seq<State>)
    ensures SessionOk(Opened(id, client, now, |history|), history)
  {
    SnapshotShows(client.(lastSeq := 0), now.state, 0);
  }

  lemma OfferedInOrder(live: seq<Message>, history: seq<State>, s: State, since: nat, viewer: nat)
    requires InOrder(live, history, since, viewer) && since <= |history|
    ensures InOrder(live, history + [s], since, viewer)
    ensures InOrder(live + [MessageFor(s, |history| + 1, viewer)], history + [s], since, viewer)
  {
    hide ViewOf;
  }

  lemma OfferedAccounted(live: seq<Message>, dropped: set<nat>, since: nat, count: nat, m: Message)
    requires Accounted(live, dropped, since, count) && m.sequence == count + 1 && since <= count
    requires forall i :: 0 <= i < |live| ==> live[i].sequence <= count
    ensures Accounted(live + [m], dropped, since, count + 1)
    ensures Accounted(live, dropped + {count + 1}, since, count + 1)
  {
    var more := live + [m];
    forall k: nat | since < k <= count + 1
      ensures (exists i :: 0 <= i < |more| && more[i].sequence == k) <==> k !in dropped
    {
      if k == count + 1 {
        assert more[|live|].sequence == k;
      } else if i :| 0 <= i < |live| && live[i].sequence == k {
        assert more[i].sequence == k;
      }
    }
  }

  lemma LiveBound(x: Session, history: seq<State>)
    requires InOrder(Live(x), history, x.since, x.sub.viewer)
    ensures forall i :: 0 <= i < |Live(x)| ==> Live(x)[i].sequence <= |history|
  {
    hide MessageFor;
  }

  /** A fan-out is enqueued or dropped. */
  lemma OfferedParts(x: Session, s: State, k: nat)
    requires x.registered
    ensures var y, m := Offered(x, s, k), MessageFor(s, k, x.sub.viewer);
            && m.sequence == k && y.since == x.since && y.sub.viewer == x.sub.viewer
            && ((Live(y) == Live(x) + [m] && y.dropped == x.dropped) ||
                (Live(y) == Live(x) && y.dropped == x.dropped + {k}))
  {
    var m := MessageFor(s, k, x.sub.viewer);
    assert m.sequence == k;
    hide MessageFor;
    assert x.taken + (x.sub.buffer + [m]) == Live(x) + [m];
  }

  lemma OfferedLive(x: Session, s: State, history: seq<State>)
    requires SessionOk(x, history) && x.registered
    ensures var y := Offered(x, s, |history| + 1);
            InOrder(Live(y), history + [s], y.since, y.sub.viewer) &&
            Accounted(Live(y), y.dropped, y.since, |history| + 1)
  {
    hide InOrder, Accounted, ClientOk, MessageFor, Live, Offered;
    OfferedParts(x, s, |history| + 1);
    LiveBound(x, history);
    OfferedInOrder(Live(x), history, s, x.since, x.sub.viewer);
    OfferedAccounted(Live(x), x.dropped, x.since, |history|, MessageFor(s, |history| + 1, x.sub.viewer));
  }

  lemma OfferedFields(x: Session, s: State, k: nat)
    ensures var y := Offered(x, s, k);
            && y == x.(sub := y.sub, dropped := y.dropped, since := y.since) && y.sub.viewer == x.sub.viewer
            && (|x.sub.buffer| <= CAPACITY ==> |y.sub.buffer| <= CAPACITY)
            && (if x.registered then y.since == x.since
                else y.since == k && Live(y) == Live(x) && y.dropped == x.dropped)
  {
    hide MessageFor;
  }

  lemma OfferedOk(x: Session, s: State, history: seq<State>)
    requires SessionOk(x, history)
    ensures SessionOk(Offered(x, s, |history| + 1), history + [s])
  {
    var y := Offered(x, s, |history| + 1);
    OfferedFields(x, s, |history| + 1);
    hide InOrder, Accounted, ClientOk, MessageFor, Live, Offered;
    if x.registered { OfferedLive(x, s, history); } else { WaitsOn(x, s, history); }
    OfferedClient(x, y, history, s);
  }

  /** A channel that is not registered yet has no part in a fan-out. */
  lemma WaitsOn(x: Session, s: State, history: seq<State>)
    requires InOrder(Live(x), history, x.since, x.sub.viewer) && Accounted(Live(x), x.dropped, x.since, |history|)
    requires x.since == |history|
    ensures Live(x) == [] && x.dropped == {}
    ensures InOrder(Live(x), history + [s], x.since + 1, x.sub.viewer)
    ensures Accounted(Live(x), x.dropped, x.since + 1, |history| + 1)
  {
    if Live(x) != [] { FannedOutSince(Live(x), history, x.since, x.sub.viewer); }
    hide MessageFor;
  }

  lemma FannedOutSince(live: seq<Message>, history: seq<State>, since: nat, viewer: nat)
    requires InOrder(live, history, since, viewer) && live != []
    ensures since < |history|
  {
    hide MessageFor;
    assert since < live[0].sequence <= |history|;
  }

  lemma OfferedClient(x: Session, y: Session, history: seq<State>, s: State)
    requires ClientOk(x, history)
    requires y == x.(sub := y.sub, dropped := y.dropped, since := y.since) && y.sub.viewer == x.sub.viewer
    ensures ClientOk(y, history + [s])
  {
    hide Shows;
  }

  /** A live message that follows the one just accepted is a gap exactly if the numbers are not adjacent. */
  lemma ReadClient(cs: ClientState, m: Message, s: State)
    requires m == MessageFor(s, m.sequence, cs.me) && m.sequence > 0
    ensures var (c, accepted) := ClientApply(cs, m);
            && c.me == cs.me
            && (accepted <==> cs.lastSeq == 0 || m.sequence == cs.lastSeq + 1)
            && (accepted ==> c.lastSeq == m.sequence && if s.ended then c.ended else Shows(c, s))
  {
    if !s.ended && !IsGap(cs.lastSeq, m.sequence) { SnapshotShows(cs, s, m.sequence); }
    hide ViewOf, Shows, TakeSnapshot;
  }

  lemma HeadIsLive(x: Session, history: seq<State>)
    requires SessionOk(x, history) && x.sub.buffer != []
    ensures var m := x.sub.buffer[0];
            && 0 < m.sequence <= |history|
            && m == MessageFor(history[m.sequence - 1], m.sequence, x.sub.viewer)
            && Live(Received(x)) == Live(x)
  {
    var m := x.sub.buffer[0];
    assert Live(x)[|x.taken|] == m;
    assert x.taken + [m] + x.sub.buffer[1..] == x.taken + x.sub.buffer;
    hide MessageFor, ClientApply, Accounted, ClientOk;
  }

  lemma ReceivedOk(x: Session, history: seq<State>)
    requires SessionOk(x, history) && !x.gap && x.sub.buffer != []
    ensures SessionOk(Received(x), history)
  {
    var m := x.sub.buffer[0];
    HeadIsLive(x, history);
    assert x.client.me == x.sub.viewer;
    ReadClient(x.client, m, history[m.sequence - 1]);
    hide InOrder, Accounted, ClientApply, MessageFor, Shows, Live;
  }

  /** A rejected action changes nothing, or slips. */
  lemma RejectedDrifts(s: State, act: Action)
    requires Inv(s) && s.players != [] && Apply(s, act).error.Some?
    ensures Apply(s, act).state == s || Drifted(s, Apply(s, act).state)
  {
    RejectedUnchanged(s, act);
    ApplyInv(s, act);
    InvSeated(s);
    assert !EndsTurn(s, act) by { hide Inv, CleanupAndEndTurn, Scores, DetermineWinners, IsGameOver; }
    if Reaches(s, act) {
      assert s.pending.Some?;
      hide Inv, Apply, Reaches, LosesAction, Conserved, SupplyShrinks;
    } else if LosesAction(s, act) {
      SpendActionSpends(s);
      hide Inv, Apply, Reaches, Conserved, SupplyShrinks, SpendAction;
    }
  }

  lemma DriftsOn(s: State, t: State, act: Action)
    requires Inv(t) && t.players != [] && Apply(t, act).error.Some? && Apply(t, act).state != t && Drifted(s, t)
    ensures Drifted(s, Apply(t, act).state)
  {
    hide Inv, Apply;
    RejectedDrifts(t, act);
  }

  lemma TracksOn(m: Mark, s: State, slips: nat, act: Action)
    requires Inv(s) && s.players != [] && Apply(s, act).error.Some? && Tracks(m, s, slips)
    ensures var t := Apply(s, act).state;
            Tracks(m, t, if t == s then slips else slips + 1)
  {
    hide Inv, Apply, Drifted;
    if Apply(s, act).state != s {
      RejectedDrifts(s, act);
      if m.slips != slips { DriftsOn(m.state, s, act); }
    }
  }

  lemma RejectedOk(sys: System, act: Action)
    requires SystemOk(sys) && sys.game.players != [] && Apply(sys.game, act).error.Some?
    ensures SystemOk(Next(sys, Submit(act)))
  {
    hide Apply, SessionOk, Inv, Stepped, Tracks;
    ApplyInv(sys.game, act);
    TracksOn(sys.last, sys.game, sys.slips, act);
    forall i | 0 <= i < |sys.sessions| && sys.sessions[i].shot == |sys.history|
      ensures var t := Next(sys, Submit(act));
              Tracks(sys.sessions[i].base, t.game, t.slips)
    {
      TracksOn(sys.sessions[i].base, sys.game, sys.slips, act);
    }
  }

  lemma AcceptedOk(sys: System, act: Action)
    requires SystemOk(sys) && sys.game.players != [] && Apply(sys.game, act).error.None?
    ensures SystemOk(Next(sys, Submit(act)))
  {
    hide Apply, SessionOk, Inv, Stepped, Offered;
    var r := Apply(sys.game, act);
    ApplyInv(sys.game, act);
    forall i | 0 <= i < |sys.sessions|
      ensures var y := Offered(sys.sessions[i], r.state, |sys.history| + 1);
              SessionOk(y, sys.history + [r.state]) && y.shot <= |sys.history|
    {
      OfferedOk(sys.sessions[i], r.state, sys.history);
      ShotBefore(sys.sessions[i], r.state, sys.history);
    }
  }

  lemma ShotBefore(x: Session, s: State, history: seq<State>)
    requires SessionOk(x, history)
    ensures Offered(x, s, |history| + 1).shot <= |history|
  {
  }

  /** Any list of sound sessions will do. */
  ghost predicate Sound(sys: System, x: Session) {
    SessionOk(x, sys.history) && (x.shot == |sys.history| ==> Tracks(x.base, sys.game, sys.slips))
  }

  lemma SessionsOk(sys: System, xs: seq<Session>)
    requires SystemOk(sys) && forall i :: 0 <= i < |xs| ==> Sound(sys, xs[i])
    ensures SystemOk(sys.(sessions := xs))
  {
    hide Inv, SessionOk, Tracks;
  }

  lemma AllSound(sys: System)
    requires SystemOk(sys)
    ensures forall i :: 0 <= i < |sys.sessions| ==> Sound(sys, sys.sessions[i])
  {
    hide Inv, SessionOk, Tracks;
  }

  lemma RegisteredSound(sys: System, x: Session)
    requires Sound(sys, x)
    ensures Sound(sys, x.(registered := true))
  {
    hide SessionOk, Tracks;
    RegisteredOk(x, sys.history);
  }

  lemma ReceivedSound(sys: System, x: Session)
    requires Sound(sys, x) && !x.gap && x.sub.buffer != []
    ensures Sound(sys, Received(x))
  {
    hide SessionOk, Tracks, Received;
    ReceivedOk(x, sys.history);
    SameBase(x);
  }

  lemma SubmitOk(sys: System, act: Action)
    requires SystemOk(sys) && sys.game.players != []
    ensures SystemOk(Next(sys, Submit(act)))
  {
    hide SystemOk, Next, Apply;
    if Apply(sys.game, act).error.Some? { RejectedOk(sys, act); } else { AcceptedOk(sys, act); }
  }

  lemma SubscribeOk(sys: System, id: nat, seat: nat)
    requires SystemOk(sys) && sys.game.players != []
    ensures SystemOk(Next(sys, Subscribe(id, seat)))
  {
    hide SystemOk, Opened, Sound;
    AllSound(sys);
    NewcomerOk(sys, id, NewClient(seat));
    SessionsOk(sys, sys.sessions + [Opened(id, NewClient(seat), Mark(sys.game, sys.slips), |sys.history|)]);
  }

  lemma RegisterOk(sys: System, i: nat)
    requires SystemOk(sys) && sys.game.players != [] && i < |sys.sessions|
    ensures SystemOk(Next(sys, Register(i)))
  {
    var xs := sys.sessions;
    hide SystemOk, Sound;
    AllSound(sys);
    RegisteredSound(sys, xs[i]);
    SessionsOk(sys, xs[..i] + xs[i + 1..] + [xs[i].(registered := true)]);
  }

  lemma ReceiveOk(sys: System, i: nat)
    requires SystemOk(sys) && sys.game.players != [] && i < |sys.sessions|
    ensures SystemOk(Next(sys, Receive(i)))
  {
    var xs := sys.sessions;
    hide SystemOk, Sound, Received;
    AllSound(sys);
    if !xs[i].gap && xs[i].sub.buffer != [] {
      ReceivedSound(sys, xs[i]);
      SessionsOk(sys, xs[i := Received(xs[i])]);
    }
  }

  lemma LeaveOk(sys: System, i: nat, id: nat)
    requires SystemOk(sys) && sys.game.players != [] && i < |sys.sessions|
    ensures SystemOk(Next(sys, Resubscribe(i, id))) && SystemOk(Next(sys, Unsubscribe(i)))
  {
    var xs := sys.sessions;
    hide SystemOk, Sound, Opened;
    AllSound(sys);
    NewcomerOk(sys, id, xs[i].client);
    SessionsOk(sys, xs[i := Opened(id, xs[i].client, Mark(sys.game, sys.slips), |sys.history|)]);
    SessionsOk(sys, xs[..i] + xs[i + 1..]);
  }

  lemma NextOk(sys: System, step: Step)
    requires SystemOk(sys)
    ensures sys.game.players != [] && SystemOk(Next(sys, step))
  {
    HasPlayers(sys);
    hide Apply, SystemOk, OfferedAll, Opened, Received;
    match step
    case Submit(act) => hide *; SubmitOk(sys, act);
    case Subscribe(id, seat) => hide *; SubscribeOk(sys, id, seat);
    case Register(i) => if i < |sys.sessions| { hide *; RegisterOk(sys, i); }
    case Receive(i) => if i < |sys.sessions| { hide *; ReceiveOk(sys, i); }
    case Resubscribe(i, id) => if i < |sys.sessions| { hide *; LeaveOk(sys, i, id); }
    case Unsubscribe(i) => if i < |sys.sessions| { hide *; LeaveOk(sys, i, 0); }
  }

  lemma NewcomerOk(sys: System, id: nat, client: ClientState)
    ensures var x := Opened(id, client, Mark(sys.game, sys.slips), |sys.history|);
            Sound(sys, x)
  {
    OpenedOk(id, client, Mark(sys.game, sys.slips), sys.history);
    hide SessionOk, ClientApply, ViewOf;
  }

  lemma RegisteredOk(x: Session, history: seq<State>)
    requires SessionOk(x, history)
    ensures SessionOk(x.(registered := true), history)
  {
    hide Shows, MessageFor;
  }

  lemma SameBase(x: Session)
    requires x.sub.buffer != []
    ensures Received(x).base == x.base && Received(x).shot == x.shot
  {
    hide ClientApply;
  }

  /** The system before the first action and the first subscriber. */
  lemma StartOk(game: State)
    requires Inv(game)
    ensures SystemOk(StartSystem(game))
  {
    hide Inv;
  }

  function RunSystem(sys: System, steps: seq<Step>): (t: System)
    requires sys.game.players != []
    ensures t.game.players != []
    decreases |steps|
  {
    if steps == [] then sys
    else
      assert Next(sys, steps[0]).game.players != [] by { hide Apply, OfferedAll, Opened, Received; }
      RunSystem(Next(sys, steps[0]), steps[1..])
  }

  /** Over all interleavings of submits, drops, reads and the two halves of subscriptions: what a subscriber has been or
      will be handed is an in-order selection of the fan-outs since it registered, a fan-out is missing from it exactly
      if it was dropped, a client that reports no gap shows the state of the last message it read, and between two
      fan-outs the game changes only by slips, which no later slip undoes. */
  lemma {:induction false} SystemOverRun(sys: System, steps: seq<Step>)
    requires SystemOk(sys)
    ensures sys.game.players != [] && SystemOk(RunSystem(sys, steps))
    decreases |steps|
  {
    hide Next, SystemOk;
    if steps == [] {
      HasPlayers(sys);
    } else {
      NextOk(sys, steps[0]);
      SystemOverRun(Next(sys, steps[0]), steps[1..]);
    }
  }

  /** So it is from the start, whatever game is served. */
  lemma FromTheStart(game: State, steps: seq<Step>)
    requires Inv(game)
    ensures game.players != [] && SystemOk(RunSystem(StartSystem(game), steps))
  {
    StartOk(game);
    hide SystemOk, RunSystem, Inv;
    SystemOverRun(StartSystem(game), steps);
  }

  lemma HasPlayers(sys: System)
    requires SystemOk(sys)
    ensures sys.game.players != []
  {
    InvSeated(sys.game);
  }

  // ----- What it means -----

  /** Reading on: the client reports a gap if and only if it has read a live message before and some fan-out between the
      two messages was dropped. So fan-outs that fell between snapshot and registration, or were dropped before the first
      live message, go unnoticed. */
  lemma GapMeansDrop(x: Session, history: seq<State>)
    requires SessionOk(x, history) && !x.gap && x.sub.buffer != []
    ensures Received(x).gap <==>
              x.taken != [] &&
              exists k :: x.taken[|x.taken| - 1].sequence < k < x.sub.buffer[0].sequence && k in x.dropped
  {
    HeadIsLive(x, history);
    ReadClient(x.client, x.sub.buffer[0], history[x.sub.buffer[0].sequence - 1]);
    if x.taken != [] { LaterGap(x, history); }
    hide ClientApply, MessageFor, Shows, InOrder, Accounted;
  }

  lemma LaterGap(x: Session, history: seq<State>)
    requires SessionOk(x, history) && !x.gap && x.taken != [] && x.sub.buffer != []
    ensures Received(x).gap <==>
              exists k :: x.taken[|x.taken| - 1].sequence < k < x.sub.buffer[0].sequence && k in x.dropped
  {
    var n := |x.taken|;
    var a, b := x.taken[n - 1].sequence, x.sub.buffer[0].sequence;
    var live := Live(x);
    assert live[n - 1].sequence == a && live[n].sequence == b;
    HeadIsLive(x, history);
    ReadClient(x.client, x.sub.buffer[0], history[b - 1]);
    assert Received(x).gap <==> b != a + 1;
    assert a < b && x.since < a && b <= |history|;
    hide ClientApply, MessageFor, Shows, ClientOk;
    if b != a + 1 {
      forall i | 0 <= i < |live| ensures live[i].sequence != a + 1 {
        assert i < n - 1 ==> live[i].sequence < a;
        assert i > n ==> b < live[i].sequence;
      }
      assert a + 1 in x.dropped;
    }
  }

  /** No fan-out is newer than what the client has read. */
  predicate Fresh(sys: System, x: Session) {
    if x.taken == [] then x.shot == |sys.history| else x.taken[|x.taken| - 1].sequence == |sys.history|
  }

  /** The last live message is the newest fan-out unless that one was dropped. */
  lemma NewestLive(live: seq<Message>, dropped: set<nat>, history: seq<State>, since: nat, viewer: nat)
    requires InOrder(live, history, since, viewer) && Accounted(live, dropped, since, |history|) && live != []
    ensures live[|live| - 1].sequence == |history| <==> |history| !in dropped
  {
    hide MessageFor;
    var n, count := |live|, |history|;
    assert since < live[n - 1].sequence <= count;
    assert forall j :: 0 <= j < n - 1 ==> live[j].sequence < live[n - 1].sequence;
    if count !in dropped { var i :| 0 <= i < n && live[i].sequence == count; }
  }

  lemma NoneLive(dropped: set<nat>, since: nat, count: nat)
    requires Accounted([], dropped, since, count) && since <= count
    ensures count !in dropped <==> since == count
  {
  }

  /** A client that has read everything in its channel has read the newest fan-out unless that one was dropped, or, while
      it has read no live message, some fan-out fell between its first snapshot and the registration of its channel. */
  lemma CaughtUp(sys: System, x: Session)
    requires SessionOk(x, sys.history) && !x.gap && x.sub.buffer == []
    ensures Fresh(sys, x) <==> |sys.history| !in x.dropped && (x.taken == [] ==> x.shot == x.since)
  {
    assert Live(x) == x.taken;
    hide InOrder, Accounted, ClientOk;
    if x.taken == [] {
      NoneLive(x.dropped, x.since, |sys.history|);
    } else {
      NewestLive(x.taken, x.dropped, sys.history, x.since, x.sub.viewer);
    }
  }

  lemma KeepsSeats(sys: System, step: Step)
    requires sys.game.players != []
    ensures Next(sys, step).game.players != []
  {
    hide Apply, OfferedAll, Opened, Received;
  }

  lemma RunOne(sys: System, step: Step, steps: seq<Step>)
    requires sys.game.players != []
    ensures Next(sys, step).game.players != []
    ensures RunSystem(sys, [step] + steps) == RunSystem(Next(sys, step), steps)
    ensures RunSystem(sys, []) == sys
  {
    KeepsSeats(sys, step);
    hide Next;
    assert ([step] + steps)[1..] == steps;
  }

  lemma RunThree(sys: System, a: Step, b: Step, c: Step)
    requires sys.game.players != []
    ensures Next(sys, a).game.players != [] && Next(Next(sys, a), b).game.players != []
    ensures RunSystem(sys, [a, b, c]) == Next(Next(Next(sys, a), b), c)
  {
    hide Next, RunSystem;
    RunOne(sys, a, [b, c]);
    RunOne(Next(sys, a), b, [c]);
    RunOne(Next(Next(sys, a), b), c, []);
    RunOne(Next(Next(Next(sys, a), b), c), c, []);
    assert [a] + [b, c] == [a, b, c];
    assert [b] + [c] == [b, c];
    assert [c] + [] == [c];
  }

  /** A session that is still waiting for its channel when the fan-out happens. */
  lemma WaitsOut(sys: System, s: State, id: nat, seat: nat)
    ensures var x := Opened(id, NewClient(seat), Mark(sys.game, sys.slips), |sys.history|);
            var y := Offered(x, s, |sys.history| + 1).(registered := true);
            && !x.registered && y.registered && y.sub.buffer == [] && y.dropped == {} && !y.gap && y.taken == []
            && y.shot == |sys.history| && Shows(y.client, sys.game)
  {
    SnapshotShows(NewClient(seat), sys.game, 0);
    hide Shows, ClientApply, ViewOf;
  }

  lemma RaceSteps(sys: System, id: nat, seat: nat, act: Action)
    requires sys.game.players != [] && Apply(sys.game, act).error.None?
    ensures Next(sys, Subscribe(id, seat)).game == sys.game
    ensures var n, r := |sys.sessions|, Apply(sys.game, act);
            var x := Opened(id, NewClient(seat), Mark(sys.game, sys.slips), |sys.history|);
            var s2 := Next(Next(sys, Subscribe(id, seat)), Submit(act));
            && s2.game == r.state && s2.game.players != [] && s2.history == sys.history + [r.state]
            && |s2.sessions| == n + 1 && s2.sessions[n] == Offered(x, r.state, |sys.history| + 1)
  {
    hide Apply, Opened, Offered;
  }

  lemma RegistersLast(sys: System, i: nat)
    requires sys.game.players != [] && i + 1 == |sys.sessions| && !sys.sessions[i].registered
    ensures var t := Next(sys, Register(i));
            && t.game == sys.game && t.history == sys.history && |t.sessions| == i + 1
            && t.sessions[i] == sys.sessions[i].(registered := true)
  {
  }

  /** The race that makes this happen: an action accepted between the two halves of a subscription reaches a client
      neither in its snapshot nor in its channel, and is not counted as dropped either. */
  lemma MissedFanOut(sys: System, id: nat, seat: nat, act: Action)
    requires sys.game.players != [] && Apply(sys.game, act).error.None?
    ensures var t := RunSystem(sys, [Subscribe(id, seat), Submit(act), Register(|sys.sessions|)]);
            && t.game == Apply(sys.game, act).state && |t.sessions| == |sys.sessions| + 1
            && var x := t.sessions[|sys.sessions|];
            && x.registered && x.sub.buffer == [] && x.dropped == {} && !x.gap
            && Shows(x.client, sys.game) && !Fresh(t, x)
  {
    var n, r := |sys.sessions|, Apply(sys.game, act);
    var x := Opened(id, NewClient(seat), Mark(sys.game, sys.slips), |sys.history|);
    var s2 := Next(Next(sys, Subscribe(id, seat)), Submit(act));
    hide Apply, Opened, Offered, Shows, RunSystem, Next;
    RaceSteps(sys, id, seat, act);
    RunThree(sys, Subscribe(id, seat), Submit(act), Register(n));
    WaitsOut(sys, r.state, id, seat);
    OfferedFields(x, r.state, |sys.history| + 1);
    RegistersLast(s2, n);
  }

  /** A drifted game looks different to every seat. */
  lemma DriftShows(s: State, t: State, viewer: nat)
    requires Drifted(s, t)
    ensures ViewOf(s, viewer) != ViewOf(t, viewer)
  {
    if s.pending.None? {
      assert ViewOf(s, viewer).players[s.current].actions != ViewOf(t, viewer).players[s.current].actions;
    }
  }

  /** When a client shows the game as it is: a client that has read the newest fan-out shows the current game exactly if
      no rejected action has changed the game since then. A client that has read no live message yet shows it exactly if
      none has since its first snapshot. */
  lemma ShowsCurrent(sys: System, i: nat)
    requires SystemOk(sys) && i < |sys.sessions|
    requires var x := sys.sessions[i]; !x.gap && Fresh(sys, x)
    ensures var x := sys.sessions[i];
            if x.taken != [] && sys.last.state.ended then x.client.ended
            else Shows(x.client, sys.game) <==> sys.slips == (if x.taken == [] then x.base.slips else sys.last.slips)
  {
    var x := sys.sessions[i];
    var m := if x.taken == [] then x.base else sys.last;
    assert SessionOk(x, sys.history);
    hide Inv, InOrder, Accounted, Drifted, ViewOf;
    if x.taken == [] || !m.state.ended {
      assert Shows(x.client, m.state) && Tracks(m, sys.game, sys.slips);
      if m.slips != sys.slips { DriftShows(m.state, sys.game, x.client.me); }
    }
  }

  // ----- Privacy -----

  /** The states differ at most in what a view for `viewer` does not carry: the contents of other hands, of decks, discard
      piles and trash, the set-aside zones, Merchant charges, what a suspended card remembers, owed replays, the starting
      seat, counters and the log. The seed is carried. */
  predicate Alike(s: State, t: State, viewer: nat) {
    && t.seed == s.seed && t.turn == s.turn && t.current == s.current && t.phase == s.phase && t.ended == s.ended
    && t.supply == s.supply && t.winners == s.winners && |t.trash| == |s.trash| && |t.players| == |s.players|
    && (forall i :: 0 <= i < |s.players| ==>
          var p, q := s.players[i], t.players[i];
          && |q.hand| == |p.hand| && (i == viewer ==> q.hand == p.hand)
          && |q.deck| == |p.deck| && |q.discard| == |p.discard| && q.inPlay == p.inPlay
          && q.actions == p.actions && q.buys == p.buys && q.coins == p.coins)
    && (s.pending.Some? <==> t.pending.Some?)
    && (s.pending.Some? ==> t.pending.value == s.pending.value.(context := t.pending.value.context))
  }

  /** A client cannot tell apart exactly the states that differ in nothing but what its views do not carry. */
  lemma OwnHandOnly(cs: ClientState, s: State, t: State)
    requires Shows(cs, s)
    ensures Shows(cs, t) <==> Alike(s, t, cs.me)
  {
    var v, w := ViewOf(s, cs.me), ViewOf(t, cs.me);
    assert DecisionOf(t.pending) == DecisionOf(s.pending) <==>
           (s.pending.Some? <==> t.pending.Some?) &&
           (s.pending.Some? ==> t.pending.value == s.pending.value.(context := t.pending.value.context));
    hide DecisionOf;
    if v == w {
      forall i | 0 <= i < |s.players|
        ensures SeatView(s.players[i], i == cs.me) == SeatView(t.players[i], i == cs.me)
      {
        assert v.players[i] == w.players[i];
      }
    }
    if Alike(s, t, cs.me) { assert v.players == w.players; }
  }

  /** The seed alone tells states apart: whoever looks sees which of the two it is. */
  lemma SeedSeen(s: State, other: int, viewer: nat)
    requires other != s.seed
    ensures var t := s.(seed := other);
            Alike(s, t.(seed := s.seed), viewer) && ViewOf(t, viewer) != ViewOf(s, viewer)
  {
    assert s.(seed := other).(seed := s.seed) == s;
  }

  // ----- Counting one's own turns -----

  /** What the messages a client accepts make of it. */
  function Reads(cs: ClientState, ms: seq<Message>): (r: ClientState)
    decreases |ms|
  {
    if ms == [] then cs else Reduce(Reads(cs, ms[..|ms| - 1]), ms[|ms| - 1])
  }

  /** Snapshots of states whose rounds, from one on, never go back, and possibly ends of the game. */
  predicate Forward(ms: seq<Message>) {
    && (forall i :: 0 <= i < |ms| ==> ms[i].EndedMessage? || (ms[i].Snapshot? && ms[i].view.turn >= 1))
    && (forall i, j :: 0 <= i < j < |ms| && ms[i].Snapshot? && ms[j].Snapshot? ==> ms[i].view.turn <= ms[j].view.turn)
  }

  predicate OwnTurn(m: Message, me: nat) {
    m.Snapshot? && m.view.current == me
  }

  /** The rounds in which a snapshot shows the client's own turn. */
  function OwnRounds(ms: seq<Message>, me: nat): set<int> {
    set i | 0 <= i < |ms| && OwnTurn(ms[i], me) :: ms[i].view.turn
  }

  lemma OwnRoundsStep(ms: seq<Message>, m: Message, me: nat)
    ensures OwnRounds(ms + [m], me) == OwnRounds(ms, me) + if OwnTurn(m, me) then {m.view.turn} else {}
  {
    var all := ms + [m];
    assert all[|ms|] == m && forall i :: 0 <= i < |ms| ==> all[i] == ms[i];
    forall x | x in OwnRounds(ms, me) ensures x in OwnRounds(all, me) {
      var i :| 0 <= i < |ms| && OwnTurn(ms[i], me) && ms[i].view.turn == x;
      assert OwnTurn(all[i], me);
    }
  }

  /** The count is the number of rounds, and the last one counted is the greatest of them. */
  predicate Counted(cs: ClientState, me: nat, rounds: set<int>) {
    && cs.me == me && cs.myTurnsTaken == |rounds|
    && (if rounds == {} then cs.lastMyTurn == 0 else cs.lastMyTurn in rounds)
    && (forall x :: x in rounds ==> x <= cs.lastMyTurn)
  }

  lemma CountsOne(cs: ClientState, m: Message, me: nat, rounds: set<int>)
    requires Counted(cs, me, rounds) && (m.EndedMessage? || (m.Snapshot? && m.view.turn >= 1))
    requires m.Snapshot? ==> forall x :: x in rounds ==> x <= m.view.turn
    ensures Counted(Reduce(cs, m), me, rounds + if OwnTurn(m, me) then {m.view.turn} else {})
  {
    if OwnTurn(m, me) {
      var x := m.view.turn;
      if x == cs.lastMyTurn { assert rounds + {x} == rounds; } else { assert x !in rounds; }
    } else {
      assert rounds + {} == rounds;
    }
  }

  lemma ForwardPrefix(ms: seq<Message>, k: nat, me: nat)
    requires Forward(ms) && k < |ms|
    ensures Forward(ms[..k])
    ensures ms[k].Snapshot? ==> forall x :: x in OwnRounds(ms[..k], me) ==> x <= ms[k].view.turn
  {
    var less := ms[..k];
    forall x | x in OwnRounds(less, me) && ms[k].Snapshot? ensures x <= ms[k].view.turn {
      var i :| 0 <= i < |less| && OwnTurn(less[i], me) && less[i].view.turn == x;
      assert ms[i] == less[i];
    }
  }

  /** A client that starts afresh counts each of its turns once, however many snapshots it sees of it. */
  lemma {:induction false} CountsTurns(me: nat, ms: seq<Message>)
    requires Forward(ms)
    ensures Counted(Reads(NewClient(me), ms), me, OwnRounds(ms, me))
    decreases |ms|
  {
    if ms != [] {
      var k := |ms| - 1;
      var less, m := ms[..k], ms[k];
      assert m.EndedMessage? || (m.Snapshot? && m.view.turn >= 1);
      assert ms == less + [m];
      hide Forward, Counted, OwnRounds, Reduce;
      ForwardPrefix(ms, k, me);
      CountsTurns(me, less);
      OwnRoundsStep(less, m, me);
      CountsOne(Reads(NewClient(me), less), m, me, OwnRounds(less, me));
    }
  }
}
