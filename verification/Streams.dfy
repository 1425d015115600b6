/** The service's subscriber table and the bot's view of a game, updated in place. */
module Streams {
  import opened States
  import opened FanOut
  import Engine

  /** What one fan-out does to every channel. */
  function OfferEach(subs: seq<Subscriber>, s: State, k: nat): seq<Subscriber> {
    seq(|subs|, i requires 0 <= i < |subs| => Offer(subs[i], MessageFor(s, k, subs[i].viewer)))
  }

  function IndexOfChannel(subs: seq<Subscriber>, id: nat): (i: nat)
    ensures i <= |subs| && (i < |subs| ==> subs[i].id == id)
    ensures forall j :: 0 <= j < i ==> subs[j].id != id
  {
    if subs == [] || subs[0].id == id then 0 else 1 + IndexOfChannel(subs[1..], id)
  }

  /** The oldest message of a channel is taken out. */
  function Drained(subs: seq<Subscriber>, id: nat): (seq<Subscriber>, Option<Message>) {
    var i := IndexOfChannel(subs, id);
    if i < |subs| && subs[i].buffer != [] then
      (subs[i := subs[i].(buffer := subs[i].buffer[1..])], Some(subs[i].buffer[0]))
    else (subs, None)
  }

  /** A channel is removed and the others stay in order. */
  function Unregistered(subs: seq<Subscriber>, id: nat): seq<Subscriber> {
    var i := IndexOfChannel(subs, id);
    if i < |subs| then subs[..i] + subs[i + 1..] else subs
  }

  /** The service's bookkeeping for one game. */
  class GameService {
    var subs: seq<Subscriber>
    var count: nat

    constructor ()
      ensures subs == [] && count == 0
    {
      subs, count := [], 0;
    }

    /** Sends one message about `s` to every subscriber, each its own seat's, without ever blocking. */
    method FanOut(s: State)
      modifies this
      ensures count == old(count) + 1
      ensures subs == OfferEach(old(subs), s, count)
    {
      hide ViewOf;
      count := count + 1;
      ghost var before := subs;
      if s.ended {
        var resp := EndedMessage(count);
        var i := 0;
        while i < |subs|
          invariant i <= |subs| == |before| && count == old(count) + 1
          invariant forall j :: 0 <= j < |subs| ==>
                      subs[j] == if j < i then Offer(before[j], MessageFor(s, count, before[j].viewer)) else before[j]
        {
          if |subs[i].buffer| < CAPACITY { subs := subs[i := subs[i].(buffer := subs[i].buffer + [resp])]; }
          i := i + 1;
        }
        return;
      }
      var snapByViewer: map<nat, Message> := map[];
      var i := 0;
      while i < |subs|
        invariant i <= |subs| && subs == before && count == old(count) + 1
        invariant forall j :: 0 <= j < i ==> subs[j].viewer in snapByViewer
        invariant forall v :: v in snapByViewer ==> snapByViewer[v] == MessageFor(s, count, v)
      {
        var viewer := subs[i].viewer;
        i := i + 1;
        if viewer in snapByViewer { continue; }
        snapByViewer := snapByViewer[viewer := Snapshot(count, ViewOf(s, viewer))];
      }
      i := 0;
      while i < |subs|
        invariant i <= |subs| == |before| && count == old(count) + 1
        invariant forall j :: 0 <= j < |subs| ==>
                    subs[j] == if j < i then Offer(before[j], MessageFor(s, count, before[j].viewer)) else before[j]
        invariant forall j :: 0 <= j < |before| ==> before[j].viewer in snapByViewer
        invariant forall v :: v in snapByViewer ==> snapByViewer[v] == MessageFor(s, count, v)
      {
        var resp := snapByViewer[subs[i].viewer];
        if |subs[i].buffer| < CAPACITY { subs := subs[i := subs[i].(buffer := subs[i].buffer + [resp])]; }
        i := i + 1;
      }
    }

    /** Adds an empty channel after the others. */
    method Register(id: nat, viewer: nat)
      modifies this`subs
      ensures subs == old(subs) + [Subscriber(id, viewer, [])]
    {
      subs := subs + [Subscriber(id, viewer, [])];
    }

    /** Takes the next message out of a channel. */
    method Drain(id: nat) returns (m: Option<Message>)
      modifies this`subs
      ensures (subs, m) == Drained(old(subs), id)
    {
      var i := Find(id);
      if i == |subs| || subs[i].buffer == [] { return None; }
      m := Some(subs[i].buffer[0]);
      subs := subs[i := subs[i].(buffer := subs[i].buffer[1..])];
    }

    /** Removes a channel and leaves the others in order. */
    method Unregister(id: nat)
      modifies this`subs
      ensures subs == Unregistered(old(subs), id)
    {
      var i := Find(id);
      if i < |subs| { subs := subs[..i] + subs[i + 1..]; }
    }

    method Find(id: nat) returns (i: nat)
      ensures i == IndexOfChannel(subs, id)
    {
      i := 0;
      while i < |subs|
        invariant i <= |subs|
        invariant IndexOfChannel(subs, id) == i + IndexOfChannel(subs[i..], id)
      {
        if subs[i].id == id { return; }
        i := i + 1;
      }
    }
  }

  /** The bot's reduction of the event stream. */
  class Client {
    const me: nat
    var lastSeq: nat
    var snapshot: Option<View>
    var phase: Option<Phase>
    var turn: int
    var currentPlayer: nat
    var pending: Option<DecisionView>
    var decidingPlayer: nat
    var ended: bool
    var winners: seq<nat>
    var myTurnsTaken: nat
    var lastMyTurn: int

    ghost function Model(): ClientState
      reads this
    {
      ClientState(me, lastSeq, snapshot, phase, turn, currentPlayer, pending, decidingPlayer, ended, winners,
                  myTurnsTaken, lastMyTurn)
    }

    constructor (seat: nat)
      ensures Model() == NewClient(seat)
    {
      me := seat;
      lastSeq, snapshot, phase, turn, currentPlayer, pending := 0, None, None, 0, 0, None;
      decidingPlayer, ended, winners, myTurnsTaken, lastMyTurn := 0, false, [], 0, 0;
    }

    method TakeSnapshot(v: View)
      modifies this
      ensures Model() == FanOut.TakeSnapshot(old(Model()), v)
    {
      snapshot := Some(v);
      phase := Some(v.phase);
      turn := v.turn;
      currentPlayer := v.current;
      pending := v.pending;
      if v.pending.Some? { decidingPlayer := v.pending.value.player; }
      ended := v.ended;
      winners := v.winners;
      CountTurn();
    }

    /** Counts a turn of one's own once, when it is first seen. */
    method CountTurn()
      modifies this`myTurnsTaken, this`lastMyTurn
      ensures var c := old(Model());
              Model() == if c.currentPlayer == c.me && c.turn != c.lastMyTurn then
                           c.(myTurnsTaken := c.myTurnsTaken + 1, lastMyTurn := c.turn)
                         else c
    {
      if currentPlayer == me && turn != lastMyTurn {
        myTurnsTaken := myTurnsTaken + 1;
        lastMyTurn := turn;
      }
    }

    /** Reduces one event; an event that does not follow the last one is reported and not looked at. */
    method Apply(m: Message) returns (accepted: bool)
      modifies this
      ensures (Model(), accepted) == ClientApply(old(Model()), m)
    {
      hide FanOut.TakeSnapshot;
      if lastSeq != 0 && m.sequence != lastSeq + 1 && m.sequence != 0 { return false; }
      lastSeq := m.sequence;
      match m {
        case Snapshot(_, v) => TakeSnapshot(v);
        case PhaseMessage(_, p) => phase := Some(p);
        case TurnMessage(_, t, player) =>
          turn := t;
          currentPlayer := player;
          pending := None;
        case DecisionMessage(_, d, player) =>
          pending := Some(d);
          decidingPlayer := player;
        case EndedMessage(_) => ended := true;
      }
      return true;
    }
  }

  // ----- The system runs the service -----

  /** The channels the service has for the sessions, in the order of registration. */
  function Channels(xs: seq<Session>): seq<Subscriber> {
    if xs == [] then []
    else
      var k := |xs| - 1;
      Channels(xs[..k]) + (if xs[k].registered then [xs[k].sub] else [])
  }

  lemma {:induction false} ChannelsPlus(xs: seq<Session>, ys: seq<Session>)
    ensures Channels(xs + ys) == Channels(xs) + Channels(ys)
    decreases |ys|
  {
    if ys == [] {
      assert xs + ys == xs;
    } else {
      var k := |ys| - 1;
      assert (xs + ys)[..|xs| + k] == xs + ys[..k];
      ChannelsPlus(xs, ys[..k]);
    }
  }

  lemma ChannelOf(x: Session)
    ensures Channels([x]) == if x.registered then [x.sub] else []
  {
    assert [x][..0] == [];
  }

  /** One session among the others. */
  lemma ChannelsAt(xs: seq<Session>, i: nat, x: Session)
    requires i < |xs|
    ensures Channels(xs[i := x]) ==
            Channels(xs[..i]) + (if x.registered then [x.sub] else []) + Channels(xs[i + 1..])
  {
    assert xs[i := x] == xs[..i] + [x] + xs[i + 1..];
    ChannelsPlus(xs[..i] + [x], xs[i + 1..]);
    ChannelsPlus(xs[..i], [x]);
    ChannelOf(x);
    hide Channels;
  }

  lemma ChannelsWithout(xs: seq<Session>, i: nat)
    requires i < |xs|
    ensures Channels(xs[..i] + xs[i + 1..]) == Channels(xs[..i]) + Channels(xs[i + 1..])
  {
    ChannelsPlus(xs[..i], xs[i + 1..]);
  }

  lemma OfferPlus(a: seq<Subscriber>, b: seq<Subscriber>, s: State, k: nat)
    ensures OfferEach(a + b, s, k) == OfferEach(a, s, k) + OfferEach(b, s, k)
  {
    hide Offer, MessageFor;
  }

  lemma OfferOne(c: Subscriber, s: State, k: nat)
    ensures OfferEach([c], s, k) == [Offer(c, MessageFor(s, k, c.viewer))] && OfferEach([], s, k) == []
  {
    hide Offer, MessageFor;
  }

  /** The fan-out of the whole system is the service's fan-out on its channels. */
  lemma {:induction false} SystemFanOut(xs: seq<Session>, s: State, k: nat)
    ensures Channels(OfferedAll(xs, s, k)) == OfferEach(Channels(xs), s, k)
  {
    hide Offer, MessageFor, OfferEach;
    if xs == [] {
      OfferOne(Subscriber(0, 0, []), s, k);
    } else {
      var n := |xs| - 1;
      var ys := OfferedAll(xs, s, k);
      assert ys[..n] == OfferedAll(xs[..n], s, k) && ys[n] == Offered(xs[n], s, k);
      SystemFanOut(xs[..n], s, k);
      var more := if xs[n].registered then [xs[n].sub] else [];
      OfferOne(xs[n].sub, s, k);
      OfferPlus(Channels(xs[..n]), more, s, k);
    }
  }

  /** No two subscriptions share an identifier. */
  predicate Unique(xs: seq<Session>) {
    forall i, j :: 0 <= i < j < |xs| ==> xs[i].sub.id != xs[j].sub.id
  }

  lemma {:induction false} ChannelIds(xs: seq<Session>, id: nat)
    requires forall i :: 0 <= i < |xs| ==> xs[i].sub.id != id
    ensures forall i :: 0 <= i < |Channels(xs)| ==> Channels(xs)[i].id != id
  {
    if xs != [] { ChannelIds(xs[..|xs| - 1], id); }
  }

  lemma {:induction false} IndexAfter(pre: seq<Subscriber>, c: Subscriber, post: seq<Subscriber>)
    requires forall i :: 0 <= i < |pre| ==> pre[i].id != c.id
    ensures IndexOfChannel(pre + [c] + post, c.id) == |pre|
  {
    var all := pre + [c] + post;
    var i := IndexOfChannel(all, c.id);
    assert all[|pre|] == c;
    assert forall j :: 0 <= j < |pre| ==> all[j] == pre[j];
    hide IndexOfChannel;
  }

  /** Where the service finds the channel of a registered session. */
  lemma FoundAt(xs: seq<Session>, i: nat)
    requires Unique(xs) && i < |xs| && xs[i].registered
    ensures var pre, post := Channels(xs[..i]), Channels(xs[i + 1..]);
            && Channels(xs) == pre + [xs[i].sub] + post
            && IndexOfChannel(Channels(xs), xs[i].sub.id) == |pre|
  {
    assert xs[i := xs[i]] == xs;
    ChannelsAt(xs, i, xs[i]);
    ChannelIds(xs[..i], xs[i].sub.id);
    hide Channels, IndexOfChannel;
    IndexAfter(Channels(xs[..i]), xs[i].sub, Channels(xs[i + 1..]));
  }

  lemma CutOut(pre: seq<Subscriber>, c: Subscriber, post: seq<Subscriber>, d: Subscriber)
    ensures var all, i := pre + [c] + post, |pre|;
            && all[i] == c && all[..i] + all[i + 1..] == pre + post
            && all[i := d] == pre + [d] + post
  {
  }

  lemma RemovesOne(xs: seq<Session>, i: nat)
    requires Unique(xs) && i < |xs|
    ensures Channels(xs[..i]) + Channels(xs[i + 1..]) ==
            if xs[i].registered then Unregistered(Channels(xs), xs[i].sub.id) else Channels(xs)
  {
    hide Channels, IndexOfChannel;
    var pre, post := Channels(xs[..i]), Channels(xs[i + 1..]);
    if xs[i].registered {
      FoundAt(xs, i);
      CutOut(pre, xs[i].sub, post, xs[i].sub);
    } else {
      assert xs[i := xs[i]] == xs;
      ChannelsAt(xs, i, xs[i]);
      assert pre + [] + post == pre + post;
    }
  }

  /** What a step of the system does to the service's channels. */
  function ServiceStep(sys: System, step: Step): seq<Subscriber>
    requires sys.game.players != []
  {
    var subs, xs := Channels(sys.sessions), sys.sessions;
    match step
    case Submit(act) =>
      var r := Engine.Apply(sys.game, act);
      if r.error.Some? then subs else OfferEach(subs, r.state, |sys.history| + 1)
    case Subscribe(_, _) => subs
    case Register(i) =>
      if i < |xs| && !xs[i].registered then subs + [Subscriber(xs[i].sub.id, xs[i].sub.viewer, [])] else subs
    case Receive(i) =>
      if i < |xs| && xs[i].registered && !xs[i].gap then Drained(subs, xs[i].sub.id).0 else subs
    case Resubscribe(i, _) => if i < |xs| && xs[i].gap then Unregistered(subs, xs[i].sub.id) else subs
    case Unsubscribe(i) => if i < |xs| && xs[i].registered then Unregistered(subs, xs[i].sub.id) else subs
  }

  lemma DrainsOne(xs: seq<Session>, i: nat)
    requires Unique(xs) && i < |xs| && xs[i].registered
    ensures var x, subs := xs[i], Drained(Channels(xs), xs[i].sub.id).0;
            if x.sub.buffer == [] then subs == Channels(xs) else subs == Channels(xs[i := Received(x)])
  {
    hide Channels, IndexOfChannel, ClientApply;
    var x := xs[i];
    var pre, post := Channels(xs[..i]), Channels(xs[i + 1..]);
    FoundAt(xs, i);
    CutOut(pre, x.sub, post, x.sub);
    if x.sub.buffer != [] {
      ChannelsAt(xs, i, Received(x));
      CutOut(pre, x.sub, post, Received(x).sub);
    }
  }

  lemma Registers(xs: seq<Session>, i: nat)
    requires Unique(xs) && i < |xs| && !xs[i].registered && xs[i].sub.buffer == []
    ensures Channels(xs[..i] + xs[i + 1..] + [xs[i].(registered := true)]) ==
            Channels(xs) + [Subscriber(xs[i].sub.id, xs[i].sub.viewer, [])]
  {
    var y := xs[i].(registered := true);
    ChannelsPlus(xs[..i] + xs[i + 1..], [y]);
    ChannelsWithout(xs, i);
    RemovesOne(xs, i);
    ChannelOf(y);
    hide Channels;
  }

  lemma UnregisteredEmpty(x: Session, history: seq<State>)
    requires SessionOk(x, history)
    ensures !x.registered ==> x.sub.buffer == [] && !x.gap
  {
    hide MessageFor, Shows, Accounted;
    if !x.registered && Live(x) != [] { FannedOutSince(Live(x), history, x.since, x.sub.viewer); }
  }

  lemma Newcomer(sys: System, id: nat, client: ClientState)
    ensures !Opened(id, client, Mark(sys.game, sys.slips), |sys.history|).registered
  {
  }

  lemma RegisterStep(sys: System, i: nat)
    requires sys.game.players != [] && Unique(sys.sessions) && i < |sys.sessions|
    requires !sys.sessions[i].registered ==> sys.sessions[i].sub.buffer == []
    ensures Channels(Next(sys, Register(i)).sessions) == ServiceStep(sys, Register(i))
  {
    hide Channels, Unique;
    if !sys.sessions[i].registered { Registers(sys.sessions, i); }
  }

  lemma ReceiveStep(sys: System, i: nat)
    requires sys.game.players != [] && Unique(sys.sessions) && i < |sys.sessions|
    requires !sys.sessions[i].registered ==> sys.sessions[i].sub.buffer == []
    ensures Channels(Next(sys, Receive(i)).sessions) == ServiceStep(sys, Receive(i))
  {
    hide Channels, Unique, Drained, Received;
    if sys.sessions[i].registered { DrainsOne(sys.sessions, i); }
  }

  lemma LeaveStep(sys: System, i: nat, id: nat)
    requires sys.game.players != [] && Unique(sys.sessions) && i < |sys.sessions|
    requires !sys.sessions[i].registered ==> !sys.sessions[i].gap
    ensures Channels(Next(sys, Unsubscribe(i)).sessions) == ServiceStep(sys, Unsubscribe(i))
    ensures Channels(Next(sys, Resubscribe(i, id)).sessions) == ServiceStep(sys, Resubscribe(i, id))
  {
    var xs := sys.sessions;
    hide Channels, Unique, Unregistered, Opened;
    Newcomer(sys, id, xs[i].client);
    ChannelsAt(xs, i, Opened(id, xs[i].client, Mark(sys.game, sys.slips), |sys.history|));
    assert Channels(xs[..i]) + [] == Channels(xs[..i]);
    RemovesOne(xs, i);
    ChannelsWithout(xs, i);
  }

  lemma SubmitStep(sys: System, act: Action)
    requires sys.game.players != []
    ensures Channels(Next(sys, Submit(act)).sessions) == ServiceStep(sys, Submit(act))
  {
    hide Channels, Engine.Apply, OfferedAll, OfferEach;
    SystemFanOut(sys.sessions, Engine.Apply(sys.game, act).state, |sys.history| + 1);
  }

  lemma SubscribeStep(sys: System, id: nat, seat: nat)
    requires sys.game.players != []
    ensures Channels(Next(sys, Subscribe(id, seat)).sessions) == ServiceStep(sys, Subscribe(id, seat))
  {
    hide Channels, Opened;
    var x := Opened(id, NewClient(seat), Mark(sys.game, sys.slips), |sys.history|);
    Newcomer(sys, id, NewClient(seat));
    ChannelsPlus(sys.sessions, [x]);
    ChannelOf(x);
  }

  lemma SessionAt(sys: System, i: nat)
    requires SystemOk(sys) && i < |sys.sessions|
    ensures !sys.sessions[i].registered ==> sys.sessions[i].sub.buffer == [] && !sys.sessions[i].gap
  {
    assert SessionOk(sys.sessions[i], sys.history) by { hide SessionOk; }
    hide SessionOk, SystemOk;
    UnregisteredEmpty(sys.sessions[i], sys.history);
  }

  /** The system's steps are the service's: on the channels each step is the service's own operation. */
  lemma SystemRunsService(sys: System, step: Step)
    requires SystemOk(sys) && Unique(sys.sessions)
    ensures sys.game.players != []
    ensures Channels(Next(sys, step).sessions) == ServiceStep(sys, step)
  {
    HasPlayers(sys);
    match step
    case Submit(act) => hide *; SubmitStep(sys, act);
    case Subscribe(id, seat) => hide *; SubscribeStep(sys, id, seat);
    case Register(i) => if i < |sys.sessions| { SessionAt(sys, i); hide *; RegisterStep(sys, i); }
    case Receive(i) => if i < |sys.sessions| { SessionAt(sys, i); hide *; ReceiveStep(sys, i); }
    case Resubscribe(i, id) => if i < |sys.sessions| { SessionAt(sys, i); hide *; LeaveStep(sys, i, id); }
    case Unsubscribe(i) => if i < |sys.sessions| { SessionAt(sys, i); hide *; LeaveStep(sys, i, 0); }
  }
}
