/** `src/transport.rs`: a node as an object that updates its session map, event log and pending queue in place. */
module Transport {
  import opened Base
  import opened Addr
  import opened KcpModel
  import opened Machine
  import opened Node
  import opened Sessions
  import P = Packet

  /** A node in state `st` after a call with effect `e`: the map moves on and the logs grow. */
  function After(st: NodeEffect, e: NodeEffect): NodeEffect {
    NodeEffect(e.sessions, st.events + e.events, st.wire + e.wire, st.inbox + e.inbox, st.inserted)
  }

  function Quiet(m: SessionMap): NodeEffect {
    NodeEffect(m, [], [], [], 0)
  }

  lemma KeptIsStill(st: NodeEffect, key: CanonicalAddr, outcome: Outcome)
    ensures After(st, Placed(st.sessions, key, Keep(Lookup(st.sessions, key), outcome))) == st
  {
    assert Store(st.sessions, key, Lookup(st.sessions, key)) == st.sessions;
    assert st.events + [] == st.events && st.wire + [] == st.wire && st.inbox + [] == st.inbox;
  }

  lemma AfterPrune(st: NodeEffect, e: NodeEffect, k: CanonicalAddr)
    ensures After(After(st, e), Prune(Quiet(e.sessions), k)) == After(st, Prune(e, k))
  {
    var d := Prune(Quiet(e.sessions), k);
    PruneAdds(e, k);
    assert (st.events + e.events) + d.events == st.events + (e.events + d.events);
    assert (st.wire + e.wire) + d.wire == st.wire + (e.wire + d.wire);
    assert (st.inbox + e.inbox) + d.inbox == st.inbox + e.inbox;
  }

  /** The effect of driving one session of `m`. */
  function TouchEffect(cfg: Config, m: SessionMap, k: CanonicalAddr, now: nat, ch: Choice): NodeEffect
    requires k in m
  {
    var t := Touch(cfg, m[k], now, ch);
    NodeEffect(m[k := t.session], [], t.wire, [], 0)
  }

  function SweepEffect(sweep: Sweep): NodeEffect {
    NodeEffect(sweep.sessions, [], sweep.wire, [], 0)
  }

  lemma AfterSweep(st: NodeEffect, cfg: Config, m: SessionMap, order: seq<CanonicalAddr>, now: nat,
                   choice: CanonicalAddr -> Choice)
    requires order != [] && Distinct(order) && forall k :: k in order ==> k in m
    ensures var k := Last(order);
            var prev := SweepAll(cfg, m, Init(order), now, choice);
            && k in prev.sessions && prev.sessions[k] == m[k]
            && After(st, SweepEffect(prev)).sessions == prev.sessions
            && SweepAll(cfg, m, order, now, choice).doomed
               == prev.doomed + (if Touch(cfg, m[k], now, choice(k)).doomed then [k] else [])
            && After(After(st, SweepEffect(prev)), TouchEffect(cfg, prev.sessions, k, now, choice(k)))
               == After(st, SweepEffect(SweepAll(cfg, m, order, now, choice)))
  {
    var k := Last(order);
    var prev := SweepAll(cfg, m, Init(order), now, choice);
    DistinctLast(order);
    SweepSpares(cfg, m, Init(order), now, choice, k);
    assert Lookup(prev.sessions, k) == Lookup(m, k);
    var t := Touch(cfg, m[k], now, choice(k));
    hide Touch;
    assert (st.wire + prev.wire) + t.wire == st.wire + (prev.wire + t.wire);
    assert st.events + [] + [] == st.events + [] && st.inbox + [] + [] == st.inbox + [];
  }

  /** One session closed by shutdown: it stays mapped, three RESETs announce its end. */
  function Farewell(e: NodeEffect, k: CanonicalAddr): NodeEffect {
    if k in e.sessions then
      var s := e.sessions[k];
      e.(sessions := e.sessions[k := s.(closed := true)], wire := e.wire + Resets(s.peer, s.conv))
    else e
  }

  function FarewellAll(m: SessionMap, order: seq<CanonicalAddr>): NodeEffect {
    if order == [] then Quiet(m) else Farewell(FarewellAll(m, Init(order)), Last(order))
  }

  lemma AfterFarewell(st: NodeEffect, e: NodeEffect, k: CanonicalAddr)
    ensures After(After(st, e), Farewell(Quiet(e.sessions), k)) == After(st, Farewell(e, k))
    ensures After(st, e).sessions == e.sessions
  {
    var d := Farewell(Quiet(e.sessions), k);
    assert (st.wire + e.wire) + d.wire == st.wire + (e.wire + d.wire);
    assert (st.events + e.events) + [] == st.events + e.events && (st.inbox + e.inbox) + [] == st.inbox + e.inbox;
  }

  lemma {:induction false} FarewellSessions(m: SessionMap, order: seq<CanonicalAddr>, p: CanonicalAddr)
    requires Distinct(order) && forall k :: k in order ==> k in m
    ensures var e := FarewellAll(m, order);
            && e.sessions.Keys == m.Keys && e.events == [] && e.inbox == []
            && (p in m ==> e.sessions[p] == if p in order then m[p].(closed := true) else m[p])
  {
    if order != [] {
      DistinctLast(order);
      FarewellSessions(m, Init(order), p);
    }
  }

  /**
   Shutdown closes every session, writes for each exactly three RESETs with its own
   conversation id and nothing else, fires no event and removes no key.
   */
  lemma {:induction false} FarewellExact(m: SessionMap, order: seq<CanonicalAddr>, p: CanonicalAddr)
    requires Keyed(m) && Enumerates(order, m)
    ensures var e := FarewellAll(m, order);
            && e.sessions.Keys == m.Keys && e.events == [] && e.inbox == []
            && if p in m then
                 e.sessions[p] == m[p].(closed := true) && WireOf(e.wire, p) == Resets(m[p].peer, m[p].conv)
               else WireOf(e.wire, p) == []
  {
    FarewellSessions(m, order, p);
    FarewellWire(m, order, p);
  }

  lemma {:induction false} FarewellWire(m: SessionMap, order: seq<CanonicalAddr>, p: CanonicalAddr)
    requires Keyed(m) && Distinct(order) && forall k :: k in order ==> k in m
    ensures WireOf(FarewellAll(m, order).wire, p) == if p in order then Resets(m[p].peer, m[p].conv) else []
  {
    if order != [] {
      var k := Last(order);
      var s := m[k];
      assert KeyedAt(k, s);
      WireAllOf(Resets(s.peer, s.conv), k, p);
      DistinctLast(order);
      FarewellSessions(m, Init(order), k);
      FarewellWire(m, Init(order), p);
      hide KeyedAt, Resets;
      WireOfConcat(FarewellAll(m, Init(order)).wire, Resets(s.peer, s.conv), p);
    }
  }

  class KcpPeer {
    const socket: Socket
    const config: Config
    var sessions: map<CanonicalAddr, Session>
    var events: seq<Event>
    var pending: seq<Message>

    /** Every session writes to the node's socket and is mapped under the canonical form of its address. */
    ghost predicate Wired()
      reads this`sessions, sessions.Values
    {
      forall k :: k in sessions ==> sessions[k].socket == socket && Canonicalize(sessions[k].peerAddr) == k
    }

    /** Between calls every mapped session is also open. */
    ghost predicate Valid()
      reads this`sessions, sessions.Values
    {
      Wired() && forall k :: k in sessions ==> !sessions[k].closed
    }

    /** The session map as a map of values: the state of `Node`. */
    function Views(): SessionMap
      reads this`sessions, sessions.Values
    {
      map k | k in sessions :: sessions[k].View()
    }

    function Env(): Machine.Env
    {
      Machine.Env(socket.localAddr, config)
    }

    /** Everything observable: the map, the events fired, the datagrams written and the pending messages. */
    ghost function State(): NodeEffect
      reads this, socket, sessions.Values
    {
      NodeEffect(Views(), events, socket.sent, pending, 0)
    }

    /** Of the sessions mapped before, those that left the map are closed; those that entered it are new. */
    twostate predicate Handles(before: map<CanonicalAddr, Session>)
      reads this, before.Values
    {
      && (forall k :: k in before && (k !in sessions || sessions[k] != before[k]) ==> before[k].closed)
      && (forall k :: k in sessions && (k !in before || sessions[k] != before[k]) ==> fresh(sessions[k]))
    }

    /** What a valid node knows about the session under `key`. */
    lemma Entry(key: CanonicalAddr)
      requires Valid()
      ensures Wired()
      ensures Lookup(Views(), key) == if key in sessions then Some(sessions[key].View()) else None
      ensures key in sessions ==>
                && sessions[key].socket == socket
                && Canonicalize(sessions[key].peerAddr) == key && !sessions[key].closed
                && forall k :: k in sessions && k != key ==> sessions[k] != sessions[key]
    {
    }

    /** A call that touches only the session under `key` changes the map of values only there. */
    twostate lemma Framed(key: CanonicalAddr)
      requires old(Wired())
      requires forall k :: k in old(sessions) && k != key ==> k in sessions
      requires forall k :: k in sessions && k != key ==>
                 k in old(sessions) && sessions[k] == old(sessions[k]) && unchanged(sessions[k])
      requires key in sessions ==> sessions[key].socket == socket && Canonicalize(sessions[key].peerAddr) == key
      ensures Wired()
      ensures old(Valid()) && (key in sessions ==> !sessions[key].closed) ==> Valid()
      ensures Views() == Store(old(Views()), key, if key in sessions then Some(sessions[key].View()) else None)
    {
    }

    /** What a step of the node model says of each field. */
    twostate lemma Moved(n: NodeEffect)
      requires State() == After(old(State()), n)
      ensures Views() == n.sessions && events == old(events) + n.events
      ensures socket.sent == old(socket.sent) + n.wire && pending == old(pending) + n.inbox
    {
    }

    constructor Bind(localAddr: SocketAddr, config: Config)
      ensures Valid() && sessions == map[] && events == [] && pending == []
      ensures fresh(socket) && socket.localAddr == localAddr && socket.sent == [] && this.config == config
    {
      socket := new Socket(localAddr);
      this.config := config;
      sessions, events, pending := map[], [], [];
    }

    /** What the session map already says when an event is fired. */
    ghost predicate Reflected(e: Event)
      reads this`sessions, sessions.Values
    {
      var can := Canonicalize(e.addr);
      match e
      case Connected(_) => can in sessions && sessions[can].state == Established && !sessions[can].closed
      case Disconnected(_) => can !in sessions
      case PeerRestarted(_) => can in sessions && sessions[can].closed
    }

    /**
     Events go out only through here, so each one finds the map already changed: Connected
     the session mapped and Established, Disconnected the key gone, PeerRestarted the old
     session closed.
     */
    method Fire(e: Event)
      requires Reflected(e)
      modifies this`events
      ensures events == old(events) + [e]
    {
      events := events + [e];
    }

    /** Registers a SynSent session unless one exists; the SYN is written only after the insertion. */
    method InitiateSession(peer: SocketAddr, drawn: Conv, now: nat, writes: bool) returns (session: Session)
      requires Valid()
      modifies this`sessions, socket
      ensures Valid() && Canonicalize(peer) in sessions && sessions[Canonicalize(peer)] == session
      ensures session.socket == socket && Canonicalize(session.peerAddr) == Canonicalize(peer) && !session.closed
      ensures Canonicalize(peer) in old(sessions) ==> sessions == old(sessions) && socket.sent == old(socket.sent)
      ensures Canonicalize(peer) !in old(sessions) ==>
                && fresh(session) && sessions == old(sessions)[Canonicalize(peer) := session]
                && session.View() == NewOutbound(drawn, peer, now)
                && socket.sent == old(socket.sent) + [Sent(peer, Syn(drawn))]
    {
      var can := Canonicalize(peer);
      if can in sessions {
        return sessions[can];
      }
      session := new Session.Outbound(drawn, peer, socket, now);
      sessions := sessions[can := session];
      session.SendSyn(now, writes);
    }

    method Send(peer: SocketAddr, data: Bytes, drawn: Conv, now: nat, ch: Choice) returns (outcome: Outcome)
      requires Valid()
      modifies this`sessions, socket, sessions.Values
      ensures Valid() && Handles(old(sessions))
      ensures var op := Machine.Send(peer, data, drawn, now, ch);
              var n := NodeStep(Env(), old(Views()), On(op));
              && Views() == n.sessions && events == old(events) + n.events
              && socket.sent == old(socket.sent) + n.wire && pending == old(pending) + n.inbox
              && outcome == Step(Env(), Lookup(old(Views()), Canonicalize(peer)), op).outcome
    {
      hide OnSend, Valid, Views, After, Placed;
      if Canonicalize(peer) in sessions {
        outcome := SendExisting(peer, data, drawn, now, ch);
      } else {
        outcome := SendFirst(peer, data, drawn, now, ch);
      }
      Moved(NodeStep(Env(), old(Views()), On(Machine.Send(peer, data, drawn, now, ch))));
    }

    method SendExisting(peer: SocketAddr, data: Bytes, ghost drawn: Conv, ghost now: nat, ch: Choice)
      returns (outcome: Outcome)
      requires Valid() && Canonicalize(peer) in sessions
      modifies socket, sessions[Canonicalize(peer)]
      ensures Valid()
      ensures var e := OnSend(Lookup(old(Views()), Canonicalize(peer)), peer, data, drawn, now, ch);
              State() == After(old(State()), Placed(old(Views()), Canonicalize(peer), e)) && outcome == e.outcome
    {
      var can := Canonicalize(peer);
      Entry(can);
      hide Machine.SendData, Valid, Views, Canonicalize;
      outcome := SendOn(sessions[can], data, ch);
      Framed(can);
      ghost var r := Machine.SendData(old(sessions[can].View()), data, ch);
      assert [] + Frames(peer, r.1) == Frames(peer, r.1);
      assert State().sessions == Store(old(Views()), can, Some(r.0));
    }

    method SendFirst(peer: SocketAddr, data: Bytes, drawn: Conv, now: nat, ch: Choice) returns (outcome: Outcome)
      requires Valid() && Canonicalize(peer) !in sessions
      modifies this`sessions, socket
      ensures Valid() && Handles(old(sessions))
      ensures var e := OnSend(Lookup(old(Views()), Canonicalize(peer)), peer, data, drawn, now, ch);
              State() == After(old(State()), Placed(old(Views()), Canonicalize(peer), e)) && outcome == e.outcome
    {
      var can := Canonicalize(peer);
      Entry(can);
      hide Machine.SendData, Valid, Views, Canonicalize;
      var session := InitiateSession(peer, drawn, now, ch.writes);
      outcome := SendOn(session, data, ch);
      Framed(can);
      ghost var r := Machine.SendData(NewOutbound(drawn, peer, now), data, ch);
      assert socket.sent == old(socket.sent) + ([Sent(peer, Syn(drawn))] + Frames(peer, r.1));
      assert State().sessions == Store(old(Views()), can, Some(r.0));
    }

    method SendOn(s: Session, data: Bytes, ch: Choice) returns (outcome: Outcome)
      requires s.socket == socket
      modifies s`kcp, socket
      ensures s.closed == old(s.closed)
      ensures var r := Machine.SendData(old(s.View()), data, ch);
              s.View() == r.0 && socket.sent == old(socket.sent) + Frames(r.0.peer, r.1) && outcome == r.2
    {
      outcome := s.SendData(data, ch);
    }

    method Disconnect(peer: SocketAddr)
      requires Valid()
      modifies this, socket, sessions.Values
      ensures Valid() && Handles(old(sessions))
      ensures var n := NodeStep(Env(), old(Views()), On(Machine.Disconnect(peer)));
              && Views() == n.sessions && events == old(events) + n.events
              && socket.sent == old(socket.sent) + n.wire && pending == old(pending) + n.inbox
    {
      var can := Canonicalize(peer);
      Entry(can);
      hide Valid, Views, Flush;
      if can in sessions {
        var s := sessions[can];
        sessions := sessions - {can};
        s.MarkClosed();
        socket.WriteResets(peer, s.conv);
        Fire(Disconnected(peer));
      }
      Framed(can);
    }

    /** Parses a datagram and runs the branch of its type. */
    method HandleIncoming(data: Bytes, from: SocketAddr, now: nat, ch: Choice) returns (outcome: Outcome)
      requires Valid()
      modifies this, socket, sessions.Values
      ensures Valid() && Handles(old(sessions))
      ensures var n := NodeStep(Env(), old(Views()), On(Receive(from, P.Parse(data), now, ch)));
              && Views() == n.sessions && events == old(events) + n.events
              && socket.sent == old(socket.sent) + n.wire && pending == old(pending) + n.inbox
      ensures var slot := Lookup(old(Views()), Canonicalize(from));
              outcome == OnDatagram(socket.localAddr, slot, from, P.Parse(data), now, ch).outcome
    {
      KeptIsStill(State(), Canonicalize(from), InvalidData);
      hide Valid, Views, P.Parse, OnFrame, OnSyn, OnSynAck, OnReset, Lookup, Placed, After;
      var inb := P.Parse(data);
      outcome := Done;
      match inb {
        case Invalid => outcome := InvalidData;
        case RuntIn => outcome := HandleKcpData(from, None, now, ch);
        case FrameIn(conv) => outcome := HandleKcpData(from, Some(conv), now, ch);
        case SynIn(conv) => HandleSyn(from, conv, now, ch);
        case SynAckIn(conv) => HandleSynAck(from, conv, now, ch);
        case ResetIn(conv) => HandleReset(from, conv);
      }
      Moved(NodeStep(Env(), old(Views()), On(Receive(from, inb, now, ch))));
    }

    method HandleKcpData(from: SocketAddr, conv: Option<Conv>, now: nat, ch: Choice) returns (outcome: Outcome)
      requires Valid()
      modifies this`pending, socket, sessions.Values
      ensures Valid() && Handles(old(sessions))
      ensures var e := OnFrame(Lookup(old(Views()), Canonicalize(from)), from, conv, now, ch);
              && State() == After(old(State()), Placed(old(Views()), Canonicalize(from), e))
              && outcome == e.outcome
    {
      var can := Canonicalize(from);
      Entry(can);
      hide Valid, Views, Accepts;
      outcome := Done;
      if can in sessions {
        outcome := Feed(sessions[can], from, conv, now, ch);
      } else if conv.Some? {
        socket.WriteResets(from, conv.value);
      }
      Framed(can);
    }

    /** A frame for a session restarts its idle timer; what it completes is drained into the pending queue. */
    method Feed(s: Session, ghost from: SocketAddr, conv: Option<Conv>, now: nat, ch: Choice) returns (outcome: Outcome)
      modifies s`lastRx, s`kcp, this`pending
      ensures s.closed == old(s.closed)
      ensures var e := OnFrame(Some(old(s.View())), from, conv, now, ch);
              && e.slot == Some(s.View()) && pending == old(pending) + e.inbox && outcome == e.outcome
              && e.events == [] && e.wire == [] && e.inserted == 0
    {
      s.lastRx := now;
      var ok := s.Input(conv, ch);
      if !ok {
        return KcpError;
      }
      var msgs := s.TryRecvAll();
      Enqueue(s.peerAddr, msgs);
      assert pending == old(pending) + Messages(s.peerAddr, msgs);
      return Done;
    }

    /** Moves a drained batch into the pending queue, in order. */
    method Enqueue(peer: SocketAddr, msgs: seq<Bytes>)
      modifies this`pending
      ensures |pending| == |old(pending)| + |msgs| && pending[..|old(pending)|] == old(pending)
      ensures forall i :: 0 <= i < |msgs| ==> pending[|old(pending)| + i] == Message(peer, msgs[i])
    {
      for i := 0 to |msgs|
        invariant |pending| == |old(pending)| + i && pending[..|old(pending)|] == old(pending)
        invariant forall j :: 0 <= j < i ==> pending[|old(pending)| + j] == Message(peer, msgs[j])
      {
        pending := pending + [Message(peer, msgs[i])];
      }
    }

    /** One look of `recv` at the pending queue: the oldest message, or nothing if there is none. */
    method TakePending() returns (msg: Option<Message>)
      modifies this`pending
      ensures old(pending) == (if msg.Some? then [msg.value] else []) + pending
      ensures msg.None? ==> pending == []
    {
      if pending == [] {
        return None;
      }
      msg := Some(pending[0]);
      pending := pending[1..];
    }

    method HandleSyn(from: SocketAddr, conv: Conv, now: nat, ch: Choice)
      requires Valid()
      modifies this`events, this`sessions, socket, sessions.Values
      ensures Valid() && Handles(old(sessions))
      ensures var e := OnSyn(socket.localAddr, Lookup(old(Views()), Canonicalize(from)), from, conv, now, ch);
              State() == After(old(State()), Placed(old(Views()), Canonicalize(from), e))
    {
      hide Valid, Views, OnSyn, Placed, After;
      if Canonicalize(from) in sessions {
        SynAtSession(from, conv, now, ch);
      } else {
        SynAtNone(from, conv, now, ch);
      }
    }

    method SynAtNone(from: SocketAddr, conv: Conv, now: nat, ghost ch: Choice)
      requires Valid() && Canonicalize(from) !in sessions
      modifies this`events, this`sessions, socket
      ensures Valid() && Handles(old(sessions))
      ensures var e := OnSyn(socket.localAddr, Lookup(old(Views()), Canonicalize(from)), from, conv, now, ch);
              State() == After(old(State()), Placed(old(Views()), Canonicalize(from), e))
    {
      var can := Canonicalize(from);
      Entry(can);
      SynOpensAnew(socket.localAddr, None, from, conv, now, ch);
      hide Valid, Views, OnSyn, NewInbound, Session.View;
      AcceptInbound(from, conv, now);
      Framed(can);
    }

    method SynAtSession(from: SocketAddr, conv: Conv, now: nat, ch: Choice)
      requires Valid() && Canonicalize(from) in sessions
      modifies this`events, this`sessions, socket, sessions[Canonicalize(from)]
      ensures Valid() && Handles(old(sessions))
      ensures var e := OnSyn(socket.localAddr, Lookup(old(Views()), Canonicalize(from)), from, conv, now, ch);
              State() == After(old(State()), Placed(old(Views()), Canonicalize(from), e))
    {
      var can := Canonicalize(from);
      Entry(can);
      hide Valid, Views, OnSyn, NewInbound;
      ghost var slot := Lookup(Views(), can);
      var restart := AnswerSyn(sessions[can], from, conv, now, ch);
      if restart {
        SynOpensAnew(socket.localAddr, slot, from, conv, now, ch);
        AcceptInbound(from, conv, now);
        ghost var e := Accept(slot, from, conv, now);
        assert events == old(events) + e.events && socket.sent == old(socket.sent) + e.wire;
      }
      hide Accept, Session.View;
      Framed(can);
    }

    /** The SYN_ACK goes out first, then the new session is mapped, then Connected is fired. */
    method AcceptInbound(from: SocketAddr, conv: Conv, now: nat)
      modifies this`events, this`sessions, socket
      ensures Canonicalize(from) in sessions && fresh(sessions[Canonicalize(from)])
      ensures sessions == old(sessions)[Canonicalize(from) := sessions[Canonicalize(from)]]
      ensures var session := sessions[Canonicalize(from)];
              && session.View() == NewInbound(conv, from, now)
              && session.socket == socket && session.peerAddr == from && !session.closed
      ensures socket.sent == old(socket.sent) + [Sent(from, SynAck(conv))]
      ensures events == old(events) + [Connected(from)]
    {
      var session := new Session.Inbound(conv, from, socket, now);
      sessions := sessions[Canonicalize(from) := session];
      Fire(Connected(from));
    }

    /** A SYN that finds a session: re-acknowledged, ignored, tie-broken, or taken as a restart of the peer. */
    method AnswerSyn(session: Session, from: SocketAddr, conv: Conv, now: nat, ch: Choice) returns (restart: bool)
      requires Canonicalize(from) in sessions && sessions[Canonicalize(from)] == session
      requires session.socket == socket && !session.closed
      modifies this`events, session, socket
      ensures session.closed == restart
      ensures restart <==> old(session.conv) != conv && old(session.state) == Established
      ensures restart ==> events == old(events) + [PeerRestarted(from)] && socket.sent == old(socket.sent)
      ensures var e := OnSyn(socket.localAddr, Some(old(session.View())), from, conv, now, ch);
              !restart ==>
                && e.slot == Some(session.View()) && e.inbox == [] && e.inserted == 0
                && events == old(events) + e.events && socket.sent == old(socket.sent) + e.wire
    {
      hide Flush, Greater;
      restart := false;
      var ack: Option<Conv> := None;
      var oldConv := session.conv;
      if oldConv == conv {
        if session.state == Established {
          session.lastRx := now;
          ack := Some(conv);
        }
      } else if session.state == SynSent {
        if Greater(from, socket.localAddr) {
          session.Enter(conv, now, ch);
          ack := Some(conv);
        } else {
          session.Enter(oldConv, now, ch);
          ack := Some(oldConv);
        }
        Fire(Connected(from));
      } else {
        session.MarkClosed();
        Fire(PeerRestarted(from));
        restart := true;
      }
      if ack.Some? {
        socket.Write(from, SynAck(ack.value));
      }
    }

    method HandleSynAck(from: SocketAddr, conv: Conv, now: nat, ch: Choice)
      requires Valid()
      modifies this`events, socket, sessions.Values
      ensures Valid() && Handles(old(sessions))
      ensures var e := OnSynAck(Lookup(old(Views()), Canonicalize(from)), from, conv, now, ch);
              State() == After(old(State()), Placed(old(Views()), Canonicalize(from), e))
    {
      var can := Canonicalize(from);
      Entry(can);
      hide Valid, Views, Flush;
      if can in sessions {
        var s := sessions[can];
        if s.state == SynSent && s.conv == conv {
          s.Enter(conv, now, ch);
          Fire(Connected(from));
        }
      }
      Framed(can);
    }

    method HandleReset(from: SocketAddr, conv: Conv)
      requires Valid()
      modifies this, sessions.Values
      ensures Valid() && Handles(old(sessions))
      ensures var e := OnReset(Lookup(old(Views()), Canonicalize(from)), from, conv);
              State() == After(old(State()), Placed(old(Views()), Canonicalize(from), e))
    {
      var can := Canonicalize(from);
      Entry(can);
      hide Valid, Views, Flush;
      if can in sessions {
        var s := sessions[can];
        if s.conv == conv {
          sessions := sessions - {can};
          s.MarkClosed();
          Fire(Disconnected(from));
        }
      }
      Framed(can);
    }

    /** One session's share of the first loop of a tick. */
    method TouchSession(k: CanonicalAddr, now: nat, ch: Choice) returns (doomed: bool)
      requires Valid() && k in sessions
      modifies sessions[k], socket
      ensures Valid() && k in old(State()).sessions
      ensures State() == After(old(State()), TouchEffect(config, old(State()).sessions, k, now, ch))
      ensures doomed <==> Touch(config, old(State()).sessions[k], now, ch).doomed
    {
      Entry(k);
      hide Valid, Views, Touch;
      doomed := TouchOne(sessions[k], now, ch);
      Framed(k);
      hide Session.View;
    }

    method TouchOne(s: Session, now: nat, ch: Choice) returns (doomed: bool)
      requires s.socket == socket
      modifies s, socket
      ensures var t := Touch(config, old(s.View()), now, ch);
              && s.View() == t.session && s.closed == old(s.closed)
              && socket.sent == old(socket.sent) + t.wire
              && (doomed <==> t.doomed)
    {
      hide Flush, Backoff, Frames;
      if s.closed {
        return false;
      }
      var updated := s.Update(ch);
      if updated == DeadLink {
        return true;
      }
      var result, _ := s.MaybeRetrySyn(config, now, now);
      if result == DeadLink {
        return true;
      }
      return s.lastRx > 0 && Elapsed(now, s.lastRx) > config.sessionTimeout;
    }

    /** One removal of the second loop of a tick. */
    method RemoveSession(k: CanonicalAddr)
      requires Valid()
      modifies this`sessions, this`events, socket, sessions.Values
      ensures Valid() && sessions == old(sessions) - {k}
      ensures k in old(sessions) ==> old(sessions)[k].closed
      ensures forall j :: j in sessions ==> unchanged(sessions[j])
      ensures State() == After(old(State()), Prune(Quiet(old(State()).sessions), k))
    {
      if k in sessions {
        var s := sessions[k];
        sessions := sessions - {k};
        socket.WriteResets(s.peerAddr, s.conv);
        s.MarkClosed();
        Fire(Disconnected(s.peerAddr));
      }
      Framed(k);
    }

    /** The body of the update task, meeting the sessions of the hash map in `order`. */
    method TickBody(now: nat, order: seq<CanonicalAddr>, choice: CanonicalAddr -> Choice)
      requires Valid() && Enumerates(order, Views())
      modifies this`sessions, this`events, socket, sessions.Values
      ensures Valid() && Handles(old(sessions))
      ensures var n := NodeStep(Env(), old(Views()), TickAll(now, order, choice));
              && Views() == n.sessions && events == old(events) + n.events
              && socket.sent == old(socket.sent) + n.wire && pending == old(pending) + n.inbox
    {
      hide SweepAll, PruneAll, Views, Valid, Enumerates, Machine.Step;
      var toRemove := CollectDoomed(now, order, choice);
      RemoveDoomed(toRemove);
      Moved(NodeStep(Env(), old(Views()), TickAll(now, order, choice)));
    }

    method CollectDoomed(now: nat, order: seq<CanonicalAddr>, choice: CanonicalAddr -> Choice)
      returns (toRemove: seq<CanonicalAddr>)
      requires Valid() && Enumerates(order, Views())
      modifies socket, sessions.Values
      ensures Valid()
      ensures var sweep := SweepAll(config, old(Views()), order, now, choice);
              State() == After(old(State()), SweepEffect(sweep)) && toRemove == sweep.doomed
    {
      ghost var m := Views();
      ghost var st := State();
      toRemove := [];
      assert order[..0] == [];
      hide Valid, Views, State, Touch, After, TouchEffect;
      assert State() == After(st, SweepEffect(SweepAll(config, m, [], now, choice)));
      hide SweepAll, SweepEffect;
      for i := 0 to |order|
        invariant Valid()
        invariant State() == After(st, SweepEffect(SweepAll(config, m, order[..i], now, choice)))
        invariant toRemove == SweepAll(config, m, order[..i], now, choice).doomed
      {
        var k := order[i];
        assert Init(order[..i + 1]) == order[..i] && Last(order[..i + 1]) == k;
        AfterSweep(st, config, m, order[..i + 1], now, choice);
        var doomed := TouchSession(k, now, choice(k));
        if doomed {
          toRemove := toRemove + [k];
        }
      }
      assert order[..|order|] == order;
    }

    method RemoveDoomed(toRemove: seq<CanonicalAddr>)
      requires Valid()
      modifies this`sessions, this`events, socket, sessions.Values
      ensures Valid() && Handles(old(sessions))
      ensures State() == After(old(State()), PruneAll(old(Views()), toRemove))
    {
      ghost var m := Views();
      ghost var st := State();
      assert toRemove[..0] == [];
      hide Valid, Views, Prune;
      for i := 0 to |toRemove|
        invariant Valid()
        invariant forall k :: k in old(sessions) && k !in sessions ==> old(sessions)[k].closed
        invariant forall k :: k in sessions ==> k in old(sessions) && sessions[k] == old(sessions)[k]
        invariant State() == After(st, PruneAll(m, toRemove[..i]))
      {
        var k := toRemove[i];
        assert Init(toRemove[..i + 1]) == toRemove[..i] && Last(toRemove[..i + 1]) == k;
        AfterPrune(st, PruneAll(m, toRemove[..i]), k);
        RemoveSession(k);
      }
      assert toRemove[..|toRemove|] == toRemove;
    }

    /** Closes every session and announces it to its peer; no event is fired and the map keeps its keys. */
    method Shutdown(order: seq<CanonicalAddr>)
      requires Valid() && Enumerates(order, Views())
      modifies socket, sessions.Values
      ensures State() == After(old(State()), FarewellAll(old(Views()), order))
    {
      ghost var m := Views();
      ghost var st := State();
      assert order[..0] == [];
      hide State, Views, Farewell;
      for i := 0 to |order|
        invariant Wired()
        invariant State() == After(st, FarewellAll(m, order[..i]))
      {
        var k := order[i];
        assert Init(order[..i + 1]) == order[..i] && Last(order[..i + 1]) == k;
        AfterFarewell(st, FarewellAll(m, order[..i]), k);
        if k in sessions {
          CloseSession(k);
        }
      }
      assert order[..|order|] == order;
    }

    method CloseSession(k: CanonicalAddr)
      requires Wired() && k in sessions
      modifies socket, sessions[k]
      ensures Wired()
      ensures State() == After(old(State()), Farewell(Quiet(old(State()).sessions), k))
    {
      var s := sessions[k];
      s.MarkClosed();
      socket.WriteResets(s.peerAddr, s.conv);
      Framed(k);
    }
  }
}
