/**
 Two nodes and the network between them. Each node runs the session machine of its peer;
 the network may delay, lose, duplicate and reorder. The theorems about it restrict the
 actions they allow.
 */
module Network {
  import opened Base
  import opened Addr
  import opened KcpModel
  import opened Machine
  import P = Packet

  /** The side with the greater address and the side with the smaller one. */
  datatype Side = Hi | Lo

  function Other(x: Side): Side {
    if x == Hi then Lo else Hi
  }

  /** Each node's local address is the address its peer sees it under. */
  datatype Net = Net(hi: SocketAddr, lo: SocketAddr, cfg: Config)

  predicate NetOk(net: Net) {
    Greater(net.hi, net.lo)
  }

  lemma OneWins(net: Net)
    requires NetOk(net)
    ensures !Greater(net.lo, net.hi)
  {
    ExactlyOneWins(net.hi, net.lo);
  }

  function AddrOf(net: Net, x: Side): SocketAddr {
    if x == Hi then net.hi else net.lo
  }

  /**
   A node with its slot for the peer, the datagrams in flight towards it, every datagram
   it has sent, the conversation ids it has drawn and the events it has fired.
   */
  datatype Endpoint = Endpoint(slot: Option<SessionView>, inbox: seq<Datagram>, sent: seq<Datagram>,
                               drawn: seq<Conv>, events: seq<Event>)

  datatype Sys = Sys(hi: Endpoint, lo: Endpoint, used: set<Conv>)

  function At(s: Sys, x: Side): Endpoint {
    if x == Hi then s.hi else s.lo
  }

  datatype Action =
    | Deliver(to: Side, i: nat, now: nat, ch: Choice)
    | Lose(to: Side, i: nat)
    | Replay(to: Side, i: nat, now: nat, ch: Choice)
    | UserSend(at: Side, data: Bytes, drawn: Conv, now: nat, ch: Choice)
    | UserDisconnect(at: Side)
    | Ticks(at: Side, now: nat, ch: Choice)
    | Crash(at: Side)
    | Shutdown(at: Side)

  /** Ids drawn are new: `random_range` over 32 bits, with collisions excluded. */
  predicate Enabled(s: Sys, a: Action) {
    match a
    case Deliver(to, i, _, _) => i < |At(s, to).inbox|
    case Lose(to, i) => i < |At(s, to).inbox|
    case Replay(to, i, _, _) => i < |At(s, Other(to)).sent|
    case UserSend(at, _, drawn, _, _) => At(s, at).slot.None? ==> drawn !in s.used
    case _ => true
  }

  function Remove<T>(s: seq<T>, i: nat): (r: seq<T>)
    requires i < |s|
    ensures forall x :: x in r ==> x in s
  {
    s[..i] + s[i + 1..]
  }

  function Packets(wire: seq<Sent>): (r: seq<Datagram>)
    ensures |r| == |wire|
    ensures forall p :: p in r ==> exists w :: w in wire && w.packet == p
    ensures forall i :: 0 <= i < |r| ==> r[i] == wire[i].packet
  {
    seq(|wire|, i requires 0 <= i < |wire| => wire[i].packet)
  }

  /** The system after side `x` has performed a call with effect `e`, its inbox being `inbox`. */
  function Apply(s: Sys, x: Side, e: Effect, inbox: seq<Datagram>): Sys {
    var out := Packets(e.wire);
    var me := At(s, x).(slot := e.slot, inbox := inbox, sent := At(s, x).sent + out,
                        events := At(s, x).events + e.events);
    var peer := At(s, Other(x)).(inbox := At(s, Other(x)).inbox + out);
    if x == Hi then s.(hi := me, lo := peer) else s.(hi := peer, lo := me)
  }

  function Call(net: Net, s: Sys, x: Side, op: SlotOp): Effect {
    Step(Env(AddrOf(net, x), net.cfg), At(s, x).slot, op)
  }

  function Arrive(net: Net, s: Sys, x: Side, p: Datagram, now: nat, ch: Choice): Effect {
    Call(net, s, x, Receive(AddrOf(net, Other(x)), Arrival(p), now, ch))
  }

  /** Records the id that a send has to draw when there is no session. */
  function Draw(s: Sys, x: Side, drawn: Conv): Sys {
    if At(s, x).slot.Some? then s
    else
      var me := At(s, x).(drawn := At(s, x).drawn + [drawn]);
      (if x == Hi then s.(hi := me) else s.(lo := me)).(used := s.used + {drawn})
  }

  function Vanish(s: Sys, x: Side): Sys {
    if x == Hi then s.(hi := s.hi.(slot := None)) else s.(lo := s.lo.(slot := None))
  }

  function Next(net: Net, s: Sys, a: Action): Sys
    requires Enabled(s, a)
  {
    match a
    case Deliver(to, i, now, ch) =>
      var inbox := At(s, to).inbox;
      Apply(s, to, Arrive(net, s, to, inbox[i], now, ch), Remove(inbox, i))
    case Lose(to, i) =>
      if to == Hi then s.(hi := s.hi.(inbox := Remove(s.hi.inbox, i)))
      else s.(lo := s.lo.(inbox := Remove(s.lo.inbox, i)))
    case Replay(to, i, now, ch) =>
      Apply(s, to, Arrive(net, s, to, At(s, Other(to)).sent[i], now, ch), At(s, to).inbox)
    case UserSend(at, data, drawn, now, ch) =>
      var e := Call(net, s, at, Send(AddrOf(net, Other(at)), data, drawn, now, ch));
      Apply(Draw(s, at, drawn), at, e, At(s, at).inbox)
    case UserDisconnect(at) =>
      Apply(s, at, Call(net, s, at, Disconnect(AddrOf(net, Other(at)))), At(s, at).inbox)
    case Ticks(at, now, ch) =>
      Apply(s, at, Call(net, s, at, Tick(now, ch)), At(s, at).inbox)
    case Crash(at) => Vanish(s, at)
    case Shutdown(at) =>
      var slot := At(s, at).slot;
      var wire := if slot.Some? then Resets(slot.value.peer, slot.value.conv) else [];
      Apply(s, at, Effect(None, [], wire, [], 0, Done), At(s, at).inbox)
  }

  predicate CanRun(net: Net, s: Sys, run: seq<Action>)
    decreases run
  {
    run == [] || (Enabled(s, run[0]) && CanRun(net, Next(net, s, run[0]), run[1..]))
  }

  function Run(net: Net, s: Sys, run: seq<Action>): Sys
    requires CanRun(net, s, run)
    decreases run
  {
    if run == [] then s else Run(net, Next(net, s, run[0]), run[1..])
  }

  lemma FirstAction(net: Net, s: Sys, run: seq<Action>)
    requires run != [] && Enabled(s, run[0]) && CanRun(net, Next(net, s, run[0]), run[1..])
    ensures CanRun(net, s, run) && Run(net, s, run) == Run(net, Next(net, s, run[0]), run[1..])
  {
  }

  lemma {:induction false} RunConcat(net: Net, s: Sys, a: seq<Action>, b: seq<Action>)
    requires CanRun(net, s, a) && CanRun(net, Run(net, s, a), b)
    ensures CanRun(net, s, a + b) && Run(net, s, a + b) == Run(net, Run(net, s, a), b)
    decreases a
  {
    hide Next;
    if a == [] {
      assert a + b == b;
    } else {
      RunConcat(net, Next(net, s, a[0]), a[1..], b);
      assert (a + b)[1..] == a[1..] + b;
    }
  }

  function Resting(slot: Option<SessionView>): Endpoint {
    Endpoint(slot, [], [], [], [])
  }

  /** No session, nothing in flight. */
  function Start(): Sys {
    Sys(Resting(None), Resting(None), {})
  }

  /** Which datagrams a call may write, by type. */
  predicate Licensed(slot: Option<SessionView>, op: SlotOp, after: Option<SessionView>, p: Datagram) {
    match p
    case Data(f) =>
      && slot.Some?
      && FinalConv(slot, after) == Some(f.conv)
      && (if after.Some? then after.value.state == Established else slot.value.state == Established)
    case Syn(c) =>
      || (op.Send? && slot.None? && c == op.drawn)
      || (op.Tick? && slot.Some? && slot.value.state == SynSent && c == slot.value.conv)
    case SynAck(c) =>
      op.Receive? && op.inb.SynIn? && after.Some? && after.value.state == Established && c == after.value.conv
    case Reset(c) =>
      || (op.Receive? && slot.None? && op.inb == Arrival(Data(Frame(c, 0, []))))
      || (!op.Receive? && after.None? && slot.Some? && c == slot.value.conv)
  }

  /** A control packet written on an arrival is a SYN_ACK of the id just established or a RESET for a foreign frame. */
  lemma ReplyLicensed(me: SocketAddr, slot: Option<SessionView>, from: SocketAddr, inb: P.Inbound, now: nat,
                      ch: Choice, w: Sent)
    requires w in OnDatagram(me, slot, from, inb, now, ch).wire && !w.packet.Data?
    ensures Licensed(slot, Receive(from, inb, now, ch), OnDatagram(me, slot, from, inb, now, ch).slot, w.packet)
  {
    hide Flush, Greater, FinalConv;
  }

  lemma SentLicensed(env: Env, slot: Option<SessionView>, op: SlotOp, w: Sent)
    requires SlotOk(slot) && w in Step(env, slot, op).wire
    ensures Licensed(slot, op, Step(env, slot, op).slot, w.packet)
  {
    if w.packet.Data? {
      FramesCarryConv(env, slot, op, w);
      hide Step, SlotOk;
    } else if op.Receive? {
      ReplyLicensed(env.me, slot, op.from, op.inb, op.now, op.ch, w);
      hide SlotOk, Licensed, OnDatagram;
    } else {
      hide Flush, SlotOk, OnDatagram, Backoff, FinalConv;
    }
  }

  lemma WireLicensed(env: Env, slot: Option<SessionView>, op: SlotOp)
    requires SlotOk(slot)
    ensures var e := Step(env, slot, op);
            && SlotOk(e.slot)
            && forall p :: p in Packets(e.wire) ==> Licensed(slot, op, e.slot, p)
  {
    hide Step, SlotOk, Licensed;
    var e := Step(env, slot, op);
    StepKeepsOk(env, slot, op);
    forall p | p in Packets(e.wire) ensures Licensed(slot, op, e.slot, p) {
      var w :| w in e.wire && w.packet == p;
      SentLicensed(env, slot, op, w);
    }
  }
}
