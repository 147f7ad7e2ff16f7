/**
 Control traffic dies out: without new sends, ticks or duplication the datagrams in
 flight can cause only a bounded number of further deliveries, in whatever order they
 arrive and whichever are lost.
 */
module Quiescence {
  import opened Base
  import opened Addr
  import opened KcpModel
  import opened Machine
  import opened Network

  /** What a datagram can still set in motion: a frame may provoke three RESETs, a SYN one SYN_ACK. */
  function Weight(p: Datagram): nat {
    match p
    case Syn(_) => 2
    case SynAck(_) => 1
    case Reset(_) => 1
    case Data(_) => 4
  }

  function Total(packets: seq<Datagram>): nat {
    if packets == [] then 0 else Weight(packets[0]) + Total(packets[1..])
  }

  /** Queued messages are released as frames when the session becomes Established. */
  function Held(slot: Option<SessionView>): nat {
    if slot.Some? then 4 * |slot.value.kcp.queue| else 0
  }

  function Unrest(s: Sys): nat {
    Total(s.hi.inbox) + Total(s.lo.inbox) + Held(s.hi.slot) + Held(s.lo.slot)
  }

  lemma {:induction false} TotalConcat(a: seq<Datagram>, b: seq<Datagram>)
    ensures Total(a + b) == Total(a) + Total(b)
  {
    if a == [] {
      assert a + b == b;
    } else {
      TotalConcat(a[1..], b);
      assert (a + b)[0] == a[0] && (a + b)[1..] == a[1..] + b;
    }
  }

  lemma TotalOne(p: Datagram)
    ensures Total([p]) == Weight(p)
  {
    assert [p][1..] == [];
  }

  lemma TotalRemove(packets: seq<Datagram>, i: nat)
    requires i < |packets|
    ensures Total(packets) == Weight(packets[i]) + Total(Remove(packets, i))
  {
    hide Total, Weight;
    var before, one, after := packets[..i], [packets[i]], packets[i + 1..];
    assert packets == before + (one + after);
    TotalConcat(before, one + after);
    TotalConcat(one, after);
    TotalConcat(before, after);
    TotalOne(packets[i]);
  }

  lemma {:induction false} TotalFrames(packets: seq<Datagram>)
    requires forall p :: p in packets ==> p.Data?
    ensures Total(packets) == 4 * |packets|
  {
    if packets != [] {
      assert packets[0] in packets;
      TotalFrames(packets[1..]);
    }
  }

  lemma PacketsConcat(a: seq<Sent>, b: seq<Sent>)
    ensures Packets(a + b) == Packets(a) + Packets(b)
  {
  }

  /** Becoming Established turns queued messages into frames one for one. */
  lemma EstablishReleases(s: SessionView, conv: Conv, now: nat, ch: Choice)
    requires SessionOk(s) && s.state == SynSent
    ensures var (s', frames) := Establish(s, conv, now, ch);
            4 * |frames| + Held(Some(s')) == Held(Some(s))
  {
    assert Resent([], ch.resend) == [];
  }

  /** The datagram completes the handshake of a session that is waiting for it. */
  predicate Completes(slot: Option<SessionView>, p: Datagram) {
    && slot.Some? && slot.value.state == SynSent
    && ((p.Syn? && slot.value.conv != p.conv) || (p.SynAck? && slot.value.conv == p.conv))
  }

  lemma CompletionCalms(env: Env, slot: Option<SessionView>, from: SocketAddr, p: Datagram, now: nat, ch: Choice)
    requires SlotOk(slot) && Completes(slot, p)
    ensures var e := Step(env, slot, Receive(from, Arrival(p), now, ch));
            Total(Packets(e.wire)) + Held(e.slot) < Weight(p) + Held(slot)
  {
    var agreed := if p.Syn? && !Greater(from, env.me) then slot.value.conv else p.conv;
    EstablishReleases(slot.value, agreed, now, ch);
    var (s', frames) := Establish(slot.value, agreed, now, ch);
    var data := Frames(slot.value.peer, frames);
    TotalFrames(Packets(data));
    hide Establish, SlotOk, Greater, Held;
    if p.Syn? {
      PacketsConcat(data, [Sent(from, SynAck(agreed))]);
      assert Packets([Sent(from, SynAck(agreed))]) == [SynAck(agreed)];
      TotalConcat(Packets(data), [SynAck(agreed)]);
      TotalOne(SynAck(agreed));
    }
  }

  /** A delivery leaves strictly less unrest than it consumes. */
  lemma ReceiveCalms(env: Env, slot: Option<SessionView>, from: SocketAddr, p: Datagram, now: nat, ch: Choice)
    requires SlotOk(slot)
    ensures var e := Step(env, slot, Receive(from, Arrival(p), now, ch));
            Total(Packets(e.wire)) + Held(e.slot) < Weight(p) + Held(slot)
  {
    if Completes(slot, p) {
      CompletionCalms(env, slot, from, p, now, ch);
    } else {
      hide Establish, SlotOk, Greater;
      var e := Step(env, slot, Receive(from, Arrival(p), now, ch));
      TotalOne(SynAck(ConvOf(p)));
      var r := Reset(ConvOf(p));
      TotalOne(r);
      TotalConcat([r], [r]);
      TotalConcat([r] + [r], [r]);
      if p.Data? && slot.None? {
        assert Packets(e.wire) == [r] + [r] + [r];
      } else {
        assert Packets(e.wire) == [] || Packets(e.wire) == [SynAck(ConvOf(p))];
      }
    }
  }

  predicate Fading(a: Action) {
    a.Deliver? || a.Lose?
  }

  lemma StepCalms(net: Net, s: Sys, a: Action)
    requires SlotOk(s.hi.slot) && SlotOk(s.lo.slot) && Enabled(s, a) && Fading(a)
    ensures var t := Next(net, s, a);
            SlotOk(t.hi.slot) && SlotOk(t.lo.slot) && Unrest(t) < Unrest(s)
  {
    var me := At(s, a.to);
    TotalRemove(me.inbox, a.i);
    if a.Deliver? {
      var p := me.inbox[a.i];
      var env, from := Env(AddrOf(net, a.to), net.cfg), AddrOf(net, Other(a.to));
      ReceiveCalms(env, me.slot, from, p, a.now, a.ch);
      StepKeepsOk(env, me.slot, Receive(from, Arrival(p), a.now, a.ch));
      var out := Packets(Arrive(net, s, a.to, p, a.now, a.ch).wire);
      TotalConcat(At(s, Other(a.to)).inbox, out);
      hide Step, SlotOk, Total, Held, Remove;
    }
  }

  /**
   From any state, every run of deliveries and losses, in any order, is at most as long
   as the state's unrest.
   */
  lemma {:induction false} TrafficDiesOut(net: Net, s: Sys, run: seq<Action>)
    requires SlotOk(s.hi.slot) && SlotOk(s.lo.slot)
    requires CanRun(net, s, run) && forall a :: a in run ==> Fading(a)
    ensures |run| + Unrest(Run(net, s, run)) <= Unrest(s)
    decreases run
  {
    hide Next, SlotOk, Unrest;
    if run != [] {
      StepCalms(net, s, run[0]);
      TrafficDiesOut(net, Next(net, s, run[0]), run[1..]);
    }
  }
}
