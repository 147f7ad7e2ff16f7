/**
 Where ids and control datagrams come from, whatever the network does: every action of
 `Network` is allowed, including duplication, reordering, crashes and shutdowns.
 */
module Provenance {
  import opened Base
  import opened Addr
  import opened KcpModel
  import opened Machine
  import opened Network
  import P = Packet

  lemma {:induction false} Prefixes(net: Net, s: Sys, run: seq<Action>, k: nat)
    requires CanRun(net, s, run) && k <= |run|
    ensures CanRun(net, s, run[..k])
    decreases run
  {
    hide Next;
    if k > 0 {
      Prefixes(net, Next(net, s, run[0]), run[1..], k - 1);
      assert run[..k][0] == run[0] && run[..k][1..] == run[1..][..k - 1];
    }
  }

  /** The state after the first `k` actions. */
  function StateAt(net: Net, run: seq<Action>, k: nat): Sys
    requires CanRun(net, Start(), run) && k <= |run|
  {
    Prefixes(net, Start(), run, k);
    Run(net, Start(), run[..k])
  }

  lemma StepOf(net: Net, run: seq<Action>, k: nat)
    requires CanRun(net, Start(), run) && k < |run|
    ensures Enabled(StateAt(net, run, k), run[k])
    ensures StateAt(net, run, k + 1) == Next(net, StateAt(net, run, k), run[k])
  {
    Prefixes(net, Start(), run, k);
    Prefixes(net, Start(), run, k + 1);
    Split(net, Start(), run[..k + 1]);
    assert run[..k + 1][..k] == run[..k];
  }

  lemma {:induction false} Split(net: Net, s: Sys, run: seq<Action>)
    requires CanRun(net, s, run) && run != []
    ensures var init := run[..|run| - 1];
            && CanRun(net, s, init) && Enabled(Run(net, s, init), run[|run| - 1])
            && Run(net, s, run) == Next(net, Run(net, s, init), run[|run| - 1])
    decreases run
  {
    hide Next;
    if |run| > 1 {
      Split(net, Next(net, s, run[0]), run[1..]);
      assert run[..|run| - 1][0] == run[0] && run[..|run| - 1][1..] == run[1..][..|run| - 2];
    } else {
      assert run[1..] == [] && run[..0] == [];
    }
  }

  // ----- what holds of every reachable state -----

  predicate Drawn(s: Sys, c: Conv) {
    c in s.hi.drawn || c in s.lo.drawn
  }

  /**
   Every id in a session was drawn, an initiator's by itself; a SYN names its sender's draw;
   nothing arrives that was not sent.
   */
  ghost predicate Sourced(s: Sys, x: Side) {
    var me, peer := At(s, x), At(s, Other(x));
    && SlotOk(me.slot)
    && (me.slot.Some? ==> Drawn(s, me.slot.value.conv))
    && (me.slot.Some? && me.slot.value.state == SynSent ==> me.slot.value.conv in me.drawn)
    && (forall p :: p in me.sent && p.Syn? ==> p.conv in me.drawn)
    && (forall p :: p in me.inbox ==> p in peer.sent)
  }

  /** The call, if any, that an action makes at side `x`. */
  function OpAt(net: Net, s: Sys, a: Action, x: Side): Option<SlotOp>
    requires Enabled(s, a)
  {
    match a
    case Deliver(to, i, now, ch) =>
      if to == x then Some(Receive(AddrOf(net, Other(x)), Arrival(At(s, x).inbox[i]), now, ch)) else None
    case Replay(to, i, now, ch) =>
      if to == x then Some(Receive(AddrOf(net, Other(x)), Arrival(At(s, Other(x)).sent[i]), now, ch)) else None
    case UserSend(at, data, drawn, now, ch) =>
      if at == x then Some(Send(AddrOf(net, Other(x)), data, drawn, now, ch)) else None
    case UserDisconnect(at) => if at == x then Some(Disconnect(AddrOf(net, Other(x)))) else None
    case Ticks(at, now, ch) => if at == x then Some(Tick(now, ch)) else None
    case _ => None
  }

  /** How one action changes side `x`: by a call, by vanishing, or only in its inbox. */
  lemma Changes(net: Net, s: Sys, a: Action, x: Side)
    requires Enabled(s, a)
    ensures var me, after := At(s, x), At(Next(net, s, a), x);
            match OpAt(net, s, a, x)
            case Some(op) =>
              var e := Step(Env(AddrOf(net, x), net.cfg), me.slot, op);
              && after.slot == e.slot && after.sent == me.sent + Packets(e.wire) && after.events == me.events + e.events
              && after.drawn == me.drawn + (if op.Send? && me.slot.None? then [op.drawn] else [])
            case None =>
              && after.drawn == me.drawn
              && (after.slot == me.slot || after.slot == None)
              && (forall p :: p in after.sent && p !in me.sent ==>
                    p.Reset? && me.slot.Some? && me.slot.value.conv == p.conv && after.slot.None?)
              && (forall p :: p in me.sent ==> p in after.sent)
    ensures forall p :: p in At(Next(net, s, a), x).inbox ==>
              p in At(s, x).inbox || p in At(Next(net, s, a), Other(x)).sent
  {
    hide Step;
  }

  /** The part of `Sourced` that looks at side `x` alone, given what either side has drawn. */
  ghost predicate SlotSourced(s: Sys, x: Side) {
    var me := At(s, x);
    && SlotOk(me.slot)
    && (me.slot.Some? ==> Drawn(s, me.slot.value.conv))
    && (me.slot.Some? && me.slot.value.state == SynSent ==> me.slot.value.conv in me.drawn)
    && (forall p :: p in me.sent && p.Syn? ==> p.conv in me.drawn)
  }

  lemma HeardSynDrawn(net: Net, s: Sys, a: Action, x: Side)
    requires Enabled(s, a) && Sourced(s, x) && Sourced(s, Other(x)) && OpAt(net, s, a, x).Some?
    ensures var op := OpAt(net, s, a, x).value;
            op.Receive? && op.inb.SynIn? ==> Drawn(s, op.inb.conv)
  {
    assert forall p :: p in At(s, x).inbox ==> p in At(s, Other(x)).sent;
    hide SlotOk;
  }

  lemma DrawnStays(net: Net, s: Sys, a: Action, c: Conv)
    requires Enabled(s, a)
    ensures Drawn(s, c) ==> Drawn(Next(net, s, a), c)
  {
    hide Step;
  }

  lemma CallStaysSourced(net: Net, s: Sys, a: Action, x: Side)
    requires Enabled(s, a) && Sourced(s, x) && Sourced(s, Other(x)) && OpAt(net, s, a, x).Some?
    ensures SlotSourced(Next(net, s, a), x)
  {
    Changes(net, s, a, x);
    var op := OpAt(net, s, a, x).value;
    CallSource(Env(AddrOf(net, x), net.cfg), At(s, x).slot, op);
    HeardSynDrawn(net, s, a, x);
    if At(Next(net, s, a), x).slot.Some? {
      DrawnStays(net, s, a, At(Next(net, s, a), x).slot.value.conv);
    }
    hide Step, Next, SlotOk, OpAt;
  }

  lemma StaysSourced(net: Net, s: Sys, a: Action, x: Side)
    requires Enabled(s, a) && Sourced(s, x) && Sourced(s, Other(x))
    ensures Sourced(Next(net, s, a), x)
  {
    Changes(net, s, a, x);
    Changes(net, s, a, Other(x));
    if OpAt(net, s, a, x).Some? {
      CallStaysSourced(net, s, a, x);
    }
    hide Step, Next, SlotOk, OpAt;
    var peer := At(Next(net, s, a), Other(x));
    forall p | p in At(Next(net, s, a), x).inbox ensures p in peer.sent {
      assert p in At(s, Other(x)).sent || p in peer.sent;
    }
  }

  /** Where the ids of a call come from: the session's, and those of the SYNs it writes. */
  lemma CallSource(env: Env, slot: Option<SessionView>, op: SlotOp)
    requires SlotOk(slot)
    ensures var e := Step(env, slot, op);
            && SlotOk(e.slot)
            && (e.slot.Some? ==>
                  || (&& slot.Some? && e.slot.value.conv == slot.value.conv
                      && (e.slot.value.state == SynSent ==> slot.value.state == SynSent))
                  || (op.Send? && slot.None? && e.slot.value.conv == op.drawn)
                  || (op.Receive? && op.inb == P.SynIn(e.slot.value.conv) && e.slot.value.state == Established))
            && forall p :: p in Packets(e.wire) && p.Syn? ==>
                 || (op.Send? && slot.None? && p.conv == op.drawn)
                 || (slot.Some? && slot.value.state == SynSent && p.conv == slot.value.conv)
  {
    WireLicensed(env, slot, op);
    ConvSource(env, slot, op);
    hide Step, SlotOk;
  }

  /** A session's id after a call is its id before, the id just drawn, or the id of the SYN just received. */
  lemma ConvSource(env: Env, slot: Option<SessionView>, op: SlotOp)
    ensures var after := Step(env, slot, op).slot;
            after.Some? ==>
              || (&& slot.Some? && after.value.conv == slot.value.conv
                  && (after.value.state == SynSent ==> slot.value.state == SynSent))
              || (op.Send? && slot.None? && after.value.conv == op.drawn)
              || (op.Receive? && op.inb == P.SynIn(after.value.conv) && after.value.state == Established)
  {
    hide Flush, Greater, Backoff;
  }

  lemma {:induction false} AllSourced(net: Net, run: seq<Action>, k: nat)
    requires CanRun(net, Start(), run) && k <= |run|
    ensures Sourced(StateAt(net, run, k), Hi) && Sourced(StateAt(net, run, k), Lo)
  {
    hide Next, Sourced;
    if k == 0 {
      assert run[..0] == [];
      StartSourced();
    } else {
      AllSourced(net, run, k - 1);
      StepOf(net, run, k - 1);
      StaysSourced(net, StateAt(net, run, k - 1), run[k - 1], Hi);
      StaysSourced(net, StateAt(net, run, k - 1), run[k - 1], Lo);
    }
  }

  lemma StartSourced()
    ensures Sourced(Start(), Hi) && Sourced(Start(), Lo)
  {
  }

  // ----- provenance along a run -----

  ghost predicate OpenAt(net: Net, run: seq<Action>, j: nat, x: Side, c: Conv)
    requires CanRun(net, Start(), run) && j <= |run|
  {
    var slot := At(StateAt(net, run, j), x).slot;
    slot.Some? && slot.value.state == Established && slot.value.conv == c
  }

  /** Side `x` held an Established session under `c` within the first `k` actions. */
  ghost predicate WasOpen(net: Net, run: seq<Action>, k: nat, x: Side, c: Conv)
    requires CanRun(net, Start(), run) && k <= |run|
  {
    exists j: nat :: j <= k && OpenAt(net, run, j, x, c)
  }

  /** Action `j` ended a session of `x` under `c`, or brought `x` a frame of `c` when it held no session. */
  ghost predicate EndedAt(net: Net, run: seq<Action>, j: nat, x: Side, c: Conv)
    requires CanRun(net, Start(), run) && j < |run|
  {
    StepOf(net, run, j);
    var before, after := At(StateAt(net, run, j), x).slot, At(StateAt(net, run, j + 1), x).slot;
    || (before.Some? && before.value.conv == c && after.None?)
    || (before.None? && var op := OpAt(net, StateAt(net, run, j), run[j], x);
        op.Some? && op.value.Receive? && op.value.inb == P.FrameIn(c))
  }

  ghost predicate WasEnded(net: Net, run: seq<Action>, k: nat, x: Side, c: Conv)
    requires CanRun(net, Start(), run) && k <= |run|
  {
    exists j: nat :: j < k && EndedAt(net, run, j, x, c)
  }

  ghost predicate Justified(net: Net, run: seq<Action>, k: nat, x: Side, p: Datagram)
    requires CanRun(net, Start(), run) && k <= |run|
  {
    match p
    case Syn(c) => c in At(StateAt(net, run, k), x).drawn
    case SynAck(c) => WasOpen(net, run, k, x, c)
    case Reset(c) => WasEnded(net, run, k, x, c)
    case Data(f) => WasOpen(net, run, k, x, f.conv)
  }

  lemma NewlyJustified(net: Net, run: seq<Action>, k: nat, x: Side, p: Datagram)
    requires CanRun(net, Start(), run) && k < |run|
    requires p in At(StateAt(net, run, k + 1), x).sent && p !in At(StateAt(net, run, k), x).sent
    ensures Justified(net, run, k + 1, x, p)
  {
    var s, a := StateAt(net, run, k), run[k];
    AllSourced(net, run, k);
    AllSourced(net, run, k + 1);
    StepOf(net, run, k);
    Changes(net, s, a, x);
    assert At(StateAt(net, run, k + 1), x) == At(Next(net, s, a), x);
    assert Sourced(s, x) && Sourced(StateAt(net, run, k + 1), x) by { if x == Lo {} }
    var op := OpAt(net, s, a, x);
    if op.Some? {
      WireLicensed(Env(AddrOf(net, x), net.cfg), At(s, x).slot, op.value);
    }
    hide Step, Next, SlotOk, StateAt;
    match p
    case Syn(c) =>
    case SynAck(c) => assert OpenAt(net, run, k + 1, x, c);
    case Reset(c) => assert EndedAt(net, run, k, x, c);
    case Data(f) => assert OpenAt(net, run, k, x, f.conv) || OpenAt(net, run, k + 1, x, f.conv);
  }

  /**
   Provenance: in every run over a network that loses, duplicates and reorders at will,
   with crashes and shutdowns, every id held by a session was drawn by one of the two
   nodes; every SYN names an id its sender drew; every SYN_ACK and every KCP frame was
   sent by a node that was Established under its id; and every RESET came from a node
   that gave up its session under that id or held none when a frame of it arrived.
   */
  lemma {:induction false} Provenance(net: Net, run: seq<Action>, k: nat, x: Side)
    requires CanRun(net, Start(), run) && k <= |run|
    ensures var me := At(StateAt(net, run, k), x);
            && (me.slot.Some? ==> Drawn(StateAt(net, run, k), me.slot.value.conv))
            && forall p :: p in me.sent ==> Justified(net, run, k, x, p)
  {
    AllSourced(net, run, k);
    hide Next, Sourced;
    assert Sourced(StateAt(net, run, k), x) by { if x == Lo {} }
    SourcedMeans(StateAt(net, run, k), x);
    if k > 0 {
      Provenance(net, run, k - 1, x);
      forall p | p in At(StateAt(net, run, k), x).sent ensures Justified(net, run, k, x, p) {
        if p in At(StateAt(net, run, k - 1), x).sent {
          JustifiedLater(net, run, k - 1, x, p);
        } else {
          NewlyJustified(net, run, k - 1, x, p);
        }
      }
    } else {
      assert run[..0] == [];
    }
  }

  lemma SourcedMeans(s: Sys, x: Side)
    requires Sourced(s, x)
    ensures At(s, x).slot.Some? ==> Drawn(s, At(s, x).slot.value.conv)
  {
  }

  lemma JustifiedLater(net: Net, run: seq<Action>, k: nat, x: Side, p: Datagram)
    requires CanRun(net, Start(), run) && k < |run|
    requires Justified(net, run, k, x, p)
    ensures Justified(net, run, k + 1, x, p)
  {
    StepOf(net, run, k);
    Changes(net, StateAt(net, run, k), run[k], x);
    hide Next, StateAt;
    match p
    case Syn(c) =>
    case SynAck(c) =>
      var j: nat :| j <= k && OpenAt(net, run, j, x, c);
      assert j <= k + 1 && OpenAt(net, run, j, x, c);
    case Reset(c) =>
      var j: nat :| j < k && EndedAt(net, run, j, x, c);
      assert j < k + 1 && EndedAt(net, run, j, x, c);
    case Data(f) =>
      var j: nat :| j <= k && OpenAt(net, run, j, x, f.conv);
      assert j <= k + 1 && OpenAt(net, run, j, x, f.conv);
  }
}
