/**
 What becomes of two nodes that are Established on different ids: nothing they hear makes
 them notice. Each takes the other's frames for signs of life, delivers none of them and
 ignores the other's RESETs, until one of the sessions is removed.
 */
module Estrangement {
  import opened Base
  import opened Addr
  import opened KcpModel
  import opened Machine
  import opened Network
  import opened Handshake
  import opened Convergence
  import opened Restart

  /** No SYN, and nothing of the conversation `conv`. */
  predicate Foreign(conv: Conv, p: Datagram) {
    !p.Syn? && ConvOf(p) != conv
  }

  /** Both sides are Established, on different ids, and nothing in flight concerns the receiver's. */
  predicate Estranged(s: Sys, hi: Conv, lo: Conv) {
    && SlotOk(s.hi.slot) && SlotOk(s.lo.slot) && hi != lo
    && RoleOf(s.hi.slot) == Open(hi) && RoleOf(s.lo.slot) == Open(lo)
    && (forall p :: p in s.hi.inbox ==> Foreign(hi, p))
    && (forall p :: p in s.lo.inbox ==> Foreign(lo, p))
  }

  function ConvAt(hi: Conv, lo: Conv, x: Side): Conv {
    if x == Hi then hi else lo
  }

  /**
   A foreign datagram leaves an Established session as it is, except that a frame restarts
   the idle timer; it is answered by nothing, announced by nothing and delivers nothing. In
   particular a RESET of the other side's id does not end this side's session.
   */
  lemma ForeignArrives(env: Env, s: SessionView, from: SocketAddr, p: Datagram, now: nat, ch: Choice)
    requires SessionOk(s) && s.state == Established && Foreign(s.conv, p)
    ensures var e := Step(env, Some(s), Receive(from, Arrival(p), now, ch));
            && e.slot == Some(if p.Data? then s.(lastRx := now) else s)
            && e.events == [] && e.wire == [] && e.inbox == []
  {
  }

  /** The messages an action delivers. */
  function Delivered(net: Net, s: Sys, a: Action): seq<Message>
    requires Enabled(s, a)
  {
    match a
    case Deliver(to, i, now, ch) => Arrive(net, s, to, At(s, to).inbox[i], now, ch).inbox
    case Replay(to, i, now, ch) => Arrive(net, s, to, At(s, Other(to)).sent[i], now, ch).inbox
    case _ => []
  }

  function DeliveredAll(net: Net, s: Sys, run: seq<Action>): seq<Message>
    requires CanRun(net, s, run)
    decreases run
  {
    if run == [] then [] else Delivered(net, s, run[0]) + DeliveredAll(net, Next(net, s, run[0]), run[1..])
  }

  /** A repeated old datagram that the session at its destination reacts to by ending. */
  predicate Unsettles(s: Sys, hi: Conv, lo: Conv, a: Action)
    requires Enabled(s, a)
  {
    a.Replay? &&
    var p, conv := At(s, Other(a.to)).sent[a.i], ConvAt(hi, lo, a.to);
    (p.Syn? && p.conv != conv) || p == Reset(conv)
  }

  lemma DeliveryEstranges(net: Net, s: Sys, hi: Conv, lo: Conv, a: Action)
    requires Estranged(s, hi, lo) && Enabled(s, a) && a.Deliver?
    ensures var t := Next(net, s, a);
            && Estranged(t, hi, lo) && Delivered(net, s, a) == []
            && t.hi.events == s.hi.events && t.lo.events == s.lo.events
  {
    var me := At(s, a.to);
    var p := me.inbox[a.i];
    ForeignArrives(Env(AddrOf(net, a.to), net.cfg), me.slot.value, AddrOf(net, Other(a.to)), p, a.now, a.ch);
    hide Step;
  }

  lemma ReplayEstranges(net: Net, s: Sys, hi: Conv, lo: Conv, a: Action)
    requires Estranged(s, hi, lo) && Enabled(s, a) && a.Replay?
    ensures Estranged(Next(net, s, a), hi, lo) <==> !Unsettles(s, hi, lo, a)
  {
    var me := At(s, a.to);
    var p := At(s, Other(a.to)).sent[a.i];
    ReceiveRole(Env(AddrOf(net, a.to), net.cfg), me.slot, AddrOf(net, Other(a.to)), p, a.now, a.ch);
    var out := Packets(Arrive(net, s, a.to, p, a.now, a.ch).wire);
    hide Step, SlotOk;
    if !Unsettles(s, hi, lo, a) {
      forall q | q in out ensures Foreign(ConvAt(hi, lo, Other(a.to)), q) {
        assert Reply(RoleOf(me.slot), RoleOf(me.slot), p, q);
      }
    }
  }

  lemma ChatEstranges(net: Net, s: Sys, hi: Conv, lo: Conv, a: Action)
    requires Estranged(s, hi, lo) && Enabled(s, a) && Chat(net, s, a)
    ensures var t := Next(net, s, a);
            Estranged(t, hi, lo) && t.hi.events == s.hi.events && t.lo.events == s.lo.events
  {
    ChatMeans(net, s, a);
    assert forall q :: Chatter(RoleOf(At(s, a.at).slot), q) ==> Foreign(ConvAt(hi, lo, Other(a.at)), q);
    hide Next, Chat, Uttered, SlotOk, RoleOf, Chatter, Foreign;
  }

  lemma RemovalReconciles(net: Net, s: Sys, hi: Conv, lo: Conv, a: Action)
    requires Estranged(s, hi, lo) && Enabled(s, a) && !Lasting(net, s, a)
    ensures Agreed(Next(net, s, a)) && !Estranged(Next(net, s, a), hi, lo)
  {
    hide OnTick, SlotOk;
  }

  /**
   One action leaves both sides on their two ids exactly if it removes no session and does
   not repeat an old SYN of another id or an old RESET of the receiver's own.
   */
  lemma EstrangementKeepsIds(net: Net, s: Sys, hi: Conv, lo: Conv, a: Action)
    requires Estranged(s, hi, lo) && Enabled(s, a)
    ensures Estranged(Next(net, s, a), hi, lo) <==> Lasting(net, s, a) && !Unsettles(s, hi, lo, a)
  {
    assert s.hi.slot.Some? && s.lo.slot.Some?;
    hide Next, Estranged;
    if !Lasting(net, s, a) {
      RemovalReconciles(net, s, hi, lo, a);
    } else if a.Deliver? {
      DeliveryEstranges(net, s, hi, lo, a);
    } else if a.Replay? {
      ReplayEstranges(net, s, hi, lo, a);
    } else if a.Lose? {
      LossEstranges(net, s, hi, lo, a);
    } else {
      ChatEstranges(net, s, hi, lo, a);
    }
  }

  /** A repeated old SYN of the other side's id, or an old RESET of the receiver's own. */
  predicate Heals(s: Sys, hi: Conv, lo: Conv, a: Action)
    requires Enabled(s, a)
  {
    a.Replay? &&
    var p := At(s, Other(a.to)).sent[a.i];
    p == Syn(ConvAt(hi, lo, Other(a.to))) || p == Reset(ConvAt(hi, lo, a.to))
  }

  lemma UnsettledAgree(net: Net, s: Sys, hi: Conv, lo: Conv, a: Action)
    requires Estranged(s, hi, lo) && Enabled(s, a) && Unsettles(s, hi, lo, a)
    ensures Agreed(Next(net, s, a)) <==> Heals(s, hi, lo, a)
  {
    var me := At(s, a.to);
    var p := At(s, Other(a.to)).sent[a.i];
    ReceiveRole(Env(AddrOf(net, a.to), net.cfg), me.slot, AddrOf(net, Other(a.to)), p, a.now, a.ch);
    assert RoleOf(me.slot) == Open(ConvAt(hi, lo, a.to));
    hide Step, SlotOk;
  }

  /**
   One action ends the disagreement exactly if it removes a session (a disconnect, a crash,
   a shutdown or a tick) or repeats an old SYN of the other side's id or an old RESET of the
   receiver's own. An old SYN of a third id only replaces one disagreement by another.
   */
  lemma EstrangementExact(net: Net, s: Sys, hi: Conv, lo: Conv, a: Action)
    requires Estranged(s, hi, lo) && Enabled(s, a)
    ensures !Agreed(Next(net, s, a)) <==> Lasting(net, s, a) && !Heals(s, hi, lo, a)
  {
    EstrangementKeepsIds(net, s, hi, lo, a);
    assert Estranged(Next(net, s, a), hi, lo) ==> !Agreed(Next(net, s, a));
    hide Next, Estranged, Agreed;
    if !Lasting(net, s, a) {
      RemovalReconciles(net, s, hi, lo, a);
    } else if Unsettles(s, hi, lo, a) {
      UnsettledAgree(net, s, hi, lo, a);
    } else {
      assert hi != lo by { EstrangedDiffer(s, hi, lo); }
    }
  }

  lemma EstrangedDiffer(s: Sys, hi: Conv, lo: Conv)
    requires Estranged(s, hi, lo)
    ensures hi != lo
  {
  }

  lemma LossEstranges(net: Net, s: Sys, hi: Conv, lo: Conv, a: Action)
    requires Estranged(s, hi, lo) && Enabled(s, a) && a.Lose?
    ensures var t := Next(net, s, a);
            Estranged(t, hi, lo) && t.hi.events == s.hi.events && t.lo.events == s.lo.events
  {
  }

  predicate NoReplay(run: seq<Action>) {
    forall a :: a in run ==> !a.Replay?
  }

  /**
   Disagreement lasts: whatever the two sides send and however their frames are delivered
   or lost, as long as no session is removed both keep their ids, no message is ever
   delivered and no event is fired.
   */
  lemma {:induction false} EstrangementLasts(net: Net, s: Sys, hi: Conv, lo: Conv, run: seq<Action>)
    requires Estranged(s, hi, lo) && CanRun(net, s, run) && AllLasting(net, s, run) && NoReplay(run)
    ensures var t := Run(net, s, run);
            && Estranged(t, hi, lo) && DeliveredAll(net, s, run) == []
            && t.hi.events == s.hi.events && t.lo.events == s.lo.events
    decreases run
  {
    assert s.hi.slot.Some? && s.lo.slot.Some?;
    hide Next, Estranged;
    if run != [] {
      var a := run[0];
      assert !a.Replay?;
      if a.Deliver? {
        DeliveryEstranges(net, s, hi, lo, a);
      } else if a.Lose? {
        LossEstranges(net, s, hi, lo, a);
      } else {
        ChatEstranges(net, s, hi, lo, a);
      }
      EstrangementLasts(net, Next(net, s, a), hi, lo, run[1..]);
    }
  }

  /**
   A single retransmitted SYN of the lower side can therefore leave the two nodes connected
   in name only, for as long as both go on sending.
   */
  lemma RepeatedSynEstranges(net: Net, h: Conv, l: Conv, data: Bytes, more: seq<Action>)
    requires NetOk(net) && h != l && net.cfg.synMaxRetries > 0 && Backoff(net.cfg, 0) <= net.cfg.sessionTimeout
    requires var run := RepeatedSyn(net.cfg, h, l, data);
             && CanRun(net, Start(), run)
             && var s := Run(net, Start(), run);
                CanRun(net, s, more) && AllLasting(net, s, more) && NoReplay(more)
    ensures var s := Run(net, Start(), RepeatedSyn(net.cfg, h, l, data));
            && RoleOf(Run(net, s, more).hi.slot) == Open(l) && RoleOf(Run(net, s, more).lo.slot) == Open(h)
            && DeliveredAll(net, s, more) == []
  {
    hide RepeatedSyn, Next, Backoff;
    RepeatedSynDisagrees(net, h, l, data);
    EstrangementLasts(net, Run(net, Start(), RepeatedSyn(net.cfg, h, l, data)), l, h, more);
  }
}
