/**
 What the retransmission of SYNs is for: a handshake whose datagrams were lost is completed
 by a copy of the higher side's SYN that gets through.
 */
module Recovery {
  import opened Base
  import opened Addr
  import opened KcpModel
  import opened Machine
  import opened Network
  import opened Handshake
  import opened Convergence

  /**
   The higher side has drawn `h`. Whoever is waiting has SYN(h), or the SYN_ACK it causes, in
   flight; what became of all earlier datagrams does not matter.
   */
  predicate Rescued(hi: Role, lo: Role, h: Conv, toLo: seq<Datagram>, toHi: seq<Datagram>) {
    && (lo.Pending? ==> Syn(h) in toLo)
    && (hi.Pending? ==> Syn(h) in toLo || (lo == Open(h) && SynAck(h) in toHi))
  }

  ghost predicate Recovering(s: Sys, h: Conv) {
    && Inv(s, None) && Own(s.hi) == Some(h)
    && Rescued(RoleOf(s.hi.slot), RoleOf(s.lo.slot), h, s.lo.inbox, s.hi.inbox)
  }

  lemma HiRescued(hi: Role, lo: Role, h: Conv, l: Option<Conv>, toLo: seq<Datagram>, toHi: seq<Datagram>,
                  out: seq<Datagram>)
    requires Roles(hi, lo, Some(h), l, None) && toHi != [] && ToHi(hi, lo, Some(h), l, None, toHi[0]) && Some(h) != l
    requires Rescued(hi, lo, h, toLo, toHi)
    ensures Rescued(RoleAfter(false, hi, toHi[0]), lo, h, toLo + out, toHi[1..])
  {
    forall p | p in toHi && p != toHi[0] ensures p in toHi[1..] { TailKeeps(toHi, p); }
  }

  lemma LoRescued(hi: Role, lo: Role, h: Conv, l: Option<Conv>, toLo: seq<Datagram>, toHi: seq<Datagram>,
                  out: seq<Datagram>)
    requires Roles(hi, lo, Some(h), l, None) && toLo != [] && ToLo(hi, lo, Some(h), l, None, toLo[0]) && Some(h) != l
    requires Rescued(hi, lo, h, toLo, toHi)
    requires Answers(lo, RoleAfter(true, lo, toLo[0]), toLo[0], out)
    ensures Rescued(hi, RoleAfter(true, lo, toLo[0]), h, toLo[1..], toHi + out)
  {
    forall p | p in toLo && p != toLo[0] ensures p in toLo[1..] { TailKeeps(toLo, p); }
  }

  lemma DeliverRescues(net: Net, s: Sys, h: Conv, a: Action)
    requires NetOk(net) && Recovering(s, h) && Enabled(s, a) && a.Deliver? && a.i == 0
    ensures Inv(Next(net, s, a), None) ==> Recovering(Next(net, s, a), h)
  {
    OneWins(net);
    var me := At(s, a.to);
    var p := me.inbox[0];
    ReceiveRole(Env(AddrOf(net, a.to), net.cfg), me.slot, AddrOf(net, Other(a.to)), p, a.now, a.ch);
    var out := Packets(Arrive(net, s, a.to, p, a.now, a.ch).wire);
    assert Own(s.lo) != Some(h);
    if a.to == Hi {
      assert MayReachHi(s, None, p);
      hide Step, RoleOf, SlotOk, Roles, Rescued, ToLo, ToHi, Answers, Inv;
      HiRescued(RoleOf(s.hi.slot), RoleOf(s.lo.slot), h, Own(s.lo), s.lo.inbox, s.hi.inbox, out);
    } else {
      assert MayReachLo(s, None, p);
      hide Step, RoleOf, SlotOk, Roles, Rescued, ToLo, ToHi, Answers, Inv;
      LoRescued(RoleOf(s.hi.slot), RoleOf(s.lo.slot), h, Own(s.lo), s.lo.inbox, s.hi.inbox, out);
    }
  }

  lemma DrawRescues(net: Net, s: Sys, h: Conv, a: Action)
    requires Recovering(s, h) && Enabled(s, a) && a.UserSend? && At(s, a.at).slot.None?
    ensures Inv(Next(net, s, a), None) ==> Recovering(Next(net, s, a), h)
  {
    SendRole(Env(AddrOf(net, a.at), net.cfg), None, AddrOf(net, Other(a.at)), a.data, a.drawn, a.now, a.ch);
    assert a.at == Lo;
    hide Step, SlotOk, Inv;
  }

  lemma ChatRescues(net: Net, s: Sys, h: Conv, a: Action)
    requires Recovering(s, h) && Enabled(s, a) && Chat(net, s, a)
    ensures Inv(Next(net, s, a), None) ==> Recovering(Next(net, s, a), h)
  {
    ChatMeans(net, s, a);
    hide Next, Chat, Uttered, SlotOk, RoleOf, Inv;
  }

  lemma {:induction false} RunRescues(net: Net, s: Sys, h: Conv, run: seq<Action>)
    requires NetOk(net) && Recovering(s, h) && CanRun(net, s, run) && AllOrderly(net, s, run)
    ensures Recovering(Run(net, s, run), h)
    decreases run
  {
    if run != [] {
      var a := run[0];
      GentleKeepsInv(net, s, None, a);
      hide Next, Inv, Recovering;
      if a.Deliver? {
        DeliverRescues(net, s, h, a);
      } else if a.UserSend? && At(s, a.at).slot.None? {
        DrawRescues(net, s, h, a);
      } else {
        ChatRescues(net, s, h, a);
      }
      RunRescues(net, Next(net, s, a), h, run[1..]);
    }
  }

  lemma RescuedMeans(s: Sys, h: Conv)
    requires Recovering(s, h) && Drained(s)
    ensures RoleOf(s.hi.slot) == Open(h) && RoleOf(s.lo.slot) == Open(h)
  {
    hide SlotOk;
  }

  lemma RescueBegins(s: Sys, h: Conv)
    requires Inv(s, None) && RoleOf(s.hi.slot) == Pending(h) && Syn(h) in s.lo.inbox
    ensures Recovering(s, h)
  {
    hide SlotOk;
  }

  /** A tick that finds a retry due, and one left, puts such a copy in flight. */
  lemma RetryRescues(net: Net, s: Sys, h: Conv, now: nat, ch: Choice)
    requires SlotOk(s.hi.slot) && RoleOf(s.hi.slot) == Pending(h)
    requires s.hi.slot.value.synRetries < net.cfg.synMaxRetries && RetryDue(net.cfg, s.hi.slot.value, now)
    ensures Syn(h) in Next(net, s, Ticks(Hi, now, ch)).lo.inbox
  {
    hide RetryDue;
    var wire := Call(net, s, Hi, Tick(now, ch)).wire;
    assert wire[0] == Sent(s.hi.slot.value.peer, Syn(h));
    PacketsContain(wire, 0);
  }

  lemma StartInv()
    ensures Inv(Start(), None)
  {
  }

  /**
   Retransmission recovers: however many datagrams were lost on the way, if the higher side is
   still waiting for an answer and a copy of its SYN is in flight again, every run without
   further loss that comes to rest has both sides Established on its id.
   */
  lemma {:induction false} RetransmissionRecovers(net: Net, run: seq<Action>, h: Conv, more: seq<Action>)
    requires NetOk(net) && CanRun(net, Start(), run) && AllGentle(net, Start(), run)
    requires var s := Run(net, Start(), run);
             && RoleOf(s.hi.slot) == Pending(h) && Syn(h) in s.lo.inbox
             && CanRun(net, s, more) && AllOrderly(net, s, more)
    ensures var t := Run(net, Run(net, Start(), run), more);
            Drained(t) ==> RoleOf(t.hi.slot) == Open(h) && RoleOf(t.lo.slot) == Open(h)
  {
    hide Next, Inv, Run, CanRun, RoleOf, AllOrderly, AllGentle, Recovering;
    var s := Run(net, Start(), run);
    StartInv();
    RunKeepsInv(net, Start(), None, run);
    RescueBegins(s, h);
    RunRescues(net, s, h, more);
    if Drained(Run(net, s, more)) { RescuedMeans(Run(net, s, more), h); }
  }
}
