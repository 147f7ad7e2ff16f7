/**
 Liveness of the handshake over lossless in-order channels: whatever is still awaited is
 in flight, so a state with nothing in flight is a settled one.
 */
module Convergence {
  import opened Base
  import opened Addr
  import opened KcpModel
  import opened Machine
  import opened Network
  import opened Handshake

  /**
   In-order delivery, sends, and ticks that remove no session and on the lower side
   retransmit no SYN; nothing is lost.
   */
  ghost predicate Orderly(net: Net, s: Sys, a: Action)
    requires Enabled(s, a)
  {
    Gentle(net, s, a) && !a.Lose?
  }

  ghost predicate AllOrderly(net: Net, s: Sys, run: seq<Action>)
    requires CanRun(net, s, run)
    decreases run
  {
    run == [] || (Orderly(net, s, run[0]) && AllOrderly(net, Next(net, s, run[0]), run[1..]))
  }

  /** Whoever is waiting has an answer, or the datagram that will cause one, in flight. */
  predicate Awaited(hi: Role, lo: Role, h: Option<Conv>, l: Option<Conv>, stale: Option<Conv>,
                    toLo: seq<Datagram>, toHi: seq<Datagram>) {
    && (lo.Pending? ==>
          if h.Some? then Syn(h.value) in toLo
          else (Unset(stale, hi) ==> Syn(lo.conv) in toHi) && (OpenOn(hi, l) ==> SynAck(lo.conv) in toLo))
    && (hi.Pending? ==>
          && (Unset(stale, lo) ==> Syn(hi.conv) in toLo)
          && (lo.Pending? ==> Syn(lo.conv) in toHi)
          && (OpenOn(lo, h) ==> SynAck(hi.conv) in toHi || (l.Some? && Syn(l.value) in toHi)))
  }

  ghost predicate InFlight(s: Sys, stale: Option<Conv>) {
    Awaited(RoleOf(s.hi.slot), RoleOf(s.lo.slot), Own(s.hi), Own(s.lo), stale, s.lo.inbox, s.hi.inbox)
  }

  lemma TailKeeps<T>(s: seq<T>, x: T)
    requires s != [] && x in s && x != s[0]
    ensures x in s[1..]
  {
    var j :| 0 <= j < |s| && s[j] == x;
    assert s[1..][j - 1] == x;
  }

  lemma HiAwaited(hi: Role, lo: Role, h: Option<Conv>, l: Option<Conv>, stale: Option<Conv>,
                  toLo: seq<Datagram>, toHi: seq<Datagram>, out: seq<Datagram>)
    requires Roles(hi, lo, h, l, stale) && toHi != [] && ToHi(hi, lo, h, l, stale, toHi[0])
    requires (h.Some? ==> h != stale && h != l) && (l.Some? ==> l != stale)
    requires Awaited(hi, lo, h, l, stale, toLo, toHi)
    requires Answers(hi, RoleAfter(false, hi, toHi[0]), toHi[0], out)
    ensures Awaited(RoleAfter(false, hi, toHi[0]), lo, h, l, stale, toLo + out, toHi[1..])
  {
    forall p | p in toHi && p != toHi[0] ensures p in toHi[1..] { TailKeeps(toHi, p); }
  }

  lemma LoAwaited(hi: Role, lo: Role, h: Option<Conv>, l: Option<Conv>, stale: Option<Conv>,
                  toLo: seq<Datagram>, toHi: seq<Datagram>, out: seq<Datagram>)
    requires Roles(hi, lo, h, l, stale) && toLo != [] && ToLo(hi, lo, h, l, stale, toLo[0])
    requires (h.Some? ==> h != stale && h != l) && (l.Some? ==> l != stale)
    requires Awaited(hi, lo, h, l, stale, toLo, toHi)
    requires Answers(lo, RoleAfter(true, lo, toLo[0]), toLo[0], out)
    ensures Awaited(hi, RoleAfter(true, lo, toLo[0]), h, l, stale, toLo[1..], toHi + out)
  {
    forall p | p in toLo && p != toLo[0] ensures p in toLo[1..] { TailKeeps(toLo, p); }
  }

  lemma DrawAwaited(hi: Role, lo: Role, h: Option<Conv>, l: Option<Conv>, stale: Option<Conv>,
                    toLo: seq<Datagram>, toHi: seq<Datagram>, drawn: Conv)
    requires Roles(hi, lo, h, l, stale) && Awaited(hi, lo, h, l, stale, toLo, toHi)
    requires stale != Some(drawn) && h != Some(drawn) && l != Some(drawn)
    ensures hi == Absent ==> Awaited(Pending(drawn), lo, Some(drawn), l, stale, toLo + [Syn(drawn)], toHi)
    ensures lo == Absent ==> Awaited(hi, Pending(drawn), h, Some(drawn), stale, toLo, toHi + [Syn(drawn)])
  {
  }

  lemma DeliverKeepsInFlight(net: Net, s: Sys, stale: Option<Conv>, a: Action)
    requires NetOk(net) && Inv(s, stale) && InFlight(s, stale) && Enabled(s, a) && a.Deliver? && a.i == 0
    ensures InFlight(Next(net, s, a), stale)
  {
    OneWins(net);
    var me := At(s, a.to);
    var p := me.inbox[0];
    ReceiveRole(Env(AddrOf(net, a.to), net.cfg), me.slot, AddrOf(net, Other(a.to)), p, a.now, a.ch);
    var out := Packets(Arrive(net, s, a.to, p, a.now, a.ch).wire);
    hide Step, RoleOf, SlotOk, Roles, Awaited, ToLo, ToHi, Answers;
    if a.to == Hi {
      assert MayReachHi(s, stale, p);
      HiAwaited(RoleOf(s.hi.slot), RoleOf(s.lo.slot), Own(s.hi), Own(s.lo), stale, s.lo.inbox, s.hi.inbox, out);
    } else {
      assert MayReachLo(s, stale, p);
      LoAwaited(RoleOf(s.hi.slot), RoleOf(s.lo.slot), Own(s.hi), Own(s.lo), stale, s.lo.inbox, s.hi.inbox, out);
    }
  }

  lemma DrawKeepsInFlight(net: Net, s: Sys, stale: Option<Conv>, a: Action)
    requires Inv(s, stale) && InFlight(s, stale) && Enabled(s, a) && a.UserSend? && At(s, a.at).slot.None?
    ensures InFlight(Next(net, s, a), stale)
  {
    SendRole(Env(AddrOf(net, a.at), net.cfg), None, AddrOf(net, Other(a.at)), a.data, a.drawn, a.now, a.ch);
    DrawAwaited(RoleOf(s.hi.slot), RoleOf(s.lo.slot), Own(s.hi), Own(s.lo), stale, s.lo.inbox, s.hi.inbox, a.drawn);
    hide Step, SlotOk, Roles, Awaited;
  }

  lemma ChatKeepsInFlight(net: Net, s: Sys, stale: Option<Conv>, a: Action)
    requires Inv(s, stale) && InFlight(s, stale) && Enabled(s, a) && Chat(net, s, a)
    ensures InFlight(Next(net, s, a), stale)
  {
    ChatMeans(net, s, a);
    hide Next, Chat, Uttered, SlotOk, Roles, RoleOf, Unset, OpenOn;
  }

  // ----- convergence -----

  ghost predicate Settling(s: Sys, stale: Option<Conv>) {
    Inv(s, stale) && InFlight(s, stale)
  }

  lemma OrderlyStep(net: Net, s: Sys, stale: Option<Conv>, a: Action)
    requires NetOk(net) && Settling(s, stale) && Enabled(s, a) && Orderly(net, s, a)
    ensures Settling(Next(net, s, a), stale)
  {
    hide Next, Inv, InFlight;
    GentleKeepsInv(net, s, stale, a);
    if a.Deliver? {
      DeliverKeepsInFlight(net, s, stale, a);
    } else if a.UserSend? && At(s, a.at).slot.None? {
      DrawKeepsInFlight(net, s, stale, a);
    } else {
      ChatKeepsInFlight(net, s, stale, a);
    }
  }

  lemma {:induction false} OrderlyRun(net: Net, s: Sys, stale: Option<Conv>, run: seq<Action>)
    requires NetOk(net) && Settling(s, stale) && CanRun(net, s, run) && AllOrderly(net, s, run)
    ensures Settling(Run(net, s, run), stale)
    decreases run
  {
    hide Next, Settling;
    if run != [] {
      OrderlyStep(net, s, stale, run[0]);
      OrderlyRun(net, Next(net, s, run[0]), stale, run[1..]);
    }
  }

  predicate Drained(s: Sys) {
    s.hi.inbox == [] && s.lo.inbox == []
  }

  /** The id both sides should come to rest on. */
  function Chosen(s: Sys): Option<Conv> {
    if s.hi.drawn != [] then Own(s.hi) else Own(s.lo)
  }

  lemma SettledMeans(s: Sys)
    requires Settling(s, None)
    ensures Drained(s) && Chosen(s).Some? ==>
              RoleOf(s.hi.slot) == Open(Chosen(s).value) && RoleOf(s.lo.slot) == Open(Chosen(s).value)
    ensures forall p :: p in s.hi.sent || p in s.lo.sent ==> !p.Reset?
    ensures forall e :: e in s.hi.events || e in s.lo.events ==> !e.PeerRestarted?
  {
  }

  lemma StartSettled()
    ensures Settling(Start(), None)
  {
  }

  /**
   Convergence: in every lossless in-order run from two idle nodes without removals and
   with SYN retransmission by the higher side only, once at least one side has initiated
   and nothing is in flight, both sides are Established on one id, which is the higher
   side's if that side initiated. No RESET was written and no restart announced on the way.
   */
  lemma {:induction false} Converges(net: Net, run: seq<Action>)
    requires NetOk(net) && CanRun(net, Start(), run) && AllOrderly(net, Start(), run)
    ensures var s := Run(net, Start(), run);
            && (Drained(s) && (s.hi.drawn != [] || s.lo.drawn != []) ==>
                  var agreed := if s.hi.drawn != [] then s.hi.drawn[0] else s.lo.drawn[0];
                  RoleOf(s.hi.slot) == Open(agreed) && RoleOf(s.lo.slot) == Open(agreed))
            && (forall p :: p in s.hi.sent || p in s.lo.sent ==> !p.Reset?)
            && (forall e :: e in s.hi.events || e in s.lo.events ==> !e.PeerRestarted?)
  {
    hide Next, Settling, RoleOf, Run, AllOrderly;
    StartSettled();
    OrderlyRun(net, Start(), None, run);
    SettledMeans(Run(net, Start(), run));
  }

  // ----- half-open repair -----

  /** What is left of the connection `c` that side `x` still believes in after its peer restarted. */
  ghost predicate Remnant(s: Sys, c: Conv, x: Side) {
    RemnantOf(At(s, x), At(s, Other(x)), c)
  }

  ghost predicate RemnantOf(me: Endpoint, peer: Endpoint, c: Conv) {
    && RoleOf(peer.slot) != Open(c)
    && (RoleOf(me.slot) == Open(c) && RoleOf(peer.slot) == Absent && (me.sent != [] || peer.sent != []) ==>
          Reset(c) in me.inbox || exists p :: p in peer.inbox && p.Data? && p.frame.conv == c)
    && (RoleOf(me.slot) == Open(c) ==> me.drawn == [])
    && (RoleOf(me.slot) == Absent ==> exists e :: e in me.events && e.Disconnected?)
    && (RoleOf(me.slot) != Open(c) ==> Told(me))
  }

  /** A node has announced that it lost its peer. */
  predicate Told(me: Endpoint) {
    exists e :: e in me.events && (e.Disconnected? || e.PeerRestarted?)
  }

  /** Side `x` is Established under `c`, its peer has just restarted and nothing is in flight. */
  predicate HalfOpen(s: Sys, c: Conv, x: Side) {
    && At(s, x) == Resting(At(s, x).slot) && SlotOk(At(s, x).slot) && RoleOf(At(s, x).slot) == Open(c)
    && At(s, Other(x)) == Resting(None)
    && s.used == {c}
  }

  lemma HalfOpenSettles(s: Sys, c: Conv, x: Side)
    requires HalfOpen(s, c, x)
    ensures Settling(s, Some(c)) && Remnant(s, c, x)
  {
  }

  lemma FirstIn<T>(s: seq<T>)
    ensures s == [] || s[0] in s
  {
  }

  /** What a datagram in flight can do to a role, as far as the old connection `c` is concerned. */
  ghost predicate Spares(role: Role, after: Role, p: Datagram, c: Conv) {
    && (after == Open(c) ==> role == Open(c) && p != Reset(c) && forall q :: !Reply(role, after, p, q))
    && (after == Absent && role != Absent ==> role == Open(c))
    && (role == Open(c) && after != Open(c) && after != Absent ==> p.Syn? && role.conv != p.conv)
    && (after == Absent && role == Absent ==>
          (p.Data? ==> p.frame.conv == c) && forall q :: Reply(role, after, p, q) ==> p.Data?)
  }

  lemma HearsRemnant(hi: Role, lo: Role, h: Option<Conv>, l: Option<Conv>, c: Conv, atHi: bool, p: Datagram)
    requires Roles(hi, lo, h, l, Some(c)) && (h.Some? ==> h != Some(c) && h != l) && (l.Some? ==> l != Some(c))
    requires if atHi then ToHi(hi, lo, h, l, Some(c), p) else ToLo(hi, lo, h, l, Some(c), p)
    ensures var role := if atHi then hi else lo;
            Spares(role, RoleAfter(!atHi, role, p), p, c)
  {
  }

  /** An endpoint before and after it takes the head of its inbox. */
  ghost predicate Took(me: Endpoint, after: Endpoint, out: seq<Datagram>, c: Conv) {
    && me.inbox != []
    && after.inbox == me.inbox[1..] && after.drawn == me.drawn && after.sent == me.sent + out
    && (forall v :: v in me.events ==> v in after.events)
    && (RoleOf(me.slot) != Absent && RoleOf(after.slot) == Absent ==> exists v :: v in after.events && v.Disconnected?)
    && (RoleOf(me.slot) == Open(c) && RoleOf(after.slot) != Open(c) ==> Told(after))
    && (RoleOf(after.slot) == Open(c) ==> RoleOf(me.slot) == Open(c) && me.inbox[0] != Reset(c) && out == [])
    && (RoleOf(me.slot) == Absent && RoleOf(after.slot) == Absent ==>
          if me.inbox[0].Data? then me.inbox[0].frame.conv == c && Reset(c) in out else out == [])
  }

  lemma HolderTook(me: Endpoint, after: Endpoint, peer: Endpoint, out: seq<Datagram>, c: Conv)
    requires RemnantOf(me, peer, c) && Took(me, after, out, c)
    ensures RemnantOf(after, peer.(inbox := peer.inbox + out), c)
  {
    hide RoleOf;
    if Reset(c) in me.inbox && Reset(c) != me.inbox[0] { TailKeeps(me.inbox, Reset(c)); }
  }

  lemma PeerTook(me: Endpoint, peer: Endpoint, after: Endpoint, out: seq<Datagram>, c: Conv)
    requires RemnantOf(me, peer, c) && Took(peer, after, out, c)
    requires RoleOf(me.slot) == Open(c) && RoleOf(after.slot) == Absent ==> RoleOf(peer.slot) == Absent
    ensures RemnantOf(me.(inbox := me.inbox + out), after, c)
  {
    hide RoleOf;
    forall q | q in peer.inbox && q != peer.inbox[0] ensures q in after.inbox { TailKeeps(peer.inbox, q); }
  }

  lemma TookFrom(me: Endpoint, after: Endpoint, out: seq<Datagram>, events: seq<Event>, from: SocketAddr, c: Conv)
    requires me.inbox != []
    requires after == Endpoint(after.slot, me.inbox[1..], me.sent + out, me.drawn, me.events + events)
    requires var role, turned, p := RoleOf(me.slot), RoleOf(after.slot), me.inbox[0];
             && Spares(role, turned, p, c) && Answers(role, turned, p, out)
             && (forall q :: q in out ==> Reply(role, turned, p, q))
             && (PeerRestarted(from) in events <==> p.Syn? && role.Open? && role.conv != p.conv)
             && (Disconnected(from) in events <==> role != Absent && turned == Absent)
    ensures Took(me, after, out, c)
  {
    hide RoleOf;
    FirstIn(out);
    var role, turned := RoleOf(me.slot), RoleOf(after.slot);
    assert role != Absent && turned == Absent ==> Disconnected(from) in after.events;
    assert role == Open(c) && turned != Open(c) && turned != Absent ==> PeerRestarted(from) in after.events;
  }

  lemma DeliveryTook(net: Net, s: Sys, c: Conv, a: Action)
    requires NetOk(net) && Inv(s, Some(c)) && Enabled(s, a) && a.Deliver? && a.i == 0
    ensures var s' := Next(net, s, a);
            var out := Packets(Arrive(net, s, a.to, At(s, a.to).inbox[0], a.now, a.ch).wire);
            && Took(At(s, a.to), At(s', a.to), out, c)
            && At(s', Other(a.to)) == At(s, Other(a.to)).(inbox := At(s, Other(a.to)).inbox + out)
            && (RoleOf(At(s', a.to).slot) == Absent && RoleOf(At(s, a.to).slot) != Absent ==>
                  RoleOf(At(s, a.to).slot) == Open(c))
  {
    OneWins(net);
    var me := At(s, a.to);
    var p := me.inbox[0];
    var from := AddrOf(net, Other(a.to));
    ReceiveRole(Env(AddrOf(net, a.to), net.cfg), me.slot, from, p, a.now, a.ch);
    var e := Arrive(net, s, a.to, p, a.now, a.ch);
    if a.to == Hi { assert MayReachHi(s, Some(c), p); } else { assert MayReachLo(s, Some(c), p); }
    HearsRemnant(RoleOf(s.hi.slot), RoleOf(s.lo.slot), Own(s.hi), Own(s.lo), c, a.to == Hi, p);
    assert Spares(RoleOf(me.slot), RoleOf(e.slot), p, c);
    hide Step, SlotOk, RoleOf, RoleAfter, Reply, Answers, Inv, Took;
    TookFrom(me, At(Next(net, s, a), a.to), Packets(e.wire), e.events, from, c);
    assert RoleOf(e.slot) == Absent && RoleOf(me.slot) != Absent ==> RoleOf(me.slot) == Open(c);
  }

  lemma DeliverKeepsRemnant(net: Net, s: Sys, c: Conv, x: Side, a: Action)
    requires NetOk(net) && Inv(s, Some(c)) && Remnant(s, c, x) && Enabled(s, a) && a.Deliver? && a.i == 0
    ensures Remnant(Next(net, s, a), c, x)
  {
    DeliveryTook(net, s, c, a);
    var me := At(s, a.to);
    var out := Packets(Arrive(net, s, a.to, me.inbox[0], a.now, a.ch).wire);
    assert RoleOf(At(s, Other(x)).slot) != Open(c);
    hide Next, Arrive, RoleOf, Inv, Took;
    var after := At(Next(net, s, a), a.to);
    if a.to == x {
      HolderTook(me, after, At(s, Other(x)), out, c);
    } else {
      PeerTook(At(s, x), me, after, out, c);
    }
  }

  lemma DrawKeepsRemnant(net: Net, s: Sys, c: Conv, x: Side, a: Action)
    requires Inv(s, Some(c)) && Remnant(s, c, x) && Enabled(s, a) && a.UserSend? && At(s, a.at).slot.None?
    ensures Remnant(Next(net, s, a), c, x)
  {
    SendRole(Env(AddrOf(net, a.at), net.cfg), None, AddrOf(net, Other(a.at)), a.data, a.drawn, a.now, a.ch);
    hide Step, SlotOk, Roles, Inv;
  }

  lemma HolderSpoke(me: Endpoint, after: Endpoint, peer: Endpoint, out: seq<Datagram>, c: Conv)
    requires RemnantOf(me, peer, c) && RoleOf(after.slot) == RoleOf(me.slot)
    requires after == me.(slot := after.slot, sent := me.sent + out)
    requires forall q :: q in out ==> Chatter(RoleOf(me.slot), q)
    ensures RemnantOf(after, peer.(inbox := peer.inbox + out), c)
  {
    hide RoleOf;
    if out != [] && RoleOf(me.slot) == Open(c) {
      assert out[0] in out && out[0] in peer.inbox + out;
    }
  }

  lemma PeerSpoke(me: Endpoint, peer: Endpoint, after: Endpoint, out: seq<Datagram>, c: Conv)
    requires RemnantOf(me, peer, c) && RoleOf(after.slot) == RoleOf(peer.slot)
    requires after == peer.(slot := after.slot, sent := peer.sent + out)
    requires forall q :: q in out ==> Chatter(RoleOf(peer.slot), q)
    ensures RemnantOf(me.(inbox := me.inbox + out), after, c)
  {
    hide RoleOf;
    FirstIn(out);
  }

  lemma ChatKeepsRemnant(net: Net, s: Sys, c: Conv, x: Side, a: Action)
    requires Inv(s, Some(c)) && Remnant(s, c, x) && Enabled(s, a) && Chat(net, s, a)
    ensures Remnant(Next(net, s, a), c, x)
  {
    ChatMeans(net, s, a);
    var out, after := Uttered(net, s, a), At(Next(net, s, a), a.at);
    hide Next, Chat, Uttered, SlotOk, RoleOf, Chatter, Inv, RemnantOf;
    if a.at == x {
      HolderSpoke(At(s, x), after, At(s, Other(x)), out, c);
    } else {
      PeerSpoke(At(s, x), At(s, a.at), after, out, c);
    }
  }

  lemma {:induction false} RepairRun(net: Net, s: Sys, c: Conv, x: Side, run: seq<Action>)
    requires NetOk(net) && Settling(s, Some(c)) && Remnant(s, c, x) && CanRun(net, s, run) && AllOrderly(net, s, run)
    ensures Settling(Run(net, s, run), Some(c)) && Remnant(Run(net, s, run), c, x)
    decreases run
  {
    hide Next, Inv, InFlight, Remnant;
    if run != [] {
      OrderlyStep(net, s, Some(c), run[0]);
      if run[0].Deliver? {
        DeliverKeepsRemnant(net, s, c, x, run[0]);
      } else if run[0].UserSend? && At(s, run[0].at).slot.None? {
        DrawKeepsRemnant(net, s, c, x, run[0]);
      } else {
        ChatKeepsRemnant(net, s, c, x, run[0]);
      }
      RepairRun(net, Next(net, s, run[0]), c, x, run[1..]);
    }
  }

  /** Both sides Established on one id that was drawn after the restart. */
  ghost predicate Reconnected(s: Sys, c: Conv) {
    var hi, lo := RoleOf(s.hi.slot), RoleOf(s.lo.slot);
    hi.Open? && hi == lo && hi.conv != c && (hi.conv in s.hi.drawn || hi.conv in s.lo.drawn)
  }

  lemma RepairedMeans(t: Sys, c: Conv, x: Side)
    requires Settling(t, Some(c)) && Remnant(t, c, x) && Drained(t)
    ensures
      || (&& t.hi.sent == [] && t.lo.sent == []
          && RoleOf(At(t, x).slot) == Open(c) && RoleOf(At(t, Other(x)).slot) == Absent)
      || (Reconnected(t, c) && Told(At(t, x)))
      || (&& RoleOf(t.hi.slot) == Absent && RoleOf(t.lo.slot) == Absent
          && exists e :: e in At(t, x).events && e.Disconnected?)
  {
    hide SlotOk, RoleOf;
  }

  /**
   Half-open repair: from "one side Established under `c`, the other restarted", every
   lossless in-order run of deliveries, sends and ticks as in `Orderly` that has come to
   rest is still untouched, or has both sides Established on one fresh id and the holder of
   `c` told of the loss, or has no session on either side and Disconnected fired where `c`
   was held.
   */
  lemma {:induction false} HalfOpenRepaired(net: Net, s: Sys, c: Conv, x: Side, run: seq<Action>)
    requires NetOk(net) && HalfOpen(s, c, x) && CanRun(net, s, run) && AllOrderly(net, s, run)
    ensures var t := Run(net, s, run);
            Drained(t) ==>
              || (&& t.hi.sent == [] && t.lo.sent == []
                  && RoleOf(At(t, x).slot) == Open(c) && RoleOf(At(t, Other(x)).slot) == Absent)
              || (Reconnected(t, c) && Told(At(t, x)))
              || (&& RoleOf(t.hi.slot) == Absent && RoleOf(t.lo.slot) == Absent
                  && exists e :: e in At(t, x).events && e.Disconnected?)
  {
    hide Next, Settling, Remnant, HalfOpen, Run, AllOrderly, Reconnected, RoleOf, Told;
    HalfOpenSettles(s, c, x);
    RepairRun(net, s, c, x, run);
    if Drained(Run(net, s, run)) { RepairedMeans(Run(net, s, run), c, x); }
  }

  /** Both sides are Established under `c`, and only frames of `c` are in flight. */
  predicate Together(s: Sys, c: Conv) {
    && Paired(s.hi, c) && Paired(s.lo, c)
    && s.used == {c}
  }

  /** One side of such a connection, its history left out. */
  predicate Paired(me: Endpoint, c: Conv) {
    && me == Resting(me.slot).(inbox := me.inbox) && SlotOk(me.slot) && RoleOf(me.slot) == Open(c)
    && forall p :: p in me.inbox ==> p.Data? && p.frame.conv == c
  }

  /** Side `x` is Established under `c`, its peer has given up the session and a RESET says so. */
  ghost predicate Parted(s: Sys, c: Conv, x: Side) {
    && SlotOk(At(s, x).slot) && RoleOf(At(s, x).slot) == Open(c) && At(s, Other(x)).slot == None
    && s.hi.drawn == [] && s.lo.drawn == [] && c in s.used
    && Reset(c) in At(s, x).inbox && At(s, Other(x)).sent != []
    && (forall p :: p in s.hi.inbox || p in s.lo.inbox ==> Noise(Some(c), p))
  }

  lemma SentStaysOnce(net: Net, s: Sys, y: Side, a: Action)
    requires Enabled(s, a) && At(s, y).sent != []
    ensures At(Next(net, s, a), y).sent != []
  {
    hide Step;
  }

  lemma {:induction false} SentStays(net: Net, s: Sys, y: Side, run: seq<Action>)
    requires CanRun(net, s, run) && At(s, y).sent != []
    ensures At(Run(net, s, run), y).sent != []
    decreases run
  {
    hide Next;
    if run != [] {
      SentStaysOnce(net, s, y, run[0]);
      SentStays(net, Next(net, s, run[0]), y, run[1..]);
    }
  }

  lemma PartedSettles(s: Sys, c: Conv, x: Side)
    requires Parted(s, c, x)
    ensures Settling(s, Some(c)) && Remnant(s, c, x)
  {
    hide SessionOk;
  }

  lemma DisconnectParts(net: Net, s: Sys, c: Conv, x: Side)
    requires Together(s, c)
    ensures var t := Next(net, s, UserDisconnect(Other(x)));
            Parted(t, c, x) && At(t, x).events == [] && Disconnected(AddrOf(net, x)) in At(t, Other(x)).events
  {
    var slot := At(s, Other(x)).slot;
    var wire := Resets(AddrOf(net, x), c);
    assert Call(net, s, Other(x), Disconnect(AddrOf(net, x))).wire == wire;
    assert Packets(wire) == [Reset(c), Reset(c), Reset(c)];
    hide SlotOk;
  }

  /** Once the peer of `x` has given up its session, every such run that comes to rest is repaired. */
  lemma {:induction false} PartedRepaired(net: Net, s: Sys, c: Conv, x: Side, run: seq<Action>)
    requires NetOk(net) && Parted(s, c, x) && CanRun(net, s, run) && AllOrderly(net, s, run)
    ensures var t := Run(net, s, run);
            Drained(t) ==>
              || (Reconnected(t, c) && Told(At(t, x)))
              || (&& RoleOf(t.hi.slot) == Absent && RoleOf(t.lo.slot) == Absent
                  && exists e :: e in At(t, x).events && e.Disconnected?)
  {
    PartedSettles(s, c, x);
    SentStays(net, s, Other(x), run);
    hide Next, Settling, Remnant, Run, AllOrderly, Reconnected, RoleOf, Told;
    RepairRun(net, s, c, x, run);
    if Drained(Run(net, s, run)) { RepairedMeans(Run(net, s, run), c, x); }
  }

  /**
   After a disconnect: however many frames of the old connection are still in flight, and
   whatever both sides send meanwhile, every lossless in-order run that comes to rest has
   both sides Established on one fresh id, or no session on either side; and the other side
   has been told.
   */
  lemma {:induction false} DisconnectCompletes(net: Net, s: Sys, c: Conv, x: Side, run: seq<Action>)
    requires NetOk(net) && Together(s, c)
    requires var s' := Next(net, s, UserDisconnect(Other(x)));
             CanRun(net, s', run) && AllOrderly(net, s', run)
    ensures var t := Run(net, Next(net, s, UserDisconnect(Other(x))), run);
            Drained(t) ==>
              && Told(At(t, x))
              && (Reconnected(t, c) || (RoleOf(t.hi.slot) == Absent && RoleOf(t.lo.slot) == Absent))
  {
    hide Next, Run, AllOrderly, Together, Parted;
    DisconnectParts(net, s, c, x);
    PartedRepaired(net, Next(net, s, UserDisconnect(Other(x))), c, x, run);
  }

  lemma StaleResetsOf(s: Sys, c: Conv, x: Side, y: Side, p: Datagram)
    requires Settling(s, Some(c)) && Remnant(s, c, x)
    ensures At(s, y).drawn != [] ==> At(s, y).slot.Some? && At(s, y).slot.value.conv != c
    ensures p in At(s, y).inbox && p.Reset? && At(s, y).slot.Some? && At(s, y).slot.value.conv != c ==> p.conv == c
  {
    if p in At(s, y).inbox {
      assert y == Hi ==> MayReachHi(s, Some(c), p);
      assert y == Lo ==> MayReachLo(s, Some(c), p);
    }
  }

  /**
   Along such a run the only RESETs ever in flight to a session with another id are copies
   of RESET(c), and it survives every one of them; no session drawn after the restart is lost.
   */
  lemma {:induction false} StaleResetsHarmless(net: Net, s: Sys, c: Conv, x: Side, run: seq<Action>, y: Side,
                                               p: Datagram, now: nat, ch: Choice)
    requires NetOk(net) && HalfOpen(s, c, x) && CanRun(net, s, run) && AllOrderly(net, s, run)
    ensures var t := Run(net, s, run);
            && (At(t, y).drawn != [] ==> At(t, y).slot.Some? && At(t, y).slot.value.conv != c)
            && (p in At(t, y).inbox && p.Reset? && At(t, y).slot.Some? && At(t, y).slot.value.conv != c ==>
                  p.conv == c && Arrive(net, t, y, p, now, ch) == Keep(At(t, y).slot, Done))
  {
    hide Next, Settling, Remnant, HalfOpen, Run, AllOrderly;
    HalfOpenSettles(s, c, x);
    RepairRun(net, s, c, x, run);
    StaleResetsOf(Run(net, s, run), c, x, y, p);
  }

  // ----- why the lower side's SYN must not be repeated -----

  /** A KCP block that queues what it is given and transmits nothing. */
  const SILENT: Choice := Choice(true, 0, [], false, true, true, [])

  lemma SilentReceive(env: Env, slot: Option<SessionView>, from: SocketAddr, p: Datagram, now: nat)
    requires SlotOk(slot) && (p.Syn? || p.SynAck?)
    ensures var e := Step(env, slot, Receive(from, Arrival(p), now, SILENT));
            Packets(e.wire) == if p.Syn? && RoleOf(e.slot).Open? then [SynAck(RoleOf(e.slot).conv)] else []
  {
    hide Greater;
  }

  /** Silent delivery of the head of an inbox, in terms of roles and inboxes. */
  lemma SilentDeliver(net: Net, s: Sys, x: Side, now: nat)
    requires SlotOk(At(s, x).slot) && At(s, x).inbox != [] && (At(s, x).inbox[0].Syn? || At(s, x).inbox[0].SynAck?)
    ensures var p := At(s, x).inbox[0];
            var t := Next(net, s, Deliver(x, 0, now, SILENT));
            var role := RoleOf(At(s, x).slot);
            var after := RoleAfter(Greater(AddrOf(net, Other(x)), AddrOf(net, x)), role, p);
            && SlotOk(At(t, x).slot) && RoleOf(At(t, x).slot) == after
            && At(t, x).inbox == At(s, x).inbox[1..]
            && At(t, Other(x)).slot == At(s, Other(x)).slot && At(t, Other(x)).events == At(s, Other(x)).events
            && At(t, Other(x)).inbox
               == At(s, Other(x)).inbox + (if p.Syn? && after.Open? then [SynAck(after.conv)] else [])
            && (forall e :: e in At(s, x).events ==> e in At(t, x).events)
            && (p.Syn? && role.Open? && role.conv != p.conv ==> PeerRestarted(AddrOf(net, Other(x))) in At(t, x).events)
  {
    var p := At(s, x).inbox[0];
    var env := Env(AddrOf(net, x), net.cfg);
    ReceiveRole(env, At(s, x).slot, AddrOf(net, Other(x)), p, now, SILENT);
    SilentReceive(env, At(s, x).slot, AddrOf(net, Other(x)), p, now);
    hide Step, RoleOf, SlotOk, RoleAfter;
  }

  /**
   The lower side sends, retransmits its SYN once, and meanwhile the higher side sends
   too; then everything in flight is delivered in order.
   */
  function RepeatedSyn(cfg: Config, h: Conv, l: Conv, data: Bytes): seq<Action> {
    Opening(cfg, h, l, data) + (MEETING + CLOSING)
  }

  function Opening(cfg: Config, h: Conv, l: Conv, data: Bytes): seq<Action> {
    [UserSend(Lo, data, l, 1, SILENT), Ticks(Lo, 1 + Backoff(cfg, 0), SILENT), UserSend(Hi, data, h, 1, SILENT)]
  }

  const MEETING: seq<Action> := [Deliver(Hi, 0, 1, SILENT), Deliver(Hi, 0, 1, SILENT), Deliver(Lo, 0, 1, SILENT)]

  const CLOSING: seq<Action> := [Deliver(Lo, 0, 1, SILENT), Deliver(Lo, 0, 1, SILENT), Deliver(Hi, 0, 1, SILENT)]

  function Queued(conv: Conv, peer: SocketAddr, data: Bytes): SessionView {
    var s := NewOutbound(conv, peer, 1);
    s.(kcp := s.kcp.(queue := [data]))
  }

  lemma SilentSend(net: Net, s: Sys, x: Side, data: Bytes, drawn: Conv)
    requires At(s, x).slot.None? && drawn !in s.used
    ensures var t := Next(net, s, UserSend(x, data, drawn, 1, SILENT));
            && At(t, x).slot == Some(Queued(drawn, AddrOf(net, Other(x)), data))
            && At(t, x).inbox == At(s, x).inbox && At(t, Other(x)).inbox == At(s, Other(x)).inbox + [Syn(drawn)]
            && At(t, Other(x)).slot == At(s, Other(x)).slot && t.used == s.used + {drawn}
  {
    var to := AddrOf(net, Other(x));
    assert Call(net, s, x, Send(to, data, drawn, 1, SILENT)).wire == [Sent(to, Syn(drawn))];
    assert Packets([Sent(to, Syn(drawn))]) == [Syn(drawn)];
    assert [] + [data] == [data];
  }

  lemma SilentRetry(net: Net, s: Sys, conv: Conv, peer: SocketAddr, data: Bytes, now: nat)
    requires net.cfg.synMaxRetries > 0 && Backoff(net.cfg, 0) <= net.cfg.sessionTimeout
    requires s.lo.slot == Some(Queued(conv, peer, data)) && now == 1 + Backoff(net.cfg, 0)
    ensures var t := Next(net, s, Ticks(Lo, now, SILENT));
            && t.lo.slot.Some? && RoleOf(t.lo.slot) == Pending(conv) && SlotOk(t.lo.slot)
            && t.lo.inbox == s.lo.inbox && t.hi.inbox == s.hi.inbox + [Syn(conv)]
            && t.hi.slot == s.hi.slot && t.used == s.used
  {
    hide Backoff;
    var session := Queued(conv, peer, data);
    assert RetryDue(net.cfg, session, now) && !Machine.Idle(net.cfg, session, now);
    assert Packets([Sent(peer, Syn(conv))]) == [Syn(conv)];
  }

  lemma RepeatedSynOpening(net: Net, h: Conv, l: Conv, data: Bytes, run: seq<Action>)
    requires h != l && net.cfg.synMaxRetries > 0 && Backoff(net.cfg, 0) <= net.cfg.sessionTimeout
    requires run == Opening(net.cfg, h, l, data)
    ensures CanRun(net, Start(), run)
    ensures var s := Run(net, Start(), run);
            && SlotOk(s.hi.slot) && SlotOk(s.lo.slot)
            && RoleOf(s.hi.slot) == Pending(h) && RoleOf(s.lo.slot) == Pending(l)
            && s.hi.inbox == [Syn(l), Syn(l)] && s.lo.inbox == [Syn(h)]
  {
    hide Next, Backoff;
    SilentSend(net, Start(), Lo, data, l);
    var s1 := Next(net, Start(), run[0]);
    SilentRetry(net, s1, l, net.hi, data, run[1].now);
    var s2 := Next(net, s1, run[1]);
    assert Enabled(s2, run[2]);
    SilentSend(net, s2, Hi, data, h);
    var s3 := Next(net, s2, run[2]);
    assert run[1..][1..] == run[2..] && run[2..][1..] == [];
    FirstAction(net, s2, run[2..]);
    FirstAction(net, s1, run[1..]);
    FirstAction(net, Start(), run);
  }

  /** Three silent deliveries: the higher side becomes Established, is restarted, and its SYN is heard. */
  lemma RepeatedSynMeeting(net: Net, s: Sys, h: Conv, l: Conv, run: seq<Action>)
    requires NetOk(net) && h != l && SlotOk(s.hi.slot) && SlotOk(s.lo.slot)
    requires RoleOf(s.hi.slot) == Pending(h) && RoleOf(s.lo.slot) == Pending(l)
    requires s.hi.inbox == [Syn(l), Syn(l)] && s.lo.inbox == [Syn(h)]
    requires run == MEETING
    ensures CanRun(net, s, run)
    ensures var t := Run(net, s, run);
            && SlotOk(t.hi.slot) && SlotOk(t.lo.slot)
            && RoleOf(t.hi.slot) == Open(l) && RoleOf(t.lo.slot) == Open(h)
            && t.hi.inbox == [SynAck(h)] && t.lo.inbox == [SynAck(h), SynAck(l)]
            && PeerRestarted(net.lo) in t.hi.events
  {
    OneWins(net);
    hide Next, RoleOf, SlotOk;
    SilentDeliver(net, s, Hi, 1);
    var s1 := Next(net, s, run[0]);
    assert s1.hi.inbox == [Syn(l)] && s1.lo.inbox == [Syn(h), SynAck(h)];
    SilentDeliver(net, s1, Hi, 1);
    var s2 := Next(net, s1, run[1]);
    assert s2.hi.inbox == [] && s2.lo.inbox == [Syn(h), SynAck(h), SynAck(l)];
    SilentDeliver(net, s2, Lo, 1);
    assert run[1..][1..] == run[2..] && run[2..][1..] == [];
    FirstAction(net, s2, run[2..]);
    FirstAction(net, s1, run[1..]);
    FirstAction(net, s, run);
  }

  /** Three more change nothing: both sides have come to rest, on different ids. */
  lemma RepeatedSynClosing(net: Net, s: Sys, h: Conv, l: Conv, run: seq<Action>)
    requires SlotOk(s.hi.slot) && SlotOk(s.lo.slot)
    requires RoleOf(s.hi.slot) == Open(l) && RoleOf(s.lo.slot) == Open(h)
    requires s.hi.inbox == [SynAck(h)] && s.lo.inbox == [SynAck(h), SynAck(l)]
    requires PeerRestarted(net.lo) in s.hi.events
    requires run == CLOSING
    ensures CanRun(net, s, run)
    ensures var t := Run(net, s, run);
            && SlotOk(t.hi.slot) && SlotOk(t.lo.slot)
            && Drained(t) && RoleOf(t.hi.slot) == Open(l) && RoleOf(t.lo.slot) == Open(h)
            && PeerRestarted(net.lo) in t.hi.events
  {
    hide Next, RoleOf, SlotOk;
    SilentDeliver(net, s, Lo, 1);
    var s1 := Next(net, s, run[0]);
    SilentDeliver(net, s1, Lo, 1);
    var s2 := Next(net, s1, run[1]);
    SilentDeliver(net, s2, Hi, 1);
    assert run[1..][1..] == run[2..] && run[2..][1..] == [];
    FirstAction(net, s2, run[2..]);
    FirstAction(net, s1, run[1..]);
    FirstAction(net, s, run);
  }

  /**
   If the lower side retransmits its SYN during a simultaneous open, agreement fails even
   though nothing is lost, reordered or removed: the higher side takes the second copy for
   a restarted peer, and both sides come to rest Established on different ids.
   */
  lemma RepeatedSynDisagrees(net: Net, h: Conv, l: Conv, data: Bytes)
    requires NetOk(net) && h != l && net.cfg.synMaxRetries > 0 && Backoff(net.cfg, 0) <= net.cfg.sessionTimeout
    ensures var run := RepeatedSyn(net.cfg, h, l, data);
            && CanRun(net, Start(), run)
            && var t := Run(net, Start(), run);
               && SlotOk(t.hi.slot) && SlotOk(t.lo.slot)
               && Drained(t) && RoleOf(t.hi.slot) == Open(l) && RoleOf(t.lo.slot) == Open(h)
               && PeerRestarted(net.lo) in t.hi.events
  {
    hide Next, SlotOk, RoleOf, Backoff, Opening, Run, CanRun;
    var opening := Opening(net.cfg, h, l, data);
    RepeatedSynOpening(net, h, l, data, opening);
    var met := Run(net, Start(), opening);
    RepeatedSynMeeting(net, met, h, l, MEETING);
    RepeatedSynClosing(net, Run(net, met, MEETING), h, l, CLOSING);
    RunConcat(net, met, MEETING, CLOSING);
    RunConcat(net, Start(), opening, MEETING + CLOSING);
  }
}
