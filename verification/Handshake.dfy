/**
 The two-node handshake over in-order channels: simultaneous open, convergence and the
 repair of a half-open connection.

 One invariant serves all three. `stale` is the conversation id left over from before a
 restart, if there is one: a node may still hold an Established session under it, and
 KCP frames and RESETs under it may be in flight. Everything else belongs to the new
 handshake, in which each side draws at most one id.
 */
module Handshake {
  import opened Base
  import opened Addr
  import opened KcpModel
  import opened Machine
  import opened Network

  // ----- what a slot amounts to -----

  datatype Role = Absent | Pending(conv: Conv) | Open(conv: Conv)

  function RoleOf(slot: Option<SessionView>): Role {
    match slot
    case None => Absent
    case Some(s) => if s.state == SynSent then Pending(s.conv) else Open(s.conv)
  }

  /** The role after a datagram arrives; `greater` says that the sender's address is the greater one. */
  function RoleAfter(greater: bool, role: Role, p: Datagram): Role {
    match p
    case Syn(c) =>
      if role.Pending? && role.conv != c && !greater then Open(role.conv)
      else if role == Pending(c) then role
      else Open(c)
    case SynAck(c) => if role == Pending(c) then Open(c) else role
    case Reset(c) => if role != Absent && role.conv == c then Absent else role
    case Data(_) => role
  }

  /** What a node may write on a datagram `p`, from its roles before and after. */
  predicate Reply(role: Role, after: Role, p: Datagram, q: Datagram) {
    match q
    case Syn(_) => false
    case SynAck(c) => p.Syn? && after == Open(c)
    case Reset(c) => p.Data? && role == Absent && c == ConvOf(p)
    case Data(f) => role.Pending? && after == Open(f.conv) && (p.Syn? || p.SynAck?)
  }

  /** What a node must write: a SYN that leaves it established is acknowledged, a frame for no session is refused. */
  predicate Answers(role: Role, after: Role, p: Datagram, out: seq<Datagram>) {
    && (p.Syn? && after.Open? ==> SynAck(after.conv) in out)
    && (p.Data? && role == Absent ==> Reset(ConvOf(p)) in out)
  }

  lemma PacketsContain(wire: seq<Sent>, i: nat)
    requires i < |wire|
    ensures wire[i].packet in Packets(wire)
  {
    assert Packets(wire)[i] == wire[i].packet;
  }

  lemma ReceiveReplies(env: Env, slot: Option<SessionView>, from: SocketAddr, p: Datagram, now: nat, ch: Choice)
    requires SlotOk(slot)
    ensures var e := Step(env, slot, Receive(from, Arrival(p), now, ch));
            && SlotOk(e.slot)
            && RoleOf(e.slot) == RoleAfter(Greater(from, env.me), RoleOf(slot), p)
            && (forall q :: q in Packets(e.wire) ==> Reply(RoleOf(slot), RoleOf(e.slot), p, q))
  {
    WireLicensed(env, slot, Receive(from, Arrival(p), now, ch));
    hide Flush, SessionOk, Greater;
  }

  lemma ReceiveAnswers(env: Env, slot: Option<SessionView>, from: SocketAddr, p: Datagram, now: nat, ch: Choice)
    ensures var e := Step(env, slot, Receive(from, Arrival(p), now, ch));
            Answers(RoleOf(slot), RoleOf(e.slot), p, Packets(e.wire))
  {
    hide Flush, Greater;
    var wire := Step(env, slot, Receive(from, Arrival(p), now, ch)).wire;
    if wire != [] {
      PacketsContain(wire, |wire| - 1);
    }
  }

  lemma ReceiveEvents(env: Env, slot: Option<SessionView>, from: SocketAddr, p: Datagram, now: nat, ch: Choice)
    ensures var e := Step(env, slot, Receive(from, Arrival(p), now, ch));
            && (PeerRestarted(from) in e.events <==> p.Syn? && RoleOf(slot).Open? && RoleOf(slot).conv != p.conv)
            && (Disconnected(from) in e.events <==> RoleOf(slot) != Absent && RoleOf(e.slot) == Absent)
            && (forall v :: v in e.events ==> v.addr == from)
  {
    hide Flush, Greater;
  }

  /** One datagram at one node, in terms of roles. */
  lemma ReceiveRole(env: Env, slot: Option<SessionView>, from: SocketAddr, p: Datagram, now: nat, ch: Choice)
    requires SlotOk(slot)
    ensures var e := Step(env, slot, Receive(from, Arrival(p), now, ch));
            && SlotOk(e.slot)
            && RoleOf(e.slot) == RoleAfter(Greater(from, env.me), RoleOf(slot), p)
            && (forall q :: q in Packets(e.wire) ==> Reply(RoleOf(slot), RoleOf(e.slot), p, q))
            && Answers(RoleOf(slot), RoleOf(e.slot), p, Packets(e.wire))
            && (PeerRestarted(from) in e.events <==> p.Syn? && RoleOf(slot).Open? && RoleOf(slot).conv != p.conv)
            && (Disconnected(from) in e.events <==> RoleOf(slot) != Absent && RoleOf(e.slot) == Absent)
            && (forall v :: v in e.events ==> v.addr == from)
  {
    hide Step, RoleOf, SlotOk, Answers, Reply;
    ReceiveReplies(env, slot, from, p, now, ch);
    ReceiveAnswers(env, slot, from, p, now, ch);
    ReceiveEvents(env, slot, from, p, now, ch);
  }

  // ----- the invariant -----

  predicate Noise(stale: Option<Conv>, p: Datagram) {
    stale.Some? && ConvOf(p) == stale.value && (p.Reset? || p.Data?)
  }

  /** The slot takes no part in the new handshake yet. */
  predicate Unset(stale: Option<Conv>, role: Role) {
    role == Absent || (role.Open? && stale == Some(role.conv))
  }

  predicate OpenOn(role: Role, conv: Option<Conv>) {
    role.Open? && Some(role.conv) == conv
  }

  /** The id a side has drawn, if any. */
  function Own(e: Endpoint): Option<Conv> {
    if e.drawn == [] then None else Some(e.drawn[0])
  }

  ghost predicate Ids(s: Sys, stale: Option<Conv>) {
    && |s.hi.drawn| <= 1 && |s.lo.drawn| <= 1
    && (forall c :: c in s.hi.drawn || c in s.lo.drawn ==> c in s.used && stale != Some(c))
    && (stale.Some? ==> stale.value in s.used)
    && (s.hi.drawn != [] && s.lo.drawn != [] ==> s.hi.drawn[0] != s.lo.drawn[0])
  }

  /** The roles of the two sides, given the ids they have drawn. */
  predicate Roles(hi: Role, lo: Role, h: Option<Conv>, l: Option<Conv>, stale: Option<Conv>) {
    && (h.Some? ==> hi == Pending(h.value) || hi == Open(h.value))
    && (h.None? ==> Unset(stale, hi) || OpenOn(hi, l))
    && (l.Some? ==> !Unset(stale, lo))
    && (|| Unset(stale, lo)
        || (l.Some? && lo == Pending(l.value))
        || OpenOn(lo, h)
        || (h.None? && OpenOn(lo, l) && OpenOn(hi, l)))
    && (OpenOn(hi, h) ==> !Unset(stale, lo))
  }

  ghost predicate Slots(s: Sys, stale: Option<Conv>) {
    && SlotOk(s.hi.slot) && SlotOk(s.lo.slot)
    && Roles(RoleOf(s.hi.slot), RoleOf(s.lo.slot), Own(s.hi), Own(s.lo), stale)
  }

  /** What may be in flight towards the lower side. */
  predicate ToLo(hi: Role, lo: Role, h: Option<Conv>, l: Option<Conv>, stale: Option<Conv>, p: Datagram) {
    || Noise(stale, p)
    || (Some(ConvOf(p)) == h && (p.Syn? || p.SynAck? || (p.Data? && !Unset(stale, lo))))
    || (h.None? && OpenOn(hi, l) && Some(ConvOf(p)) == l && (p.SynAck? || p.Data?))
  }

  /** What may be in flight towards the higher side. */
  predicate ToHi(hi: Role, lo: Role, h: Option<Conv>, l: Option<Conv>, stale: Option<Conv>, p: Datagram) {
    || Noise(stale, p)
    || (p.Syn? && Some(p.conv) == l && (Unset(stale, hi) || hi.Pending?))
    || (OpenOn(lo, h) && Some(ConvOf(p)) == h && (p.SynAck? || p.Data?))
    || (h.None? && OpenOn(lo, l) && p.Data? && Some(ConvOf(p)) == l)
  }

  ghost predicate MayReachLo(s: Sys, stale: Option<Conv>, p: Datagram) {
    ToLo(RoleOf(s.hi.slot), RoleOf(s.lo.slot), Own(s.hi), Own(s.lo), stale, p)
  }

  ghost predicate MayReachHi(s: Sys, stale: Option<Conv>, p: Datagram) {
    ToHi(RoleOf(s.hi.slot), RoleOf(s.lo.slot), Own(s.hi), Own(s.lo), stale, p)
  }

  ghost predicate Flights(s: Sys, stale: Option<Conv>) {
    && (forall p :: p in s.lo.inbox ==> MayReachLo(s, stale, p))
    && (forall p :: p in s.hi.inbox ==> MayReachHi(s, stale, p))
    && (forall i, j :: 0 <= i < j < |s.hi.inbox| && s.hi.inbox[j].Syn? ==> Noise(stale, s.hi.inbox[i]))
  }

  /** Without a stale conversation no RESET is ever written and no restart is ever announced. */
  ghost predicate Clean(s: Sys, stale: Option<Conv>) {
    stale.None? ==>
      && (forall p :: p in s.hi.sent || p in s.lo.sent ==> !p.Reset?)
      && (forall e :: e in s.hi.events || e in s.lo.events ==> !e.PeerRestarted?)
  }

  ghost predicate Inv(s: Sys, stale: Option<Conv>) {
    Ids(s, stale) && Slots(s, stale) && Flights(s, stale) && Clean(s, stale)
  }

  /**
   The actions of the agreement theorem: in-order delivery, loss, sends, and ticks that
   remove no session and, on the lower side, retransmit no SYN.
   */
  ghost predicate Gentle(net: Net, s: Sys, a: Action)
    requires Enabled(s, a)
  {
    match a
    case Deliver(_, i, _, _) => i == 0
    case Lose(_, _) => true
    case UserSend(_, _, _, _, _) => true
    case Ticks(at, now, ch) =>
      var e := Call(net, s, at, Tick(now, ch));
      && (At(s, at).slot.Some? ==> e.slot.Some?)
      && (at == Lo ==> forall p :: p in Packets(e.wire) ==> !p.Syn?)
    case _ => false
  }

  lemma LoseKeepsInv(net: Net, s: Sys, stale: Option<Conv>, a: Action)
    requires Inv(s, stale) && Enabled(s, a) && a.Lose?
    ensures Inv(Next(net, s, a), stale)
  {
    var s' := Next(net, s, a);
    assert forall p :: p in s.lo.inbox ==> MayReachLo(s, stale, p) == MayReachLo(s', stale, p);
    assert forall p :: p in s.hi.inbox ==> MayReachHi(s, stale, p) == MayReachHi(s', stale, p);
  }

  /** The higher side acts without drawing an id: what is left to check of the invariant. */
  lemma HiTurn(s: Sys, stale: Option<Conv>, me: Endpoint, out: seq<Datagram>)
    requires Inv(s, stale)
    requires me.drawn == s.hi.drawn
    requires me.inbox == s.hi.inbox || (s.hi.inbox != [] && me.inbox == s.hi.inbox[1..])
    requires OpenOn(RoleOf(s.hi.slot), Own(s.lo)) ==> OpenOn(RoleOf(me.slot), Own(s.lo))
    requires (forall p :: p in me.inbox ==> !p.Syn?) || Unset(stale, RoleOf(me.slot)) || RoleOf(me.slot).Pending?
    requires var s' := s.(hi := me, lo := s.lo.(inbox := s.lo.inbox + out));
             Slots(s', stale) && Clean(s', stale) && forall p :: p in out ==> MayReachLo(s', stale, p)
    ensures Inv(s.(hi := me, lo := s.lo.(inbox := s.lo.inbox + out)), stale)
  {
    var s' := s.(hi := me, lo := s.lo.(inbox := s.lo.inbox + out));
    assert Ids(s', stale);
    forall p | p in s'.lo.inbox ensures MayReachLo(s', stale, p) {
      if p !in out { assert MayReachLo(s, stale, p); }
    }
    forall p | p in s'.hi.inbox ensures MayReachHi(s', stale, p) {
      assert MayReachHi(s, stale, p);
    }
  }

  /** The lower side acts without drawing an id. */
  lemma LoTurn(s: Sys, stale: Option<Conv>, me: Endpoint, out: seq<Datagram>)
    requires Inv(s, stale)
    requires me.drawn == s.lo.drawn
    requires me.inbox == s.lo.inbox || (s.lo.inbox != [] && me.inbox == s.lo.inbox[1..])
    requires OpenOn(RoleOf(s.lo.slot), Own(s.hi)) ==> OpenOn(RoleOf(me.slot), Own(s.hi))
    requires OpenOn(RoleOf(s.lo.slot), Own(s.lo)) ==> OpenOn(RoleOf(me.slot), Own(s.lo))
    requires !Unset(stale, RoleOf(s.lo.slot)) ==> !Unset(stale, RoleOf(me.slot))
    requires forall p :: p in out ==> !p.Syn?
    requires var s' := s.(lo := me, hi := s.hi.(inbox := s.hi.inbox + out));
             Slots(s', stale) && Clean(s', stale) && forall p :: p in out ==> MayReachHi(s', stale, p)
    ensures Inv(s.(lo := me, hi := s.hi.(inbox := s.hi.inbox + out)), stale)
  {
    var s' := s.(lo := me, hi := s.hi.(inbox := s.hi.inbox + out));
    assert Ids(s', stale);
    forall p | p in s'.lo.inbox ensures MayReachLo(s', stale, p) {
      assert MayReachLo(s, stale, p);
    }
    forall p | p in s'.hi.inbox ensures MayReachHi(s', stale, p) {
      if p !in out { assert MayReachHi(s, stale, p); }
    }
  }

  /**
   The heart of the invariant, on the higher side: what one datagram can do to the roles.
   A repeated SYN does no harm unless it meets a session Established under another id.
   */
  lemma HiHears(hi: Role, lo: Role, h: Option<Conv>, l: Option<Conv>, stale: Option<Conv>, p: Datagram)
    requires Roles(hi, lo, h, l, stale)
    requires ToHi(hi, lo, h, l, stale, p) || (p.Syn? && Some(p.conv) == l && (hi.Open? ==> hi.conv == p.conv))
    requires (h.Some? ==> h != stale && h != l) && (l.Some? ==> l != stale)
    ensures var after := RoleAfter(false, hi, p);
            && Roles(after, lo, h, l, stale)
            && (OpenOn(hi, l) ==> OpenOn(after, l))
            && (Noise(stale, p) && (Unset(stale, hi) || hi.Pending?) ==> Unset(stale, after) || after.Pending?)
            && (p.Reset? || (p.Data? && hi == Absent) || (p.Syn? && hi.Open? && hi.conv != p.conv) ==> stale.Some?)
            && forall q :: Reply(hi, after, p, q) ==> ToLo(after, lo, h, l, stale, q)
  {
  }

  /** The same on the lower side, which yields in a tie. */
  lemma LoHears(hi: Role, lo: Role, h: Option<Conv>, l: Option<Conv>, stale: Option<Conv>, p: Datagram)
    requires Roles(hi, lo, h, l, stale) && ToLo(hi, lo, h, l, stale, p)
    requires (h.Some? ==> h != stale && h != l) && (l.Some? ==> l != stale)
    ensures var after := RoleAfter(true, lo, p);
            && Roles(hi, after, h, l, stale)
            && (OpenOn(lo, h) ==> OpenOn(after, h))
            && (OpenOn(lo, l) ==> OpenOn(after, l))
            && (!Unset(stale, lo) ==> !Unset(stale, after))
            && (p.Reset? || (p.Data? && lo == Absent) || (p.Syn? && lo.Open? && lo.conv != p.conv) ==> stale.Some?)
            && forall q :: Reply(lo, after, p, q) ==> ToHi(hi, after, h, l, stale, q)
  {
  }

  lemma LaterSyns(s: Sys, stale: Option<Conv>)
    requires Inv(s, stale) && s.hi.inbox != []
    ensures forall p :: p in s.hi.inbox[1..] && p.Syn? ==>
              Noise(stale, s.hi.inbox[0]) && (Unset(stale, RoleOf(s.hi.slot)) || RoleOf(s.hi.slot).Pending?)
  {
    forall p | p in s.hi.inbox[1..] && p.Syn?
      ensures Noise(stale, s.hi.inbox[0]) && (Unset(stale, RoleOf(s.hi.slot)) || RoleOf(s.hi.slot).Pending?)
    {
      var j :| 0 <= j < |s.hi.inbox| - 1 && s.hi.inbox[1..][j] == p;
      assert s.hi.inbox[j + 1] == p && p in s.hi.inbox;
      assert MayReachHi(s, stale, p);
    }
  }

  lemma HiReceives(net: Net, s: Sys, stale: Option<Conv>, now: nat, ch: Choice)
    requires NetOk(net) && Inv(s, stale) && s.hi.inbox != []
    ensures Inv(Next(net, s, Deliver(Hi, 0, now, ch)), stale)
  {
    OneWins(net);
    var p := s.hi.inbox[0];
    var e := Arrive(net, s, Hi, p, now, ch);
    ReceiveRole(Env(net.hi, net.cfg), s.hi.slot, net.lo, p, now, ch);
    assert MayReachHi(s, stale, p);
    HiHears(RoleOf(s.hi.slot), RoleOf(s.lo.slot), Own(s.hi), Own(s.lo), stale, p);
    LaterSyns(s, stale);
    hide Step, RoleOf, SlotOk, Roles, RoleAfter;
    var s' := Next(net, s, Deliver(Hi, 0, now, ch));
    assert s'.hi.inbox == s.hi.inbox[1..];
    HiTurn(s, stale, s'.hi, Packets(e.wire));
  }

  lemma LoReceives(net: Net, s: Sys, stale: Option<Conv>, now: nat, ch: Choice)
    requires NetOk(net) && Inv(s, stale) && s.lo.inbox != []
    ensures Inv(Next(net, s, Deliver(Lo, 0, now, ch)), stale)
  {
    OneWins(net);
    var p := s.lo.inbox[0];
    var e := Arrive(net, s, Lo, p, now, ch);
    ReceiveRole(Env(net.lo, net.cfg), s.lo.slot, net.hi, p, now, ch);
    assert MayReachLo(s, stale, p);
    LoHears(RoleOf(s.hi.slot), RoleOf(s.lo.slot), Own(s.hi), Own(s.lo), stale, p);
    hide Step, RoleOf, SlotOk, Roles, RoleAfter, ToLo;
    var s' := Next(net, s, Deliver(Lo, 0, now, ch));
    assert s'.lo.inbox == s.lo.inbox[1..];
    LoTurn(s, stale, s'.lo, Packets(e.wire));
  }

  // ----- sends and ticks -----

  /** What a node writes of its own accord. */
  predicate Chatter(role: Role, q: Datagram) {
    (q.Data? && role == Open(q.frame.conv)) || (q.Syn? && role == Pending(q.conv))
  }

  lemma SendRole(env: Env, slot: Option<SessionView>, to: SocketAddr, data: Bytes, drawn: Conv, now: nat, ch: Choice)
    requires SlotOk(slot)
    ensures var e := Step(env, slot, Send(to, data, drawn, now, ch));
            && SlotOk(e.slot) && e.events == []
            && (slot.None? ==> RoleOf(e.slot) == Pending(drawn) && Packets(e.wire) == [Syn(drawn)])
            && (slot.Some? ==>
                  && RoleOf(e.slot) == RoleOf(slot)
                  && forall q :: q in Packets(e.wire) ==> q.Data? && Chatter(RoleOf(slot), q))
  {
    WireLicensed(env, slot, Send(to, data, drawn, now, ch));
    hide Flush, SessionOk;
  }

  lemma TickRole(env: Env, slot: Option<SessionView>, now: nat, ch: Choice)
    requires SlotOk(slot)
    requires slot.Some? ==> Step(env, slot, Tick(now, ch)).slot.Some?
    ensures var e := Step(env, slot, Tick(now, ch));
            && SlotOk(e.slot) && e.events == [] && RoleOf(e.slot) == RoleOf(slot)
            && forall q :: q in Packets(e.wire) ==> Chatter(RoleOf(slot), q)
  {
    WireLicensed(env, slot, Tick(now, ch));
    hide Flush, SessionOk, Backoff;
  }

  lemma Speaks(hi: Role, lo: Role, h: Option<Conv>, l: Option<Conv>, stale: Option<Conv>, q: Datagram)
    requires Roles(hi, lo, h, l, stale)
    ensures Chatter(hi, q) ==> ToLo(hi, lo, h, l, stale, q)
    ensures Chatter(lo, q) && !q.Syn? ==> ToHi(hi, lo, h, l, stale, q)
  {
  }

  lemma Draws(hi: Role, lo: Role, h: Option<Conv>, l: Option<Conv>, stale: Option<Conv>, drawn: Conv)
    requires Roles(hi, lo, h, l, stale)
    requires stale != Some(drawn) && h != Some(drawn) && l != Some(drawn)
    ensures hi == Absent ==>
              && h.None? && Roles(Pending(drawn), lo, Some(drawn), l, stale)
              && (forall q :: ToLo(hi, lo, h, l, stale, q) ==> Noise(stale, q))
              && (forall q :: ToHi(hi, lo, h, l, stale, q) ==> ToHi(Pending(drawn), lo, Some(drawn), l, stale, q))
    ensures lo == Absent ==>
              && l.None? && Roles(hi, Pending(drawn), h, Some(drawn), stale)
              && (forall q :: ToHi(hi, lo, h, l, stale, q) ==> Noise(stale, q))
              && (forall q :: ToLo(hi, lo, h, l, stale, q) ==> ToLo(hi, Pending(drawn), h, Some(drawn), stale, q))
              && (Unset(stale, hi) || hi.Pending?)
  {
  }

  lemma HiDraws(net: Net, s: Sys, stale: Option<Conv>, a: Action)
    requires Inv(s, stale) && Enabled(s, a) && a.UserSend? && a.at == Hi && s.hi.slot.None?
    ensures Inv(Next(net, s, a), stale)
  {
    SendRole(Env(net.hi, net.cfg), None, net.lo, a.data, a.drawn, a.now, a.ch);
    Draws(RoleOf(s.hi.slot), RoleOf(s.lo.slot), Own(s.hi), Own(s.lo), stale, a.drawn);
    hide Step, RoleOf, SlotOk, Roles, ToLo, ToHi;
    var s' := Next(net, s, a);
    assert Own(s'.hi) == Some(a.drawn) && Own(s'.lo) == Own(s.lo);
    forall p | p in s'.lo.inbox ensures MayReachLo(s', stale, p) {
      if p in s.lo.inbox {
        assert MayReachLo(s, stale, p);
        NoiseReaches(s', stale, p);
      } else {
        Speaks(RoleOf(s'.hi.slot), RoleOf(s'.lo.slot), Own(s'.hi), Own(s'.lo), stale, p);
      }
    }
    forall p | p in s'.hi.inbox ensures MayReachHi(s', stale, p) {
      assert MayReachHi(s, stale, p);
    }
  }

  lemma NoiseReaches(s: Sys, stale: Option<Conv>, p: Datagram)
    requires Noise(stale, p)
    ensures MayReachLo(s, stale, p) && MayReachHi(s, stale, p)
  {
  }

  lemma LoDraws(net: Net, s: Sys, stale: Option<Conv>, a: Action)
    requires Inv(s, stale) && Enabled(s, a) && a.UserSend? && a.at == Lo && s.lo.slot.None?
    ensures Inv(Next(net, s, a), stale)
  {
    SendRole(Env(net.lo, net.cfg), None, net.hi, a.data, a.drawn, a.now, a.ch);
    Draws(RoleOf(s.hi.slot), RoleOf(s.lo.slot), Own(s.hi), Own(s.lo), stale, a.drawn);
    var s' := Next(net, s, a);
    forall p | p in s.hi.inbox ensures Noise(stale, p) {
      assert MayReachHi(s, stale, p);
    }
    assert MayReachHi(s', stale, Syn(a.drawn));
    hide Step, RoleOf, SlotOk, Roles, ToLo, ToHi;
    forall p | p in s'.hi.inbox ensures MayReachHi(s', stale, p) {
      if p in s.hi.inbox { NoiseReaches(s', stale, p); }
    }
    forall p | p in s'.lo.inbox ensures MayReachLo(s', stale, p) {
      assert MayReachLo(s, stale, p);
    }
  }

  /** A send on an existing session or a tick that removes nothing. */
  predicate Chat(net: Net, s: Sys, a: Action) {
    match a
    case UserSend(at, _, _, _, _) => At(s, at).slot.Some?
    case Ticks(at, now, ch) => At(s, at).slot.Some? ==> Call(net, s, at, Tick(now, ch)).slot.Some?
    case _ => false
  }

  function Uttered(net: Net, s: Sys, a: Action): seq<Datagram>
    requires Chat(net, s, a)
  {
    var op := if a.UserSend? then Send(AddrOf(net, Other(a.at)), a.data, a.drawn, a.now, a.ch) else Tick(a.now, a.ch);
    Packets(Call(net, s, a.at, op).wire)
  }

  /** It changes neither role and fires nothing; what it writes suits its own role. */
  lemma ChatMeans(net: Net, s: Sys, a: Action)
    requires Enabled(s, a) && Chat(net, s, a) && SlotOk(At(s, a.at).slot)
    ensures var me, out, t := At(s, a.at), Uttered(net, s, a), Next(net, s, a);
            && SlotOk(At(t, a.at).slot) && RoleOf(At(t, a.at).slot) == RoleOf(me.slot)
            && At(t, a.at) == me.(slot := At(t, a.at).slot, sent := me.sent + out)
            && At(t, Other(a.at)) == At(s, Other(a.at)).(inbox := At(s, Other(a.at)).inbox + out)
            && t.used == s.used
            && forall q :: q in out ==> Chatter(RoleOf(me.slot), q) && (a.UserSend? ==> q.Data?)
  {
    var me := At(s, a.at);
    var env := Env(AddrOf(net, a.at), net.cfg);
    if a.UserSend? {
      SendRole(env, me.slot, AddrOf(net, Other(a.at)), a.data, a.drawn, a.now, a.ch);
    } else {
      TickRole(env, me.slot, a.now, a.ch);
    }
    hide Step, SlotOk, RoleOf, Chatter;
    assert me.events + [] == me.events;
  }

  lemma SpeaksOn(net: Net, s: Sys, stale: Option<Conv>, a: Action)
    requires Inv(s, stale) && Enabled(s, a) && Gentle(net, s, a) && Chat(net, s, a)
    ensures Inv(Next(net, s, a), stale)
  {
    ChatMeans(net, s, a);
    var out := Uttered(net, s, a);
    assert a.at == Lo ==> forall q :: q in out ==> !q.Syn?;
    hide Next, SlotOk, Roles, RoleOf, Gentle, Chat, Uttered;
    var s' := Next(net, s, a);
    forall q | q in out
      ensures a.at == Hi ==> MayReachLo(s', stale, q)
      ensures a.at == Lo ==> MayReachHi(s', stale, q)
    {
      Speaks(RoleOf(s'.hi.slot), RoleOf(s'.lo.slot), Own(s'.hi), Own(s'.lo), stale, q);
    }
    hide ToLo, ToHi, Unset;
    if a.at == Hi {
      forall p | p in s.hi.inbox && p.Syn? ensures Unset(stale, RoleOf(s.hi.slot)) || RoleOf(s.hi.slot).Pending? {
        SynMeans(s, stale, p);
      }
      HiTurn(s, stale, s'.hi, out);
    } else {
      LoTurn(s, stale, s'.lo, out);
    }
  }

  lemma SynMeans(s: Sys, stale: Option<Conv>, p: Datagram)
    requires MayReachHi(s, stale, p) && p.Syn?
    ensures Unset(stale, RoleOf(s.hi.slot)) || RoleOf(s.hi.slot).Pending?
  {
  }

  lemma GentleKeepsInv(net: Net, s: Sys, stale: Option<Conv>, a: Action)
    requires NetOk(net) && Inv(s, stale) && Enabled(s, a) && Gentle(net, s, a)
    ensures Inv(Next(net, s, a), stale)
  {
    hide Next, Inv;
    match a
    case Deliver(to, i, now, ch) =>
      if to == Hi {
        HiReceives(net, s, stale, now, ch);
      } else {
        LoReceives(net, s, stale, now, ch);
      }
    case Lose(to, i) => LoseKeepsInv(net, s, stale, a);
    case UserSend(at, data, drawn, now, ch) =>
      if At(s, at).slot.Some? { SpeaksOn(net, s, stale, a); }
      else if at == Hi { HiDraws(net, s, stale, a); }
      else { LoDraws(net, s, stale, a); }
    case Ticks(at, now, ch) => SpeaksOn(net, s, stale, a);
  }

  // ----- agreement -----

  ghost predicate AllGentle(net: Net, s: Sys, run: seq<Action>)
    requires CanRun(net, s, run)
    decreases run
  {
    run == [] || (Gentle(net, s, run[0]) && AllGentle(net, Next(net, s, run[0]), run[1..]))
  }

  lemma {:induction false} RunKeepsInv(net: Net, s: Sys, stale: Option<Conv>, run: seq<Action>)
    requires NetOk(net) && Inv(s, stale) && CanRun(net, s, run) && AllGentle(net, s, run)
    ensures Inv(Run(net, s, run), stale)
    decreases run
  {
    hide Next, Inv;
    if run != [] {
      GentleKeepsInv(net, s, stale, run[0]);
      RunKeepsInv(net, Next(net, s, run[0]), stale, run[1..]);
    }
  }

  /**
   Simultaneous-open agreement: in every run over in-order lossy channels without
   removals, with SYN retransmission by the higher side only, whenever both sides are
   Established they hold the same conversation id, and neither ever announces a restart.
   */
  lemma {:induction false} Agreement(net: Net, run: seq<Action>)
    requires NetOk(net) && CanRun(net, Start(), run) && AllGentle(net, Start(), run)
    ensures var s := Run(net, Start(), run);
            && (RoleOf(s.hi.slot).Open? && RoleOf(s.lo.slot).Open? ==> s.hi.slot.value.conv == s.lo.slot.value.conv)
            && forall e :: e in s.hi.events || e in s.lo.events ==> !e.PeerRestarted?
  {
    RunKeepsInv(net, Start(), None, run);
  }
}
