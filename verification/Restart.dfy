/**
 Agreement over an arbitrary network, which may lose, duplicate and reorder, with both
 sides free to retransmit their SYNs. What decides is one branch: a SYN that meets a
 session Established under another id is taken for a restart of the peer.
 */
module Restart {
  import opened Base
  import opened Addr
  import opened KcpModel
  import opened Machine
  import opened Network
  import opened Handshake

  // ----- restarts and collisions -----

  predicate Clashes(slot: Option<SessionView>, p: Datagram) {
    slot.Some? && slot.value.state == Established && p.Syn? && p.conv != slot.value.conv
  }

  /** The datagram that an action brings to side `x`, if it brings one. */
  function Brought(s: Sys, a: Action, x: Side): Option<Datagram>
    requires Enabled(s, a)
  {
    match a
    case Deliver(to, i, _, _) => if to == x then Some(At(s, x).inbox[i]) else None
    case Replay(to, i, _, _) => if to == x then Some(At(s, Other(x)).sent[i]) else None
    case _ => None
  }

  /** The action brings `x` a SYN while it is Established under another id. */
  predicate ClashesAt(s: Sys, a: Action, x: Side)
    requires Enabled(s, a)
  {
    Brought(s, a, x).Some? && Clashes(At(s, x).slot, Brought(s, a, x).value)
  }

  predicate Collides(s: Sys, a: Action)
    requires Enabled(s, a)
  {
    ClashesAt(s, a, Hi) || ClashesAt(s, a, Lo)
  }

  predicate Collided(net: Net, s: Sys, run: seq<Action>)
    requires CanRun(net, s, run)
    decreases run
  {
    run != [] && (Collides(s, run[0]) || Collided(net, Next(net, s, run[0]), run[1..]))
  }

  predicate Announces(events: seq<Event>) {
    exists e :: e in events && e.PeerRestarted?
  }

  /** One of the nodes has announced a restart of its peer. */
  predicate Announced(s: Sys) {
    Announces(s.hi.events) || Announces(s.lo.events)
  }

  lemma AnnouncesConcat(a: seq<Event>, b: seq<Event>)
    ensures Announces(a + b) <==> Announces(a) || Announces(b)
  {
    if e :| e in a && e.PeerRestarted? { assert e in a + b; }
    if e :| e in b && e.PeerRestarted? { assert e in a + b; }
  }

  lemma ReceiveAnnounces(env: Env, slot: Option<SessionView>, from: SocketAddr, p: Datagram, now: nat, ch: Choice)
    ensures Announces(Step(env, slot, Receive(from, Arrival(p), now, ch)).events) <==> Clashes(slot, p)
  {
    ReceiveEvents(env, slot, from, p, now, ch);
    var events := Step(env, slot, Receive(from, Arrival(p), now, ch)).events;
    hide Step;
    if Announces(events) {
      var e :| e in events && e.PeerRestarted?;
      assert e == PeerRestarted(from);
    }
  }

  lemma OthersAnnounceNothing(env: Env, slot: Option<SessionView>, op: SlotOp)
    requires !op.Receive?
    ensures !Announces(Step(env, slot, op).events)
  {
    hide Touch, Flush;
  }

  lemma StepAnnounces(net: Net, s: Sys, a: Action)
    requires Enabled(s, a)
    ensures Announced(Next(net, s, a)) <==> Announced(s) || Collides(s, a)
  {
    hide Step, Announces, Clashes;
    match a
    case Deliver(to, i, now, ch) => ArriveAnnounces(net, s, to, At(s, to).inbox[i], now, ch);
    case Replay(to, i, now, ch) => ArriveAnnounces(net, s, to, At(s, Other(to)).sent[i], now, ch);
    case UserSend(at, data, drawn, now, ch) =>
      CallAnnounces(net, s, at, Send(AddrOf(net, Other(at)), data, drawn, now, ch));
    case UserDisconnect(at) => CallAnnounces(net, s, at, Disconnect(AddrOf(net, Other(at))));
    case Ticks(at, now, ch) => CallAnnounces(net, s, at, Tick(now, ch));
    case Shutdown(at) => assert At(s, at).events + [] == At(s, at).events;
    case _ =>
  }

  lemma ArriveAnnounces(net: Net, s: Sys, x: Side, p: Datagram, now: nat, ch: Choice)
    ensures Announces(At(s, x).events + Arrive(net, s, x, p, now, ch).events) <==>
            Announces(At(s, x).events) || Clashes(At(s, x).slot, p)
  {
    ReceiveAnnounces(Env(AddrOf(net, x), net.cfg), At(s, x).slot, AddrOf(net, Other(x)), p, now, ch);
    AnnouncesConcat(At(s, x).events, Arrive(net, s, x, p, now, ch).events);
  }

  lemma CallAnnounces(net: Net, s: Sys, x: Side, op: SlotOp)
    requires !op.Receive?
    ensures Announces(At(s, x).events + Call(net, s, x, op).events) <==> Announces(At(s, x).events)
  {
    OthersAnnounceNothing(Env(AddrOf(net, x), net.cfg), At(s, x).slot, op);
    AnnouncesConcat(At(s, x).events, Call(net, s, x, op).events);
  }

  /**
   In every run, with any actions at all, a restart of the peer is announced exactly if a
   SYN reached a session Established under another id; nothing else is compared.
   */
  lemma {:induction false} RestartsAreCollisions(net: Net, s: Sys, run: seq<Action>)
    requires CanRun(net, s, run)
    ensures Announced(Run(net, s, run)) <==> Announced(s) || Collided(net, s, run)
    decreases run
  {
    hide Next, Announced, Collides;
    if run != [] {
      StepAnnounces(net, s, run[0]);
      RestartsAreCollisions(net, Next(net, s, run[0]), run[1..]);
    }
  }

  // ----- runs without removals -----

  /** No node crashes, shuts down or disconnects, and no tick removes a session. */
  predicate Lasting(net: Net, s: Sys, a: Action)
    requires Enabled(s, a)
  {
    match a
    case Ticks(at, now, ch) => At(s, at).slot.Some? ==> Call(net, s, at, Tick(now, ch)).slot.Some?
    case UserDisconnect(_) => false
    case Crash(_) => false
    case Shutdown(_) => false
    case _ => true
  }

  predicate AllLasting(net: Net, s: Sys, run: seq<Action>)
    requires CanRun(net, s, run)
    decreases run
  {
    run == [] || (Lasting(net, s, run[0]) && AllLasting(net, Next(net, s, run[0]), run[1..]))
  }

  /** Some action brings the higher side a SYN while it is Established under another id. */
  predicate HiClashed(net: Net, s: Sys, run: seq<Action>)
    requires CanRun(net, s, run)
    decreases run
  {
    run != [] && (ClashesAt(s, run[0], Hi) || HiClashed(net, Next(net, s, run[0]), run[1..]))
  }

  predicate HearsSyn(s: Sys, a: Action)
    requires Enabled(s, a)
  {
    Brought(s, a, Lo).Some? && Brought(s, a, Lo).value.Syn?
  }

  /** Some action brings the lower side a SYN. */
  predicate LoHeard(net: Net, s: Sys, run: seq<Action>)
    requires CanRun(net, s, run)
    decreases run
  {
    run != [] && (HearsSyn(s, run[0]) || LoHeard(net, Next(net, s, run[0]), run[1..]))
  }

  // ----- what the roles remember -----

  /**
   The roles of the two sides, given the ids `h` and `l` they have drawn. They remember what
   decides on agreement: the higher side holds `l` although it drew `h` just if a SYN has
   `clashed` there, and the lower side holds `h` just if it has `heard` a SYN.
   */
  predicate Fates(hi: Role, lo: Role, h: Option<Conv>, l: Option<Conv>, clashed: bool, heard: bool) {
    && (h.Some? ==> h != l && (hi == Pending(h.value) || OpenOn(hi, h) || OpenOn(hi, l)))
    && (h.None? ==> hi == Absent || OpenOn(hi, l))
    && (l.Some? ==> lo == Pending(l.value) || OpenOn(lo, h) || OpenOn(lo, l))
    && (l.None? ==> lo == Absent || OpenOn(lo, h))
    && (clashed <==> h.Some? && OpenOn(hi, l))
    && (heard <==> OpenOn(lo, h))
    && (OpenOn(lo, l) ==> OpenOn(hi, l))
    && (hi.Open? ==> lo != Absent)
  }

  /** What the lower side may ever hear. */
  predicate ForLo(hi: Role, lo: Role, h: Option<Conv>, l: Option<Conv>, p: Datagram) {
    || (p.Syn? && Some(p.conv) == h)
    || ((p.SynAck? || p.Data?) && lo != Absent && (Some(ConvOf(p)) == h || (Some(ConvOf(p)) == l && OpenOn(hi, l))))
  }

  /** What the higher side may ever hear. */
  predicate ForHi(hi: Role, lo: Role, h: Option<Conv>, l: Option<Conv>, p: Datagram) {
    || (p.Syn? && Some(p.conv) == l)
    || ((p.SynAck? || p.Data?) && Some(ConvOf(p)) == h && OpenOn(lo, h))
    || (p.Data? && Some(ConvOf(p)) == l && OpenOn(hi, l))
  }

  /** A datagram at the higher side; `q` is any other datagram under way. */
  lemma HiFate(hi: Role, lo: Role, h: Option<Conv>, l: Option<Conv>, clashed: bool, heard: bool, p: Datagram)
    requires Fates(hi, lo, h, l, clashed, heard) && ForHi(hi, lo, h, l, p)
    ensures var after := RoleAfter(false, hi, p);
            && Fates(after, lo, h, l, clashed || (p.Syn? && hi.Open? && hi.conv != p.conv), heard)
            && (forall q :: Reply(hi, after, p, q) ==> ForLo(after, lo, h, l, q))
            && (forall q :: ForLo(hi, lo, h, l, q) ==> ForLo(after, lo, h, l, q))
            && (forall q :: ForHi(hi, lo, h, l, q) ==> ForHi(after, lo, h, l, q))
  {
  }

  lemma LoFate(hi: Role, lo: Role, h: Option<Conv>, l: Option<Conv>, clashed: bool, heard: bool, p: Datagram)
    requires Fates(hi, lo, h, l, clashed, heard) && ForLo(hi, lo, h, l, p)
    ensures var after := RoleAfter(true, lo, p);
            && Fates(hi, after, h, l, clashed, heard || p.Syn?)
            && (forall q :: Reply(lo, after, p, q) ==> ForHi(hi, after, h, l, q))
            && (forall q :: ForLo(hi, lo, h, l, q) ==> ForLo(hi, after, h, l, q))
            && (forall q :: ForHi(hi, lo, h, l, q) ==> ForHi(hi, after, h, l, q))
  {
  }

  lemma DrawFate(hi: Role, lo: Role, h: Option<Conv>, l: Option<Conv>, clashed: bool, heard: bool, drawn: Conv)
    requires Fates(hi, lo, h, l, clashed, heard) && h != Some(drawn) && l != Some(drawn)
    ensures hi == Absent ==>
              && h.None? && Fates(Pending(drawn), lo, Some(drawn), l, clashed, heard)
              && (forall q :: ForLo(hi, lo, h, l, q) ==> ForLo(Pending(drawn), lo, Some(drawn), l, q))
              && (forall q :: ForHi(hi, lo, h, l, q) ==> ForHi(Pending(drawn), lo, Some(drawn), l, q))
    ensures lo == Absent ==>
              && l.None? && Fates(hi, Pending(drawn), h, Some(drawn), clashed, heard)
              && (forall q :: ForLo(hi, lo, h, l, q) ==> ForLo(hi, Pending(drawn), h, Some(drawn), q))
              && (forall q :: ForHi(hi, lo, h, l, q) ==> ForHi(hi, Pending(drawn), h, Some(drawn), q))
  {
  }

  lemma ChatterFate(hi: Role, lo: Role, h: Option<Conv>, l: Option<Conv>, clashed: bool, heard: bool, q: Datagram)
    requires Fates(hi, lo, h, l, clashed, heard)
    ensures Chatter(hi, q) ==> ForLo(hi, lo, h, l, q)
    ensures Chatter(lo, q) ==> ForHi(hi, lo, h, l, q)
  {
  }

  // ----- the same of the system -----

  ghost predicate FatesOf(s: Sys, clashed: bool, heard: bool) {
    Fates(RoleOf(s.hi.slot), RoleOf(s.lo.slot), Own(s.hi), Own(s.lo), clashed, heard)
  }

  ghost predicate MayHear(s: Sys, x: Side, p: Datagram) {
    if x == Hi then ForHi(RoleOf(s.hi.slot), RoleOf(s.lo.slot), Own(s.hi), Own(s.lo), p)
    else ForLo(RoleOf(s.hi.slot), RoleOf(s.lo.slot), Own(s.hi), Own(s.lo), p)
  }

  /** Nothing arrives at `x` that was not sent there, and whatever was sent there may be heard at any time. */
  ghost predicate Channel(s: Sys, x: Side) {
    && (forall p :: p in At(s, Other(x)).sent ==> MayHear(s, x, p))
    && (forall p :: p in At(s, x).inbox ==> p in At(s, Other(x)).sent)
  }

  ghost predicate Sound(s: Sys, clashed: bool, heard: bool) {
    && Ids(s, None) && SlotOk(s.hi.slot) && SlotOk(s.lo.slot)
    && FatesOf(s, clashed, heard) && Channel(s, Hi) && Channel(s, Lo)
  }

  /** Side `x` acts, writing `out`: what keeps the channels in order. */
  lemma ChannelsStay(s: Sys, s': Sys, x: Side, out: seq<Datagram>)
    requires Channel(s, Hi) && Channel(s, Lo)
    requires At(s', x).sent == At(s, x).sent + out && At(s', Other(x)).sent == At(s, Other(x)).sent
    requires forall p :: p in At(s', x).inbox ==> p in At(s, x).inbox
    requires At(s', Other(x)).inbox == At(s, Other(x)).inbox + out
    requires forall p :: p in out ==> MayHear(s', Other(x), p)
    requires forall y, p :: MayHear(s, y, p) ==> MayHear(s', y, p)
    ensures Channel(s', Hi) && Channel(s', Lo)
  {
    hide MayHear;
  }

  /** Side `x` acts without drawing an id. */
  lemma TurnSoundly(s: Sys, clashed: bool, heard: bool, s': Sys, clashed': bool, heard': bool,
                    x: Side, out: seq<Datagram>)
    requires Sound(s, clashed, heard) && s'.used == s.used
    requires At(s', x).drawn == At(s, x).drawn && At(s', x).sent == At(s, x).sent + out
    requires forall p :: p in At(s', x).inbox ==> p in At(s, x).inbox
    requires At(s', Other(x)) == At(s, Other(x)).(inbox := At(s, Other(x)).inbox + out)
    requires SlotOk(At(s', x).slot) && FatesOf(s', clashed', heard')
    requires forall p :: p in out ==> MayHear(s', Other(x), p)
    requires forall y, p :: MayHear(s, y, p) ==> MayHear(s', y, p)
    ensures Sound(s', clashed', heard')
  {
    ChannelsStay(s, s', x, out);
    hide Channel, FatesOf, MayHear, SlotOk;
  }

  lemma HiGetsSoundly(net: Net, s: Sys, clashed: bool, heard: bool, p: Datagram, inbox: seq<Datagram>,
                      now: nat, ch: Choice)
    requires NetOk(net) && Sound(s, clashed, heard) && p in s.lo.sent
    requires forall q :: q in inbox ==> q in s.hi.inbox
    ensures Sound(Apply(s, Hi, Arrive(net, s, Hi, p, now, ch), inbox), clashed || Clashes(s.hi.slot, p), heard)
  {
    OneWins(net);
    var e := Arrive(net, s, Hi, p, now, ch);
    ReceiveRole(Env(net.hi, net.cfg), s.hi.slot, net.lo, p, now, ch);
    assert MayHear(s, Hi, p);
    HiFate(RoleOf(s.hi.slot), RoleOf(s.lo.slot), Own(s.hi), Own(s.lo), clashed, heard, p);
    assert Clashes(s.hi.slot, p) <==> p.Syn? && RoleOf(s.hi.slot).Open? && RoleOf(s.hi.slot).conv != p.conv;
    hide Step, RoleOf, SlotOk, Fates, ForLo, ForHi, RoleAfter, Reply, Clashes, Sound;
    var s' := Apply(s, Hi, e, inbox);
    TurnSoundly(s, clashed, heard, s', clashed || Clashes(s.hi.slot, p), heard, Hi, Packets(e.wire));
  }

  lemma LoGetsSoundly(net: Net, s: Sys, clashed: bool, heard: bool, p: Datagram, inbox: seq<Datagram>,
                      now: nat, ch: Choice)
    requires NetOk(net) && Sound(s, clashed, heard) && p in s.hi.sent
    requires forall q :: q in inbox ==> q in s.lo.inbox
    ensures Sound(Apply(s, Lo, Arrive(net, s, Lo, p, now, ch), inbox), clashed, heard || p.Syn?)
  {
    OneWins(net);
    var e := Arrive(net, s, Lo, p, now, ch);
    ReceiveRole(Env(net.lo, net.cfg), s.lo.slot, net.hi, p, now, ch);
    assert MayHear(s, Lo, p);
    LoFate(RoleOf(s.hi.slot), RoleOf(s.lo.slot), Own(s.hi), Own(s.lo), clashed, heard, p);
    hide Step, RoleOf, SlotOk, Fates, ForLo, ForHi, RoleAfter, Reply, Sound;
    TurnSoundly(s, clashed, heard, Apply(s, Lo, e, inbox), clashed, heard || p.Syn?, Lo, Packets(e.wire));
  }

  lemma GetsSoundly(net: Net, s: Sys, clashed: bool, heard: bool, x: Side, p: Datagram, inbox: seq<Datagram>,
                    now: nat, ch: Choice)
    requires NetOk(net) && Sound(s, clashed, heard) && p in At(s, Other(x)).sent
    requires forall q :: q in inbox ==> q in At(s, x).inbox
    ensures Sound(Apply(s, x, Arrive(net, s, x, p, now, ch), inbox),
                  clashed || (x == Hi && Clashes(s.hi.slot, p)), heard || (x == Lo && p.Syn?))
  {
    hide Arrive, Sound, Apply, Clashes;
    if x == Hi {
      HiGetsSoundly(net, s, clashed, heard, p, inbox, now, ch);
    } else {
      LoGetsSoundly(net, s, clashed, heard, p, inbox, now, ch);
    }
  }

  lemma OpensSoundly(net: Net, s: Sys, clashed: bool, heard: bool, a: Action)
    requires Sound(s, clashed, heard) && Enabled(s, a) && a.UserSend? && At(s, a.at).slot.None?
    ensures Sound(Next(net, s, a), clashed, heard)
  {
    SendRole(Env(AddrOf(net, a.at), net.cfg), None, AddrOf(net, Other(a.at)), a.data, a.drawn, a.now, a.ch);
    DrawFate(RoleOf(s.hi.slot), RoleOf(s.lo.slot), Own(s.hi), Own(s.lo), clashed, heard, a.drawn);
    var s' := Next(net, s, a);
    ChatterFate(RoleOf(s'.hi.slot), RoleOf(s'.lo.slot), Own(s'.hi), Own(s'.lo), clashed, heard, Syn(a.drawn));
    hide Step, SlotOk, Fates, ForLo, ForHi, Channel;
    ChannelsStay(s, s', a.at, [Syn(a.drawn)]);
  }

  lemma ChatsSoundly(net: Net, s: Sys, clashed: bool, heard: bool, a: Action)
    requires Sound(s, clashed, heard) && Enabled(s, a) && Chat(net, s, a)
    ensures Sound(Next(net, s, a), clashed, heard)
  {
    ChatMeans(net, s, a);
    var s', out := Next(net, s, a), Uttered(net, s, a);
    hide Next, Chat, Uttered, SlotOk, RoleOf, Fates, ForLo, ForHi, Channel, Ids;
    assert FatesOf(s', clashed, heard);
    forall q | q in out ensures MayHear(s', Other(a.at), q) {
      ChatterFate(RoleOf(s'.hi.slot), RoleOf(s'.lo.slot), Own(s'.hi), Own(s'.lo), clashed, heard, q);
    }
    hide Sound, Chatter;
    TurnSoundly(s, clashed, heard, s', clashed, heard, a.at, out);
  }

  lemma LosesSoundly(net: Net, s: Sys, clashed: bool, heard: bool, a: Action)
    requires Sound(s, clashed, heard) && Enabled(s, a) && a.Lose?
    ensures Sound(Next(net, s, a), clashed, heard)
  {
    var s' := Next(net, s, a);
    hide RoleOf, SlotOk, Fates, ForLo, ForHi, Channel;
    ChannelsStay(s, s', a.to, []);
  }

  lemma StaysSound(net: Net, s: Sys, clashed: bool, heard: bool, a: Action)
    requires NetOk(net) && Sound(s, clashed, heard) && Enabled(s, a) && Lasting(net, s, a)
    ensures Sound(Next(net, s, a), clashed || ClashesAt(s, a, Hi), heard || HearsSyn(s, a))
  {
    match a
    case Deliver(to, i, now, ch) =>
      assert At(s, to).inbox[i] in At(s, Other(to)).sent;
      GetsSoundly(net, s, clashed, heard, to, At(s, to).inbox[i], Remove(At(s, to).inbox, i), now, ch);
    case Replay(to, i, now, ch) =>
      GetsSoundly(net, s, clashed, heard, to, At(s, Other(to)).sent[i], At(s, to).inbox, now, ch);
    case Lose(_, _) => LosesSoundly(net, s, clashed, heard, a);
    case UserSend(at, _, _, _, _) =>
      if At(s, at).slot.Some? {
        ChatsSoundly(net, s, clashed, heard, a);
      } else {
        OpensSoundly(net, s, clashed, heard, a);
      }
    case Ticks(_, _, _) => ChatsSoundly(net, s, clashed, heard, a);
  }

  lemma {:induction false} RunStaysSound(net: Net, s: Sys, clashed: bool, heard: bool, run: seq<Action>)
    requires NetOk(net) && Sound(s, clashed, heard) && CanRun(net, s, run) && AllLasting(net, s, run)
    ensures Sound(Run(net, s, run), clashed || HiClashed(net, s, run), heard || LoHeard(net, s, run))
    decreases run
  {
    hide Next, Sound, Lasting, ClashesAt, HearsSyn;
    if run != [] {
      var a := run[0];
      StaysSound(net, s, clashed, heard, a);
      RunStaysSound(net, Next(net, s, a), clashed || ClashesAt(s, a, Hi), heard || HearsSyn(s, a), run[1..]);
    }
  }

  // ----- agreement -----

  /** If both sides are Established, they hold the same conversation id. */
  predicate Agreed(s: Sys) {
    RoleOf(s.hi.slot).Open? && RoleOf(s.lo.slot).Open? ==> s.hi.slot.value.conv == s.lo.slot.value.conv
  }

  lemma SoundAgreement(s: Sys, clashed: bool, heard: bool)
    requires Sound(s, clashed, heard)
    ensures Agreed(s) <==> !(clashed && heard)
  {
  }

  /**
   Agreement, exactly: over a network that loses, duplicates and reorders at will, with
   both sides retransmitting, as long as no session is removed, the two sides disagree if
   and only if a SYN has reached the higher side while it was Established under another id
   and the lower side has received a SYN at all.
   */
  lemma {:induction false} AgreementExact(net: Net, run: seq<Action>)
    requires NetOk(net) && CanRun(net, Start(), run) && AllLasting(net, Start(), run)
    ensures Agreed(Run(net, Start(), run)) <==> !(HiClashed(net, Start(), run) && LoHeard(net, Start(), run))
  {
    hide Next, Agreed;
    StartSound();
    RunStaysSound(net, Start(), false, false, run);
    SoundAgreement(Run(net, Start(), run), HiClashed(net, Start(), run), LoHeard(net, Start(), run));
  }

  lemma StartSound()
    ensures Sound(Start(), false, false)
  {
  }

  /** A run and what follows it. */
  lemma {:induction false} RunsOn(net: Net, s: Sys, run: seq<Action>, more: seq<Action>)
    requires CanRun(net, s, run) && CanRun(net, Run(net, s, run), more)
    ensures CanRun(net, s, run + more) && Run(net, s, run + more) == Run(net, Run(net, s, run), more)
    ensures HiClashed(net, s, run) ==> HiClashed(net, s, run + more)
    ensures LoHeard(net, s, run) ==> LoHeard(net, s, run + more)
    ensures AllLasting(net, s, run) && AllLasting(net, Run(net, s, run), more) ==> AllLasting(net, s, run + more)
    decreases run
  {
    hide Next, Lasting, ClashesAt, HearsSyn;
    if run == [] {
      assert run + more == more;
    } else {
      RunsOn(net, Next(net, s, run[0]), run[1..], more);
      assert (run + more)[0] == run[0] && (run + more)[1..] == run[1..] + more;
    }
  }

  /**
   Once the sides disagree they do so for good, whatever is sent, lost, reordered or
   repeated, as long as no session is removed.
   */
  lemma {:induction false} DisagreementLasts(net: Net, run: seq<Action>, more: seq<Action>)
    requires NetOk(net) && CanRun(net, Start(), run) && AllLasting(net, Start(), run)
    requires CanRun(net, Run(net, Start(), run), more) && AllLasting(net, Run(net, Start(), run), more)
    ensures !Agreed(Run(net, Start(), run)) ==> !Agreed(Run(net, Run(net, Start(), run), more))
  {
    RunsOn(net, Start(), run, more);
    AgreementExact(net, run);
    AgreementExact(net, run + more);
    hide Next, Agreed, Run, CanRun, HiClashed, LoHeard, AllLasting;
  }

  lemma {:induction false} HiClashCollides(net: Net, s: Sys, run: seq<Action>)
    requires CanRun(net, s, run) && HiClashed(net, s, run)
    ensures Collided(net, s, run)
    decreases run
  {
    hide Next;
    if !ClashesAt(s, run[0], Hi) {
      HiClashCollides(net, Next(net, s, run[0]), run[1..]);
    }
  }

  /** In particular the sides agree as long as neither has announced a restart of the other. */
  lemma {:induction false} UnannouncedAgree(net: Net, run: seq<Action>)
    requires NetOk(net) && CanRun(net, Start(), run) && AllLasting(net, Start(), run)
    ensures var s := Run(net, Start(), run);
            Agreed(s) && !Announced(s) <==> !Collided(net, Start(), run)
  {
    hide Next, Agreed, Announced;
    RestartsAreCollisions(net, Start(), run);
    AgreementExact(net, run);
    assert !Announced(Start()) by { StartQuiet(); }
    if HiClashed(net, Start(), run) { HiClashCollides(net, Start(), run); }
  }

  lemma StartQuiet()
    ensures !Announced(Start())
  {
  }

  /** In order, and with the higher side alone retransmitting its SYN, no SYN ever collides. */
  lemma InOrderNeverCollides(net: Net, run: seq<Action>)
    requires NetOk(net) && CanRun(net, Start(), run) && AllGentle(net, Start(), run)
    ensures !Collided(net, Start(), run)
  {
    Agreement(net, run);
    RestartsAreCollisions(net, Start(), run);
  }
}
