/**
 The session protocol of one node towards one peer address, as functions on values:
 each function is one atomic call (`handle_incoming`, `send`, `disconnect` or one
 session's share of a tick) and yields the session afterwards, the events fired and
 the datagrams written, in order. The classes of `Session.dfy` and `Transport.dfy` are
 proved to compute exactly these functions.
 */
module Machine {
  import opened Base
  import opened Addr
  import opened KcpModel
  import P = Packet

  datatype SessionState = SynSent | Established

  datatype SessionView = SessionView(peer: SocketAddr, conv: Conv, state: SessionState, closed: bool,
                                     lastRx: nat, synSentAt: nat, synRetries: nat, kcp: Kcp)

  /** Durations in whole milliseconds. */
  datatype Config = Config(synRetryInterval: nat, synMaxRetries: nat, sessionTimeout: nat)

  datatype Event =
    | Connected(addr: SocketAddr)
    | Disconnected(addr: SocketAddr)
    | PeerRestarted(addr: SocketAddr)

  datatype Datagram =
    | Syn(conv: Conv)
    | SynAck(conv: Conv)
    | Reset(conv: Conv)
    | Data(frame: Frame)

  datatype Sent = Sent(to: SocketAddr, packet: Datagram)

  datatype Message = Message(peer: SocketAddr, data: Bytes)

  datatype Outcome = Done | InvalidData | SessionClosed | DeadLink | KcpError

  /** The effect of one call: `inserted` counts the sessions put into the map. */
  datatype Effect = Effect(slot: Option<SessionView>, events: seq<Event>, wire: seq<Sent>,
                           inbox: seq<Message>, inserted: nat, outcome: Outcome)

  function Keep(slot: Option<SessionView>, outcome: Outcome): Effect {
    Effect(slot, [], [], [], 0, outcome)
  }

  /** The conversation id a datagram carries. */
  function ConvOf(p: Datagram): Conv {
    match p
    case Data(f) => f.conv
    case _ => p.conv
  }

  /** How a datagram looks to `handle_incoming` at the receiver. */
  function Arrival(p: Datagram): P.Inbound {
    match p
    case Syn(c) => P.SynIn(c)
    case SynAck(c) => P.SynAckIn(c)
    case Reset(c) => P.ResetIn(c)
    case Data(f) => P.FrameIn(f.conv)
  }

  function TypeOf(p: Datagram): P.PacketType {
    match p
    case Syn(_) => P.Syn
    case SynAck(_) => P.SynAck
    case Reset(_) => P.Reset
    case Data(_) => P.KcpData
  }

  /**
   The receiver meets `p` exactly when the bytes start with its type byte and little-endian
   conversation id; for a frame these are the start of the KCP segment.
   */
  lemma ArrivalIsParsed(p: Datagram, data: Bytes)
    ensures P.Parse(data) == Arrival(p) <==> P.ControlBytes(TypeOf(p), ConvOf(p)) <= data
  {
    P.ParseRecovers(data, TypeOf(p), ConvOf(p));
  }

  function Frames(to: SocketAddr, frames: seq<Frame>): (r: seq<Sent>)
    ensures |r| == |frames|
    ensures forall w :: w in r ==> w.to == to && w.packet.Data? && w.packet.frame in frames
  {
    seq(|frames|, i requires 0 <= i < |frames| => Sent(to, Data(frames[i])))
  }

  /** The three copies of RESET that announce the end of a session. */
  function Resets(to: SocketAddr, conv: Conv): seq<Sent> {
    [Sent(to, Reset(conv)), Sent(to, Reset(conv)), Sent(to, Reset(conv))]
  }

  // ----- the invariant of a mapped session -----

  /**
   A mapped session is open, its KCP block carries its own conversation id, nothing has
   been transmitted before it is established, and everything transmitted so far carries
   the session's id and is numbered in order.
   */
  predicate SessionOk(s: SessionView) {
    && !s.closed
    && s.kcp.conv == s.conv
    && (s.state == SynSent ==> s.kcp.sent == [])
    && Consistent(s.kcp)
  }

  predicate SlotOk(slot: Option<SessionView>) {
    slot.Some? ==> SessionOk(slot.value)
  }

  // ----- sessions -----

  function NewOutbound(conv: Conv, peer: SocketAddr, now: nat): (r: SessionView)
    ensures SessionOk(r)
  {
    SessionView(peer, conv, SynSent, false, now, now, 0, NewKcp(conv))
  }

  function NewInbound(conv: Conv, peer: SocketAddr, now: nat): (r: SessionView)
    ensures SessionOk(r)
  {
    SessionView(peer, conv, Established, false, now, 0, 0, NewKcp(conv))
  }

  /** The transition into Established under `conv`, which releases the queued data. */
  function Establish(s: SessionView, conv: Conv, now: nat, ch: Choice): (r: (SessionView, seq<Frame>))
    ensures r.0.peer == s.peer
    ensures SessionOk(s) && s.state == SynSent ==> SessionOk(r.0) && forall f :: f in r.1 ==> f.conv == conv
  {
    var (k, frames) := Flush(s.kcp.(conv := conv), ch);
    (s.(conv := conv, state := Established, lastRx := now, kcp := k), frames)
  }

  /** `Session::send_data`. */
  function SendData(s: SessionView, data: Bytes, ch: Choice): (r: (SessionView, seq<Frame>, Outcome))
    ensures SessionOk(s) ==> SessionOk(r.0) && forall f :: f in r.1 ==> f.conv == s.conv && s.state == Established
  {
    if s.closed then (s, [], SessionClosed)
    else if s.kcp.dead then (s, [], DeadLink)
    else if !ch.accepts then (s, [], KcpError)
    else
      var queued := s.kcp.(queue := s.kcp.queue + [data]);
      assert Consistent(s.kcp) ==> Consistent(queued);
      if s.state == Established then
        var (k, frames) := Flush(queued, ch);
        (s.(kcp := k), frames, if ch.writes then Done else KcpError)
      else (s.(kcp := queued), [], Done)
  }

  /**
   `base << retries` on `u64`: bits beyond the 64th are lost, and a release build
   takes the shift amount modulo 64.
   */
  function Backoff(cfg: Config, retries: nat): nat {
    cfg.synRetryInterval * Pow2(retries % 64) % Pow2(64)
  }

  function Pow2(n: nat): (r: nat)
    ensures r >= 1
  {
    if n == 0 then 1 else 2 * Pow2(n - 1)
  }

  predicate RetryDue(cfg: Config, s: SessionView, now: nat) {
    Elapsed(now, s.synSentAt) >= Backoff(cfg, s.synRetries)
  }

  predicate Idle(cfg: Config, s: SessionView, now: nat) {
    s.lastRx > 0 && Elapsed(now, s.lastRx) > cfg.sessionTimeout
  }

  /** What one tick does to one session before any session is removed. */
  datatype Touched = Touched(session: SessionView, wire: seq<Sent>, doomed: bool)

  /** A write error ends the update of a session before the test that would find its link dead. */
  function TouchEstablished(cfg: Config, s: SessionView, now: nat, ch: Choice): (r: Touched)
    ensures SessionOk(s) && s.state == Established ==>
              SessionOk(r.session) && forall w :: w in r.wire ==> w.packet.Data? && w.packet.frame.conv == s.conv
  {
    if s.kcp.dead then Touched(s, [], true)
    else
      var (k, frames) := Flush(s.kcp, ch);
      Touched(s.(kcp := k), Frames(s.peer, frames), (ch.writes && k.dead) || Idle(cfg, s, now))
  }

  function TouchSynSent(cfg: Config, s: SessionView, now: nat): Touched {
    if s.synRetries >= cfg.synMaxRetries then Touched(s, [], true)
    else if !RetryDue(cfg, s, now) then Touched(s, [], Idle(cfg, s, now))
    else Touched(s.(synSentAt := now, synRetries := s.synRetries + 1), [Sent(s.peer, Syn(s.conv))],
                 Idle(cfg, s, now))
  }

  function Touch(cfg: Config, s: SessionView, now: nat, ch: Choice): Touched {
    if s.closed then Touched(s, [], false)
    else if s.state == Established then TouchEstablished(cfg, s, now, ch)
    else TouchSynSent(cfg, s, now)
  }

  // ----- calls -----

  function Accept(slot: Option<SessionView>, from: SocketAddr, conv: Conv, now: nat): Effect {
    var restarted := if slot.Some? then [PeerRestarted(from)] else [];
    Effect(Some(NewInbound(conv, from, now)), restarted + [Connected(from)], [Sent(from, SynAck(conv))], [], 1, Done)
  }

  function OnSyn(me: SocketAddr, slot: Option<SessionView>, from: SocketAddr, conv: Conv, now: nat,
                 ch: Choice): (e: Effect)
    ensures e.outcome == Done
  {
    if slot.None? then Accept(slot, from, conv, now)
    else
      var s := slot.value;
      if s.conv == conv then
        if s.state == Established then
          Effect(Some(s.(lastRx := now)), [], [Sent(from, SynAck(conv))], [], 0, Done)
        else Keep(slot, Done)
      else if s.state == SynSent then
        var agreed := if Greater(from, me) then conv else s.conv;
        var (s', frames) := Establish(s, agreed, now, ch);
        Effect(Some(s'), [Connected(from)], Frames(s.peer, frames) + [Sent(from, SynAck(agreed))], [], 0, Done)
      else Accept(slot, from, conv, now)
  }

  lemma SynOpensAnew(me: SocketAddr, slot: Option<SessionView>, from: SocketAddr, conv: Conv, now: nat, ch: Choice)
    requires slot.Some? ==> slot.value.state == Established && slot.value.conv != conv
    ensures OnSyn(me, slot, from, conv, now, ch) == Accept(slot, from, conv, now)
  {
  }

  function OnSynAck(slot: Option<SessionView>, from: SocketAddr, conv: Conv, now: nat, ch: Choice): (e: Effect)
    ensures e.outcome == Done
  {
    if slot.Some? && slot.value.state == SynSent && slot.value.conv == conv then
      var (s', frames) := Establish(slot.value, conv, now, ch);
      Effect(Some(s'), [Connected(from)], Frames(s'.peer, frames), [], 0, Done)
    else Keep(slot, Done)
  }

  function OnReset(slot: Option<SessionView>, from: SocketAddr, conv: Conv): (e: Effect)
    ensures e.outcome == Done
  {
    if slot.Some? && slot.value.conv == conv then Effect(None, [Disconnected(from)], [], [], 0, Done)
    else Keep(slot, Done)
  }

  function Messages(peer: SocketAddr, data: seq<Bytes>): (r: seq<Message>)
    ensures |r| == |data|
  {
    seq(|data|, i requires 0 <= i < |data| => Message(peer, data[i]))
  }

  /** A KCP frame: `conv` is absent from one too short to carry it. */
  function OnFrame(slot: Option<SessionView>, from: SocketAddr, conv: Option<Conv>, now: nat, ch: Choice): Effect {
    if slot.Some? then
      var s := slot.value.(lastRx := now);
      if conv.Some? && Accepts(s.kcp, conv.value, ch) then
        Effect(Some(s.(kcp := s.kcp.(ready := []))), [], [], Messages(s.peer, s.kcp.ready + ch.ready), 0, Done)
      else Keep(Some(s), KcpError)
    else Effect(None, [], if conv.Some? then Resets(from, conv.value) else [], [], 0, Done)
  }

  function OnDatagram(me: SocketAddr, slot: Option<SessionView>, from: SocketAddr, inb: P.Inbound, now: nat,
                      ch: Choice): Effect
  {
    match inb
    case Invalid => Keep(slot, InvalidData)
    case RuntIn => OnFrame(slot, from, None, now, ch)
    case FrameIn(conv) => OnFrame(slot, from, Some(conv), now, ch)
    case SynIn(conv) => OnSyn(me, slot, from, conv, now, ch)
    case SynAckIn(conv) => OnSynAck(slot, from, conv, now, ch)
    case ResetIn(conv) => OnReset(slot, from, conv)
  }

  /** `KcpPeer::send`; `drawn` is the id `initiate_session` draws when there is no session. */
  function OnSend(slot: Option<SessionView>, to: SocketAddr, data: Bytes, drawn: Conv, now: nat, ch: Choice): Effect {
    var s := if slot.Some? then slot.value else NewOutbound(drawn, to, now);
    var syn := if slot.Some? then [] else [Sent(to, Syn(drawn))];
    var (s', frames, outcome) := SendData(s, data, ch);
    Effect(Some(s'), [], syn + Frames(s.peer, frames), [], if slot.Some? then 0 else 1, outcome)
  }

  function OnDisconnect(slot: Option<SessionView>, to: SocketAddr): Effect {
    if slot.Some? then Effect(None, [Disconnected(to)], Resets(to, slot.value.conv), [], 0, Done)
    else Keep(slot, Done)
  }

  function OnTick(cfg: Config, slot: Option<SessionView>, now: nat, ch: Choice): Effect {
    if slot.None? then Keep(slot, Done)
    else
      var t := Touch(cfg, slot.value, now, ch);
      if t.doomed then
        Effect(None, [Disconnected(t.session.peer)], t.wire + Resets(t.session.peer, t.session.conv), [], 0, Done)
      else Effect(Some(t.session), [], t.wire, [], 0, Done)
  }

  /** The fixed surroundings of a node. */
  datatype Env = Env(me: SocketAddr, cfg: Config)

  datatype SlotOp =
    | Receive(from: SocketAddr, inb: P.Inbound, now: nat, ch: Choice)
    | Send(to: SocketAddr, data: Bytes, drawn: Conv, now: nat, ch: Choice)
    | Disconnect(to: SocketAddr)
    | Tick(now: nat, ch: Choice)

  function Step(env: Env, slot: Option<SessionView>, op: SlotOp): Effect {
    match op
    case Receive(from, inb, now, ch) => OnDatagram(env.me, slot, from, inb, now, ch)
    case Send(to, data, drawn, now, ch) => OnSend(slot, to, data, drawn, now, ch)
    case Disconnect(to) => OnDisconnect(slot, to)
    case Tick(now, ch) => OnTick(env.cfg, slot, now, ch)
  }

  /** Every call keeps the invariant: in particular no mapped session is ever closed between calls. */
  lemma StepKeepsOk(env: Env, slot: Option<SessionView>, op: SlotOp)
    requires SlotOk(slot)
    ensures SlotOk(Step(env, slot, op).slot)
  {
    hide Flush;
  }

  /** The conversation id under which a call that finds `slot` transmits. */
  function FinalConv(slot: Option<SessionView>, after: Option<SessionView>): Option<Conv> {
    if after.Some? then Some(after.value.conv)
    else if slot.Some? then Some(slot.value.conv)
    else None
  }

  /**
   A call writes KCP frames only for a session that is Established by then, and each of
   them carries the id that session has by then.
   */
  lemma FramesCarryConv(env: Env, slot: Option<SessionView>, op: SlotOp, sent: Sent)
    requires SlotOk(slot)
    requires sent in Step(env, slot, op).wire && sent.packet.Data?
    ensures slot.Some?
    ensures FinalConv(slot, Step(env, slot, op).slot) == Some(sent.packet.frame.conv)
    ensures Step(env, slot, op).slot.Some? ==> Step(env, slot, op).slot.value.state == Established
    ensures Step(env, slot, op).slot.None? ==> slot.value.state == Established
  {
    hide Flush, Consistent;
  }
}
