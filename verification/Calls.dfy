/**
 What each call does to one session, outcome by outcome: the fields it changes, the messages,
 datagrams and events it produces, one by one and in order, for every session and every input.
 */
module Calls {
  import opened Base
  import opened Addr
  import opened KcpModel
  import opened Machine
  import P = Packet

  // ----- frames -----

  /** A well-formed frame of the session's own id delivers what it completes, in order, under the session's address. */
  lemma FrameTaken(env: Env, s: SessionView, from: SocketAddr, now: nat, ch: Choice)
    requires ch.parses
    ensures var e := Step(env, Some(s), Receive(from, P.FrameIn(s.kcp.conv), now, ch));
            && |e.inbox| == |s.kcp.ready + ch.ready|
            && (forall i :: 0 <= i < |e.inbox| ==>
                  e.inbox[i].data == (s.kcp.ready + ch.ready)[i] && e.inbox[i].peer == s.peer)
            && e.slot == Some(s.(lastRx := now, kcp := s.kcp.(ready := [])))
            && e.wire == [] && e.events == [] && e.inserted == 0 && e.outcome == Done
  {
  }

  /** Any other frame from the peer's address only restarts the idle timer. */
  lemma FrameRefused(env: Env, s: SessionView, from: SocketAddr, inb: P.Inbound, now: nat, ch: Choice)
    requires inb.RuntIn? || (inb.FrameIn? && (inb.conv != s.kcp.conv || !ch.parses))
    ensures var e := Step(env, Some(s), Receive(from, inb, now, ch));
            && e.slot == Some(s.(lastRx := now)) && e.inbox == [] && e.wire == [] && e.events == []
            && e.inserted == 0 && e.outcome == KcpError
  {
  }

  /** A frame for no session is answered by three RESETs of its id; one without an id by nothing. */
  lemma FrameUnknown(env: Env, from: SocketAddr, inb: P.Inbound, now: nat, ch: Choice)
    requires inb.RuntIn? || inb.FrameIn?
    ensures var e := Step(env, None, Receive(from, inb, now, ch));
            && e.slot == None && e.inbox == [] && e.events == [] && e.inserted == 0 && e.outcome == Done
            && |e.wire| == (if inb.FrameIn? then 3 else 0)
            && forall w :: w in e.wire ==> w.to == from && w.packet == Reset(inb.conv)
  {
  }

  // ----- the handshake -----

  /** A SYN for no session opens one, acknowledged and announced, whose idle timer starts now. */
  lemma SynAccepted(env: Env, from: SocketAddr, conv: Conv, now: nat, ch: Choice)
    ensures var e := Step(env, None, Receive(from, P.SynIn(conv), now, ch));
            && Newborn(e.slot, from, conv, Established) && e.slot.value.lastRx == now
            && e.wire == [Sent(from, SynAck(conv))] && e.events == [Connected(from)]
            && e.inbox == [] && e.inserted == 1 && e.outcome == Done
  {
  }

  /** A session with nothing queued, sent or received yet. */
  predicate Newborn(slot: Option<SessionView>, peer: SocketAddr, conv: Conv, state: SessionState) {
    && slot.Some? && slot.value.peer == peer && slot.value.conv == conv && slot.value.state == state
    && !slot.value.closed && slot.value.synRetries == 0
    && slot.value.kcp == Kcp(conv, [], [], [], false)
  }

  /** A SYN of the session's own id is acknowledged again if it is Established, and otherwise changes nothing. */
  lemma SynRepeated(env: Env, s: SessionView, from: SocketAddr, now: nat, ch: Choice)
    ensures var e := Step(env, Some(s), Receive(from, P.SynIn(s.conv), now, ch));
            && e.slot == Some(if s.state == Established then s.(lastRx := now) else s)
            && e.wire == (if s.state == Established then [Sent(from, SynAck(s.conv))] else [])
            && e.events == [] && e.inbox == [] && e.inserted == 0 && e.outcome == Done
  {
  }

  /** A SYN of another id replaces an Established session: the peer has restarted. */
  lemma SynRestarts(env: Env, s: SessionView, from: SocketAddr, conv: Conv, now: nat, ch: Choice)
    requires s.state == Established && conv != s.conv
    ensures var e := Step(env, Some(s), Receive(from, P.SynIn(conv), now, ch));
            && Newborn(e.slot, from, conv, Established) && e.slot.value.lastRx == now
            && e.wire == [Sent(from, SynAck(conv))] && e.events == [PeerRestarted(from), Connected(from)]
            && e.inbox == [] && e.inserted == 1 && e.outcome == Done
  {
  }

  /** The datagrams that complete the handshake of a waiting session under `own`. */
  predicate Completing(own: Conv, inb: P.Inbound) {
    inb == P.SynAckIn(own) || (inb.SynIn? && inb.conv != own)
  }

  /**
   A waiting session is completed by a SYN_ACK of its id, or by a SYN of another id, in which
   case the greater address decides on the id. The data queued meanwhile is released at once:
   as many messages as the window admits leave, in order, numbered from 0 and stamped with the
   agreed id, before any SYN_ACK; the rest stays queued.
   */
  lemma HandshakeReleases(env: Env, s: SessionView, from: SocketAddr, inb: P.Inbound, now: nat, ch: Choice)
    requires SessionOk(s) && s.state == SynSent && Completing(s.conv, inb)
    ensures var e := Step(env, Some(s), Receive(from, inb, now, ch));
            var agreed := if inb.SynIn? && Greater(from, env.me) then inb.conv else s.conv;
            var n := if ch.take < |s.kcp.queue| then ch.take else |s.kcp.queue|;
            && |e.wire| == n + (if inb.SynIn? then 1 else 0)
            && (forall i :: 0 <= i < n ==>
                  e.wire[i].to == s.peer && e.wire[i].packet == Data(Frame(agreed, i, s.kcp.queue[i])))
            && (inb.SynIn? ==> e.wire[n] == Sent(from, SynAck(agreed)))
            && e.slot.Some? && e.slot.value.kcp.queue == s.kcp.queue[n..]
            && e.slot.value.(kcp := s.kcp) == s.(conv := agreed, state := Established, lastRx := now)
            && e.slot.value.kcp.conv == agreed && e.slot.value.kcp.ready == s.kcp.ready
            && e.slot.value.kcp.dead == (s.kcp.dead || ch.dies)
            && e.events == [Connected(from)] && e.inbox == [] && e.inserted == 0 && e.outcome == Done
  {
    assert Resent([], ch.resend) == [];
  }

  /** Every other SYN_ACK is ignored, and so are datagrams that make no sense. */
  lemma StrayIgnored(env: Env, slot: Option<SessionView>, from: SocketAddr, inb: P.Inbound, now: nat, ch: Choice)
    requires inb.Invalid?
             || (inb.SynAckIn? && (slot.Some? && slot.value.state == SynSent ==> inb.conv != slot.value.conv))
    ensures var e := Step(env, slot, Receive(from, inb, now, ch));
            && e.slot == slot && e.wire == [] && e.events == [] && e.inbox == [] && e.inserted == 0
            && e.outcome == if inb.Invalid? then InvalidData else Done
  {
  }

  // ----- the end of a session -----

  /** A RESET ends the session of its id, silently towards the peer, and no other. */
  lemma ResetEnds(env: Env, slot: Option<SessionView>, from: SocketAddr, conv: Conv, now: nat, ch: Choice)
    ensures var e := Step(env, slot, Receive(from, P.ResetIn(conv), now, ch));
            var hit := slot.Some? && slot.value.conv == conv;
            && e.slot == (if hit then None else slot) && e.events == (if hit then [Disconnected(from)] else [])
            && e.wire == [] && e.inbox == [] && e.inserted == 0 && e.outcome == Done
  {
  }

  /** A disconnect ends any session with three RESETs of its id and one event, both for the given address. */
  lemma DisconnectEnds(env: Env, slot: Option<SessionView>, to: SocketAddr)
    ensures var e := Step(env, slot, Disconnect(to));
            && e.slot == None && e.events == (if slot.Some? then [Disconnected(to)] else [])
            && |e.wire| == (if slot.Some? then 3 else 0)
            && (forall w :: w in e.wire ==> w.to == to && w.packet == Reset(slot.value.conv))
            && e.inbox == [] && e.inserted == 0 && e.outcome == Done
  {
  }

  // ----- sends -----

  /** The first send opens a waiting session and writes its SYN; the data waits, if KCP takes it. */
  lemma SendOpens(env: Env, to: SocketAddr, data: Bytes, drawn: Conv, now: nat, ch: Choice)
    ensures var e := Step(env, None, Send(to, data, drawn, now, ch));
            && e.slot.Some? && e.slot.value.kcp.queue == (if ch.accepts then [data] else [])
            && Newborn(Some(e.slot.value.(kcp := e.slot.value.kcp.(queue := []))), to, drawn, SynSent)
            && e.slot.value.lastRx == now && e.slot.value.synSentAt == now
            && e.wire == [Sent(to, Syn(drawn))] && e.events == [] && e.inbox == [] && e.inserted == 1
            && e.outcome == if ch.accepts then Done else KcpError
  {
  }

  /** A closed session, a dead link and a refusal by KCP are reported, in this order, and change nothing. */
  lemma SendRefused(env: Env, s: SessionView, to: SocketAddr, data: Bytes, drawn: Conv, now: nat, ch: Choice)
    requires s.closed || s.kcp.dead || !ch.accepts
    ensures var e := Step(env, Some(s), Send(to, data, drawn, now, ch));
            && e.slot == Some(s) && e.wire == [] && e.events == [] && e.inbox == [] && e.inserted == 0
            && e.outcome == if s.closed then SessionClosed else if s.kcp.dead then DeadLink else KcpError
  {
  }

  /** Before the handshake is complete an accepted message only joins the queue. */
  lemma SendWaits(env: Env, s: SessionView, to: SocketAddr, data: Bytes, drawn: Conv, now: nat, ch: Choice)
    requires !s.closed && !s.kcp.dead && ch.accepts && s.state == SynSent
    ensures var e := Step(env, Some(s), Send(to, data, drawn, now, ch));
            && e.slot == Some(s.(kcp := s.kcp.(queue := s.kcp.queue + [data])))
            && e.wire == [] && e.events == [] && e.inbox == [] && e.inserted == 0 && e.outcome == Done
  {
  }

  /** A flush transmits as many queued messages as the window admits, in order, with the next sequence numbers. */
  predicate Advanced(k: Kcp, ch: Choice, after: Kcp) {
    var n := if ch.take < |k.queue| then ch.take else |k.queue|;
    && after.queue == k.queue[n..] && after.conv == k.conv && after.ready == k.ready
    && after.dead == (k.dead || ch.dies)
    && |after.sent| == |k.sent| + n && after.sent[..|k.sent|] == k.sent
    && forall i :: 0 <= i < n ==> after.sent[|k.sent| + i] == Frame(k.conv, |k.sent| + i, k.queue[i])
  }

  /** What it writes to `to`: the segments KCP picks for retransmission, then those messages. */
  predicate Wrote(k: Kcp, to: SocketAddr, ch: Choice, wire: seq<Sent>) {
    var n := if ch.take < |k.queue| then ch.take else |k.queue|;
    && |wire| >= n
    && WroteQueued(k, to, n, wire[|wire| - n..])
    && (PicksExist(k, ch) ==> WrotePicks(k, to, ch.resend, wire[..|wire| - n]))
  }

  predicate WroteQueued(k: Kcp, to: SocketAddr, n: nat, wire: seq<Sent>) {
    n <= |k.queue| && |wire| == n &&
    forall i :: 0 <= i < n ==> wire[i] == Sent(to, Data(Frame(k.conv, |k.sent| + i, k.queue[i])))
  }

  predicate PicksExist(k: Kcp, ch: Choice) {
    forall j :: 0 <= j < |ch.resend| ==> ch.resend[j] < |k.sent|
  }

  predicate WrotePicks(k: Kcp, to: SocketAddr, picks: seq<nat>, wire: seq<Sent>) {
    |wire| == |picks| &&
    forall j :: 0 <= j < |picks| ==> picks[j] < |k.sent| && wire[j] == Sent(to, Data(k.sent[picks[j]]))
  }

  lemma {:induction false} ResentPicks(sent: seq<Frame>, picks: seq<nat>)
    requires forall j :: 0 <= j < |picks| ==> picks[j] < |sent|
    ensures |Resent(sent, picks)| == |picks|
    ensures forall j :: 0 <= j < |picks| ==> Resent(sent, picks)[j] == sent[picks[j]]
  {
    if picks != [] {
      ResentPicks(sent, picks[1..]);
    }
  }

  lemma FlushAdvances(k: Kcp, ch: Choice)
    ensures Advanced(k, ch, Flush(k, ch).0)
  {
    hide Consistent, Resent;
    var n := Min(ch.take, |k.queue|);
    assert (k.sent + Stamp(k.conv, |k.sent|, k.queue[..n]))[..|k.sent|] == k.sent;
  }

  lemma FramesConcat(to: SocketAddr, a: seq<Frame>, b: seq<Frame>)
    ensures Frames(to, a + b) == Frames(to, a) + Frames(to, b)
  {
  }

  lemma PicksWritten(k: Kcp, to: SocketAddr, ch: Choice)
    requires PicksExist(k, ch)
    ensures WrotePicks(k, to, ch.resend, Frames(to, Resent(k.sent, ch.resend)))
  {
    ResentPicks(k.sent, ch.resend);
    hide Resent;
  }

  lemma FlushWrites(k: Kcp, to: SocketAddr, ch: Choice)
    ensures Wrote(k, to, ch, Frames(to, Flush(k, ch).1))
  {
    var n := Min(ch.take, |k.queue|);
    var queued := Frames(to, Stamp(k.conv, |k.sent|, k.queue[..n]));
    assert WroteQueued(k, to, n, queued);
    if PicksExist(k, ch) { PicksWritten(k, to, ch); }
    hide WroteQueued, PicksExist, WrotePicks, Consistent, Resent, Stamp;
    FramesConcat(to, Resent(k.sent, ch.resend), Stamp(k.conv, |k.sent|, k.queue[..n]));
    hide Frames;
    var wire, repeats := Frames(to, Flush(k, ch).1), Frames(to, Resent(k.sent, ch.resend));
    assert wire == repeats + queued && |queued| == n;
    assert wire[|wire| - n..] == queued && wire[..|wire| - n] == repeats;
  }

  /** On an Established session an accepted message is queued and the queue flushed at once. */
  lemma SendFlushes(env: Env, s: SessionView, to: SocketAddr, data: Bytes, drawn: Conv, now: nat, ch: Choice)
    requires !s.closed && !s.kcp.dead && ch.accepts && s.state == Established
    ensures var e := Step(env, Some(s), Send(to, data, drawn, now, ch));
            && e.slot.Some? && e.slot.value.(kcp := s.kcp) == s
            && Advanced(s.kcp.(queue := s.kcp.queue + [data]), ch, e.slot.value.kcp)
            && Wrote(s.kcp.(queue := s.kcp.queue + [data]), s.peer, ch, e.wire)
            && e.events == [] && e.inbox == [] && e.inserted == 0
            && e.outcome == if ch.writes then Done else KcpError
  {
    FlushAdvances(s.kcp.(queue := s.kcp.queue + [data]), ch);
    FlushWrites(s.kcp.(queue := s.kcp.queue + [data]), s.peer, ch);
    hide Flush, Advanced, Wrote;
    var frames := Flush(s.kcp.(queue := s.kcp.queue + [data]), ch).1;
    assert [] + Frames(s.peer, frames) == Frames(s.peer, frames);
  }

  // ----- ticks -----

  /** Nothing has been heard of the peer for more than the timeout; a session that never heard of it cannot be idle. */
  predicate Silent(env: Env, s: SessionView, now: nat) {
    s.lastRx > 0 && now > s.lastRx + env.cfg.sessionTimeout
  }

  /** The whole wait before the next retry has passed, the last millisecond included. */
  predicate Due(env: Env, s: SessionView, now: nat) {
    (if now >= s.synSentAt then now - s.synSentAt else 0) >= Backoff(env.cfg, s.synRetries)
  }

  /** A tick that keeps a waiting session repeats its SYN exactly when that is due, and counts it. */
  lemma TickRetries(env: Env, s: SessionView, now: nat, ch: Choice)
    requires s.state == SynSent && !s.closed && s.synRetries < env.cfg.synMaxRetries && !Silent(env, s, now)
    ensures var e := Step(env, Some(s), Tick(now, ch));
            && e.slot == Some(if Due(env, s, now) then s.(synSentAt := now, synRetries := s.synRetries + 1) else s)
            && e.wire == (if Due(env, s, now) then [Sent(s.peer, Syn(s.conv))] else [])
            && e.events == [] && e.inbox == [] && e.inserted == 0
  {
    hide Backoff;
  }

  /** A tick that keeps an Established session drives its KCP block and changes nothing else. */
  lemma TickFlushes(env: Env, s: SessionView, now: nat, ch: Choice)
    requires s.state == Established && !s.closed && !s.kcp.dead && !(ch.dies && ch.writes) && !Silent(env, s, now)
    ensures var e := Step(env, Some(s), Tick(now, ch));
            && e.slot.Some? && e.slot.value.(kcp := s.kcp) == s
            && Advanced(s.kcp, ch, e.slot.value.kcp) && Wrote(s.kcp, s.peer, ch, e.wire)
            && e.events == [] && e.inbox == [] && e.inserted == 0
  {
    FlushAdvances(s.kcp, ch);
    FlushWrites(s.kcp, s.peer, ch);
    hide Advanced, Wrote, Backoff;
  }

  /** The session is gone; its address is told three times, and one event says so. */
  predicate Ended(s: SessionView, e: Effect) {
    && e.slot == None && e.events == [Disconnected(s.peer)] && e.inbox == [] && e.inserted == 0
    && |e.wire| >= 3
    && forall i :: |e.wire| - 3 <= i < |e.wire| ==> e.wire[i] == Sent(s.peer, Reset(s.conv))
  }

  /** Three RESETs written after `before`. */
  lemma ThreeResets(before: seq<Sent>, to: SocketAddr, conv: Conv, wire: seq<Sent>)
    requires wire == before + Resets(to, conv)
    ensures |wire| >= 3 && wire[..|wire| - 3] == before
    ensures forall i :: |wire| - 3 <= i < |wire| ==> wire[i] == Sent(to, Reset(conv))
  {
  }

  /** What a tick writes before it ends a waiting session. */
  function LastWords(env: Env, s: SessionView, now: nat): seq<Sent> {
    if s.synRetries < env.cfg.synMaxRetries && Due(env, s, now) then [Sent(s.peer, Syn(s.conv))] else []
  }

  /**
   A tick that ends a waiting session: when no retry is left it writes nothing else, and when
   the session has been silent for too long a SYN that is due still goes out first.
   */
  lemma TickAbandons(env: Env, s: SessionView, now: nat, ch: Choice)
    requires s.state == SynSent && !s.closed
    requires s.synRetries >= env.cfg.synMaxRetries || Silent(env, s, now)
    ensures var e := Step(env, Some(s), Tick(now, ch));
            Ended(s, e) && e.wire[..|e.wire| - 3] == LastWords(env, s, now)
  {
    hide Backoff, Resets;
    var e := Step(env, Some(s), Tick(now, ch));
    assert e.wire == LastWords(env, s, now) + Resets(s.peer, s.conv);
    ThreeResets(LastWords(env, s, now), s.peer, s.conv, e.wire);
  }

  /**
   A tick that ends an Established session: nothing else is written if its link was dead
   before; else KCP is driven once more.
   */
  lemma TickPrunes(env: Env, s: SessionView, now: nat, ch: Choice)
    requires s.state == Established && !s.closed
    requires s.kcp.dead || (ch.dies && ch.writes) || Silent(env, s, now)
    ensures var e := Step(env, Some(s), Tick(now, ch));
            && Ended(s, e)
            && var before := e.wire[..|e.wire| - 3];
               if s.kcp.dead then before == [] else Wrote(s.kcp, s.peer, ch, before)
  {
    FlushWrites(s.kcp, s.peer, ch);
    hide Wrote, Backoff, Resets;
    var e := Step(env, Some(s), Tick(now, ch));
    var before := if s.kcp.dead then [] else Frames(s.peer, Flush(s.kcp, ch).1);
    assert e.wire == before + Resets(s.peer, s.conv);
    ThreeResets(before, s.peer, s.conv, e.wire);
  }
}
