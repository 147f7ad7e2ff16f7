/** `src/session.rs`: a session as an object whose methods update it in place. */
module Sessions {
  import opened Base
  import opened Addr
  import opened KcpModel
  import opened Machine

  /** The UDP socket shared by all sessions: the datagrams handed to it, in order. */
  class Socket {
    const localAddr: SocketAddr
    var sent: seq<Sent>

    constructor (localAddr: SocketAddr)
      ensures this.localAddr == localAddr && sent == []
    {
      this.localAddr := localAddr;
      sent := [];
    }

    method Write(to: SocketAddr, packet: Datagram)
      modifies this
      ensures sent == old(sent) + [Sent(to, packet)]
    {
      sent := sent + [Sent(to, packet)];
    }

    /** RESET is written three times for reliability. */
    method WriteResets(to: SocketAddr, conv: Conv)
      modifies this
      ensures sent == old(sent) + Resets(to, conv)
    {
      ghost var before := sent;
      for i := 0 to 3
        invariant sent == before + Resets(to, conv)[..i]
      {
        Write(to, Reset(conv));
      }
    }
  }

  class Session {
    const peerAddr: SocketAddr
    const socket: Socket
    var conv: Conv
    var state: SessionState
    var closed: bool
    var lastRx: nat
    var synSentAt: nat
    var synRetries: nat
    var kcp: Kcp

    /** The value the session stands for. */
    function View(): SessionView
      reads this
    {
      SessionView(peerAddr, conv, state, closed, lastRx, synSentAt, synRetries, kcp)
    }

    constructor Outbound(conv: Conv, peerAddr: SocketAddr, socket: Socket, now: nat)
      ensures View() == NewOutbound(conv, peerAddr, now) && this.socket == socket
    {
      this.peerAddr, this.socket := peerAddr, socket;
      this.conv, state, closed := conv, SynSent, false;
      lastRx, synSentAt, synRetries := now, now, 0;
      kcp := NewKcp(conv);
    }

    /** The SYN_ACK is written before the session can be inserted anywhere. */
    constructor Inbound(conv: Conv, peerAddr: SocketAddr, socket: Socket, now: nat)
      modifies socket
      ensures View() == NewInbound(conv, peerAddr, now) && this.socket == socket
      ensures socket.sent == old(socket.sent) + [Sent(peerAddr, SynAck(conv))]
    {
      this.peerAddr, this.socket := peerAddr, socket;
      this.conv, state, closed := conv, Established, false;
      lastRx, synSentAt, synRetries := now, 0, 0;
      kcp := NewKcp(conv);
      new;
      socket.Write(peerAddr, SynAck(conv));
    }

    /** `writes` says that the socket takes the datagram; if not, it is lost and the retry timer is not restarted. */
    method SendSyn(now: nat, writes: bool)
      modifies this`synSentAt, socket
      ensures View() == if writes then old(View()).(synSentAt := now) else old(View())
      ensures socket.sent == old(socket.sent) + [Sent(peerAddr, Syn(conv))]
    {
      socket.Write(peerAddr, Syn(conv));
      if writes {
        synSentAt := now;
      }
    }

    method MarkClosed()
      modifies this`closed
      ensures View() == old(View()).(closed := true)
    {
      closed := true;
    }

    /** KCP's update and flush, writing each frame through the output adapter. */
    method FlushKcp(ch: Choice)
      modifies this`kcp, socket
      ensures kcp == Flush(old(kcp), ch).0
      ensures socket.sent == old(socket.sent) + Frames(peerAddr, Flush(old(kcp), ch).1)
    {
      var (k, frames) := Flush(kcp, ch);
      kcp := k;
      ghost var before := socket.sent;
      for i := 0 to |frames|
        invariant socket.sent == before + Frames(peerAddr, frames)[..i]
        invariant kcp == k
      {
        socket.Write(peerAddr, Data(frames[i]));
      }
    }

    /** The transition into Established under `agreed`, as the three handshake branches perform it. */
    method Enter(agreed: Conv, now: nat, ch: Choice)
      modifies this, socket
      ensures View() == Establish(old(View()), agreed, now, ch).0
      ensures socket.sent == old(socket.sent) + Frames(peerAddr, Establish(old(View()), agreed, now, ch).1)
    {
      hide Flush, Frames;
      kcp := kcp.(conv := agreed);
      conv := agreed;
      state := Established;
      lastRx := now;
      FlushKcp(ch);
    }

    method SendData(data: Bytes, ch: Choice) returns (outcome: Outcome)
      modifies this`kcp, socket
      ensures View() == Machine.SendData(old(View()), data, ch).0
      ensures socket.sent == old(socket.sent) + Frames(peerAddr, Machine.SendData(old(View()), data, ch).1)
      ensures outcome == Machine.SendData(old(View()), data, ch).2
    {
      if closed {
        return SessionClosed;
      }
      if kcp.dead {
        return DeadLink;
      }
      if !ch.accepts {
        return KcpError;
      }
      kcp := kcp.(queue := kcp.queue + [data]);
      if state == Established {
        FlushKcp(ch);
        if !ch.writes {
          return KcpError;
        }
      }
      return Done;
    }

    /** Drives KCP; reports a dead link found before the update, or after it unless a write failed first. */
    method Update(ch: Choice) returns (outcome: Outcome)
      modifies this`kcp, socket
      ensures state == SynSent ==> outcome == Done && View() == old(View()) && socket.sent == old(socket.sent)
      ensures state == Established && old(kcp).dead ==>
                outcome == DeadLink && View() == old(View()) && socket.sent == old(socket.sent)
      ensures state == Established && !old(kcp).dead ==>
                && outcome == (if !ch.writes then KcpError else if kcp.dead then DeadLink else Done)
                && View() == old(View()).(kcp := Flush(old(kcp), ch).0)
                && socket.sent == old(socket.sent) + Frames(peerAddr, Flush(old(kcp), ch).1)
    {
      if state != Established {
        return Done;
      }
      if kcp.dead {
        return DeadLink;
      }
      FlushKcp(ch);
      if !ch.writes {
        return KcpError;
      }
      return if kcp.dead then DeadLink else Done;
    }

    method Input(conv: Option<Conv>, ch: Choice) returns (ok: bool)
      modifies this`kcp
      ensures ok <==> conv.Some? && Accepts(old(kcp), conv.value, ch)
      ensures kcp == if ok then old(kcp).(ready := old(kcp).ready + ch.ready) else old(kcp)
    {
      ok := conv.Some? && Accepts(kcp, conv.value, ch);
      if ok {
        kcp := kcp.(ready := kcp.ready + ch.ready);
      }
    }

    /** Drains every complete message, in order. */
    method TryRecvAll() returns (out: seq<Bytes>)
      modifies this`kcp
      ensures out == old(kcp).ready
      ensures kcp == old(kcp).(ready := [])
    {
      out := [];
      while kcp.ready != []
        invariant out + kcp.ready == old(kcp).ready
        invariant kcp == old(kcp).(ready := kcp.ready)
        decreases |kcp.ready|
      {
        var buf := kcp.ready[0];
        kcp := kcp.(ready := kcp.ready[1..]);
        out := out + [buf];
      }
    }

    /**
     Retransmits the SYN when its backoff has elapsed and says so in `retried`; `DeadLink` when
     no retry is left. `sentAt` is the clock read after the retry, `now` the one of the tick.
     */
    method MaybeRetrySyn(cfg: Config, now: nat, sentAt: nat) returns (outcome: Outcome, retried: bool)
      modifies this`synSentAt, this`synRetries, socket
      ensures outcome == if closed then SessionClosed
                         else if state == SynSent && old(synRetries) >= cfg.synMaxRetries then DeadLink
                         else Done
      ensures retried <==> outcome == Done && state == SynSent && RetryDue(cfg, old(View()), now)
      ensures View() == if retried then old(View()).(synSentAt := sentAt, synRetries := old(synRetries) + 1)
                        else old(View())
      ensures socket.sent == old(socket.sent) + if retried then [Sent(peerAddr, Syn(conv))] else []
    {
      if closed {
        return SessionClosed, false;
      }
      if state != SynSent {
        return Done, false;
      }
      if synRetries >= cfg.synMaxRetries {
        return DeadLink, false;
      }
      if Elapsed(now, synSentAt) < Backoff(cfg, synRetries) {
        return Done, false;
      }
      socket.Write(peerAddr, Syn(conv));
      synSentAt := sentAt;
      synRetries := synRetries + 1;
      return Done, true;
    }
  }
}
