/**
 The KCP control block as the sessions use it. KCP itself is a separate crate, so its
 windows, timers and reassembly appear only as the choices it makes at each call.
 */
module KcpModel {
  import opened Base

  /** One KCP segment on the wire, with the conversation id and sequence number stamped on it. */
  datatype Frame = Frame(conv: Conv, sn: nat, data: Bytes)

  /**
   What KCP decides during one call into it:
   `accepts` - `Kcp::send` takes the message;
   `take` - how many queued messages the window lets a flush transmit;
   `resend` - which already transmitted segments a flush transmits again;
   `dies` - the retransmission limit is reached;
   `writes` - the output writer reports no error;
   `parses` - an incoming segment of the right conversation is well formed;
   `ready` - the messages an incoming segment completes.
   */
  datatype Choice = Choice(accepts: bool, take: nat, resend: seq<nat>, dies: bool, writes: bool,
                           parses: bool, ready: seq<Bytes>)

  datatype Kcp = Kcp(conv: Conv, queue: seq<Bytes>, sent: seq<Frame>, ready: seq<Bytes>, dead: bool)

  function NewKcp(conv: Conv): Kcp {
    Kcp(conv, [], [], [], false)
  }

  /** Frames for queued messages, numbered from `sn`, stamped with the current conversation id. */
  function Stamp(conv: Conv, sn: nat, data: seq<Bytes>): (r: seq<Frame>)
    ensures |r| == |data|
  {
    seq(|data|, i requires 0 <= i < |data| => Frame(conv, sn + i, data[i]))
  }

  function Resent(sent: seq<Frame>, picks: seq<nat>): (r: seq<Frame>)
    ensures forall f :: f in r ==> f in sent
    ensures sent == [] ==> r == []
  {
    if picks == [] then []
    else (if picks[0] < |sent| then [sent[picks[0]]] else []) + Resent(sent, picks[1..])
  }

  /** Everything transmitted so far carries the block's conversation id and is numbered in order. */
  predicate Consistent(k: Kcp) {
    forall i :: 0 <= i < |k.sent| ==> k.sent[i].conv == k.conv && k.sent[i].sn == i
  }

  /** `Kcp::update` followed by `Kcp::flush`: the new control block and the frames written. */
  function Flush(k: Kcp, ch: Choice): (r: (Kcp, seq<Frame>))
    ensures r.0.conv == k.conv
    ensures Consistent(k) ==> Consistent(r.0) && forall f :: f in r.1 ==> f.conv == k.conv
  {
    var n := Min(ch.take, |k.queue|);
    var stamped := Stamp(k.conv, |k.sent|, k.queue[..n]);
    (k.(queue := k.queue[n..], sent := k.sent + stamped, dead := k.dead || ch.dies),
     Resent(k.sent, ch.resend) + stamped)
  }

  /** `Kcp::input` takes a segment only if it is well formed and of this conversation. */
  predicate Accepts(k: Kcp, conv: Conv, ch: Choice) {
    ch.parses && conv == k.conv
  }
}
