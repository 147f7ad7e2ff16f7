/**
 The life of one session on the wire, over any sequence of calls: every frame it emits
 carries one conversation id, and no message given to it is lost, duplicated or reordered
 on the way from `send` to its first transmission.
 */
module History {
  import opened Base
  import opened Addr
  import opened KcpModel
  import opened Machine
  import Node
  import P = Packet

  /**
   The latest session of a slot: the messages KCP has taken for it and all the frames it
   has emitted, including those of the tick that removed it.
   */
  datatype Trail = Trail(slot: Option<SessionView>, taken: seq<Bytes>, frames: seq<Frame>)

  /** The message a call adds to KCP's queue. */
  function Taken(slot: Option<SessionView>, op: SlotOp): seq<Bytes> {
    if op.Send? && op.ch.accepts && (slot.Some? ==> !slot.value.closed && !slot.value.kcp.dead) then [op.data] else []
  }

  function FramesIn(wire: seq<Sent>): seq<Frame> {
    if wire == [] then []
    else FramesIn(wire[..|wire| - 1]) + if wire[|wire| - 1].packet.Data? then [wire[|wire| - 1].packet.frame] else []
  }

  function Advance(env: Env, t: Trail, op: SlotOp): Trail {
    var e := Step(env, t.slot, op);
    if e.inserted > 0 then Trail(e.slot, Taken(t.slot, op), FramesIn(e.wire))
    else Trail(e.slot, t.taken + Taken(t.slot, op), t.frames + FramesIn(e.wire))
  }

  function AdvanceAll(env: Env, t: Trail, ops: seq<SlotOp>): Trail
    decreases ops
  {
    if ops == [] then t else AdvanceAll(env, Advance(env, t, ops[0]), ops[1..])
  }

  /** The payloads of first transmissions, in order: frames that repeat a sequence number add nothing. */
  function FirstSent(frames: seq<Frame>): seq<Bytes> {
    if frames == [] then []
    else
      var f := frames[|frames| - 1];
      var prev := FirstSent(frames[..|frames| - 1]);
      if f.sn == |prev| then prev + [f.data] else prev
  }

  /** The KCP block, what it was given and what it emitted agree. */
  predicate Conserved(k: Kcp, taken: seq<Bytes>, frames: seq<Frame>) {
    && Consistent(k)
    && |k.sent| + |k.queue| == |taken|
    && (forall i :: 0 <= i < |k.sent| ==> k.sent[i].data == taken[i])
    && taken[|k.sent|..] == k.queue
    && FirstSent(frames) == taken[..|k.sent|]
    && (forall f :: f in frames ==> f in k.sent)
  }

  predicate TrailOk(t: Trail) {
    && SlotOk(t.slot)
    && (forall i, j :: 0 <= i < |t.frames| && 0 <= j < |t.frames| ==> t.frames[i].conv == t.frames[j].conv)
    && (t.slot.Some? ==>
          && (t.slot.value.state == SynSent ==> t.frames == [])
          && (forall i :: 0 <= i < |t.frames| ==> t.frames[i].conv == t.slot.value.conv)
          && Conserved(t.slot.value.kcp, t.taken, t.frames))
  }

  // ----- flushing -----

  lemma {:induction false} FirstSentRepeats(frames: seq<Frame>, repeats: seq<Frame>)
    requires forall f :: f in repeats ==> f.sn < |FirstSent(frames)|
    ensures FirstSent(frames + repeats) == FirstSent(frames)
  {
    if repeats == [] {
      assert frames + repeats == frames;
    } else {
      var init := repeats[..|repeats| - 1];
      FirstSentRepeats(frames, init);
      assert (frames + repeats)[..|frames + repeats| - 1] == frames + init;
      assert repeats[|repeats| - 1] in repeats;
    }
  }

  lemma {:induction false} FirstSentStamped(frames: seq<Frame>, conv: Conv, data: seq<Bytes>)
    ensures FirstSent(frames + Stamp(conv, |FirstSent(frames)|, data)) == FirstSent(frames) + data
  {
    var n := |FirstSent(frames)|;
    var stamped := Stamp(conv, n, data);
    if data == [] {
      assert frames + stamped == frames;
    } else {
      var init := data[..|data| - 1];
      FirstSentStamped(frames, conv, init);
      assert (frames + stamped)[..|frames + stamped| - 1] == frames + Stamp(conv, n, init);
      assert FirstSent(frames) + data == (FirstSent(frames) + init) + [data[|data| - 1]];
    }
  }

  lemma RepeatsAreOld(k: Kcp, taken: seq<Bytes>, frames: seq<Frame>, ch: Choice)
    requires Conserved(k, taken, frames)
    ensures |FirstSent(frames)| == |k.sent|
    ensures forall f :: f in Resent(k.sent, ch.resend) ==> f.sn < |k.sent|
  {
    hide FirstSent;
    forall f | f in Resent(k.sent, ch.resend) ensures f.sn < |k.sent| {
      assert f in k.sent;
    }
  }

  lemma FlushTransmits(k: Kcp, taken: seq<Bytes>, frames: seq<Frame>, ch: Choice)
    requires Conserved(k, taken, frames)
    ensures FirstSent(frames + Flush(k, ch).1) == FirstSent(frames) + k.queue[..Min(ch.take, |k.queue|)]
  {
    hide Conserved, FirstSent, Consistent, Resent, Stamp;
    RepeatsAreOld(k, taken, frames, ch);
    var released := k.queue[..Min(ch.take, |k.queue|)];
    var repeats, stamped := Resent(k.sent, ch.resend), Stamp(k.conv, |k.sent|, released);
    assert Flush(k, ch).1 == repeats + stamped;
    hide Flush, Min;
    FirstSentRepeats(frames, repeats);
    FirstSentStamped(frames + repeats, k.conv, released);
    assert frames + (repeats + stamped) == (frames + repeats) + stamped;
  }

  /** What was transmitted before and what a flush of `n` messages adds to it, against what was taken. */
  lemma TakenSplits(taken: seq<Bytes>, queue: seq<Bytes>, m: nat, n: nat)
    requires m <= |taken| && taken[m..] == queue && n <= |queue|
    ensures taken[..m + n] == taken[..m] + queue[..n] && taken[m + n..] == queue[n..]
    ensures forall i :: 0 <= i < n ==> taken[m + i] == queue[i]
  {
    assert forall i :: 0 <= i < n ==> taken[m + i] == taken[m..][i];
  }

  lemma FlushKeepsData(k: Kcp, taken: seq<Bytes>, ch: Choice)
    requires |k.sent| + |k.queue| == |taken| && taken[|k.sent|..] == k.queue
    requires forall i :: 0 <= i < |k.sent| ==> k.sent[i].data == taken[i]
    ensures var k' := Flush(k, ch).0;
            && |k'.sent| + |k'.queue| == |taken| && taken[|k'.sent|..] == k'.queue
            && forall i :: 0 <= i < |k'.sent| ==> k'.sent[i].data == taken[i]
  {
    hide Consistent, Resent;
    var n := Min(ch.take, |k.queue|);
    TakenSplits(taken, k.queue, |k.sent|, n);
    var stamped := Stamp(k.conv, |k.sent|, k.queue[..n]);
    assert forall i :: 0 <= i < n ==> stamped[i].data == k.queue[i];
    hide Stamp;
    var sent := Flush(k, ch).0.sent;
    assert sent == k.sent + stamped;
    forall i | 0 <= i < |sent| ensures sent[i].data == taken[i] {
      if i >= |k.sent| { assert taken[|k.sent| + (i - |k.sent|)] == k.queue[i - |k.sent|]; }
    }
  }

  lemma FlushEmits(k: Kcp, ch: Choice)
    ensures var (k', out) := Flush(k, ch);
            && (forall f :: f in out ==> f in k'.sent)
            && (forall f :: f in k.sent ==> f in k'.sent)
  {
    hide Consistent;
  }

  lemma FlushConserves(k: Kcp, taken: seq<Bytes>, frames: seq<Frame>, ch: Choice)
    requires Conserved(k, taken, frames)
    ensures var (k', out) := Flush(k, ch);
            Conserved(k', taken, frames + out)
  {
    FlushTransmits(k, taken, frames, ch);
    FlushKeepsData(k, taken, ch);
    FlushEmits(k, ch);
    TakenSplits(taken, k.queue, |k.sent|, Min(ch.take, |k.queue|));
    assert |Flush(k, ch).0.sent| == |k.sent| + Min(ch.take, |k.queue|);
    hide Flush, FirstSent, Consistent, Min;
  }

  lemma TakeConserves(k: Kcp, taken: seq<Bytes>, frames: seq<Frame>, data: Bytes)
    requires Conserved(k, taken, frames)
    ensures Conserved(k.(queue := k.queue + [data]), taken + [data], frames)
  {
    assert (taken + [data])[|k.sent|..] == taken[|k.sent|..] + [data];
    assert (taken + [data])[..|k.sent|] == taken[..|k.sent|];
  }

  lemma {:induction false} FramesBefore(wire: seq<Sent>, rest: seq<Sent>)
    requires forall w :: w in rest ==> !w.packet.Data?
    ensures FramesIn(wire + rest) == FramesIn(wire)
  {
    if rest == [] {
      assert wire + rest == wire;
    } else {
      var init := rest[..|rest| - 1];
      assert rest[|rest| - 1] in rest;
      FramesBefore(wire, init);
      assert (wire + rest)[..|wire + rest| - 1] == wire + init;
    }
  }

  lemma {:induction false} FramesAlone(to: SocketAddr, frames: seq<Frame>)
    ensures FramesIn(Frames(to, frames)) == frames
  {
    if frames != [] {
      var init := frames[..|frames| - 1];
      FramesAlone(to, init);
      assert Frames(to, frames)[..|frames| - 1] == Frames(to, init);
      assert frames == init + [frames[|frames| - 1]];
    }
  }

  lemma FramesInFrames(to: SocketAddr, frames: seq<Frame>, rest: seq<Sent>)
    requires forall w :: w in rest ==> !w.packet.Data?
    ensures FramesIn(Frames(to, frames) + rest) == frames
  {
    FramesBefore(Frames(to, frames), rest);
    FramesAlone(to, frames);
  }

  lemma NoFrames(wire: seq<Sent>)
    requires forall w :: w in wire ==> !w.packet.Data?
    ensures FramesIn(wire) == []
  {
    var any: SocketAddr :| true;
    FramesInFrames(any, [], wire);
    assert Frames(any, []) + wire == wire;
  }

  // ----- one call -----

  /** A session that is flushed under its own id, or established under a new one before it has emitted anything. */
  lemma FlushedOk(t: Trail, taken: seq<Bytes>, k: Kcp, after: SessionView, ch: Choice)
    requires TrailOk(t) && t.slot.Some?
    requires Conserved(k, taken, t.frames)
    requires after.kcp == Flush(k, ch).0 && k.conv == after.conv && !after.closed && after.state == Established
    requires after.conv == t.slot.value.conv || t.frames == []
    ensures TrailOk(Trail(Some(after), taken, t.frames + Flush(k, ch).1))
    ensures TrailOk(Trail(None, taken, t.frames + Flush(k, ch).1))
  {
    FlushConserves(k, taken, t.frames, ch);
    var out := Flush(k, ch).1;
    assert forall f :: f in out ==> f.conv == k.conv;
    hide Flush, Conserved;
    forall i | 0 <= i < |t.frames + out| ensures (t.frames + out)[i].conv == after.conv {
      if i >= |t.frames| { assert out[i - |t.frames|] in out; }
    }
  }

  lemma EstablishOk(t: Trail, conv: Conv, now: nat, ch: Choice)
    requires TrailOk(t) && t.slot.Some? && t.slot.value.state == SynSent
    ensures var (s', out) := Establish(t.slot.value, conv, now, ch);
            TrailOk(Trail(Some(s'), t.taken, t.frames + out))
  {
    var k := t.slot.value.kcp.(conv := conv);
    assert Conserved(k, t.taken, t.frames);
    FlushedOk(t, t.taken, k, Establish(t.slot.value, conv, now, ch).0, ch);
  }

  lemma QuietOk(t: Trail, after: Option<SessionView>)
    requires TrailOk(t)
    requires after.Some? ==>
               && t.slot.Some? && SessionOk(after.value)
               && after.value.conv == t.slot.value.conv && after.value.state == t.slot.value.state
               && after.value.kcp.(ready := t.slot.value.kcp.ready) == t.slot.value.kcp
    ensures TrailOk(Trail(after, t.taken, t.frames))
  {
  }

  lemma InboundOk(conv: Conv, peer: SocketAddr, now: nat)
    ensures TrailOk(Trail(Some(NewInbound(conv, peer, now)), [], []))
  {
  }

  lemma EstablishingOk(env: Env, t: Trail, op: SlotOp, agreed: Conv, rest: seq<Sent>)
    requires TrailOk(t) && t.slot.Some? && t.slot.value.state == SynSent
    requires forall w :: w in rest ==> !w.packet.Data?
    requires op.Receive?
    requires var (s', out) := Establish(t.slot.value, agreed, op.now, op.ch);
             var e := Step(env, t.slot, op);
             e.slot == Some(s') && e.wire == Frames(t.slot.value.peer, out) + rest && e.inserted == 0
    ensures TrailOk(Advance(env, t, op))
  {
    var (s', out) := Establish(t.slot.value, agreed, op.now, op.ch);
    EstablishOk(t, agreed, op.now, op.ch);
    FramesInFrames(t.slot.value.peer, out, rest);
    assert t.taken + [] == t.taken;
    hide TrailOk, Establish, Step;
  }

  lemma ReceiveOk(env: Env, t: Trail, op: SlotOp)
    requires TrailOk(t) && op.Receive?
    ensures TrailOk(Advance(env, t, op))
  {
    hide Flush, Establish, Conserved, Consistent, FirstSent, FramesIn, Greater;
    var e := Step(env, t.slot, op);
    StepKeepsOk(env, t.slot, op);
    var from, inb := op.from, op.inb;
    if inb.SynAckIn? && t.slot.Some? && t.slot.value.state == SynSent && t.slot.value.conv == inb.conv {
      assert Frames(t.slot.value.peer, Establish(t.slot.value, inb.conv, op.now, op.ch).1) + [] == e.wire;
      EstablishingOk(env, t, op, inb.conv, []);
    } else if inb.SynIn? && t.slot.Some? && t.slot.value.state == SynSent && t.slot.value.conv != inb.conv {
      var agreed := if Greater(from, env.me) then inb.conv else t.slot.value.conv;
      EstablishingOk(env, t, op, agreed, [Sent(from, SynAck(agreed))]);
    } else {
      NoFrames(e.wire);
      assert t.taken + [] == t.taken && t.frames + [] == t.frames;
      if e.inserted > 0 {
        InboundOk(inb.conv, from, op.now);
      } else {
        QuietOk(t, e.slot);
      }
      hide TrailOk;
    }
  }

  lemma SendOk(env: Env, t: Trail, op: SlotOp)
    requires TrailOk(t) && op.Send?
    ensures TrailOk(Advance(env, t, op))
  {
    var e := Step(env, t.slot, op);
    var s := if t.slot.Some? then t.slot.value else NewOutbound(op.drawn, op.to, op.now);
    if t.slot.None? {
      assert e.wire == [Sent(op.to, Syn(op.drawn))];
      NoFrames(e.wire);
      assert [] + [op.data] == [op.data];
    } else if Taken(t.slot, op) == [] {
      assert e.wire == [];
      NoFrames(e.wire);
      assert t.taken + [] == t.taken && t.frames + [] == t.frames;
    } else {
      TakeConserves(s.kcp, t.taken, t.frames, op.data);
      var queued := s.kcp.(queue := s.kcp.queue + [op.data]);
      if s.state == Established {
        var out := Flush(queued, op.ch).1;
        FlushedOk(t, t.taken + [op.data], queued, s.(kcp := Flush(queued, op.ch).0), op.ch);
        FramesInFrames(s.peer, out, []);
        assert e.wire == Frames(s.peer, out) + [];
      } else {
        assert e.wire == [];
        NoFrames(e.wire);
        assert t.frames + [] == t.frames;
      }
    }
  }

  lemma TickOk(env: Env, t: Trail, op: SlotOp)
    requires TrailOk(t) && op.Tick?
    ensures TrailOk(Advance(env, t, op))
  {
    hide Conserved, Consistent, FirstSent, FramesIn, Backoff;
    var e := Step(env, t.slot, op);
    assert t.taken + [] == t.taken && t.frames + [] == t.frames;
    if t.slot.Some? && t.slot.value.state == Established && !t.slot.value.kcp.dead {
      var s := t.slot.value;
      var (k, out) := Flush(s.kcp, op.ch);
      FlushedOk(t, t.taken, s.kcp, s.(kcp := k), op.ch);
      hide Flush, SlotOk;
      var rest := if e.slot.None? then Resets(s.peer, s.conv) else [];
      FramesInFrames(s.peer, out, rest);
      assert e.wire == Frames(s.peer, out) + rest;
      hide TrailOk;
    } else {
      NoFrames(e.wire);
      QuietOk(t, e.slot);
      hide TrailOk;
    }
  }

  lemma AdvanceOk(env: Env, t: Trail, op: SlotOp)
    requires TrailOk(t)
    ensures TrailOk(Advance(env, t, op))
  {
    match op
    case Receive(_, _, _, _) => ReceiveOk(env, t, op);
    case Send(_, _, _, _, _) => SendOk(env, t, op);
    case Tick(_, _) => TickOk(env, t, op);
    case Disconnect(to) =>
      NoFrames(Step(env, t.slot, op).wire);
      assert t.taken + [] == t.taken && t.frames + [] == t.frames;
  }

  lemma {:induction false} AdvanceAllOk(env: Env, t: Trail, ops: seq<SlotOp>)
    requires TrailOk(t)
    ensures TrailOk(AdvanceAll(env, t, ops))
    decreases ops
  {
    hide Advance, TrailOk;
    if ops != [] {
      AdvanceOk(env, t, ops[0]);
      AdvanceAllOk(env, Advance(env, t, ops[0]), ops[1..]);
    }
  }

  // ----- what follows for every session -----

  const UNBORN: Trail := Trail(None, [], [])

  /**
   One id per session: after any sequence of calls, all the frames the latest session of
   a slot has emitted carry one conversation id, the one the session has now; a session
   still in SynSent has emitted none.
   */
  lemma OneConvPerSession(env: Env, ops: seq<SlotOp>)
    ensures var t := AdvanceAll(env, UNBORN, ops);
            && (forall f, g :: f in t.frames && g in t.frames ==> f.conv == g.conv)
            && (t.slot.Some? ==>
                  && (t.slot.value.state == SynSent ==> t.frames == [])
                  && forall f :: f in t.frames ==> f.conv == t.slot.value.conv)
  {
    AdvanceAllOk(env, UNBORN, ops);
  }

  lemma ConservedMeans(k: Kcp, taken: seq<Bytes>, frames: seq<Frame>)
    requires Conserved(k, taken, frames)
    ensures FirstSent(frames) + k.queue == taken
    ensures forall f :: f in frames ==> f.sn < |taken| && f.data == taken[f.sn]
  {
    hide FirstSent;
    assert taken == taken[..|k.sent|] + taken[|k.sent|..];
  }

  /**
   Conservation: the messages a session has put on the wire for the first time, followed
   by those still queued, are exactly the messages it was given, in order; and every
   frame, first or repeated, carries the message its sequence number stands for.
   */
  lemma BufferedDataConserved(env: Env, ops: seq<SlotOp>)
    ensures var t := AdvanceAll(env, UNBORN, ops);
            t.slot.Some? ==>
              && FirstSent(t.frames) + t.slot.value.kcp.queue == t.taken
              && forall f :: f in t.frames ==> f.sn < |t.taken| && f.data == t.taken[f.sn]
  {
    AdvanceAllOk(env, UNBORN, ops);
    var t := AdvanceAll(env, UNBORN, ops);
    hide AdvanceAll, Conserved, FirstSent;
    if t.slot.Some? {
      ConservedMeans(t.slot.value.kcp, t.taken, t.frames);
    }
  }

  /**
   A send that reports success has been taken. The converse holds exactly when it is not
   the flush of an Established session that fails: then `send` reports an error although
   KCP holds the message, queued or already transmitted.
   */
  lemma SuccessIsTaken(env: Env, slot: Option<SessionView>, op: SlotOp)
    requires op.Send?
    ensures var outcome := Step(env, slot, op).outcome;
            var flushFails := slot.Some? && slot.value.state == Established && Taken(slot, op) != [] && !op.ch.writes;
            && (outcome == Done ==> Taken(slot, op) == [op.data])
            && ((outcome == Done <==> Taken(slot, op) == [op.data]) <==> !flushFails)
  {
  }

  /** The calls that end an Established session under `conv` whose link is dead. */
  predicate Ends(conv: Conv, op: SlotOp) {
    || op.Tick? || op.Disconnect?
    || (op.Receive? && (op.inb == P.ResetIn(conv) || (op.inb.SynIn? && op.inb.conv != conv)))
  }

  predicate NoneEnds(conv: Conv, ops: seq<SlotOp>) {
    forall op :: op in ops ==> !Ends(conv, op)
  }

  /** What one call does to an Established session whose link is dead. */
  lemma DeadLinkStep(env: Env, s: SessionView, op: SlotOp)
    requires SessionOk(s) && s.state == Established && s.kcp.dead
    ensures var e := Step(env, Some(s), op);
            if Ends(s.conv, op) then
              e.events != [] && SlotOk(e.slot) && (e.slot.Some? ==> !e.slot.value.kcp.dead)
            else
              && e.events == [] && e.slot.Some? && SessionOk(e.slot.value)
              && e.slot.value.state == Established && e.slot.value.kcp.dead && e.slot.value.conv == s.conv
              && (op.Send? ==> e.outcome == DeadLink && e.inserted == 0)
  {
    hide Flush;
  }

  lemma SendAfter(env: Env, slot: Option<SessionView>, op: SlotOp)
    requires op.Send? && SlotOk(slot)
    ensures Step(env, slot, op).outcome == DeadLink <==> slot.Some? && slot.value.kcp.dead
    ensures Step(env, slot, op).inserted == if slot.None? then 1 else 0
  {
    hide Flush;
  }

  /**
   A dead link sticks exactly until the first tick, disconnect, RESET of the session's id
   or SYN of another one: until then no event is fired and the next send, like all before
   it, reports DeadLink; right after it the next send does not, and starts a new handshake
   exactly if no session is mapped.
   */
  lemma {:induction false} DeadLinkSticks(env: Env, s: SessionView, ops: seq<SlotOp>, next: SlotOp)
    requires SessionOk(s) && s.state == Established && s.kcp.dead && next.Send?
    ensures var e := Node.StepAll(env, Some(s), ops);
            var after := Step(env, e.slot, next);
            && (NoneEnds(s.conv, ops) <==> e.events == [])
            && (e.events == [] ==>
                  && e.slot.Some? && SessionOk(e.slot.value) && e.slot.value.conv == s.conv
                  && e.slot.value.state == Established && e.slot.value.kcp.dead
                  && after.outcome == DeadLink && after.inserted == 0)
            && (ops != [] && NoneEnds(s.conv, Node.Init(ops)) && Ends(s.conv, Node.Last(ops)) ==>
                  after.outcome != DeadLink && after.inserted == if e.slot.None? then 1 else 0)
  {
    hide Step, SessionOk, Ends;
    if ops == [] {
      SendAfter(env, Some(s), next);
    } else {
      var prev, op := Node.StepAll(env, Some(s), Node.Init(ops)), Node.Last(ops);
      assert ops == Node.Init(ops) + [op];
      DeadLinkSticks(env, s, Node.Init(ops), next);
      if prev.events == [] {
        DeadLinkStep(env, prev.slot.value, op);
        var e := Step(env, prev.slot, op);
        assert [] + e.events == e.events;
        SendAfter(env, e.slot, next);
      } else {
        assert (prev.events + Step(env, prev.slot, op).events)[0] == prev.events[0];
      }
    }
  }

  /** A mapped session changes its id only by yielding in a tie-break, in the step that makes it Established. */
  lemma ConvChangesOnlyInTieBreak(env: Env, slot: Option<SessionView>, op: SlotOp)
    requires slot.Some?
    ensures var e := Step(env, slot, op);
            e.inserted == 0 && e.slot.Some? && e.slot.value.conv != slot.value.conv ==>
              && op.Receive? && op.inb == P.SynIn(e.slot.value.conv) && Greater(op.from, env.me)
              && slot.value.state == SynSent && e.slot.value.state == Established
  {
    hide Flush;
  }
}
