/** The timers of a session over whole sequences of ticks: SYN backoff and the idle timeout. */
module Timers {
  import opened Base
  import opened Addr
  import opened KcpModel
  import opened Machine
  import opened Node
  import P = Packet

  // ----- powers of two -----

  lemma {:induction false} Pow2Grows(m: nat, n: nat)
    requires m <= n
    ensures Pow2(m) <= Pow2(n)
    ensures m < n ==> Pow2(m) < Pow2(n)
    decreases n
  {
    if m < n {
      Pow2Grows(m, n - 1);
    }
  }

  lemma MulGrows(b: nat, x: nat, y: nat)
    requires x <= y
    ensures b * x <= b * y
    ensures b > 0 && x < y ==> b * x < b * y
  {
    assert b * y - b * x == b * (y - x);
  }

  lemma ModKeeps(x: nat, m: nat)
    requires m > 0
    ensures x % m == x <==> x < m
    ensures x % m <= x && x % m < m
  {
  }

  /**
   The wait before retry `r` is `base * 2^r`, as documented, exactly as long as that fits
   in 64 bits; beyond, the shift drops bits and the wait collapses.
   */
  lemma BackoffDoubles(cfg: Config, r: nat)
    ensures Backoff(cfg, r) == cfg.synRetryInterval * Pow2(r) <==> cfg.synRetryInterval * Pow2(r) < Pow2(64)
  {
    hide Pow2;
    var b, m := cfg.synRetryInterval, Pow2(64);
    ModKeeps(b * Pow2(r % 64), m);
    if r >= 64 && b > 0 {
      Pow2Grows(64, r);
      Pow2Grows(r % 64, r);
      MulGrows(b, Pow2(r % 64), Pow2(r));
      MulGrows(Pow2(r), 1, b);
    } else if b == 0 {
      assert b * Pow2(r) == 0 && b * Pow2(r % 64) == 0;
    } else {
      assert r % 64 == r;
    }
  }

  lemma {:induction false} Pow2Sum(m: nat, n: nat)
    ensures Pow2(m + n) == Pow2(m) * Pow2(n)
  {
    if n > 0 {
      Pow2Sum(m, n - 1);
      MulDoubles(Pow2(m), Pow2(n - 1));
    }
  }

  lemma MulDoubles(x: nat, y: nat)
    ensures 2 * (x * y) == x * (2 * y)
  {
  }

  lemma Pow2Of64()
    ensures Pow2(64) == 0x1_0000_0000_0000_0000
  {
    assert Pow2(4) == 0x10;
    Pow2Sum(4, 4);
    Pow2Sum(8, 8);
    Pow2Sum(16, 16);
    Pow2Sum(32, 32);
    hide Pow2;
  }

  lemma Wraps(x: nat, m: nat, rest: nat)
    requires m > 0 && rest == x % m
    ensures rest < m && exists lost: nat :: x == lost * m + rest
  {
    assert x == (x / m) * m + rest;
  }

  /**
   The wait in bits: bits from the 64th on are lost, and the shift amount counts modulo 64.
   Here and above `Pow2` is the power of two.
   */
  lemma BackoffWraps(cfg: Config, r: nat)
    ensures Pow2(0) == 1 && Pow2(r + 1) == 2 * Pow2(r)
    ensures Backoff(cfg, r) < 0x1_0000_0000_0000_0000 && Backoff(cfg, r + 64) == Backoff(cfg, r)
    ensures r < 64 ==>
              exists lost: nat :: cfg.synRetryInterval * Pow2(r) == lost * 0x1_0000_0000_0000_0000 + Backoff(cfg, r)
  {
    assert Pow2(0) == 1 && Pow2(r + 1) == 2 * Pow2(r);
    Pow2Of64();
    hide Pow2;
    assert (r + 64) % 64 == r % 64 && (r < 64 ==> r % 64 == r);
    Wraps(cfg.synRetryInterval * Pow2(r % 64), Pow2(64), Backoff(cfg, r));
  }

  // ----- SYN backoff -----

  /** Calls that bring nothing from the peer. */
  predicate Unanswered(op: SlotOp) {
    op.Tick? || op.Send?
  }

  /** The time of the latest tick. */
  function ClockAt(start: nat, ops: seq<SlotOp>): nat {
    if ops == [] then start else if Last(ops).Tick? then Last(ops).now else ClockAt(start, Init(ops))
  }

  /** Ticks follow one another, and the start, by at most `gap`, on a clock that never goes back. */
  predicate Paced(start: nat, gap: nat, ops: seq<SlotOp>) {
    ops == [] ||
    (&& Paced(start, gap, Init(ops)) && Unanswered(Last(ops))
     && (Last(ops).Tick? ==> ClockAt(start, Init(ops)) <= Last(ops).now <= ClockAt(start, Init(ops)) + gap))
  }

  predicate IsSyn(w: Sent) {
    w.packet.Syn?
  }

  function CountSyns(wire: seq<Sent>): nat {
    if wire == [] then 0 else CountSyns(Init(wire)) + if IsSyn(Last(wire)) then 1 else 0
  }

  lemma {:induction false} CountSynsConcat(a: seq<Sent>, b: seq<Sent>)
    ensures CountSyns(a + b) == CountSyns(a) + CountSyns(b)
  {
    if b == [] {
      assert a + b == a;
    } else {
      CountSynsConcat(a, Init(b));
      assert Init(a + b) == a + Init(b) && Last(a + b) == Last(b);
    }
  }

  /** All the waits before retry `r` together: `base * (2^r - 1)`. */
  function Waits(cfg: Config, r: nat): nat {
    if r == 0 then 0 else Waits(cfg, r - 1) + cfg.synRetryInterval * Pow2(r - 1)
  }

  /** One more wait of `b * p` after waits of `b * (p - 1)`. */
  lemma OneMoreWait(b: nat, p: nat)
    ensures b * (p - 1) + b * p == b * (2 * p - 1)
  {
    assert b * (2 * p - 1) - b * (p - 1) == b * p;
  }

  lemma {:induction false} WaitsClosed(cfg: Config, r: nat)
    ensures Waits(cfg, r) == cfg.synRetryInterval * (Pow2(r) - 1)
  {
    assert Pow2(0) == 1;
    if r > 0 {
      assert Pow2(r) == 2 * Pow2(r - 1);
      hide Pow2;
      WaitsClosed(cfg, r - 1);
      OneMoreWait(cfg.synRetryInterval, Pow2(r - 1));
    }
  }

  lemma {:induction false} WaitsGrow(cfg: Config, m: nat, n: nat)
    requires m <= n
    ensures Waits(cfg, m) <= Waits(cfg, n)
    decreases n
  {
    if m < n {
      WaitsGrow(cfg, m, n - 1);
    }
  }

  /** How much `r` ticks may be late together. */
  function Slack(gap: nat, r: nat): nat {
    r * gap
  }

  lemma SlackGrows(gap: nat, r: nat, n: nat)
    ensures Slack(gap, r + 1) == Slack(gap, r) + gap
    ensures r <= n ==> Slack(gap, r) <= Slack(gap, n)
  {
    if r <= n { MulGrows(gap, r, n); }
  }

  /** The backoff fits in 64 bits and the idle timeout does not strike before the retries are used up. */
  predicate Patient(cfg: Config, gap: nat) {
    && (cfg.synMaxRetries > 0 ==> cfg.synRetryInterval * Pow2(cfg.synMaxRetries - 1) < Pow2(64))
    && Waits(cfg, cfg.synMaxRetries) + Slack(gap, cfg.synMaxRetries + 1) <= cfg.sessionTimeout
  }

  /** A session waiting for its SYN_ACK at time `clock`, started at `start`. */
  predicate Waiting(cfg: Config, start: nat, gap: nat, clock: nat, s: SessionView) {
    var r := s.synRetries;
    && s.state == SynSent && !s.closed && !s.kcp.dead && s.lastRx == start
    && r <= cfg.synMaxRetries
    && start + Waits(cfg, r) <= s.synSentAt <= start + Waits(cfg, r) + Slack(gap, r)
    && s.synSentAt <= clock
    && (clock > s.synSentAt ==> r < cfg.synMaxRetries && clock < s.synSentAt + cfg.synRetryInterval * Pow2(r))
  }

  lemma RetryWait(cfg: Config, gap: nat, r: nat)
    requires Patient(cfg, gap) && r < cfg.synMaxRetries
    ensures Backoff(cfg, r) == cfg.synRetryInterval * Pow2(r)
    ensures Waits(cfg, r + 1) == Waits(cfg, r) + cfg.synRetryInterval * Pow2(r)
    ensures Waits(cfg, r + 1) <= Waits(cfg, cfg.synMaxRetries)
    ensures Slack(gap, r + 1) == Slack(gap, r) + gap <= Slack(gap, cfg.synMaxRetries)
  {
    hide Pow2, Backoff, Slack;
    var n := cfg.synMaxRetries;
    Pow2Grows(r, n - 1);
    MulGrows(cfg.synRetryInterval, Pow2(r), Pow2(n - 1));
    BackoffDoubles(cfg, r);
    WaitsGrow(cfg, r + 1, n);
    SlackGrows(gap, r, n);
    SlackGrows(gap, r + 1, n);
  }

  lemma WaitingGivesUp(env: Env, start: nat, gap: nat, clock: nat, s: SessionView, now: nat, ch: Choice)
    requires Waiting(env.cfg, start, gap, clock, s) && clock <= now <= clock + gap
    requires s.synRetries == env.cfg.synMaxRetries
    ensures var e := Step(env, Some(s), Tick(now, ch));
            var n := env.cfg.synMaxRetries;
            && e.slot == None && e.events == [Disconnected(s.peer)] && CountSyns(e.wire) == 0
            && start + Waits(env.cfg, n) <= now <= start + Waits(env.cfg, n) + Slack(gap, n + 1)
  {
    SynCounts(s.peer, s.conv);
    SlackGrows(gap, s.synRetries, s.synRetries);
    hide Backoff, Pow2, Waits, CountSyns, Slack;
    assert Step(env, Some(s), Tick(now, ch)).wire == Resets(s.peer, s.conv);
  }

  lemma WaitingGoesOn(env: Env, start: nat, gap: nat, clock: nat, s: SessionView, now: nat, ch: Choice)
    requires Patient(env.cfg, gap) && Waiting(env.cfg, start, gap, clock, s) && clock <= now <= clock + gap
    requires s.synRetries < env.cfg.synMaxRetries
    ensures var e := Step(env, Some(s), Tick(now, ch));
            var n := env.cfg.synMaxRetries;
            && e.slot.Some? && e.events == [] && Waiting(env.cfg, start, gap, now, e.slot.value)
            && CountSyns(e.wire) == e.slot.value.synRetries - s.synRetries
            && now <= start + Waits(env.cfg, n) + Slack(gap, n)
  {
    var cfg, r := env.cfg, s.synRetries;
    SynCounts(s.peer, s.conv);
    RetryWait(cfg, gap, r);
    SlackGrows(gap, cfg.synMaxRetries, cfg.synMaxRetries);
    hide Backoff, Pow2, Waits, CountSyns, Slack;
    assert now <= start + Waits(cfg, r + 1) + Slack(gap, r + 1);
    assert !Idle(cfg, s, now);
  }

  lemma SynCounts(to: SocketAddr, conv: Conv)
    ensures CountSyns(Resets(to, conv)) == 0 && CountSyns([Sent(to, Syn(conv))]) == 1 && CountSyns([]) == 0
  {
    var one := [Sent(to, Reset(conv))];
    assert Init(one) == [] && CountSyns(one) == 0;
    CountSynsConcat(one, one);
    CountSynsConcat(one + one, one);
    assert Resets(to, conv) == one + one + one;
    assert Init([Sent(to, Syn(conv))]) == [];
  }

  lemma TickKeepsPeer(env: Env, s: SessionView, op: SlotOp)
    requires op.Tick?
    ensures Step(env, Some(s), op).slot.Some? ==> Step(env, Some(s), op).slot.value.peer == s.peer
  {
  }

  /** A call that does not end the session: it goes on waiting. */
  lemma WaitingStep(env: Env, start: nat, gap: nat, clock: nat, s: SessionView, op: SlotOp)
    requires Patient(env.cfg, gap) && Waiting(env.cfg, start, gap, clock, s) && Unanswered(op)
    requires clock <= start + Waits(env.cfg, env.cfg.synMaxRetries) + Slack(gap, env.cfg.synMaxRetries)
    requires op.Tick? ==> clock <= op.now <= clock + gap
    requires Step(env, Some(s), op).events == []
    ensures var e, after := Step(env, Some(s), op), if op.Tick? then op.now else clock;
            && e.slot.Some? && e.slot.value.peer == s.peer && Waiting(env.cfg, start, gap, after, e.slot.value)
            && CountSyns(e.wire) == e.slot.value.synRetries - s.synRetries
            && after <= start + Waits(env.cfg, env.cfg.synMaxRetries) + Slack(gap, env.cfg.synMaxRetries)
  {
    if op.Send? {
      var e := Step(env, Some(s), op);
      assert e.wire == [] && e.slot.Some? && e.slot.value.(kcp := s.kcp) == s && !e.slot.value.kcp.dead;
    } else if s.synRetries == env.cfg.synMaxRetries {
      WaitingGivesUp(env, start, gap, clock, s, op.now, op.ch);
    } else {
      WaitingGoesOn(env, start, gap, clock, s, op.now, op.ch);
      TickKeepsPeer(env, s, op);
    }
    hide Step, Waits, Slack, Patient;
  }

  /** What a run of ticks and sends has come to, as long as the session has not been abandoned. */
  lemma {:induction false} WaitingRun(env: Env, conv: Conv, peer: SocketAddr, start: nat, gap: nat, ops: seq<SlotOp>)
    requires Patient(env.cfg, gap) && Paced(start, gap, ops)
    requires StepAll(env, Some(NewOutbound(conv, peer, start)), ops).events == []
    ensures var e := StepAll(env, Some(NewOutbound(conv, peer, start)), ops);
            && e.slot.Some? && e.slot.value.peer == peer
            && Waiting(env.cfg, start, gap, ClockAt(start, ops), e.slot.value)
            && CountSyns(e.wire) == e.slot.value.synRetries
            && ClockAt(start, ops) <= start + Waits(env.cfg, env.cfg.synMaxRetries) + Slack(gap, env.cfg.synMaxRetries)
  {
    var born := Some(NewOutbound(conv, peer, start));
    if ops == [] {
      assert StepAll(env, born, ops) == Keep(born, Done);
    } else {
      hide Step, Waiting, Waits, Slack, Patient, CountSyns;
      var prev, op := StepAll(env, born, Init(ops)), Last(ops);
      assert |prev.events + Step(env, prev.slot, op).events| == 0;
      WaitingRun(env, conv, peer, start, gap, Init(ops));
      WaitingStep(env, start, gap, ClockAt(start, Init(ops)), prev.slot.value, op);
      CountSynsConcat(prev.wire, Step(env, prev.slot, op).wire);
    }
  }

  lemma Abandonment(env: Env, conv: Conv, peer: SocketAddr, start: nat, gap: nat, ops: seq<SlotOp>)
    requires Patient(env.cfg, gap) && ops != [] && Paced(start, gap, ops)
    requires StepAll(env, Some(NewOutbound(conv, peer, start)), Init(ops)).events == []
    ensures var e := StepAll(env, Some(NewOutbound(conv, peer, start)), ops);
            var n := env.cfg.synMaxRetries;
            if e.events == [] then ClockAt(start, ops) <= start + Waits(env.cfg, n) + Slack(gap, n)
            else
              && Last(ops).Tick? && e.slot == None && e.events == [Disconnected(peer)]
              && CountSyns(e.wire) == n
              && start + Waits(env.cfg, n) <= Last(ops).now <= start + Waits(env.cfg, n) + Slack(gap, n + 1)
  {
    hide Waits, Slack;
    var born := Some(NewOutbound(conv, peer, start));
    if StepAll(env, born, ops).events == [] {
      WaitingRun(env, conv, peer, start, gap, ops);
    } else {
      WaitingRun(env, conv, peer, start, gap, Init(ops));
      var prev, op := StepAll(env, born, Init(ops)), Last(ops);
      var s, e := prev.slot.value, Step(env, prev.slot, op);
      CountSynsConcat(prev.wire, e.wire);
      assert [] + e.events == e.events && (op.Send? ==> e.events == []);
      if op.Tick? {
        if s.synRetries == env.cfg.synMaxRetries {
          WaitingGivesUp(env, start, gap, ClockAt(start, Init(ops)), s, op.now, op.ch);
        } else {
          WaitingGoesOn(env, start, gap, ClockAt(start, Init(ops)), s, op.now, op.ch);
        }
      }
      hide Step, Waiting;
    }
  }

  /**
   SYN backoff: with no packet from the peer, a clock that never goes back and ticks at
   most `gap` apart, the tick that abandons a session started at `start` comes no earlier
   than `base * (2^n - 1)` ms after its first SYN and at most `(n + 1) * gap` ms later
   than that, after exactly `n` retries; and no tick beyond `base * (2^n - 1) + n * gap`
   finds it still there.
   */
  lemma {:induction false} SynBackoffBounds(env: Env, conv: Conv, peer: SocketAddr, start: nat, gap: nat,
                                            ops: seq<SlotOp>)
    requires Patient(env.cfg, gap) && ops != [] && Paced(start, gap, ops)
    requires StepAll(env, Some(NewOutbound(conv, peer, start)), Init(ops)).events == []
    ensures var e := StepAll(env, Some(NewOutbound(conv, peer, start)), ops);
            var n := env.cfg.synMaxRetries;
            var total := env.cfg.synRetryInterval * (Pow2(n) - 1);
            if e.events == [] then ClockAt(start, ops) <= start + total + n * gap
            else
              && Last(ops).Tick? && e.slot == None && e.events == [Disconnected(peer)]
              && CountSyns(e.wire) == n
              && start + total <= Last(ops).now <= start + total + (n + 1) * gap
  {
    hide Step, StepAll, Waits, Pow2, Patient, Paced, ClockAt, CountSyns;
    WaitsClosed(env.cfg, env.cfg.synMaxRetries);
    Abandonment(env, conv, peer, start, gap, ops);
  }

  // ----- the idle timeout -----

  /**
   What counts as a sign of life of an Established session: any KCP frame from the peer's
   address, whatever its conversation id, and a repeated SYN of the session's own id.
   */
  predicate Refreshes(conv: Conv, op: SlotOp) {
    op.Receive? && (op.inb.FrameIn? || op.inb.RuntIn? || op.inb == P.SynIn(conv))
  }

  /** Calls that can end the session under `conv` by idleness only. */
  predicate Harmless(conv: Conv, op: SlotOp) {
    match op
    case Receive(_, inb, now, _) => now > 0 && inb != P.ResetIn(conv) && (inb.SynIn? ==> inb.conv == conv)
    case Send(_, _, _, _, ch) => !ch.dies
    case Tick(_, ch) => !ch.dies
    case Disconnect(_) => false
  }

  /** The time of the last sign of life. */
  function LastHeard(conv: Conv, heard: nat, ops: seq<SlotOp>): nat {
    if ops == [] then heard
    else if Refreshes(conv, Last(ops)) then Last(ops).now
    else LastHeard(conv, heard, Init(ops))
  }

  /** At every tick the last sign of life is at most the timeout old. */
  predicate Timely(cfg: Config, conv: Conv, heard: nat, ops: seq<SlotOp>) {
    ops == [] ||
    (&& Timely(cfg, conv, heard, Init(ops))
     && (Last(ops).Tick? ==> Last(ops).now <= LastHeard(conv, heard, Init(ops)) + cfg.sessionTimeout))
  }

  predicate Alive(s: SessionView, conv: Conv, peer: SocketAddr, heard: nat) {
    && s.state == Established && !s.closed && !s.kcp.dead && s.conv == conv && s.peer == peer
    && s.lastRx == heard && heard > 0
  }

  lemma HarmlessStep(env: Env, s: SessionView, heard: nat, op: SlotOp)
    requires Alive(s, s.conv, s.peer, heard) && Harmless(s.conv, op)
    ensures var e := Step(env, Some(s), op);
            if op.Tick? && Elapsed(op.now, heard) > env.cfg.sessionTimeout then
              e.slot == None && e.events == [Disconnected(s.peer)]
            else
              && e.slot.Some? && e.events == []
              && Alive(e.slot.value, s.conv, s.peer, if Refreshes(s.conv, op) then op.now else heard)
  {
    hide Greater, Backoff;
  }

  lemma {:induction false} AliveRun(env: Env, s: SessionView, ops: seq<SlotOp>)
    requires Alive(s, s.conv, s.peer, s.lastRx) && forall op :: op in ops ==> Harmless(s.conv, op)
    requires Timely(env.cfg, s.conv, s.lastRx, ops)
    ensures var e := StepAll(env, Some(s), ops);
            e.slot.Some? && e.events == [] && Alive(e.slot.value, s.conv, s.peer, LastHeard(s.conv, s.lastRx, ops))
  {
    hide Step, Alive, Harmless;
    if ops != [] {
      AliveRun(env, s, Init(ops));
      var prev := StepAll(env, Some(s), Init(ops));
      assert Last(ops) in ops;
      AliveMeans(prev.slot.value, s.conv, s.peer, LastHeard(s.conv, s.lastRx, Init(ops)));
      HarmlessStep(env, prev.slot.value, LastHeard(s.conv, s.lastRx, Init(ops)), Last(ops));
    }
  }

  lemma AliveMeans(s: SessionView, conv: Conv, peer: SocketAddr, heard: nat)
    requires Alive(s, conv, peer, heard)
    ensures s.conv == conv && s.peer == peer
  {
  }

  /**
   Idle timeout, both sides: over any calls that could end the session only by idleness,
   it is still there without an event exactly when at every tick its last sign of life was
   at most `session_timeout` old; the first tick that finds it older removes it and fires
   Disconnected.
   */
  lemma {:induction false} IdleTimeoutExact(env: Env, s: SessionView, ops: seq<SlotOp>)
    requires Alive(s, s.conv, s.peer, s.lastRx) && forall op :: op in ops ==> Harmless(s.conv, op)
    ensures var e := StepAll(env, Some(s), ops);
            && (e.events == [] <==> Timely(env.cfg, s.conv, s.lastRx, ops))
            && (e.events == [] ==>
                  e.slot.Some? && Alive(e.slot.value, s.conv, s.peer, LastHeard(s.conv, s.lastRx, ops)))
            && (e.events != [] && ops != [] && Timely(env.cfg, s.conv, s.lastRx, Init(ops)) ==>
                  e.slot == None && e.events == [Disconnected(s.peer)])
  {
    hide Step, Alive, Harmless;
    if Timely(env.cfg, s.conv, s.lastRx, ops) {
      AliveRun(env, s, ops);
    } else {
      IdleTimeoutExact(env, s, Init(ops));
      var prev, heard := StepAll(env, Some(s), Init(ops)), LastHeard(s.conv, s.lastRx, Init(ops));
      if Timely(env.cfg, s.conv, s.lastRx, Init(ops)) {
        AliveRun(env, s, Init(ops));
        AliveMeans(prev.slot.value, s.conv, s.peer, heard);
        assert Last(ops) in ops;
        HarmlessStep(env, prev.slot.value, heard, Last(ops));
        assert [] + [Disconnected(s.peer)] == [Disconnected(s.peer)];
      } else {
        assert (prev.events + Step(env, prev.slot, Last(ops)).events)[0] == prev.events[0];
      }
    }
  }

  /** The call makes the session of its sender Established, with a link that is alive. */
  predicate Births(env: Env, slot: Option<SessionView>, first: SlotOp) {
    && first.Receive? && Connected(first.from) in Step(env, slot, first).events
    && !first.ch.dies && (slot.Some? && slot.value.state == SynSent ==> !slot.value.kcp.dead)
  }

  lemma BornAlive(env: Env, slot: Option<SessionView>, first: SlotOp)
    requires SlotOk(slot) && Births(env, slot, first) && first.now > 0
    ensures var born := Step(env, slot, first).slot;
            born.Some? && Alive(born.value, born.value.conv, born.value.peer, first.now)
  {
    hide Greater, Backoff;
  }

  /**
   The idle timeout, counted from birth: whichever datagram makes a session Established (a SYN
   for no session, the SYN of a restarted peer, a SYN_ACK or the SYN of a simultaneous open),
   its idle timer starts then. Over any calls that could end it only by idleness it is still
   there exactly if at every tick its last sign of life, beginning with that datagram, is at
   most `session_timeout` old; and the first tick that finds it older removes it.
   */
  lemma IdleFromBirth(env: Env, slot: Option<SessionView>, first: SlotOp, ops: seq<SlotOp>)
    requires SlotOk(slot) && Births(env, slot, first) && first.now > 0
    requires var born := Step(env, slot, first).slot;
             born.Some? ==> forall op :: op in ops ==> Harmless(born.value.conv, op)
    ensures var born := Step(env, slot, first);
            var e := StepAll(env, slot, [first] + ops);
            && born.slot.Some?
            && var s := born.slot.value;
               && (e.events == born.events <==> Timely(env.cfg, s.conv, first.now, ops))
               && (e.events == born.events ==> e.slot.Some?)
               && (ops != [] && Timely(env.cfg, s.conv, first.now, Init(ops)) && Last(ops).Tick?
                   && Last(ops).now > LastHeard(s.conv, first.now, Init(ops)) + env.cfg.sessionTimeout ==>
                     e.slot == None && e.events == born.events + [Disconnected(s.peer)])
  {
    BornAlive(env, slot, first);
    var born := Step(env, slot, first);
    var s := born.slot.value;
    assert s.lastRx == first.now;
    hide Step, Alive, Harmless, Births;
    StepOne(env, slot, first);
    StepAllConcat(env, slot, [first], ops);
    IdleTimeoutExact(env, s, ops);
    var rest := StepAll(env, Some(s), ops);
    assert (born.events + rest.events == born.events) <==> rest.events == [] by {
      assert |born.events + rest.events| == |born.events| + |rest.events|;
    }
    hide StepAll;
  }
}
