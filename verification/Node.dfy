/**
 A whole node: the session map, the calls that reach one peer and the tick that sweeps
 all of them. A node is proved to be the product of one session machine per peer.
 */
module Node {
  import opened Base
  import opened Addr
  import opened KcpModel
  import opened Machine
  import P = Packet

  type SessionMap = map<CanonicalAddr, SessionView>

  /** `order` is the order in which the tick meets the keys of the hash map. */
  datatype NodeOp =
    | On(op: SlotOp)
    | TickAll(now: nat, order: seq<CanonicalAddr>, choice: CanonicalAddr -> Choice)

  datatype NodeEffect = NodeEffect(sessions: SessionMap, events: seq<Event>, wire: seq<Sent>,
                                   inbox: seq<Message>, inserted: nat)

  function Target(op: SlotOp): CanonicalAddr
    requires !op.Tick?
  {
    Canonicalize(if op.Receive? then op.from else op.to)
  }

  function Lookup(m: SessionMap, key: CanonicalAddr): Option<SessionView> {
    if key in m then Some(m[key]) else None
  }

  function Store(m: SessionMap, key: CanonicalAddr, slot: Option<SessionView>): SessionMap {
    if slot.Some? then m[key := slot.value] else m - {key}
  }

  function Last<T>(s: seq<T>): T
    requires s != []
  {
    s[|s| - 1]
  }

  function Init<T>(s: seq<T>): seq<T>
    requires s != []
  {
    s[..|s| - 1]
  }

  predicate Distinct<T(==)>(s: seq<T>) {
    forall i, j :: 0 <= i < j < |s| ==> s[i] != s[j]
  }

  // ----- the tick -----

  datatype Sweep = Sweep(sessions: SessionMap, wire: seq<Sent>, doomed: seq<CanonicalAddr>)

  /** The first loop of a tick: every session is driven and the keys to remove are collected. */
  function SweepAll(cfg: Config, m: SessionMap, order: seq<CanonicalAddr>, now: nat,
                    choice: CanonicalAddr -> Choice): Sweep
    requires forall k :: k in order ==> k in m
  {
    if order == [] then Sweep(m, [], [])
    else
      var prev := SweepAll(cfg, m, Init(order), now, choice);
      var k := Last(order);
      var t := Touch(cfg, m[k], now, choice(k));
      Sweep(prev.sessions[k := t.session], prev.wire + t.wire, prev.doomed + if t.doomed then [k] else [])
  }

  /** One removal: the session leaves the map, three RESETs and one event announce it. */
  function Prune(e: NodeEffect, key: CanonicalAddr): NodeEffect {
    if key in e.sessions then
      var s := e.sessions[key];
      e.(sessions := Store(e.sessions, key, None), events := e.events + [Disconnected(s.peer)],
         wire := e.wire + Resets(s.peer, s.conv))
    else e
  }

  /** A removal adds to the outputs so far what it would produce on its own. */
  lemma PruneAdds(e: NodeEffect, key: CanonicalAddr)
    ensures var d := Prune(NodeEffect(e.sessions, [], [], [], 0), key);
            Prune(e, key) == NodeEffect(d.sessions, e.events + d.events, e.wire + d.wire, e.inbox, e.inserted)
  {
  }

  /** The second loop of a tick, over the keys collected by the first. */
  function PruneAll(m: SessionMap, doomed: seq<CanonicalAddr>): NodeEffect {
    if doomed == [] then NodeEffect(m, [], [], [], 0)
    else Prune(PruneAll(m, Init(doomed)), Last(doomed))
  }

  predicate Enumerates(order: seq<CanonicalAddr>, m: SessionMap) {
    && Distinct(order)
    && (forall k :: k in order ==> k in m)
    && (forall k :: k in m ==> k in order)
  }

  predicate ValidOp(m: SessionMap, op: NodeOp) {
    match op
    case On(op) => !op.Tick?
    case TickAll(_, order, _) => Enumerates(order, m)
  }

  /** The node after a call for `key` with effect `e`. */
  function Placed(m: SessionMap, key: CanonicalAddr, e: Effect): NodeEffect {
    NodeEffect(Store(m, key, e.slot), e.events, e.wire, e.inbox, e.inserted)
  }

  function NodeStep(env: Env, m: SessionMap, op: NodeOp): NodeEffect
    requires ValidOp(m, op)
  {
    match op
    case On(op) =>
      var key := Target(op);
      var e := Step(env, Lookup(m, key), op);
      Placed(m, key, e)
    case TickAll(now, order, choice) =>
      var sweep := SweepAll(env.cfg, m, order, now, choice);
      var pruned := PruneAll(sweep.sessions, sweep.doomed);
      pruned.(wire := sweep.wire + pruned.wire)
  }

  // ----- what concerns one peer -----

  function EventsOf(events: seq<Event>, p: CanonicalAddr): seq<Event> {
    if events == [] then []
    else EventsOf(Init(events), p) + if Canonicalize(Last(events).addr) == p then [Last(events)] else []
  }

  function WireOf(wire: seq<Sent>, p: CanonicalAddr): seq<Sent> {
    if wire == [] then []
    else WireOf(Init(wire), p) + if Canonicalize(Last(wire).to) == p then [Last(wire)] else []
  }

  function InboxOf(inbox: seq<Message>, p: CanonicalAddr): seq<Message> {
    if inbox == [] then []
    else InboxOf(Init(inbox), p) + if Canonicalize(Last(inbox).peer) == p then [Last(inbox)] else []
  }

  lemma {:induction false} EventsOfConcat(a: seq<Event>, b: seq<Event>, p: CanonicalAddr)
    ensures EventsOf(a + b, p) == EventsOf(a, p) + EventsOf(b, p)
  {
    if b == [] {
      assert a + b == a;
    } else {
      EventsOfConcat(a, Init(b), p);
      assert Init(a + b) == a + Init(b) && Last(a + b) == Last(b);
    }
  }

  lemma {:induction false} WireOfConcat(a: seq<Sent>, b: seq<Sent>, p: CanonicalAddr)
    ensures WireOf(a + b, p) == WireOf(a, p) + WireOf(b, p)
  {
    if b == [] {
      assert a + b == a;
    } else {
      WireOfConcat(a, Init(b), p);
      assert Init(a + b) == a + Init(b) && Last(a + b) == Last(b);
    }
  }

  lemma {:induction false} InboxOfConcat(a: seq<Message>, b: seq<Message>, p: CanonicalAddr)
    ensures InboxOf(a + b, p) == InboxOf(a, p) + InboxOf(b, p)
  {
    if b == [] {
      assert a + b == a;
    } else {
      InboxOfConcat(a, Init(b), p);
      assert Init(a + b) == a + Init(b) && Last(a + b) == Last(b);
    }
  }

  lemma {:induction false} EventsAllOf(events: seq<Event>, key: CanonicalAddr, p: CanonicalAddr)
    requires forall e :: e in events ==> Canonicalize(e.addr) == key
    ensures EventsOf(events, p) == if p == key then events else []
  {
    if events != [] {
      EventsAllOf(Init(events), key, p);
      assert events == Init(events) + [Last(events)];
    }
  }

  lemma {:induction false} WireAllOf(wire: seq<Sent>, key: CanonicalAddr, p: CanonicalAddr)
    requires forall s :: s in wire ==> Canonicalize(s.to) == key
    ensures WireOf(wire, p) == if p == key then wire else []
  {
    if wire != [] {
      WireAllOf(Init(wire), key, p);
      assert wire == Init(wire) + [Last(wire)];
    }
  }

  lemma {:induction false} InboxAllOf(inbox: seq<Message>, key: CanonicalAddr, p: CanonicalAddr)
    requires forall m :: m in inbox ==> Canonicalize(m.peer) == key
    ensures InboxOf(inbox, p) == if p == key then inbox else []
  {
    if inbox != [] {
      InboxAllOf(Init(inbox), key, p);
      assert inbox == Init(inbox) + [Last(inbox)];
    }
  }

  // ----- the map invariant -----

  predicate KeyedAt(key: CanonicalAddr, s: SessionView) {
    Canonicalize(s.peer) == key && SessionOk(s)
  }

  /** Every key is the canonical form of its session's address and every mapped session is open and consistent. */
  predicate Keyed(m: SessionMap) {
    forall k :: k in m ==> KeyedAt(k, m[k])
  }

  lemma TouchStaysKeyed(cfg: Config, key: CanonicalAddr, s: SessionView, now: nat, ch: Choice)
    requires KeyedAt(key, s)
    ensures KeyedAt(key, Touch(cfg, s, now, ch).session)
    ensures Touch(cfg, s, now, ch).session.(kcp := s.kcp, synSentAt := s.synSentAt, synRetries := s.synRetries) == s
    ensures forall w :: w in Touch(cfg, s, now, ch).wire ==> w.to == s.peer
  {
  }

  lemma SynStaysKeyed(me: SocketAddr, key: CanonicalAddr, slot: Option<SessionView>, from: SocketAddr,
                      conv: Conv, now: nat, ch: Choice)
    requires slot.Some? ==> Canonicalize(slot.value.peer) == key
    requires Canonicalize(from) == key
    ensures var e := OnSyn(me, slot, from, conv, now, ch);
            && (e.slot.Some? ==> Canonicalize(e.slot.value.peer) == key)
            && (forall v :: v in e.events ==> Canonicalize(v.addr) == key)
            && (forall w :: w in e.wire ==> Canonicalize(w.to) == key)
            && (forall m :: m in e.inbox ==> Canonicalize(m.peer) == key)
  {
    hide Flush, Consistent, Canonicalize, SessionOk, Greater;
  }

  lemma ReceiveStaysKeyed(me: SocketAddr, key: CanonicalAddr, slot: Option<SessionView>, from: SocketAddr,
                          inb: P.Inbound, now: nat, ch: Choice)
    requires slot.Some? ==> Canonicalize(slot.value.peer) == key
    requires Canonicalize(from) == key
    ensures var e := OnDatagram(me, slot, from, inb, now, ch);
            && (e.slot.Some? ==> Canonicalize(e.slot.value.peer) == key)
            && (forall v :: v in e.events ==> Canonicalize(v.addr) == key)
            && (forall w :: w in e.wire ==> Canonicalize(w.to) == key)
            && (forall m :: m in e.inbox ==> Canonicalize(m.peer) == key)
  {
    hide Flush, Canonicalize, OnSyn, Accepts;
    if inb.SynIn? {
      SynStaysKeyed(me, key, slot, from, inb.conv, now, ch);
    }
  }

  lemma StepStaysKeyed(env: Env, key: CanonicalAddr, slot: Option<SessionView>, op: SlotOp)
    requires slot.Some? ==> KeyedAt(key, slot.value)
    requires op.Tick? || Target(op) == key
    ensures var e := Step(env, slot, op);
            && (e.slot.Some? ==> KeyedAt(key, e.slot.value))
            && (forall v :: v in e.events ==> Canonicalize(v.addr) == key)
            && (forall w :: w in e.wire ==> Canonicalize(w.to) == key)
            && (forall m :: m in e.inbox ==> Canonicalize(m.peer) == key)
  {
    StepKeepsOk(env, slot, op);
    hide Flush, Consistent, Backoff, Canonicalize, SessionOk, OnDatagram;
    if op.Receive? {
      ReceiveStaysKeyed(env.me, key, slot, op.from, op.inb, op.now, op.ch);
    }
  }

  // ----- one tick, seen by one peer -----

  lemma {:induction false} DistinctLast<T>(s: seq<T>)
    requires s != [] && Distinct(s)
    ensures Distinct(Init(s)) && Last(s) !in Init(s)
    ensures forall x :: x in s <==> x in Init(s) || x == Last(s)
  {
    assert s == Init(s) + [Last(s)];
  }

  lemma {:induction false} SweepKeys(cfg: Config, m: SessionMap, order: seq<CanonicalAddr>, now: nat,
                                     choice: CanonicalAddr -> Choice)
    requires Distinct(order) && forall k :: k in order ==> k in m
    ensures var sweep := SweepAll(cfg, m, order, now, choice);
            && sweep.sessions.Keys == m.Keys && Distinct(sweep.doomed)
            && (forall k :: k in sweep.doomed ==> k in order)
  {
    hide Touch;
    if order != [] {
      DistinctLast(order);
      SweepKeys(cfg, m, Init(order), now, choice);
    }
  }

  lemma {:induction false} SweepSpares(cfg: Config, m: SessionMap, order: seq<CanonicalAddr>, now: nat,
                                       choice: CanonicalAddr -> Choice, p: CanonicalAddr)
    requires forall k :: k in order ==> k in m
    requires p !in order
    ensures Lookup(SweepAll(cfg, m, order, now, choice).sessions, p) == Lookup(m, p)
  {
    hide Touch;
    if order != [] {
      SweepSpares(cfg, m, Init(order), now, choice, p);
    }
  }

  lemma {:induction false} SweepAt(cfg: Config, m: SessionMap, order: seq<CanonicalAddr>, now: nat,
                                   choice: CanonicalAddr -> Choice, p: CanonicalAddr)
    requires Keyed(m) && Distinct(order) && forall k :: k in order ==> k in m
    ensures var sweep := SweepAll(cfg, m, order, now, choice);
            if p in order then
              var t := Touch(cfg, m[p], now, choice(p));
              && Lookup(sweep.sessions, p) == Some(t.session)
              && WireOf(sweep.wire, p) == t.wire && (p in sweep.doomed <==> t.doomed)
            else
              Lookup(sweep.sessions, p) == Lookup(m, p) && WireOf(sweep.wire, p) == [] && p !in sweep.doomed
  {
    if order != [] {
      var k := Last(order);
      var prev := SweepAll(cfg, m, Init(order), now, choice);
      var t := Touch(cfg, m[k], now, choice(k));
      assert KeyedAt(k, m[k]);
      TouchStaysKeyed(cfg, k, m[k], now, choice(k));
      hide Touch, KeyedAt;
      WireAllOf(t.wire, k, p);
      WireOfConcat(prev.wire, t.wire, p);
      DistinctLast(order);
      SweepAt(cfg, m, Init(order), now, choice, p);
    }
  }

  lemma SweepKeyed(cfg: Config, m: SessionMap, order: seq<CanonicalAddr>, now: nat, choice: CanonicalAddr -> Choice)
    requires Keyed(m) && Distinct(order) && forall k :: k in order ==> k in m
    ensures Keyed(SweepAll(cfg, m, order, now, choice).sessions)
  {
    var sweep := SweepAll(cfg, m, order, now, choice);
    forall k | k in sweep.sessions ensures KeyedAt(k, sweep.sessions[k]) {
      SweepKeys(cfg, m, order, now, choice);
      SweepAt(cfg, m, order, now, choice, k);
      TouchStaysKeyed(cfg, k, m[k], now, choice(k));
      assert Lookup(sweep.sessions, k) == Some(sweep.sessions[k]) && Lookup(m, k) == Some(m[k]);
    }
  }

  lemma {:induction false} PruneLookup(m: SessionMap, doomed: seq<CanonicalAddr>, p: CanonicalAddr)
    requires Distinct(doomed)
    ensures Lookup(PruneAll(m, doomed).sessions, p) == if p in doomed then None else Lookup(m, p)
  {
    if doomed != [] {
      DistinctLast(doomed);
      PruneLookup(m, Init(doomed), p);
    }
  }

  /** What the removal of the last collected key adds to those before it. */
  lemma PruneLast(m: SessionMap, doomed: seq<CanonicalAddr>)
    requires doomed != [] && Distinct(doomed) && Last(doomed) in m
    ensures var prev, s := PruneAll(m, Init(doomed)), m[Last(doomed)];
            && PruneAll(m, doomed).events == prev.events + [Disconnected(s.peer)]
            && PruneAll(m, doomed).wire == prev.wire + Resets(s.peer, s.conv)
  {
    DistinctLast(doomed);
    PruneLookup(m, Init(doomed), Last(doomed));
    assert Lookup(m, Last(doomed)).Some?;
  }

  lemma {:induction false} PruneEvents(m: SessionMap, doomed: seq<CanonicalAddr>, p: CanonicalAddr)
    requires Keyed(m) && Distinct(doomed) && forall k :: k in doomed ==> k in m
    ensures EventsOf(PruneAll(m, doomed).events, p) == if p in doomed then [Disconnected(m[p].peer)] else []
  {
    if doomed != [] {
      var prev, s := PruneAll(m, Init(doomed)), m[Last(doomed)];
      assert KeyedAt(Last(doomed), s);
      PruneLast(m, doomed);
      DistinctLast(doomed);
      hide PruneAll, EventsOf;
      EventsAllOf([Disconnected(s.peer)], Last(doomed), p);
      EventsOfConcat(prev.events, [Disconnected(s.peer)], p);
      hide KeyedAt, Resets;
      PruneEvents(m, Init(doomed), p);
    }
  }

  lemma {:induction false} PruneWire(m: SessionMap, doomed: seq<CanonicalAddr>, p: CanonicalAddr)
    requires Keyed(m) && Distinct(doomed) && forall k :: k in doomed ==> k in m
    ensures WireOf(PruneAll(m, doomed).wire, p) == if p in doomed then Resets(m[p].peer, m[p].conv) else []
  {
    if doomed != [] {
      var prev, s := PruneAll(m, Init(doomed)), m[Last(doomed)];
      assert KeyedAt(Last(doomed), s);
      PruneLast(m, doomed);
      DistinctLast(doomed);
      hide PruneAll, WireOf;
      WireAllOf(Resets(s.peer, s.conv), Last(doomed), p);
      WireOfConcat(prev.wire, Resets(s.peer, s.conv), p);
      hide KeyedAt, Resets;
      PruneWire(m, Init(doomed), p);
    }
  }

  /** What a peer sees of the removals: those collected go, each with its own event and RESETs, the others stay. */
  lemma PruneAt(m: SessionMap, doomed: seq<CanonicalAddr>, p: CanonicalAddr)
    requires Keyed(m) && Distinct(doomed) && forall k :: k in doomed ==> k in m
    ensures var e := PruneAll(m, doomed);
            if p in doomed then
              && p !in e.sessions
              && EventsOf(e.events, p) == [Disconnected(m[p].peer)]
              && WireOf(e.wire, p) == Resets(m[p].peer, m[p].conv)
            else
              && Lookup(e.sessions, p) == Lookup(m, p)
              && EventsOf(e.events, p) == [] && WireOf(e.wire, p) == []
  {
    PruneLookup(m, doomed, p);
    PruneEvents(m, doomed, p);
    PruneWire(m, doomed, p);
  }

  lemma {:induction false} PruneKeeps(m: SessionMap, doomed: seq<CanonicalAddr>)
    requires Keyed(m)
    ensures Keyed(PruneAll(m, doomed).sessions) && PruneAll(m, doomed).inbox == []
  {
    hide KeyedAt, Resets;
    if doomed != [] {
      PruneKeeps(m, Init(doomed));
    }
  }

  /** What peer `p` sees of a node's effect is the effect `e`. */
  predicate Shows(n: NodeEffect, p: CanonicalAddr, e: Effect) {
    && Lookup(n.sessions, p) == e.slot
    && EventsOf(n.events, p) == e.events && WireOf(n.wire, p) == e.wire && InboxOf(n.inbox, p) == e.inbox
  }

  lemma CallKeepsKeyed(env: Env, m: SessionMap, op: SlotOp)
    requires Keyed(m) && !op.Tick?
    ensures Keyed(NodeStep(env, m, On(op)).sessions)
  {
    StepStaysKeyed(env, Target(op), Lookup(m, Target(op)), op);
    hide Step, Target, KeyedAt;
  }

  lemma CallProjects(env: Env, m: SessionMap, op: SlotOp, p: CanonicalAddr)
    requires Keyed(m) && !op.Tick?
    ensures Shows(NodeStep(env, m, On(op)), p,
                  if p == Target(op) then Step(env, Lookup(m, p), op) else Keep(Lookup(m, p), Done))
  {
    var key := Target(op);
    var e := Step(env, Lookup(m, key), op);
    StepStaysKeyed(env, key, Lookup(m, key), op);
    EventsAllOf(e.events, key, p);
    WireAllOf(e.wire, key, p);
    InboxAllOf(e.inbox, key, p);
    hide Step, Target, EventsOf, WireOf, InboxOf, Keyed;
  }

  lemma TickProjects(env: Env, m: SessionMap, now: nat, order: seq<CanonicalAddr>, choice: CanonicalAddr -> Choice,
                     p: CanonicalAddr)
    requires Keyed(m) && Enumerates(order, m)
    ensures Keyed(NodeStep(env, m, TickAll(now, order, choice)).sessions)
    ensures Shows(NodeStep(env, m, TickAll(now, order, choice)), p, Step(env, Lookup(m, p), Tick(now, choice(p))))
  {
    hide Touch, SweepAll, PruneAll, Keyed, EventsOf, WireOf;
    var sweep := SweepAll(env.cfg, m, order, now, choice);
    var pruned := PruneAll(sweep.sessions, sweep.doomed);
    SweepKeyed(env.cfg, m, order, now, choice);
    SweepKeys(env.cfg, m, order, now, choice);
    PruneKeeps(sweep.sessions, sweep.doomed);
    SweepAt(env.cfg, m, order, now, choice, p);
    PruneAt(sweep.sessions, sweep.doomed, p);
    WireOfConcat(sweep.wire, pruned.wire, p);
  }

  /** A call or a whole tick does to peer `p` what the machine of `p` alone does. */
  lemma StepProjects(env: Env, m: SessionMap, op: NodeOp, p: CanonicalAddr)
    requires Keyed(m) && ValidOp(m, op)
    ensures Keyed(NodeStep(env, m, op).sessions)
    ensures Shows(NodeStep(env, m, op), p, StepAll(env, Lookup(m, p), ProjectOp(op, p)))
  {
    hide Step, NodeStep, Shows, Keyed;
    match op
    case On(sop) =>
      CallKeepsKeyed(env, m, sop);
      CallProjects(env, m, sop, p);
      if p == Target(sop) { StepOne(env, Lookup(m, p), sop); }
    case TickAll(now, order, choice) =>
      TickProjects(env, m, now, order, choice, p);
      StepOne(env, Lookup(m, p), Tick(now, choice(p)));
  }

  // ----- runs -----

  /** The machine of one peer over a sequence of calls, with its outputs concatenated. */
  function StepAll(env: Env, slot: Option<SessionView>, ops: seq<SlotOp>): Effect {
    if ops == [] then Keep(slot, Done)
    else
      var prev := StepAll(env, slot, Init(ops));
      var e := Step(env, prev.slot, Last(ops));
      Effect(e.slot, prev.events + e.events, prev.wire + e.wire, prev.inbox + e.inbox,
             prev.inserted + e.inserted, e.outcome)
  }

  lemma StepOne(env: Env, slot: Option<SessionView>, op: SlotOp)
    ensures StepAll(env, slot, [op]) == Step(env, slot, op)
  {
    assert Init([op]) == [];
    assert StepAll(env, slot, []) == Keep(slot, Done);
    var e := Step(env, slot, op);
    assert [] + e.events == e.events && [] + e.wire == e.wire && [] + e.inbox == e.inbox;
  }

  lemma {:induction false} StepAllConcat(env: Env, slot: Option<SessionView>, a: seq<SlotOp>, b: seq<SlotOp>)
    ensures var e := StepAll(env, slot, a + b);
            var e1 := StepAll(env, slot, a);
            var e2 := StepAll(env, e1.slot, b);
            && e.slot == e2.slot && e.events == e1.events + e2.events
            && e.wire == e1.wire + e2.wire && e.inbox == e1.inbox + e2.inbox
  {
    hide Step;
    if b == [] {
      assert a + b == a;
    } else {
      StepAllConcat(env, slot, a, Init(b));
      assert Init(a + b) == a + Init(b) && Last(a + b) == Last(b);
      var e1 := StepAll(env, slot, a);
      var e2 := StepAll(env, e1.slot, Init(b));
      var e := Step(env, e2.slot, Last(b));
      assert (e1.events + e2.events) + e.events == e1.events + (e2.events + e.events);
      assert (e1.wire + e2.wire) + e.wire == e1.wire + (e2.wire + e.wire);
      assert (e1.inbox + e2.inbox) + e.inbox == e1.inbox + (e2.inbox + e.inbox);
    }
  }

  function NodeRun(env: Env, m: SessionMap, ops: seq<NodeOp>): NodeEffect
    requires ValidRun(env, m, ops)
    decreases |ops|, 1
  {
    if ops == [] then NodeEffect(m, [], [], [], 0)
    else
      var prev := NodeRun(env, m, Init(ops));
      var e := NodeStep(env, prev.sessions, Last(ops));
      NodeEffect(e.sessions, prev.events + e.events, prev.wire + e.wire, prev.inbox + e.inbox,
                 prev.inserted + e.inserted)
  }

  predicate ValidRun(env: Env, m: SessionMap, ops: seq<NodeOp>)
    decreases |ops|, 0
  {
    ops == [] || (ValidRun(env, m, Init(ops)) && ValidOp(NodeRun(env, m, Init(ops)).sessions, Last(ops)))
  }

  function ProjectOp(op: NodeOp, p: CanonicalAddr): seq<SlotOp> {
    match op
    case On(sop) => if !sop.Tick? && Target(sop) == p then [sop] else []
    case TickAll(now, _, choice) => [Tick(now, choice(p))]
  }

  /** The calls of a trace that concern peer `p`, and all the ticks. */
  function Project(ops: seq<NodeOp>, p: CanonicalAddr): seq<SlotOp> {
    if ops == [] then [] else Project(Init(ops), p) + ProjectOp(Last(ops), p)
  }

  /**
   Multiplexing: over any trace of packets, sends, disconnects and ticks for any number of
   peers, the session, the events, the datagrams and the delivered messages of peer `p` are
   those of the trace filtered to `p`'s calls and the ticks.
   */
  lemma {:induction false} NodeIsProduct(env: Env, m: SessionMap, ops: seq<NodeOp>, p: CanonicalAddr)
    requires Keyed(m) && ValidRun(env, m, ops)
    ensures Keyed(NodeRun(env, m, ops).sessions)
    ensures Shows(NodeRun(env, m, ops), p, StepAll(env, Lookup(m, p), Project(ops, p)))
  {
    if ops != [] {
      NodeIsProduct(env, m, Init(ops), p);
      var prev := NodeRun(env, m, Init(ops));
      var e := NodeStep(env, prev.sessions, Last(ops));
      StepProjects(env, prev.sessions, Last(ops), p);
      StepAllConcat(env, Lookup(m, p), Project(Init(ops), p), ProjectOp(Last(ops), p));
      EventsOfConcat(prev.events, e.events, p);
      WireOfConcat(prev.wire, e.wire, p);
      InboxOfConcat(prev.inbox, e.inbox, p);
      hide NodeStep, Step;
    }
  }

  // ----- the prune loop -----

  /**
   Why a tick removes a session: its link was dead before, or dies now without a write
   error; its SYN retries are used up; or it has been idle too long.
   */
  predicate Condemned(cfg: Config, s: SessionView, now: nat, ch: Choice) {
    || (s.state == Established && (s.kcp.dead || (ch.dies && ch.writes)))
    || (s.state == SynSent && s.synRetries >= cfg.synMaxRetries)
    || Idle(cfg, s, now)
  }

  predicate IsReset(s: Sent) {
    s.packet.Reset?
  }

  function CountResets(wire: seq<Sent>): nat {
    if wire == [] then 0 else CountResets(Init(wire)) + if IsReset(Last(wire)) then 1 else 0
  }

  lemma {:induction false} CountResetsConcat(a: seq<Sent>, b: seq<Sent>)
    ensures CountResets(a + b) == CountResets(a) + CountResets(b)
  {
    if b == [] {
      assert a + b == a;
    } else {
      CountResetsConcat(a, Init(b));
      assert Init(a + b) == a + Init(b) && Last(a + b) == Last(b);
    }
  }

  lemma {:induction false} NoResets(wire: seq<Sent>)
    requires forall w :: w in wire ==> !IsReset(w)
    ensures CountResets(wire) == 0
  {
    if wire != [] {
      NoResets(Init(wire));
    }
  }

  lemma TouchCondemns(cfg: Config, s: SessionView, now: nat, ch: Choice)
    requires SessionOk(s)
    ensures var t := Touch(cfg, s, now, ch);
            && (t.doomed <==> Condemned(cfg, s, now, ch))
            && t.session.peer == s.peer && t.session.conv == s.conv && t.session.state == s.state
            && forall w :: w in t.wire ==> !IsReset(w)
  {
    hide Backoff;
  }

  lemma ResetsAreThree(to: SocketAddr, conv: Conv)
    ensures CountResets(Resets(to, conv)) == 3
  {
    var one := [Sent(to, Reset(conv))];
    assert Init(one) == [] && CountResets(one) == 1;
    CountResetsConcat(one, one);
    CountResetsConcat(one + one, one);
    assert Resets(to, conv) == one + one + one;
  }

  lemma TickCondemns(env: Env, s: SessionView, now: nat, ch: Choice)
    requires SessionOk(s)
    ensures var e := Step(env, Some(s), Tick(now, ch));
            if Condemned(env.cfg, s, now, ch) then
              && e.slot == None && e.events == [Disconnected(s.peer)] && CountResets(e.wire) == 3
              && forall w :: w in e.wire && IsReset(w) ==> w == Sent(s.peer, Reset(s.conv))
            else
              && e.slot.Some? && e.slot.value.peer == s.peer && e.slot.value.conv == s.conv
              && e.slot.value.state == s.state && e.events == [] && CountResets(e.wire) == 0
  {
    hide Touch, Condemned, SessionOk, CountResets;
    var t := Touch(env.cfg, s, now, ch);
    TouchCondemns(env.cfg, s, now, ch);
    NoResets(t.wire);
    ResetsAreThree(s.peer, s.conv);
    CountResetsConcat(t.wire, Resets(s.peer, s.conv));
  }

  /**
   One tick removes exactly the condemned sessions. Each of them leaves exactly one
   Disconnected event and three RESETs, all with its own conversation id; every other
   session stays, with its address, conversation id and handshake state, and leaves no
   event and no RESET.
   */
  lemma PruneExact(env: Env, m: SessionMap, now: nat, order: seq<CanonicalAddr>,
                   choice: CanonicalAddr -> Choice, p: CanonicalAddr)
    requires Keyed(m) && Enumerates(order, m)
    ensures var n := NodeStep(env, m, TickAll(now, order, choice));
            if p !in m then p !in n.sessions && EventsOf(n.events, p) == [] && WireOf(n.wire, p) == []
            else
              var s := m[p];
              if Condemned(env.cfg, s, now, choice(p)) then
                && p !in n.sessions
                && EventsOf(n.events, p) == [Disconnected(s.peer)]
                && CountResets(WireOf(n.wire, p)) == 3
                && forall w :: w in WireOf(n.wire, p) && IsReset(w) ==> w == Sent(s.peer, Reset(s.conv))
              else
                && p in n.sessions
                && n.sessions[p].peer == s.peer && n.sessions[p].conv == s.conv && n.sessions[p].state == s.state
                && EventsOf(n.events, p) == []
                && CountResets(WireOf(n.wire, p)) == 0
  {
    StepProjects(env, m, TickAll(now, order, choice), p);
    StepOne(env, Lookup(m, p), Tick(now, choice(p)));
    if p in m {
      assert KeyedAt(p, m[p]);
      TickCondemns(env, m[p], now, choice(p));
    } else {
      assert Step(env, None, Tick(now, choice(p))) == Keep(None, Done);
    }
    hide Step, NodeStep, StepAll, Keyed, Enumerates, Condemned, CountResets;
  }
}
