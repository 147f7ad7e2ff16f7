/** The lifecycle events of a node: what a subscriber can conclude from them about the session map. */
module EventLog {
  import opened Base
  import opened Addr
  import opened KcpModel
  import opened Machine
  import opened Node

  // ----- the event word of one peer -----

  /** What a subscriber has seen last of a peer. */
  datatype Life = Out | In | Replacing

  function Follow(life: Life, e: Event): Option<Life> {
    match (life, e)
    case (Out, Connected(_)) => Some(In)
    case (Out, Disconnected(_)) => Some(Out)
    case (In, Disconnected(_)) => Some(Out)
    case (In, PeerRestarted(_)) => Some(Replacing)
    case (Replacing, Connected(_)) => Some(In)
    case _ => None
  }

  function Read(life: Life, word: seq<Event>): Option<Life>
    decreases |word|
  {
    if word == [] then Some(life)
    else
      var next := Follow(life, word[0]);
      if next.None? then None else Read(next.value, word[1..])
  }

  lemma {:induction false} ReadConcat(life: Life, a: seq<Event>, b: seq<Event>)
    ensures Read(life, a + b) == (if Read(life, a).None? then None else Read(Read(life, a).value, b))
    decreases |a|
  {
    if a == [] {
      assert a + b == b;
    } else {
      assert (a + b)[0] == a[0] && (a + b)[1..] == a[1..] + b;
      if Follow(life, a[0]).Some? {
        ReadConcat(Follow(life, a[0]).value, a[1..], b);
      }
    }
  }

  lemma ReadOne(life: Life, e: Event)
    ensures Read(life, [e]) == Follow(life, e)
  {
    assert [e][1..] == [];
  }

  /** The words (Connected (PeerRestarted Connected)* Disconnected | Disconnected)*. */
  predicate Lifecycles(word: seq<Event>)
    decreases |word|
  {
    || word == []
    || (word[0].Disconnected? && Lifecycles(word[1..]))
    || (word[0].Connected? && Connection(word[1..]))
  }

  /** The words (PeerRestarted Connected)* Disconnected, followed by further lifecycles. */
  predicate Connection(word: seq<Event>)
    decreases |word|
  {
    && word != []
    && (|| (word[0].Disconnected? && Lifecycles(word[1..]))
        || (|word| >= 2 && word[0].PeerRestarted? && word[1].Connected? && Connection(word[2..])))
  }

  /** Words read from each state of `Life` to the end of a lifecycle. */
  predicate Rest(life: Life, word: seq<Event>) {
    match life
    case Out => Lifecycles(word)
    case In => Connection(word)
    case Replacing => word != [] && word[0].Connected? && Connection(word[1..])
  }

  lemma {:induction false} RestIffRead(life: Life, word: seq<Event>)
    ensures Rest(life, word) <==> Read(life, word) == Some(Out)
    decreases |word|
  {
    if word != [] {
      var next := Follow(life, word[0]);
      if next.Some? {
        RestIffRead(next.value, word[1..]);
        if next.value == Replacing && |word| >= 2 {
          assert word[1..][0] == word[1] && word[1..][1..] == word[2..];
        }
      }
    }
  }

  /** A prefix of a word of the lifecycle grammar. */
  ghost predicate LifecyclePrefix(word: seq<Event>) {
    exists rest :: Lifecycles(word + rest)
  }

  /** The reader accepts exactly the prefixes of the lifecycle grammar. */
  lemma ReadsPrefixes(word: seq<Event>)
    ensures Read(Out, word).Some? <==> LifecyclePrefix(word)
  {
    if Read(Out, word).Some? {
      var any: SocketAddr :| true;
      var rest := match Read(Out, word).value
        case Out => []
        case In => [Disconnected(any)]
        case Replacing => [Connected(any), Disconnected(any)];
      ReadConcat(Out, word, rest);
      ReadOne(In, Disconnected(any));
      assert Read(Out, word).value == Replacing ==> rest[1..] == [Disconnected(any)];
      RestIffRead(Out, word + rest);
      assert Lifecycles(word + rest);
    }
    if rest :| Lifecycles(word + rest) {
      RestIffRead(Out, word + rest);
      ReadConcat(Out, word, rest);
    }
  }

  /** What the events of a peer should say, given its slot. */
  function LifeOf(slot: Option<SessionView>): Life {
    if slot.Some? && slot.value.state == Established then In else Out
  }

  /** The events of one call, which takes a peer from `life` to `after`. */
  predicate Turn(life: Life, events: seq<Event>, after: Life) {
    || (events == [] && after == life)
    || (|events| == 1 && Follow(life, events[0]) == Some(after))
    || (|events| == 2 && Follow(life, events[0]) == Some(Replacing) && Follow(Replacing, events[1]) == Some(after))
  }

  lemma TurnReads(life: Life, events: seq<Event>, after: Life)
    requires Turn(life, events, after)
    ensures Read(life, events) == Some(after)
  {
    if |events| == 2 {
      assert events == [events[0]] + [events[1]];
      ReadConcat(life, [events[0]], [events[1]]);
      ReadOne(Replacing, events[1]);
    }
    if events != [] {
      assert |events| == 1 ==> events == [events[0]];
      ReadOne(life, events[0]);
    }
  }

  lemma ReceiveTurns(env: Env, slot: Option<SessionView>, op: SlotOp)
    requires op.Receive?
    ensures Turn(LifeOf(slot), Step(env, slot, op).events, LifeOf(Step(env, slot, op).slot))
  {
    hide Flush, Greater;
  }

  lemma StepFollows(env: Env, slot: Option<SessionView>, op: SlotOp)
    ensures Read(LifeOf(slot), Step(env, slot, op).events) == Some(LifeOf(Step(env, slot, op).slot))
  {
    hide Flush, Backoff, OnDatagram, Read;
    if op.Receive? { ReceiveTurns(env, slot, op); }
    TurnReads(LifeOf(slot), Step(env, slot, op).events, LifeOf(Step(env, slot, op).slot));
  }

  lemma {:induction false} WordFollowsSlot(env: Env, slot: Option<SessionView>, ops: seq<SlotOp>)
    ensures Read(LifeOf(slot), StepAll(env, slot, ops).events) == Some(LifeOf(StepAll(env, slot, ops).slot))
  {
    hide Step, LifeOf;
    if ops != [] {
      WordFollowsSlot(env, slot, Init(ops));
      var prev := StepAll(env, slot, Init(ops));
      StepFollows(env, prev.slot, Last(ops));
      ReadConcat(LifeOf(slot), prev.events, Step(env, prev.slot, Last(ops)).events);
    }
  }

  // ----- the log of a node -----

  /** The peers a subscriber believes to be connected. */
  function Believed(events: seq<Event>): set<CanonicalAddr> {
    if events == [] then {}
    else
      var key := Canonicalize(Last(events).addr);
      if Last(events).Connected? then Believed(Init(events)) + {key} else Believed(Init(events)) - {key}
  }

  lemma {:induction false} BelievedMember(events: seq<Event>, p: CanonicalAddr)
    ensures p in Believed(events) <==> EventsOf(events, p) != [] && Last(EventsOf(events, p)).Connected?
  {
    if events != [] {
      BelievedMember(Init(events), p);
    }
  }

  lemma {:induction false} ReadsLast(life: Life, word: seq<Event>)
    requires Read(life, word).Some?
    ensures word != [] ==> (Read(life, word).value == In <==> Last(word).Connected?)
    ensures word == [] ==> Read(life, word).value == life
    decreases |word|
  {
    if word != [] {
      ReadsLast(Follow(life, word[0]).value, word[1..]);
      assert |word| > 1 ==> Last(word[1..]) == Last(word);
    }
  }

  /**
   After every step of every run from the empty map, the event log replayed with canonical
   addresses is exactly the set of peers whose session is Established, and the events of
   each peer form a prefix of the lifecycle grammar.
   */
  lemma {:induction false} EventLogMirrorsMap(env: Env, ops: seq<NodeOp>)
    requires ValidRun(env, map[], ops)
    ensures var n := NodeRun(env, map[], ops);
            && Believed(n.events) == (set p | p in n.sessions && n.sessions[p].state == Established)
            && forall p :: LifecyclePrefix(EventsOf(n.events, p))
  {
    var n := NodeRun(env, map[], ops);
    forall p: CanonicalAddr
      ensures p in Believed(n.events) <==> p in n.sessions && n.sessions[p].state == Established
      ensures LifecyclePrefix(EventsOf(n.events, p))
    {
      var word := EventsOf(n.events, p);
      NodeIsProduct(env, map[], ops, p);
      WordFollowsSlot(env, None, Project(ops, p));
      ReadsPrefixes(word);
      ReadsLast(Out, word);
      BelievedMember(n.events, p);
      assert LifeOf(Lookup(n.sessions, p)) == In <==> p in n.sessions && n.sessions[p].state == Established;
    }
  }

  // ----- conservation of sessions -----

  /** How many sessions the events declare ended. */
  function Endings(events: seq<Event>): nat {
    if events == [] then 0 else Endings(Init(events)) + if Last(events).Connected? then 0 else 1
  }

  lemma {:induction false} EndingsConcat(a: seq<Event>, b: seq<Event>)
    ensures Endings(a + b) == Endings(a) + Endings(b)
  {
    if b == [] {
      assert a + b == a;
    } else {
      EndingsConcat(a, Init(b));
      assert Init(a + b) == a + Init(b) && Last(a + b) == Last(b);
    }
  }

  function Occupied(slot: Option<SessionView>): nat {
    if slot.Some? then 1 else 0
  }

  lemma SlotConserves(env: Env, slot: Option<SessionView>, op: SlotOp)
    ensures var e := Step(env, slot, op);
            Occupied(slot) + e.inserted == Occupied(e.slot) + Endings(e.events)
  {
    hide Flush, Backoff, Greater;
    var events := Step(env, slot, op).events;
    if |events| == 1 {
      assert Init(events) == [];
    } else if |events| == 2 {
      assert Init(events) == [events[0]] && Init(Init(events)) == [];
      assert Endings([events[0]]) == 1;
    }
  }

  lemma StoreCounts(m: SessionMap, key: CanonicalAddr, slot: Option<SessionView>)
    ensures |m| + Occupied(slot) == |Store(m, key, slot)| + Occupied(Lookup(m, key))
  {
    var stored := Store(m, key, slot);
    assert stored.Keys == if slot.Some? then m.Keys + {key} else m.Keys - {key};
    assert |m| == |m.Keys| && |stored| == |stored.Keys|;
  }

  lemma PruneConserves(e: NodeEffect, key: CanonicalAddr)
    ensures |Prune(e, key).sessions| + Endings(Prune(e, key).events) == |e.sessions| + Endings(e.events)
    ensures Prune(e, key).inserted == e.inserted
  {
    if key in e.sessions {
      StoreCounts(e.sessions, key, None);
      assert Init(e.events + [Disconnected(e.sessions[key].peer)]) == e.events;
    }
  }

  lemma {:induction false} PruneAllConserves(m: SessionMap, doomed: seq<CanonicalAddr>)
    ensures |m| == |PruneAll(m, doomed).sessions| + Endings(PruneAll(m, doomed).events)
    ensures PruneAll(m, doomed).inserted == 0
  {
    hide Prune;
    if doomed != [] {
      PruneAllConserves(m, Init(doomed));
      PruneConserves(PruneAll(m, Init(doomed)), Last(doomed));
    }
  }

  lemma StepConserves(env: Env, m: SessionMap, op: NodeOp)
    requires ValidOp(m, op)
    ensures var e := NodeStep(env, m, op);
            |m| + e.inserted == |e.sessions| + Endings(e.events)
  {
    match op
    case On(sop) =>
      var key := Target(sop);
      SlotConserves(env, Lookup(m, key), sop);
      StoreCounts(m, key, Step(env, Lookup(m, key), sop).slot);
      hide Step, Endings, Store, Lookup;
    case TickAll(now, order, choice) =>
      var sweep := SweepAll(env.cfg, m, order, now, choice);
      SweepKeys(env.cfg, m, order, now, choice);
      assert |sweep.sessions| == |sweep.sessions.Keys| == |m.Keys| == |m|;
      PruneAllConserves(sweep.sessions, sweep.doomed);
  }

  /**
   In every run, the sessions ever inserted are the sessions still mapped plus one
   Disconnected or PeerRestarted event for each of the others.
   */
  lemma {:induction false} SessionsConserved(env: Env, m: SessionMap, ops: seq<NodeOp>)
    requires ValidRun(env, m, ops)
    ensures var n := NodeRun(env, m, ops);
            |m| + n.inserted == |n.sessions| + Endings(n.events)
  {
    if ops != [] {
      SessionsConserved(env, m, Init(ops));
      var prev := NodeRun(env, m, Init(ops));
      StepConserves(env, prev.sessions, Last(ops));
      hide NodeStep;
      EndingsConcat(prev.events, NodeStep(env, prev.sessions, Last(ops)).events);
    }
  }
}
