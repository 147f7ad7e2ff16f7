/**
 The pending queue between the receive task and the callers of `recv`, with its wake-up:
 every lock, poll and notification is one step, and consumers may be cancelled while they
 wait.
 */
module RecvQueue {
  import opened Base
  import opened Machine
  import opened Addr
  import Node

  /** Where a consumer stands. */
  datatype Consumer =
    | Idle       // not inside `recv`
    | Looking    // about to take the lock and look at the queue
    | Empty      // found it empty, about to poll the notification
    | Parked     // registered as a waiter
    | Notified   // woken, not yet polled again

  /**
   `permit` is the stored permit of the `Notify`; `unannounced` holds between the push of a
   batch and its `notify_one`; `drained` is everything KCP has delivered so far and
   `returned` everything `recv` has returned, both in order.
   */
  datatype Pipe = Pipe(consumers: seq<Consumer>, permit: bool, unannounced: bool, pending: seq<Message>,
                       drained: seq<Message>, returned: seq<Message>)

  datatype Move =
    | Call(i: nat)
    | Look(i: nat)
    | Poll(i: nat)
    | Resume(i: nat)
    | Cancel(i: nat, heir: nat)
    | Push(batch: seq<Message>)
    | Notify(who: nat)

  function Fresh(n: nat): Pipe {
    Pipe(seq(n, i => Idle), false, false, [], [], [])
  }

  predicate SomeParked(c: seq<Consumer>) {
    exists i :: 0 <= i < |c| && c[i] == Parked
  }

  predicate Allowed(p: Pipe, m: Move) {
    match m
    case Call(i) => i < |p.consumers| && p.consumers[i] == Idle
    case Look(i) => i < |p.consumers| && p.consumers[i] == Looking
    case Poll(i) => i < |p.consumers| && p.consumers[i] == Empty
    case Resume(i) => i < |p.consumers| && p.consumers[i] == Notified
    case Cancel(i, heir) =>
      && i < |p.consumers|
      && (|| p.consumers[i] == Parked
          || (&& p.consumers[i] == Notified
              && (SomeParked(p.consumers) ==> heir < |p.consumers| && p.consumers[heir] == Parked)))
    case Push(batch) => !p.unannounced && batch != []
    case Notify(who) => p.unannounced && (SomeParked(p.consumers) ==> who < |p.consumers| && p.consumers[who] == Parked)
  }

  /** `Notify::notify_one`: wakes a waiter if there is one, else stores a permit. */
  function NotifyOne(p: Pipe, who: nat): Pipe
    requires SomeParked(p.consumers) ==> who < |p.consumers| && p.consumers[who] == Parked
  {
    if SomeParked(p.consumers) then p.(consumers := p.consumers[who := Notified]) else p.(permit := true)
  }

  function Perform(p: Pipe, m: Move): Pipe
    requires Allowed(p, m)
  {
    match m
    case Call(i) => p.(consumers := p.consumers[i := Looking])
    case Look(i) =>
      if p.pending != [] then
        p.(consumers := p.consumers[i := Idle], pending := p.pending[1..], returned := p.returned + [p.pending[0]])
      else p.(consumers := p.consumers[i := Empty])
    case Poll(i) =>
      if p.permit then p.(permit := false, consumers := p.consumers[i := Looking])
      else p.(consumers := p.consumers[i := Parked])
    case Resume(i) => p.(consumers := p.consumers[i := Looking])
    case Cancel(i, heir) =>
      var left := p.(consumers := p.consumers[i := Idle]);
      if p.consumers[i] == Notified then Forward(left, heir) else left
    case Push(batch) => p.(unannounced := true, pending := p.pending + batch, drained := p.drained + batch)
    case Notify(who) => NotifyOne(p, who).(unannounced := false)
  }

  /** A notification whose receiver is dropped goes to another waiter, or back into the permit. */
  function Forward(p: Pipe, heir: nat): Pipe {
    if heir < |p.consumers| && p.consumers[heir] == Parked then p.(consumers := p.consumers[heir := Notified])
    else p.(permit := true)
  }

  predicate Runs(p: Pipe, moves: seq<Move>)
    decreases moves
  {
    moves == [] || (Allowed(p, moves[0]) && Runs(Perform(p, moves[0]), moves[1..]))
  }

  function PerformAll(p: Pipe, moves: seq<Move>): Pipe
    requires Runs(p, moves)
    decreases moves
  {
    if moves == [] then p else PerformAll(Perform(p, moves[0]), moves[1..])
  }

  /**
   In every interleaving, with any number of consumers, what was returned followed by what is
   pending is what KCP delivered, in order.
   */
  lemma {:induction false} NothingLostOrReordered(p: Pipe, moves: seq<Move>)
    requires Runs(p, moves) && p.returned + p.pending == p.drained
    ensures var q := PerformAll(p, moves);
            q.returned + q.pending == q.drained
    decreases moves
  {
    if moves != [] {
      var q := Perform(p, moves[0]);
      assert q.returned + q.pending == q.drained by {
        if moves[0].Look? && p.pending != [] {
          assert p.pending == [p.pending[0]] + p.pending[1..];
        } else if moves[0].Push? {
          assert p.returned + (p.pending + moves[0].batch) == (p.returned + p.pending) + moves[0].batch;
        }
      }
      hide Perform;
      NothingLostOrReordered(q, moves[1..]);
    }
  }

  // ----- from the network to `recv` -----

  function Flatten<T>(batches: seq<seq<T>>): seq<T> {
    if batches == [] then [] else batches[0] + Flatten(batches[1..])
  }

  lemma {:induction false} FlattenConcat<T>(a: seq<seq<T>>, b: seq<seq<T>>)
    ensures Flatten(a + b) == Flatten(a) + Flatten(b)
  {
    if a == [] {
      assert a + b == b;
    } else {
      FlattenConcat(a[1..], b);
      assert (a + b)[0] == a[0] && (a + b)[1..] == a[1..] + b;
    }
  }

  /** The batches pushed along a run, in order. */
  function Pushed(moves: seq<Move>): seq<seq<Message>> {
    if moves == [] then [] else (if moves[0].Push? then [moves[0].batch] else []) + Pushed(moves[1..])
  }

  /** What the calls of a node deliver, in order: one batch for each call that delivers anything. */
  function Batches(env: Env, m: Node.SessionMap, ops: seq<Node.NodeOp>): seq<seq<Message>>
    requires Node.ValidRun(env, m, ops)
  {
    if ops == [] then []
    else
      var prev := Node.NodeRun(env, m, Node.Init(ops));
      var batch := Node.NodeStep(env, prev.sessions, Node.Last(ops)).inbox;
      Batches(env, m, Node.Init(ops)) + if batch == [] then [] else [batch]
  }

  lemma {:induction false} PushesDrained(p: Pipe, moves: seq<Move>)
    requires Runs(p, moves)
    ensures PerformAll(p, moves).drained == p.drained + Flatten(Pushed(moves))
    decreases moves
  {
    if moves != [] {
      var q, batches := Perform(p, moves[0]), if moves[0].Push? then [moves[0].batch] else [];
      assert moves[0].Push? ==> batches[1..] == [];
      assert q.drained == p.drained + Flatten(batches);
      hide Perform, Flatten;
      FlattenConcat(batches, Pushed(moves[1..]));
      PushesDrained(q, moves[1..]);
    }
  }

  lemma {:induction false} BatchesAreInbox(env: Env, m: Node.SessionMap, ops: seq<Node.NodeOp>)
    requires Node.ValidRun(env, m, ops)
    ensures Flatten(Batches(env, m, ops)) == Node.NodeRun(env, m, ops).inbox
  {
    hide Node.NodeStep;
    if ops != [] {
      BatchesAreInbox(env, m, Node.Init(ops));
      var prev := Node.NodeRun(env, m, Node.Init(ops));
      var batch := Node.NodeStep(env, prev.sessions, Node.Last(ops)).inbox;
      var batches := if batch == [] then [] else [batch];
      FlattenConcat(Batches(env, m, Node.Init(ops)), batches);
      assert batches != [] ==> batches[1..] == [];
      assert Flatten(batches) == batch;
    }
  }

  /**
   End to end: when the receive task pushes what the calls of a node deliver, then in every
   interleaving with any number of consumers and peers, what `recv` has returned followed by
   what is pending is what the node has delivered, and what it has returned from one peer is
   the beginning of what that peer's session machine alone has delivered, in order.
   */
  lemma RecvReturnsDelivered(env: Env, n: nat, ops: seq<Node.NodeOp>, moves: seq<Move>, peer: CanonicalAddr)
    requires Node.ValidRun(env, map[], ops) && Runs(Fresh(n), moves) && Pushed(moves) == Batches(env, map[], ops)
    ensures var q := PerformAll(Fresh(n), moves);
            && q.returned + q.pending == Node.NodeRun(env, map[], ops).inbox
            && Node.InboxOf(q.returned, peer) <= Node.StepAll(env, None, Node.Project(ops, peer)).inbox
  {
    var q := PerformAll(Fresh(n), moves);
    NothingLostOrReordered(Fresh(n), moves);
    PushesDrained(Fresh(n), moves);
    BatchesAreInbox(env, map[], ops);
    Node.NodeIsProduct(env, map[], ops, peer);
    Node.InboxOfConcat(q.returned, q.pending, peer);
    hide PerformAll, Runs, Pushed, Batches, Node.InboxOf, Node.NodeRun, Node.ValidRun, Node.StepAll;
    assert q.drained == [] + Flatten(Pushed(moves)) == Flatten(Pushed(moves));
  }

  // ----- wake-ups -----

  /** A lone consumer that waits, or is about to, while a message is pending will be woken. */
  predicate Covered(p: Pipe) {
    |p.consumers| <= 1 &&
    (|p.consumers| == 1 ==>
       && (p.consumers[0] == Empty ==> p.pending == [] || p.permit || p.unannounced)
       && (p.consumers[0] == Parked ==> !p.permit && (p.pending == [] || p.unannounced)))
  }

  lemma {:induction false} StaysCovered(p: Pipe, moves: seq<Move>)
    requires Runs(p, moves) && Covered(p)
    ensures Covered(PerformAll(p, moves))
    decreases moves
  {
    if moves != [] {
      assert |p.consumers| == 1 && p.consumers[0] == Parked ==> SomeParked(p.consumers);
      assert Covered(Perform(p, moves[0]));
      hide Perform, Covered;
      StaysCovered(Perform(p, moves[0]), moves[1..]);
    }
  }

  /** A lost wake-up: messages are pending, a consumer is parked, and nothing is under way that would wake it. */
  predicate Lost(p: Pipe) {
    && p.pending != [] && !p.permit && !p.unannounced
    && SomeParked(p.consumers)
    && forall i :: 0 <= i < |p.consumers| ==> p.consumers[i] == Parked || p.consumers[i] == Idle
  }

  /** Two parked consumers, one batch of two messages: a single notification wakes only one of them. */
  function TwoWaiters(a: Message, b: Message): seq<Move> {
    [Call(0), Look(0), Poll(0), Call(1), Look(1), Poll(1), Push([a, b]), Notify(0), Resume(0), Look(0)]
  }

  lemma FirstMove(p: Pipe, moves: seq<Move>)
    requires moves != [] && Allowed(p, moves[0]) && Runs(Perform(p, moves[0]), moves[1..])
    ensures Runs(p, moves) && PerformAll(p, moves) == PerformAll(Perform(p, moves[0]), moves[1..])
  {
  }

  lemma BothPark(n: nat, moves: seq<Move>)
    requires n >= 2 && moves == [Call(0), Look(0), Poll(0), Call(1), Look(1), Poll(1)]
    ensures Runs(Fresh(n), moves)
    ensures PerformAll(Fresh(n), moves)
            == Pipe(seq(n, i => if i < 2 then Parked else Idle), false, false, [], [], [])
  {
    var idle := Fresh(n).consumers;
    var p1 := Perform(Fresh(n), moves[0]);
    var p2 := Perform(p1, moves[1]);
    var p3 := Perform(p2, moves[2]);
    assert p3.consumers == idle[0 := Parked];
    var p4 := Perform(p3, moves[3]);
    var p5 := Perform(p4, moves[4]);
    var p6 := Perform(p5, moves[5]);
    assert p6.consumers == idle[0 := Parked][1 := Parked];
    hide Perform;
    assert moves[1..][1..] == moves[2..] && moves[2..][1..] == moves[3..] && moves[3..][1..] == moves[4..];
    assert moves[4..][1..] == moves[5..] && moves[5..][1..] == [];
    FirstMove(p5, moves[5..]);
    FirstMove(p4, moves[4..]);
    FirstMove(p3, moves[3..]);
    FirstMove(p2, moves[2..]);
    FirstMove(p1, moves[1..]);
  }

  lemma OneIsForgotten(p: Pipe, a: Message, b: Message, moves: seq<Move>)
    requires |p.consumers| >= 2 && p.consumers[0] == Parked && p.consumers[1] == Parked
    requires forall i :: 2 <= i < |p.consumers| ==> p.consumers[i] == Idle
    requires p.pending == [] && !p.permit && !p.unannounced
    requires moves == [Push([a, b]), Notify(0), Resume(0), Look(0)]
    ensures Runs(p, moves) && Lost(PerformAll(p, moves))
  {
    assert SomeParked(p.consumers);
    var p1 := Perform(p, moves[0]);
    var p2 := Perform(p1, moves[1]);
    var p3 := Perform(p2, moves[2]);
    var p4 := Perform(p3, moves[3]);
    assert p4.pending == [b] && p4.consumers[1] == Parked;
    assert Lost(p4);
    hide Perform;
    assert moves[1..][1..] == moves[2..] && moves[2..][1..] == moves[3..] && moves[3..][1..] == [];
    FirstMove(p3, moves[3..]);
    FirstMove(p2, moves[2..]);
    FirstMove(p1, moves[1..]);
  }

  lemma {:induction false} RunsConcat(p: Pipe, a: seq<Move>, b: seq<Move>)
    requires Runs(p, a) && Runs(PerformAll(p, a), b)
    ensures Runs(p, a + b) && PerformAll(p, a + b) == PerformAll(PerformAll(p, a), b)
    decreases a
  {
    hide Perform;
    if a == [] {
      assert a + b == b;
    } else {
      RunsConcat(Perform(p, a[0]), a[1..], b);
      assert (a + b)[1..] == a[1..] + b;
    }
  }

  ghost predicate MayLose(n: nat) {
    exists moves :: Runs(Fresh(n), moves) && Lost(PerformAll(Fresh(n), moves))
  }

  /**
   No wake-up is lost, in any interleaving, exactly when at most one task calls `recv` at a
   time; two consumers suffice for one of them to sleep on a non-empty queue.
   */
  lemma WakeUpsLostIffManyConsumers(n: nat, a: Message, b: Message)
    ensures MayLose(n) <==> n >= 2
  {
    if n >= 2 {
      var moves := TwoWaiters(a, b);
      BothPark(n, moves[..6]);
      OneIsForgotten(PerformAll(Fresh(n), moves[..6]), a, b, moves[6..]);
      RunsConcat(Fresh(n), moves[..6], moves[6..]);
      assert moves[..6] + moves[6..] == moves;
      assert Lost(PerformAll(Fresh(n), moves));
    } else {
      forall moves | Runs(Fresh(n), moves) ensures !Lost(PerformAll(Fresh(n), moves)) {
        StaysCovered(Fresh(n), moves);
      }
    }
  }

  // ----- no wake-up without a notification -----

  function Woken(consumers: seq<Consumer>): nat {
    if consumers == [] then 0
    else Woken(consumers[..|consumers| - 1]) + if consumers[|consumers| - 1] == Notified then 1 else 0
  }

  lemma {:induction false} WokenUpdate(consumers: seq<Consumer>, i: nat, c: Consumer)
    requires i < |consumers|
    ensures Woken(consumers[i := c]) + (if consumers[i] == Notified then 1 else 0)
            == Woken(consumers) + if c == Notified then 1 else 0
  {
    var n := |consumers| - 1;
    if i < n {
      assert consumers[i := c][..n] == consumers[..n][i := c];
      WokenUpdate(consumers[..n], i, c);
    } else {
      assert consumers[i := c][..n] == consumers[..n];
    }
  }

  /** Notifications given out and not yet used: the stored permit and the consumers woken by one. */
  function Unused(p: Pipe): nat {
    (if p.permit then 1 else 0) + Woken(p.consumers)
  }

  function Notifications(moves: seq<Move>): nat {
    if moves == [] then 0 else (if moves[0].Notify? then 1 else 0) + Notifications(moves[1..])
  }

  /** How often a consumer that had found the queue empty looks at it again. */
  function WakeUps(p: Pipe, moves: seq<Move>): nat
    requires Runs(p, moves)
    decreases moves
  {
    if moves == [] then 0
    else (if moves[0].Resume? || (moves[0].Poll? && p.permit) then 1 else 0) + WakeUps(Perform(p, moves[0]), moves[1..])
  }

  lemma MoveUses(p: Pipe, m: Move)
    requires Allowed(p, m)
    ensures Unused(Perform(p, m)) + (if m.Resume? || (m.Poll? && p.permit) then 1 else 0)
            <= Unused(p) + if m.Notify? then 1 else 0
  {
    hide Woken;
    var c := p.consumers;
    match m
    case Call(i) => WokenUpdate(c, i, Looking);
    case Look(i) => WokenUpdate(c, i, Idle); WokenUpdate(c, i, Empty);
    case Poll(i) => WokenUpdate(c, i, Looking); WokenUpdate(c, i, Parked);
    case Resume(i) => WokenUpdate(c, i, Looking);
    case Cancel(i, heir) =>
      WokenUpdate(c, i, Idle);
      if heir < |c| { WokenUpdate(c[i := Idle], heir, Notified); }
    case Push(_) =>
    case Notify(who) => if who < |c| { WokenUpdate(c, who, Notified); }
  }

  /** Every time a waiting consumer is woken, one notification is used up; none serves twice. */
  lemma {:induction false} WakeUpsNotified(p: Pipe, moves: seq<Move>)
    requires Runs(p, moves)
    ensures WakeUps(p, moves) + Unused(PerformAll(p, moves)) <= Unused(p) + Notifications(moves)
    decreases moves
  {
    hide Perform, Unused;
    if moves != [] {
      MoveUses(p, moves[0]);
      WakeUpsNotified(Perform(p, moves[0]), moves[1..]);
    }
  }
}
