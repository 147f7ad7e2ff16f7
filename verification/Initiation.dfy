/**
 Any number of tasks calling `send` to the same unknown peer at once. Here one step is one
 critical section or one datagram, so every interleaving of the lock operations of
 `send` and `initiate_session` is a schedule.
 */
module Initiation {
  import opened Base

  /** Where a calling task stands. Sessions are named after the task that created them. */
  datatype Task =
    | Entered
    | Missed                    // the first look found no session
    | Built(conv: Conv)         // nor did the second; an own session is built but not registered
    | Registered(conv: Conv)    // the own session is in the map, its SYN not yet sent
    | Holding(owner: nat)       // has a session handle
    | Finished(owner: nat)      // has queued its data

  datatype Happening =
    | Insert(owner: nat, conv: Conv)
    | SendSyn(owner: nat, conv: Conv)
    | Queue(owner: nat, caller: nat)

  /** The tasks, the session mapped for the peer and everything that has happened, in order. */
  datatype World = World(tasks: seq<Task>, mapped: Option<nat>, log: seq<Happening>)

  function Begin(n: nat): World {
    World(seq(n, i => Entered), None, [])
  }

  /** The next critical section of task `i`; `drawn` is the id it draws if it draws one. */
  function Act(w: World, i: nat, drawn: Conv): World
    requires i < |w.tasks|
  {
    match w.tasks[i]
    case Entered =>
      w.(tasks := w.tasks[i := if w.mapped.Some? then Holding(w.mapped.value) else Missed])
    case Missed =>
      w.(tasks := w.tasks[i := if w.mapped.Some? then Holding(w.mapped.value) else Built(drawn)])
    case Built(conv) =>
      if w.mapped.Some? then w.(tasks := w.tasks[i := Holding(w.mapped.value)])
      else World(w.tasks[i := Registered(conv)], Some(i), w.log + [Insert(i, conv)])
    case Registered(conv) => w.(tasks := w.tasks[i := Holding(i)], log := w.log + [SendSyn(i, conv)])
    case Holding(owner) => w.(tasks := w.tasks[i := Finished(owner)], log := w.log + [Queue(owner, i)])
    case Finished(_) => w
  }

  predicate Schedule(n: nat, steps: seq<(nat, Conv)>) {
    forall k :: 0 <= k < |steps| ==> steps[k].0 < n
  }

  function Play(w: World, steps: seq<(nat, Conv)>): (r: World)
    requires Schedule(|w.tasks|, steps)
    ensures |r.tasks| == |w.tasks|
    decreases |steps|
  {
    if steps == [] then w else Play(Act(w, steps[0].0, steps[0].1), steps[1..])
  }

  function Count<T(==)>(log: seq<T>, x: T): nat {
    if log == [] then 0 else Count(log[..|log| - 1], x) + if log[|log| - 1] == x then 1 else 0
  }

  lemma CountSnoc<T>(log: seq<T>, x: T, y: T)
    ensures Count(log + [y], x) == Count(log, x) + if x == y then 1 else 0
  {
    assert (log + [y])[..|log|] == log;
  }

  // ----- the invariant -----

  /** Nothing has been registered: every task is still looking and nothing has happened. */
  ghost predicate Untouched(w: World) {
    && w.mapped.None? && w.log == []
    && forall i :: 0 <= i < |w.tasks| ==> w.tasks[i].Entered? || w.tasks[i].Missed? || w.tasks[i].Built?
  }

  predicate TaskOk(t: Task, i: nat, owner: nat, conv: Conv) {
    match t
    case Registered(c) => i == owner && c == conv
    case Holding(o) => o == owner
    case Finished(o) => o == owner
    case _ => i != owner
  }

  predicate HappeningOk(h: Happening, owner: nat) {
    h.Queue? && h.owner == owner
  }

  /** Task `owner` has registered its session under `conv`, and everything since concerns that session. */
  ghost predicate Settled(w: World, owner: nat, conv: Conv) {
    && w.mapped == Some(owner) && owner < |w.tasks|
    && (forall i :: 0 <= i < |w.tasks| ==> TaskOk(w.tasks[i], i, owner, conv))
    && w.log != [] && w.log[0] == Insert(owner, conv)
    && (forall h :: h in w.log[1..] ==> HappeningOk(h, owner) || h == SendSyn(owner, conv))
    && Count(w.log, SendSyn(owner, conv)) == (if w.tasks[owner].Registered? then 0 else 1)
    && (forall i :: 0 <= i < |w.tasks| ==> Count(w.log, Queue(owner, i)) == if w.tasks[i].Finished? then 1 else 0)
  }

  ghost predicate Good(w: World) {
    Untouched(w) || exists owner: nat, conv: Conv :: Settled(w, owner, conv)
  }

  /** What one more happening does to the counts. */
  lemma Appends(w: World, owner: nat, conv: Conv, h: Happening, tasks: seq<Task>)
    requires Settled(w, owner, conv) && |tasks| == |w.tasks|
    requires forall i :: 0 <= i < |tasks| ==> TaskOk(tasks[i], i, owner, conv)
    requires HappeningOk(h, owner) || h == SendSyn(owner, conv)
    requires h == SendSyn(owner, conv) <==> w.tasks[owner].Registered? && !tasks[owner].Registered?
    requires h != SendSyn(owner, conv) ==> tasks[owner].Registered? == w.tasks[owner].Registered?
    requires forall i :: 0 <= i < |tasks| ==>
               (h == Queue(owner, i) <==> !w.tasks[i].Finished? && tasks[i].Finished?) &&
               (w.tasks[i].Finished? ==> tasks[i].Finished?)
    ensures Settled(World(tasks, w.mapped, w.log + [h]), owner, conv)
  {
    var w' := World(tasks, w.mapped, w.log + [h]);
    hide TaskOk, HappeningOk;
    CountSnoc(w.log, SendSyn(owner, conv), h);
    forall j | 0 <= j < |tasks| ensures Count(w'.log, Queue(owner, j)) == if tasks[j].Finished? then 1 else 0 {
      CountSnoc(w.log, Queue(owner, j), h);
    }
    hide Count;
    assert w'.log[1..] == w.log[1..] + [h];
  }

  lemma SettledStays(w: World, owner: nat, conv: Conv, i: nat, drawn: Conv)
    requires Settled(w, owner, conv) && i < |w.tasks|
    ensures Settled(Act(w, i, drawn), owner, conv)
  {
    hide Count;
    var w' := Act(w, i, drawn);
    assert TaskOk(w.tasks[i], i, owner, conv);
    if w.tasks[i].Registered? {
      Appends(w, owner, conv, SendSyn(owner, conv), w'.tasks);
    } else if w.tasks[i].Holding? {
      Appends(w, owner, conv, Queue(owner, i), w'.tasks);
    }
  }

  lemma UntouchedStaysGood(w: World, i: nat, drawn: Conv)
    requires Untouched(w) && i < |w.tasks|
    ensures Good(Act(w, i, drawn))
  {
    var w' := Act(w, i, drawn);
    if w.tasks[i].Built? {
      var first := Insert(i, w.tasks[i].conv);
      assert w'.log == [] + [first] && w'.log[1..] == [];
      forall x: Happening | x != first ensures Count(w'.log, x) == 0 { CountSnoc([], x, first); }
      assert Settled(w', i, w.tasks[i].conv);
    } else {
      assert Untouched(w');
    }
  }

  lemma {:induction false} PlayStaysGood(w: World, steps: seq<(nat, Conv)>)
    requires Good(w) && Schedule(|w.tasks|, steps)
    ensures Good(Play(w, steps))
    decreases |steps|
  {
    if steps != [] {
      var (i, drawn) := steps[0];
      if Untouched(w) {
        UntouchedStaysGood(w, i, drawn);
      } else {
        var owner: nat, conv: Conv :| Settled(w, owner, conv);
        SettledStays(w, owner, conv, i, drawn);
      }
      PlayStaysGood(Act(w, i, drawn), steps[1..]);
    }
  }

  // ----- the property -----

  predicate AllFinished(w: World) {
    forall i :: 0 <= i < |w.tasks| ==> w.tasks[i].Finished?
  }

  /**
   Concurrent initiation, at every point of every interleaving of `n` tasks: either
   nothing has been registered and nothing has happened, or exactly one session has been
   inserted, before anything else; at most one SYN has been sent, for it; and whatever was
   queued was queued on it, once by each task that is done. When all tasks are done the SYN
   has been sent and each of them has queued its data exactly once.
   */
  lemma ConcurrentInitiation(n: nat, steps: seq<(nat, Conv)>)
    requires Schedule(n, steps)
    ensures var w := Play(Begin(n), steps);
            || Untouched(w)
            || exists owner: nat, conv: Conv :: owner < n
                 && w.mapped == Some(owner)
                 && w.log != [] && w.log[..1] == [Insert(owner, conv)]
                 && (forall h :: h in w.log[1..] ==> !h.Insert? && h.owner == owner && (h.SendSyn? ==> h.conv == conv))
                 && Count(w.log, SendSyn(owner, conv)) <= 1
                 && (forall i :: 0 <= i < n ==> Count(w.log, Queue(owner, i)) == if w.tasks[i].Finished? then 1 else 0)
                 && (AllFinished(w) ==> Count(w.log, SendSyn(owner, conv)) == 1)
    ensures var w := Play(Begin(n), steps);
            n > 0 && AllFinished(w) ==> !Untouched(w)
  {
    PlayStaysGood(Begin(n), steps);
    var w := Play(Begin(n), steps);
    hide Play, Count;
    if !Untouched(w) {
      var owner: nat, conv: Conv :| Settled(w, owner, conv);
      assert w.log[..1] == [Insert(owner, conv)];
    } else if n > 0 {
      assert !w.tasks[0].Finished?;
    }
  }

  // ----- progress -----

  /** How many critical sections a task still has ahead of it at most. */
  function Ahead(t: Task): nat {
    match t
    case Entered => 5
    case Missed => 4
    case Built(_) => 3
    case Registered(_) => 2
    case Holding(_) => 1
    case Finished(_) => 0
  }

  function AheadAll(tasks: seq<Task>): nat {
    if tasks == [] then 0 else Ahead(tasks[0]) + AheadAll(tasks[1..])
  }

  lemma {:induction false} AheadUpdate(tasks: seq<Task>, i: nat, t: Task)
    requires i < |tasks|
    ensures AheadAll(tasks[i := t]) + Ahead(tasks[i]) == AheadAll(tasks) + Ahead(t)
  {
    if i == 0 {
      assert tasks[i := t][1..] == tasks[1..];
    } else {
      AheadUpdate(tasks[1..], i - 1, t);
      assert tasks[i := t][1..] == tasks[1..][i - 1 := t];
    }
  }

  /** No schedule step of an unfinished task is wasted: nobody waits for anybody. */
  lemma ActProgresses(w: World, i: nat, drawn: Conv)
    requires i < |w.tasks| && !w.tasks[i].Finished?
    ensures AheadAll(Act(w, i, drawn).tasks) < AheadAll(w.tasks)
  {
    AheadUpdate(w.tasks, i, Act(w, i, drawn).tasks[i]);
  }
}
