/**
 * The serialized command queue of src/MojoMediaDatabase.cc as a value: the
 * pending commands, the current and previous command slots and the
 * `restart_timeout` flag (set while a zero-delay wake-up is scheduled or
 * running). `MojoMediaDatabase` in database.dfy is proved to follow these
 * functions; the lemmas here are about runs of them.
 */
module CommandQueues {
  import opened Wrappers

  datatype Queue<T> = Queue(items: seq<T>, current: Option<T>, previous: Option<T>, timer: bool)

  /** The state of a freshly constructed database. */
  function Empty<T>(): Queue<T> {
    Queue([], None, None, false)
  }

  /** `checkRestarting`: schedule a wake-up when idle with work and none scheduled. */
  function CheckRestarting<T>(q: Queue<T>): (r: Queue<T>)
    ensures r.items == q.items && r.current == q.current && r.previous == q.previous
  {
    if q.current.None? && |q.items| > 0 && !q.timer then q.(timer := true) else q
  }

  /** `enqueue`: append at the tail, then `checkRestarting`. */
  function Enqueue<T>(q: Queue<T>, c: T): (r: Queue<T>)
    ensures r.items == q.items + [c] && r.current == q.current && r.previous == q.previous
  {
    CheckRestarting(q.(items := q.items + [c]))
  }

  /** `enqueue` of each command in turn. */
  function EnqueueAll<T>(q: Queue<T>, cs: seq<T>): Queue<T>
    decreases |cs|
  {
    if cs == [] then q else Enqueue(EnqueueAll(q, cs[..|cs| - 1]), cs[|cs| - 1])
  }

  /**
   * Enqueuing several commands appends them in order, and schedules a
   * wake-up (if none was) exactly when at least one was enqueued while
   * nothing was current.
   */
  lemma {:induction false} EnqueueAllAppends<T>(q: Queue<T>, cs: seq<T>)
    ensures EnqueueAll(q, cs).items == q.items + cs
    ensures EnqueueAll(q, cs).current == q.current && EnqueueAll(q, cs).previous == q.previous
    ensures EnqueueAll(q, cs).timer == (q.timer || (cs != [] && q.current.None?))
    decreases |cs|
  {
    if cs != [] {
      var init := cs[..|cs| - 1];
      EnqueueAllAppends(q, init);
      assert cs == init + [cs[|cs| - 1]];
    }
  }

  /**
   * The follow-up commands a handler enqueues while its command is still
   * current schedule no wake-up; they wait for the `finish` that follows.
   */
  lemma {:induction false} EnqueueWhileCurrentSchedulesNothing<T>(q: Queue<T>, cs: seq<T>)
    requires q.current.Some?
    ensures EnqueueAll(q, cs).timer == q.timer
    ensures Finish(EnqueueAll(q, cs)).timer == (q.timer || |q.items| + |cs| > 0)
  {
    EnqueueAllAppends(q, cs);
  }

  /** `finish`: the current command becomes the previous one; nothing is current. */
  function Finish<T>(q: Queue<T>): (r: Queue<T>)
    ensures r.items == q.items && r.current.None? && r.previous == q.current
  {
    CheckRestarting(q.(previous := q.current, current := None))
  }

  /**
   * The part of `executeNextCommand` before `execute`: release the previous
   * command, then either clear the flag and return (queue empty or a
   * command current) or pop the head into the current slot.
   */
  function Begin<T>(q: Queue<T>): Queue<T> {
    if |q.items| == 0 || q.current.Some? then q.(previous := None, timer := false)
    else q.(previous := None, current := Some(q.items[0]), items := q.items[1..])
  }

  /** Whether `Begin` pops the head and starts it. */
  predicate Starts<T>(q: Queue<T>) {
    |q.items| > 0 && q.current.None?
  }

  /** The part after `execute` returns: the flag is cleared. */
  function End<T>(q: Queue<T>): Queue<T> {
    q.(timer := false)
  }

  /** `resetQueue`: every pending command is dropped. */
  function Reset<T>(q: Queue<T>): (r: Queue<T>)
    ensures r.items == [] && r.current == q.current && r.previous == q.previous && r.timer == q.timer
  {
    q.(items := [])
  }

  /** A wake-up is scheduled only when nothing is current and the queue is non-empty. */
  lemma ScheduleOnlyWhenIdle<T>(q: Queue<T>)
    ensures CheckRestarting(q).timer != q.timer ==> q.current.None? && |q.items| > 0 && !q.timer
    ensures q.timer ==> CheckRestarting(q) == q
  {
  }

  /**
   * `executeNextCommand` starts a command only when none is current; a
   * current command stays current and the queue is untouched.
   */
  lemma BeginIsSingleFlight<T>(q: Queue<T>)
    ensures Starts(q) ==> Begin(q).current == Some(q.items[0]) && Begin(q).items == q.items[1..]
    ensures !Starts(q) ==> Begin(q).current == q.current && Begin(q).items == q.items && !Begin(q).timer
    ensures Begin(q).previous.None?
  {
  }

  /** `finish` leaves the queue unchanged. */
  lemma FinishKeepsQueue<T>(q: Queue<T>)
    ensures Finish(q).items == q.items
    ensures Finish(q).timer == (q.timer || |q.items| > 0)
  {
  }

  /**
   * The stall: when a command finishes synchronously inside `execute`
   * (the flag is still set then), no wake-up is scheduled, and after the
   * flag is cleared the remaining commands wait with nothing current and no
   * wake-up pending, until the next `enqueue`.
   */
  predicate Stalled<T>(q: Queue<T>) {
    q.current.None? && |q.items| > 0 && !q.timer
  }

  lemma SynchronousFinishStalls<T>(q: Queue<T>)
    requires q.timer && |q.items| > 1 && q.current.None?
    ensures Stalled(End(Finish(Begin(q))))
  {
  }

  lemma EnqueueEndsStall<T>(q: Queue<T>, c: T)
    requires Stalled(q)
    ensures Enqueue(q, c).timer
  {
  }

  /** The steps a run is made of; `Tick` is `Begin` and its `End` with nothing between. */
  datatype Op<T> = Push(c: T) | Retire | Start | Stop | Drop

  function Apply<T>(q: Queue<T>, op: Op<T>): Queue<T> {
    match op
    case Push(c) => Enqueue(q, c)
    case Retire => Finish(q)
    case Start => Begin(q)
    case Stop => End(q)
    case Drop => Reset(q)
  }

  /** The state after a run of steps. */
  function Run<T>(q: Queue<T>, ops: seq<Op<T>>): Queue<T>
    decreases |ops|
  {
    if ops == [] then q else Apply(Run(q, ops[..|ops| - 1]), ops[|ops| - 1])
  }

  /** The commands a run enqueued, in order. */
  function Pushed<T>(ops: seq<Op<T>>): seq<T>
    decreases |ops|
  {
    if ops == [] then []
    else Pushed(ops[..|ops| - 1]) + (if ops[|ops| - 1].Push? then [ops[|ops| - 1].c] else [])
  }

  /** The commands a run started, in the order it started them. */
  function Launched<T>(q: Queue<T>, ops: seq<Op<T>>): seq<T>
    decreases |ops|
  {
    if ops == [] then []
    else
      var before := Run(q, ops[..|ops| - 1]);
      Launched(q, ops[..|ops| - 1]) + (if ops[|ops| - 1].Start? && Starts(before) then [before.items[0]] else [])
  }

  /** How many `finish` calls of a run retired a current command. */
  function Retired<T>(q: Queue<T>, ops: seq<Op<T>>): nat
    decreases |ops|
  {
    if ops == [] then 0
    else
      var before := Run(q, ops[..|ops| - 1]);
      Retired(q, ops[..|ops| - 1]) + (if ops[|ops| - 1].Retire? && before.current.Some? then 1 else 0)
  }

  predicate NoDrop<T>(ops: seq<Op<T>>) {
    forall i :: 0 <= i < |ops| ==> !ops[i].Drop?
  }

  /** One step of a run: what it starts, followed by what waits after it, is what waited before plus what it enqueues. */
  lemma StepKeepsOrder<T>(b: Queue<T>, op: Op<T>)
    requires !op.Drop?
    ensures (if op.Start? && Starts(b) then [b.items[0]] else []) + Apply(b, op).items
            == b.items + (if op.Push? then [op.c] else [])
  {
    if op.Start? && Starts(b) {
      assert b.items == [b.items[0]] + b.items[1..];
    }
  }

  /** The regrouping of the FIFO step, on plain sequences. */
  lemma Regroup<T>(l: seq<T>, s: seq<T>, a: seq<T>, b: seq<T>, p: seq<T>, x: seq<T>, y: seq<T>)
    requires s + a == b + p
    requires l + b == x + y
    ensures (l + s) + a == x + (y + p)
  {
    calc {
      (l + s) + a;
      l + (s + a);
      l + (b + p);
      (l + b) + p;
      (x + y) + p;
    }
  }

  /** The last step of a run, unfolded. */
  lemma LastStep<T>(q: Queue<T>, ops: seq<Op<T>>)
    requires ops != []
    ensures var init, op := ops[..|ops| - 1], ops[|ops| - 1];
            var before := Run(q, init);
            && Run(q, ops) == Apply(before, op)
            && Launched(q, ops) == Launched(q, init) + (if op.Start? && Starts(before) then [before.items[0]] else [])
            && Pushed(ops) == Pushed(init) + (if op.Push? then [op.c] else [])
  {
  }

  /**
   * FIFO: in a run without `resetQueue`, the commands started followed by
   * those still waiting are the ones waiting at the start followed by the
   * ones enqueued: commands start in enqueue order and none is lost.
   */
  lemma {:induction false} StartsInEnqueueOrder<T>(q: Queue<T>, ops: seq<Op<T>>)
    requires NoDrop(ops)
    ensures Launched(q, ops) + Run(q, ops).items == q.items + Pushed(ops)
    decreases |ops|
  {
    if ops != [] {
      var init, op := ops[..|ops| - 1], ops[|ops| - 1];
      assert NoDrop(init) by {
        forall i | 0 <= i < |init| ensures !init[i].Drop? {
          assert init[i] == ops[i];
        }
      }
      StartsInEnqueueOrder(q, init);
      var before := Run(q, init);
      var started := if op.Start? && Starts(before) then [before.items[0]] else [];
      var pushed := if op.Push? then [op.c] else [];
      LastStep(q, ops);
      StepKeepsOrder(before, op);
      Regroup(Launched(q, init), started, Apply(before, op).items, before.items, pushed, q.items, Pushed(init));
    }
  }

  /**
   * From an empty queue, the commands started number the `finish` calls
   * that found a command current, plus one while a command is current.
   * `finish` does not say which command it retires, so this is a count: a
   * late reply's `finish` retires whichever command is current then.
   */
  lemma {:induction false} StartedAreRetiredOrCurrent<T>(ops: seq<Op<T>>)
    ensures |Launched(Empty(), ops)| == Retired(Empty(), ops) + (if Run(Empty(), ops).current.Some? then 1 else 0)
    decreases |ops|
  {
    if ops != [] {
      var init := ops[..|ops| - 1];
      StartedAreRetiredOrCurrent(init);
    }
  }

  /** After `resetQueue` nothing waits, and the current command is untouched. */
  lemma ResetDropsPending<T>(q: Queue<T>)
    ensures Run(q, [Drop]).items == [] && Run(q, [Drop]).current == q.current
  {
    var ops: seq<Op<T>> := [Drop];
    assert ops[..0] == [];
  }
}
