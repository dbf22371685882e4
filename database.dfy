/**
 * `MojoMediaDatabase` of src/MojoMediaDatabase.cc: the command objects and
 * the serialized queue that runs them one at a time. Every method is proved
 * to move the queue as the functions of CommandQueues say and to carry out
 * the outcomes the handlers of Commands compute; the properties of runs
 * (first in, first out, single flight, the stall) are proved there.
 */
module MediaDatabases {
  import opened Wrappers
  import opened Catalog
  import opened MediaFiles
  import opened Commands
  import opened CommandQueues

  /** A command object: its state and the reply slots it still waits on. */
  class Command {
    var state: CommandState
    var pending: multiset<Slot>

    constructor (s: CommandState)
      ensures state == s && pending == multiset{}
    {
      state := s;
      pending := multiset{};
    }
  }

  function Opt(c: Command?): Option<Command> {
    if c == null then None else Some(c as Command)
  }

  /** The states of a sequence of commands. */
  function StatesOf(cs: seq<Command>): (r: seq<CommandState>)
    reads cs
    ensures |r| == |cs| && forall i :: 0 <= i < |cs| ==> r[i] == cs[i].state
    decreases |cs|
  {
    if cs == [] then [] else StatesOf(cs[..|cs| - 1]) + [cs[|cs| - 1].state]
  }

  function SlotsOf(sends: seq<Send>): multiset<Slot> {
    multiset(seq(|sends|, i requires 0 <= i < |sends| => sends[i].slot))
  }

  function RequestsOf(sends: seq<Send>): seq<Request> {
    seq(|sends|, i requires 0 <= i < |sends| => sends[i].request)
  }

  class MojoMediaDatabase {
    var commandQueue: seq<Command>
    var currentCommand: Command?
    var previousCommand: Command?
    /** `restart_timeout != 0`: a zero-delay wake-up is scheduled or running. */
    var restartTimeout: bool
    /** The requests handed to the database client, in order. */
    var sent: seq<Request>

    /** The queue's state as CommandQueues describes it. */
    function State(): Queue<Command>
      reads this
    {
      Queue(commandQueue, Opt(currentCommand), Opt(previousCommand), restartTimeout)
    }

    /** Every queued command is a distinct object that has not run, so no reply is pending on it. */
    predicate Valid()
      reads this, commandQueue
    {
      && (forall i :: 0 <= i < |commandQueue| ==> commandQueue[i].pending == multiset{})
      && (forall i, j :: 0 <= i < j < |commandQueue| ==> commandQueue[i] != commandQueue[j])
    }

    constructor ()
      ensures Valid() && State() == Empty() && sent == []
    {
      commandQueue := [];
      currentCommand := null;
      previousCommand := null;
      restartTimeout := false;
      sent := [];
    }

    method CheckRestarting()
      modifies this
      ensures State() == CommandQueues.CheckRestarting(old(State()))
      ensures commandQueue == old(commandQueue) && sent == old(sent)
    {
      if currentCommand == null && |commandQueue| > 0 && !restartTimeout {
        restartTimeout := true;
      }
    }

    method Enqueue(c: Command)
      requires Valid() && c.pending == multiset{} && c !in commandQueue
      modifies this
      ensures Valid() && sent == old(sent)
      ensures State() == CommandQueues.Enqueue(old(State()), c)
    {
      commandQueue := commandQueue + [c];
      CheckRestarting();
    }

    method Finish()
      requires Valid()
      modifies this
      ensures Valid() && sent == old(sent) && commandQueue == old(commandQueue)
      ensures State() == CommandQueues.Finish(old(State()))
    {
      previousCommand := currentCommand;
      currentCommand := null;
      CheckRestarting();
    }

    /**
     * Carry out what a handler of `c` did: record its state and the requests
     * it sent, enqueue the commands it created, in order, then `finish` if it
     * did. The commands already queued are untouched.
     */
    method Perform(c: Command, o: Outcome)
      requires Valid() && c !in commandQueue && !o.threw
      modifies this, c
      ensures Valid() && c !in commandQueue
      ensures c.state == o.state && c.pending == old(c.pending) + SlotsOf(o.sends)
      ensures sent == old(sent) + RequestsOf(o.sends)
      ensures |commandQueue| == |old(commandQueue)| + |o.spawns|
      ensures commandQueue[..|old(commandQueue)|] == old(commandQueue)
      ensures forall j :: |old(commandQueue)| <= j < |commandQueue| ==> fresh(commandQueue[j])
      ensures StatesOf(commandQueue[|old(commandQueue)|..]) == o.spawns
      ensures var added := commandQueue[|old(commandQueue)|..];
              State() == if o.finish then CommandQueues.Finish(EnqueueAll(old(State()), added))
                         else EnqueueAll(old(State()), added)
    {
      Record(c, o);
      ghost var n := |commandQueue|;
      ghost var q0 := State();
      assert q0 == old(State());
      EnqueueNew(o.spawns);
      ghost var added := commandQueue[n..];
      assert State() == EnqueueAll(q0, added);
      if o.finish {
        Finish();
        assert commandQueue[n..] == added;
      }
    }

    /** Record the handler's new state and the requests it sent. */
    method Record(c: Command, o: Outcome)
      requires Valid() && c !in commandQueue
      modifies this, c
      ensures Valid() && State() == old(State())
      ensures c.state == o.state && c.pending == old(c.pending) + SlotsOf(o.sends)
      ensures sent == old(sent) + RequestsOf(o.sends)
    {
      c.state := o.state;
      c.pending := c.pending + SlotsOf(o.sends);
      sent := sent + RequestsOf(o.sends);
    }

    /** Enqueue a new command object for each state, in order. */
    method EnqueueNew(states: seq<CommandState>)
      requires Valid()
      modifies this
      ensures Valid() && sent == old(sent)
      ensures |commandQueue| == |old(commandQueue)| + |states|
      ensures commandQueue[..|old(commandQueue)|] == old(commandQueue)
      ensures forall j :: |old(commandQueue)| <= j < |commandQueue| ==> fresh(commandQueue[j])
      ensures StatesOf(commandQueue[|old(commandQueue)|..]) == states
      ensures State() == EnqueueAll(old(State()), commandQueue[|old(commandQueue)|..])
    {
      var n0 := |commandQueue|;
      ghost var q0 := State();
      ghost var added: seq<Command> := [];
      var i := 0;
      while i < |states|
        invariant 0 <= i <= |states| && |added| == i
        invariant commandQueue == old(commandQueue) + added
        invariant forall j :: 0 <= j < i ==> fresh(added[j]) && added[j].state == states[j]
        invariant Valid() && sent == old(sent)
        invariant State() == EnqueueAll(q0, added)
      {
        var nc := new Command(states[i]);
        ghost var q := State();
        Enqueue(nc);
        assert State() == CommandQueues.Enqueue(q, nc);
        assert (added + [nc])[..|added|] == added;
        added := added + [nc];
        i := i + 1;
      }
      assert commandQueue[n0..] == added;
      StatesOfSpawns(commandQueue[n0..], states);
    }

    /**
     * `executeNextCommand`: release the previous command; when the queue is
     * empty or a command is current, only clear the flag; otherwise pop the
     * head, make it current, run its `execute`, and clear the flag.
     */
    method ExecuteNextCommand(cfg: Config)
      requires Valid()
      modifies this, commandQueue
      ensures Valid()
      ensures !Starts(old(State())) ==> State() == End(Begin(old(State()))) && sent == old(sent)
      ensures Starts(old(State())) ==>
                var c := old(commandQueue[0]);
                var o := Commands.Start(old(c.state), cfg);
                && c.state == o.state && c.pending == SlotsOf(o.sends)
                && sent == old(sent) + RequestsOf(o.sends)
                && State() == End(if o.finish then CommandQueues.Finish(Begin(old(State()))) else Begin(old(State())))
      ensures forall x :: x in commandQueue ==> x in old(commandQueue) && x.state == old(x.state)
    {
      var started := BeginNext();
      if started {
        RunCurrent(cfg);
      }
      restartTimeout := false;
    }

    /**
     * One turn of the main loop: when a wake-up is scheduled, its callback
     * `restartQueue` runs `executeNextCommand`; otherwise nothing happens.
     * Either way no wake-up is pending afterwards.
     */
    method Tick(cfg: Config) returns (fired: bool)
      requires Valid()
      modifies this, commandQueue
      ensures Valid() && fired == old(restartTimeout) && !restartTimeout
      ensures !fired ==> State() == old(State()) && sent == old(sent)
      ensures fired && !Starts(old(State())) ==> State() == End(Begin(old(State()))) && sent == old(sent)
      ensures fired && Starts(old(State())) ==>
                var c := old(commandQueue[0]);
                var o := Commands.Start(old(c.state), cfg);
                && sent == old(sent) + RequestsOf(o.sends)
                && State() == End(if o.finish then CommandQueues.Finish(Begin(old(State()))) else Begin(old(State())))
      ensures forall x :: x in commandQueue ==> x in old(commandQueue) && x.state == old(x.state)
    {
      fired := restartTimeout;
      if fired {
        ExecuteNextCommand(cfg);
      }
    }

    /** `currentCommand->execute()`: it sends requests and may finish at once. */
    method RunCurrent(cfg: Config)
      requires Valid() && currentCommand != null && currentCommand !in commandQueue
      modifies this, currentCommand
      ensures Valid() && commandQueue == old(commandQueue)
      ensures var c := old(currentCommand);
              var o := Commands.Start(old(c.state), cfg);
              && c.state == o.state && c.pending == old(c.pending) + SlotsOf(o.sends)
              && sent == old(sent) + RequestsOf(o.sends)
              && State() == if o.finish then CommandQueues.Finish(old(State())) else old(State())
    {
      var c := currentCommand;
      var o := Commands.Start(c.state, cfg);
      ghost var n := |commandQueue|;
      Perform(c, o);
      assert commandQueue == commandQueue[..n];
      assert commandQueue[n..] == [];
    }

    /** The part of `executeNextCommand` before `execute`. */
    method BeginNext() returns (started: bool)
      requires Valid()
      modifies this
      ensures Valid() && sent == old(sent)
      ensures started == Starts(old(State())) && State() == Begin(old(State()))
      ensures started ==> currentCommand == old(commandQueue[0]) && currentCommand !in commandQueue
      ensures forall x :: x in commandQueue ==> x in old(commandQueue)
    {
      previousCommand := null;
      if |commandQueue| == 0 || currentCommand != null {
        restartTimeout := false;
        return false;
      }
      currentCommand := commandQueue[0];
      commandQueue := commandQueue[1..];
      return true;
    }

    /**
     * A reply for `slot` reaches the handler of `c`: the current command or,
     * late, an earlier one. A handler that fails changes nothing but the
     * slot it consumed.
     */
    method Deliver(c: Command, slot: Slot, r: Response, cfg: Config)
      requires Valid() && slot in c.pending
      modifies this, c
      ensures Valid()
      ensures var o := Step(old(c.state), slot, r, cfg);
              o.threw ==> c.state == old(c.state) && c.pending == old(c.pending) - multiset{slot}
                          && State() == old(State()) && sent == old(sent)
      ensures var o := Step(old(c.state), slot, r, cfg);
              !o.threw ==>
                && c.state == o.state && c.pending == old(c.pending) - multiset{slot} + SlotsOf(o.sends)
                && sent == old(sent) + RequestsOf(o.sends)
                && |commandQueue| == |old(commandQueue)| + |o.spawns|
                && commandQueue[..|old(commandQueue)|] == old(commandQueue)
                && StatesOf(commandQueue[|old(commandQueue)|..]) == o.spawns
                && var added := commandQueue[|old(commandQueue)|..];
                   State() == if o.finish then CommandQueues.Finish(EnqueueAll(old(State()), added))
                              else EnqueueAll(old(State()), added)
      ensures forall j :: 0 <= j < |old(commandQueue)| ==> commandQueue[j].state == old(commandQueue[j].state)
    {
      assert c !in commandQueue;
      var o := Step(c.state, slot, r, cfg);
      c.pending := c.pending - multiset{slot};
      if !o.threw {
        Perform(c, o);
      }
    }

    /** `insert`: enqueue an `InsertCommand` holding a copy of the file. */
    method Insert(file: MediaFile)
      requires Valid()
      modifies this
      ensures Valid() && sent == old(sent)
      ensures |commandQueue| == |old(commandQueue)| + 1 && fresh(commandQueue[|commandQueue| - 1])
      ensures commandQueue[|commandQueue| - 1].state == InsertCommand(file.Value())
      ensures State() == CommandQueues.Enqueue(old(State()), commandQueue[|commandQueue| - 1])
    {
      var c := new Command(InsertCommand(file.Value()));
      Enqueue(c);
    }

    /** `remove`: enqueue a `RemoveCommand` for the path. */
    method Remove(filename: string)
      requires Valid()
      modifies this
      ensures Valid() && sent == old(sent)
      ensures |commandQueue| == |old(commandQueue)| + 1 && fresh(commandQueue[|commandQueue| - 1])
      ensures commandQueue[|commandQueue| - 1].state == RemoveCommand(filename)
      ensures State() == CommandQueues.Enqueue(old(State()), commandQueue[|commandQueue| - 1])
    {
      var c := new Command(RemoveCommand(filename));
      Enqueue(c);
    }

    /** `resetQueue`: drop the waiting commands one by one; the current one is untouched. */
    method ResetQueue()
      modifies this
      ensures Valid() && sent == old(sent)
      ensures State() == Reset(old(State()))
    {
      while |commandQueue| > 0
        invariant currentCommand == old(currentCommand) && previousCommand == old(previousCommand)
        invariant restartTimeout == old(restartTimeout) && sent == old(sent)
        decreases |commandQueue|
      {
        commandQueue := commandQueue[1..];
      }
    }

    /**
     * `prepareForRebuild`: drop the waiting commands, then enqueue the
     * rebuild sequence.
     */
    method PrepareForRebuild(withSchemaRebuild: bool)
      modifies this
      ensures Valid() && sent == old(sent)
      ensures StatesOf(commandQueue) == RebuildCommands(withSchemaRebuild)
      ensures forall j :: 0 <= j < |commandQueue| ==> fresh(commandQueue[j])
      ensures State() == EnqueueAll(Reset(old(State())), commandQueue)
    {
      ResetQueue();
      EnqueueNew(RebuildCommands(withSchemaRebuild));
      assert commandQueue[0..] == commandQueue;
    }
  }

  lemma StatesOfSpawns(cs: seq<Command>, states: seq<CommandState>)
    requires |cs| == |states| && forall j :: 0 <= j < |cs| ==> cs[j].state == states[j]
    ensures StatesOf(cs) == states
  {
  }
}
