/** The per-thread reactor loop (`Worker`, and its twin `EventLoop`): each
    iteration polls, dispatches the active channels in order and then runs
    the pending functors, which are swapped out and run as one batch.
    Functors are modelled as tasks that, when run, queue further tasks and
    may ask the loop to quit. Whether the caller is on the loop's thread is a
    parameter; poll results are a finite script; wakeups and what the loop
    runs are recorded in `log`. */
module Loops {
  import opened Bytes
  import opened Channels

  /** A functor: its identity, the tasks its body queues with `queueInLoop`,
      and whether its body calls `quit()`. */
  datatype Task = Task(id: nat, spawns: seq<Task>, quits: bool)

  /** A channel the poller reports active, the tasks its callbacks queue,
      and whether a callback calls `quit()` on the loop thread. */
  datatype Active = Active(fd: int, queues: seq<Task>, quits: bool)

  /** One `poll` result: its return time and active channels. */
  datatype PollResult = PollResult(time: int, active: seq<Active>)

  /** What the loop does that is visible from outside. */
  datatype LoopEvent =
    | Wakeup                          // a write to the wakeup descriptor
    | Dispatched(fd: int, time: int)  // `handleEvent(pollReturnTime_)` on an active channel
    | Ran(id: nat)                    // a functor body running on the loop thread
    | PollerRemove(fd: int)           // `poller_->removeChannel`

  /** The thread-local `t_loopInThisThread` of one thread. */
  class ThreadSlot {
    var occupant: object?

    constructor ()
      ensures occupant == null
    {
      occupant := null;
    }
  }

  function Wakeups(n: nat): (s: seq<LoopEvent>)
    ensures |s| == n && forall i :: 0 <= i < n ==> s[i] == Wakeup
  {
    if n == 0 then [] else Wakeups(n - 1) + [Wakeup]
  }

  /** What running task `t` on the loop thread logs: it runs, and each task
      it queues wakes the loop iff functors are being called. */
  function TaskLog(t: Task, calling: bool): seq<LoopEvent>
  {
    [Ran(t.id)] + (if calling then Wakeups(|t.spawns|) else [])
  }

  /** What one pass of `doPendingFunctors` over `ts` logs. */
  function RunLog(ts: seq<Task>): seq<LoopEvent>
  {
    if ts == [] then [] else RunLog(ts[..|ts| - 1]) + TaskLog(ts[|ts| - 1], true)
  }

  /** The tasks queued by running `ts`, in order. */
  function Spawned(ts: seq<Task>): seq<Task>
  {
    if ts == [] then [] else Spawned(ts[..|ts| - 1]) + ts[|ts| - 1].spawns
  }

  predicate AnyQuits(ts: seq<Task>)
  {
    exists i :: 0 <= i < |ts| && ts[i].quits
  }

  predicate AnyHandlerQuits(active: seq<Active>)
  {
    exists i :: 0 <= i < |active| && active[i].quits
  }

  /** Extending the dispatched prefix by one channel adds its quit. */
  lemma HandlerQuitsStep(active: seq<Active>, i: nat)
    requires i < |active|
    ensures AnyHandlerQuits(active[..i + 1]) == (AnyHandlerQuits(active[..i]) || active[i].quits)
  {
    if active[i].quits {
      assert active[..i + 1][i].quits;
    }
    if AnyHandlerQuits(active[..i + 1]) && !active[i].quits {
      var k :| 0 <= k < i + 1 && active[..i + 1][k].quits;
      assert active[..i][k].quits;
    }
  }

  /** An iteration ends the loop when a channel callback or a functor of its
      batch calls `quit()`. */
  predicate RoundQuits(pending: seq<Task>, poll: PollResult)
  {
    AnyHandlerQuits(poll.active) || AnyQuits(pending + Queued(poll.active))
  }

  function Ids(ts: seq<Task>): (ids: seq<nat>)
    ensures |ids| == |ts| && forall i :: 0 <= i < |ts| ==> ids[i] == ts[i].id
  {
    if ts == [] then [] else Ids(ts[..|ts| - 1]) + [ts[|ts| - 1].id]
  }

  /** The identities of the tasks a log shows running, in order. */
  function RanIds(log: seq<LoopEvent>): seq<nat>
  {
    if log == [] then []
    else RanIds(log[..|log| - 1]) + (if log[|log| - 1].Ran? then [log[|log| - 1].id] else [])
  }

  function WakeupCount(log: seq<LoopEvent>): nat
  {
    if log == [] then 0
    else WakeupCount(log[..|log| - 1]) + (if log[|log| - 1] == Wakeup then 1 else 0)
  }

  lemma {:induction false} RanIdsAppend(a: seq<LoopEvent>, b: seq<LoopEvent>)
    ensures RanIds(a + b) == RanIds(a) + RanIds(b)
    ensures WakeupCount(a + b) == WakeupCount(a) + WakeupCount(b)
    decreases |b|
  {
    if b != [] {
      assert (a + b)[..|a + b| - 1] == a + b[..|b| - 1];
      RanIdsAppend(a, b[..|b| - 1]);
    } else {
      assert a + b == a;
    }
  }

  lemma {:induction false} WakeupsCounted(n: nat)
    ensures RanIds(Wakeups(n)) == [] && WakeupCount(Wakeups(n)) == n
  {
    if n > 0 {
      WakeupsCounted(n - 1);
      RanIdsAppend(Wakeups(n - 1), [Wakeup]);
      assert RanIds([Wakeup]) == [] by {
        assert [Wakeup][..0] == [];
      }
      assert WakeupCount([Wakeup]) == 1 by {
        assert [Wakeup][..0] == [];
      }
    }
  }

  /** One pass runs exactly the swapped-out tasks, in the order they were
      queued, each once; and every task they queue wakes the loop, so the
      next poll returns at once to run it. */
  lemma {:induction false} RunLogRunsBatchInOrder(ts: seq<Task>)
    ensures RanIds(RunLog(ts)) == Ids(ts)
    ensures WakeupCount(RunLog(ts)) == |Spawned(ts)|
  {
    if ts != [] {
      var init, t := ts[..|ts| - 1], ts[|ts| - 1];
      RunLogRunsBatchInOrder(init);
      RanIdsAppend(RunLog(init), TaskLog(t, true));
      RanIdsAppend([Ran(t.id)], Wakeups(|t.spawns|));
      WakeupsCounted(|t.spawns|);
      assert RanIds([Ran(t.id)]) == [t.id] && WakeupCount([Ran(t.id)]) == 0 by {
        assert [Ran(t.id)][..0] == [];
      }
    }
  }

  function DispatchLog(active: seq<Active>, time: int): (s: seq<LoopEvent>)
    ensures |s| == |active|
    ensures forall i :: 0 <= i < |active| ==> s[i] == Dispatched(active[i].fd, time)
  {
    if active == [] then [] else DispatchLog(active[..|active| - 1], time) + [Dispatched(active[|active| - 1].fd, time)]
  }

  /** The tasks the active channels' callbacks queue, in dispatch order. */
  function Queued(active: seq<Active>): seq<Task>
  {
    if active == [] then [] else Queued(active[..|active| - 1]) + active[|active| - 1].queues
  }

  function Fds(active: seq<Active>): (fds: seq<int>)
    ensures |fds| == |active| && forall i :: 0 <= i < |active| ==> fds[i] == active[i].fd
  {
    if active == [] then [] else Fds(active[..|active| - 1]) + [active[|active| - 1].fd]
  }

  /** One iteration of `run()`: dispatch, then run everything pending. */
  function RoundLog(pending: seq<Task>, poll: PollResult): seq<LoopEvent>
  {
    DispatchLog(poll.active, poll.time) + RunLog(pending + Queued(poll.active))
  }

  /** Within an iteration every dispatch comes before every functor run. */
  lemma RoundDispatchesFirst(pending: seq<Task>, poll: PollResult)
    ensures var r := RoundLog(pending, poll);
            forall i, j :: 0 <= i < |r| && 0 <= j < |r| && r[i].Ran? && r[j].Dispatched? ==> j < i
  {
    RunLogHasNoDispatch(pending + Queued(poll.active));
  }

  lemma {:induction false} RunLogHasNoDispatch(ts: seq<Task>)
    ensures forall i :: 0 <= i < |RunLog(ts)| ==> !RunLog(ts)[i].Dispatched?
  {
    if ts != [] {
      RunLogHasNoDispatch(ts[..|ts| - 1]);
    }
  }

  /** What `run()` logs over the poll results `script`, starting with
      `pending` queued, and what is left pending when it returns. It returns
      after the first iteration whose channel callbacks or functors ask it to
      quit, or when the script is exhausted. */
  function Rounds(pending: seq<Task>, script: seq<PollResult>): (seq<LoopEvent>, seq<Task>)
    decreases |script|
  {
    if script == [] then ([], pending)
    else
      var batch := pending + Queued(script[0].active);
      var step := RoundLog(pending, script[0]);
      if RoundQuits(pending, script[0]) then (step, Spawned(batch))
      else
        var rest := Rounds(Spawned(batch), script[1..]);
        (step + rest.0, rest.1)
  }

  /** One unfolding of `Rounds`. */
  lemma RoundsStep(pending: seq<Task>, script: seq<PollResult>)
    requires script != []
    ensures var batch := pending + Queued(script[0].active);
            var r := Rounds(pending, script);
            if RoundQuits(pending, script[0]) then r == (RoundLog(pending, script[0]), Spawned(batch))
            else r.0 == RoundLog(pending, script[0]) + Rounds(Spawned(batch), script[1..]).0
                 && r.1 == Rounds(Spawned(batch), script[1..]).1
  {
  }

  class EventLoop {
    const slot: ThreadSlot
    const wakeupChannel: Channel
    var looping: bool
    var quit: bool
    var eventHandling: bool
    var callingPendingFunctors: bool
    var activeChannels: seq<int>
    var currentActiveChannel: Option<int>
    var pending: seq<Task>
    var log: seq<LoopEvent>

    /** The current channel is one of the active ones, and there is one only
        while events are being handled. */
    ghost predicate Valid()
      reads this
    {
      (currentActiveChannel.Some? ==> eventHandling && currentActiveChannel.value in activeChannels)
    }

    /** `Worker()`: claims this thread's slot; a second loop on the same
        thread is fatal. The wakeup channel is always reading. */
    constructor (slot: ThreadSlot, wakeupFd: int)
      requires slot.occupant == null
      modifies slot
      ensures Valid() && this.slot == slot && slot.occupant == this
      ensures !looping && !quit && !eventHandling && !callingPendingFunctors
      ensures currentActiveChannel == None && pending == [] && log == [] && activeChannels == []
      ensures fresh(wakeupChannel) && wakeupChannel.fd == wakeupFd
      ensures wakeupChannel.IsReading() && wakeupChannel.slots.read
    {
      this.slot := slot;
      looping := false;
      quit := false;
      eventHandling := false;
      callingPendingFunctors := false;
      activeChannels := [];
      currentActiveChannel := None;
      pending := [];
      log := [];
      var ch := new Channel(wakeupFd);
      ch.SetReadCallback();
      ch.EnableReading();
      wakeupChannel := ch;
      new;
      slot.occupant := this;
    }

    /** `~Worker()`: frees the thread's slot. */
    method Destroy()
      modifies slot
      ensures slot.occupant == null
    {
      slot.occupant := null;
    }

    /** `wakeup()`. */
    method WakeUp()
      modifies this
      ensures log == old(log) + [Wakeup]
      ensures pending == old(pending) && quit == old(quit) && callingPendingFunctors == old(callingPendingFunctors)
      ensures eventHandling == old(eventHandling) && currentActiveChannel == old(currentActiveChannel)
      ensures activeChannels == old(activeChannels) && looping == old(looping)
    {
      log := log + [Wakeup];
    }

    /** `quit()`: only a call from another thread needs to wake the loop. */
    method Quit(inLoopThread: bool)
      modifies this
      ensures quit
      ensures log == old(log) + (if inLoopThread then [] else [Wakeup])
      ensures pending == old(pending) && callingPendingFunctors == old(callingPendingFunctors)
      ensures eventHandling == old(eventHandling) && currentActiveChannel == old(currentActiveChannel)
      ensures activeChannels == old(activeChannels) && looping == old(looping)
    {
      quit := true;
      if !inLoopThread {
        WakeUp();
      }
    }

    /** `queueInLoop(cb)`: append; wake the loop if the caller is on another
        thread, or if functors are being called (so that the new one is not
        left waiting for the next poll timeout). */
    method QueueInLoop(t: Task, inLoopThread: bool)
      modifies this
      ensures pending == old(pending) + [t]
      ensures log == old(log) + (if !inLoopThread || callingPendingFunctors then [Wakeup] else [])
      ensures quit == old(quit) && callingPendingFunctors == old(callingPendingFunctors)
      ensures eventHandling == old(eventHandling) && currentActiveChannel == old(currentActiveChannel)
      ensures activeChannels == old(activeChannels) && looping == old(looping)
    {
      pending := pending + [t];
      if !inLoopThread || callingPendingFunctors {
        WakeUp();
      }
    }

    /** A functor body on the loop thread: it runs, queues its spawned tasks
        and may quit. */
    method RunTask(t: Task)
      modifies this
      ensures log == old(log) + TaskLog(t, callingPendingFunctors)
      ensures pending == old(pending) + t.spawns
      ensures quit == (old(quit) || t.quits)
      ensures callingPendingFunctors == old(callingPendingFunctors)
      ensures eventHandling == old(eventHandling) && currentActiveChannel == old(currentActiveChannel)
      ensures activeChannels == old(activeChannels) && looping == old(looping)
    {
      log := log + [Ran(t.id)];
      pending := pending + t.spawns;
      if callingPendingFunctors {
        log := log + Wakeups(|t.spawns|);
      }
      if t.quits {
        Quit(true);
      }
    }

    /** `runInLoop(cb)`: run at once on the loop thread, else queue. */
    method RunInLoop(t: Task, inLoopThread: bool)
      modifies this
      ensures inLoopThread ==>
                log == old(log) + TaskLog(t, callingPendingFunctors)
                && pending == old(pending) + t.spawns && quit == (old(quit) || t.quits)
      ensures !inLoopThread ==>
                log == old(log) + [Wakeup] && pending == old(pending) + [t] && quit == old(quit)
      ensures callingPendingFunctors == old(callingPendingFunctors)
      ensures eventHandling == old(eventHandling) && currentActiveChannel == old(currentActiveChannel)
      ensures activeChannels == old(activeChannels) && looping == old(looping)
    {
      if inLoopThread {
        RunTask(t);
      } else {
        QueueInLoop(t, inLoopThread);
      }
    }

    /** `doPendingFunctors()`: swap the pending list out and run it in order.
        Tasks queued meanwhile stay pending for the next iteration. */
    method DoPendingFunctors()
      requires !callingPendingFunctors
      modifies this
      ensures !callingPendingFunctors
      ensures log == old(log) + RunLog(old(pending))
      ensures pending == Spawned(old(pending))
      ensures quit == (old(quit) || AnyQuits(old(pending)))
      ensures eventHandling == old(eventHandling) && currentActiveChannel == old(currentActiveChannel)
      ensures activeChannels == old(activeChannels) && looping == old(looping)
    {
      callingPendingFunctors := true;
      var functors := pending;
      pending := [];
      var i := 0;
      while i < |functors|
        invariant 0 <= i <= |functors|
        invariant callingPendingFunctors
        invariant log == old(log) + RunLog(functors[..i])
        invariant pending == Spawned(functors[..i])
        invariant quit == (old(quit) || AnyQuits(functors[..i]))
        invariant eventHandling == old(eventHandling) && currentActiveChannel == old(currentActiveChannel)
        invariant activeChannels == old(activeChannels) && looping == old(looping)
      {
        assert functors[..i + 1][..i] == functors[..i];
        assert AnyQuits(functors[..i + 1]) == (AnyQuits(functors[..i]) || functors[i].quits) by {
          if functors[i].quits {
            assert functors[..i + 1][i].quits;
          }
          if AnyQuits(functors[..i + 1]) && !functors[i].quits {
            var k :| 0 <= k < i + 1 && functors[..i + 1][k].quits;
            assert functors[..i][k].quits;
          }
        }
        RunTask(functors[i]);
        i := i + 1;
      }
      assert functors[..i] == functors;
      callingPendingFunctors := false;
    }

    /** The dispatch half of one iteration: handle every active channel in
        order with the poll time, with the current channel tracked. */
    method DispatchActive(poll: PollResult)
      requires !callingPendingFunctors
      modifies this
      ensures Valid() && !eventHandling && currentActiveChannel == None
      ensures activeChannels == Fds(poll.active)
      ensures log == old(log) + DispatchLog(poll.active, poll.time)
      ensures pending == old(pending) + Queued(poll.active)
      ensures quit == (old(quit) || AnyHandlerQuits(poll.active))
      ensures callingPendingFunctors == old(callingPendingFunctors) && looping == old(looping)
    {
      var active, time := poll.active, poll.time;
      ghost var log0, pending0 := log, pending;
      ghost var dispatched: seq<LoopEvent>, queued: seq<Task> := [], [];
      activeChannels := Fds(active);
      currentActiveChannel := None;
      eventHandling := true;
      var i := 0;
      while i < |active|
        invariant 0 <= i <= |active|
        invariant eventHandling && activeChannels == Fds(active)
        invariant currentActiveChannel.Some? ==> currentActiveChannel.value in activeChannels
        invariant dispatched == DispatchLog(active[..i], time) && queued == Queued(active[..i])
        invariant log == log0 + dispatched && pending == pending0 + queued
        invariant quit == (old(quit) || AnyHandlerQuits(active[..i]))
        invariant callingPendingFunctors == old(callingPendingFunctors) && looping == old(looping)
      {
        var fd := active[i].fd;
        assert active[..i + 1][..i] == active[..i];
        assert activeChannels[i] == fd;
        assert DispatchLog(active[..i + 1], time) == DispatchLog(active[..i], time) + [Dispatched(fd, time)];
        assert Queued(active[..i + 1]) == Queued(active[..i]) + active[i].queues;
        HandlerQuitsStep(active, i);
        DispatchOne(active[i], time);
        Associative(log0, dispatched, [Dispatched(fd, time)]);
        Associative(pending0, queued, active[i].queues);
        dispatched := dispatched + [Dispatched(fd, time)];
        queued := queued + active[i].queues;
        i := i + 1;
      }
      assert active[..i] == active;
      currentActiveChannel := None;
      eventHandling := false;
    }

    /** One active channel: it becomes the current one and handles its
        event, which may queue functors and may quit the loop. */
    method DispatchOne(a: Active, time: int)
      requires eventHandling && a.fd in activeChannels
      modifies this
      ensures Valid() && eventHandling && currentActiveChannel == Some(a.fd)
      ensures log == old(log) + [Dispatched(a.fd, time)] && pending == old(pending) + a.queues
      ensures activeChannels == old(activeChannels) && quit == (old(quit) || a.quits)
      ensures callingPendingFunctors == old(callingPendingFunctors) && looping == old(looping)
    {
      currentActiveChannel := Some(a.fd);
      log := log + [Dispatched(a.fd, time)];
      pending := pending + a.queues;
      if a.quits {
        Quit(true);
      }
    }

    /** `run()` over the poll results `script`: each iteration dispatches and
        then runs the pending functors, until a channel callback or a functor
        quits or the script ends. The whole log and what remains pending are those of `Rounds`. */
    method Run(script: seq<PollResult>)
      requires Valid() && !looping && !callingPendingFunctors && !eventHandling
      modifies this
      ensures Valid() && !looping && !callingPendingFunctors && !eventHandling
      ensures log == old(log) + Rounds(old(pending), script).0
      ensures pending == Rounds(old(pending), script).1
    {
      looping := true;
      quit := false;
      ghost var log0, pending0 := log, pending;
      ghost var done: seq<LoopEvent> := [];
      var k := 0;
      while !quit && k < |script|
        invariant 0 <= k <= |script|
        invariant Valid() && !callingPendingFunctors && !eventHandling && looping
        invariant log == log0 + done
        invariant !quit ==> Rounds(pending0, script).0 == done + Rounds(pending, script[k..]).0
                            && Rounds(pending0, script).1 == Rounds(pending, script[k..]).1
        invariant quit ==> Rounds(pending0, script).0 == done && Rounds(pending0, script).1 == pending
        decreases |script| - k, !quit
      {
        ghost var step := RoundLog(pending, script[k]);
        RoundsStep(pending, script[k..]);
        assert script[k..][0] == script[k] && script[k..][1..] == script[k + 1..];
        Iterate(script[k]);
        Associative(log0, done, step);
        if !quit {
          Associative(done, step, Rounds(pending, script[k + 1..]).0);
        }
        done := done + step;
        k := k + 1;
      }
      if !quit {
        assert script[k..] == [];
      }
      looping := false;
    }

    /** One iteration of `loop()`: dispatch what the poll reported, then run
        the pending functors, those the handlers queued included. */
    method Iterate(poll: PollResult)
      requires Valid() && !callingPendingFunctors && !eventHandling
      modifies this
      ensures Valid() && !callingPendingFunctors && !eventHandling && looping == old(looping)
      ensures log == old(log) + RoundLog(old(pending), poll)
      ensures pending == Spawned(old(pending) + Queued(poll.active))
      ensures quit == (old(quit) || RoundQuits(old(pending), poll))
    {
      ghost var before, batch := log, pending + Queued(poll.active);
      DispatchActive(poll);
      DoPendingFunctors();
      Associative(before, DispatchLog(poll.active, poll.time), RunLog(batch));
    }

    /** `removeChannel(channel)`: while events are being handled, only the
        current channel or one the poll did not report may go. */
    method RemoveChannel(fd: int)
      requires Valid()
      requires eventHandling ==> currentActiveChannel == Some(fd) || fd !in activeChannels
      modifies this
      ensures log == old(log) + [PollerRemove(fd)]
      ensures Valid() && pending == old(pending) && quit == old(quit)
      ensures eventHandling == old(eventHandling) && currentActiveChannel == old(currentActiveChannel)
      ensures activeChannels == old(activeChannels) && looping == old(looping)
      ensures callingPendingFunctors == old(callingPendingFunctors)
    {
      log := log + [PollerRemove(fd)];
    }
  }
}
