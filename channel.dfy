/** A selectable I/O channel: one descriptor's interest mask, the readiness
    mask last reported by the poller, and the four callback slots that a
    readiness report is dispatched to. The channel does not own the
    descriptor; the requests it makes of its loop are `updateChannel` and
    `removeChannel`. */
module Channels {
  import Bytes

  /** A `poll(2)` event mask (`short events` / `revents`, Linux values). */
  type Mask = bv32

  const POLLIN: Mask := 0x001
  const POLLPRI: Mask := 0x002
  const POLLOUT: Mask := 0x004
  const POLLERR: Mask := 0x008
  const POLLHUP: Mask := 0x010
  const POLLNVAL: Mask := 0x020
  const POLLRDHUP: Mask := 0x2000

  const NoneEvent: Mask := 0
  const ReadEvent: Mask := POLLIN | POLLPRI
  const WriteEvent: Mask := POLLOUT

  /** A callback invocation made by `handleEvent`. */
  datatype Callback = CloseCallback | ErrorCallback | ReadCallback(receiveTime: int) | WriteCallback

  /** A request the channel makes of its owning loop. */
  datatype LoopRequest = UpdateChannel(events: Mask) | RemoveChannel

  /** Which of the four callback slots hold a function. */
  datatype Slots = Slots(read: bool, write: bool, close: bool, error: bool)

  predicate CloseFires(revents: Mask, slots: Slots)
  {
    revents & POLLHUP != 0 && revents & POLLIN == 0 && slots.close
  }

  predicate ErrorFires(revents: Mask, slots: Slots)
  {
    revents & (POLLERR | POLLNVAL) != 0 && slots.error
  }

  predicate ReadFires(revents: Mask, slots: Slots)
  {
    revents & (POLLIN | POLLPRI | POLLRDHUP) != 0 && slots.read
  }

  predicate WriteFires(revents: Mask, slots: Slots)
  {
    revents & POLLOUT != 0 && slots.write
  }

  /** The dispatch rule: which callbacks one readiness report runs, in the
      fixed order close, error, read, write. */
  function Dispatch(revents: Mask, slots: Slots, receiveTime: int): seq<Callback>
  {
    Assemble(CloseFires(revents, slots), ErrorFires(revents, slots),
             ReadFires(revents, slots), WriteFires(revents, slots), receiveTime)
  }

  /** The callbacks whose conditions hold, in dispatch order. */
  function Assemble(close: bool, error: bool, read: bool, write: bool, receiveTime: int): seq<Callback>
  {
    (if close then [CloseCallback] else [])
    + (if error then [ErrorCallback] else [])
    + (if read then [ReadCallback(receiveTime)] else [])
    + (if write then [WriteCallback] else [])
  }

  /** Position of a callback kind in the dispatch order. */
  function Rank(c: Callback): nat
  {
    match c
    case CloseCallback => 0
    case ErrorCallback => 1
    case ReadCallback(_) => 2
    case WriteCallback => 3
  }

  lemma AssembleIff(close: bool, error: bool, read: bool, write: bool, t: int)
    ensures CloseCallback in Assemble(close, error, read, write, t) <==> close
    ensures ErrorCallback in Assemble(close, error, read, write, t) <==> error
    ensures ReadCallback(t) in Assemble(close, error, read, write, t) <==> read
    ensures WriteCallback in Assemble(close, error, read, write, t) <==> write
    ensures forall c :: c in Assemble(close, error, read, write, t) && c.ReadCallback? ==> c.receiveTime == t
  {
    var a := if close then [CloseCallback] else [];
    var b := if error then [ErrorCallback] else [];
    var c := if read then [ReadCallback(t)] else [];
    var e := if write then [WriteCallback] else [];
    assert Assemble(close, error, read, write, t) == a + b + c + e;
  }

  /** Each callback runs iff its readiness condition holds and its slot is set;
      the read callback is handed the dispatch timestamp. */
  lemma DispatchFiresIff(revents: Mask, slots: Slots, t: int)
    ensures CloseCallback in Dispatch(revents, slots, t) <==> CloseFires(revents, slots)
    ensures ErrorCallback in Dispatch(revents, slots, t) <==> ErrorFires(revents, slots)
    ensures ReadCallback(t) in Dispatch(revents, slots, t) <==> ReadFires(revents, slots)
    ensures WriteCallback in Dispatch(revents, slots, t) <==> WriteFires(revents, slots)
    ensures forall c :: c in Dispatch(revents, slots, t) && c.ReadCallback? ==> c.receiveTime == t
  {
    AssembleIff(CloseFires(revents, slots), ErrorFires(revents, slots),
                ReadFires(revents, slots), WriteFires(revents, slots), t);
  }

  /** Several callbacks may run in one report, but always in rank order and each at most once. */
  lemma DispatchOrdered(revents: Mask, slots: Slots, t: int)
    ensures var d := Dispatch(revents, slots, t);
            forall i, j :: 0 <= i < j < |d| ==> Rank(d[i]) < Rank(d[j])
  {
    AssembleOrdered(CloseFires(revents, slots), ErrorFires(revents, slots),
                    ReadFires(revents, slots), WriteFires(revents, slots), t);
  }

  lemma AssembleOrdered(close: bool, error: bool, read: bool, write: bool, t: int)
    ensures var d := Assemble(close, error, read, write, t);
            forall i, j :: 0 <= i < j < |d| ==> Rank(d[i]) < Rank(d[j])
  {
    var d := Assemble(close, error, read, write, t);
    var a := if close then [CloseCallback] else [];
    var b := if error then [ErrorCallback] else [];
    var c := if read then [ReadCallback(t)] else [];
    var e := if write then [WriteCallback] else [];
    assert d == a + b + c + e;
    assert forall k :: 0 <= k < |d| ==> Rank(d[k]) == (if k < |a| then 0 else if k < |a| + |b| then 1 else if k < |a| + |b| + |c| then 2 else 3);
  }

  /** A hang-up that still has data to read is reported as a read, not a close. */
  lemma HangupWithDataReads(revents: Mask, slots: Slots, t: int)
    requires revents & POLLHUP != 0 && revents & POLLIN != 0 && slots.read
    ensures CloseCallback !in Dispatch(revents, slots, t)
    ensures ReadCallback(t) in Dispatch(revents, slots, t)
  {
  }

  class Channel {
    const fd: int
    var events: Mask
    var revents: Mask
    /** Poller-private registration index; -1 while unregistered. */
    var index: int
    var logHup: bool
    var tied: bool
    var eventHandling: bool
    var slots: Slots
    /** Requests made of the owning loop, oldest first. */
    var requests: seq<LoopRequest>
    /** Callbacks run by `handleEvent`, oldest first. */
    var invoked: seq<Callback>

    /** The interest mask only ever holds read and write bits. */
    ghost predicate Valid()
      reads this
    {
      events & 0xFFFF_FFF8 == 0
    }

    constructor (fd: int)
      ensures Valid() && this.fd == fd
      ensures events == NoneEvent && revents == 0 && index == -1
      ensures logHup && !tied && !eventHandling
      ensures slots == Slots(false, false, false, false)
      ensures requests == [] && invoked == []
    {
      this.fd := fd;
      events := NoneEvent;
      revents := 0;
      index := -1;
      logHup := true;
      tied := false;
      eventHandling := false;
      slots := Slots(false, false, false, false);
      requests := [];
      invoked := [];
    }

    predicate IsNoneEvent()
      reads this
    {
      events == NoneEvent
    }

    predicate IsWriting()
      reads this
    {
      events & WriteEvent != 0
    }

    predicate IsReading()
      reads this
    {
      events & ReadEvent != 0
    }

    method SetReadCallback()
      modifies this
      ensures slots == old(slots).(read := true)
      ensures events == old(events) && requests == old(requests) && invoked == old(invoked)
      ensures tied == old(tied) && eventHandling == old(eventHandling) && revents == old(revents)
    {
      slots := slots.(read := true);
    }

    method SetWriteCallback()
      modifies this
      ensures slots == old(slots).(write := true)
      ensures events == old(events) && requests == old(requests) && invoked == old(invoked)
      ensures tied == old(tied) && eventHandling == old(eventHandling) && revents == old(revents)
    {
      slots := slots.(write := true);
    }

    method SetCloseCallback()
      modifies this
      ensures slots == old(slots).(close := true)
      ensures events == old(events) && requests == old(requests) && invoked == old(invoked)
      ensures tied == old(tied) && eventHandling == old(eventHandling) && revents == old(revents)
    {
      slots := slots.(close := true);
    }

    method SetErrorCallback()
      modifies this
      ensures slots == old(slots).(error := true)
      ensures events == old(events) && requests == old(requests) && invoked == old(invoked)
      ensures tied == old(tied) && eventHandling == old(eventHandling) && revents == old(revents)
    {
      slots := slots.(error := true);
    }

    /** `tie(owner)`: from now on dispatch first checks the owner is alive. */
    method Tie()
      modifies this
      ensures tied
      ensures events == old(events) && slots == old(slots) && requests == old(requests)
      ensures invoked == old(invoked) && eventHandling == old(eventHandling) && revents == old(revents)
    {
      tied := true;
    }

    /** `set_revents`, used by the pollers. */
    method SetRevents(revt: Mask)
      modifies this
      ensures revents == revt
      ensures events == old(events) && slots == old(slots) && requests == old(requests)
      ensures invoked == old(invoked) && tied == old(tied) && eventHandling == old(eventHandling)
    {
      revents := revt;
    }

    /** `update()`: ask the loop to mirror the current mask in its poller. */
    method Update()
      modifies this
      ensures requests == old(requests) + [UpdateChannel(events)]
      ensures events == old(events) && slots == old(slots) && invoked == old(invoked)
      ensures tied == old(tied) && eventHandling == old(eventHandling) && revents == old(revents)
    {
      requests := requests + [UpdateChannel(events)];
    }

    method EnableReading()
      requires Valid()
      modifies this
      ensures Valid() && IsReading() && IsWriting() == old(IsWriting())
      ensures events == old(events) | ReadEvent
      ensures requests == old(requests) + [UpdateChannel(events)]
      ensures slots == old(slots) && invoked == old(invoked) && tied == old(tied)
      ensures eventHandling == old(eventHandling) && revents == old(revents)
    {
      events := events | ReadEvent;
      Update();
    }

    method EnableWriting()
      requires Valid()
      modifies this
      ensures Valid() && IsWriting() && IsReading() == old(IsReading())
      ensures events == old(events) | WriteEvent
      ensures requests == old(requests) + [UpdateChannel(events)]
      ensures slots == old(slots) && invoked == old(invoked) && tied == old(tied)
      ensures eventHandling == old(eventHandling) && revents == old(revents)
    {
      events := events | WriteEvent;
      Update();
    }

    method DisableWriting()
      requires Valid()
      modifies this
      ensures Valid() && !IsWriting() && IsReading() == old(IsReading())
      ensures events == old(events) & !WriteEvent
      ensures requests == old(requests) + [UpdateChannel(events)]
      ensures slots == old(slots) && invoked == old(invoked) && tied == old(tied)
      ensures eventHandling == old(eventHandling) && revents == old(revents)
    {
      events := events & !WriteEvent;
      Update();
    }

    method DisableAll()
      modifies this
      ensures Valid() && IsNoneEvent() && !IsReading() && !IsWriting()
      ensures requests == old(requests) + [UpdateChannel(NoneEvent)]
      ensures slots == old(slots) && invoked == old(invoked) && tied == old(tied)
      ensures eventHandling == old(eventHandling) && revents == old(revents)
    {
      events := NoneEvent;
      Update();
    }

    /** `remove()`: deregister from the loop; only legal with an empty mask. */
    method Remove()
      requires IsNoneEvent()
      modifies this
      ensures requests == old(requests) + [RemoveChannel]
      ensures events == old(events) && slots == old(slots) && invoked == old(invoked)
      ensures tied == old(tied) && eventHandling == old(eventHandling) && revents == old(revents)
    {
      requests := requests + [RemoveChannel];
    }

    /** Running one callback; only possible while an event is being handled. */
    method Invoke(c: Callback)
      requires eventHandling
      modifies this
      ensures invoked == old(invoked) + [c]
      ensures events == old(events) && slots == old(slots) && requests == old(requests)
      ensures tied == old(tied) && eventHandling && revents == old(revents)
    {
      invoked := invoked + [c];
    }

    /** `handleEventWithGuard(t)`: run the callbacks the dispatch rule picks,
        with `eventHandling` set for exactly that stretch. */
    method HandleEventWithGuard(receiveTime: int)
      requires !eventHandling
      modifies this
      ensures invoked == old(invoked) + Dispatch(revents, slots, receiveTime)
      ensures !eventHandling
      ensures events == old(events) && slots == old(slots) && requests == old(requests)
      ensures tied == old(tied) && revents == old(revents)
    {
      var close, error := CloseFires(revents, slots), ErrorFires(revents, slots);
      var read, write := ReadFires(revents, slots), WriteFires(revents, slots);
      eventHandling := true;
      RunCallbacks(close, error, read, write, receiveTime);
      eventHandling := false;
    }

    /** The callbacks picked for one report, run in dispatch order. */
    method RunCallbacks(close: bool, error: bool, read: bool, write: bool, receiveTime: int)
      requires eventHandling
      modifies this
      ensures invoked == old(invoked) + Assemble(close, error, read, write, receiveTime)
      ensures eventHandling && revents == old(revents)
      ensures events == old(events) && slots == old(slots) && requests == old(requests) && tied == old(tied)
    {
      ghost var start := invoked;
      ghost var fired: seq<Callback> := [];
      if close {
        Invoke(CloseCallback);
        fired := fired + [CloseCallback];
      }
      assert invoked == start + fired;
      if error {
        Invoke(ErrorCallback);
        Bytes.Associative(start, fired, [ErrorCallback]);
        fired := fired + [ErrorCallback];
      }
      assert invoked == start + fired;
      if read {
        Invoke(ReadCallback(receiveTime));
        Bytes.Associative(start, fired, [ReadCallback(receiveTime)]);
        fired := fired + [ReadCallback(receiveTime)];
      }
      assert invoked == start + fired;
      if write {
        Invoke(WriteCallback);
        Bytes.Associative(start, fired, [WriteCallback]);
        fired := fired + [WriteCallback];
      }
      assert fired == Assemble(close, error, read, write, receiveTime);
    }

    /** `handleEvent(t)`; `ownerAlive` is whether `tie_.lock()` still finds
        the owner. A tied channel whose owner is gone runs nothing. */
    method HandleEvent(receiveTime: int, ownerAlive: bool)
      requires !eventHandling
      modifies this
      ensures invoked == old(invoked) + (if tied && !ownerAlive then [] else Dispatch(revents, slots, receiveTime))
      ensures !eventHandling
      ensures events == old(events) && slots == old(slots) && requests == old(requests)
      ensures tied == old(tied) && revents == old(revents)
    {
      if tied {
        if ownerAlive {
          HandleEventWithGuard(receiveTime);
        }
      } else {
        HandleEventWithGuard(receiveTime);
      }
    }
  }
}
