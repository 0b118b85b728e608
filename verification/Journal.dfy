/** The bounded event window of the browser connection, against the unbounded log of every event
    ever received. */
module Journal {
  import opened Json

  const MAX_EVENTS: nat := 10_000
  const MAX_EVENT_BYTES: nat := 8 * 1024 * 1024

  /** A received message. `encoded` is its serialized length, absent when it cannot be encoded. */
  datatype Message = Message(name: Option<string>, params: Value, encoded: Option<nat>)

  datatype Event = Event(cursor: nat, message: Message)

  datatype Retained = Retained(event: Event, bytes: nat)

  datatype Snapshot = Snapshot(events: seq<Event>, overflowed: bool, lastCursor: nat)

  function SizeOf(m: Message): nat {
    if m.encoded.Some? then m.encoded.value else MAX_EVENT_BYTES + 1
  }

  function TotalSize(ms: seq<Message>): nat {
    if ms == [] then 0 else SizeOf(ms[0]) + TotalSize(ms[1..])
  }

  lemma {:induction false} TotalSizeAppend(a: seq<Message>, b: seq<Message>)
    ensures TotalSize(a + b) == TotalSize(a) + TotalSize(b)
  {
    if a == [] {
      assert a + b == b;
    } else {
      assert (a + b)[1..] == a[1..] + b;
      TotalSizeAppend(a[1..], b);
    }
  }

  /** Whether the events after the first `from` fit the window. */
  predicate Fits(log: seq<Message>, from: nat)
    requires from <= |log|
  {
    |log| - from <= MAX_EVENTS && TotalSize(log[from..]) <= MAX_EVENT_BYTES
  }

  lemma FitsLater(log: seq<Message>, from: nat, to: nat)
    requires from <= to <= |log| && Fits(log, from)
    ensures Fits(log, to)
  {
    assert log[from..] == log[from..to] + log[to..];
    TotalSizeAppend(log[from..to], log[to..]);
  }

  lemma FitsPrefix(log: seq<Message>, m: Message, from: nat)
    requires from <= |log| && Fits(log + [m], from)
    ensures Fits(log, from)
  {
    assert (log + [m])[from..] == log[from..] + [m];
    TotalSizeAppend(log[from..], [m]);
  }

  /** `from` starts the longest suffix of the log that fits: nothing older could be kept. */
  ghost predicate IsWindowStart(log: seq<Message>, from: nat) {
    from <= |log| && Fits(log, from) && forall earlier: nat :: earlier < from ==> !Fits(log, earlier)
  }

  /** The events with a cursor above `cursor`, in order. */
  function After(events: seq<Retained>, cursor: nat): (r: seq<Event>) {
    if events == [] then []
    else (if events[0].event.cursor > cursor then [events[0].event] else []) + After(events[1..], cursor)
  }

  lemma {:induction false} AfterIsSuffix(events: seq<Retained>, first: nat, cursor: nat)
    requires forall i :: 0 <= i < |events| ==> events[i].event.cursor == first + i
    ensures |After(events, cursor)| ==
            (if cursor < first then |events| else if cursor < first + |events| then first + |events| - cursor - 1 else 0)
    ensures forall k :: 0 <= k < |After(events, cursor)| ==>
              After(events, cursor)[k] == events[|events| - |After(events, cursor)| + k].event
  {
    if events != [] {
      AfterIsSuffix(events[1..], first + 1, cursor);
    }
  }

  class Journal {
    var nextCursor: nat
    var bytes: nat
    var droppedThrough: nat
    var events: seq<Retained>
    var methods: set<string>
    /** Every message ever recorded; message k has cursor k + 1. */
    ghost var log: seq<Message>

    /** The window before eviction has run: contiguous, accurate, possibly over its bounds. */
    ghost predicate Consistent()
      reads this
    {
      && nextCursor == |log| + 1
      && droppedThrough + |events| == |log|
      && (forall i :: 0 <= i < |events| ==>
            events[i] == Retained(Event(droppedThrough + 1 + i, log[droppedThrough + i]), SizeOf(log[droppedThrough + i])))
      && bytes == TotalSize(log[droppedThrough..])
      && (forall name :: name in methods <==> exists k :: 0 <= k < |log| && log[k].name == Some(name))
    }

    /** The window is exactly the longest suffix of the log within both bounds. */
    ghost predicate Valid()
      reads this
    {
      Consistent() && IsWindowStart(log, droppedThrough)
    }

    constructor ()
      ensures Valid() && log == []
    {
      nextCursor, bytes, droppedThrough, events, methods, log := 1, 0, 0, [], {}, [];
    }

    method Record(message: Message)
      requires Valid()
      modifies this
      ensures Valid() && log == old(log) + [message]
    {
      var size := SizeOf(message);
      if message.name.Some? {
        RememberMethod(message.name.value);
      }
      var event := Event(nextCursor, message);
      nextCursor := nextCursor + 1;
      bytes := bytes + size;
      events := events + [Retained(event, size)];
      log := log + [message];
      assert log[droppedThrough..] == old(log[droppedThrough..]) + [message];
      TotalSizeAppend(old(log[droppedThrough..]), [message]);
      assert TotalSize([message]) == size by { assert [message][1..] == []; }
      forall name | name in methods
        ensures exists k :: 0 <= k < |log| && log[k].name == Some(name)
      {
        if name in old(methods) {
          var k :| 0 <= k < |old(log)| && old(log)[k].name == Some(name);
          assert log[k].name == Some(name);
        } else {
          assert log[|log| - 1].name == Some(name);
        }
      }
      forall earlier: nat | earlier < droppedThrough
        ensures !Fits(log, earlier)
      {
        if Fits(log, earlier) { FitsPrefix(old(log), message, earlier); }
      }
      EvictBeyondBounds();
    }

    method RememberMethod(name: string)
      modifies this`methods
      ensures methods == old(methods) + {name}
    {
      if name !in methods {
        methods := methods + {name};
      }
    }

    method EvictBeyondBounds()
      requires Consistent()
      requires forall earlier: nat :: earlier < droppedThrough ==> !Fits(log, earlier)
      modifies this`events, this`bytes, this`droppedThrough
      ensures Valid()
    {
      while |events| > MAX_EVENTS || bytes > MAX_EVENT_BYTES
        invariant Consistent()
        invariant forall earlier: nat :: earlier < droppedThrough ==> !Fits(log, earlier)
        decreases |events|
      {
        if events == [] {
          return;
        }
        var evicted := events[0];
        assert log[droppedThrough..] == [log[droppedThrough]] + log[droppedThrough + 1..];
        bytes := bytes - evicted.bytes;
        droppedThrough := evicted.event.cursor;
        events := events[1..];
      }
    }

    function Cursor(): (r: nat)
      requires Valid()
      reads this
      ensures r == |log|
    {
      nextCursor - 1
    }

    /** Overflow is reported exactly when the history after `cursor` no longer fits the window, and
        then the very next event is gone; otherwise the snapshot is that complete history. */
    function SnapshotSince(cursor: nat): (r: Snapshot)
      requires Valid()
      reads this
      ensures r.lastCursor == |log|
      ensures r.overflowed <==> cursor < |log| && !Fits(log, cursor)
      ensures r.overflowed ==> forall e :: e in r.events ==> e.cursor > cursor + 1
      ensures !r.overflowed ==> |r.events| == (if cursor < |log| then |log| - cursor else 0)
      ensures !r.overflowed ==> forall k :: 0 <= k < |r.events| ==> r.events[k] == Event(cursor + k + 1, log[cursor + k])
    {
      AfterIsSuffix(events, droppedThrough + 1, cursor);
      Snapshot(After(events, cursor), LostEventsSince(cursor), Cursor())
    }

    /** Events after `cursor` were evicted before they could be read. */
    predicate LostEventsSince(cursor: nat)
      requires Valid()
      reads this
      ensures LostEventsSince(cursor) <==> cursor < |log| && !Fits(log, cursor)
    {
      assert droppedThrough <= cursor <= |log| ==> Fits(log, cursor) by {
        if droppedThrough <= cursor <= |log| { FitsLater(log, droppedThrough, cursor); }
      }
      cursor < droppedThrough
    }

    predicate HasReceived(name: string)
      requires Valid()
      reads this
      ensures HasReceived(name) <==> exists k :: 0 <= k < |log| && log[k].name == Some(name)
    {
      name in methods
    }
  }
}
