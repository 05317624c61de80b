/** The composite "any of" trigger of the evoke machinery: an MLM whose
    evoke slot lists several triggers runs when any one of them does.  The
    composite asks its children, in order, for their next run time, whether
    they fire on an event, and for a pending triggering event, and it
    remembers which child last supplied one so that it can report that
    child's delay. */
module Evoke {

  import opened Wrappers

  /** An instant, compared by value (the runtime's ArdenTime). */
  type Time = int

  /** An event of the host system: its name and the instant it happened. */
  datatype ArdenEvent = ArdenEvent(name: string, time: Time)

  /** What a trigger may consult to compute its next run time: the current instant. */
  datatype ExecutionContext = ExecutionContext(now: Time)

  /** A child trigger, described by its observable behaviour only: a rule for
      its next run time (which may look at its queue), the events it fires on,
      its queue of scheduled events and the delay it asks for.  `received`
      records every event handed to it, whether it fires on it or not. */
  class Trigger {
    const schedule: (ExecutionContext, seq<ArdenEvent>) -> Option<Time>
    const firesOn: ArdenEvent -> bool
    const delay: int
    var pending: seq<ArdenEvent>
    ghost var received: seq<ArdenEvent>

    constructor (schedule: (ExecutionContext, seq<ArdenEvent>) -> Option<Time>,
                 firesOn: ArdenEvent -> bool, delay: int)
      ensures this.schedule == schedule && this.firesOn == firesOn && this.delay == delay
      ensures pending == [] && received == []
    {
      this.schedule := schedule;
      this.firesOn := firesOn;
      this.delay := delay;
      pending := [];
      received := [];
    }

    /** The instant this trigger next wants to run, if any. */
    function NextRunTime(ctx: ExecutionContext): Option<Time>
      reads this
    {
      schedule(ctx, pending)
    }

    method GetNextRunTime(ctx: ExecutionContext) returns (t: Option<Time>)
      ensures t == NextRunTime(ctx)
    {
      t := schedule(ctx, pending);
    }

    method RunOnEvent(e: ArdenEvent) returns (fires: bool)
      ensures fires == firesOn(e)
    {
      fires := firesOn(e);
    }

    /** Every event is received; one this trigger fires on joins the end of
        its queue, any other is dropped. */
    method ScheduleEvent(e: ArdenEvent)
      modifies this
      ensures received == old(received) + [e]
      ensures pending == old(pending) + (if firesOn(e) then [e] else [])
    {
      received := received + [e];
      if firesOn(e) {
        pending := pending + [e];
      }
    }

    /** Removes and returns the oldest queued event; none when the queue is empty. */
    method GetTriggeringEvent() returns (ev: Option<ArdenEvent>)
      modifies this
      ensures old(pending) == [] ==> ev == None && pending == []
      ensures old(pending) != [] ==> ev == Some(old(pending)[0]) && pending == old(pending)[1..]
      ensures received == old(received)
    {
      if pending == [] {
        ev := None;
      } else {
        ev := Some(pending[0]);
        pending := pending[1..];
      }
    }

    method GetDelay() returns (d: int)
      ensures d == delay
    {
      d := delay;
    }
  }

  // ---------------------------------------------------------------------
  // The oldest of the children's run times

  /** One step of the search for the oldest run time: a present time replaces
      the running one when there is none yet or when it is strictly earlier. */
  function Earlier(oldest: Option<Time>, next: Option<Time>): (r: Option<Time>)
    ensures r == oldest || r == next
    ensures oldest.Some? && next.Some? ==> r.value == if oldest.value <= next.value then oldest.value else next.value
    ensures r.None? <==> oldest.None? && next.None?
  {
    if next.Some? && (oldest.None? || oldest.value > next.value) then next else oldest
  }

  /** The running result of the search after every time in `times`, in order. */
  function Oldest(times: seq<Option<Time>>): (r: Option<Time>)
    ensures r.None? || r in times
  {
    if times == [] then None else Earlier(Oldest(times[..|times| - 1]), times[|times| - 1])
  }

  /** The search finds nothing exactly when no child has a run time. */
  lemma {:induction false} OldestNone(times: seq<Option<Time>>)
    ensures Oldest(times).None? <==> forall i :: 0 <= i < |times| ==> times[i].None?
  {
    if times != [] {
      var prefix := times[..|times| - 1];
      OldestNone(prefix);
      assert forall i :: 0 <= i < |prefix| ==> prefix[i] == times[i];
    }
  }

  /** What the search finds is one of the children's times and no later than any of them. */
  lemma {:induction false} OldestLeast(times: seq<Option<Time>>)
    requires Oldest(times).Some?
    ensures Oldest(times) in times
    ensures forall i :: 0 <= i < |times| && times[i].Some? ==> Oldest(times).value <= times[i].value
  {
    var prefix := times[..|times| - 1];
    assert forall i :: 0 <= i < |prefix| ==> prefix[i] == times[i];
    if Oldest(prefix).Some? {
      OldestLeast(prefix);
    } else {
      OldestNone(prefix);
    }
  }

  /** The run times the children report, child by child. */
  function RunTimes(ts: seq<Trigger>, ctx: ExecutionContext): (r: seq<Option<Time>>)
    reads ts
    ensures |r| == |ts|
    ensures forall i :: 0 <= i < |ts| ==> r[i] == ts[i].NextRunTime(ctx)
  {
    if ts == [] then [] else [ts[0].NextRunTime(ctx)] + RunTimes(ts[1..], ctx)
  }

  /** Conversely, the least present time is what the search finds, whatever
      the order of the children. */
  lemma OldestIsLeast(times: seq<Option<Time>>, t: Time)
    requires Some(t) in times
    requires forall i :: 0 <= i < |times| && times[i].Some? ==> t <= times[i].value
    ensures Oldest(times) == Some(t)
  {
    OldestNone(times);
    OldestLeast(times);
  }

  // ---------------------------------------------------------------------
  // Queues of scheduled events

  /** n copies of an event. */
  function Copies(e: ArdenEvent, n: nat): (r: seq<ArdenEvent>)
    ensures |r| == n
    ensures forall i :: 0 <= i < n ==> r[i] == e
  {
    if n == 0 then [] else Copies(e, n - 1) + [e]
  }

  /** The position of the first child with an event queued, if any. */
  function FirstReady(ts: seq<Trigger>): (k: Option<nat>)
    reads ts
    ensures k.None? <==> forall i :: 0 <= i < |ts| ==> ts[i].pending == []
    ensures k.Some? ==> k.value < |ts| && ts[k.value].pending != []
    ensures k.Some? ==> forall i :: 0 <= i < k.value ==> ts[i].pending == []
  {
    if ts == [] then None
    else if ts[0].pending != [] then Some(0)
    else match FirstReady(ts[1..])
      case None => None
      case Some(k) => Some(k + 1)
  }

  /** Child t has been handed e n times since its log was `log` and its queue `queue`. */
  ghost predicate Handed(t: Trigger, e: ArdenEvent, log: seq<ArdenEvent>, queue: seq<ArdenEvent>, n: nat)
    reads t
  {
    t.received == log + Copies(e, n) && t.pending == queue + Copies(e, if t.firesOn(e) then n else 0)
  }

  /** One more hand-over of e to t. */
  lemma HandedAgain(t: Trigger, e: ArdenEvent, log: seq<ArdenEvent>, queue: seq<ArdenEvent>, n: nat,
                    logBefore: seq<ArdenEvent>, queueBefore: seq<ArdenEvent>)
    requires logBefore == log + Copies(e, n)
    requires queueBefore == queue + Copies(e, if t.firesOn(e) then n else 0)
    requires t.received == logBefore + [e]
    requires t.pending == queueBefore + (if t.firesOn(e) then [e] else [])
    ensures Handed(t, e, log, queue, n + 1)
  {
    assert Copies(e, n + 1) == Copies(e, n) + [e];
  }

  /** The children up to i + 1 are those up to i and child i. */
  lemma CountNext(ts: seq<Trigger>, i: nat, t: Trigger)
    requires i < |ts|
    ensures multiset(ts[..i + 1])[t] == multiset(ts[..i])[t] + (if t == ts[i] then 1 else 0)
  {
    assert ts[..i + 1] == ts[..i] + [ts[i]];
  }

  // ---------------------------------------------------------------------
  // The composite

  class AnyTrigger {
    var activeTrigger: Trigger?
    const triggers: seq<Trigger>

    /** The remembered child is always one of the children. */
    ghost predicate Valid()
      reads this
    {
      activeTrigger == null || activeTrigger in triggers
    }

    constructor (triggers: seq<Trigger>)
      ensures this.triggers == triggers && activeTrigger == null
      ensures Valid()
    {
      this.triggers := triggers;
      activeTrigger := null;
    }

    /** The oldest next run time over all children; none when no child has one. */
    method GetNextRunTime(ctx: ExecutionContext) returns (oldest: Option<Time>)
      ensures oldest == Oldest(RunTimes(triggers, ctx))
    {
      oldest := None;
      ghost var times := RunTimes(triggers, ctx);
      var i := 0;
      while i < |triggers|
        invariant 0 <= i <= |triggers|
        invariant oldest == Oldest(times[..i])
      {
        var next := triggers[i].GetNextRunTime(ctx);
        assert times[..i + 1][..i] == times[..i];
        if next.Some? && (oldest.None? || oldest.value > next.value) {
          oldest := next;
        }
        i := i + 1;
      }
      assert times[..i] == times;
    }

    /** Fires exactly when some child fires; the children after the first one
        that fires are not asked. */
    method RunOnEvent(e: ArdenEvent) returns (fires: bool)
      ensures fires <==> exists i :: 0 <= i < |triggers| && triggers[i].firesOn(e)
    {
      var i := 0;
      while i < |triggers|
        invariant 0 <= i <= |triggers|
        invariant forall j :: 0 <= j < i ==> !triggers[j].firesOn(e)
      {
        var f := triggers[i].RunOnEvent(e);
        if f {
          return true;
        }
        i := i + 1;
      }
      return false;
    }

    /** Hands the event to every child in turn, once for each time the child
        occurs in the list of children; a child that fires on it queues each copy. */
    method ScheduleEvent(e: ArdenEvent)
      modifies triggers
      ensures forall i :: 0 <= i < |triggers| ==>
                triggers[i].received == old(triggers[i].received) + Copies(e, multiset(triggers)[triggers[i]])
      ensures forall i :: 0 <= i < |triggers| ==>
                triggers[i].pending == old(triggers[i].pending)
                  + Copies(e, if triggers[i].firesOn(e) then multiset(triggers)[triggers[i]] else 0)
      ensures activeTrigger == old(activeTrigger)
    {
      var i := 0;
      while i < |triggers|
        invariant 0 <= i <= |triggers|
        invariant forall j :: 0 <= j < |triggers| ==>
                    Handed(triggers[j], e, old(triggers[j].received), old(triggers[j].pending), multiset(triggers[..i])[triggers[j]])
      {
        label before:
        triggers[i].ScheduleEvent(e);
        forall j | 0 <= j < |triggers|
          ensures Handed(triggers[j], e, old(triggers[j].received), old(triggers[j].pending), multiset(triggers[..i + 1])[triggers[j]])
        {
          var n := multiset(triggers[..i])[triggers[j]];
          CountNext(triggers, i, triggers[j]);
          if triggers[j] != triggers[i] {
            assert triggers[j].received == old@before(triggers[j].received);
            assert triggers[j].pending == old@before(triggers[j].pending);
          } else {
            HandedAgain(triggers[j], e, old(triggers[j].received), old(triggers[j].pending), n,
                        old@before(triggers[j].received), old@before(triggers[j].pending));
          }
        }
        i := i + 1;
      }
      assert triggers[..i] == triggers;
    }

    /** Takes the oldest queued event of the first child that has one and
        remembers that child; when no child has one, nothing changes. */
    method GetTriggeringEvent() returns (ev: Option<ArdenEvent>)
      requires Valid()
      modifies this, triggers
      ensures Valid()
      ensures old(FirstReady(triggers)).None? ==>
                ev == None && activeTrigger == old(activeTrigger)
                && forall i :: 0 <= i < |triggers| ==> triggers[i].pending == old(triggers[i].pending)
      ensures old(FirstReady(triggers)).Some? ==>
                var k := old(FirstReady(triggers)).value;
                && ev == Some(old(triggers[k].pending[0]))
                && activeTrigger == triggers[k]
                && triggers[k].pending == old(triggers[k].pending)[1..]
                && forall i :: 0 <= i < |triggers| && triggers[i] != triggers[k] ==>
                     triggers[i].pending == old(triggers[i].pending)
      ensures forall i :: 0 <= i < |triggers| ==> triggers[i].received == old(triggers[i].received)
    {
      ghost var ready := FirstReady(triggers);
      var i := 0;
      while i < |triggers|
        invariant 0 <= i <= |triggers|
        invariant activeTrigger == old(activeTrigger)
        invariant forall j :: 0 <= j < |triggers| ==> triggers[j].pending == old(triggers[j].pending)
        invariant forall j :: 0 <= j < |triggers| ==> triggers[j].received == old(triggers[j].received)
        invariant forall j :: 0 <= j < i ==> triggers[j].pending == []
        invariant ready.Some? ==> i <= ready.value
      {
        var te := triggers[i].GetTriggeringEvent();
        if te.Some? {
          activeTrigger := triggers[i];
          return te;
        }
        i := i + 1;
      }
      return None;
    }

    /** The delay of the child that supplied the last triggering event; zero
        while there has been none. */
    method GetDelay() returns (d: int)
      requires Valid()
      ensures d == if activeTrigger == null then 0 else activeTrigger.delay
      ensures activeTrigger != null ==> exists i :: 0 <= i < |triggers| && d == triggers[i].delay
    {
      if activeTrigger == null {
        return 0;
      }
      d := activeTrigger.GetDelay();
    }
  }

  // ---------------------------------------------------------------------
  // A composite of a time trigger and an event trigger

  const Noon: Time := 43200
  const EventDelay: int := 300

  /** A time trigger due at noon that fires on no event. */
  method NoonTrigger() returns (t: Trigger)
    ensures fresh(t) && t.pending == []
    ensures forall ctx :: t.schedule(ctx, []) == Some(Noon)
    ensures forall x :: !t.firesOn(x)
  {
    t := new Trigger((c: ExecutionContext, q: seq<ArdenEvent>) => Some(Noon), (x: ArdenEvent) => false, 0);
  }

  /** An event trigger for events with the given name: it runs at the time of
      its oldest queued event and asks for EventDelay. */
  method NamedEventTrigger(name: string) returns (t: Trigger)
    ensures fresh(t) && t.pending == [] && t.delay == EventDelay
    ensures forall ctx :: t.schedule(ctx, []) == None
    ensures forall x :: t.firesOn(x) <==> x.name == name
  {
    t := new Trigger((c: ExecutionContext, q: seq<ArdenEvent>) => if q == [] then None else Some(q[0].time),
                     (x: ArdenEvent) => x.name == name, EventDelay);
  }

  /** A composite of a time trigger due at noon and an event trigger for
      events named "A", with nothing queued yet, next runs at noon. */
  method TimeAndEventRunTime(ctx: ExecutionContext) returns (next: Option<Time>)
    ensures next == Some(Noon)
  {
    var atNoon := NoonTrigger();
    var onA := NamedEventTrigger("A");
    var any := new AnyTrigger([atNoon, onA]);
    assert any.triggers == [atNoon, onA];
    next := any.GetNextRunTime(ctx);
    ghost var times := RunTimes(any.triggers, ctx);
    assert times[0] == Some(Noon) && times[1] == None;
    OldestIsLeast(times, Noon);
  }

  /** The same composite fires on an "A" event and on no event of another name. */
  method TimeAndEventFires(e: ArdenEvent) returns (fires: bool)
    ensures fires <==> e.name == "A"
  {
    var atNoon := NoonTrigger();
    var onA := NamedEventTrigger("A");
    var any := new AnyTrigger([atNoon, onA]);
    assert any.triggers == [atNoon, onA];
    assert !any.triggers[0].firesOn(e) && (any.triggers[1].firesOn(e) <==> e.name == "A");
    fires := any.RunOnEvent(e);
  }

  /** Once an "A" event is scheduled, the same composite hands it out as its
      triggering event and reports the event trigger's delay; a second request
      finds nothing and keeps that delay. */
  method TimeAndEventScenario(e: ArdenEvent)
      returns (taken: Option<ArdenEvent>, delay: int, takenAgain: Option<ArdenEvent>, delayAgain: int)
    requires e.name == "A"
    ensures taken == Some(e) && delay == EventDelay
    ensures takenAgain == None && delayAgain == EventDelay
  {
    var atNoon := NoonTrigger();
    var onA := NamedEventTrigger("A");
    var any := new AnyTrigger([atNoon, onA]);
    ScheduleOne(any, atNoon, onA, e);
    taken, delay := TakeOne(any, atNoon, onA, e);
    takenAgain, delayAgain := TakeNone(any, atNoon, onA);
  }

  /** Scheduling an event that only the second of two distinct children fires on. */
  method ScheduleOne(any: AnyTrigger, first: Trigger, second: Trigger, e: ArdenEvent)
    requires any.triggers == [first, second] && first != second
    requires !first.firesOn(e) && second.firesOn(e)
    modifies first, second
    ensures first.pending == old(first.pending) && second.pending == old(second.pending) + [e]
  {
    any.ScheduleEvent(e);
    assert multiset(any.triggers)[second] == 1;
    assert any.triggers[0] == first && any.triggers[1] == second;
  }

  /** Taking the one queued event of the second of two children. */
  method TakeOne(any: AnyTrigger, first: Trigger, second: Trigger, e: ArdenEvent)
      returns (taken: Option<ArdenEvent>, delay: int)
    requires any.triggers == [first, second] && first != second && any.Valid()
    requires first.pending == [] && second.pending == [e]
    modifies any, first, second
    ensures taken == Some(e) && delay == second.delay
    ensures any.activeTrigger == second && any.Valid()
    ensures first.pending == [] && second.pending == []
  {
    assert FirstReady(any.triggers) == Some(1);
    taken := any.GetTriggeringEvent();
    assert any.triggers[0] == first && any.triggers[1] == second;
    delay := any.GetDelay();
  }

  /** With nothing queued, no event is taken and the remembered delay stays. */
  method TakeNone(any: AnyTrigger, first: Trigger, second: Trigger)
      returns (taken: Option<ArdenEvent>, delay: int)
    requires any.triggers == [first, second] && any.Valid()
    requires first.pending == [] && second.pending == [] && any.activeTrigger == second
    modifies any, first, second
    ensures taken == None && delay == second.delay
  {
    assert FirstReady(any.triggers) == None;
    taken := any.GetTriggeringEvent();
    delay := any.GetDelay();
  }

  /** A composite whose children have nothing queued reports no triggering
      event and, having never supplied one, a zero delay. */
  method NoMatchScenario() returns (taken: Option<ArdenEvent>, delay: int)
    ensures taken == None && delay == 0
  {
    var atNoon := NoonTrigger();
    var onB := NamedEventTrigger("B");
    var any := new AnyTrigger([atNoon, onB]);
    assert any.triggers == [atNoon, onB];
    taken := any.GetTriggeringEvent();
    delay := any.GetDelay();
  }
}
