/** The refresh loop behind queue events: one loop at a time, a flag that asks it for another round,
    and a `finally` that runs one step after the loop has ended. */
module ConnectQueues {

  /** A live loop waits for its refresh, or has ended and waits for its `finally`. */
  datatype Loop = Awaiting | Ended

  datatype Entry = Asked | Began

  /** `held` is whether the module variable holds a promise; `loops` are the loops actually alive. */
  datatype Queue = Queue(again: bool, held: bool, loops: seq<Loop>, log: seq<Entry>)

  function Idle(): Queue {
    Queue(false, false, [], [])
  }

  /** The head of the loop: another round, or the end. */
  function TestAgain(q: Queue, i: nat): Queue
    requires i < |q.loops|
  {
    if q.again then q.(again := false, loops := q.loops[i := Awaiting], log := q.log + [Began])
    else q.(loops := q.loops[i := Ended])
  }

  function Schedule(q: Queue): Queue {
    var asked := q.(again := true);
    if q.held then asked
    else TestAgain(asked.(held := true, loops := q.loops + [Awaiting]), |q.loops|)
  }

  /** The listener: ignored until the configuration is ready. */
  function QueueEvent(q: Queue, ready: bool): Queue {
    if ready then Schedule(q.(log := q.log + [Asked])) else q
  }

  /** A refresh settles; one that throws ends the loop without another test. */
  function RefreshSettles(q: Queue, i: nat, threw: bool): Queue
    requires i < |q.loops|
  {
    if threw then q.(loops := q.loops[i := Ended]) else TestAgain(q, i)
  }

  function Finally(q: Queue, i: nat): Queue
    requires i < |q.loops|
  {
    var freed := q.(held := false, loops := q.loops[..i] + q.loops[i + 1..]);
    if q.again then Schedule(freed) else freed
  }

  datatype Event = Arrives(ready: bool) | Settles(i: nat, threw: bool) | Finishes(i: nat)

  predicate Possible(q: Queue, e: Event) {
    match e
    case Arrives(_) => true
    case Settles(i, _) => i < |q.loops| && q.loops[i].Awaiting?
    case Finishes(i) => i < |q.loops| && q.loops[i].Ended?
  }

  function Next(q: Queue, e: Event): Queue
    requires Possible(q, e)
  {
    match e
    case Arrives(ready) => QueueEvent(q, ready)
    case Settles(i, threw) => RefreshSettles(q, i, threw)
    case Finishes(i) => Finally(q, i)
  }

  ghost predicate History(q: Queue, events: seq<Event>)
    decreases |events|
  {
    events == [] || (Possible(q, events[0]) && History(Next(q, events[0]), events[1..]))
  }

  ghost function After(q: Queue, events: seq<Event>): Queue
    requires History(q, events)
    decreases |events|
  {
    if events == [] then q else After(Next(q, events[0]), events[1..])
  }

  /** The variable and the loops agree, a wish for another round has a loop to serve it, and unserved
      events have such a wish. */
  ghost predicate Inv(q: Queue) {
    && |q.loops| == (if q.held then 1 else 0)
    && (q.again ==> q.held)
    && Served(q.log, q.again)
  }

  ghost predicate Served(log: seq<Entry>, again: bool) {
    forall i :: 0 <= i < |log| && log[i].Asked? ==> again || Began in log[i..]
  }

  /** A refresh that begins serves every event before it. */
  lemma BeganServes(log: seq<Entry>)
    ensures Served(log + [Began], false)
  {
    var next := log + [Began];
    forall i | 0 <= i < |next| ensures Began in next[i..] { assert next[i..][|log| - i] == Began; }
  }

  lemma NextKeeps(q: Queue, e: Event)
    requires Inv(q) && Possible(q, e)
    ensures Inv(Next(q, e))
  {
    NextServes(q, e);
    hide Served;
  }

  lemma NextServes(q: Queue, e: Event)
    requires Inv(q) && Possible(q, e)
    ensures Served(Next(q, e).log, Next(q, e).again)
  {
    BeganServes(q.log);
    BeganServes(q.log + [Asked]);
  }

  lemma {:induction false} HistoryKeeps(q: Queue, events: seq<Event>)
    requires Inv(q) && History(q, events)
    ensures Inv(After(q, events))
    decreases |events|
  {
    if events != [] {
      NextKeeps(q, events[0]);
      HistoryKeeps(Next(q, events[0]), events[1..]);
    }
  }

  /** In every run at most one loop is alive, and each event has been followed by a refresh that began
      after it, unless a live loop still carries the wish for one; at rest every event has been. */
  lemma EveryEventIsServed(events: seq<Event>)
    requires History(Idle(), events)
    ensures var q := After(Idle(), events);
      && |q.loops| <= 1
      && (q.held <==> |q.loops| == 1)
      && (forall i :: 0 <= i < |q.log| && q.log[i].Asked? ==> Began in q.log[i..] || (q.again && |q.loops| == 1))
      && (q.loops == [] ==> forall i :: 0 <= i < |q.log| && q.log[i].Asked? ==> Began in q.log[i..])
  {
    HistoryKeeps(Idle(), events);
  }

  predicate IsArrival(e: Event) {
    e.Arrives?
  }

  ghost function LoopSteps(events: seq<Event>): nat {
    if events == [] then 0 else (if IsArrival(events[0]) then 0 else 1) + LoopSteps(events[1..])
  }

  /** The wish is served by the loop's next settlement, or by the `finally` after it when that one throws:
      no run takes a second loop step without a refresh beginning, however many events come between. */
  lemma {:induction false} WishIsServedWithinTwoSteps(q: Queue, events: seq<Event>)
    requires Inv(q) && q.again && History(q, events)
    requires LoopSteps(events) >= (if q.loops == [Awaiting] then 2 else 1)
    ensures |q.log| <= |After(q, events).log| && Began in After(q, events).log[|q.log|..]
    decreases |events|
  {
    var next := Next(q, events[0]);
    NextKeeps(q, events[0]);
    LogOnlyGrows(next, events[1..]);
    var end := After(q, events).log;
    if |next.log| > |q.log| && next.log[|next.log| - 1] == Began {
      assert end[|next.log| - 1] == Began;
      assert end[|q.log|..][|next.log| - 1 - |q.log|] == Began;
    } else {
      WishIsServedWithinTwoSteps(next, events[1..]);
      var k :| 0 <= k < |end[|next.log|..]| && end[|next.log|..][k] == Began;
      assert end[|q.log|..][k + |next.log| - |q.log|] == Began;
    }
  }

  lemma {:induction false} LogOnlyGrows(q: Queue, events: seq<Event>)
    requires History(q, events)
    ensures q.log <= After(q, events).log
    decreases |events|
  {
    if events != [] { LogOnlyGrows(Next(q, events[0]), events[1..]); }
  }

  // ---------------------------------------------------------------------------------------------
  // What each event does

  /** What one event does to a queue in order: an event that is heard begins a refresh on an idle queue and leaves a wish
      on a busy one; a refresh that settles begins the next one for a wish and ends the loop without one or when it threw;
      the `finally` begins a new loop for a wish and leaves the queue idle without one. */
  lemma EventsDo(q: Queue, e: Event)
    requires Inv(q) && Possible(q, e)
    ensures
      var r := Next(q, e);
      match e
      case Arrives(ready) =>
        if !ready then r == q
        else if q.loops == [] then r == Queue(false, true, [Awaiting], q.log + [Asked, Began])
        else r == Queue(true, true, q.loops, q.log + [Asked])
      case Settles(_, threw) =>
        if q.again && !threw then r == Queue(false, true, [Awaiting], q.log + [Began])
        else r == Queue(q.again, true, [Ended], q.log)
      case Finishes(_) =>
        if q.again then r == Queue(false, true, [Awaiting], q.log + [Began]) else r == Queue(false, false, [], q.log)
  {
    hide Served;
    assert q.log + [Asked] + [Began] == q.log + [Asked, Began];
    if q.loops != [] { assert q.loops == [q.loops[0]]; }
  }

  ghost function Count(log: seq<Entry>, entry: Entry): nat {
    if log == [] then 0 else Count(log[..|log| - 1], entry) + (if log[|log| - 1] == entry then 1 else 0)
  }

  ghost function Heard(events: seq<Event>): nat {
    if events == [] then 0 else (if events[0] == Arrives(true) then 1 else 0) + Heard(events[1..])
  }

  ghost function Settlements(events: seq<Event>): nat {
    if events == [] then 0 else (if events[0].Settles? then 1 else 0) + Settlements(events[1..])
  }

  function Out(q: Queue): nat {
    if q.loops == [Awaiting] then 1 else 0
  }

  lemma CountAppends(log: seq<Entry>, entry: Entry)
    ensures Count(log + [Asked], entry) == Count(log, entry) + (if entry == Asked then 1 else 0)
    ensures Count(log + [Began], entry) == Count(log, entry) + (if entry == Began then 1 else 0)
    ensures Count(log + [Asked, Began], entry) == Count(log, entry) + 1
  {
    assert (log + [Asked])[..|log|] == log && (log + [Began])[..|log|] == log;
    assert (log + [Asked, Began])[..|log| + 1] == log + [Asked];
  }

  /** No refresh comes from nowhere and none is lost: those begun are those settled and the one still out, and no
      more of them begin than events were heard. */
  lemma {:induction false} RefreshesAreConserved(q: Queue, events: seq<Event>)
    requires Inv(q) && History(q, events)
    ensures
      var r := After(q, events);
      && Count(r.log, Asked) == Count(q.log, Asked) + Heard(events)
      && Count(r.log, Began) + Out(q) == Count(q.log, Began) + Settlements(events) + Out(r)
      && Count(r.log, Began) + (if r.again then 1 else 0) <= Count(q.log, Began) + (if q.again then 1 else 0) + Heard(events)
    decreases |events|
  {
    if events != [] {
      var next := Next(q, events[0]);
      NextKeeps(q, events[0]);
      EventsDo(q, events[0]);
      CountAppends(q.log, Asked);
      CountAppends(q.log, Began);
      RefreshesAreConserved(next, events[1..]);
    }
  }
}
