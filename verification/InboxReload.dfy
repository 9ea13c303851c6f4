/** The Inbox refresh owner: one pending slot, one active run, and refresh intents joined in a lattice.
    `Reload` is the owner's state, the functions on it are its atomic steps, and the class
    `InboxReload` performs the same steps in place.  `World` adds what surrounds the owner: the
    environment it reads, the runs still in flight, and a log of what was promised and what was done. */
module InboxReloads {
  import opened Basics

  // ---------------------------------------------------------------------------------------------
  // Intents

  datatype Intent = First | Span(target: nat)

  /** The order of intents: first < span(n), and span(m) <= span(n) when m <= n. */
  predicate AtMost(a: Intent, b: Intent) {
    a.First? || (b.Span? && a.target <= b.target)
  }

  /** The join of two intents: it asks for all that either asks for, and for nothing beyond that. */
  function Combine(a: Intent, b: Intent): (r: Intent)
    ensures AtMost(a, r) && AtMost(b, r)
    ensures forall c :: AtMost(a, c) && AtMost(b, c) ==> AtMost(r, c)
  {
    if a.First? then b
    else if b.First? then a
    else Span(if a.target < b.target then b.target else a.target)
  }

  // ---------------------------------------------------------------------------------------------
  // The owner and its atomic steps

  /** What the owner reads through its options: the query epoch, the blocker, and the one live scope. */
  datatype Env = Env(epoch: nat, blocked: bool, live: Option<Scope>)

  /** The absent scope is always current; a real scope is current when it is the live one. */
  predicate ScopeCurrent(env: Env, scope: Option<Scope>) {
    scope.None? || scope == env.live
  }

  /** A request object.  `id` is its identity: the source compares requests by reference. */
  datatype Request = Request(id: nat, epoch: nat, intent: Intent, scope: Option<Scope>)

  predicate Current(env: Env, request: Request) {
    request.epoch == env.epoch && ScopeCurrent(env, request.scope)
  }

  /** `nextId` is the identity the next request object gets. */
  datatype Reload = Reload(pending: Option<Request>, active: Option<Request>, nextId: nat)

  /** The outcome of an entry point: the new state, whether a request was taken, and the run begun. */
  datatype Outcome = Outcome(reload: Reload, accepted: bool, started: Option<Request>)

  function KeepCurrent(env: Env, slot: Option<Request>): (r: Option<Request>) {
    if slot.Some? && !Current(env, slot.value) then None else slot
  }

  function Synchronize(r: Reload, env: Env): Reload {
    r.(pending := KeepCurrent(env, r.pending), active := KeepCurrent(env, r.active))
  }

  /** Puts a new request object in the pending slot, joined with the request already there. */
  function Enqueue(r: Reload, epoch: nat, intent: Intent, scope: Option<Scope>): Reload {
    var joined := if r.pending.Some? then Combine(r.pending.value.intent, intent) else intent;
    var kept := if r.pending.Some? && r.pending.value.scope.None? then None else scope;
    Reload(Some(Request(r.nextId, epoch, joined, kept)), r.active, r.nextId + 1)
  }

  function Start(r: Reload): Reload
    requires r.pending.Some?
  {
    r.(pending := None, active := r.pending)
  }

  function Ask(r: Reload, env: Env, intent: Intent, scope: Option<Scope>): Outcome {
    var s := Synchronize(r, env);
    if !ScopeCurrent(env, scope) then Outcome(s, false, None) else
    var wanted := if s.active.Some? then Combine(s.active.value.intent, intent) else intent;
    var q := Enqueue(s, env.epoch, wanted, scope);
    if env.blocked || q.active.Some? then Outcome(q, true, None) else Outcome(Start(q), true, q.pending)
  }

  function Wake(r: Reload, env: Env): Outcome {
    var s := Synchronize(r, env);
    if env.blocked then
      if s.active.Some? then
        var a := s.active.value;
        Outcome(Enqueue(s, a.epoch, a.intent, a.scope).(active := None), false, None)
      else Outcome(s, false, None)
    else if s.pending.Some? && s.active.None? then Outcome(Start(s), false, s.pending)
    else Outcome(s, false, None)
  }

  predicate Owns(r: Reload, id: nat) {
    r.active.Some? && r.active.value.id == id
  }

  /** The end of a run: only the run that still owns the active slot clears it and wakes the owner. */
  function Settle(r: Reload, env: Env, id: nat): Outcome {
    if Owns(r, id) then Wake(r.(active := None), env) else Outcome(r, false, None)
  }

  function Cancel(r: Reload): Reload {
    r.(pending := None, active := None)
  }

  // ---------------------------------------------------------------------------------------------
  // The owner as the source writes it: request objects, compared by reference

  /** A request object.  `id` is for the proof alone. */
  class RefreshRequest {
    ghost const id: nat
    const epoch: nat
    var intent: Intent
    var scope: Option<Scope>

    constructor (ghost id: nat, epoch: nat, intent: Intent, scope: Option<Scope>)
      ensures this.id == id && this.epoch == epoch && this.intent == intent && this.scope == scope
    {
      this.id, this.epoch, this.intent, this.scope := id, epoch, intent, scope;
    }

    ghost function Value(): Request
      reads this
    {
      Request(id, epoch, intent, scope)
    }
  }

  /** Two slots of request objects.  Each method takes the environment its options would read during that
      synchronous step.  Objects are changed only on their way into the pending slot, so that what a run
      was started with stays what it was. */
  class InboxReload {
    var pending: RefreshRequest?
    var active: RefreshRequest?
    ghost var made: seq<RefreshRequest>

    ghost function State(): Reload
      reads this, pending, active
    {
      Reload(if pending == null then None else Some(pending.Value()), if active == null then None else Some(active.Value()), |made|)
    }

    /** Every request object ever made is known by its identity, and the two slots hold two different ones. */
    ghost predicate Valid()
      reads this
    {
      && (forall i :: 0 <= i < |made| ==> made[i].id == i)
      && (pending != null ==> pending in made) && (active != null ==> active in made)
      && (pending != null ==> pending != active)
    }

    constructor ()
      ensures Valid() && State() == Reload(None, None, 0)
    {
      pending, active, made := null, null, [];
    }

    method SynchronizeSlots(env: Env)
      requires Valid()
      modifies this`pending, this`active
      ensures Valid() && State() == Synchronize(old(State()), env)
    {
      if pending != null && !(pending.epoch == env.epoch && ScopeCurrent(env, pending.scope)) { pending := null; }
      if active != null && !(active.epoch == env.epoch && ScopeCurrent(env, active.scope)) { active := null; }
    }

    method Running(env: Env) returns (running: bool)
      requires Valid()
      modifies this`pending, this`active
      ensures Valid() && State() == Synchronize(old(State()), env)
      ensures running <==> exists request :: request in made && Owns(State(), request.id)
    {
      SynchronizeSlots(env);
      running := active != null;
      assert running ==> active in made && Owns(State(), active.id);
    }

    /** The new object joins what is pending and takes its place. */
    method EnqueueRequest(request: RefreshRequest)
      requires Valid() && request.id == |made|
      modifies this`pending, this`made, request
      ensures Valid() && made == old(made) + [request] && pending == request && active == old(active)
      ensures State() == Enqueue(old(State()), request.epoch, old(request.intent), old(request.scope))
      ensures active != null ==> active.Value() == old(active.Value())
    {
      if pending != null {
        request.intent := Combine(pending.intent, request.intent);
        if pending.scope.None? { request.scope := None; }
      }
      pending := request;
      made := made + [request];
    }

    method Submit(env: Env, intent: Intent, scope: Option<Scope>) returns (accepted: bool, started: RefreshRequest?)
      requires Valid()
      modifies this
      ensures Valid() && old(made) <= made && (started != null ==> started == active)
      ensures Outcome(State(), accepted, if started == null then None else Some(started.Value()))
           == Ask(old(State()), env, intent, scope)
      ensures old(active) != null && active == old(active) ==> active.Value() == old(active.Value())
    {
      SynchronizeSlots(env);
      if !ScopeCurrent(env, scope) { return false, null; }
      var wanted := intent;
      if active != null { wanted := Combine(active.intent, intent); }
      var request := new RefreshRequest(|made|, env.epoch, wanted, scope);
      EnqueueRequest(request);
      if env.blocked || active != null { return true, null; }
      active, pending := pending, null;
      return true, active;
    }

    method WakeUp(env: Env) returns (started: RefreshRequest?)
      requires Valid()
      modifies this
      ensures Valid() && old(made) <= made && (started != null ==> started == active)
      ensures Outcome(State(), false, if started == null then None else Some(started.Value())) == Wake(old(State()), env)
    {
      SynchronizeSlots(env);
      if env.blocked {
        if active != null {
          var copy := new RefreshRequest(|made|, active.epoch, active.intent, active.scope);
          EnqueueRequest(copy);
          active := null;
        }
        return null;
      }
      if pending != null && active == null {
        active, pending := pending, null;
        return active;
      }
      return null;
    }

    /** The end of a run, told by the object it was started with: comparing references is comparing
        identities. */
    method RunSettled(env: Env, request: RefreshRequest) returns (started: RefreshRequest?)
      requires Valid() && request in made
      modifies this
      ensures Valid() && old(made) <= made && (started != null ==> started == active)
      ensures Outcome(State(), false, if started == null then None else Some(started.Value()))
           == Settle(old(State()), env, request.id)
    {
      started := null;
      if active == request {
        active := null;
        started := WakeUp(env);
      }
    }
  }

  // ---------------------------------------------------------------------------------------------
  // Whole runs

  /** What happened: obligations taken on, cancellations, runs begun, and runs that ended as owner. */
  datatype Entry =
    | Accepted(epoch: nat, intent: Intent, scope: Option<Scope>)
    | Cancelled
    | Started(run: Request)
    | Finished(id: nat)

  /** `retired` holds every scope that was live once and no longer is. */
  datatype World = World(reload: Reload, env: Env, retired: set<Scope>, inFlight: set<nat>, log: seq<Entry>)

  datatype Event =
    | Requested(intent: Intent, scope: Option<Scope>)
    | Woken
    | CancelCalled
    | RunningRead
    | RunSettles(id: nat)
    | EnvChanges(env: Env)

  function Initial(env: Env): World {
    World(Reload(None, None, 0), env, {}, {}, [])
  }

  /** Only runs in flight settle.  The query epoch never falls and a retired scope never returns. */
  predicate Enabled(w: World, e: Event) {
    match e
    case RunSettles(id) => id in w.inFlight
    case EnvChanges(env) =>
      && w.env.epoch <= env.epoch
      && (env.live.Some? ==> env.live.value !in w.retired)
    case _ => true
  }

  function RetiredBy(w: World, env: Env): set<Scope> {
    if w.env.live.Some? && env.live != w.env.live then {w.env.live.value} else {}
  }

  /** Adopts an outcome: a begun run goes on the log and in flight. */
  function Adopt(w: World, o: Outcome): World {
    if o.started.None? then w.(reload := o.reload)
    else w.(reload := o.reload, inFlight := w.inFlight + {o.started.value.id},
            log := w.log + [Started(o.started.value)])
  }

  function Step(w: World, e: Event): World
    requires Enabled(w, e)
  {
    match e
    case Requested(intent, scope) =>
      var o := Ask(w.reload, w.env, intent, scope);
      Adopt(if o.accepted then w.(log := w.log + [Accepted(w.env.epoch, intent, scope)]) else w, o)
    case Woken => Adopt(w, Wake(w.reload, w.env))
    case CancelCalled => w.(reload := Cancel(w.reload), log := w.log + [Cancelled])
    case RunningRead => w.(reload := Synchronize(w.reload, w.env))
    case RunSettles(id) =>
      var ended := w.(inFlight := w.inFlight - {id});
      Adopt(if Owns(w.reload, id) then ended.(log := w.log + [Finished(id)]) else ended,
            Settle(w.reload, w.env, id))
    case EnvChanges(env) => w.(env := env, retired := w.retired + RetiredBy(w, env))
  }

  ghost predicate Legal(w: World, events: seq<Event>)
    decreases |events|
  {
    events == [] || (Enabled(w, events[0]) && Legal(Step(w, events[0]), events[1..]))
  }

  ghost function Run(w: World, events: seq<Event>): World
    requires Legal(w, events)
    decreases |events|
  {
    if events == [] then w else Run(Step(w, events[0]), events[1..])
  }

  // ---------------------------------------------------------------------------------------------
  // Obligations

  /** Entry `i` took on an obligation that nothing has cancelled. */
  ghost predicate Obligation(w: World, i: nat) {
    && i < |w.log| && w.log[i].Accepted?
    && (forall j :: i < j < |w.log| ==> !w.log[j].Cancelled?)
  }

  predicate StillCurrent(env: Env, o: Entry)
    requires o.Accepted?
  {
    o.epoch == env.epoch && ScopeCurrent(env, o.scope)
  }

  /** The request asks for at least what the obligation asks for, under a scope that outlives it. */
  predicate Covers(request: Request, o: Entry)
    requires o.Accepted?
  {
    && request.epoch == o.epoch
    && AtMost(o.intent, request.intent)
    && (request.scope.None? || request.scope == o.scope)
  }

  /** A run begun after `i`, covering it, that ended while it still owned the slot. */
  ghost predicate Done(w: World, i: nat)
    requires i < |w.log| && w.log[i].Accepted?
  {
    exists j :: i < j < |w.log| && w.log[j].Started? && Covers(w.log[j].run, w.log[i])
                && Finished(w.log[j].run.id) in w.log
  }

  /** The run that owns the slot now began after `i` and covers it. */
  ghost predicate Underway(w: World, i: nat)
    requires i < |w.log| && w.log[i].Accepted?
  {
    exists j :: i < j < |w.log| && w.log[j].Started? && Covers(w.log[j].run, w.log[i])
                && w.reload.active == Some(w.log[j].run)
  }

  ghost predicate Waiting(w: World, i: nat)
    requires i < |w.log| && w.log[i].Accepted?
  {
    w.reload.pending.Some? && Covers(w.reload.pending.value, w.log[i])
  }

  /** An unscoped obligation of epoch `epoch` that no run has served or is serving. */
  ghost predicate OutstandingUnscoped(w: World, epoch: nat, i: nat) {
    Obligation(w, i) && w.log[i].scope.None? && w.log[i].epoch == epoch && !Done(w, i) && !Underway(w, i)
  }

  // ---------------------------------------------------------------------------------------------
  // The invariant

  ghost predicate RunStarted(w: World, id: nat) {
    exists j :: 0 <= j < |w.log| && w.log[j].Started? && w.log[j].run.id == id
  }

  ghost predicate Identities(w: World) {
    var r := w.reload;
    && (forall j :: 0 <= j < |w.log| && w.log[j].Started? ==> w.log[j].run.id < r.nextId)
    && (forall i, j :: 0 <= i < j < |w.log| && w.log[i].Started? && w.log[j].Started? ==> w.log[i].run.id != w.log[j].run.id)
    && (forall j :: 0 <= j < |w.log| && w.log[j].Finished? ==> w.log[j].id < r.nextId && w.log[j].id !in w.inFlight)
    && (r.pending.Some? ==> r.pending.value.id < r.nextId && !RunStarted(w, r.pending.value.id)
                            && Finished(r.pending.value.id) !in w.log)
    && (r.active.Some? ==> Started(r.active.value) in w.log && r.active.value.id in w.inFlight)
    && (r.active.Some? ==>
          (forall j :: 0 <= j < |w.log| && w.log[j].Started? && w.log[j].run.id == r.active.value.id ==>
             w.log[j].run == r.active.value))
    && (forall id :: id in w.inFlight ==> id < r.nextId)
  }

  predicate ScopeKnown(w: World, scope: Option<Scope>) {
    scope.None? || scope == w.env.live || scope.value in w.retired
  }

  ghost predicate Stamps(w: World) {
    var r := w.reload;
    && (w.env.live.Some? ==> w.env.live.value !in w.retired)
    && (forall j :: 0 <= j < |w.log| && w.log[j].Accepted? ==>
          w.log[j].epoch <= w.env.epoch && ScopeKnown(w, w.log[j].scope))
    && (r.pending.Some? ==> r.pending.value.epoch <= w.env.epoch && ScopeKnown(w, r.pending.value.scope))
    && (r.active.Some? ==> r.active.value.epoch <= w.env.epoch && ScopeKnown(w, r.active.value.scope))
  }

  ghost predicate Kept(w: World) {
    forall i: nat :: Obligation(w, i) && StillCurrent(w.env, w.log[i]) ==>
      Waiting(w, i) || Underway(w, i) || Done(w, i)
  }

  /** An unscoped request always answers for some unscoped obligation: none is made up from scoped ones. */
  ghost predicate Grounded(w: World) {
    var r := w.reload;
    && (r.pending.Some? && r.pending.value.scope.None? ==>
          exists i: nat :: OutstandingUnscoped(w, r.pending.value.epoch, i))
    && (r.active.Some? && r.active.value.scope.None? ==>
          exists i: nat :: Obligation(w, i) && w.log[i].scope.None? && w.log[i].epoch == r.active.value.epoch && !Done(w, i))
  }

  /** The request asks for no more than one uncancelled obligation of its epoch asked for. */
  ghost predicate AskedFor(w: World, request: Request) {
    exists i: nat :: Obligation(w, i) && w.log[i].epoch == request.epoch && w.log[i].intent == request.intent
  }

  ghost predicate Measured(w: World) {
    && (w.reload.pending.Some? ==> AskedFor(w, w.reload.pending.value))
    && (w.reload.active.Some? ==> AskedFor(w, w.reload.active.value))
  }

  ghost predicate Inv(w: World) {
    Identities(w) && Stamps(w) && Kept(w) && Grounded(w) && Measured(w)
  }

  /** An obligation stands as long as the log grows by anything but a cancellation. */
  lemma ObligationStands(w: World, v: World, i: nat)
    requires Obligation(w, i) && w.log <= v.log
    requires forall j :: |w.log| <= j < |v.log| ==> !v.log[j].Cancelled?
    ensures Obligation(v, i) && v.log[i] == w.log[i]
  {}

  lemma AskedForStands(w: World, v: World, request: Request, next: Request)
    requires AskedFor(w, request) && w.log <= v.log
    requires forall j :: |w.log| <= j < |v.log| ==> !v.log[j].Cancelled?
    requires next.epoch == request.epoch && next.intent == request.intent
    ensures AskedFor(v, next)
  {
    var i: nat :| Obligation(w, i) && w.log[i].epoch == request.epoch && w.log[i].intent == request.intent;
    ObligationStands(w, v, i);
  }

  /** Moves that only hand requests from slot to slot, or drop them. */
  lemma MeasuredAlong(w: World, v: World)
    requires Measured(w) && w.log <= v.log
    requires forall j :: |w.log| <= j < |v.log| ==> !v.log[j].Cancelled?
    requires forall r: Request :: v.reload.pending == Some(r) || v.reload.active == Some(r) ==>
      w.reload.pending == Some(r) || w.reload.active == Some(r)
    ensures Measured(v)
  {
    if v.reload.pending.Some? { AskedForStands(w, v, v.reload.pending.value, v.reload.pending.value); }
    if v.reload.active.Some? { AskedForStands(w, v, v.reload.active.value, v.reload.active.value); }
  }

  lemma TookMeasured(w: World, intent: Intent, scope: Option<Scope>)
    requires Measured(w)
    requires w.reload.pending.Some? ==> w.reload.pending.value.epoch == w.env.epoch
    requires w.reload.active.Some? ==> w.reload.active.value.epoch == w.env.epoch
    ensures Measured(Took(w, intent, scope))
  {
    var v := Took(w, intent, scope);
    var next := v.reload.pending.value;
    assert v.log[|w.log|] == Accepted(w.env.epoch, intent, scope);
    assert Obligation(v, |w.log|);
    if next.intent != intent {
      var from := if w.reload.pending.Some? && w.reload.pending.value.intent == next.intent
                  then w.reload.pending.value else w.reload.active.value;
      AskedForStands(w, v, from, next);
    }
    if v.reload.active.Some? { AskedForStands(w, v, w.reload.active.value, w.reload.active.value); }
  }

  lemma PreemptedMeasured(w: World)
    requires Measured(w) && w.reload.active.Some? && w.reload.active.value.epoch == w.env.epoch
    requires w.reload.pending.Some? ==> w.reload.pending.value.epoch == w.env.epoch
    ensures Measured(Preempted(w))
  {
    var v := Preempted(w);
    var next := v.reload.pending.value;
    AskedForStands(w, v, if w.reload.active.value.intent == next.intent then w.reload.active.value else w.reload.pending.value, next);
  }

  // ---------------------------------------------------------------------------------------------
  // Each step is a chain of moves, and each move keeps the invariant

  function Synced(w: World): World {
    w.(reload := Synchronize(w.reload, w.env))
  }

  function Took(w: World, intent: Intent, scope: Option<Scope>): World {
    var wanted := if w.reload.active.Some? then Combine(w.reload.active.value.intent, intent) else intent;
    w.(reload := Enqueue(w.reload, w.env.epoch, wanted, scope),
       log := w.log + [Accepted(w.env.epoch, intent, scope)])
  }

  function Began(w: World): World
    requires w.reload.pending.Some?
  {
    Adopt(w, Outcome(Start(w.reload), false, w.reload.pending))
  }

  function Preempted(w: World): World
    requires w.reload.active.Some?
  {
    var a := w.reload.active.value;
    w.(reload := Enqueue(w.reload, a.epoch, a.intent, a.scope).(active := None))
  }

  function Ended(w: World, id: nat): World {
    w.(reload := w.reload.(active := None), inFlight := w.inFlight - {id}, log := w.log + [Finished(id)])
  }

  lemma SyncedKeeps(w: World)
    requires Inv(w)
    ensures Inv(Synced(w))
  {
    hide Measured;
    var v := Synced(w);
    assert v.log == w.log;
    forall i: nat | Obligation(v, i) && StillCurrent(v.env, v.log[i])
      ensures Waiting(v, i) || Underway(v, i) || Done(v, i)
    {
      assert Obligation(w, i);
    }
    GroundedAlong(w, v);
    MeasuredAlong(w, v);
  }

  /** A move that leaves the log alone and only empties slots keeps every request grounded. */
  lemma GroundedAlong(w: World, v: World)
    requires Grounded(w) && v.log == w.log
    requires v.reload.pending == w.reload.pending || v.reload.pending.None?
    requires v.reload.active == w.reload.active || v.reload.active.None?
    ensures Grounded(v)
  {
    if v.reload.pending.Some? && v.reload.pending.value.scope.None? {
      var i: nat :| OutstandingUnscoped(w, w.reload.pending.value.epoch, i);
      assert OutstandingUnscoped(v, v.reload.pending.value.epoch, i);
    }
    if v.reload.active.Some? && v.reload.active.value.scope.None? {
      var i: nat :| Obligation(w, i) && w.log[i].scope.None? && w.log[i].epoch == w.reload.active.value.epoch && !Done(w, i);
      assert Obligation(v, i) && !Done(v, i);
    }
  }

  /** Taking on one more obligation changes the standing of no earlier one. */
  lemma LaterAcceptance(w: World, v: World, i: nat)
    requires i < |w.log| && w.log[i].Accepted?
    requires v.reload.active == w.reload.active
    requires exists o: Entry :: o.Accepted? && v.log == w.log + [o]
    ensures v.log[i] == w.log[i]
    ensures Obligation(v, i) <==> Obligation(w, i)
    ensures Done(v, i) <==> Done(w, i)
    ensures Underway(v, i) <==> Underway(w, i)
  {
    var o: Entry :| o.Accepted? && v.log == w.log + [o];
    assert v.log[|w.log|] == o;
    assert forall j :: 0 <= j < |w.log| ==> v.log[j] == w.log[j];
    forall id ensures Finished(id) in v.log <==> Finished(id) in w.log {}
  }

  lemma TookKeepsObligations(w: World, intent: Intent, scope: Option<Scope>)
    requires Kept(w) && ScopeCurrent(w.env, scope)
    requires w.reload.pending.Some? ==> Current(w.env, w.reload.pending.value)
    ensures Kept(Took(w, intent, scope))
  {
    var v := Took(w, intent, scope);
    var o := Accepted(w.env.epoch, intent, scope);
    assert v.log == w.log + [o];
    forall i: nat | Obligation(v, i) && StillCurrent(v.env, v.log[i])
      ensures Waiting(v, i) || Underway(v, i) || Done(v, i)
    {
      if i < |w.log| {
        LaterAcceptance(w, v, i);
      } else {
        assert v.log[i] == o;
        assert Waiting(v, i);
      }
    }
  }

  lemma TookKeepsGround(w: World, intent: Intent, scope: Option<Scope>)
    requires Grounded(w) && ScopeCurrent(w.env, scope)
    requires w.reload.pending.Some? ==> Current(w.env, w.reload.pending.value)
    ensures Grounded(Took(w, intent, scope))
  {
    var v := Took(w, intent, scope);
    var n := |w.log|;
    assert v.log == w.log + [Accepted(w.env.epoch, intent, scope)];
    if v.reload.pending.value.scope.None? {
      if scope.None? {
        assert v.log[n].Accepted?;
        assert OutstandingUnscoped(v, v.env.epoch, n);
      } else {
        var i: nat :| OutstandingUnscoped(w, w.reload.pending.value.epoch, i);
        LaterAcceptance(w, v, i);
        assert OutstandingUnscoped(v, v.env.epoch, i);
      }
    }
    if v.reload.active.Some? && v.reload.active.value.scope.None? {
      var i: nat :| Obligation(w, i) && w.log[i].scope.None? && w.log[i].epoch == w.reload.active.value.epoch && !Done(w, i);
      LaterAcceptance(w, v, i);
    }
  }

  lemma TookKeeps(w: World, intent: Intent, scope: Option<Scope>)
    requires Inv(w) && ScopeCurrent(w.env, scope)
    requires w.reload.pending.Some? ==> Current(w.env, w.reload.pending.value)
    requires w.reload.active.Some? ==> Current(w.env, w.reload.active.value)
    ensures Inv(Took(w, intent, scope))
  {
    hide Measured, Grounded, Kept;
    var v := Took(w, intent, scope);
    assert forall j :: 0 <= j < |w.log| ==> v.log[j] == w.log[j];
    TookKeepsObligations(w, intent, scope);
    TookKeepsGround(w, intent, scope);
    TookMeasured(w, intent, scope);
  }

  lemma BeganObligations(w: World)
    requires Kept(w) && w.reload.pending.Some? && w.reload.active.None?
    ensures Kept(Began(w))
  {
    var v := Began(w);
    assert forall j :: 0 <= j < |w.log| ==> v.log[j] == w.log[j];
    assert v.log[|w.log|] == Started(w.reload.pending.value);
    forall i: nat | Obligation(v, i) && StillCurrent(v.env, v.log[i])
      ensures Underway(v, i) || Done(v, i)
    {
      assert Obligation(w, i);
    }
  }

  lemma BeganGround(w: World)
    requires Identities(w) && Grounded(w) && w.reload.pending.Some? && w.reload.active.None?
    ensures Grounded(Began(w))
  {
    var v := Began(w);
    assert forall j :: 0 <= j < |w.log| ==> v.log[j] == w.log[j];
    assert v.log[|w.log|] == Started(w.reload.pending.value);
    if v.reload.active.value.scope.None? {
      var i: nat :| OutstandingUnscoped(w, w.reload.pending.value.epoch, i);
      assert Obligation(v, i) && !Done(v, i);
    }
  }

  lemma BeganKeeps(w: World)
    requires Inv(w) && w.reload.pending.Some? && w.reload.active.None?
    ensures Inv(Began(w))
  {
    hide Measured, Grounded, Kept;
    var v := Began(w);
    assert forall j :: 0 <= j < |w.log| ==> v.log[j] == w.log[j];
    assert v.log[|w.log|] == Started(w.reload.pending.value);
    BeganObligations(w);
    BeganGround(w);
    MeasuredAlong(w, v);
  }

  lemma PreemptedObligations(w: World)
    requires Identities(w) && Kept(w) && w.reload.active.Some? && Current(w.env, w.reload.active.value)
    requires w.reload.pending.Some? ==> Current(w.env, w.reload.pending.value)
    ensures Kept(Preempted(w))
  {
    var v := Preempted(w);
    forall i: nat | Obligation(v, i) && StillCurrent(v.env, v.log[i])
      ensures Waiting(v, i) || Done(v, i)
    {
      assert Obligation(w, i);
    }
  }

  lemma PreemptedGround(w: World)
    requires Grounded(w) && w.reload.active.Some? && Current(w.env, w.reload.active.value)
    requires w.reload.pending.Some? ==> Current(w.env, w.reload.pending.value)
    ensures Grounded(Preempted(w))
  {
    var v := Preempted(w);
    if v.reload.pending.value.scope.None? {
      if w.reload.active.value.scope.None? {
        var i: nat :| Obligation(w, i) && w.log[i].scope.None? && w.log[i].epoch == w.reload.active.value.epoch && !Done(w, i);
        assert OutstandingUnscoped(v, v.env.epoch, i);
      } else {
        var i: nat :| OutstandingUnscoped(w, w.reload.pending.value.epoch, i);
        assert OutstandingUnscoped(v, v.env.epoch, i);
      }
    }
  }

  lemma PreemptedKeeps(w: World)
    requires Inv(w) && w.reload.active.Some? && Current(w.env, w.reload.active.value)
    requires w.reload.pending.Some? ==> Current(w.env, w.reload.pending.value)
    ensures Inv(Preempted(w))
  {
    hide Measured, Grounded, Kept;
    PreemptedMeasured(w);
    PreemptedObligations(w);
    PreemptedGround(w);
  }

  lemma EndedObligations(w: World, id: nat)
    requires Identities(w) && Kept(w) && Owns(w.reload, id)
    ensures Kept(Ended(w, id))
  {
    var v := Ended(w, id);
    assert forall j :: 0 <= j < |w.log| ==> v.log[j] == w.log[j];
    assert v.log[|w.log|] == Finished(id);
    forall i: nat | Obligation(v, i) && StillCurrent(v.env, v.log[i])
      ensures Waiting(v, i) || Done(v, i)
    {
      assert Obligation(w, i);
    }
  }

  lemma EndedGround(w: World, id: nat)
    requires Identities(w) && Grounded(w) && Owns(w.reload, id)
    ensures Grounded(Ended(w, id))
  {
    var v := Ended(w, id);
    assert forall j :: 0 <= j < |w.log| ==> v.log[j] == w.log[j];
    assert v.log[|w.log|] == Finished(id);
    if v.reload.pending.Some? && v.reload.pending.value.scope.None? {
      var i: nat :| OutstandingUnscoped(w, w.reload.pending.value.epoch, i);
      assert OutstandingUnscoped(v, v.reload.pending.value.epoch, i);
    }
  }

  lemma EndedKeeps(w: World, id: nat)
    requires Inv(w) && Owns(w.reload, id)
    ensures Inv(Ended(w, id))
  {
    hide Measured, Grounded, Kept;
    var v := Ended(w, id);
    assert forall j :: 0 <= j < |w.log| ==> v.log[j] == w.log[j];
    EndedObligations(w, id);
    EndedGround(w, id);
    MeasuredAlong(w, v);
  }

  lemma EnvChangeKeeps(w: World, env: Env)
    requires Inv(w) && Enabled(w, EnvChanges(env))
    ensures Inv(Step(w, EnvChanges(env)))
  {
    hide Measured;
    var v := Step(w, EnvChanges(env));
    forall i: nat | Obligation(v, i) && StillCurrent(v.env, v.log[i])
      ensures Waiting(v, i) || Underway(v, i) || Done(v, i)
    {
      assert Obligation(w, i);
    }
    GroundedAlong(w, v);
    MeasuredAlong(w, v);
  }

  lemma CancelKeeps(w: World)
    requires Inv(w)
    ensures Inv(Step(w, CancelCalled))
  {
    var v := Step(w, CancelCalled);
    assert v.log[|w.log|] == Cancelled;
    assert forall j :: 0 <= j < |w.log| ==> v.log[j] == w.log[j];
  }

  lemma LateEndKeeps(w: World, id: nat)
    requires Inv(w) && id in w.inFlight && !Owns(w.reload, id)
    ensures Inv(w.(inFlight := w.inFlight - {id}))
  {
    hide Measured;
    var v := w.(inFlight := w.inFlight - {id});
    forall i: nat | Obligation(v, i) && StillCurrent(v.env, v.log[i])
      ensures Waiting(v, i) || Underway(v, i) || Done(v, i)
    {
      assert Obligation(w, i);
    }
    GroundedAlong(w, v);
    MeasuredAlong(w, v);
  }

  lemma WakeKeeps(w: World)
    requires Inv(w)
    ensures Inv(Adopt(w, Wake(w.reload, w.env)))
  {
    var s := Synced(w);
    SyncedKeeps(w);
    if w.env.blocked && s.reload.active.Some? {
      PreemptedKeeps(s);
    } else if !w.env.blocked && s.reload.pending.Some? && s.reload.active.None? {
      BeganKeeps(s);
    }
  }

  lemma StepKeeps(w: World, e: Event)
    requires Inv(w) && Enabled(w, e)
    ensures Inv(Step(w, e))
  {
    match e {
      case Requested(intent, scope) =>
        SyncedKeeps(w);
        if ScopeCurrent(w.env, scope) {
          var t := Took(Synced(w), intent, scope);
          TookKeeps(Synced(w), intent, scope);
          if !w.env.blocked && t.reload.active.None? { BeganKeeps(t); }
        }
      case Woken => WakeKeeps(w);
      case CancelCalled => CancelKeeps(w);
      case RunningRead => SyncedKeeps(w);
      case RunSettles(id) =>
        if Owns(w.reload, id) {
          EndedKeeps(w, id);
          WakeKeeps(Ended(w, id));
        } else {
          LateEndKeeps(w, id);
        }
      case EnvChanges(env) => EnvChangeKeeps(w, env);
    }
  }

  lemma {:induction false} RunKeeps(w: World, events: seq<Event>)
    requires Inv(w) && Legal(w, events)
    ensures Inv(Run(w, events))
    decreases |events|
  {
    if events != [] {
      StepKeeps(w, events[0]);
      RunKeeps(Step(w, events[0]), events[1..]);
    }
  }

  // ---------------------------------------------------------------------------------------------
  // The theorems

  /** No obligation is lost: in every reachable state, each obligation that is still current and not
      cancelled waits in the pending slot, is being served by the owner, or was served to the end by
      a run that began after it; the request that does so asks for at least as much.  Nor is any
      widened: each slot asks for just what some uncancelled obligation of its epoch asked for, and a
      pending request of the current epoch is unscoped exactly when some unscoped obligation is
      outstanding. */
  lemma NoObligationLost(env: Env, events: seq<Event>)
    requires Legal(Initial(env), events)
    ensures
      var w := Run(Initial(env), events);
      && (forall i: nat :: Obligation(w, i) && StillCurrent(w.env, w.log[i]) ==>
            Waiting(w, i) || Underway(w, i) || Done(w, i))
      && (w.reload.pending.Some? ==> AskedFor(w, w.reload.pending.value))
      && (w.reload.active.Some? ==> AskedFor(w, w.reload.active.value))
      && (w.reload.pending.Some? && w.reload.pending.value.epoch == w.env.epoch ==>
            (w.reload.pending.value.scope.None? <==> exists i: nat :: OutstandingUnscoped(w, w.env.epoch, i)))
  {
    RunKeeps(Initial(env), events);
  }

  /** A run sees `current()` true when it owns the slot and its request is current. */
  predicate SeesCurrent(w: World, id: nat) {
    Owns(w.reload, id) && Current(w.env, w.reload.active.value)
  }

  lemma NotRegainedByStep(w: World, e: Event, id: nat)
    requires Inv(w) && Enabled(w, e) && RunStarted(w, id) && !SeesCurrent(w, id)
    ensures RunStarted(Step(w, e), id) && !SeesCurrent(Step(w, e), id)
  {
    hide Measured, Grounded, Kept;
    var v := Step(w, e);
    var j :| 0 <= j < |w.log| && w.log[j].Started? && w.log[j].run.id == id;
    assert v.log[j] == w.log[j];
  }

  /** A run that has lost `current()` once never sees it true again, whatever follows. */
  lemma {:induction false} OwnershipNeverRegained(env: Env, events: seq<Event>, more: seq<Event>, id: nat)
    requires Legal(Initial(env), events) && Legal(Run(Initial(env), events), more)
    requires RunStarted(Run(Initial(env), events), id) && !SeesCurrent(Run(Initial(env), events), id)
    ensures !SeesCurrent(Run(Run(Initial(env), events), more), id)
  {
    RunKeeps(Initial(env), events);
    LostStaysLost(Run(Initial(env), events), more, id);
  }

  lemma {:induction false} LostStaysLost(w: World, events: seq<Event>, id: nat)
    requires Inv(w) && Legal(w, events) && RunStarted(w, id) && !SeesCurrent(w, id)
    ensures !SeesCurrent(Run(w, events), id)
    decreases |events|
  {
    if events != [] {
      StepKeeps(w, events[0]);
      NotRegainedByStep(w, events[0], id);
      LostStaysLost(Step(w, events[0]), events[1..], id);
    }
  }

  /** A step after which the owner must not sit idle on a pending request. */
  predicate Prompts(w: World, e: Event) {
    match e
    case Requested(_, scope) => ScopeCurrent(w.env, scope)
    case Woken => true
    case RunSettles(id) => Owns(w.reload, id)
    case _ => false
  }

  /** From any state, reachable or not: no run begins blocked or stale, and after an accepted request, a
      wake, or the owner's own end, a pending request means a blocker or a current owner. */
  lemma StartsFreshAndStaysBusy(w: World, e: Event)
    requires Enabled(w, e)
    ensures
      var v := Step(w, e);
      && (forall j :: |w.log| <= j < |v.log| && v.log[j].Started? ==>
            !v.env.blocked && Current(v.env, v.log[j].run) && v.reload.active == Some(v.log[j].run))
      && (Prompts(w, e) && v.reload.pending.Some? ==>
            v.env.blocked || (v.reload.active.Some? && Current(v.env, v.reload.active.value)))
  {}

  /** Of any two runs ever begun, at most one sees `current()` true: each run has an identity of its own. */
  lemma OneRunSeesCurrent(env: Env, events: seq<Event>, i: nat, j: nat)
    requires Legal(Initial(env), events)
    requires i < j < |Run(Initial(env), events).log|
    requires Run(Initial(env), events).log[i].Started? && Run(Initial(env), events).log[j].Started?
    ensures
      var w := Run(Initial(env), events);
      && w.log[i].run.id != w.log[j].run.id
      && !(SeesCurrent(w, w.log[i].run.id) && SeesCurrent(w, w.log[j].run.id))
  {
    RunKeeps(Initial(env), events);
  }

  // ---------------------------------------------------------------------------------------------
  // What a request leads to

  /** A request is taken on exactly when its scope is current.  What then waits, or has just begun, asks for all
      it asks for; and when a current run owns the slot, for all that run asks for too, so that the refresh
      after an interruption restores what was loaded. */
  lemma RequestsAreTakenOn(w: World, intent: Intent, scope: Option<Scope>)
    ensures
      var v := Step(w, Requested(intent, scope));
      var running := w.reload.active.Some? && Current(w.env, w.reload.active.value);
      if !ScopeCurrent(w.env, scope) then v.log == w.log && v.inFlight == w.inFlight && v.reload == Synchronize(w.reload, w.env)
      else
        && w.log + [Accepted(w.env.epoch, intent, scope)] <= v.log
        && (if w.env.blocked || running
            then
              && v.reload.pending.Some? && AtMost(intent, v.reload.pending.value.intent)
              && (running ==> v.reload.active == w.reload.active && AtMost(w.reload.active.value.intent, v.reload.pending.value.intent))
            else
              && v.reload.pending.None? && v.reload.active.Some? && AtMost(intent, v.reload.active.value.intent)
              && v.log == w.log + [Accepted(w.env.epoch, intent, scope)] + [Started(v.reload.active.value)])
  {}

  /** Whatever waits behind a run asks for all that the run asks for. */
  predicate Restores(r: Reload) {
    r.pending.Some? && r.active.Some? ==> AtMost(r.active.value.intent, r.pending.value.intent)
  }

  lemma StepRestores(w: World, e: Event)
    requires Restores(w.reload) && Enabled(w, e)
    ensures Restores(Step(w, e).reload)
  {}

  lemma {:induction false} RunRestores(w: World, events: seq<Event>)
    requires Restores(w.reload) && Legal(w, events)
    ensures Restores(Run(w, events).reload)
    decreases |events|
  {
    hide Restores, Step;
    if events != [] {
      StepRestores(w, events[0]);
      RunRestores(Step(w, events[0]), events[1..]);
    }
  }

  /** In every reachable state the pending request asks for all that the running refresh asks for, and so for
      all that any obligation the run serves asked for. */
  lemma PendingRestoresTheRunning(env: Env, events: seq<Event>)
    requires Legal(Initial(env), events)
    ensures
      var w := Run(Initial(env), events);
      w.reload.pending.Some? ==>
        && (w.reload.active.Some? ==> AtMost(w.reload.active.value.intent, w.reload.pending.value.intent))
        && (forall i: nat :: Obligation(w, i) && Underway(w, i) ==> AtMost(w.log[i].intent, w.reload.pending.value.intent))
  {
    RunRestores(Initial(env), events);
  }
}
