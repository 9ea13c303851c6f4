/** The mailbox effect scope of the desktop client: account mutations may overlap, succeed, fail, or
    report no revision, while account loads and scheduled events raise the engine revision.  The
    point of it all: a scope that has stopped being current never becomes current again. */
module MailboxScopes {
  import opened Basics
  import InboxReloads

  /** The five module variables.  A revision the engine did not report, or reported as anything but a
      safe natural number, is `None` wherever one is received. */
  datatype Mailbox = Mailbox(revision: nat, ready: bool, inFlight: bool, mutations: nat, epoch: nat)

  const INITIAL := Mailbox(0, false, false, 0, 0)

  predicate Valid(m: Mailbox) {
    m.inFlight <==> m.mutations > 0
  }

  function Observe(m: Mailbox, revision: Option<nat>): Mailbox {
    if revision.None? then m
    else m.(revision := if m.revision < revision.value then revision.value else m.revision, ready := true)
  }

  function Begin(m: Mailbox): Mailbox {
    m.(epoch := if m.mutations == 0 then m.epoch + 1 else m.epoch,
       mutations := m.mutations + 1, inFlight := true)
  }

  /** A mutation settles, with the revision of its result or of its error. */
  function End(m: Mailbox, revision: Option<nat>): Mailbox
    requires m.mutations > 0
  {
    var seen := if revision.None? then m.(ready := false) else Observe(m, revision);
    seen.(mutations := m.mutations - 1, inFlight := m.mutations > 1)
  }

  /** Whether a scheduled check's event is current; a current one sets the revision. */
  predicate Admits(m: Mailbox, revision: Option<nat>) {
    !m.inFlight && m.ready && revision.Some? && m.revision <= revision.value
  }

  function Scheduled(m: Mailbox, revision: Option<nat>): Mailbox {
    if Admits(m, revision) then m.(revision := revision.value) else m
  }

  /** The scope an effect decided now would carry. */
  function CurrentScope(m: Mailbox): Option<Scope> {
    if m.inFlight || !m.ready then None else Some(Scope(m.epoch, m.revision))
  }

  predicate ScopeIsCurrent(m: Mailbox, scope: Option<Scope>) {
    scope.None?
    || (!m.inFlight && m.ready && scope.value.mutationEpoch == m.epoch && scope.value.revision == m.revision)
  }

  // ---------------------------------------------------------------------------------------------
  // Whole runs

  datatype Event =
    | MutationBegins
    | MutationEnds(revision: Option<nat>)
    | AccountsLoaded(revision: Option<nat>)
    | EventScheduled(revision: Option<nat>)

  predicate Enabled(m: Mailbox, e: Event) {
    e.MutationEnds? ==> m.mutations > 0
  }

  function Step(m: Mailbox, e: Event): (r: Mailbox)
    requires Enabled(m, e)
    ensures Valid(m) ==> Valid(r)
  {
    match e
    case MutationBegins => Begin(m)
    case MutationEnds(revision) => End(m, revision)
    case AccountsLoaded(revision) => Observe(m, revision)
    case EventScheduled(revision) => Scheduled(m, revision)
  }

  ghost predicate Legal(m: Mailbox, events: seq<Event>)
    decreases |events|
  {
    events == [] || (Enabled(m, events[0]) && Legal(Step(m, events[0]), events[1..]))
  }

  ghost function Run(m: Mailbox, events: seq<Event>): (r: Mailbox)
    requires Legal(m, events)
    ensures Valid(m) ==> Valid(r)
    decreases |events|
  {
    if events == [] then m else Run(Step(m, events[0]), events[1..])
  }

  /** A scope the mailbox has moved past for good: both counters only rise. */
  predicate Past(m: Mailbox, s: Scope) {
    s.mutationEpoch < m.epoch || s.revision < m.revision
  }

  lemma PastStaysPast(m: Mailbox, e: Event, s: Scope)
    requires Enabled(m, e) && Past(m, s)
    ensures Past(Step(m, e), s) && CurrentScope(Step(m, e)) != Some(s)
  {
  }

  /** One step either leaves the live scope live or puts it in the past. */
  lemma LiveOrPast(m: Mailbox, e: Event, s: Scope)
    requires Valid(m) && Enabled(m, e) && CurrentScope(m) == Some(s)
    ensures CurrentScope(Step(m, e)) == Some(s) || Past(Step(m, e), s)
  {
  }

  lemma {:induction false} RunFromLive(m: Mailbox, events: seq<Event>, s: Scope)
    requires Valid(m) && Legal(m, events)
    requires CurrentScope(m) == Some(s) || Past(m, s)
    ensures CurrentScope(Run(m, events)) == Some(s) || Past(Run(m, events), s)
    ensures Past(m, s) ==> Past(Run(m, events), s)
    decreases |events|
  {
    if events != [] {
      if Past(m, s) { PastStaysPast(m, events[0], s); } else { LiveOrPast(m, events[0], s); }
      RunFromLive(Step(m, events[0]), events[1..], s);
    }
  }

  /** Staleness is permanent: a scope current at one moment and not at a later one is current at no
      moment after that, over every sequence of overlapping mutations, loads and scheduled events. */
  lemma StaleScopeNeverReturns(before: seq<Event>, between: seq<Event>, after: seq<Event>, s: Scope)
    requires Legal(INITIAL, before)
    requires Legal(Run(INITIAL, before), between)
    requires Legal(Run(Run(INITIAL, before), between), after)
    requires ScopeIsCurrent(Run(INITIAL, before), Some(s))
    requires !ScopeIsCurrent(Run(Run(INITIAL, before), between), Some(s))
    ensures !ScopeIsCurrent(Run(Run(Run(INITIAL, before), between), after), Some(s))
  {
    RunFromLive(Run(INITIAL, before), between, s);
    RunFromLive(Run(Run(INITIAL, before), between), after, s);
  }

  /** A scope is current exactly when it is the one an effect decided now would carry, so at most one is. */
  lemma OneLiveScope(m: Mailbox, s: Scope)
    ensures ScopeIsCurrent(m, Some(s)) <==> CurrentScope(m) == Some(s)
  {
  }

  // ---------------------------------------------------------------------------------------------
  // The mailbox as its history tells it

  /** Mutations begun and not yet ended. */
  ghost function Outstanding(events: seq<Event>): int {
    if events == [] then 0
    else
      var e := events[|events| - 1];
      Outstanding(events[..|events| - 1]) + (if e.MutationBegins? then 1 else if e.MutationEnds? then -1 else 0)
  }

  /** Stretches of overlapping mutations so far. */
  ghost function Stretches(events: seq<Event>): nat {
    if events == [] then 0
    else
      var before := events[..|events| - 1];
      Stretches(before) + (if events[|events| - 1].MutationBegins? && Outstanding(before) == 0 then 1 else 0)
  }

  /** Whether the revision is known: the last mutation to end reported one, or accounts were loaded with one since. */
  ghost predicate Informed(events: seq<Event>) {
    events != []
    && var e := events[|events| - 1];
    if e.MutationEnds? then e.revision.Some?
    else (e.AccountsLoaded? && e.revision.Some?) || Informed(events[..|events| - 1])
  }

  /** The highest revision heard of; a scheduled event is heard only while no mutation is out and the revision is known. */
  ghost function Highest(events: seq<Event>): nat {
    if events == [] then 0
    else
      var before, e := events[..|events| - 1], events[|events| - 1];
      var heard := !e.MutationBegins? && e.revision.Some? && (e.EventScheduled? ==> Outstanding(before) == 0 && Informed(before));
      if heard && Highest(before) < e.revision.value then e.revision.value else Highest(before)
  }

  lemma {:induction false} RunSteps(m: Mailbox, events: seq<Event>, e: Event)
    requires Legal(m, events + [e])
    ensures Legal(m, events) && Enabled(Run(m, events), e) && Run(m, events + [e]) == Step(Run(m, events), e)
    decreases |events|
  {
    var all := events + [e];
    if events == [] {
      assert all[0] == e && all[1..] == [];
    } else {
      assert all[1..] == events[1..] + [e];
      RunSteps(Step(m, events[0]), events[1..], e);
    }
  }

  /** Over every sequence of events: a scope is current exactly when no mutation is out and the revision is known,
      and it is made of the number of mutation stretches and the highest revision heard of. */
  lemma {:induction false} ScopeTellsTheHistory(events: seq<Event>)
    requires Legal(INITIAL, events)
    ensures
      var m := Run(INITIAL, events);
      && m.mutations == Outstanding(events) && m.inFlight == (Outstanding(events) > 0)
      && m.epoch == Stretches(events) && m.revision == Highest(events) && m.ready == Informed(events)
      && CurrentScope(m) == (if Outstanding(events) == 0 && Informed(events)
                             then Some(Scope(Stretches(events), Highest(events))) else None)
    decreases |events|
  {
    if events != [] {
      var before, e := events[..|events| - 1], events[|events| - 1];
      assert events == before + [e];
      RunSteps(INITIAL, before, e);
      ScopeTellsTheHistory(before);
    }
  }

  /** What the refresh owner assumes of its environment is what the mailbox supplies: `w` has seen only
      live scopes of `m`, its retired scopes are past, and any mailbox step, with any blocker and any
      later epoch, is an environment change the owner's theorems allow. */
  lemma MailboxDrivesReload(w: InboxReloads.World, m: Mailbox, e: Event, epoch: nat, blocked: bool)
    requires Valid(m) && Enabled(m, e)
    requires w.env.live == CurrentScope(m) && w.env.epoch <= epoch
    requires forall s :: s in w.retired ==> Past(m, s)
    ensures
      var env := InboxReloads.Env(epoch, blocked, CurrentScope(Step(m, e)));
      && InboxReloads.Enabled(w, InboxReloads.EnvChanges(env))
      && (forall s :: s in InboxReloads.Step(w, InboxReloads.EnvChanges(env)).retired ==> Past(Step(m, e), s))
      && (forall scope :: InboxReloads.ScopeCurrent(env, scope) <==> ScopeIsCurrent(Step(m, e), scope))
  {
    var env := InboxReloads.Env(epoch, blocked, CurrentScope(Step(m, e)));
    forall s | s in w.retired ensures Past(Step(m, e), s) && CurrentScope(Step(m, e)) != Some(s) {
      PastStaysPast(m, e, s);
    }
    forall s | s in InboxReloads.RetiredBy(w, env) ensures Past(Step(m, e), s) {
      LiveOrPast(m, e, s);
    }
  }
}
