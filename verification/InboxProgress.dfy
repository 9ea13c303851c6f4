/** Progress of the Inbox as wired.  Reading `running` drops a stale owner without waking the pending request,
    so what keeps a request from being stranded is the screen: Load more is disabled while a load is out.
    This module adds that flag and shows that a current pending request always has a blocker or an owner. */
module InboxProgress {
  import opened Basics
  import opened InboxReloads
  import opened InboxPaging
  import M = MailboxScopes

  /** `busy` is whether the Inbox controls are disabled. */
  datatype Screen = Screen(inbox: Inbox, busy: bool)

  /** A current pending request means a blocker or an occupied owner slot. */
  predicate Attended(p: Inbox) {
    p.reload.pending.Some? && Current(EnvOf(p), p.reload.pending.value) ==> Blocked(p) || p.reload.active.Some?
  }

  /** Load more is pressed only while it is enabled, with no continuation of a run due, since a press is a task
      of its own; it carries no scope.  A scheduled check asks under the scope that is current. */
  predicate Possible(s: Screen, e: InboxPaging.Event) {
    && InboxPaging.Possible(s.inbox, e)
    && (e.MorePressed? ==> e.scope.None? && !s.busy && forall id :: id in s.inbox.runs ==> s.inbox.runs[id].phase.Paging?)
    && (e.FirstPageWanted? ==> M.ScopeIsCurrent(s.inbox.mail, e.scope))
  }

  /** Whether a page load begins between two states. */
  predicate LoadBegins(p: Inbox, q: Inbox) {
    exists g :: g in q.loads && g !in p.loads
  }

  function BusyAfter(s: Screen, e: InboxPaging.Event, q: Inbox): bool
    requires InboxPaging.Possible(s.inbox, e)
  {
    if LoadBegins(s.inbox, q) then true
    else
      match e
      case MailboxEvent(m) => if m.MutationBegins? && s.inbox.mail.mutations == 0 && !s.inbox.removing then false else s.busy
      case RemovalBegins => true
      case RemovalEnds(_) => false
      case PageFails(g) => if LoadCurrent(s.inbox, g) then false else s.busy
      case CapabilitiesSettle(g) => if LoadCurrent(s.inbox, g) then false else s.busy
      case _ => s.busy
  }

  function Next(s: Screen, e: InboxPaging.Event): Screen
    requires Possible(s, e)
  {
    var q := InboxPaging.Next(s.inbox, e);
    Screen(q, BusyAfter(s, e, q))
  }

  ghost predicate History(s: Screen, events: seq<InboxPaging.Event>)
    decreases |events|
  {
    events == [] || (Possible(s, events[0]) && History(Next(s, events[0]), events[1..]))
  }

  ghost function After(s: Screen, events: seq<InboxPaging.Event>): Screen
    requires History(s, events)
    decreases |events|
  {
    if events == [] then s else After(Next(s, events[0]), events[1..])
  }

  function Start(): Screen {
    Screen(InboxPaging.Initial(), false)
  }

  // ---------------------------------------------------------------------------------------------
  // The invariant

  /** Nothing owns the refresh while it is blocked, and the owner's page load is the newest load. */
  ghost predicate OwnerInPlace(p: Inbox) {
    && (Blocked(p) ==> p.reload.active.None?)
    && (p.reload.active.Some? ==>
          p.reload.active.value.id in p.runs
          && (p.runs[p.reload.active.value.id].phase.Paging? ==> p.runs[p.reload.active.value.id].phase == Paging(p.generation)))
  }

  predicate OwnerPages(p: Inbox) {
    p.reload.active.Some? && p.reload.active.value.id in p.runs && p.runs[p.reload.active.value.id].phase.Paging?
  }

  /** While the owner waits for its page the controls are disabled. */
  ghost predicate OwnerKeepsBusy(s: Screen) {
    OwnerPages(s.inbox) ==> s.busy
  }

  ghost predicate Sound(s: Screen) {
    InboxPaging.Inv(s.inbox) && OwnerInPlace(s.inbox) && OwnerKeepsBusy(s) && Attended(s.inbox)
  }

  /** What adopting a decision of the owner leaves. */
  lemma AdoptedStands(p: Inbox, o: Outcome)
    requires forall g :: g in p.loads ==> g <= p.generation
    requires o.started.Some? ==> !Blocked(p) && Current(EnvOf(p), o.started.value) && o.reload.active == o.started && o.reload.pending.None?
    ensures var q := Adopted(p, o);
      && q.reload == o.reload && EnvOf(q) == EnvOf(p) && Blocked(q) == Blocked(p)
      && (if o.started.Some?
          then LoadBegins(p, q) && q.generation in q.loads && o.started.value.id in q.runs
               && q.runs[o.started.value.id].phase == Paging(q.generation)
          else q == p.(reload := o.reload))
  {
    if o.started.Some? {
      var r := o.started.value;
      assert M.ScopeIsCurrent(p.mail, r.scope);
      var q := Adopted(p, o);
      assert q.generation == p.generation + 1 && q.generation in q.loads && q.generation !in p.loads;
    }
  }

  /** Before the owner is consulted: only a stale owner can be out of place. */
  ghost predicate Ready(p: Inbox) {
    && (forall g :: g in p.loads ==> g <= p.generation)
    && (!Blocked(p) && p.reload.active.Some? && Current(EnvOf(p), p.reload.active.value) ==> OwnerInPlace(p))
  }

  /** After it was consulted: all is in place, and whoever owns the refresh has just begun a load or is who it was. */
  ghost predicate Consulted(p: Inbox, q: Inbox) {
    && Attended(q) && OwnerInPlace(q)
    && (q.reload.active.Some? ==>
          LoadBegins(p, q) || (q.reload.active == p.reload.active && q.runs == p.runs && !Blocked(p)))
  }

  lemma AskStands(p: Inbox, intent: Intent, scope: Option<Scope>)
    requires Ready(p) && M.ScopeIsCurrent(p.mail, scope) && (Blocked(p) ==> p.reload.active.None?)
    ensures Consulted(p, Asked(p, intent, scope))
  {
    hide Adopted;
    AdoptedStands(p, Ask(p.reload, EnvOf(p), intent, scope));
  }

  lemma WakeStands(p: Inbox)
    requires Ready(p)
    ensures Consulted(p, Waked(p))
  {
    hide Adopted;
    AdoptedStands(p, Wake(p.reload, EnvOf(p)));
  }

  lemma FirstStands(p: Inbox, scope: Option<Scope>)
    requires Ready(p) && M.ScopeIsCurrent(p.mail, scope) && (Blocked(p) ==> p.reload.active.None?)
    ensures Consulted(p, LoadFirst(p, scope))
  {
    hide Asked, OwnerInPlace, Attended;
    var q := if p.configured && M.ScopeIsCurrent(p.mail, scope) then p.(spanScope := None) else p;
    assert Ready(q) by { SpanIsNothing(p, q.spanScope); }
    AskStands(q, First, scope);
  }

  lemma SpanIsNothing(p: Inbox, scope: Option<Scope>)
    requires Ready(p)
    ensures Ready(p.(spanScope := scope))
  {}

  /** Events that consult the owner, with the Inbox as it then stands. */
  function Consulting(p: Inbox, e: InboxPaging.Event): Option<Inbox>
    requires InboxPaging.Possible(p, e)
  {
    match e
    case QueryChanged(clear) => Some(NewQuery(p, clear))
    case ConfigurationReady => Some(p.(configured := true))
    case MailboxEvent(m) =>
      if m.MutationBegins? then Some(MutationBegun(p)) else if m.MutationEnds? then Some(p.(mail := M.Step(p.mail, m))) else None
    case RemovalBegins => Some(RemovalBegun(p))
    case RemovalEnds(effect) => Some(AfterRemoval(p, effect).(removing := false))
    case FirstPageWanted(_) => Some(p)
    case SpanWanted => Some(if p.configured then p.(spanScope := None) else p)
    case RunEnds(id) => if Owns(p.reload, id) then Some(p.(runs := p.runs - {id}, reload := p.reload.(active := None))) else None
    case _ => None
  }

  /** What the Inbox brings to each consultation. */
  ghost predicate Steady(p: Inbox) {
    && M.Valid(p.mail) && (forall g :: g in p.loads ==> g <= p.generation)
    && (p.reload.active.Some? ==> p.reload.active.value.epoch <= p.epoch)
    && OwnerInPlace(p)
  }

  lemma QueryReady(p: Inbox, clear: bool)
    requires Steady(p)
    ensures Ready(NewQuery(p, clear)) && (Blocked(p) ==> p.reload.active.None?)
  {}

  lemma UnblockedReady(p: Inbox, q: Inbox)
    requires Steady(p) && q.reload == p.reload && q.runs == p.runs && q.loads == p.loads && q.generation == p.generation
    requires q.epoch == p.epoch && (Blocked(q) ==> Blocked(p))
    ensures Ready(q) && (Blocked(q) ==> q.reload.active.None?)
  {}

  lemma BlockedReady(p: Inbox, q: Inbox)
    requires Steady(p) && q.loads == p.loads && p.generation <= q.generation && Blocked(q)
    ensures Ready(q)
  {}

  lemma OwnerlessReady(p: Inbox, q: Inbox)
    requires Steady(p) && q.loads == p.loads && p.generation <= q.generation && q.reload.active.None?
    ensures Ready(q)
  {}

  /** The consultation finds the Inbox fit, and the loads and the owner as they were, or no owner. */
  ghost predicate Fit(p: Inbox, q: Inbox, called: bool) {
    && Ready(q) && q.loads == p.loads && (Blocked(q) && !called ==> q.reload.active.None?)
    && ((q.reload.active == p.reload.active && q.runs == p.runs) || q.reload.active.None?)
  }

  lemma PlainReady(p: Inbox, e: InboxPaging.Event)
    requires Steady(p) && InboxPaging.Possible(p, e)
    requires e.ConfigurationReady? || e.RemovalEnds? || e.FirstPageWanted? || e.SpanWanted?
    ensures Fit(p, Consulting(p, e).value, false)
  {
    hide Ready, Steady, Without;
    UnblockedReady(p, Consulting(p, e).value);
  }

  lemma ConsultingFits(p: Inbox, e: InboxPaging.Event)
    requires Steady(p) && InboxPaging.Possible(p, e) && Consulting(p, e).Some?
    ensures Fit(p, Consulting(p, e).value, e.MailboxEvent? || e.RemovalBegins?)
  {
    hide Ready, Steady;
    match e {
      case QueryChanged(clear) => QueryReady(p, clear);
      case MailboxEvent(m) => MailReady(p, m);
      case RemovalBegins => BlockedReady(p, RemovalBegun(p));
      case RunEnds(id) => OwnerlessReady(p, Consulting(p, e).value);
      case _ => PlainReady(p, e);
    }
  }

  lemma ConsultingReady(s: Screen, e: InboxPaging.Event)
    requires Sound(s) && Possible(s, e) && Consulting(s.inbox, e).Some?
    ensures var p := Consulting(s.inbox, e).value;
      && Ready(p) && p.loads == s.inbox.loads
      && (Blocked(p) && !e.MailboxEvent? && !e.RemovalBegins? ==> p.reload.active.None?)
      && ((p.reload.active == s.inbox.reload.active && p.runs == s.inbox.runs) || p.reload.active.None?)
  {
    ReadyFacts(s.inbox);
    assert Steady(s.inbox);
    hide InboxPaging.Inv, Steady, Ready, OwnerInPlace, Attended, Consulting;
    ConsultingFits(s.inbox, e);
  }

  lemma MailReady(p: Inbox, m: M.Event)
    requires Steady(p) && M.Enabled(p.mail, m) && (m.MutationBegins? || m.MutationEnds?)
    ensures Ready(if m.MutationBegins? then MutationBegun(p) else p.(mail := M.Step(p.mail, m)))
  {
    if m.MutationBegins? { BlockedReady(p, MutationBegun(p)); } else { OwnerlessReady(p, p.(mail := M.Step(p.mail, m))); }
  }

  lemma ReadyFacts(p: Inbox)
    requires InboxPaging.Inv(p)
    ensures M.Valid(p.mail) && forall g :: g in p.loads ==> g <= p.generation
    ensures p.reload.active.Some? ==> p.reload.active.value.epoch <= p.epoch
  {}

  lemma ConsultedNext(s: Screen, e: InboxPaging.Event)
    requires Sound(s) && Possible(s, e) && Consulting(s.inbox, e).Some?
    ensures Consulted(Consulting(s.inbox, e).value, InboxPaging.Next(s.inbox, e))
  {
    ConsultingReady(s, e);
    var p := Consulting(s.inbox, e).value;
    hide Ready, Consulted, InboxPaging.Inv, Waked, Asked, LoadFirst, Attended, OwnerInPlace, OwnerKeepsBusy, Adopted;
    match e {
      case MailboxEvent(m) => WakeStands(p);
      case RemovalBegins => WakeStands(p);
      case FirstPageWanted(scope) => FirstStands(p, scope);
      case SpanWanted => AskStands(p, if p.itemsEpoch == Some(p.epoch) then Span(|p.items|) else First, None);
      case RunEnds(id) =>
        InboxPaging.WakesAfterRun(s.inbox, id);
        WakeStands(p);
      case _ => FirstStands(p, None);
    }
  }

  lemma ConsultedKeeps(s: Screen, e: InboxPaging.Event)
    requires Sound(s) && Possible(s, e) && Consulting(s.inbox, e).Some?
    ensures Sound(Next(s, e))
  {
    ConsultingReady(s, e);
    ConsultedNext(s, e);
    InboxPaging.NextKeeps(s.inbox, e);
    hide InboxPaging.Inv, InboxPaging.Next, Ready, Attended;
  }

  /** The owner is who it was, and pages only if it did so before, or begins to. */
  ghost predicate OwnerStays(p: Inbox, q: Inbox) {
    && OwnerInPlace(q) && Attended(q)
    && (OwnerPages(q) ==> LoadBegins(p, q) || OwnerPages(p))
  }

  lemma ReturnStands(p: Inbox, g: nat, ok: bool)
    requires Linked(p) && OwnerInPlace(p) && Attended(p) && g in p.loads
    ensures OwnerStays(p, Return(p, g, ok))
    ensures g == p.generation ==> !OwnerPages(Return(p, g, ok))
  {
    var q := Return(p, g, ok);
    assert EnvOf(q) == EnvOf(p) && q.reload == p.reload;
  }

  lemma RepliedStands(p: Inbox, g: nat, page: Page)
    requires Linked(p) && OwnerInPlace(p) && Attended(p) && g in p.loads
    ensures OwnerStays(p, Replied(p, g, page))
  {
    hide RowsOf, Unknown, Ids, Return, Linked;
    ReturnStands(p, g, false);
    var q := Replied(p, g, page);
    if LoadCurrent(p, g) { assert EnvOf(q) == EnvOf(p) && q.reload == p.reload && q.runs == p.runs; }
  }

  lemma ResumedStands(p: Inbox, id: nat)
    requires Linked(p) && OwnerInPlace(p) && Attended(p) && InboxPaging.Possible(p, RunResumes(id))
    requires forall g :: g in p.loads ==> g <= p.generation
    ensures OwnerStays(p, Resumed(p, id))
  {
    hide Linked;
    var q := Resumed(p, id);
    assert EnvOf(q) == EnvOf(p) && q.reload == p.reload;
    if q.generation != p.generation { assert q.generation in q.loads && q.generation !in p.loads; }
  }

  /** Replies and the turns of a run leave the owner who it is. */
  lemma SettlementKeeps(s: Screen, e: InboxPaging.Event)
    requires Sound(s) && Possible(s, e)
    requires e.PageArrives? || e.PageFails? || e.CapabilitiesSettle? || e.RunResumes?
    ensures Sound(Next(s, e))
  {
    InboxPaging.NextKeeps(s.inbox, e);
    assert Linked(s.inbox) && forall g :: g in s.inbox.loads ==> g <= s.inbox.generation;
    hide InboxPaging.Inv, Linked, OwnerInPlace, Attended, Return, Replied, Resumed;
    match e {
      case PageArrives(g, page) => RepliedStands(s.inbox, g, page);
      case PageFails(g) =>
        ReturnStands(s.inbox, g, false);
        FailedStands(s.inbox, g);
      case CapabilitiesSettle(g) => ReturnStands(s.inbox, g, true);
      case RunResumes(id) => ResumedStands(s.inbox, id);
    }
  }

  lemma FailedStands(p: Inbox, g: nat)
    requires Linked(p) && OwnerInPlace(p) && Attended(p) && g in p.loads
    ensures OwnerStays(p, Failed(p, g))
    ensures g == p.generation ==> !OwnerPages(Failed(p, g))
  {
    assert Linked(p.(cursor := None)) && OwnerInPlace(p.(cursor := None)) && Attended(p.(cursor := None));
    hide Linked, OwnerInPlace, Attended, Return;
    ReturnStands(p, g, false);
    ReturnStands(p.(cursor := None), g, false);
  }

  lemma QuietKeeps(s: Screen, e: InboxPaging.Event)
    requires Sound(s) && Possible(s, e) && Consulting(s.inbox, e).None?
    requires e.ConfigurationReset? || e.MailboxEvent? || e.RunEnds? || e.MorePressed?
    ensures Sound(Next(s, e))
  {
    InboxPaging.NextKeeps(s.inbox, e);
  }

  lemma NextKeeps(s: Screen, e: InboxPaging.Event)
    requires Sound(s) && Possible(s, e)
    ensures Sound(Next(s, e))
  {
    hide Sound, Next;
    if Consulting(s.inbox, e).Some? {
      ConsultedKeeps(s, e);
    } else if e.PageArrives? || e.PageFails? || e.CapabilitiesSettle? || e.RunResumes? {
      SettlementKeeps(s, e);
    } else {
      QuietKeeps(s, e);
    }
  }

  lemma {:induction false} HistoryKeeps(s: Screen, events: seq<InboxPaging.Event>)
    requires Sound(s) && History(s, events)
    ensures Sound(After(s, events))
    decreases |events|
  {
    hide Sound, Next;
    if events != [] {
      NextKeeps(s, events[0]);
      HistoryKeeps(Next(s, events[0]), events[1..]);
    }
  }

  // ---------------------------------------------------------------------------------------------
  // The theorems

  /** Along every run of the screen a current pending request has a blocker or an owner, and the owner's run is
      still out, so that its end or the end of the blocker wakes the request. */
  lemma NoRequestIsStranded(events: seq<InboxPaging.Event>)
    requires History(Start(), events)
    ensures
      var p := After(Start(), events).inbox;
      && Attended(p)
      && (p.reload.active.Some? ==> p.reload.active.value.id in p.runs)
  {
    HistoryKeeps(Start(), events);
  }

  /** The flag is what it takes: pressed over a stale owner, Load more strands a current pending request, and
      over any other owner, or none, it does not. */
  lemma LoadMoreStrandsIff(p: Inbox, scope: Option<Scope>)
    requires Attended(p)
    ensures Attended(LoadMore(p, scope)) <==>
      !(!Blocked(p) && p.reload.pending.Some? && Current(EnvOf(p), p.reload.pending.value)
        && p.reload.active.Some? && !Current(EnvOf(p), p.reload.active.value))
  {
    var q := LoadMore(p, scope);
    assert EnvOf(q) == EnvOf(p) && q.reload == Synchronize(p.reload, EnvOf(p));
  }

  /** When the controls are given back: by the failure or the end of the newest load, by the end of a removal, and by the
      first of overlapping mutations unless a removal is out, all unless a load begins at once.  They are taken by a
      load and by a removal, and no other event touches them. */
  lemma ControlsFollowTheLoads(s: Screen, e: InboxPaging.Event)
    requires Possible(s, e)
    ensures
      var t, p := Next(s, e), s.inbox;
      var ends := (e.PageFails? || e.CapabilitiesSettle?) && LoadCurrent(p, e.generation);
      var mutates := e.MailboxEvent? && e.e.MutationBegins? && p.mail.mutations == 0 && !p.removing;
      && (LoadBegins(p, t.inbox) || e.RemovalBegins? ==> t.busy)
      && (!LoadBegins(p, t.inbox) && (ends || e.RemovalEnds? || mutates) ==> !t.busy)
      && (!LoadBegins(p, t.inbox) && !ends && !mutates && !e.RemovalBegins? && !e.RemovalEnds? ==> t.busy == s.busy)
  {
    hide InboxPaging.Next, LoadBegins, LoadCurrent;
  }
}
