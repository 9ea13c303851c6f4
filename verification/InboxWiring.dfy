/** The wiring of the Inbox: every step of the paging model drives the refresh owner through events
    that the owner's own theorems allow.  So what they promise holds of the Inbox as it is wired, with
    no assumption left about epochs, scopes and blockers. */
module InboxWiring {
  import opened Basics
  import opened InboxPaging
  import R = InboxReloads
  import M = MailboxScopes

  /** What one Inbox step is to the owner: a change of what it reads, and at most one call. */
  function OwnerEvents(p: Inbox, e: Event): seq<R.Event>
    requires Possible(p, e)
  {
    match e
    case QueryChanged(clear) => [R.EnvChanges(EnvOf(NewQuery(p, clear))), R.Requested(R.First, None)]
    case ConfigurationReset => [R.EnvChanges(EnvOf(Next(p, e))), R.CancelCalled]
    case ConfigurationReady => [R.EnvChanges(EnvOf(p.(configured := true))), R.Requested(R.First, None)]
    case MailboxEvent(m) =>
      [R.EnvChanges(EnvOf(p.(mail := M.Step(p.mail, m))))] + (if m.MutationBegins? || m.MutationEnds? then [R.Woken] else [])
    case RemovalBegins => [R.EnvChanges(EnvOf(RemovalBegun(p))), R.Woken]
    case RemovalEnds(effect) => [R.EnvChanges(EnvOf(p.(removing := false))), R.Requested(R.First, None)]
    case FirstPageWanted(scope) => [R.Requested(R.First, scope)]
    case SpanWanted => [R.Requested(if p.itemsEpoch == Some(p.epoch) then R.Span(|p.items|) else R.First, None)]
    case MorePressed(_) => [R.RunningRead]
    case RunEnds(id) => [R.RunSettles(id)]
    case _ => []
  }

  /** The owner's world sees the Inbox: its slots, its environment, its runs; retired scopes are past. */
  ghost predicate Mirrors(p: Inbox, w: R.World) {
    && w.reload == p.reload && w.env == EnvOf(p) && w.inFlight == p.runs.Keys
    && M.Valid(p.mail) && (forall s :: s in w.retired ==> M.Past(p.mail, s))
  }

  lemma {:induction false} RunAppends(w: R.World, a: seq<R.Event>, b: seq<R.Event>)
    requires R.Legal(w, a) && R.Legal(R.Run(w, a), b)
    ensures R.Legal(w, a + b) && R.Run(w, a + b) == R.Run(R.Run(w, a), b)
    decreases |a|
  {
    if a == [] {
      assert a + b == b;
    } else {
      assert (a + b)[1..] == a[1..] + b;
      RunAppends(R.Step(w, a[0]), a[1..], b);
    }
  }

  lemma RunOne(w: R.World, e: R.Event)
    requires R.Enabled(w, e)
    ensures R.Legal(w, [e]) && R.Run(w, [e]) == R.Step(w, e)
  {
    assert [e][1..] == [];
  }

  lemma RunTwo(w: R.World, e: R.Event, f: R.Event)
    requires R.Enabled(w, e) && R.Enabled(R.Step(w, e), f)
    ensures R.Legal(w, [e, f]) && R.Run(w, [e, f]) == R.Step(R.Step(w, e), f)
  {
    assert [e, f][1..] == [f];
    RunOne(R.Step(w, e), f);
  }

  // ---------------------------------------------------------------------------------------------
  // The owner keeps up with the Inbox

  /** Rows, cursors, loads and phases of runs are nothing to the owner. */
  lemma SameToOwner(p: Inbox, q: Inbox, w: R.World)
    requires Mirrors(p, w) && q.reload == p.reload && q.runs.Keys == p.runs.Keys && q.mail == p.mail && EnvOf(q) == EnvOf(p)
    ensures Mirrors(q, w)
  {}

  lemma RunLoadsMirrors(p: Inbox, id: nat, append: bool, w: R.World)
    requires Mirrors(p, w) && id in p.runs
    ensures Mirrors(RunLoads(p, id, append), w)
  {
    SameToOwner(p, RunLoads(p, id, append), w);
  }

  lemma AdoptMirrors(p: Inbox, o: R.Outcome, w: R.World)
    requires Mirrors(p, w)
    ensures Mirrors(Adopted(p, o), R.Adopt(w, o))
  {
    if o.started.Some? {
      var q := p.(reload := o.reload);
      var r := o.started.value;
      RunLoadsMirrors(q.(runs := q.runs[r.id := RefreshRun(r, M.CurrentScope(p.mail), Over)]), r.id, false, R.Adopt(w, o));
    }
  }

  lemma AskMirrors(p: Inbox, intent: R.Intent, scope: Option<Scope>, w: R.World)
    requires Mirrors(p, w)
    ensures Mirrors(Asked(p, intent, scope), R.Step(w, R.Requested(intent, scope)))
  {
    hide Adopted, R.Ask;
    var o := R.Ask(w.reload, w.env, intent, scope);
    AdoptMirrors(p, o, if o.accepted then w.(log := w.log + [R.Accepted(w.env.epoch, intent, scope)]) else w);
  }

  lemma WakeMirrors(p: Inbox, w: R.World)
    requires Mirrors(p, w)
    ensures Mirrors(Waked(p), R.Step(w, R.Woken))
  {
    hide Adopted, R.Wake;
    AdoptMirrors(p, R.Wake(w.reload, w.env), w);
  }

  lemma FirstMirrors(p: Inbox, scope: Option<Scope>, w: R.World)
    requires Mirrors(p, w)
    ensures Mirrors(LoadFirst(p, scope), R.Step(w, R.Requested(R.First, scope)))
  {
    hide Asked, R.Step;
    var q := if p.configured && M.ScopeIsCurrent(p.mail, scope) then p.(spanScope := None) else p;
    SameToOwner(p, q, w);
    AskMirrors(q, R.First, scope, w);
  }

  /** New epochs and blockers, with the mailbox as it was. */
  lemma EnvMirrors(p: Inbox, q: Inbox, w: R.World)
    requires Mirrors(p, w) && q.reload == p.reload && q.runs == p.runs && q.mail == p.mail && p.epoch <= q.epoch
    ensures R.Enabled(w, R.EnvChanges(EnvOf(q))) && Mirrors(q, R.Step(w, R.EnvChanges(EnvOf(q))))
  {}

  /** A step of the mailbox: the scope it takes away is past for good. */
  lemma MailMirrors(p: Inbox, m: M.Event, q: Inbox, w: R.World)
    requires Mirrors(p, w) && M.Enabled(p.mail, m)
    requires q.reload == p.reload && q.runs == p.runs && q.mail == M.Step(p.mail, m) && q.epoch == p.epoch
    ensures R.Enabled(w, R.EnvChanges(EnvOf(q))) && Mirrors(q, R.Step(w, R.EnvChanges(EnvOf(q))))
  {
    M.MailboxDrivesReload(w, p.mail, m, q.epoch, Blocked(q));
  }

  lemma RunEndsMirrors(p: Inbox, id: nat, w: R.World)
    requires Mirrors(p, w) && Possible(p, RunEnds(id))
    ensures R.Enabled(w, R.RunSettles(id)) && Mirrors(Next(p, RunEnds(id)), R.Step(w, R.RunSettles(id)))
  {
    hide Adopted, R.Settle;
    var ended := w.(inFlight := w.inFlight - {id});
    var logged := if R.Owns(w.reload, id) then ended.(log := w.log + [R.Finished(id)]) else ended;
    AdoptMirrors(p.(runs := p.runs - {id}), R.Settle(w.reload, w.env, id), logged);
  }

  lemma MailStepMirrors(p: Inbox, m: M.Event, w: R.World)
    requires Mirrors(p, w) && M.Enabled(p.mail, m)
    ensures R.Legal(w, OwnerEvents(p, MailboxEvent(m)))
    ensures Mirrors(MailStep(p, m), R.Run(w, OwnerEvents(p, MailboxEvent(m))))
  {
    hide R.Step, R.Enabled, R.Run, R.Legal, Waked;
    var q := if m.MutationBegins? then MutationBegun(p) else p.(mail := M.Step(p.mail, m));
    var change := R.EnvChanges(EnvOf(q));
    MailMirrors(p, m, q, w);
    if m.MutationBegins? || m.MutationEnds? {
      WakeMirrors(q, R.Step(w, change));
      assert R.Enabled(R.Step(w, change), R.Woken) by { AlwaysEnabled(R.Step(w, change), R.Woken); }
      assert [change] + [R.Woken] == [change, R.Woken];
      RunTwo(w, change, R.Woken);
    } else {
      assert [change] + [] == [change];
      RunOne(w, change);
    }
  }

  lemma AlwaysEnabled(w: R.World, e: R.Event)
    requires e.Requested? || e.Woken? || e.CancelCalled? || e.RunningRead?
    ensures R.Enabled(w, e)
  {}

  /** One step of the Inbox is a legal stretch of the owner's history, and leads to its mirror. */
  lemma StepMirrors(p: Inbox, e: Event, w: R.World)
    requires Mirrors(p, w) && Possible(p, e)
    ensures R.Legal(w, OwnerEvents(p, e)) && Mirrors(Next(p, e), R.Run(w, OwnerEvents(p, e)))
  {
    match e {
      case QueryChanged(clear) => CallMirrors(p, NewQuery(p, clear), w);
      case ConfigurationReady => CallMirrors(p, p.(configured := true), w);
      case RemovalEnds(effect) => CallMirrors(p, AfterRemoval(p, effect).(removing := false), w);
      case RemovalBegins => RemovalMirrors(p, w);
      case ConfigurationReset => ResetMirrors(p, w);
      case MailboxEvent(m) => MailStepMirrors(p, m, w);
      case FirstPageWanted(scope) => FirstMirrors(p, scope, w); RunOne(w, R.Requested(R.First, scope));
      case SpanWanted => SpanMirrors(p, w);
      case MorePressed(scope) => RunOne(w, R.RunningRead);
      case RunEnds(id) => RunEndsMirrors(p, id, w); RunOne(w, R.RunSettles(id));
      case _ => QuietMirrors(p, e, w);
    }
  }

  lemma CallMirrors(p: Inbox, q: Inbox, w: R.World)
    requires Mirrors(p, w) && q.reload == p.reload && q.runs == p.runs && q.mail == p.mail && p.epoch <= q.epoch
    ensures var es := [R.EnvChanges(EnvOf(q)), R.Requested(R.First, None)];
      R.Legal(w, es) && Mirrors(LoadFirst(q, None), R.Run(w, es))
  {
    hide R.Step, R.Enabled, R.Run, R.Legal, LoadFirst;
    var change := R.EnvChanges(EnvOf(q));
    EnvMirrors(p, q, w);
    FirstMirrors(q, None, R.Step(w, change));
    AlwaysEnabled(R.Step(w, change), R.Requested(R.First, None));
    RunTwo(w, change, R.Requested(R.First, None));
  }

  lemma RemovalMirrors(p: Inbox, w: R.World)
    requires Mirrors(p, w) && !p.removing
    ensures R.Legal(w, OwnerEvents(p, RemovalBegins)) && Mirrors(Next(p, RemovalBegins), R.Run(w, OwnerEvents(p, RemovalBegins)))
  {
    hide R.Step, R.Enabled, R.Run, R.Legal, Waked;
    var change := R.EnvChanges(EnvOf(RemovalBegun(p)));
    EnvMirrors(p, RemovalBegun(p), w);
    WakeMirrors(RemovalBegun(p), R.Step(w, change));
    AlwaysEnabled(R.Step(w, change), R.Woken);
    RunTwo(w, change, R.Woken);
  }

  lemma ResetMirrors(p: Inbox, w: R.World)
    requires Mirrors(p, w)
    ensures R.Legal(w, OwnerEvents(p, ConfigurationReset))
    ensures Mirrors(Next(p, ConfigurationReset), R.Run(w, OwnerEvents(p, ConfigurationReset)))
  {
    var q := p.(configured := false, generation := p.generation + 1, epoch := p.epoch + 1);
    var change := R.EnvChanges(EnvOf(q));
    EnvMirrors(p, q, w);
    AlwaysEnabled(R.Step(w, change), R.CancelCalled);
    RunTwo(w, change, R.CancelCalled);
  }

  lemma SpanMirrors(p: Inbox, w: R.World)
    requires Mirrors(p, w)
    ensures R.Legal(w, OwnerEvents(p, SpanWanted)) && Mirrors(RefreshSpan(p), R.Run(w, OwnerEvents(p, SpanWanted)))
  {
    hide Asked, R.Step, R.Enabled, R.Run, R.Legal;
    var q := if p.configured then p.(spanScope := None) else p;
    var intent := if p.itemsEpoch == Some(p.epoch) then R.Span(|p.items|) else R.First;
    SameToOwner(p, q, w);
    AskMirrors(q, intent, None, w);
    AlwaysEnabled(w, R.Requested(intent, None));
    RunOne(w, R.Requested(intent, None));
  }

  lemma ReturnMirrors(p: Inbox, g: nat, ok: bool, w: R.World)
    requires Mirrors(p, w) && g in p.loads
    ensures Mirrors(Return(p, g, ok), w)
  {
    SameToOwner(p, Return(p, g, ok), w);
  }

  lemma RepliedMirrors(p: Inbox, g: nat, page: Page, w: R.World)
    requires Mirrors(p, w) && g in p.loads
    ensures Mirrors(Replied(p, g, page), w)
  {
    hide RowsOf, Unknown, Ids, Return;
    ReturnMirrors(p, g, false, w);
  }

  lemma ResumedMirrors(p: Inbox, id: nat, w: R.World)
    requires Mirrors(p, w) && id in p.runs && p.runs[id].phase.Returned?
    ensures Mirrors(Resumed(p, id), w)
  {
    hide RunLoads;
    RunLoadsMirrors(p, id, true, w);
  }

  /** Replies and the turns of a run are no calls to the owner. */
  lemma QuietMirrors(p: Inbox, e: Event, w: R.World)
    requires Mirrors(p, w) && Possible(p, e)
    requires e.PageArrives? || e.PageFails? || e.CapabilitiesSettle? || e.RunResumes?
    ensures Mirrors(Next(p, e), w)
  {
    hide Return, Replied, Resumed, Mirrors;
    match e {
      case PageArrives(g, page) => RepliedMirrors(p, g, page, w);
      case PageFails(g) =>
        ReturnMirrors(p, g, false, w);
        assert Mirrors(p.(cursor := None), w) by { CursorMirrors(p, w); }
        ReturnMirrors(p.(cursor := None), g, false, w);
      case CapabilitiesSettle(g) => ReturnMirrors(p, g, true, w);
      case RunResumes(id) => ResumedMirrors(p, id, w);
    }
  }

  lemma CursorMirrors(p: Inbox, w: R.World)
    requires Mirrors(p, w)
    ensures Mirrors(p.(cursor := None), w)
  {}

  // ---------------------------------------------------------------------------------------------
  // Whole runs

  ghost function OwnerHistory(p: Inbox, events: seq<Event>): seq<R.Event>
    requires History(p, events)
    decreases |events|
  {
    if events == [] then [] else OwnerEvents(p, events[0]) + OwnerHistory(Next(p, events[0]), events[1..])
  }

  lemma {:induction false} HistoryMirrors(p: Inbox, events: seq<Event>, w: R.World)
    requires Mirrors(p, w) && History(p, events)
    ensures R.Legal(w, OwnerHistory(p, events)) && Mirrors(After(p, events), R.Run(w, OwnerHistory(p, events)))
    decreases |events|
  {
    hide OwnerEvents, Next, Mirrors, R.Step;
    if events != [] {
      StepMirrors(p, events[0], w);
      var v := R.Run(w, OwnerEvents(p, events[0]));
      HistoryMirrors(Next(p, events[0]), events[1..], v);
      RunAppends(w, OwnerEvents(p, events[0]), OwnerHistory(Next(p, events[0]), events[1..]));
    }
  }

  ghost function OwnerStart(): R.World {
    R.Initial(EnvOf(Initial()))
  }

  /** Over every run of the Inbox, with filters, mutations, removals and replies in any order, each
      refresh request that is still current and uncancelled waits, is being served, or was served by
      a run begun after it; what the owner asks for is what some uncancelled request of that epoch asked
      for; what waits behind a run asks for all the run does; and its pending request is unscoped exactly when an unscoped one is
      outstanding. */
  lemma InboxForgetsNoRefresh(events: seq<Event>)
    requires History(Initial(), events)
    ensures R.Legal(OwnerStart(), OwnerHistory(Initial(), events))
    ensures
      var p := After(Initial(), events);
      var w := R.Run(OwnerStart(), OwnerHistory(Initial(), events));
      && w.reload == p.reload && w.env == EnvOf(p)
      && (forall i: nat :: R.Obligation(w, i) && R.StillCurrent(EnvOf(p), w.log[i]) ==>
            R.Waiting(w, i) || R.Underway(w, i) || R.Done(w, i))
      && (p.reload.pending.Some? ==> R.AskedFor(w, p.reload.pending.value))
      && (p.reload.active.Some? ==> R.AskedFor(w, p.reload.active.value))
      && (p.reload.pending.Some? && p.reload.active.Some? ==>
            R.AtMost(p.reload.active.value.intent, p.reload.pending.value.intent))
      && (p.reload.pending.Some? && p.reload.pending.value.epoch == p.epoch ==>
            (p.reload.pending.value.scope.None? <==> exists i: nat :: R.OutstandingUnscoped(w, p.epoch, i)))
  {
    HistoryMirrors(Initial(), events, OwnerStart());
    R.NoObligationLost(EnvOf(Initial()), OwnerHistory(Initial(), events));
    R.PendingRestoresTheRunning(EnvOf(Initial()), OwnerHistory(Initial(), events));
    hide R.Waiting, R.Underway, R.Done, R.OutstandingUnscoped, R.Obligation, R.AskedFor;
  }

  ghost predicate FlightsLogged(w: R.World) {
    forall id :: id in w.inFlight ==> R.RunStarted(w, id)
  }

  lemma StepLogs(w: R.World, e: R.Event)
    requires FlightsLogged(w) && R.Enabled(w, e)
    ensures FlightsLogged(R.Step(w, e))
  {
    var v := R.Step(w, e);
    forall id | id in v.inFlight ensures R.RunStarted(v, id) {
      if id in w.inFlight {
        var j :| 0 <= j < |w.log| && w.log[j].Started? && w.log[j].run.id == id;
        assert v.log[j] == w.log[j];
      } else {
        assert v.log[|v.log| - 1].Started? && v.log[|v.log| - 1].run.id == id;
      }
    }
  }

  lemma {:induction false} RunLogs(w: R.World, events: seq<R.Event>)
    requires FlightsLogged(w) && R.Legal(w, events)
    ensures FlightsLogged(R.Run(w, events))
    decreases |events|
  {
    hide FlightsLogged, R.Step;
    if events != [] {
      StepLogs(w, events[0]);
      RunLogs(R.Step(w, events[0]), events[1..]);
    }
  }

  /** In the Inbox as wired, a refresh run that has once seen itself overtaken never owns the refresh
      again, whatever the user and the engine do next. */
  lemma InboxOwnershipNeverRegained(events: seq<Event>, more: seq<Event>, id: nat)
    requires History(Initial(), events) && History(After(Initial(), events), more)
    requires id in After(Initial(), events).runs && !OwnerSees(After(Initial(), events), id)
    ensures !OwnerSees(After(After(Initial(), events), more), id)
  {
    hide R.Legal, R.Run, History, After;
    var first := OwnerHistory(Initial(), events);
    HistoryMirrors(Initial(), events, OwnerStart());
    var p, w := After(Initial(), events), R.Run(OwnerStart(), first);
    RunLogs(OwnerStart(), first);
    HistoryMirrors(p, more, w);
    R.OwnershipNeverRegained(EnvOf(Initial()), first, OwnerHistory(p, more), id);
  }
}
