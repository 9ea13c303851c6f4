/** The Inbox entry of the thread reader: it binds the reader to a row on display, under the query
    epoch and mailbox scope of the moment, and renews that binding when a span commits.  The source
    predicate can go false and come back true; what was asked for before a renewal must not. */
module InboxThreadEntries {
  import opened Basics
  import opened ThreadViews
  import opened ThreadViewProofs
  import T = ThreadViewTheorems
  import F = ThreadViewEffects

  datatype Row = Row(provider: string, accountId: string, messageId: string, ref: MessageRef)

  /** What the entry reads of the Inbox at any moment. */
  datatype Snapshot = Snapshot(configured: bool, visible: bool, blocked: bool, queryEpoch: nat, itemsEpoch: Option<nat>,
                               items: seq<Row>, scope: Option<Scope>, spanScope: Option<Scope>)

  /** A bound origin; `id` is the identity of the entry object. */
  datatype Bound = Bound(id: nat, origin: MessageRef, epoch: nat, scope: Scope)

  /** `source` is the entry object that the reader's current Inbox predicate speaks of.  `retries` are
      retries waiting for their Inbox refresh, with the entry each was started for.  `boundAt` is a
      history counter: the calls the reader had made when the binding was last set or renewed. */
  datatype Pane = Pane(reader: View, entry: Option<Bound>, source: nat, nextEntry: nat,
                       retryGeneration: nat, retries: map<nat, nat>, snapshot: Snapshot, boundAt: nat)

  predicate SameScope(a: Option<Scope>, b: Option<Scope>) {
    a.Some? && b.Some? && a == b
  }

  /** The rows answer the current query and their whole span was checked under the current scope. */
  predicate Committed(s: Snapshot) {
    s.configured && s.visible && s.itemsEpoch == Some(s.queryEpoch) && SameScope(s.scope, s.spanScope)
  }

  predicate ReadyFor(s: Snapshot) {
    !s.blocked && Committed(s)
  }

  predicate OnDisplay(origin: MessageRef, s: Snapshot) {
    exists row :: row in s.items && row.provider == origin.provider && row.accountId == origin.accountId
                  && row.messageId == origin.messageId && row.ref == origin
  }

  predicate CanOpen(row: Row, s: Snapshot) {
    ReadyFor(s) && OnDisplay(row.ref, s)
  }

  /** The source predicate of entry object `id`. */
  predicate SourceCurrent(p: Pane, id: nat) {
    && p.entry.Some? && p.entry.value.id == id && ReadyFor(p.snapshot)
    && p.entry.value.epoch == p.snapshot.queryEpoch
    && SameScope(Some(p.entry.value.scope), p.snapshot.scope)
    && OnDisplay(p.entry.value.origin, p.snapshot)
  }

  /** After any change: a reader outside the Inbox unbinds the entry, and the reader's predicate answers
      for the pane as it is now. */
  function Settled(p: Pane): Pane {
    var q := if p.reader.inbox.None? then p.(entry := None) else p;
    q.(reader := q.reader.(sourceCurrent := SourceCurrent(q, q.source)))
  }

  function Open(p: Pane, row: Row): Pane
    requires Rooted(p.reader)
  {
    if !CanOpen(row, p.snapshot) then p else
    var b := Bound(p.nextEntry, row.ref, p.snapshot.queryEpoch, p.snapshot.scope.value);
    var q := p.(entry := Some(b), source := b.id, nextEntry := p.nextEntry + 1, boundAt := |p.reader.calls|);
    Settled(q.(reader := OpenInbox(p.reader, row.ref, SourceCurrent(q, b.id))))
  }

  /** Whether a committed span renews the binding; a blocker does not stand in the way. */
  predicate Renews(p: Pane) {
    && p.entry.Some? && Committed(p.snapshot) && p.entry.value.epoch == p.snapshot.queryEpoch
    && OnDisplay(p.entry.value.origin, p.snapshot)
  }

  /** A span has committed: the reader forgets everything first, then the binding may be renewed. */
  function Revalidate(p: Pane): Pane
    requires Rooted(p.reader)
  {
    if p.entry.None? then p else
    var q := p.(reader := Invalidate(p.reader));
    Settled(if Renews(p)
            then q.(entry := Some(p.entry.value.(scope := p.snapshot.scope.value)), boundAt := |p.reader.calls|)
            else q)
  }

  function Back(p: Pane): Pane
    requires Rooted(p.reader)
  {
    Settled(p.(entry := None, reader := Close(p.reader)))
  }

  function RetryStarts(p: Pane): Pane {
    if p.entry.None? then p else
    p.(retryGeneration := p.retryGeneration + 1, retries := p.retries[p.retryGeneration + 1 := p.entry.value.id])
  }

  /** A retry's Inbox refresh is done: only the newest, for the entry still bound, opens the origin anew. */
  function RetryReturns(p: Pane, g: nat): Pane
    requires Rooted(p.reader) && g in p.retries
  {
    var id := p.retries[g];
    var q := p.(retries := p.retries - {g});
    if g != p.retryGeneration || !SourceCurrent(p, id) then q
    else Settled(q.(source := id, reader := OpenInbox(p.reader, p.entry.value.origin, true)))
  }

  datatype Event =
    | SnapshotChanges(snapshot: Snapshot)
    | RowOpened(row: Row)
    | SpanRevalidated
    | WentBack
    | RetryPressed
    | RetryRefreshed(generation: nat)
    | RetryOvertaken
    | ReaderEvent(e: ThreadViews.Event)

  /** The reader's Inbox is opened, and its source answered for, by the entry alone. */
  predicate Possible(p: Pane, e: Event) {
    match e
    case RetryRefreshed(g) => g in p.retries
    case ReaderEvent(x) => ThreadViews.Possible(p.reader, x) && !x.InboxOpened? && !x.SourceChanges?
    case _ => true
  }

  function Next(p: Pane, e: Event): Pane
    requires Rooted(p.reader) && Possible(p, e)
  {
    match e
    case SnapshotChanges(s) => Settled(p.(snapshot := s))
    case RowOpened(row) => Open(p, row)
    case SpanRevalidated => Revalidate(p)
    case WentBack => Back(p)
    case RetryPressed => RetryStarts(p)
    case RetryRefreshed(g) => RetryReturns(p, g)
    case RetryOvertaken => p.(retryGeneration := p.retryGeneration + 1)
    case ReaderEvent(x) => Settled(p.(reader := ThreadViews.Next(p.reader, x)))
  }

  function Start(s: Snapshot): Pane {
    Pane(ThreadViews.Initial(), None, 0, 0, 0, map[], s, 0)
  }

  ghost predicate History(p: Pane, events: seq<Event>)
    decreases |events|
  {
    Rooted(p.reader) && (events == [] || (Possible(p, events[0]) && History(Next(p, events[0]), events[1..])))
  }

  ghost function After(p: Pane, events: seq<Event>): Pane
    requires History(p, events)
    decreases |events|
  {
    if events == [] then p else After(Next(p, events[0]), events[1..])
  }

  // ---------------------------------------------------------------------------------------------
  // The invariant

  /** A sound reader whose content was cleared no earlier than call `n`. */
  ghost predicate ClearedSince(v: View, n: nat) {
    Rooted(v) && Inv(v) && n <= v.clearedAt && n <= v.resolutionClearedAt
  }

  ghost predicate Sound(p: Pane) {
    ClearedSince(p.reader, p.boundAt)
  }

  lemma StepCleared(v: View, e: ThreadViews.Event, n: nat)
    requires ClearedSince(v, n) && ThreadViews.Possible(v, e)
    ensures ClearedSince(ThreadViews.Next(v, e), n)
  {
    NextKeeps(v, e);
    T.StampedReachable(v);
    T.NextRises(v, e);
    hide ThreadViews.Next;
  }

  /** Opening the Inbox and invalidating clear everything asked for so far. */
  lemma OpenedCleared(v: View, origin: MessageRef, current: bool)
    requires Rooted(v) && Inv(v)
    ensures ClearedSince(OpenInbox(v, origin, current), |v.calls|)
    ensures ClearedSince(Invalidate(v), |v.calls|)
  {
    hide Inv, Invalidate, Refresh;
    T.StampedReachable(v);
    OpenInboxKeeps(v, origin, current);
    RefreshKeeps(v, v);
    T.InvalidateRises(v);
    RefreshCleared(v.(inbox := Some(Entry(v.entries, origin)), entries := v.entries + 1, sourceCurrent := current,
                      inboxVendor := None, vendor := None, selected := None, visible := true,
                      account := Some(Account(origin.provider, origin.accountId))));
    RootedKept(v, origin, current);
  }

  lemma RootedKept(v: View, origin: MessageRef, current: bool)
    requires Rooted(v) && Inv(OpenInbox(v, origin, current)) && Inv(Invalidate(v))
    ensures Rooted(OpenInbox(v, origin, current)) && Rooted(Invalidate(v))
  {
    hide OpenInbox, Invalidate;
  }

  lemma RefreshCleared(v: View)
    requires Rooted(v) && T.Stamped(v)
    ensures |v.calls| <= Refresh(v).clearedAt && |v.calls| <= Refresh(v).resolutionClearedAt
  {
    hide Invalidate, LoadThreads, LoadMessages, ResolveInbox;
    T.InvalidateRises(v);
    T.LoadsRise(Invalidate(v), false);
    T.ResolveRises(Invalidate(v), false);
  }

  lemma SettledKeeps(p: Pane)
    requires Sound(p)
    ensures Sound(Settled(p)) && Settled(p).boundAt == p.boundAt && Settled(p).reader.calls == p.reader.calls
  {
    hide Inv;
    var q := if p.reader.inbox.None? then p.(entry := None) else p;
    SourceKeeps(p.reader, SourceCurrent(q, q.source));
  }

  lemma NextKeepsPane(p: Pane, e: Event)
    requires Sound(p) && Possible(p, e)
    ensures Sound(Next(p, e))
  {
    hide Inv, OpenInbox, Invalidate, Close, ThreadViews.Next, SourceCurrent, OnDisplay, Settled;
    match e {
      case SnapshotChanges(s) => SettledKeeps(p.(snapshot := s));
      case RowOpened(row) =>
        if CanOpen(row, p.snapshot) {
          var b := Bound(p.nextEntry, row.ref, p.snapshot.queryEpoch, p.snapshot.scope.value);
          var q := p.(entry := Some(b), source := b.id, nextEntry := p.nextEntry + 1, boundAt := |p.reader.calls|);
          OpenedCleared(p.reader, row.ref, SourceCurrent(q, b.id));
          SettledKeeps(q.(reader := OpenInbox(p.reader, row.ref, SourceCurrent(q, b.id))));
        }
      case SpanRevalidated => RevalidateKeeps(p);
      case WentBack =>
        CloseCleared(p);
        SettledKeeps(p.(entry := None, reader := Close(p.reader)));
      case RetryPressed =>
      case RetryRefreshed(g) => RetryKeeps(p, g);
      case RetryOvertaken =>
      case ReaderEvent(x) =>
        StepCleared(p.reader, x, p.boundAt);
        SettledKeeps(p.(reader := ThreadViews.Next(p.reader, x)));
    }
  }

  lemma BoundBelow(p: Pane)
    requires Sound(p)
    ensures p.boundAt <= |p.reader.calls|
  {
  }

  lemma CloseCleared(p: Pane)
    requires Sound(p)
    ensures ClearedSince(Close(p.reader), p.boundAt)
  {
    hide Inv, Close;
    StepCleared(p.reader, Closed, p.boundAt);
  }

  lemma RevalidateKeeps(p: Pane)
    requires Sound(p)
    ensures Sound(Revalidate(p))
  {
    hide Inv, Invalidate, SourceCurrent, OnDisplay, Settled;
    if p.entry.Some? {
      BoundBelow(p);
      OpenedCleared(p.reader, p.entry.value.origin, true);
      var q := p.(reader := Invalidate(p.reader));
      SettledKeeps(if Renews(p)
                   then q.(entry := Some(p.entry.value.(scope := p.snapshot.scope.value)), boundAt := |p.reader.calls|)
                   else q);
    }
  }

  lemma RetryKeeps(p: Pane, g: nat)
    requires Sound(p) && g in p.retries
    ensures Sound(RetryReturns(p, g))
  {
    hide Inv, OpenInbox, OnDisplay, Settled;
    var id := p.retries[g];
    if SourceCurrent(p, id) {
      BoundBelow(p);
      OpenedCleared(p.reader, p.entry.value.origin, true);
      SettledKeeps(p.(retries := p.retries - {g}, source := id, reader := OpenInbox(p.reader, p.entry.value.origin, true)));
    }
  }

  lemma {:induction false} HistoryKeeps(p: Pane, events: seq<Event>)
    requires Sound(p) && History(p, events)
    ensures Sound(After(p, events))
    decreases |events|
  {
    hide Sound, Next;
    if events != [] {
      NextKeepsPane(p, events[0]);
      HistoryKeeps(Next(p, events[0]), events[1..]);
    }
  }

  // ---------------------------------------------------------------------------------------------
  // The theorems

  /** No reply requested before the binding was last set or renewed is ever on display, in the resolution
      or below it, however often the source predicate has gone false and come back in between. */
  lemma OldRepliesNeverShowAfterRenewal(s: Snapshot, events: seq<Event>, id: nat, hop: Hop)
    requires History(Start(s), events)
    requires
      var v := After(Start(s), events).reader;
      id in v.cells && v.cells[id].value.Some? && hop in v.cells[id].value.value.trail
    ensures After(Start(s), events).boundAt <= hop.call
  {
    hide Sound;
    StartSound(s);
    HistoryKeeps(Start(s), events);
    HopCleared(After(Start(s), events), id, hop);
  }

  lemma StartSound(s: Snapshot)
    ensures Sound(Start(s))
  {
    ClearInv(ThreadViews.Initial());
  }

  lemma HopCleared(p: Pane, id: nat, hop: Hop)
    requires Sound(p)
    requires id in p.reader.cells && p.reader.cells[id].value.Some? && hop in p.reader.cells[id].value.value.trail
    ensures p.boundAt <= hop.call
  {
    assert HeldSound(p.reader, p.reader.cells[id].slot, p.reader.cells[id].value.value);
    assert HopSound(p.reader, p.reader.cells[id].slot, hop);
  }

  /** What a renewal does: the scope becomes the snapshot's, every call made so far falls before the new
      binding, and the source is current right away exactly when nothing blocks. */
  lemma RenewalRebinds(p: Pane)
    requires Rooted(p.reader) && Renews(p)
    ensures
      var q := Revalidate(p);
      && q.boundAt == |p.reader.calls|
      && (q.entry.Some? ==>
            && q.entry.value.scope == p.snapshot.scope.value
            && q.entry.value.id == p.entry.value.id && q.entry.value.origin == p.entry.value.origin
            && (SourceCurrent(q, p.entry.value.id) <==> !p.snapshot.blocked))
  {
    hide Invalidate;
  }

  // ---------------------------------------------------------------------------------------------
  // The binding and the reader

  /** A bound entry and the reader are about the same origin, and the reader's predicate is the entry's. */
  ghost predicate BoundWell(p: Pane) {
    p.entry.Some? ==>
      && p.reader.inbox.Some? && p.reader.inbox.value.origin == p.entry.value.origin
      && p.source == p.entry.value.id && p.reader.sourceCurrent == SourceCurrent(p, p.entry.value.id)
  }

  /** What settling leaves is well bound, if the origins agree while both are there. */
  lemma SettledWell(p: Pane)
    requires p.entry.Some? && p.reader.inbox.Some? ==>
      p.reader.inbox.value.origin == p.entry.value.origin && p.source == p.entry.value.id
    ensures BoundWell(Settled(p))
  {}

  lemma OpenedEntry(v: View, origin: MessageRef, current: bool)
    requires Rooted(v)
    ensures OpenInbox(v, origin, current).inbox == Some(Entry(v.entries, origin))
  {
    hide Refresh;
    F.RefreshKeepsEntry(v.(inbox := Some(Entry(v.entries, origin)), entries := v.entries + 1, sourceCurrent := current,
                           inboxVendor := None, vendor := None, selected := None, visible := true,
                           account := Some(Account(origin.provider, origin.accountId))));
  }

  lemma NextWell(p: Pane, e: Event)
    requires Rooted(p.reader) && BoundWell(p) && Possible(p, e)
    ensures BoundWell(Next(p, e))
  {
    hide OpenInbox, Invalidate, Close, ThreadViews.Next, OnDisplay, Settled;
    match e {
      case SnapshotChanges(s) => SettledWell(p.(snapshot := s));
      case RowOpened(row) =>
        if CanOpen(row, p.snapshot) {
          var b := Bound(p.nextEntry, row.ref, p.snapshot.queryEpoch, p.snapshot.scope.value);
          var q := p.(entry := Some(b), source := b.id, nextEntry := p.nextEntry + 1, boundAt := |p.reader.calls|);
          OpenedEntry(p.reader, row.ref, SourceCurrent(q, b.id));
          SettledWell(q.(reader := OpenInbox(p.reader, row.ref, SourceCurrent(q, b.id))));
        }
      case SpanRevalidated =>
        F.RefreshKeepsEntry(p.reader);
        var q := p.(reader := Invalidate(p.reader));
        if p.entry.Some? {
          SettledWell(q);
          var scope := if p.snapshot.scope.Some? then p.snapshot.scope.value else p.entry.value.scope;
          SettledWell(q.(entry := Some(p.entry.value.(scope := scope)), boundAt := |p.reader.calls|));
        }
      case WentBack => SettledWell(p.(entry := None, reader := Close(p.reader)));
      case RetryPressed =>
      case RetryRefreshed(g) =>
        if SourceCurrent(p, p.retries[g]) {
          OpenedEntry(p.reader, p.entry.value.origin, true);
          SettledWell(p.(retries := p.retries - {g}, source := p.retries[g], reader := OpenInbox(p.reader, p.entry.value.origin, true)));
        }
      case RetryOvertaken =>
      case ReaderEvent(x) =>
        F.EntryStays(p.reader, x);
        SettledWell(p.(reader := ThreadViews.Next(p.reader, x)));
    }
  }

  lemma {:induction false} HistoryWell(p: Pane, events: seq<Event>)
    requires BoundWell(p) && History(p, events)
    ensures BoundWell(After(p, events))
    decreases |events|
  {
    hide BoundWell, Next;
    if events != [] {
      NextWell(p, events[0]);
      HistoryWell(Next(p, events[0]), events[1..]);
    }
  }

  /** Along every run, whatever the entry is bound to is what the reader is opened on, and the reader may read
      exactly when the entry's source is current. */
  lemma ReaderIsOpenOnTheBoundRow(s: Snapshot, events: seq<Event>)
    requires History(Start(s), events)
    ensures
      var p := After(Start(s), events);
      p.entry.Some? ==>
        && p.reader.inbox.Some? && p.reader.inbox.value.origin == p.entry.value.origin
        && p.reader.sourceCurrent == SourceCurrent(p, p.entry.value.id)
  {
    HistoryWell(Start(s), events);
  }

  /** A row opens exactly when the Inbox is configured, in view and unblocked, its rows answer the query and were
      checked under the current scope, and the row is among them.  Then the entry is bound to that row, and one
      call goes out, the resolution of that row's message, unless a mutation holds the reader. */
  lemma RowsOpenIff(p: Pane, row: Row)
    requires Rooted(p.reader)
    ensures
      var s := p.snapshot;
      var q := Open(p, row);
      if s.configured && s.visible && !s.blocked && s.itemsEpoch == Some(s.queryEpoch) && s.scope.Some? && s.scope == s.spanScope
         && exists r :: r in s.items && r.provider == row.ref.provider && r.accountId == row.ref.accountId
                        && r.messageId == row.ref.messageId && r.ref == row.ref
      then
        && q.entry == Some(Bound(p.nextEntry, row.ref, s.queryEpoch, s.scope.value)) && q.boundAt == |p.reader.calls|
        && q.reader.calls == p.reader.calls + (if p.reader.mutations == 0 then [Call(ResolveQuery(row.ref, None), None)] else [])
      else q == p
  {
    if CanOpen(row, p.snapshot) {
      var b := Bound(p.nextEntry, row.ref, p.snapshot.queryEpoch, p.snapshot.scope.value);
      var q := p.(entry := Some(b), source := b.id, nextEntry := p.nextEntry + 1, boundAt := |p.reader.calls|);
      assert SourceCurrent(q, b.id);
      OpenedEntry(p.reader, row.ref, true);
      T.SelectionsAskForThemselves(p.reader, "", None, ThreadItem(ThreadRef("", "", None, ""), false), row.ref, true);
      hide OpenInbox, OnDisplay;
    }
  }

  /** The newest retry of an entry that is current again resolves the bound origin once more; any other end of a
      retry asks for nothing. */
  lemma RetriesOpenTheBoundRow(p: Pane, g: nat)
    requires Rooted(p.reader) && g in p.retries
    ensures
      var q := RetryReturns(p, g);
      if g == p.retryGeneration && SourceCurrent(p, p.retries[g])
      then
        && q.entry == p.entry
        && q.reader.calls == p.reader.calls
             + (if p.reader.mutations == 0 then [Call(ResolveQuery(p.entry.value.origin, None), None)] else [])
      else q == p.(retries := p.retries - {g})
  {
    if g == p.retryGeneration && SourceCurrent(p, p.retries[g]) {
      var origin := p.entry.value.origin;
      OpenedEntry(p.reader, origin, true);
      T.SelectionsAskForThemselves(p.reader, "", None, ThreadItem(ThreadRef("", "", None, ""), false), origin, true);
      hide OpenInbox, OnDisplay;
    }
  }

  /** Going back unbinds the entry and closes the reader. */
  lemma BackUnbinds(p: Pane)
    requires Rooted(p.reader)
    ensures
      var q := Back(p);
      q.entry.None? && T.SelectionOf(q.reader) == T.Selection(None, None, None, None, None) && q.reader.calls == p.reader.calls
  {
    hide Close;
    T.CloseSelectsNothing(p.reader);
  }
}
