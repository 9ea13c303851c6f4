/** The Inbox and the thread entry together: after every step the entry sees the Inbox as it is, and a
    committed span renews the entry's binding in the same step. */
module InboxThreadWiring {
  import opened Basics
  import P = InboxPaging
  import M = MailboxScopes
  import E = InboxThreadEntries
  import V = ThreadViews
  import VP = ThreadViewProofs

  /** `visible` is whether the Inbox is the view in front, `held` whether any mutation holds the readers. */
  datatype Client = Client(inbox: P.Inbox, pane: E.Pane, visible: bool, held: bool)

  /** The rows as the entry reads them: the Inbox's rows by message id, with their references. */
  predicate ShowsRows(p: P.Inbox, rows: seq<E.Row>) {
    |rows| == |p.items| && forall i :: 0 <= i < |rows| ==> rows[i].messageId == p.items[i].id
  }

  function SnapshotOf(p: P.Inbox, visible: bool, held: bool, rows: seq<E.Row>): E.Snapshot {
    E.Snapshot(p.configured, visible, P.Blocked(p) || held, p.epoch, p.itemsEpoch, rows, M.CurrentScope(p.mail), p.spanScope)
  }

  /** An Inbox step, with the rows' references after it; the view being shown, hidden, held or
      released; or the entry's own. */
  datatype Event =
    | InboxStep(e: P.Event, rows: seq<E.Row>)
    | ViewChanges(visible: bool, held: bool)
    | EntryStep(x: E.Event)

  predicate Possible(c: Client, e: Event) {
    match e
    case InboxStep(x, rows) => P.Possible(c.inbox, x) && ShowsRows(P.Next(c.inbox, x), rows)
    case ViewChanges(_, _) => true
    case EntryStep(x) => E.Possible(c.pane, x) && !x.SnapshotChanges? && !x.SpanRevalidated?
  }

  function Next(c: Client, e: Event): Client
    requires V.Rooted(c.pane.reader) && Possible(c, e)
  {
    match e
    case InboxStep(x, rows) =>
      var inbox := P.Next(c.inbox, x);
      var pane := E.Next(c.pane, E.SnapshotChanges(SnapshotOf(inbox, c.visible, c.held, rows)));
      c.(inbox := inbox, pane := if |inbox.commits| > |c.inbox.commits| then E.Revalidate(pane) else pane)
    case ViewChanges(visible, held) =>
      c.(visible := visible, held := held,
         pane := E.Next(c.pane, E.SnapshotChanges(SnapshotOf(c.inbox, visible, held, c.pane.snapshot.items))))
    case EntryStep(x) => c.(pane := E.Next(c.pane, x))
  }

  function Start(): Client {
    Client(P.Initial(), E.Start(SnapshotOf(P.Initial(), false, false, [])), false, false)
  }

  ghost predicate History(c: Client, events: seq<Event>)
    decreases |events|
  {
    V.Rooted(c.pane.reader) && (events == [] || (Possible(c, events[0]) && History(Next(c, events[0]), events[1..])))
  }

  ghost function After(c: Client, events: seq<Event>): Client
    requires History(c, events)
    decreases |events|
  {
    if events == [] then c else After(Next(c, events[0]), events[1..])
  }

  /** The entry sees the Inbox as it is. */
  ghost predicate SeesInbox(c: Client) {
    var s := c.pane.snapshot;
    s == SnapshotOf(c.inbox, c.visible, c.held, s.items) && ShowsRows(c.inbox, s.items)
  }

  ghost predicate Inv(c: Client) {
    P.Inv(c.inbox) && E.Sound(c.pane) && E.BoundWell(c.pane) && SeesInbox(c)
  }

  /** The entry's own steps read the Inbox and leave it alone. */
  lemma EntryKeepsSnapshot(p: E.Pane, x: E.Event)
    requires V.Rooted(p.reader) && E.Possible(p, x)
    ensures E.Next(p, x).snapshot == if x.SnapshotChanges? then x.snapshot else p.snapshot
  {
    hide V.Next, V.OpenInbox, V.Invalidate, V.Close;
  }

  lemma NextKeeps(c: Client, e: Event)
    requires Inv(c) && Possible(c, e)
    ensures Inv(Next(c, e))
  {
    hide P.Inv, E.Sound, E.BoundWell, E.Next, P.Next, P.Possible, E.Revalidate;
    assert V.Rooted(c.pane.reader) by { SoundIsRooted(c.pane); }
    match e {
      case InboxStep(x, rows) =>
        P.NextKeeps(c.inbox, x);
        var inbox := P.Next(c.inbox, x);
        var seen := E.SnapshotChanges(SnapshotOf(inbox, c.visible, c.held, rows));
        E.NextKeepsPane(c.pane, seen);
        E.NextWell(c.pane, seen);
        EntryKeepsSnapshot(c.pane, seen);
        var pane := E.Next(c.pane, seen);
        SoundIsRooted(pane);
        E.RevalidateKeeps(pane);
        RevalidateWell(pane);
        RevalidateKeepsSnapshot(pane);
      case ViewChanges(visible, held) =>
        var seen := E.SnapshotChanges(SnapshotOf(c.inbox, visible, held, c.pane.snapshot.items));
        E.NextKeepsPane(c.pane, seen);
        E.NextWell(c.pane, seen);
        EntryKeepsSnapshot(c.pane, seen);
      case EntryStep(x) =>
        E.NextKeepsPane(c.pane, x);
        E.NextWell(c.pane, x);
        EntryKeepsSnapshot(c.pane, x);
    }
  }

  lemma SoundIsRooted(p: E.Pane)
    requires E.Sound(p)
    ensures V.Rooted(p.reader)
  {
    hide VP.Inv;
  }

  lemma RevalidateWell(p: E.Pane)
    requires V.Rooted(p.reader) && E.BoundWell(p)
    ensures E.BoundWell(E.Revalidate(p))
  {
    hide E.BoundWell, E.Revalidate;
    E.NextWell(p, E.SpanRevalidated);
  }

  lemma RevalidateKeepsSnapshot(p: E.Pane)
    requires V.Rooted(p.reader)
    ensures E.Revalidate(p).snapshot == p.snapshot
  {
    hide V.Invalidate;
  }

  lemma {:induction false} HistoryKeeps(c: Client, events: seq<Event>)
    requires Inv(c) && History(c, events)
    ensures Inv(After(c, events))
    decreases |events|
  {
    hide Inv, Next;
    if events != [] {
      NextKeeps(c, events[0]);
      HistoryKeeps(Next(c, events[0]), events[1..]);
    }
  }

  lemma StartInv()
    ensures Inv(Start())
  {
    hide E.Sound;
    E.StartSound(SnapshotOf(P.Initial(), false, false, []));
  }

  /** The Inbox is in view and unblocked, and the bound message is one of its rows, requested under the current
      query epoch and the current mailbox scope. */
  ghost predicate VouchesFor(c: Client, b: E.Bound) {
    var scope := M.CurrentScope(c.inbox.mail);
    && c.inbox.configured && c.visible && !c.held && !P.Blocked(c.inbox)
    && b.epoch == c.inbox.epoch && scope == Some(b.scope)
    && exists row :: row in c.inbox.items && row.id == b.origin.messageId && row.epoch == c.inbox.epoch && row.scope == scope
  }

  /** Whenever the reader's source is current, the Inbox vouches for the bound message, the reader is open on that
      very message, every resolution on display was asked for it, and whatever the reader shows was requested
      after the binding. */
  lemma CurrentSourceIsVouchedFor(events: seq<Event>, id: nat)
    requires History(Start(), events) && E.SourceCurrent(After(Start(), events).pane, id)
    ensures
      var c := After(Start(), events);
      var v := c.pane.reader;
      && VouchesFor(c, c.pane.entry.value)
      && v.inbox.Some? && v.inbox.value.origin == c.pane.entry.value.origin
      && (forall k, hop :: k in v.cells && v.cells[k].value.Some? && hop in v.cells[k].value.value.trail ==>
            && c.pane.boundAt <= hop.call < |v.calls|
            && (v.calls[hop.call].query.ResolveQuery? ==> v.calls[hop.call].query.origin == c.pane.entry.value.origin))
  {
    hide VP.Inv;
    StartInv();
    HistoryKeeps(Start(), events);
    var c := After(Start(), events);
    var v := c.pane.reader;
    forall k, hop | k in v.cells && v.cells[k].value.Some? && hop in v.cells[k].value.value.trail
      ensures c.pane.boundAt <= hop.call < |v.calls|
      ensures v.calls[hop.call].query.ResolveQuery? ==> v.calls[hop.call].query.origin == v.inbox.value.origin
    {
      E.HopCleared(c.pane, k, hop);
      HopAnswers(c.pane, k, hop);
    }
    VouchedFor(c, id);
  }

  /** A displayed resolution is one of the origin the reader is open on. */
  lemma HopAnswers(p: E.Pane, k: nat, hop: V.Hop)
    requires E.Sound(p) && k in p.reader.cells && p.reader.cells[k].value.Some? && hop in p.reader.cells[k].value.value.trail
    ensures hop.call < |p.reader.calls|
    ensures p.reader.calls[hop.call].query.ResolveQuery? ==>
      p.reader.inbox.Some? && p.reader.calls[hop.call].query.origin == p.reader.inbox.value.origin
  {
    assert VP.HeldSound(p.reader, p.reader.cells[k].slot, p.reader.cells[k].value.value);
    assert VP.HopSound(p.reader, p.reader.cells[k].slot, hop);
  }

  lemma VouchedFor(c: Client, id: nat)
    requires Inv(c) && E.SourceCurrent(c.pane, id)
    ensures VouchesFor(c, c.pane.entry.value)
  {
    hide VP.Inv;
    var s := c.pane.snapshot;
    var origin := c.pane.entry.value.origin;
    var shown :| shown in s.items && shown.messageId == origin.messageId;
    var i :| 0 <= i < |s.items| && s.items[i] == shown;
    var row := c.inbox.items[i];
    assert row in c.inbox.items && row.id == origin.messageId;
    assert P.SpanVouched(c.inbox) && P.RowsOfOneEpoch(c.inbox);
  }
}
