/** The reader's guarantees over every run: any interleaving of user actions, mutations, source
    changes, replies, errors and their continuations, from the freshly made reader. */
module ThreadViewTheorems {
  import opened Basics
  import opened ThreadViews
  import opened ThreadViewProofs

  ghost predicate History(v: View, events: seq<Event>)
    decreases |events|
  {
    Rooted(v) && (events == [] || (Possible(v, events[0]) && History(Next(v, events[0]), events[1..])))
  }

  ghost function After(v: View, events: seq<Event>): (w: View)
    requires History(v, events)
    ensures Rooted(w)
    decreases |events|
  {
    if events == [] then v else After(Next(v, events[0]), events[1..])
  }

  lemma {:induction false} HistoryKeeps(v: View, events: seq<Event>)
    requires Inv(v) && History(v, events)
    ensures Inv(After(v, events))
    decreases |events|
  {
    hide Inv;
    if events != [] {
      NextKeeps(v, events[0]);
      HistoryKeeps(Next(v, events[0]), events[1..]);
    }
  }

  lemma Reachable(events: seq<Event>)
    requires History(Initial(), events)
    ensures Inv(After(Initial(), events))
  {
    ClearInv(Initial());
    HistoryKeeps(Initial(), events);
  }

  // ---------------------------------------------------------------------------------------------
  // The content tree

  /** Every body and list of copies belongs to a message on display, and every inventory to a copy on
      display, through opens, closes, retries, load-mores, restarts, errors and late replies. */
  lemma ContentIsATree(events: seq<Event>)
    requires History(Initial(), events)
    ensures
      var v := After(Initial(), events);
      var messages := Items(Value(v, MESSAGES));
      && (forall m :: BodyOf(m) in v.children ==> m in messages)
      && (forall m :: CopiesOf(m) in v.children ==> m in messages)
      && (forall m, c :: InventoryOf(m, c) in v.children ==>
            m in messages && CopiesOf(m) in v.children && c in Items(Value(v, v.children[CopiesOf(m)])))
  {
    Reachable(events);
  }

  // ---------------------------------------------------------------------------------------------
  // Provenance

  /** Whatever a slot holds was asked for by exactly the current selection: every reply that went into
      it answered the query that vendor, account, thread and Inbox origin make now, and it was
      requested after the slot was last cleared. */
  lemma ValuesAnswerTheSelection(events: seq<Event>, id: nat, hop: Hop)
    requires History(Initial(), events)
    requires id in After(Initial(), events).cells && After(Initial(), events).cells[id].value.Some?
    requires hop in After(Initial(), events).cells[id].value.value.trail
    ensures
      var v := After(Initial(), events);
      && Attached(v, id)
      && Floor(v, v.cells[id].slot) <= hop.call < |v.calls|
      && Asked(v, v.cells[id].slot, v.calls[hop.call].query)
  {
    Reachable(events);
    var v := After(Initial(), events);
    assert HeldSound(v, v.cells[id].slot, v.cells[id].value.value);
    assert HopSound(v, v.cells[id].slot, hop);
  }

  /** The thread of a message page, body, copies or inventory query. */
  function ThreadAsked(q: Query): Option<ThreadRef> {
    match q
    case MessagesQuery(s) => Some(s.thread)
    case BodyQuery(s, _) => Some(s.thread)
    case CopiesQuery(s, _) => Some(s.thread)
    case InventoryQuery(s, _, _) => Some(s.thread)
    case _ => None
  }

  /** If every messages page on display names the selected thread, then everything on display below it
      was asked for under the selected thread too. */
  lemma EchoedThreadIsTheSelectedOne(events: seq<Event>, id: nat, hop: Hop)
    requires History(Initial(), events)
    requires id in After(Initial(), events).cells && After(Initial(), events).cells[id].value.Some?
    requires hop in After(Initial(), events).cells[id].value.value.trail
    requires hop.call < |After(Initial(), events).calls|
    requires ThreadAsked(After(Initial(), events).calls[hop.call].query).Some?
    requires After(Initial(), events).selected.Some?
    requires Names(After(Initial(), events)) <= {After(Initial(), events).selected.value.ref}
    ensures
      var v := After(Initial(), events);
      ThreadAsked(v.calls[hop.call].query) == Some(v.selected.value.ref)
  {
    ValuesAnswerTheSelection(events, id, hop);
  }

  /** The events that ask for a body, for copies or for an inventory, first pages and further ones. */
  predicate ReadsBelow(e: Event) {
    e.BodyOpened? || e.CopiesOpened? || e.CopiesLoaded? || e.InventoryOpened? || e.InventoryLoaded?
  }

  /** Exactly one call, under the thread that the messages value names. */
  ghost predicate AsksUnderNamed(v: View, w: View) {
    && Value(v, MESSAGES).Some?
    && |w.calls| == |v.calls| + 1
    && ThreadAsked(w.calls[|v.calls|].query) == ThreadOf(Value(v, MESSAGES).value.reply)
  }

  lemma SelectorIsNamed(v: View, message: string)
    requires MessageSelector(v, message).Some?
    ensures Value(v, MESSAGES).Some?
    ensures Some(MessageSelector(v, message).value.thread) == ThreadOf(Value(v, MESSAGES).value.reply)
  {}

  /** Same messages, same selection: same selector. */
  ghost predicate SameSelectors(v: View, w: View) {
    && Value(w, MESSAGES) == Value(v, MESSAGES) && w.calls == v.calls
    && forall m :: MessageSelector(w, m) == MessageSelector(v, m)
  }

  lemma ReattachedSelects(v: View, doomed: set<Slot>, slot: Slot)
    requires Structure(v)
    ensures SameSelectors(v, Attach(Drop(v, doomed), slot))
  {
    DropFrame(v, doomed);
    hide Drop;
  }

  lemma PageAsks(v: View, id: nat, more: bool, query: Query)
    requires id in v.cells
    ensures var w := PageRead(v, id, more, query);
      w.calls == v.calls || (|w.calls| == |v.calls| + 1 && w.calls[|v.calls|].query == query)
  {
    hide ClearBelow;
    BelowFrame(v, v.cells[id].slot);
  }

  lemma CopiesAsk(v: View, message: string, more: bool)
    ensures var w := LoadCopies(v, message, more); w.calls == v.calls || AsksUnderNamed(v, w)
  {
    hide PageRead, MessageSelector;
    var s := MessageSelector(v, message);
    if s.Some? && CopiesOf(message) in v.children && v.children[CopiesOf(message)] in v.cells {
      SelectorIsNamed(v, message);
      PageAsks(v, v.children[CopiesOf(message)], more, CopiesQuery(s.value, message));
    }
  }

  lemma InventoryAsks(v: View, message: string, copy: string, more: bool)
    ensures var w := LoadInventory(v, message, copy, more); w.calls == v.calls || AsksUnderNamed(v, w)
  {
    hide PageRead, MessageSelector;
    var s := MessageSelector(v, message);
    var slot := InventoryOf(message, copy);
    if s.Some? && slot in v.children && v.children[slot] in v.cells {
      SelectorIsNamed(v, message);
      PageAsks(v, v.children[slot], more, InventoryQuery(s.value, message, copy));
    }
  }

  lemma BodyAsks(v: View, message: string)
    requires Structure(v)
    ensures var w := OpenBody(v, message); w.calls == v.calls || AsksUnderNamed(v, w)
  {
    hide MessageSelector, Drop;
    DropSteady(v, {BodyOf(message)});
    if MessageSelector(v, message).Some? { SelectorIsNamed(v, message); }
  }

  lemma OpenCopiesAsks(v: View, message: string)
    requires Structure(v)
    ensures var w := OpenCopies(v, message); w.calls == v.calls || AsksUnderNamed(v, w)
  {
    hide LoadCopies, Attach, Drop, MessageSelector, Structure, InventorySlots;
    ReattachedSelects(v, {CopiesOf(message)} + InventorySlots(v, message), CopiesOf(message));
    CopiesAsk(Attach(CloseCopies(v, message), CopiesOf(message)), message, false);
  }

  lemma OpenInventoryAsks(v: View, message: string, copy: string)
    requires Structure(v)
    ensures var w := OpenInventory(v, message, copy); w.calls == v.calls || AsksUnderNamed(v, w)
  {
    hide LoadInventory, Attach, Drop, MessageSelector, Structure;
    ReattachedSelects(v, {InventoryOf(message, copy)}, InventoryOf(message, copy));
    InventoryAsks(Attach(CloseInventory(v, message, copy), InventoryOf(message, copy)), message, copy, false);
  }

  lemma BelowAsks(v: View, e: Event)
    requires Structure(v) && Rooted(v) && Possible(v, e) && ReadsBelow(e)
    ensures Next(v, e).calls == v.calls || AsksUnderNamed(v, Next(v, e))
  {
    hide LoadCopies, LoadInventory, OpenBody, OpenCopies, OpenInventory, Structure, AsksUnderNamed;
    match e {
      case BodyOpened(m) => BodyAsks(v, m);
      case CopiesOpened(m) => OpenCopiesAsks(v, m);
      case CopiesLoaded(m, more) => CopiesAsk(v, m, more);
      case InventoryOpened(m, c) => OpenInventoryAsks(v, m, c);
      case InventoryLoaded(m, c, more) => InventoryAsks(v, m, c, more);
    }
  }

  /** The client does not check that echo itself.  Whatever is asked for below the messages, a body, copies
      or an inventory, first page or further one, is asked for under the selected thread if and only if
      the messages value names that thread. */
  lemma BelowAsksForTheSelectedThreadIff(events: seq<Event>, e: Event)
    requires History(Initial(), events) && Possible(After(Initial(), events), e) && ReadsBelow(e)
    requires After(Initial(), events).selected.Some?
    requires Next(After(Initial(), events), e).calls != After(Initial(), events).calls
    ensures
      var v := After(Initial(), events);
      var w := Next(v, e);
      && AsksUnderNamed(v, w)
      && (ThreadAsked(w.calls[|v.calls|].query) == Some(v.selected.value.ref) <==>
            ThreadOf(Value(v, MESSAGES).value.reply) == Some(v.selected.value.ref))
  {
    Reachable(events);
    hide Next, AsksUnderNamed;
    BelowAsks(After(Initial(), events), e);
  }

  /** A reader of vendor `vendor`, in sight, outside the Inbox and not held. */
  predicate ReadsVendor(v: View, vendor: string) {
    Rooted(v) && v.inbox.None? && v.vendor == Some(vendor) && v.visible && v.mutations == 0
  }

  /** The token of a first page of messages. */
  predicate AwaitsMessages(v: View, n: nat) {
    && n in v.waiting && v.waiting[n].rejected.None? && v.waiting[n].cell == MESSAGES && v.waiting[n].previous.None?
    && v.waiting[n].fence.WhileAllowed? && TokenCurrent(v, v.waiting[n])
  }

  lemma LoadedMessagesAsk(x: View, vendor: string, a: ThreadRef)
    requires ReadsVendor(x, vendor) && x.selected == Some(ThreadItem(a, false))
    ensures
      var w := LoadMessages(x, false);
      && ReadsVendor(w, vendor) && w.selected == x.selected
      && w.calls == x.calls + [Call(MessagesQuery(ByVendor(vendor, a, None)), None)]
      && AwaitsMessages(w, |x.calls|)
  {
    hide Drop, ClearBelow;
    ClearSteady(x, x.cells[MESSAGES].slot);
    assert ThreadSelector(x, a) == Some(ByVendor(vendor, a, None));
    var y := ClearBelow(x, x.cells[MESSAGES].slot);
    assert LoadMessages(x, false) == StartRead(y, MESSAGES, false, MessagesQuery(ByVendor(vendor, a, None)), None, false, WhileAllowed);
  }

  lemma OpeningReads(v: View, vendor: string, a: ThreadRef)
    requires ReadsVendor(v, vendor)
    ensures
      var x := Opening(v, ThreadItem(a, false));
      ReadsVendor(x, vendor) && x.selected == Some(ThreadItem(a, false)) && x.calls == v.calls
  {
    hide Drop, ClearChildren;
    var x := v.(selection := v.selection + 1, selected := Some(ThreadItem(a, false)));
    ClearSteady(ResetCell(ResetCell(x, THREADS), MESSAGES), Messages);
  }

  lemma OpenedThreadAsks(v: View, vendor: string, a: ThreadRef)
    requires ReadsVendor(v, vendor)
    ensures
      var w := OpenThread(v, ThreadItem(a, false));
      && ReadsVendor(w, vendor) && w.selected == Some(ThreadItem(a, false))
      && w.calls == v.calls + [Call(MessagesQuery(ByVendor(vendor, a, None)), None)]
      && AwaitsMessages(w, |v.calls|)
  {
    hide Opening, LoadMessages;
    OpeningReads(v, vendor, a);
    LoadedMessagesAsk(Opening(v, ThreadItem(a, false)), vendor, a);
  }

  lemma NamedThreadAsked(v: View, vendor: string, n: nat, b: ThreadRef)
    requires ReadsVendor(v, vendor) && AwaitsMessages(v, n)
    ensures
      var w := Store(v, n, Paged(["m"], None, Some(b)));
      var x := OpenBody(w, "m");
      && Rooted(w) && Rooted(x) && x.selected == v.selected && |x.calls| == |v.calls| + 1
      && ThreadAsked(x.calls[|v.calls|].query) == Some(b)
  {
    hide Drop;
    var w := Store(v, n, Paged(["m"], None, Some(b)));
    assert MessageSelector(w, "m") == Some(ByVendor(vendor, b, None));
    DropSteady(w, {BodyOf("m")});
  }

  /** Four events from the freshly made reader: a vendor, a thread `a`, a page that names `b`, a body. */
  function Misled(vendor: string, a: ThreadRef, b: ThreadRef): seq<Event> {
    [VendorSelected(vendor), ThreadOpened(ThreadItem(a, false)), ReplyArrives(1, Paged(["m"], None, Some(b))), BodyOpened("m")]
  }

  lemma SelectedVendorReads(vendor: string)
    ensures var v := SelectVendor(Initial(), vendor); ReadsVendor(v, vendor) && |v.calls| == 1
  {
    hide Invalidate;
    var x := Initial().(vendor := Some(vendor));
    InvalidateFrame(x);
    var w := Invalidate(x);
    hide ClearBelow;
    BelowFrame(w, w.cells[THREADS].slot);
  }

  /** And the reader does follow a page that names another thread: with thread `a` selected, a messages
      page naming `b` makes the next body be asked for under `b`. */
  lemma UnechoedThreadIsFollowed(vendor: string, a: ThreadRef, b: ThreadRef)
    requires a != b
    ensures History(Initial(), Misled(vendor, a, b))
    ensures
      var w := After(Initial(), Misled(vendor, a, b));
      && w.selected == Some(ThreadItem(a, false))
      && |w.calls| == 3 && ThreadAsked(w.calls[2].query) == Some(b) != Some(a)
  {
    hide SelectVendor, OpenThread, Store, OpenBody;
    var events := Misled(vendor, a, b);
    SelectedVendorReads(vendor);
    var v := Next(Initial(), events[0]);
    OpenedThreadAsks(v, vendor, a);
    var w := Next(v, events[1]);
    NamedThreadAsked(w, vendor, 1, b);
    var x := Next(w, events[2]);
    var y := Next(x, events[3]);
    assert events[1..] == [events[1], events[2], events[3]] && events[1..][1..] == [events[2], events[3]]
      && events[1..][1..][1..] == [events[3]] && events[1..][1..][1..][1..] == [];
    assert History(y, []) && After(y, []) == y;
    assert History(x, events[1..][1..][1..]) && After(x, events[1..][1..][1..]) == y;
    assert History(w, events[1..][1..]) && After(w, events[1..][1..]) == y;
    assert History(v, events[1..]) && After(v, events[1..]) == y;
  }

  // ---------------------------------------------------------------------------------------------
  // Paging

  /** A paged value, vendor choices included, is the concatenation of one chain of replies, from the null
      cursor on, each asked for at the cursor the reply before it left.  Only a resolved thread is no page. */
  lemma PagesFormOneChain(events: seq<Event>, id: nat)
    requires History(Initial(), events)
    requires id in After(Initial(), events).cells && After(Initial(), events).cells[id].value.Some?
    requires !After(Initial(), events).cells[id].value.value.reply.Resolved?
    ensures Chain(After(Initial(), events).calls, After(Initial(), events).cells[id].value.value)
  {
    Reachable(events);
    var v := After(Initial(), events);
    assert HeldSound(v, v.cells[id].slot, v.cells[id].value.value);
  }

  lemma CatchClears(v: View, n: nat, d: Cell)
    requires Inv(v) && n in v.waiting && TokenCurrent(v, v.waiting[n])
    requires d.slot == v.cells[v.waiting[n].cell].slot && d.generation == v.waiting[n].generation
    ensures
      var id := v.waiting[n].cell;
      var x := ClearBelow(SetCell(v.(waiting := v.waiting - {n}), id, d), d.slot);
      && x.cells[id] == d && FenceHolds(x, v.waiting[n].fence) && x.calls == v.calls && x.waiting == v.waiting - {n}
  {
    var u := v.(waiting := v.waiting - {n});
    assert Live(v, n) && Attached(v, v.waiting[n].cell);
    CutCommutes(u, v.waiting[n].cell, d);
  }

  lemma Restarts(v: View, n: nat)
    requires Inv(v) && n in v.waiting && n < |v.calls| && TokenCurrent(v, v.waiting[n]) && v.waiting[n].restartable
    ensures
      var w := Catch(v, n, StaleCursor);
      var k := |v.calls|;
      && w.calls == v.calls + [Call(v.calls[n].query, None)]
      && k in w.waiting && w.waiting[k].cell == v.waiting[n].cell && w.waiting[k].previous.None?
      && !w.waiting[k].restartable && TokenCurrent(w, w.waiting[k])
      && w.cells[v.waiting[n].cell].value.None? && w.cells[v.waiting[n].cell].changed
  {
    var d := v.cells[v.waiting[n].cell].(value := None, changed := true);
    CatchClears(v, n, d);
  }

  lemma FailsOtherwise(v: View, n: nat)
    requires Inv(v) && n in v.waiting && n < |v.calls| && TokenCurrent(v, v.waiting[n]) && !v.waiting[n].restartable
    ensures
      var w := Catch(v, n, StaleCursor);
      w.calls == v.calls && w.cells[v.waiting[n].cell].value.None? && w.cells[v.waiting[n].cell].status == Failed
  {
    var d := v.cells[v.waiting[n].cell].(value := None, status := Failed);
    CatchClears(v, n, d);
  }

  /** A stale cursor leads to one fresh first page: the value goes, the same query goes out once more at
      the null cursor, and the read that waits for it continues nothing and cannot restart again.  A
      reply to it is then all the slot holds. */
  lemma StaleCursorRestartsOnce(events: seq<Event>, n: nat, reply: Reply)
    requires History(Initial(), events)
    requires n in After(Initial(), events).waiting && n < |After(Initial(), events).calls|
    requires TokenCurrent(After(Initial(), events), After(Initial(), events).waiting[n])
    ensures
      var v := After(Initial(), events);
      var id := v.waiting[n].cell;
      var w := Catch(v, n, StaleCursor);
      if v.waiting[n].restartable then
        && w.calls == v.calls + [Call(v.calls[n].query, None)]
        && Value(w, id).None?
        && |v.calls| in w.waiting && !w.waiting[|v.calls|].restartable
        && Value(Store(w, |v.calls|, reply), id) == Some(Held(reply, [Hop(|v.calls|, reply)]))
      else w.calls == v.calls && Value(w, id).None?
  {
    Reachable(events);
    var v := After(Initial(), events);
    hide Inv, Catch;
    if v.waiting[n].restartable { Restarts(v, n); } else { FailsOtherwise(v, n); }
  }

  // ---------------------------------------------------------------------------------------------
  // Late replies

  predicate Stamped(v: View) {
    v.clearedAt <= |v.calls| && v.resolutionClearedAt <= |v.calls|
  }

  datatype Selection = Selection(vendor: Option<string>, account: Option<Account>, thread: Option<ThreadItem>,
                                 inbox: Option<Entry>, chosen: Option<string>)

  function SelectionOf(v: View): Selection {
    Selection(v.vendor, v.account, v.selected, v.inbox, v.inboxVendor)
  }

  /** Calls are never forgotten, the counters of the last clearing only rise, and a changed selection
      means that the content was cleared since. */
  ghost predicate Later(v: View, w: View) {
    && Stamped(w) && v.calls <= w.calls
    && v.clearedAt <= w.clearedAt && v.resolutionClearedAt <= w.resolutionClearedAt
    && (SelectionOf(w) == SelectionOf(v) || |v.calls| <= w.clearedAt)
    && ((w.inbox == v.inbox && w.inboxVendor == v.inboxVendor) || |v.calls| <= w.resolutionClearedAt)
  }

  /** One step is later, and it calls the client only for a reader in sight and not held. */
  ghost predicate Steps(v: View, w: View) {
    Later(v, w) && (|v.calls| < |w.calls| ==> w.visible && w.mutations == 0)
  }

  /** Such a step that leaves the mutation count alone. */
  ghost predicate Rises(v: View, w: View) {
    Steps(v, w) && w.mutations == v.mutations
  }

  /** Same calls, same counters. */
  ghost predicate Steady(v: View, w: View) {
    && w.calls == v.calls && w.clearedAt == v.clearedAt && w.resolutionClearedAt == v.resolutionClearedAt
    && SelectionOf(w) == SelectionOf(v) && w.visible == v.visible && w.mutations == v.mutations
  }

  lemma DropSteady(v: View, doomed: set<Slot>)
    ensures Steady(v, Drop(v, doomed))
  {
  }

  lemma ClearSteady(v: View, slot: Slot)
    ensures Steady(v, ClearChildren(v)) && Steady(v, ClearBelow(v, slot))
  {
    hide Drop;
    DropSteady(v, v.children.Keys);
    if slot.CopiesOf? { DropSteady(v, InventorySlots(v, slot.message)); }
  }

  /** Cleared without a call: the counter stands at the calls made so far. */
  ghost predicate Cleared(v: View, w: View) {
    w.clearedAt == |v.calls| && w.calls == v.calls && w.visible == v.visible && w.mutations == v.mutations
  }

  lemma ContentRises(v: View)
    requires Rooted(v) && Stamped(v)
    ensures Rises(v, ClearContent(v)) && Cleared(v, ClearContent(v)) && SelectionOf(ClearContent(v)) == SelectionOf(v)
  {
    hide Drop, ClearChildren;
    ClearSteady(ResetCell(v, MESSAGES), Messages);
  }

  lemma PageReadRises(v: View, id: nat, more: bool, query: Query)
    requires id in v.cells && Stamped(v)
    ensures Rises(v, PageRead(v, id, more, query))
  {
    hide Drop, ClearBelow;
    ClearSteady(v, v.cells[id].slot);
  }

  lemma LoadsRise(v: View, more: bool)
    requires Rooted(v) && Stamped(v)
    ensures Rises(v, LoadThreads(v, more)) && Rises(v, LoadMessages(v, more))
  {
    hide PageRead;
    if v.vendor.Some? { PageReadRises(v, THREADS, more, ListQuery(v.vendor.value, v.account)); }
    if v.selected.Some? && ThreadSelector(v, v.selected.value.ref).Some? {
      PageReadRises(v, MESSAGES, more, MessagesQuery(ThreadSelector(v, v.selected.value.ref).value));
    }
  }

  lemma ResolveRises(v: View, more: bool)
    requires Rooted(v) && Stamped(v)
    ensures Rises(v, ResolveInbox(v, more))
  {
    hide Drop, ClearContent;
    ContentRises(v.(selection := v.selection + 1, vendor := None, selected := None));
  }

  lemma InvalidateRises(v: View)
    requires Rooted(v) && Stamped(v)
    ensures Rises(v, Invalidate(v)) && Cleared(v, Invalidate(v)) && Invalidate(v).resolutionClearedAt == |v.calls|
  {
    hide Drop, ClearChildren;
    ClearSteady(ResetRoots(v), Messages);
  }

  lemma RefreshRises(v: View)
    requires Rooted(v) && Stamped(v)
    ensures Rises(v, Refresh(v)) && Rises(v, Invalidate(v))
    ensures |v.calls| <= Refresh(v).clearedAt && |v.calls| <= Invalidate(v).clearedAt
    ensures |v.calls| <= Refresh(v).resolutionClearedAt && |v.calls| <= Invalidate(v).resolutionClearedAt
  {
    hide LoadThreads, LoadMessages, ResolveInbox, Invalidate;
    InvalidateRises(v);
    LoadsRise(Invalidate(v), false);
    ResolveRises(Invalidate(v), false);
  }

  lemma ChooseVendorRises(v: View, vendor: string)
    requires Rooted(v) && Stamped(v)
    ensures Rises(v, ChooseVendor(v, vendor))
  {
    hide Invalidate, ResolveInbox;
    InvalidateRises(v.(inboxVendor := Some(vendor)));
    ResolveRises(Invalidate(v.(inboxVendor := Some(vendor))), false);
  }

  lemma CloseRises(v: View)
    requires Rooted(v) && Stamped(v)
    ensures Rises(v, Close(v)) && Rises(v, Suspend(v))
  {
    hide Invalidate;
    InvalidateRises(v.(visible := false));
    InvalidateRises(v.(inbox := None, inboxVendor := None, vendor := None, selected := None, account := None, visible := false));
  }

  lemma InboxOpenRises(v: View, origin: MessageRef, current: bool)
    requires Rooted(v) && Stamped(v)
    ensures Rises(v, OpenInbox(v, origin, current))
  {
    hide Refresh;
    RefreshRises(v.(inbox := Some(Entry(v.entries, origin)), entries := v.entries + 1, sourceCurrent := current,
                    inboxVendor := None, vendor := None, selected := None, visible := true,
                    account := Some(Account(origin.provider, origin.accountId))));
  }

  lemma VendorRises(v: View, vendor: string)
    requires Rooted(v) && Stamped(v)
    ensures Rises(v, SelectVendor(v, vendor))
  {
    hide Refresh;
    RefreshRises(v.(inbox := None, inboxVendor := None, vendor := Some(vendor), account := None, selected := None, visible := true));
  }

  lemma AccountRises(v: View, account: Option<Account>)
    requires Rooted(v) && Stamped(v)
    ensures Rises(v, SelectAccount(v, account))
  {
    hide Refresh;
    RefreshRises(v.(account := account, selected := None));
  }

  lemma BackRises(v: View)
    requires Rooted(v) && Stamped(v)
    ensures Rises(v, BackToThreads(v)) && Rises(v, Resume(v))
  {
    hide Refresh, Close;
    RefreshRises(v.(selected := None));
    RefreshRises(v.(visible := true));
    CloseRises(v);
  }

  lemma MutationRises(v: View, refresh: bool)
    requires Rooted(v) && Stamped(v)
    ensures Steps(v, BeginMutation(v)) && BeginMutation(v).mutations == v.mutations + 1
    ensures Steps(v, EndMutation(v, refresh))
    ensures EndMutation(v, refresh).mutations == if v.mutations == 0 then 0 else v.mutations - 1
  {
    hide Refresh, Invalidate;
    InvalidateRises(v.(mutations := v.mutations + 1));
    RefreshRises(v.(mutations := if v.mutations == 0 then 0 else v.mutations - 1));
  }

  lemma StoreRises(v: View, n: nat, reply: Reply)
    requires Stamped(v) && n in v.waiting
    ensures Rises(v, Store(v, n, reply))
  {
  }

  lemma BodyRises(v: View, message: string)
    requires Stamped(v)
    ensures Rises(v, OpenBody(v, message)) && Rises(v, CloseBody(v, message))
  {
    hide Drop;
    DropSteady(v, {BodyOf(message)});
  }

  lemma CopiesRise(v: View, message: string, more: bool)
    requires Stamped(v)
    ensures Rises(v, LoadCopies(v, message, more))
  {
    hide PageRead;
    if MessageSelector(v, message).Some? && CopiesOf(message) in v.children && v.children[CopiesOf(message)] in v.cells {
      PageReadRises(v, v.children[CopiesOf(message)], more, CopiesQuery(MessageSelector(v, message).value, message));
    }
  }

  lemma OpenCopiesRises(v: View, message: string)
    requires Stamped(v)
    ensures Rises(v, OpenCopies(v, message)) && Rises(v, CloseCopies(v, message))
  {
    hide Drop, LoadCopies;
    DropSteady(v, {CopiesOf(message)} + InventorySlots(v, message));
    CopiesRise(Attach(CloseCopies(v, message), CopiesOf(message)), message, false);
  }

  lemma InventoryRises(v: View, message: string, copy: string, more: bool)
    requires Stamped(v)
    ensures Rises(v, LoadInventory(v, message, copy, more))
  {
    hide PageRead;
    var slot := InventoryOf(message, copy);
    if MessageSelector(v, message).Some? && slot in v.children && v.children[slot] in v.cells {
      PageReadRises(v, v.children[slot], more, InventoryQuery(MessageSelector(v, message).value, message, copy));
    }
  }

  lemma OpenInventoryRises(v: View, message: string, copy: string)
    requires Stamped(v)
    ensures Rises(v, OpenInventory(v, message, copy)) && Rises(v, CloseInventory(v, message, copy))
  {
    hide Drop, LoadInventory;
    DropSteady(v, {InventoryOf(message, copy)});
    InventoryRises(Attach(CloseInventory(v, message, copy), InventoryOf(message, copy)), message, copy, false);
  }

  lemma CatchRises(v: View, n: nat, code: Code)
    requires Stamped(v) && n in v.waiting && n < |v.calls|
    ensures Rises(v, Catch(v, n, code))
  {
    hide Drop, ClearBelow;
    var t := v.waiting[n];
    if TokenCurrent(v, t) {
      var c := v.cells[t.cell];
      var d := if t.restartable && code == StaleCursor then c.(value := None, changed := true) else c.(value := None, status := Failed);
      ClearSteady(v.(waiting := v.waiting - {n}, cells := v.cells[t.cell := d]), c.slot);
    }
  }

  lemma GuardRises(v: View, n: nat, code: Code)
    requires Rooted(v) && Stamped(v) && n in v.waiting && v.waiting[n].guard.Some?
    ensures Rises(v, GuardTrips(v, n, code))
  {
    hide Invalidate;
    InvalidateRises(v.(waiting := v.waiting[n := v.waiting[n].(rejected := Some(code))]));
  }

  lemma ThreadRises(v: View, thread: ThreadItem)
    requires Rooted(v) && Stamped(v)
    ensures Rises(v, OpenThread(v, thread))
  {
    hide ClearContent, LoadMessages;
    ContentRises(ResetCell(v.(selection := v.selection + 1, selected := Some(thread)), THREADS));
    LoadsRise(Opening(v, thread), false);
  }

  lemma AfterResolveRises(v: View, selection: nat)
    requires Rooted(v) && Stamped(v) && selection in v.resuming
    ensures Rises(v, AfterResolve(v, selection))
  {
    hide ClearContent, LoadMessages;
    var c := v.cells[RESOLUTION];
    if c.value.Some? && c.value.value.reply.Resolved? {
      var r := c.value.value.reply;
      var w := v.(resuming := v.resuming - {selection}, selected := Some(r.selected), vendor := r.vendor);
      ContentRises(w);
      LoadsRise(ClearContent(w), false);
    }
  }

  lemma SourceRises(v: View, current: bool)
    requires Stamped(v)
    ensures Rises(v, v.(sourceCurrent := current))
  {}

  predicate Selects(e: Event) {
    e.InboxOpened? || e.AccountSelected? || e.ThreadsAgain? || e.Resumed? || e.VendorChosen? || e.VendorSelected?
    || e.ThreadOpened? || e.Closed? || e.Suspended? || e.InboxResolved? || e.Refreshed? || e.Invalidated? || e.SourceChanges?
  }

  predicate Settles(e: Event) {
    e.ReplyArrives? || e.CallFails? || e.RejectionArrives? || e.ResolutionResumes?
  }

  lemma SelectionRises(v: View, e: Event)
    requires Rooted(v) && Possible(v, e) && Stamped(v) && Selects(e)
    ensures Rises(v, Next(v, e))
  {
    hide Rises;
    match e {
      case InboxOpened(origin, current) => InboxOpenRises(v, origin, current);
      case VendorSelected(vendor) => VendorRises(v, vendor);
      case AccountSelected(account) => AccountRises(v, account);
      case ThreadsAgain => BackRises(v);
      case Resumed => BackRises(v);
      case _ => OtherSelectionRises(v, e);
    }
  }

  lemma OtherSelectionRises(v: View, e: Event)
    requires Rooted(v) && Possible(v, e) && Stamped(v)
    requires e.InboxResolved? || e.VendorChosen? || e.ThreadOpened? || e.Closed? || e.Suspended? || e.SourceChanges?
             || e.Refreshed? || e.Invalidated?
    ensures Rises(v, Next(v, e))
  {
    hide Rises, ResolveInbox, ChooseVendor, OpenThread, Close, Suspend, Refresh, Invalidate;
    match e {
      case InboxResolved(more) => ResolveRises(v, more);
      case VendorChosen(vendor) => ChooseVendorRises(v, vendor);
      case ThreadOpened(thread) => ThreadRises(v, thread);
      case Closed => CloseRises(v);
      case Suspended => CloseRises(v);
      case SourceChanges(current) => SourceRises(v, current);
      case Refreshed => RefreshRises(v);
      case Invalidated => RefreshRises(v);
    }
  }

  lemma SettlementRises(v: View, e: Event)
    requires Rooted(v) && Possible(v, e) && Stamped(v) && Settles(e)
    ensures Rises(v, Next(v, e))
  {
    hide Rises;
    match e {
      case ReplyArrives(n, reply) => StoreRises(v, n, reply);
      case CallFails(n, code) => if v.waiting[n].guard.Some? { GuardRises(v, n, code); } else { CatchRises(v, n, code); }
      case RejectionArrives(n) => CatchRises(v, n, v.waiting[n].rejected.value);
      case ResolutionResumes(s) => AfterResolveRises(v, s);
    }
  }

  lemma ReadRises(v: View, e: Event)
    requires Rooted(v) && Possible(v, e) && Stamped(v)
    requires !Selects(e) && !Settles(e) && !e.MutationBegins? && !e.MutationEnds?
    ensures Rises(v, Next(v, e))
  {
    hide Rises;
    match e {
      case ThreadsLoaded(more) => LoadsRise(v, more);
      case MessagesLoaded(more) => LoadsRise(v, more);
      case BodyOpened(m) => BodyRises(v, m);
      case BodyClosed(m) => BodyRises(v, m);
      case CopiesOpened(m) => OpenCopiesRises(v, m);
      case CopiesLoaded(m, more) => CopiesRise(v, m, more);
      case CopiesClosed(m) => OpenCopiesRises(v, m);
      case InventoryOpened(m, c) => OpenInventoryRises(v, m, c);
      case InventoryLoaded(m, c, more) => InventoryRises(v, m, c, more);
      case InventoryClosed(m, c) => OpenInventoryRises(v, m, c);
    }
  }

  lemma NextRises(v: View, e: Event)
    requires Rooted(v) && Possible(v, e) && Stamped(v)
    ensures Steps(v, Next(v, e))
    ensures !e.MutationBegins? && !e.MutationEnds? ==> Rises(v, Next(v, e)) && Next(v, e).mutations == v.mutations
  {
    hide Steps;
    if e.MutationBegins? {
      MutationRises(v, false);
    } else if e.MutationEnds? {
      MutationRises(v, e.refresh);
    } else {
      if Selects(e) { SelectionRises(v, e); } else if Settles(e) { SettlementRises(v, e); } else { ReadRises(v, e); }
      assert Rises(v, Next(v, e));
      hide Next;
    }
  }

  lemma {:induction false} HistoryRises(v: View, events: seq<Event>)
    requires Inv(v) && History(v, events)
    ensures Later(v, After(v, events))
    decreases |events|
  {
    if events != [] {
      NextRises(v, events[0]);
      NextKeeps(v, events[0]);
      HistoryRises(Next(v, events[0]), events[1..]);
    }
  }

  /** The step leaves what the slot was asking for: for the resolution, the Inbox entry or the vendor
      chosen in it; for all below, any part of the selection.  An invalidation leaves both. */
  predicate Leaves(v: View, e: Event, slot: Slot)
    requires Rooted(v) && Possible(v, e)
  {
    var x := Next(v, e);
    e.Invalidated?
    || (if slot.Resolution? then x.inbox != v.inbox || x.inboxVendor != v.inboxVendor
        else SelectionOf(x) != SelectionOf(v))
  }

  /** No late reply is ever stored.  Whatever the reader comes to hold in a slot, at any later time, was
      requested after every step that left what the slot was asking for, so that a reply requested
      under an earlier selection never shows, even if the same selection has come back since. */
  lemma LateRepliesNeverStored(events: seq<Event>, e: Event, more: seq<Event>, id: nat, hop: Hop)
    requires History(Initial(), events) && Possible(After(Initial(), events), e)
    requires History(Next(After(Initial(), events), e), more)
    requires
      var w := After(Next(After(Initial(), events), e), more);
      && id in w.cells && w.cells[id].value.Some? && hop in w.cells[id].value.value.trail
      && Leaves(After(Initial(), events), e, w.cells[id].slot)
    ensures |After(Initial(), events).calls| <= hop.call
  {
    hide Inv, Next;
    Reachable(events);
    var v := After(Initial(), events);
    assert Stamped(v) by { StampedReachable(v); }
    NextRises(v, e);
    InvalidatedClears(v, e);
    NextKeeps(v, e);
    var x := Next(v, e);
    HistoryRises(x, more);
    HistoryKeeps(x, more);
    HopFloor(After(x, more), id, hop);
  }

  lemma StampedReachable(v: View)
    requires Inv(v)
    ensures Stamped(v)
  {
  }

  lemma InvalidatedClears(v: View, e: Event)
    requires Rooted(v) && Possible(v, e) && Stamped(v)
    ensures e.Invalidated? ==> |v.calls| <= Next(v, e).clearedAt && |v.calls| <= Next(v, e).resolutionClearedAt
  {
    hide Invalidate;
    InvalidateRises(v);
  }

  lemma HopFloor(v: View, id: nat, hop: Hop)
    requires Inv(v) && id in v.cells && v.cells[id].value.Some?
    requires hop in v.cells[id].value.value.trail
    ensures Floor(v, v.cells[id].slot) <= hop.call
  {
    assert HeldSound(v, v.cells[id].slot, v.cells[id].value.value);
    assert HopSound(v, v.cells[id].slot, hop);
  }

  // ---------------------------------------------------------------------------------------------
  // Hidden and held readers

  lemma HushedIsBlank(v: View)
    requires Inv(v) && (!v.visible || v.mutations > 0)
    ensures v.children == map[]
    ensures forall id :: id in v.cells ==> v.cells[id].value.None?
  {
    forall id | id in v.cells ensures v.cells[id].value.None? {
      assert v.cells[id].value.Some? ==> Attached(v, id);
    }
  }

  /** A reader that is hidden, or held by a mutation, shows nothing at all, and no step that leaves it so
      calls the client. */
  lemma HiddenOrHeldShowsNothing(events: seq<Event>, e: Event)
    requires History(Initial(), events) && Possible(After(Initial(), events), e)
    ensures
      var v := After(Initial(), events);
      && (!v.visible || v.mutations > 0 ==> v.children == map[] && forall id :: id in v.cells ==> v.cells[id].value.None?)
      && (!Next(v, e).visible || Next(v, e).mutations > 0 ==> Next(v, e).calls == v.calls)
  {
    hide Inv, Next;
    Reachable(events);
    var v := After(Initial(), events);
    assert Stamped(v) by { StampedReachable(v); }
    if !v.visible || v.mutations > 0 { HushedIsBlank(v); }
    NextRises(v, e);
  }

  // ---------------------------------------------------------------------------------------------
  // What each selection asks for

  /** The one call a fresh start makes for the selection in place. */
  function FirstCall(v: View): seq<Call> {
    if !Allowed(v) then []
    else if v.inbox.Some? then [Call(ResolveQuery(v.inbox.value.origin, v.inboxVendor), None)]
    else if v.selected.Some?
    then [Call(MessagesQuery(ByVendor(v.vendor.value, v.selected.value.ref, None)), None)]
    else [Call(ListQuery(v.vendor.value, v.account), None)]
  }

  lemma ClearFrame(v: View)
    ensures ClearChildren(v) == v.(cells := ClearChildren(v).cells, children := ClearChildren(v).children)
  {}

  lemma InvalidateFrame(v: View)
    requires Rooted(v)
    ensures var w := Invalidate(v);
      && w.calls == v.calls && Allowed(w.(vendor := v.vendor)) == Allowed(v)
      && SelectionOf(w) == if v.inbox.Some? then SelectionOf(v).(vendor := None, thread := None) else SelectionOf(v)
  {
    hide ClearChildren, ResetRoots;
    ClearFrame(ResetRoots(v));
    RootsFrame(v);
  }

  lemma RootsFrame(v: View)
    requires Rooted(v)
    ensures ResetRoots(v) == v.(cells := ResetRoots(v).cells)
  {}

  /** Refreshing makes exactly one call, for the first page of what is selected, or none when not allowed;
      outside the Inbox the selection stays, and in the Inbox the thread is to be resolved anew. */
  lemma RefreshAsksOnce(v: View)
    requires Rooted(v)
    ensures Refresh(v).calls == v.calls + FirstCall(v)
    ensures v.inbox.None? ==> SelectionOf(Refresh(v)) == SelectionOf(v)
    ensures v.inbox.Some? ==> SelectionOf(Refresh(v)) == SelectionOf(v).(vendor := None, thread := None)
  {
    hide Invalidate, ResolveInbox, LoadMessages, LoadThreads;
    InvalidateFrame(v);
    var w := Invalidate(v);
    if w.inbox.Some? { ResolveAsksOnce(w); }
    else if w.selected.Some? { MessagesAskOnce(w); }
    else { ListAsksOnce(w); }
  }

  lemma ListAsksOnce(w: View)
    requires Rooted(w) && w.inbox.None? && w.selected.None?
    ensures LoadThreads(w, false).calls == w.calls + FirstCall(w) && SelectionOf(LoadThreads(w, false)) == SelectionOf(w)
  {
    hide ClearBelow;
    BelowFrame(w, w.cells[THREADS].slot);
  }

  lemma BelowFrame(v: View, slot: Slot)
    ensures ClearBelow(v, slot) == v.(cells := ClearBelow(v, slot).cells, children := ClearBelow(v, slot).children)
  {}

  lemma MessagesAskOnce(w: View)
    requires Rooted(w) && w.inbox.None? && w.selected.Some?
    ensures LoadMessages(w, false).calls == w.calls + FirstCall(w) && SelectionOf(LoadMessages(w, false)) == SelectionOf(w)
  {
    hide ClearBelow;
    BelowFrame(w, w.cells[MESSAGES].slot);
  }

  lemma ResolveAsksOnce(w: View)
    requires Rooted(w) && w.inbox.Some?
    ensures ResolveInbox(w, false).calls == w.calls + FirstCall(w)
    ensures SelectionOf(ResolveInbox(w, false)) ==
      if Allowed(w) then SelectionOf(w).(vendor := None, thread := None) else SelectionOf(w)
  {
    hide ClearChildren, ResetCell;
    var x := w.(selection := w.selection + 1, vendor := None, selected := None);
    assert ResetCell(x, MESSAGES) == x.(cells := ResetCell(x, MESSAGES).cells) by { ResetFrame(x, MESSAGES); }
    ClearFrame(ResetCell(x, MESSAGES));
  }

  lemma ResetFrame(v: View, id: nat)
    requires id in v.cells
    ensures ResetCell(v, id) == v.(cells := ResetCell(v, id).cells)
  {}

  /** Each way to select something leaves exactly that selected and asks for its first page. */
  lemma SelectionsAskForThemselves(v: View, vendor: string, account: Option<Account>, thread: ThreadItem, origin: MessageRef, current: bool)
    requires Rooted(v)
    ensures
      var w := SelectVendor(v, vendor);
      && SelectionOf(w) == Selection(Some(vendor), None, None, None, None)
      && w.calls == v.calls + (if v.mutations == 0 then [Call(ListQuery(vendor, None), None)] else [])
    ensures v.inbox.None? ==>
      var w := SelectAccount(v, account);
      && SelectionOf(w) == SelectionOf(v).(account := account, thread := None)
      && w.calls == v.calls + (if Allowed(v) then [Call(ListQuery(v.vendor.value, account), None)] else [])
    ensures v.inbox.None? ==>
      var w := OpenThread(v, thread);
      && SelectionOf(w) == SelectionOf(v).(thread := Some(thread))
      && w.calls == v.calls + (if Allowed(v) then [Call(MessagesQuery(ByVendor(v.vendor.value, thread.ref, None)), None)] else [])
    ensures
      var w := OpenInbox(v, origin, current);
      && SelectionOf(w) == Selection(None, Some(Account(origin.provider, origin.accountId)), None, Some(Entry(v.entries, origin)), None)
      && w.calls == v.calls + (if v.mutations == 0 && current then [Call(ResolveQuery(origin, None), None)] else [])
    ensures SelectionOf(Close(v)) == Selection(None, None, None, None, None) && Close(v).calls == v.calls
  {
    hide Refresh, Invalidate, LoadMessages, ClearContent;
    RefreshAsksOnce(v.(inbox := None, inboxVendor := None, vendor := Some(vendor), account := None, selected := None, visible := true));
    RefreshAsksOnce(v.(account := account, selected := None));
    RefreshAsksOnce(v.(inbox := Some(Entry(v.entries, origin)), entries := v.entries + 1, sourceCurrent := current,
                       inboxVendor := None, vendor := None, selected := None, visible := true,
                       account := Some(Account(origin.provider, origin.accountId))));
    OpeningSelects(v, thread);
    if v.inbox.None? { MessagesAskOnce(Opening(v, thread)); }
    CloseSelectsNothing(v);
  }

  lemma OpeningSelects(v: View, thread: ThreadItem)
    requires Rooted(v)
    ensures var w := Opening(v, thread);
      && Rooted(w) && w.calls == v.calls && Allowed(w) == Allowed(v) && w.vendor == v.vendor
      && SelectionOf(w) == SelectionOf(v).(thread := Some(thread))
  {
    hide ClearChildren;
    ClearFrame(ResetCell(ResetCell(v.(selection := v.selection + 1, selected := Some(thread)), THREADS), MESSAGES));
  }

  lemma CloseSelectsNothing(v: View)
    requires Rooted(v)
    ensures SelectionOf(Close(v)) == Selection(None, None, None, None, None) && Close(v).calls == v.calls
  {
    hide Invalidate;
    InvalidateFrame(v.(inbox := None, inboxVendor := None, vendor := None, selected := None, account := None, visible := false));
  }
}
