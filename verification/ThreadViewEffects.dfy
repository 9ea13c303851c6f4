/** What each operation of the reader leads to: the selection it leaves, the calls it makes and no others, and
    what becomes of a reply.  The invariant says that nothing wrong is shown; this says that the right thing
    is asked for and shown. */
module ThreadViewEffects {
  import opened Basics
  import opened ThreadViews
  import opened ThreadViewProofs
  import opened ThreadViewTheorems

  // ---------------------------------------------------------------------------------------------
  // Selections

  /** The first page of messages of a thread resolved for an Inbox entry. */
  function ResolvedCall(thread: ThreadItem, vendor: Option<string>, origin: MessageRef): seq<Call> {
    if thread.nonVendor then [Call(MessagesQuery(ByInbox(thread.ref, origin)), None)]
    else if vendor.Some? then [Call(MessagesQuery(ByVendor(vendor.value, thread.ref, Some(origin))), None)]
    else []
  }

  /** A resolution that still holds and names a thread selects that thread and its vendor and asks for its first
      messages, under the Inbox origin; any other end of a resolution selects nothing and asks for nothing. */
  lemma ResolutionSelectsItsThread(v: View, selection: nat)
    requires Rooted(v) && selection in v.resuming
    ensures
      var w := AfterResolve(v, selection);
      var c := v.cells[RESOLUTION];
      if FenceHolds(v, WhileResolving(v.resuming[selection], selection)) && c.status == Ready
         && c.value.Some? && c.value.value.reply.Resolved?
      then
        var r := c.value.value.reply;
        && SelectionOf(w) == SelectionOf(v).(vendor := r.vendor, thread := Some(r.selected))
        && w.calls == v.calls + ResolvedCall(r.selected, r.vendor, v.inbox.value.origin)
      else SelectionOf(w) == SelectionOf(v) && w.calls == v.calls
  {
    var c := v.cells[RESOLUTION];
    if FenceHolds(v, WhileResolving(v.resuming[selection], selection)) && c.status == Ready
       && c.value.Some? && c.value.value.reply.Resolved? {
      var r := c.value.value.reply;
      var u := v.(resuming := v.resuming - {selection}, selected := Some(r.selected), vendor := r.vendor);
      ContentFrame(u);
      var x := ClearContent(u);
      hide ClearContent;
      MessagesAskFirst(x);
    }
  }

  lemma ContentFrame(v: View)
    requires Rooted(v)
    ensures ClearContent(v) == v.(cells := ClearContent(v).cells, children := ClearContent(v).children, clearedAt := |v.calls|)
  {
    hide ClearChildren;
    ClearFrame(ResetCell(v, MESSAGES));
  }

  lemma MessagesAskFirst(x: View)
    requires Rooted(x) && x.selected.Some?
    ensures
      var w := LoadMessages(x, false);
      && SelectionOf(w) == SelectionOf(x)
      && w.calls == x.calls + (if ThreadSelector(x, x.selected.value.ref).Some?
                               then [Call(MessagesQuery(ThreadSelector(x, x.selected.value.ref).value), None)] else [])
  {
    hide ClearBelow;
    BelowFrame(x, x.cells[MESSAGES].slot);
  }

  /** An offered vendor becomes the chosen one and the origin is resolved anew under it; any other is refused. */
  lemma ChosenVendorIsResolved(v: View, vendor: string)
    requires Rooted(v)
    ensures
      var w := ChooseVendor(v, vendor);
      var choices := Value(v, RESOLUTION);
      if v.inbox.Some? && Allowed(v) && choices.Some? && choices.value.reply.Choices? && vendor in choices.value.reply.items
      then
        && SelectionOf(w) == SelectionOf(v).(vendor := None, thread := None, chosen := Some(vendor))
        && w.calls == v.calls + [Call(ResolveQuery(v.inbox.value.origin, Some(vendor)), None)]
      else w == v
  {
    hide Invalidate, ResolveInbox;
    var u := v.(inboxVendor := Some(vendor));
    InvalidateFrame(u);
    if u.inbox.Some? { ResolveAsksOnce(Invalidate(u)); }
  }

  /** Leaving a thread closes an Inbox reader, and lists a vendor's threads again. */
  lemma BackListsThreads(v: View)
    requires Rooted(v)
    ensures
      var w := BackToThreads(v);
      if v.inbox.Some? then SelectionOf(w) == Selection(None, None, None, None, None) && w.calls == v.calls && !w.visible
      else SelectionOf(w) == SelectionOf(v).(thread := None) && w.calls == v.calls + FirstCall(v.(selected := None))
  {
    hide Refresh, Invalidate;
    CloseSelectsNothing(v);
    RefreshAsksOnce(v.(selected := None));
    InvalidateFlags(v.(inbox := None, inboxVendor := None, vendor := None, selected := None, account := None, visible := false));
  }

  /** A reader that is shown reads what is selected, once nothing holds it; a hidden one reads nothing. */
  lemma ShownReadersRead(v: View)
    requires Rooted(v)
    ensures Resume(v).visible && Resume(v).mutations == v.mutations && Resume(v).calls == v.calls + FirstCall(v.(visible := true))
    ensures !Suspend(v).visible && Suspend(v).mutations == v.mutations && Suspend(v).calls == v.calls
  {
    hide Refresh, Invalidate;
    RefreshFlags(v.(visible := true));
    RefreshAsksOnce(v.(visible := true));
    InvalidateFrame(v.(visible := false));
    InvalidateFlags(v.(visible := false));
  }

  /** A hold adds one to the count and reads nothing; the end of one takes one away and, when asked to, reads
      what is selected once no hold is left. */
  lemma ReleasedReadersRead(v: View, refresh: bool)
    requires Rooted(v)
    ensures BeginMutation(v).mutations == v.mutations + 1 && BeginMutation(v).calls == v.calls
    ensures
      var n := if v.mutations == 0 then 0 else v.mutations - 1;
      var w := EndMutation(v, refresh);
      && w.mutations == n && w.visible == v.visible
      && w.calls == v.calls + (if refresh then FirstCall(v.(mutations := n)) else [])
  {
    hide Refresh, Invalidate;
    var u := v.(mutations := if v.mutations == 0 then 0 else v.mutations - 1);
    RefreshAsksOnce(u);
    RefreshFlags(u);
    InvalidateFrame(v.(mutations := v.mutations + 1));
    InvalidateFlags(v.(mutations := v.mutations + 1));
  }

  lemma InvalidateFlags(v: View)
    requires Rooted(v)
    ensures Invalidate(v).visible == v.visible && Invalidate(v).mutations == v.mutations
  {
    hide ClearChildren, ResetRoots;
    ClearFrame(ResetRoots(v));
    RootsFrame(v);
  }

  lemma RefreshFlags(v: View)
    requires Rooted(v)
    ensures Refresh(v).visible == v.visible && Refresh(v).mutations == v.mutations
  {
    hide Invalidate, LoadThreads, LoadMessages, ResolveInbox;
    InvalidateFlags(v);
    InvalidateFrame(v);
    var w := Invalidate(v);
    LoadFlags(w);
  }

  lemma LoadFlags(w: View)
    requires Rooted(w)
    ensures LoadThreads(w, false).visible == w.visible && LoadThreads(w, false).mutations == w.mutations
    ensures LoadMessages(w, false).visible == w.visible && LoadMessages(w, false).mutations == w.mutations
    ensures ResolveInbox(w, false).visible == w.visible && ResolveInbox(w, false).mutations == w.mutations
  {
    hide ClearBelow, ClearContent;
    BelowFrame(w, w.cells[THREADS].slot);
    BelowFrame(w, w.cells[MESSAGES].slot);
    ContentFrame(w.(selection := w.selection + 1, vendor := None, selected := None));
  }

  // ---------------------------------------------------------------------------------------------
  // Pages

  /** Exactly one call, and the read that waits for it. */
  ghost predicate Asks(v: View, w: View, id: nat, query: Query, cursor: Cursor) {
    && w.calls == v.calls + [Call(query, cursor)]
    && |v.calls| in w.waiting && w.waiting[|v.calls|].cell == id && id in w.cells
    && w.waiting[|v.calls|].generation == w.cells[id].generation && w.cells[id].status == Loading
  }

  /** A first page is read whenever reading is allowed; a further one only at a cursor that leads on and while no
      read is under way, at that very cursor and with the value kept. */
  lemma PagesAreAskedFor(v: View, id: nat, more: bool, query: Query)
    requires id in v.cells
    ensures
      var w := PageRead(v, id, more, query);
      if Allowed(v) && (more ==> More(NextCursor(v.cells[id].value)) && v.cells[id].status != Loading)
      then
        && Asks(v, w, id, query, if more then NextCursor(v.cells[id].value) else None)
        && (more ==> w.cells[id].value == v.cells[id].value && w.children == v.children)
        && (!more ==> w.cells[id].value.None?)
      else w == v
  {
    hide ClearBelow;
    BelowFrame(v, v.cells[id].slot);
  }

  /** Threads and messages: a page of the vendor's threads outside the Inbox, a page of the selected thread. */
  lemma RootPagesAreAskedFor(v: View, more: bool)
    requires Rooted(v)
    ensures LoadThreads(v, more) ==
      if v.inbox.None? && v.vendor.Some? then PageRead(v, THREADS, more, ListQuery(v.vendor.value, v.account)) else v
    ensures LoadMessages(v, more) ==
      if v.selected.Some? && Allowed(v) && (v.vendor.Some? || (v.inbox.Some? && v.selected.value.nonVendor))
      then PageRead(v, MESSAGES, more, MessagesQuery(
        if v.inbox.Some? && v.selected.value.nonVendor then ByInbox(v.selected.value.ref, v.inbox.value.origin)
        else ByVendor(v.vendor.value, v.selected.value.ref, if v.inbox.Some? then Some(v.inbox.value.origin) else None)))
      else v
  {
    hide PageRead;
  }

  /** More vendors are asked for at the cursor of the choices on display, and only then. */
  lemma MoreVendorsAreAskedFor(v: View)
    requires Inv(v)
    ensures
      var w := ResolveInbox(v, true);
      var value := v.cells[RESOLUTION].value;
      if v.inbox.Some? && Allowed(v) && value.Some? && value.value.reply.Choices? && More(NextCursor(value))
         && v.cells[RESOLUTION].status != Loading
      then
        && SelectionOf(w) == SelectionOf(v) && w.cells[RESOLUTION].value == value
        && Asks(v, w, RESOLUTION, ResolveQuery(v.inbox.value.origin, None), NextCursor(value))
      else w == v
  {
    var value := v.cells[RESOLUTION].value;
    if value.Some? && value.value.reply.Choices? { ChoicesMeanNoneChosen(v); }
    InvRooted(v);
    hide Inv, Structure;
  }

  // ---------------------------------------------------------------------------------------------
  // Bodies, copies and inventory

  /** The selector of a message: for a message on display, in a thread its page names, while reading is allowed
      and the selection can name a thread at all; under the Inbox origin for a thread without a vendor. */
  lemma MessagesAreSelected(v: View, message: string)
    requires Rooted(v)
    ensures
      var value := Value(v, MESSAGES);
      var s := MessageSelector(v, message);
      if Allowed(v) && value.Some? && value.value.reply.Paged? && value.value.reply.thread.Some? && message in value.value.reply.items
         && (v.vendor.Some? || (v.inbox.Some? && v.selected.Some? && v.selected.value.nonVendor))
      then
        var ref := value.value.reply.thread.value;
        s == Some(if v.inbox.Some? && v.selected.Some? && v.selected.value.nonVendor then ByInbox(ref, v.inbox.value.origin)
                  else ByVendor(v.vendor.value, ref, if v.inbox.Some? then Some(v.inbox.value.origin) else None))
      else s.None?
  {}

  /** Gone are exactly the given slots; what sat there is reset, and nothing else is touched. */
  ghost predicate Gone(v: View, w: View, doomed: set<Slot>) {
    && Rooted(v) && w.cells.Keys == v.cells.Keys && (forall s :: s in v.children ==> v.children[s] in v.cells)
    && w.children.Keys == v.children.Keys - doomed
    && (forall s :: s in w.children ==> w.children[s] == v.children[s] && w.cells[w.children[s]] == v.cells[v.children[s]])
    && (forall s :: s in v.children && s in doomed ==> w.cells[v.children[s]] == Reset(v.cells[v.children[s]]))
    && (forall id: nat :: id < 3 ==> w.cells[id] == v.cells[id])
    && w == v.(cells := w.cells, children := w.children)
  }

  lemma DropGone(v: View, doomed: set<Slot>)
    requires Structure(v)
    ensures Gone(v, Drop(v, doomed), doomed)
  {
    hide Reset;
    assert forall id: nat :: id < 3 ==> !Falls(v.cells, v.children, doomed, id);
  }

  /** Closing lets go of exactly what it names; copies take their inventories along. */
  lemma ClosedSlotsAreGone(v: View, message: string, copy: string)
    requires Structure(v)
    ensures Gone(v, CloseBody(v, message), {BodyOf(message)})
    ensures Gone(v, CloseInventory(v, message, copy), {InventoryOf(message, copy)})
    ensures Gone(v, CloseCopies(v, message),
                 set s | s in v.children && (s == CopiesOf(message) || (s.InventoryOf? && s.message == message)))
  {
    hide Drop, Gone, Structure;
    DropGone(v, {BodyOf(message)});
    DropGone(v, {InventoryOf(message, copy)});
    DropGone(v, {CopiesOf(message)} + InventorySlots(v, message));
    GoneAlike(v, CloseCopies(v, message), {CopiesOf(message)} + InventorySlots(v, message),
              set s | s in v.children && (s == CopiesOf(message) || (s.InventoryOf? && s.message == message)));
  }

  lemma GoneAlike(v: View, w: View, a: set<Slot>, b: set<Slot>)
    requires Gone(v, w, a) && forall s :: s in v.children ==> (s in a <==> s in b)
    ensures Gone(v, w, b)
  {}

  /** Opening puts a fresh read state in place of what was there and asks for its first page with it. */
  ghost predicate Opens(v: View, w: View, slot: Slot, query: Query) {
    && Asks(v, w, v.nextCell, query, None)
    && slot in w.children && w.children[slot] == v.nextCell && v.nextCell !in v.cells && w.cells[v.nextCell].slot == slot
    && SelectionOf(w) == SelectionOf(v)
  }

  lemma BodiesOpen(v: View, message: string)
    requires Structure(v)
    ensures
      var s := MessageSelector(v, message);
      if s.Some? then Opens(v, OpenBody(v, message), BodyOf(message), BodyQuery(s.value, message)) else OpenBody(v, message) == v
  {
    hide Drop, MessageSelector;
    DropSteady(v, {BodyOf(message)});
    DropsNothingNew(v, {BodyOf(message)});
  }

  lemma DropsNothingNew(v: View, doomed: set<Slot>)
    requires Structure(v)
    ensures Drop(v, doomed).nextCell == v.nextCell && v.nextCell !in v.cells && Drop(v, doomed).waiting == v.waiting
  {}

  lemma CopiesOpen(v: View, message: string)
    requires Structure(v)
    ensures
      var s := MessageSelector(v, message);
      if s.Some? then Opens(v, OpenCopies(v, message), CopiesOf(message), CopiesQuery(s.value, message)) else OpenCopies(v, message) == v
  {
    hide Drop, MessageSelector, InventorySlots, PageRead;
    var doomed := {CopiesOf(message)} + InventorySlots(v, message);
    DropSteady(v, doomed);
    DropsNothingNew(v, doomed);
    ReattachedSelects(v, doomed, CopiesOf(message));
    var x := Attach(CloseCopies(v, message), CopiesOf(message));
    if MessageSelector(v, message).Some? {
      SelectorMeansAllowed(v, message);
      SelectorMeansAllowed(x, message);
      FirstPageOf(x, v.nextCell, CopiesQuery(MessageSelector(v, message).value, message));
    }
  }

  lemma SelectorMeansAllowed(v: View, message: string)
    ensures MessageSelector(v, message).Some? ==> Allowed(v)
  {}

  /** The first page of an attached state: it stays in its slot. */
  lemma FirstPageOf(x: View, id: nat, query: Query)
    requires id in x.cells && Allowed(x) && !RootSlot(x.cells[id].slot)
    ensures
      var w := PageRead(x, id, false, query);
      && Asks(x, w, id, query, None) && w.cells[id].slot == x.cells[id].slot && SelectionOf(w) == SelectionOf(x)
      && (x.cells[id].slot in x.children ==> x.cells[id].slot in w.children && w.children[x.cells[id].slot] == x.children[x.cells[id].slot])
  {
    hide PageRead;
    PagesAreAskedFor(x, id, false, query);
    PageFrame(x, id, query);
  }

  lemma PageFrame(x: View, id: nat, query: Query)
    requires id in x.cells && Allowed(x) && !RootSlot(x.cells[id].slot)
    ensures
      var w := PageRead(x, id, false, query);
      && id in w.cells && w.cells[id].slot == x.cells[id].slot && SelectionOf(w) == SelectionOf(x)
      && (x.cells[id].slot in x.children ==> x.cells[id].slot in w.children && w.children[x.cells[id].slot] == x.children[x.cells[id].slot])
  {
    var w := PageRead(x, id, false, query);
    assert w.cells[id].slot == ClearBelow(x, x.cells[id].slot).cells[id].slot;
  }

  /** A page of open copies, or of an open inventory: what is read is the state in its slot. */
  lemma OpenPagesAreAskedFor(v: View, message: string, copy: string, more: bool)
    requires Structure(v)
    ensures
      var s := MessageSelector(v, message);
      && LoadCopies(v, message, more) ==
           (if s.Some? && CopiesOf(message) in v.children
            then PageRead(v, v.children[CopiesOf(message)], more, CopiesQuery(s.value, message)) else v)
      && LoadInventory(v, message, copy, more) ==
           (if s.Some? && InventoryOf(message, copy) in v.children
            then PageRead(v, v.children[InventoryOf(message, copy)], more, InventoryQuery(s.value, message, copy)) else v)
  {
    hide PageRead, MessageSelector;
  }

  lemma InventoriesOpen(v: View, message: string, copy: string)
    requires Structure(v)
    ensures
      var s := MessageSelector(v, message);
      var offered := CopiesOf(message) in v.children && copy in Items(Value(v, v.children[CopiesOf(message)]));
      if offered && s.Some?
      then Opens(v, OpenInventory(v, message, copy), InventoryOf(message, copy), InventoryQuery(s.value, message, copy))
      else OpenInventory(v, message, copy).calls == v.calls && (!offered ==> OpenInventory(v, message, copy) == v)
  {
    hide Drop, MessageSelector, PageRead;
    var doomed := {InventoryOf(message, copy)};
    DropSteady(v, doomed);
    DropsNothingNew(v, doomed);
    ReattachedSelects(v, doomed, InventoryOf(message, copy));
    var x := Attach(CloseInventory(v, message, copy), InventoryOf(message, copy));
    if MessageSelector(v, message).Some? {
      SelectorMeansAllowed(v, message);
      SelectorMeansAllowed(x, message);
      FirstPageOf(x, v.nextCell, InventoryQuery(MessageSelector(v, message).value, message, copy));
    }
  }

  // ---------------------------------------------------------------------------------------------
  // Settlements

  /** The value a reply makes: alone, or after the value it continues, page after page and choices after choices. */
  ghost predicate Continues(previous: Option<Held>, hop: Hop, value: Held) {
    && value.trail == (if previous.Some? then previous.value.trail else []) + [hop]
    && (previous.None? ==> value.reply == hop.reply)
    && (previous.Some? && previous.value.reply.Paged? && hop.reply.Paged? ==>
          value.reply == Paged(previous.value.reply.items + hop.reply.items, hop.reply.next, hop.reply.thread))
    && (previous.Some? && previous.value.reply.Choices? && hop.reply.Choices? ==>
          value.reply == Choices(previous.value.reply.items + hop.reply.items, hop.reply.next))
  }

  lemma JoinedContinues(previous: Option<Held>, hop: Hop)
    ensures Continues(previous, hop, Joined(previous, hop))
  {}

  /** A current reply is stored: alone, or after the value it continues.  Any other changes nothing but that the
      call is no longer out. */
  lemma RepliesAreStored(v: View, n: nat, reply: Reply)
    requires n in v.waiting
    ensures
      var t := v.waiting[n];
      var w := Store(v, n, reply);
      && w.calls == v.calls && w.waiting == v.waiting - {n} && w.children == v.children && SelectionOf(w) == SelectionOf(v)
      && (if TokenCurrent(v, t)
          then
            && w.cells.Keys == v.cells.Keys && (forall id :: id in v.cells && id != t.cell ==> w.cells[id] == v.cells[id])
            && w.cells[t.cell].status == Ready
            && w.cells[t.cell].value.Some? && Continues(t.previous, Hop(n, reply), w.cells[t.cell].value.value)
          else w.cells == v.cells)
      && w.resuming == (if t.fence.WhileResolving? then v.resuming[t.fence.selection := t.fence.entry] else v.resuming)
  {
    hide Joined, Continues;
    JoinedContinues(v.waiting[n].previous, Hop(n, reply));
  }

  /** A failed read shows its error: its value goes, and with it all that hangs below; only a stale cursor of a load-more leads to
      another call, for the first page of the same query. */
  lemma FailuresAreShown(v: View, n: nat, code: Code)
    requires Inv(v) && n in v.waiting && n < |v.calls|
    ensures
      var t := v.waiting[n];
      var w := Catch(v, n, code);
      if !TokenCurrent(v, t) then w.cells == v.cells && w.calls == v.calls && w.children == v.children
      else
        && Value(w, t.cell).None?
        && (if t.restartable && code == StaleCursor
            then w.calls == v.calls + [Call(v.calls[n].query, None)] && w.cells[t.cell].changed && w.cells[t.cell].status == Loading
            else w.calls == v.calls && w.cells[t.cell].status == Failed)
  {
    var t := v.waiting[n];
    if TokenCurrent(v, t) { CurrentFailureShows(v, n, code); }
    hide Inv, ClearBelow;
  }

  lemma CurrentFailureShows(v: View, n: nat, code: Code)
    requires Inv(v) && n in v.waiting && n < |v.calls| && TokenCurrent(v, v.waiting[n])
    ensures
      var t := v.waiting[n];
      var w := Catch(v, n, code);
      && Value(w, t.cell).None?
      && (if t.restartable && code == StaleCursor
          then w.calls == v.calls + [Call(v.calls[n].query, None)] && w.cells[t.cell].changed && w.cells[t.cell].status == Loading
          else w.calls == v.calls && w.cells[t.cell].status == Failed)
  {
    var t := v.waiting[n];
    assert Live(v, n) && TokenSound(v, n);
    if t.restartable && code == StaleCursor {
      CatchClears(v, n, v.cells[t.cell].(value := None, changed := true));
    } else {
      CatchClears(v, n, v.cells[t.cell].(value := None, status := Failed));
    }
    hide Inv, ClearBelow;
  }

  /** A selection that is gone blanks the reader and shows the error in place of the resolution. */
  lemma LostSelectionsAreShown(v: View, n: nat, code: Code)
    requires Rooted(v) && n in v.waiting && v.waiting[n].guard.Some?
    ensures
      var g := v.waiting[n].guard.value;
      var w := GuardTrips(v, n, code);
      && n in w.waiting && w.waiting[n].rejected == Some(code) && w.calls == v.calls
      && (if v.inbox.Some? && v.inbox.value.id == g.entry && v.selection == g.selection && Allowed(v)
             && (code == NotFound || code == StaleSelection)
          then
            && SelectionOf(w) == SelectionOf(v).(vendor := None, thread := None) && RESOLUTION in w.cells
            && w.cells[RESOLUTION].status == Failed && w.clearedAt == |v.calls| && w.children == map[]
            && Value(w, RESOLUTION).None? && Value(w, THREADS).None? && Value(w, MESSAGES).None?
          else w.cells == v.cells && w.children == v.children && SelectionOf(w) == SelectionOf(v))
  {
    hide CellsLeft;
    var u := v.(waiting := v.waiting[n := v.waiting[n].(rejected := Some(code))]);
    InvalidateFrame(u);
    InvalidatedRoots(u);
    hide Invalidate;
  }

  lemma InvalidatedRoots(v: View)
    requires Rooted(v)
    ensures
      var w := Invalidate(v);
      && w.children == map[] && w.clearedAt == |v.calls| && w.waiting == v.waiting
      && Value(w, RESOLUTION).None? && Value(w, THREADS).None? && Value(w, MESSAGES).None?
  {}

  // ---------------------------------------------------------------------------------------------
  // The Inbox entry

  /** The Inbox entry is the one it was, or none. */
  predicate SameEntry(v: View, w: View) {
    w.inbox == v.inbox || w.inbox.None?
  }

  lemma LoadsKeepEntry(v: View, more: bool)
    requires Rooted(v)
    ensures LoadThreads(v, more).inbox == v.inbox && LoadMessages(v, more).inbox == v.inbox && ResolveInbox(v, more).inbox == v.inbox
  {
    hide ClearBelow, ClearContent;
    BelowFrame(v, v.cells[THREADS].slot);
    BelowFrame(v, v.cells[MESSAGES].slot);
    ContentFrame(v.(selection := v.selection + 1, vendor := None, selected := None));
  }

  lemma RefreshKeepsEntry(v: View)
    requires Rooted(v)
    ensures Refresh(v).inbox == v.inbox && Invalidate(v).inbox == v.inbox
  {
    hide LoadThreads, LoadMessages, ResolveInbox, Invalidate;
    InvalidateFrame(v);
    LoadsKeepEntry(Invalidate(v), false);
  }

  lemma PageKeepsEntry(v: View, id: nat, more: bool, query: Query)
    requires id in v.cells
    ensures PageRead(v, id, more, query).inbox == v.inbox
  {
    hide ClearBelow;
    BelowFrame(v, v.cells[id].slot);
  }

  lemma OpenLoadsKeepEntry(v: View, message: string, copy: string, more: bool)
    ensures LoadCopies(v, message, more).inbox == v.inbox && LoadInventory(v, message, copy, more).inbox == v.inbox
  {
    hide PageRead, MessageSelector;
    var s := MessageSelector(v, message);
    if s.Some? && CopiesOf(message) in v.children && v.children[CopiesOf(message)] in v.cells {
      PageKeepsEntry(v, v.children[CopiesOf(message)], more, CopiesQuery(s.value, message));
    }
    if s.Some? && InventoryOf(message, copy) in v.children && v.children[InventoryOf(message, copy)] in v.cells {
      PageKeepsEntry(v, v.children[InventoryOf(message, copy)], more, InventoryQuery(s.value, message, copy));
    }
  }

  lemma OpensKeepEntry(v: View, message: string, copy: string)
    ensures OpenBody(v, message).inbox == v.inbox && OpenCopies(v, message).inbox == v.inbox
    ensures OpenInventory(v, message, copy).inbox == v.inbox
    ensures CloseBody(v, message).inbox == v.inbox && CloseCopies(v, message).inbox == v.inbox
    ensures CloseInventory(v, message, copy).inbox == v.inbox
  {
    hide Drop, MessageSelector, LoadCopies, LoadInventory;
    DropSteady(v, {BodyOf(message)});
    DropSteady(v, {InventoryOf(message, copy)});
    DropSteady(v, {CopiesOf(message)} + InventorySlots(v, message));
    OpenLoadsKeepEntry(Attach(CloseCopies(v, message), CopiesOf(message)), message, copy, false);
    OpenLoadsKeepEntry(Attach(CloseInventory(v, message, copy), InventoryOf(message, copy)), message, copy, false);
  }

  lemma CatchKeepsEntry(v: View, n: nat, code: Code)
    requires n in v.waiting && n < |v.calls|
    ensures Catch(v, n, code).inbox == v.inbox
  {
    hide ClearBelow;
    var t := v.waiting[n];
    if t.cell in v.cells {
      var c := v.cells[t.cell];
      var w := v.(waiting := v.waiting - {n});
      BelowFrame(w.(cells := v.cells[t.cell := c.(value := None, changed := true)]), c.slot);
      BelowFrame(w.(cells := v.cells[t.cell := c.(value := None, status := Failed)]), c.slot);
    }
  }

  lemma ResolvedKeepsEntry(v: View, selection: nat)
    requires Rooted(v) && selection in v.resuming
    ensures AfterResolve(v, selection).inbox == v.inbox
  {
    hide AfterResolve;
    ResolutionSelectsItsThread(v, selection);
  }

  lemma GuardKeepsEntry(v: View, n: nat, code: Code)
    requires Rooted(v) && n in v.waiting && v.waiting[n].guard.Some?
    ensures GuardTrips(v, n, code).inbox == v.inbox
  {
    hide Invalidate;
    RefreshKeepsEntry(v.(waiting := v.waiting[n := v.waiting[n].(rejected := Some(code))]));
  }

  lemma SettlementsKeepEntry(v: View, e: Event)
    requires Rooted(v) && Possible(v, e) && Settles(e)
    ensures Next(v, e).inbox == v.inbox
  {
    hide Catch, GuardTrips, AfterResolve, TokenCurrent;
    match e {
      case ReplyArrives(n, reply) =>
      case CallFails(n, code) => if v.waiting[n].guard.Some? { GuardKeepsEntry(v, n, code); } else { CatchKeepsEntry(v, n, code); }
      case RejectionArrives(n) => CatchKeepsEntry(v, n, v.waiting[n].rejected.value);
      case ResolutionResumes(s) => ResolvedKeepsEntry(v, s);
    }
  }

  lemma SelectionsKeepEntry(v: View, e: Event)
    requires Rooted(v) && Possible(v, e) && Selects(e) && !e.InboxOpened?
    ensures SameEntry(v, Next(v, e))
  {
    hide Invalidate, LoadMessages, ResolveInbox, Refresh, ClearContent;
    match e {
      case InboxResolved(more) => LoadsKeepEntry(v, more);
      case VendorChosen(vendor) =>
        RefreshKeepsEntry(v.(inboxVendor := Some(vendor)));
        LoadsKeepEntry(Invalidate(v.(inboxVendor := Some(vendor))), false);
      case VendorSelected(vendor) =>
        RefreshKeepsEntry(v.(inbox := None, inboxVendor := None, vendor := Some(vendor), account := None,
                             selected := None, visible := true));
      case AccountSelected(account) => RefreshKeepsEntry(v.(account := account, selected := None));
      case ThreadOpened(thread) =>
        OpeningSelects(v, thread);
        LoadsKeepEntry(Opening(v, thread), false);
      case ThreadsAgain =>
        CloseSelectsNothing(v);
        RefreshKeepsEntry(v.(selected := None));
      case Closed => CloseSelectsNothing(v);
      case Suspended => RefreshKeepsEntry(v.(visible := false));
      case Resumed => RefreshKeepsEntry(v.(visible := true));
      case Refreshed => RefreshKeepsEntry(v);
      case Invalidated => RefreshKeepsEntry(v);
      case SourceChanges(_) =>
    }
  }

  lemma HoldsKeepEntry(v: View, refresh: bool)
    requires Rooted(v)
    ensures BeginMutation(v).inbox == v.inbox && EndMutation(v, refresh).inbox == v.inbox
  {
    hide Refresh, Invalidate;
    RefreshKeepsEntry(v.(mutations := v.mutations + 1));
    RefreshKeepsEntry(v.(mutations := if v.mutations == 0 then 0 else v.mutations - 1));
  }

  lemma ReadsKeepEntry(v: View, e: Event)
    requires Rooted(v) && Possible(v, e) && !Selects(e) && !Settles(e)
    ensures Next(v, e).inbox == v.inbox
  {
    hide BeginMutation, EndMutation, LoadThreads, LoadMessages, OpenBody, CloseBody, OpenCopies, LoadCopies, CloseCopies, OpenInventory,
      LoadInventory, CloseInventory;
    match e {
      case MutationBegins => HoldsKeepEntry(v, true);
      case MutationEnds(refresh) => HoldsKeepEntry(v, refresh);
      case ThreadsLoaded(more) => LoadsKeepEntry(v, more);
      case MessagesLoaded(more) => LoadsKeepEntry(v, more);
      case BodyOpened(m) => OpensKeepEntry(v, m, m);
      case BodyClosed(m) => OpensKeepEntry(v, m, m);
      case CopiesOpened(m) => OpensKeepEntry(v, m, m);
      case CopiesClosed(m) => OpensKeepEntry(v, m, m);
      case InventoryOpened(m, c) => OpensKeepEntry(v, m, c);
      case InventoryClosed(m, c) => OpensKeepEntry(v, m, c);
      case CopiesLoaded(m, more) => OpenLoadsKeepEntry(v, m, m, more);
      case InventoryLoaded(m, c, more) => OpenLoadsKeepEntry(v, m, c, more);
    }
  }

  /** Only opening another Inbox row changes the entry to another one. */
  lemma EntryStays(v: View, e: Event)
    requires Rooted(v) && Possible(v, e) && !e.InboxOpened?
    ensures SameEntry(v, Next(v, e))
  {
    hide Next;
    if Selects(e) { SelectionsKeepEntry(v, e); } else if Settles(e) { SettlementsKeepEntry(v, e); } else { ReadsKeepEntry(v, e); }
  }
}
