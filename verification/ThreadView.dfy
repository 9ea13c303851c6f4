/** The reader of retained threads: generation-fenced reads, cursor paging with one restart, and a
    tree of messages, bodies, copies and inventory that user actions and late replies change.
    Each function is one atomic step.  A client call that waits for its reply is a token in `waiting`,
    keyed by its place in `calls`; any later event may settle it, with any reply or error. */
module ThreadViews {
  import opened Basics

  // ---------------------------------------------------------------------------------------------
  // References, queries and replies

  datatype Account = Account(provider: string, accountId: string)
  datatype ThreadRef = ThreadRef(provider: string, accountId: string, identity: Option<string>, key: string)
  datatype MessageRef = MessageRef(provider: string, accountId: string, identity: Option<string>, messageId: string)

  /** A thread as the reader selects it; `nonVendor` is the relation "non_vendor". */
  datatype ThreadItem = ThreadItem(ref: ThreadRef, nonVendor: bool)

  datatype Selector =
    | ByVendor(vendor: string, thread: ThreadRef, inbox: Option<MessageRef>)
    | ByInbox(thread: ThreadRef, origin: MessageRef)

  datatype Query =
    | ResolveQuery(origin: MessageRef, chosen: Option<string>)
    | ListQuery(vendor: string, account: Option<Account>)
    | MessagesQuery(selector: Selector)
    | BodyQuery(selector: Selector, message: string)
    | CopiesQuery(selector: Selector, message: string)
    | InventoryQuery(selector: Selector, message: string, copy: string)

  type Cursor = Option<string>

  /** The source tests cursors for truth, so the empty string leads nowhere, like null. */
  predicate More(cursor: Cursor) {
    cursor.Some? && cursor.value != ""
  }

  datatype Call = Call(query: Query, cursor: Cursor)

  /** A reply: vendors to choose from, a resolved thread, a page of identified items, or a body.
      `thread` is the thread a messages page says it belongs to. */
  datatype Reply =
    | Choices(items: seq<string>, next: Cursor)
    | Resolved(selected: ThreadItem, vendor: Option<string>)
    | Paged(items: seq<string>, next: Cursor, thread: Option<ThreadRef>)
    | BodyText

  /** The host decodes replies strictly, so a reply has the shape its query asks for; to a query with a
      chosen vendor it admits no further choice and no thread of another vendor. */
  predicate Fits(query: Query, reply: Reply) {
    match query
    case ResolveQuery(_, chosen) =>
      (reply.Choices? && chosen.None?) || (reply.Resolved? && (chosen.Some? ==> reply.vendor == chosen))
    case MessagesQuery(_) => reply.Paged? && reply.thread.Some?
    case BodyQuery(_, _) => reply.BodyText?
    case _ => reply.Paged?
  }

  datatype Code = StaleCursor | NotFound | StaleSelection | OtherError

  // ---------------------------------------------------------------------------------------------
  // Read states

  /** One accepted reply and the call it answered. */
  datatype Hop = Hop(call: nat, reply: Reply)

  /** A value on display, and the accepted replies it was put together from. */
  datatype Held = Held(reply: Reply, trail: seq<Hop>)

  datatype Status = Idle | Loading | Ready | Failed

  datatype Slot =
    | Resolution
    | Threads
    | Messages
    | BodyOf(message: string)
    | CopiesOf(message: string)
    | InventoryOf(message: string, copy: string)

  /** A `ThreadReadState` object; `slot` is the place it was made for. */
  datatype Cell = Cell(slot: Slot, status: Status, value: Option<Held>, changed: bool, generation: nat)

  function Reset(c: Cell): Cell {
    Cell(c.slot, Idle, None, false, c.generation + 1)
  }

  /** What must hold, besides the generation, for a reply to count. */
  datatype Fence = WhileAllowed | WhileResolving(entry: nat, selection: nat)

  datatype Guard = Guard(entry: nat, selection: nat)

  /** A read that waits for its client call.  `previous` is the value a load-more started from;
      `rejected` is set between the guard's handler and the read's own. */
  datatype Token = Token(cell: nat, generation: nat, previous: Option<Held>, restartable: bool,
                         fence: Fence, guard: Option<Guard>, rejected: Option<Code>)

  datatype Entry = Entry(id: nat, origin: MessageRef)

  /** The reader.  `cells` holds every read state ever made, detached ones too; `children` is the
      three maps of bodies, copies and inventory, keyed by slot.  `sourceCurrent` is what the Inbox
      entry's own predicate answers now.  `resuming` holds resolutions whose read is over.  Two
      history counters record how many calls had been issued when the reader's content, and when its
      resolution, was last cleared. */
  datatype View = View(
    vendor: Option<string>, account: Option<Account>, selected: Option<ThreadItem>,
    visible: bool, mutations: nat, selection: nat,
    inbox: Option<Entry>, inboxVendor: Option<string>, sourceCurrent: bool, entries: nat,
    cells: map<nat, Cell>, children: map<Slot, nat>, nextCell: nat,
    calls: seq<Call>, waiting: map<nat, Token>, resuming: map<nat, nat>,
    clearedAt: nat, resolutionClearedAt: nat)

  const RESOLUTION := 0
  const THREADS := 1
  const MESSAGES := 2

  function Initial(): View {
    View(None, None, None, true, 0, 0, None, None, false, 0,
         map[RESOLUTION := Cell(Resolution, Idle, None, false, 0),
             THREADS := Cell(Threads, Idle, None, false, 0),
             MESSAGES := Cell(Messages, Idle, None, false, 0)],
         map[], 3, [], map[], map[], 0, 0)
  }

  predicate Rooted(v: View) {
    RESOLUTION in v.cells && THREADS in v.cells && MESSAGES in v.cells
  }

  predicate Allowed(v: View) {
    v.visible && v.mutations == 0 && (if v.inbox.Some? then v.sourceCurrent else v.vendor.Some?)
  }

  function Value(v: View, id: nat): Option<Held> {
    if id in v.cells then v.cells[id].value else None
  }

  function ItemsOf(r: Reply): seq<string> {
    if r.Paged? || r.Choices? then r.items else []
  }

  function NextOf(r: Reply): Cursor {
    if r.Paged? || r.Choices? then r.next else None
  }

  function Items(value: Option<Held>): seq<string> {
    if value.Some? then ItemsOf(value.value.reply) else []
  }

  function NextCursor(value: Option<Held>): Cursor {
    if value.Some? then NextOf(value.value.reply) else None
  }

  // ---------------------------------------------------------------------------------------------
  // Clearing

  function ResetCell(v: View, id: nat): (r: View)
    requires id in v.cells
    ensures r.cells.Keys == v.cells.Keys
  {
    v.(cells := v.cells[id := Reset(v.cells[id])])
  }

  /** The cell sits in one of the three maps, under a doomed slot. */
  predicate Falls(cells: map<nat, Cell>, children: map<Slot, nat>, doomed: set<Slot>, id: nat)
    requires id in cells
  {
    var s := cells[id].slot;
    s in doomed && s in children && children[s] == id
  }

  function CellsLeft(cells: map<nat, Cell>, children: map<Slot, nat>, doomed: set<Slot>): (r: map<nat, Cell>)
    ensures r.Keys == cells.Keys
  {
    map id | id in cells :: if Falls(cells, children, doomed, id) then Reset(cells[id]) else cells[id]
  }

  function SlotsLeft(children: map<Slot, nat>, doomed: set<Slot>): map<Slot, nat> {
    map s | s in children && s !in doomed :: children[s]
  }

  /** Resets the read states of the doomed slots and takes the slots out of the maps. */
  function Drop(v: View, doomed: set<Slot>): (r: View)
    ensures r.cells.Keys == v.cells.Keys
  {
    v.(cells := CellsLeft(v.cells, v.children, doomed), children := SlotsLeft(v.children, doomed))
  }

  function ClearChildren(v: View): (r: View)
    ensures r.cells.Keys == v.cells.Keys
  {
    Drop(v, v.children.Keys)
  }

  function InventorySlots(v: View, message: string): set<Slot> {
    set s | s in v.children && s.InventoryOf? && s.message == message
  }

  function ClearInventory(v: View, message: string): (r: View)
    ensures r.cells.Keys == v.cells.Keys
  {
    Drop(v, InventorySlots(v, message))
  }

  /** What a read of this slot clears below it. */
  function ClearBelow(v: View, slot: Slot): (r: View)
    ensures r.cells.Keys == v.cells.Keys
  {
    match slot
    case Resolution => ClearChildren(v)
    case Messages => ClearChildren(v)
    case CopiesOf(m) => ClearInventory(v, m)
    case _ => v
  }

  /** Resets messages and everything below them, for a selection that is about to change or just has. */
  function ClearContent(v: View): (r: View)
    requires Rooted(v)
    ensures r.cells.Keys == v.cells.Keys
  {
    ClearChildren(ResetCell(v, MESSAGES)).(clearedAt := |v.calls|)
  }

  function ResetRoots(v: View): (r: View)
    requires Rooted(v)
    ensures r.cells.Keys == v.cells.Keys
  {
    v.(cells := v.cells[RESOLUTION := Reset(v.cells[RESOLUTION])][THREADS := Reset(v.cells[THREADS])]
                       [MESSAGES := Reset(v.cells[MESSAGES])])
  }

  /** Everything goes; an Inbox entry also loses the vendor and thread it was resolved to. */
  function Invalidate(v: View): (r: View)
    requires Rooted(v)
    ensures r.cells.Keys == v.cells.Keys
  {
    var w := ClearChildren(ResetRoots(v)).(selection := v.selection + 1, clearedAt := |v.calls|, resolutionClearedAt := |v.calls|);
    if w.inbox.Some? then w.(vendor := None, selected := None) else w
  }

  // ---------------------------------------------------------------------------------------------
  // Reading

  function GuardOf(v: View, slot: Slot): Option<Guard> {
    if v.inbox.Some? && slot != Resolution then Some(Guard(v.inbox.value.id, v.selection)) else None
  }

  /** Issues a client call for the read of cell `id` and leaves its token waiting. */
  function Issue(v: View, id: nat, query: Query, cursor: Cursor, previous: Option<Held>, restartable: bool,
                 fence: Fence): View
    requires id in v.cells
  {
    v.(calls := v.calls + [Call(query, cursor)],
       waiting := v.waiting[|v.calls| := Token(id, v.cells[id].generation, previous, restartable, fence,
                                               GuardOf(v, v.cells[id].slot), None)])
  }

  /** The cell as a read opens it: a new generation, loading, and no value unless it continues one. */
  function Opened(c: Cell, more: bool): Cell {
    if more then c.(status := Loading, generation := c.generation + 1)
    else Cell(c.slot, Loading, None, false, c.generation + 1)
  }

  /** The synchronous part of a read: the cell opens and the call goes out. */
  function StartRead(v: View, id: nat, more: bool, query: Query, cursor: Cursor, restartable: bool, fence: Fence): View
    requires id in v.cells
  {
    var d := Opened(v.cells[id], more);
    Issue(v.(cells := v.cells[id := d]), id, query, cursor, d.value, restartable, fence)
  }

  predicate PageRefused(v: View, id: nat, more: bool)
    requires id in v.cells
  {
    !Allowed(v) || (more && (!More(NextCursor(v.cells[id].value)) || v.cells[id].status == Loading))
  }

  function PageRead(v: View, id: nat, more: bool, query: Query): View
    requires id in v.cells
  {
    if PageRefused(v, id, more) then v else
    var w := if more then v else ClearBelow(v, v.cells[id].slot);
    StartRead(w, id, more, query, if more then NextCursor(v.cells[id].value) else None, more, WhileAllowed)
  }

  predicate FenceHolds(v: View, fence: Fence) {
    Allowed(v) &&
    match fence
    case WhileAllowed => true
    case WhileResolving(entry, selection) =>
      v.inbox.Some? && v.inbox.value.id == entry && v.selection == selection
  }

  predicate TokenCurrent(v: View, t: Token) {
    t.cell in v.cells && v.cells[t.cell].generation == t.generation && FenceHolds(v, t.fence)
  }

  /** A read is over; a resolution's caller goes on in a step of its own. */
  function Finished(v: View, t: Token): View {
    if t.fence.WhileResolving? then v.(resuming := v.resuming[t.fence.selection := t.fence.entry]) else v
  }

  /** Joins a page to the value it continues; vendor choices join only with vendor choices. */
  function Join(a: Reply, b: Reply): Reply {
    if a.Paged? && b.Paged? then Paged(a.items + b.items, b.next, b.thread)
    else if a.Choices? && b.Choices? then Choices(a.items + b.items, b.next)
    else b
  }

  function Joined(previous: Option<Held>, hop: Hop): Held {
    if previous.Some?
    then Held(Join(previous.value.reply, hop.reply), previous.value.trail + [hop])
    else Held(hop.reply, [hop])
  }

  function Store(v: View, n: nat, reply: Reply): View
    requires n in v.waiting
  {
    var t := v.waiting[n];
    var w := v.(waiting := v.waiting - {n});
    if !TokenCurrent(v, t) then Finished(w, t)
    else Finished(w.(cells := v.cells[t.cell :=
      v.cells[t.cell].(value := Some(Joined(t.previous, Hop(n, reply))), status := Ready)]), t)
  }

  /** A failed call reaches its read: a stale cursor restarts a load-more once, any other error clears. */
  function Catch(v: View, n: nat, code: Code): View
    requires n in v.waiting && n < |v.calls|
  {
    var t := v.waiting[n];
    var w := v.(waiting := v.waiting - {n});
    if !TokenCurrent(v, t) then Finished(w, t) else
    var restart := t.restartable && code == StaleCursor;
    var c := v.cells[t.cell];
    var d := if restart then c.(value := None, changed := true) else c.(value := None, status := Failed);
    var x := ClearBelow(w.(cells := v.cells[t.cell := d]), c.slot);
    if restart then Issue(x, t.cell, v.calls[n].query, None, None, false, t.fence)
    else Finished(x, t)
  }

  /** The guard's own handler, which runs first: a lost selection blanks the whole reader. */
  function GuardTrips(v: View, n: nat, code: Code): View
    requires Rooted(v) && n in v.waiting && v.waiting[n].guard.Some?
  {
    var g := v.waiting[n].guard.value;
    var w := v.(waiting := v.waiting[n := v.waiting[n].(rejected := Some(code))]);
    if v.inbox.Some? && v.inbox.value.id == g.entry && v.selection == g.selection && Allowed(v)
       && (code == NotFound || code == StaleSelection)
    then
      var x := Invalidate(w);
      x.(cells := x.cells[RESOLUTION := x.cells[RESOLUTION].(status := Failed)])
    else w
  }

  // ---------------------------------------------------------------------------------------------
  // Selectors and loads

  function SelectorFor(v: View, ref: ThreadRef): Option<Selector> {
    if v.inbox.Some? && v.selected.Some? && v.selected.value.nonVendor
    then Some(ByInbox(ref, v.inbox.value.origin))
    else if v.vendor.None? then None
    else Some(ByVendor(v.vendor.value, ref, if v.inbox.Some? then Some(v.inbox.value.origin) else None))
  }

  function ThreadSelector(v: View, ref: ThreadRef): Option<Selector> {
    if !Allowed(v) then None else SelectorFor(v, ref)
  }

  /** The selector for a message on display; its thread is the one the messages value names. */
  function MessageSelector(v: View, message: string): Option<Selector> {
    var value := Value(v, MESSAGES);
    if !Allowed(v) || message !in Items(value) || !value.value.reply.Paged? || value.value.reply.thread.None? then None
    else ThreadSelector(v, value.value.reply.thread.value)
  }

  function LoadThreads(v: View, more: bool): View
    requires Rooted(v)
  {
    if v.vendor.None? || v.inbox.Some? then v
    else PageRead(v, THREADS, more, ListQuery(v.vendor.value, v.account))
  }

  function LoadMessages(v: View, more: bool): View
    requires Rooted(v)
  {
    if v.selected.None? then v else
    var s := ThreadSelector(v, v.selected.value.ref);
    if s.None? then v else PageRead(v, MESSAGES, more, MessagesQuery(s.value))
  }

  predicate ResolveRefused(v: View, more: bool)
    requires Rooted(v)
  {
    var value := v.cells[RESOLUTION].value;
    v.inbox.None? || !Allowed(v)
    || (more && (value.None? || !value.value.reply.Choices? || !More(NextCursor(value)) || v.cells[RESOLUTION].status == Loading))
  }

  /** A resolution takes a new selection generation; one from scratch also drops what was resolved before. */
  function Resolving(v: View, more: bool): (r: View)
    requires Rooted(v)
    ensures Rooted(r) && r.inbox == v.inbox
  {
    var w := v.(selection := v.selection + 1);
    if more then w else ClearContent(w.(vendor := None, selected := None))
  }

  /** Asks the engine which thread the origin belongs to; a chosen vendor leaves no cursor to pass on. */
  function StartResolution(v: View, more: bool): View
    requires Rooted(v) && v.inbox.Some?
  {
    StartRead(v, RESOLUTION, more, ResolveQuery(v.inbox.value.origin, v.inboxVendor),
              if more && v.inboxVendor.None? then NextCursor(v.cells[RESOLUTION].value) else None, more,
              WhileResolving(v.inbox.value.id, v.selection))
  }

  function ResolveInbox(v: View, more: bool): View
    requires Rooted(v)
  {
    if ResolveRefused(v, more) then v else StartResolution(Resolving(v, more), more)
  }

  /** The rest of a resolution, once its read is over: a resolved thread becomes the selection. */
  function AfterResolve(v: View, selection: nat): View
    requires Rooted(v) && selection in v.resuming
  {
    var w := v.(resuming := v.resuming - {selection});
    var c := v.cells[RESOLUTION];
    if !FenceHolds(v, WhileResolving(v.resuming[selection], selection)) || c.status != Ready
       || c.value.None? || !c.value.value.reply.Resolved? then w
    else
      var r := c.value.value.reply;
      LoadMessages(ClearContent(w.(selected := Some(r.selected), vendor := r.vendor)), false)
  }

  function Refresh(v: View): View
    requires Rooted(v)
  {
    var w := Invalidate(v);
    if w.inbox.Some? then ResolveInbox(w, false)
    else if w.selected.Some? then LoadMessages(w, false)
    else LoadThreads(w, false)
  }

  // ---------------------------------------------------------------------------------------------
  // Selections

  function OpenInbox(v: View, origin: MessageRef, current: bool): View
    requires Rooted(v)
  {
    Refresh(v.(inbox := Some(Entry(v.entries, origin)), entries := v.entries + 1, sourceCurrent := current,
               inboxVendor := None, vendor := None, selected := None, visible := true,
               account := Some(Account(origin.provider, origin.accountId))))
  }

  function ChooseVendor(v: View, vendor: string): View
    requires Rooted(v)
  {
    var choices := Value(v, RESOLUTION);
    if v.inbox.None? || !Allowed(v) || choices.None? || !choices.value.reply.Choices?
       || vendor !in choices.value.reply.items then v
    else
      ResolveInbox(Invalidate(v.(inboxVendor := Some(vendor))), false)
  }

  function SelectVendor(v: View, vendor: string): View
    requires Rooted(v)
  {
    Refresh(v.(inbox := None, inboxVendor := None, vendor := Some(vendor), account := None, selected := None, visible := true))
  }

  function SelectAccount(v: View, account: Option<Account>): View
    requires Rooted(v)
  {
    if v.inbox.Some? then v else Refresh(v.(account := account, selected := None))
  }

  /** The thread becomes the selection, and the thread list and everything read before goes. */
  function Opening(v: View, thread: ThreadItem): (r: View)
    requires Rooted(v)
    ensures Rooted(r)
  {
    ClearContent(ResetCell(v.(selection := v.selection + 1, selected := Some(thread)), THREADS))
  }

  function OpenThread(v: View, thread: ThreadItem): View
    requires Rooted(v)
  {
    if v.inbox.Some? then v else LoadMessages(Opening(v, thread), false)
  }

  function Suspend(v: View): View
    requires Rooted(v)
  {
    Invalidate(v.(visible := false))
  }

  function Close(v: View): View
    requires Rooted(v)
  {
    Suspend(v.(inbox := None, inboxVendor := None, vendor := None, selected := None, account := None))
  }

  function BackToThreads(v: View): View
    requires Rooted(v)
  {
    if v.inbox.Some? then Close(v) else Refresh(v.(selected := None))
  }

  function Resume(v: View): View
    requires Rooted(v)
  {
    Refresh(v.(visible := true))
  }

  function BeginMutation(v: View): View
    requires Rooted(v)
  {
    Invalidate(v.(mutations := v.mutations + 1))
  }

  function EndMutation(v: View, refresh: bool): View
    requires Rooted(v)
  {
    var w := v.(mutations := if v.mutations == 0 then 0 else v.mutations - 1);
    if refresh then Refresh(w) else w
  }

  // ---------------------------------------------------------------------------------------------
  // Bodies, copies and inventory

  function Attach(v: View, slot: Slot): View {
    v.(cells := v.cells[v.nextCell := Cell(slot, Idle, None, false, 0)],
       children := v.children[slot := v.nextCell], nextCell := v.nextCell + 1)
  }

  function CloseBody(v: View, message: string): View {
    Drop(v, {BodyOf(message)})
  }

  function OpenBody(v: View, message: string): View {
    var s := MessageSelector(v, message);
    if s.None? then v
    else StartRead(Attach(CloseBody(v, message), BodyOf(message)), v.nextCell, false,
                   BodyQuery(s.value, message), None, false, WhileAllowed)
  }

  function CloseCopies(v: View, message: string): View {
    Drop(v, {CopiesOf(message)} + InventorySlots(v, message))
  }

  function LoadCopies(v: View, message: string, more: bool): View {
    var s := MessageSelector(v, message);
    if s.None? || CopiesOf(message) !in v.children || v.children[CopiesOf(message)] !in v.cells then v
    else PageRead(v, v.children[CopiesOf(message)], more, CopiesQuery(s.value, message))
  }

  function OpenCopies(v: View, message: string): View {
    if MessageSelector(v, message).None? then v
    else LoadCopies(Attach(CloseCopies(v, message), CopiesOf(message)), message, false)
  }

  function CloseInventory(v: View, message: string, copy: string): View {
    Drop(v, {InventoryOf(message, copy)})
  }

  function LoadInventory(v: View, message: string, copy: string, more: bool): View {
    var s := MessageSelector(v, message);
    var slot := InventoryOf(message, copy);
    if s.None? || slot !in v.children || v.children[slot] !in v.cells then v
    else PageRead(v, v.children[slot], more, InventoryQuery(s.value, message, copy))
  }

  function OpenInventory(v: View, message: string, copy: string): View {
    if CopiesOf(message) !in v.children || copy !in Items(Value(v, v.children[CopiesOf(message)])) then v
    else LoadInventory(Attach(CloseInventory(v, message, copy), InventoryOf(message, copy)), message, copy, false)
  }

  // ---------------------------------------------------------------------------------------------
  // Events

  datatype Event =
    | InboxOpened(origin: MessageRef, current: bool)
    | SourceChanges(current: bool)
    | InboxResolved(more: bool)
    | VendorChosen(vendor: string)
    | VendorSelected(vendor: string)
    | AccountSelected(account: Option<Account>)
    | ThreadOpened(thread: ThreadItem)
    | ThreadsAgain
    | Closed
    | Suspended
    | Resumed
    | MutationBegins
    | MutationEnds(refresh: bool)
    | Refreshed
    | Invalidated
    | ThreadsLoaded(more: bool)
    | MessagesLoaded(more: bool)
    | BodyOpened(message: string)
    | BodyClosed(message: string)
    | CopiesOpened(message: string)
    | CopiesLoaded(message: string, more: bool)
    | CopiesClosed(message: string)
    | InventoryOpened(message: string, copy: string)
    | InventoryLoaded(message: string, copy: string, more: bool)
    | InventoryClosed(message: string, copy: string)
    | ReplyArrives(call: nat, reply: Reply)
    | CallFails(call: nat, code: Code)
    | RejectionArrives(call: nat)
    | ResolutionResumes(selection: nat)

  predicate Possible(v: View, e: Event) {
    match e
    case ReplyArrives(n, reply) =>
      n in v.waiting && v.waiting[n].rejected.None? && n < |v.calls| && Fits(v.calls[n].query, reply)
    case CallFails(n, _) => n in v.waiting && v.waiting[n].rejected.None? && n < |v.calls|
    case RejectionArrives(n) => n in v.waiting && v.waiting[n].rejected.Some? && n < |v.calls|
    case ResolutionResumes(s) => s in v.resuming
    case _ => true
  }

  function Next(v: View, e: Event): View
    requires Rooted(v) && Possible(v, e)
  {
    match e
    case InboxOpened(origin, current) => OpenInbox(v, origin, current)
    case SourceChanges(current) => v.(sourceCurrent := current)
    case InboxResolved(more) => ResolveInbox(v, more)
    case VendorChosen(vendor) => ChooseVendor(v, vendor)
    case VendorSelected(vendor) => SelectVendor(v, vendor)
    case AccountSelected(account) => SelectAccount(v, account)
    case ThreadOpened(thread) => OpenThread(v, thread)
    case ThreadsAgain => BackToThreads(v)
    case Closed => Close(v)
    case Suspended => Suspend(v)
    case Resumed => Resume(v)
    case MutationBegins => BeginMutation(v)
    case MutationEnds(refresh) => EndMutation(v, refresh)
    case Refreshed => Refresh(v)
    case Invalidated => Invalidate(v)
    case ThreadsLoaded(more) => LoadThreads(v, more)
    case MessagesLoaded(more) => LoadMessages(v, more)
    case BodyOpened(m) => OpenBody(v, m)
    case BodyClosed(m) => CloseBody(v, m)
    case CopiesOpened(m) => OpenCopies(v, m)
    case CopiesLoaded(m, more) => LoadCopies(v, m, more)
    case CopiesClosed(m) => CloseCopies(v, m)
    case InventoryOpened(m, c) => OpenInventory(v, m, c)
    case InventoryLoaded(m, c, more) => LoadInventory(v, m, c, more)
    case InventoryClosed(m, c) => CloseInventory(v, m, c)
    case ReplyArrives(n, reply) => Store(v, n, reply)
    case CallFails(n, code) => if v.waiting[n].guard.Some? then GuardTrips(v, n, code) else Catch(v, n, code)
    case RejectionArrives(n) => Catch(v, n, v.waiting[n].rejected.value)
    case ResolutionResumes(s) => AfterResolve(v, s)
  }
}
