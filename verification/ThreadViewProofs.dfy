/** What every reachable state of the thread reader keeps. */
module ThreadViewProofs {
  import opened Basics
  import opened ThreadViews

  // ---------------------------------------------------------------------------------------------
  // The invariant

  predicate RootSlot(s: Slot) {
    s.Resolution? || s.Threads? || s.Messages?
  }

  /** The cell is in its place: one of the three roots, or the one its slot's map holds. */
  predicate Attached(v: View, id: nat) {
    id in v.cells && (id < 3 || (v.cells[id].slot in v.children && v.children[v.cells[id].slot] == id))
  }

  /** The read that this token belongs to is the latest of its cell. */
  predicate Live(v: View, n: nat) {
    n in v.waiting && v.waiting[n].cell in v.cells && v.cells[v.waiting[n].cell].generation == v.waiting[n].generation
  }

  ghost predicate Shape(v: View) {
    && Rooted(v) && 3 <= v.nextCell
    && v.cells[RESOLUTION].slot == Resolution && v.cells[THREADS].slot == Threads && v.cells[MESSAGES].slot == Messages
    && (forall id :: id in v.cells ==> id < v.nextCell && (id < 3 || !RootSlot(v.cells[id].slot)))
    && (forall s :: s in v.children ==> 3 <= v.children[s] && v.children[s] in v.cells && v.cells[v.children[s]].slot == s)
  }

  /** Nothing in flight can reach a detached read state, and a read has at most one call out. */
  ghost predicate Fenced(v: View) {
    && (forall n :: n in v.waiting ==>
          n < |v.calls| && v.waiting[n].cell in v.cells
          && v.waiting[n].generation <= v.cells[v.waiting[n].cell].generation)
    && (forall n :: Live(v, n) ==> Attached(v, v.waiting[n].cell))
    && (forall n, k :: Live(v, n) && Live(v, k) && v.waiting[n].cell == v.waiting[k].cell ==> n == k)
    && (forall id :: id in v.cells && v.cells[id].value.Some? ==> Attached(v, id))
    && v.clearedAt <= |v.calls| && v.resolutionClearedAt <= |v.calls|
  }

  ghost predicate Structure(v: View) {
    Shape(v) && Fenced(v)
  }

  /** The threads named by the pages that the messages value was put together from. */
  function Names(v: View): set<ThreadRef> {
    var value := Value(v, MESSAGES);
    if value.None? then {}
    else set h | h in value.value.trail && h.reply.Paged? && h.reply.thread.Some? :: h.reply.thread.value
  }

  predicate NamedSelector(v: View, s: Selector) {
    s.thread in Names(v) && SelectorFor(v, s.thread) == Some(s)
  }

  /** The query is the one the current selection asks for in this slot. */
  predicate Asked(v: View, slot: Slot, q: Query) {
    match slot
    case Resolution => v.inbox.Some? && q == ResolveQuery(v.inbox.value.origin, v.inboxVendor)
    case Threads => v.inbox.None? && v.vendor.Some? && q == ListQuery(v.vendor.value, v.account)
    case Messages => q.MessagesQuery? && v.selected.Some? && SelectorFor(v, v.selected.value.ref) == Some(q.selector)
    case BodyOf(m) => q.BodyQuery? && q.message == m && NamedSelector(v, q.selector)
    case CopiesOf(m) => q.CopiesQuery? && q.message == m && NamedSelector(v, q.selector)
    case InventoryOf(m, c) => q.InventoryQuery? && q.message == m && q.copy == c && NamedSelector(v, q.selector)
  }

  /** Calls issued before this one are no business of the slot any more. */
  function Floor(v: View, slot: Slot): nat {
    if slot.Resolution? then v.resolutionClearedAt else v.clearedAt
  }

  function Concat(trail: seq<Hop>): seq<string> {
    if trail == [] then [] else Concat(trail[..|trail| - 1]) + ItemsOf(trail[|trail| - 1].reply)
  }

  predicate Follows(calls: seq<Call>, before: Reply, hop: Hop) {
    More(NextOf(before)) && hop.call < |calls| && calls[hop.call].cursor == NextOf(before)
  }

  function ThreadOf(r: Reply): Option<ThreadRef> {
    if r.Paged? then r.thread else None
  }

  /** A value is one chain of pages: the first asked for at the null cursor, each later one at the
      cursor the page before it left, and the items all of theirs in order. */
  ghost predicate Chain(calls: seq<Call>, h: Held) {
    && h.trail != []
    && (forall i :: 0 <= i < |h.trail| ==> h.trail[i].call < |calls|)
    && calls[h.trail[0].call].cursor == None
    && (forall i :: 0 < i < |h.trail| ==> Follows(calls, h.trail[i - 1].reply, h.trail[i]))
    && ItemsOf(h.reply) == Concat(h.trail)
    && NextOf(h.reply) == NextOf(h.trail[|h.trail| - 1].reply)
  }

  ghost predicate HopSound(v: View, slot: Slot, h: Hop) {
    && Floor(v, slot) <= h.call < |v.calls|
    && Asked(v, slot, v.calls[h.call].query)
    && Fits(v.calls[h.call].query, h.reply)
  }

  ghost predicate HeldSound(v: View, slot: Slot, h: Held) {
    && h.trail != []
    && (forall x :: x in h.trail ==> HopSound(v, slot, x))
    && (!h.reply.Resolved? ==> Chain(v.calls, h))
    && (slot.Resolution? ==> h.reply.Resolved? || (h.reply.Choices? && h.trail[|h.trail| - 1].reply.Choices?))
    && (!slot.Resolution? ==> !h.reply.Resolved?)
    && (!slot.Resolution? && !slot.BodyOf? ==> h.reply.Paged?)
    && (slot.Messages? ==> h.reply.Paged? && h.reply.thread.Some? && h.reply.thread == ThreadOf(h.trail[|h.trail| - 1].reply))
  }

  ghost predicate Provenance(v: View) {
    forall id :: id in v.cells && v.cells[id].value.Some? ==> HeldSound(v, v.cells[id].slot, v.cells[id].value.value)
  }

  ghost predicate TokenSound(v: View, n: nat)
    requires Live(v, n) && n < |v.calls|
  {
    var t := v.waiting[n];
    var c := v.cells[t.cell];
    && c.status == Loading && c.value == t.previous
    && v.calls[n].cursor == NextCursor(t.previous) && (t.previous.Some? ==> More(v.calls[n].cursor))
    && Asked(v, c.slot, v.calls[n].query) && Floor(v, c.slot) <= n
    && (c.slot.Resolution? <==> t.fence.WhileResolving?)
  }

  ghost predicate Reading(v: View) {
    forall n: nat :: Live(v, n) && n < |v.calls| ==> TokenSound(v, n)
  }

  /** Every body and every list of copies belongs to a message on display, every inventory to a copy on display. */
  predicate Tree(v: View) {
    forall s :: s in v.children ==>
      match s
      case BodyOf(m) => m in Items(Value(v, MESSAGES))
      case CopiesOf(m) => m in Items(Value(v, MESSAGES))
      case InventoryOf(m, c) => CopiesOf(m) in v.children && c in Items(Value(v, v.children[CopiesOf(m)]))
      case _ => false
  }

  predicate Blank(v: View) {
    Value(v, RESOLUTION).None? && Value(v, THREADS).None? && Value(v, MESSAGES).None? && v.children == map[]
  }

  predicate Hushed(v: View) {
    !v.visible || v.mutations > 0 ==> Blank(v)
  }

  ghost predicate Inv(v: View) {
    Structure(v) && Provenance(v) && Reading(v) && Tree(v) && Hushed(v)
  }

  // ---------------------------------------------------------------------------------------------
  // Clearing

  ghost predicate AllClear(v: View) {
    && Blank(v)
    && (forall id :: id in v.cells ==> v.cells[id].value.None?)
    && (forall n :: n in v.waiting ==> !Live(v, n))
  }

  lemma ClearInv(v: View)
    requires Structure(v) && AllClear(v)
    ensures Inv(v)
  {
  }

  lemma DropShape(v: View, doomed: set<Slot>)
    requires Shape(v)
    ensures Shape(Drop(v, doomed))
  {
  }

  lemma DropStructure(v: View, doomed: set<Slot>)
    requires Structure(v)
    ensures Structure(Drop(v, doomed))
  {
    DropShape(v, doomed);
    var w := Drop(v, doomed);
    forall n | Live(w, n) ensures Live(v, n) && Attached(w, w.waiting[n].cell) {
      assert !Falls(v.cells, v.children, doomed, v.waiting[n].cell);
    }
  }

  /** The cell holds nothing and no read of it can change that. */
  ghost predicate CellClear(v: View, id: nat) {
    && id in v.cells && v.cells[id].value.None?
    && (forall n :: Live(v, n) ==> v.waiting[n].cell != id)
  }

  lemma ResetShape(v: View, id: nat)
    requires Shape(v) && id < 3
    ensures Shape(ResetCell(v, id))
  {}

  lemma ResetStructure(v: View, id: nat)
    requires Structure(v) && id < 3
    ensures Structure(ResetCell(v, id)) && CellClear(ResetCell(v, id), id)
    ensures forall k :: CellClear(v, k) ==> CellClear(ResetCell(v, id), k)
  {
    ResetShape(v, id);
    var w := ResetCell(v, id);
    forall n | n in v.waiting ensures Live(w, n) <==> Live(v, n) && v.waiting[n].cell != id {}
  }

  /** With the roots clear, dropping the children leaves nothing at all. */
  lemma ChildrenCleared(v: View)
    requires Structure(v) && CellClear(v, RESOLUTION) && CellClear(v, THREADS) && CellClear(v, MESSAGES)
    ensures Structure(ClearChildren(v)) && AllClear(ClearChildren(v))
  {
    DropStructure(v, v.children.Keys);
    var y := ClearChildren(v);
    assert y.children == map[];
    forall n | n in y.waiting ensures !Live(y, n) {
      if Live(v, n) { assert Falls(v.cells, v.children, v.children.Keys, v.waiting[n].cell); }
    }
  }

  lemma RootsReset(v: View)
    requires Structure(v)
    ensures Structure(ResetRoots(v))
    ensures forall id: nat :: id < 3 ==> CellClear(ResetRoots(v), id)
  {
    ResetStructure(v, RESOLUTION);
    var a := ResetCell(v, RESOLUTION);
    ResetStructure(a, THREADS);
    var b := ResetCell(a, THREADS);
    ResetStructure(b, MESSAGES);
    hide Structure, CellClear, Reset;
    assert ResetRoots(v) == ResetCell(b, MESSAGES);
  }

  lemma EverythingCleared(v: View)
    requires Structure(v)
    ensures Structure(ClearChildren(ResetRoots(v))) && AllClear(ClearChildren(ResetRoots(v)))
  {
    RootsReset(v);
    ChildrenCleared(ResetRoots(v));
  }

  lemma InvalidateClears(v: View)
    requires Structure(v)
    ensures AllClear(Invalidate(v)) && Inv(Invalidate(v))
  {
    hide Inv, AllClear, ClearChildren, ResetRoots;
    InvRooted(v);
    ClearedFrame(v);
    EverythingCleared(v);
    StampsClear(ClearChildren(ResetRoots(v)), Invalidate(v));
    AllClearElsewhere(ClearChildren(ResetRoots(v)), Invalidate(v));
  }

  lemma InvRooted(v: View)
    requires Structure(v)
    ensures Rooted(v) && v.clearedAt <= |v.calls| && v.resolutionClearedAt <= |v.calls|
  {}

  lemma ClearedFrame(v: View)
    requires Rooted(v)
    ensures var w := ClearChildren(ResetRoots(v)); w == v.(cells := w.cells, children := w.children)
  {}

  lemma AllClearElsewhere(v: View, w: View)
    requires AllClear(v) && w.cells == v.cells && w.children == v.children && w.waiting == v.waiting
    ensures AllClear(w)
  {}

  /** Selection fields and history counters do not matter to a reader that is all clear. */
  lemma StampsClear(v: View, w: View)
    requires Structure(v) && AllClear(v)
    requires w.cells == v.cells && w.children == v.children && w.nextCell == v.nextCell
    requires w.calls == v.calls && w.waiting == v.waiting
    requires w.clearedAt <= |w.calls| && w.resolutionClearedAt <= |w.calls|
    ensures Structure(w) && AllClear(w) && Inv(w)
  {
    ClearInv(w);
  }

  // ---------------------------------------------------------------------------------------------
  // What carries over from one state to the next

  /** Between the two states the selection asks the same questions; calls and named threads only grow. */
  ghost predicate SameAsk(v: View, w: View) {
    && w.inbox == v.inbox && w.vendor == v.vendor && w.account == v.account && w.selected == v.selected
    && w.inboxVendor == v.inboxVendor
    && w.clearedAt == v.clearedAt && w.resolutionClearedAt == v.resolutionClearedAt
    && v.calls <= w.calls
  }

  lemma AskedAlong(v: View, w: View, slot: Slot, q: Query)
    requires SameAsk(v, w) && Asked(v, slot, q)
    requires RootSlot(slot) || Names(v) <= Names(w)
    ensures Asked(w, slot, q)
  {
    if !RootSlot(slot) {
      assert NamedSelector(v, q.selector) && SelectorFor(w, q.selector.thread) == SelectorFor(v, q.selector.thread);
    }
  }

  lemma HeldAlong(v: View, w: View, slot: Slot, h: Held)
    requires SameAsk(v, w) && HeldSound(v, slot, h)
    requires RootSlot(slot) || Names(v) <= Names(w)
    ensures HeldSound(w, slot, h)
  {
    forall x | x in h.trail ensures HopSound(w, slot, x) {
      assert HopSound(v, slot, x);
      AskedAlong(v, w, slot, v.calls[x.call].query);
    }
    if !slot.Resolution? {
      forall i | 0 < i < |h.trail| ensures Follows(w.calls, h.trail[i - 1].reply, h.trail[i]) {
        assert Follows(v.calls, h.trail[i - 1].reply, h.trail[i]);
      }
    }
  }

  /** The cell and its value are as they were, or the value is gone. */
  predicate Untouched(v: View, w: View, id: nat) {
    id in w.cells && (w.cells[id].value.None? || (id in v.cells && w.cells[id] == v.cells[id]))
  }

  lemma ProvenanceAlong(v: View, w: View, except: nat)
    requires Provenance(v) && SameAsk(v, w)
    requires forall id :: id in w.cells && id != except ==> Untouched(v, w, id)
    requires forall id :: id in w.cells && id != except && w.cells[id].value.Some? && !RootSlot(w.cells[id].slot) ==>
      Names(v) <= Names(w)
    requires except in w.cells && w.cells[except].value.Some? ==> HeldSound(w, w.cells[except].slot, w.cells[except].value.value)
    ensures Provenance(w)
  {
    forall id | id in w.cells && w.cells[id].value.Some? && id != except
      ensures HeldSound(w, w.cells[id].slot, w.cells[id].value.value)
    {
      assert Untouched(v, w, id);
      HeldAlong(v, w, w.cells[id].slot, w.cells[id].value.value);
    }
  }

  lemma ReadingAlong(v: View, w: View, except: nat)
    requires Fenced(v) && Reading(v) && SameAsk(v, w)
    requires forall n: nat :: Live(w, n) && w.waiting[n].cell != except ==>
      Live(v, n) && w.waiting[n].(rejected := None) == v.waiting[n].(rejected := None)
      && w.cells[w.waiting[n].cell] == v.cells[w.waiting[n].cell]
      && (RootSlot(w.cells[w.waiting[n].cell].slot) || Names(v) <= Names(w))
    requires forall n: nat :: Live(w, n) && n < |w.calls| && w.waiting[n].cell == except ==> TokenSound(w, n)
    ensures Reading(w)
  {
    forall n: nat | Live(w, n) && n < |w.calls| && w.waiting[n].cell != except ensures TokenSound(w, n) {
      assert TokenSound(v, n) && w.calls[n] == v.calls[n];
      AskedAlong(v, w, v.cells[v.waiting[n].cell].slot, v.calls[n].query);
    }
  }

  // ---------------------------------------------------------------------------------------------
  // Dropping children

  /** Copies never go without their inventory. */
  predicate Downward(v: View, doomed: set<Slot>) {
    forall s :: s in v.children && s.InventoryOf? && CopiesOf(s.message) in doomed ==> s in doomed
  }

  lemma DropTree(v: View, doomed: set<Slot>)
    requires Shape(v) && Tree(v) && Downward(v, doomed)
    requires forall id: nat :: id < 3 ==> Drop(v, doomed).cells[id] == v.cells[id]
    ensures Tree(Drop(v, doomed))
  {
    var w := Drop(v, doomed);
    forall s | s in w.children
      ensures s.InventoryOf? ==> CopiesOf(s.message) in w.children
                                 && Value(w, w.children[CopiesOf(s.message)]) == Value(v, v.children[CopiesOf(s.message)])
    {
      if s.InventoryOf? {
        assert !Falls(v.cells, v.children, doomed, v.children[CopiesOf(s.message)]);
      }
    }
  }

  lemma DropKeeps(v: View, doomed: set<Slot>)
    requires Inv(v) && Downward(v, doomed)
    ensures Inv(Drop(v, doomed))
  {
    var w := Drop(v, doomed);
    DropStructure(v, doomed);
    DropFrame(v, doomed);
    DropTree(v, doomed);
    hide Shape, Tree, CellsLeft;
    ProvenanceAlong(v, w, v.nextCell);
    ReadingAlong(v, w, v.nextCell);
  }

  /** A drop leaves roots, names and whatever does not fall as they were. */
  lemma DropFrame(v: View, doomed: set<Slot>)
    requires Structure(v)
    ensures var w := Drop(v, doomed);
      && SameAsk(v, w) && Names(w) == Names(v)
      && (forall id: nat :: id < 3 ==> w.cells[id] == v.cells[id])
      && (forall id: nat :: id in w.cells ==> Untouched(v, w, id))
      && (forall n: nat :: Live(w, n) ==> Live(v, n) && w.cells[w.waiting[n].cell] == v.cells[w.waiting[n].cell])
  {
    var w := Drop(v, doomed);
    forall id: nat | id < 3 ensures w.cells[id] == v.cells[id] {
      assert !Falls(v.cells, v.children, doomed, id);
    }
    forall n: nat | Live(w, n) ensures Live(v, n) && w.cells[w.waiting[n].cell] == v.cells[w.waiting[n].cell] {
      assert !Falls(v.cells, v.children, doomed, v.waiting[n].cell);
    }
  }

  // ---------------------------------------------------------------------------------------------
  // Starting a read

  /** No call out can change this cell. */
  ghost predicate Quiet(v: View, id: nat) {
    forall n: nat :: Live(v, n) ==> v.waiting[n].cell != id
  }

  /** Nothing hangs below the slot. */
  predicate NothingBelow(v: View, slot: Slot) {
    && (slot.Messages? ==> v.children == map[])
    && (slot.CopiesOf? ==> InventorySlots(v, slot.message) == {})
  }

  function SetCell(v: View, id: nat, d: Cell): View {
    v.(cells := v.cells[id := d])
  }

  lemma SetCellStructure(v: View, id: nat, d: Cell)
    requires Structure(v) && Attached(v, id)
    requires d.slot == v.cells[id].slot && v.cells[id].generation <= d.generation
    requires v.cells[id].generation < d.generation || Quiet(v, id)
    ensures Structure(SetCell(v, id, d)) && Quiet(SetCell(v, id, d), id)
    ensures forall n: nat :: Live(SetCell(v, id, d), n) ==> Live(v, n) && v.waiting[n].cell != id
  {
    var w := SetCell(v, id, d);
    assert Shape(w);
    forall n: nat | Live(w, n) ensures Live(v, n) && v.waiting[n].cell != id {}
  }

  /** Replacing a cell keeps the names, unless it empties the messages; then no child is left to ask. */
  lemma SetCellNames(v: View, id: nat, d: Cell)
    requires Structure(v) && Attached(v, id) && d.slot == v.cells[id].slot
    requires d.value == v.cells[id].value || (d.value.None? && NothingBelow(v, d.slot))
    ensures Names(SetCell(v, id, d)) == Names(v) || v.children == map[]
  {
    assert id == MESSAGES ==> d.slot == Messages;
  }

  lemma OnlyRoots(v: View)
    requires Structure(v) && v.children == map[]
    ensures forall k :: k in v.cells && v.cells[k].value.Some? ==> RootSlot(v.cells[k].slot)
    ensures forall n: nat :: Live(v, n) ==> RootSlot(v.cells[v.waiting[n].cell].slot)
  {
    forall k | k in v.cells && v.cells[k].value.Some? ensures RootSlot(v.cells[k].slot) {
      assert Attached(v, k);
    }
    forall n: nat | Live(v, n) ensures RootSlot(v.cells[v.waiting[n].cell].slot) {
      assert Attached(v, v.waiting[n].cell);
    }
  }

  lemma SetCellProvenance(v: View, id: nat, d: Cell)
    requires Structure(v) && Provenance(v) && Attached(v, id) && d.slot == v.cells[id].slot
    requires d.value == v.cells[id].value || (d.value.None? && NothingBelow(v, d.slot))
    ensures Provenance(SetCell(v, id, d))
  {
    var w := SetCell(v, id, d);
    SetCellNames(v, id, d);
    if v.children == map[] { OnlyRoots(v); }
    if d.value.Some? {
      assert id == MESSAGES ==> Names(w) == Names(v);
      HeldAlong(v, w, d.slot, d.value.value);
    }
    ProvenanceAlong(v, w, id);
  }

  lemma SetCellReading(v: View, id: nat, d: Cell)
    requires Structure(v) && Reading(v) && Attached(v, id) && d.slot == v.cells[id].slot
    requires d.value == v.cells[id].value || (d.value.None? && NothingBelow(v, d.slot))
    requires forall n: nat :: Live(SetCell(v, id, d), n) ==> Live(v, n) && v.waiting[n].cell != id
    ensures Reading(SetCell(v, id, d))
  {
    SetCellNames(v, id, d);
    if v.children == map[] { OnlyRoots(v); }
    ReadingAlong(v, SetCell(v, id, d), id);
  }

  lemma SetCellKeeps(v: View, id: nat, d: Cell)
    requires Inv(v) && Attached(v, id)
    requires d.slot == v.cells[id].slot && v.cells[id].generation <= d.generation
    requires v.cells[id].generation < d.generation || Quiet(v, id)
    requires d.value == v.cells[id].value || (d.value.None? && NothingBelow(v, d.slot))
    ensures Inv(SetCell(v, id, d)) && Quiet(SetCell(v, id, d), id)
  {
    SetCellStructure(v, id, d);
    SetCellProvenance(v, id, d);
    SetCellReading(v, id, d);
    SetCellTree(v, id, d);
  }

  lemma SetCellTree(v: View, id: nat, d: Cell)
    requires Shape(v) && Tree(v) && Attached(v, id) && d.slot == v.cells[id].slot
    requires d.value == v.cells[id].value || (d.value.None? && NothingBelow(v, d.slot))
    ensures Tree(SetCell(v, id, d))
  {
    var w := SetCell(v, id, d);
    forall s | s in w.children && s.InventoryOf?
      ensures s.copy in Items(Value(w, w.children[CopiesOf(s.message)]))
    {
      assert s in InventorySlots(v, s.message);
    }
  }

  lemma IssueStructure(v: View, id: nat, query: Query, cursor: Cursor, previous: Option<Held>, restartable: bool, fence: Fence)
    requires Structure(v) && Attached(v, id) && Quiet(v, id)
    ensures Structure(Issue(v, id, query, cursor, previous, restartable, fence))
    ensures forall n: nat :: Live(Issue(v, id, query, cursor, previous, restartable, fence), n) ==>
      n == |v.calls| || (Live(v, n) && v.waiting[n].cell != id)
  {
    var w := Issue(v, id, query, cursor, previous, restartable, fence);
    assert Shape(w);
    forall n: nat | Live(w, n) ensures n == |v.calls| || (Live(v, n) && v.waiting[n].cell != id) {}
  }

  lemma IssuedTokenSound(v: View, id: nat, query: Query, cursor: Cursor, previous: Option<Held>, restartable: bool, fence: Fence)
    requires Inv(v) && Attached(v, id) && Quiet(v, id)
    requires v.cells[id].status == Loading && v.cells[id].value == previous
    requires Asked(v, v.cells[id].slot, query)
    requires v.cells[id].slot.Resolution? <==> fence.WhileResolving?
    requires cursor == NextCursor(previous) && (previous.Some? ==> More(cursor))
    ensures var w := Issue(v, id, query, cursor, previous, restartable, fence);
      Live(w, |v.calls|) && TokenSound(w, |v.calls|)
  {
    var w := Issue(v, id, query, cursor, previous, restartable, fence);
    AskedAlong(v, w, v.cells[id].slot, query);
    hide Provenance, HeldSound, Tree, Reading, Asked;
    assert w.calls[|v.calls|] == Call(query, cursor);
  }

  lemma IssueReading(v: View, id: nat, query: Query, cursor: Cursor, previous: Option<Held>, restartable: bool, fence: Fence)
    requires Inv(v) && Attached(v, id) && Quiet(v, id)
    requires v.cells[id].status == Loading && v.cells[id].value == previous
    requires Asked(v, v.cells[id].slot, query)
    requires v.cells[id].slot.Resolution? <==> fence.WhileResolving?
    requires cursor == NextCursor(previous) && (previous.Some? ==> More(cursor))
    ensures Reading(Issue(v, id, query, cursor, previous, restartable, fence))
  {
    var w := Issue(v, id, query, cursor, previous, restartable, fence);
    IssueStructure(v, id, query, cursor, previous, restartable, fence);
    IssuedTokenSound(v, id, query, cursor, previous, restartable, fence);
    hide Provenance, HeldSound, Tree, Shape, TokenSound;
    ReadingAlong(v, w, id);
  }

  lemma IssueKeeps(v: View, id: nat, query: Query, cursor: Cursor, previous: Option<Held>, restartable: bool, fence: Fence)
    requires Inv(v) && Attached(v, id) && Quiet(v, id)
    requires v.cells[id].status == Loading && v.cells[id].value == previous
    requires Asked(v, v.cells[id].slot, query)
    requires v.cells[id].slot.Resolution? <==> fence.WhileResolving?
    requires cursor == NextCursor(previous) && (previous.Some? ==> More(cursor))
    ensures Inv(Issue(v, id, query, cursor, previous, restartable, fence))
  {
    var w := Issue(v, id, query, cursor, previous, restartable, fence);
    IssueStructure(v, id, query, cursor, previous, restartable, fence);
    IssueReading(v, id, query, cursor, previous, restartable, fence);
    hide Reading, Structure;
    assert Names(w) == Names(v);
    ProvenanceAlong(v, w, v.nextCell);
  }

  lemma StartReadKeeps(v: View, id: nat, more: bool, query: Query, cursor: Cursor, restartable: bool, fence: Fence)
    requires Inv(v) && Attached(v, id)
    requires Asked(v, v.cells[id].slot, query)
    requires v.cells[id].slot.Resolution? <==> fence.WhileResolving?
    requires !more ==> NothingBelow(v, v.cells[id].slot)
    requires if more then cursor == NextCursor(v.cells[id].value) && More(cursor) else cursor.None?
    ensures Inv(StartRead(v, id, more, query, cursor, restartable, fence))
  {
    var d := Opened(v.cells[id], more);
    assert Inv(SetCell(v, id, d)) && Quiet(SetCell(v, id, d), id) by { SetCellKeeps(v, id, d); }
    SetCellAsked(v, id, d, query);
    IssueKeeps(SetCell(v, id, d), id, query, cursor, d.value, restartable, fence);
  }

  lemma SetCellAsked(v: View, id: nat, d: Cell, query: Query)
    requires Shape(v) && Attached(v, id) && Asked(v, v.cells[id].slot, query)
    requires d.slot == v.cells[id].slot
    ensures Attached(SetCell(v, id, d), id) && Asked(SetCell(v, id, d), d.slot, query)
  {
    var w := SetCell(v, id, d);
    if !RootSlot(d.slot) { assert Names(w) == Names(v); }
    AskedAlong(v, w, d.slot, query);
  }

  /** What a drop leaves of the cell `id` and of the rest. */
  ghost predicate Cut(v: View, w: View, id: nat) {
    && id in v.cells && Inv(w) && Attached(w, id) && w.cells[id] == v.cells[id] && NothingBelow(w, v.cells[id].slot)
    && SameAsk(v, w) && Names(w) == Names(v)
    && (forall n: nat :: Live(w, n) ==> Live(v, n))
  }

  lemma ChildrenCut(v: View, id: nat)
    requires Inv(v) && id < 3
    ensures Cut(v, ClearChildren(v), id)
  {
    var w := ClearChildren(v);
    assert Inv(w) by { DropKeeps(v, v.children.Keys); }
    DropFrame(v, v.children.Keys);
    assert w.children == map[];
  }

  lemma InventoryCut(v: View, id: nat, message: string)
    requires Inv(v) && Attached(v, id) && v.cells[id].slot == CopiesOf(message)
    ensures Cut(v, ClearInventory(v, message), id)
  {
    var w := ClearInventory(v, message);
    var doomed := InventorySlots(v, message);
    assert Inv(w) by { DropKeeps(v, doomed); }
    DropFrame(v, doomed);
    assert !Falls(v.cells, v.children, doomed, id);
  }

  /** Clearing below a slot leaves the slot's own cell alone and nothing under it. */
  lemma ClearBelowKeeps(v: View, id: nat)
    requires Inv(v) && Attached(v, id)
    ensures Cut(v, ClearBelow(v, v.cells[id].slot), id)
  {
    match v.cells[id].slot {
      case Resolution => ChildrenCut(v, id);
      case Messages => ChildrenCut(v, id);
      case CopiesOf(m) => InventoryCut(v, id, m);
      case _ =>
    }
  }

  lemma PageReadKeeps(v: View, id: nat, more: bool, query: Query)
    requires Inv(v) && Attached(v, id) && !v.cells[id].slot.Resolution?
    requires Asked(v, v.cells[id].slot, query)
    ensures Inv(PageRead(v, id, more, query))
  {
    if !PageRefused(v, id, more) {
      if more {
        StartReadKeeps(v, id, true, query, NextCursor(v.cells[id].value), true, WhileAllowed);
      } else {
        ClearBelowKeeps(v, id);
        var w := ClearBelow(v, v.cells[id].slot);
        AskedAlong(v, w, v.cells[id].slot, query);
        StartReadKeeps(w, id, false, query, None, false, WhileAllowed);
      }
    }
  }

  // ---------------------------------------------------------------------------------------------
  // Replies and errors

  /** Cells, calls and selection are the same, and no token is new; tokens may be gone or marked rejected. */
  ghost predicate SameContent(v: View, w: View) {
    && w.cells == v.cells && w.children == v.children && w.nextCell == v.nextCell && w.calls == v.calls
    && SameAsk(v, w) && w.visible == v.visible && w.mutations == v.mutations
    && (forall k :: k in w.waiting ==> k in v.waiting && w.waiting[k].(rejected := None) == v.waiting[k].(rejected := None))
  }

  lemma SameStructure(v: View, w: View)
    requires Structure(v) && SameContent(v, w)
    ensures Structure(w) && Names(w) == Names(v)
    ensures forall k: nat :: Live(w, k) ==> Live(v, k) && w.waiting[k].cell == v.waiting[k].cell
  {
    forall k: nat | Live(w, k) ensures Live(v, k) && w.waiting[k].cell == v.waiting[k].cell {
      assert w.waiting[k].(rejected := None) == v.waiting[k].(rejected := None);
    }
    forall k | k in w.waiting ensures w.waiting[k].cell == v.waiting[k].cell && w.waiting[k].generation == v.waiting[k].generation {
      assert w.waiting[k].(rejected := None) == v.waiting[k].(rejected := None);
    }
  }

  lemma SameKeeps(v: View, w: View)
    requires Inv(v) && SameContent(v, w)
    ensures Inv(w)
  {
    SameStructure(v, w);
    ProvenanceAlong(v, w, v.nextCell);
    ReadingAlong(v, w, v.nextCell);
  }

  lemma ForgetKeeps(v: View, n: nat)
    requires Inv(v)
    ensures Inv(v.(waiting := v.waiting - {n}))
    ensures forall k: nat :: Live(v.(waiting := v.waiting - {n}), k) ==> Live(v, k) && k != n
  {
    SameKeeps(v, v.(waiting := v.waiting - {n}));
  }

  lemma ResumingKeeps(v: View, resuming: map<nat, nat>)
    requires Inv(v)
    ensures Inv(v.(resuming := resuming))
  {
    SameKeeps(v, v.(resuming := resuming));
  }

  /** One more page joins a chain at its open end. */
  lemma ChainGrows(calls: seq<Call>, h: Held, hop: Hop)
    requires Chain(calls, h) && ((h.reply.Paged? && hop.reply.Paged?) || (h.reply.Choices? && hop.reply.Choices?))
    requires Follows(calls, h.reply, hop)
    ensures Chain(calls, Joined(Some(h), hop))
  {
    var j := Joined(Some(h), hop);
    assert j.trail[..|j.trail| - 1] == h.trail;
    forall i | 0 < i < |j.trail| ensures Follows(calls, j.trail[i - 1].reply, j.trail[i]) {
      if i < |h.trail| { assert Follows(calls, h.trail[i - 1].reply, h.trail[i]); }
    }
  }

  lemma ChainStarts(calls: seq<Call>, hop: Hop)
    requires hop.call < |calls| && calls[hop.call].cursor.None?
    ensures Chain(calls, Joined(None, hop))
  {
    assert Concat([hop]) == Concat([]) + ItemsOf(hop.reply);
  }

  /** Only pages are continued, and only by pages; vendor choices may also give way to a resolved thread. */
  lemma ContinuesPages(v: View, n: nat, reply: Reply)
    requires Live(v, n) && n < |v.calls| && Fits(v.calls[n].query, reply) && TokenSound(v, n)
    requires v.waiting[n].previous.Some? && HeldSound(v, v.cells[v.waiting[n].cell].slot, v.waiting[n].previous.value)
    ensures var before := v.waiting[n].previous.value.reply;
      if v.cells[v.waiting[n].cell].slot.Resolution? then before.Choices? && (reply.Choices? || reply.Resolved?)
      else before.Paged? && reply.Paged?
  {
    var h := v.waiting[n].previous.value;
    var last := h.trail[|h.trail| - 1];
    assert HopSound(v, v.cells[v.waiting[n].cell].slot, last);
    assert More(NextOf(h.reply));
  }

  /** What a current reply stores is sound: it answers what the slot asks, and it continues the chain. */
  lemma JoinedSound(v: View, n: nat, reply: Reply)
    requires Live(v, n) && n < |v.calls| && Fits(v.calls[n].query, reply) && TokenSound(v, n)
    requires v.waiting[n].previous.Some? ==> HeldSound(v, v.cells[v.waiting[n].cell].slot, v.waiting[n].previous.value)
    ensures HeldSound(v, v.cells[v.waiting[n].cell].slot, Joined(v.waiting[n].previous, Hop(n, reply)))
  {
    var t := v.waiting[n];
    var slot := v.cells[t.cell].slot;
    assert HopSound(v, slot, Hop(n, reply));
    if t.previous.Some? {
      ContinuesPages(v, n, reply);
      if !reply.Resolved? { ChainGrows(v.calls, t.previous.value, Hop(n, reply)); }
    } else {
      ChainStarts(v.calls, Hop(n, reply));
    }
  }

  function StoredCell(v: View, n: nat, reply: Reply): Cell
    requires Live(v, n)
  {
    var t := v.waiting[n];
    v.cells[t.cell].(value := Some(Joined(t.previous, Hop(n, reply))), status := Ready)
  }

  lemma StoredItems(v: View, n: nat, reply: Reply)
    requires Live(v, n) && n < |v.calls| && Fits(v.calls[n].query, reply) && TokenSound(v, n)
    requires v.waiting[n].previous.Some? ==> HeldSound(v, v.cells[v.waiting[n].cell].slot, v.waiting[n].previous.value)
    ensures !StoredCell(v, n, reply).slot.Resolution? ==>
      forall x :: x in Items(v.cells[v.waiting[n].cell].value) ==> x in Items(StoredCell(v, n, reply).value)
  {
    if v.waiting[n].previous.Some? && !v.cells[v.waiting[n].cell].slot.Resolution? { ContinuesPages(v, n, reply); }
  }

  lemma StoredNames(v: View, n: nat, reply: Reply)
    requires Shape(v) && Live(v, n) && n < |v.calls| && TokenSound(v, n)
    ensures Names(v) <= Names(SetCell(v, v.waiting[n].cell, StoredCell(v, n, reply)))
  {
    var t := v.waiting[n];
    if t.cell == MESSAGES && t.previous.Some? {
      assert Value(v, MESSAGES) == t.previous;
    }
  }

  lemma StoreKeeps(v: View, n: nat, reply: Reply)
    requires Inv(v) && Possible(v, ReplyArrives(n, reply))
    ensures Inv(Store(v, n, reply))
  {
    var t := v.waiting[n];
    var u := v.(waiting := v.waiting - {n});
    ForgetKeeps(v, n);
    if TokenCurrent(v, t) {
      StoredKeeps(v, n, reply, u);
      if t.fence.WhileResolving? {
        ResumingKeeps(SetCell(u, t.cell, StoredCell(v, n, reply)), u.resuming[t.fence.selection := t.fence.entry]);
      }
    } else if t.fence.WhileResolving? {
      ResumingKeeps(u, u.resuming[t.fence.selection := t.fence.entry]);
    }
  }

  lemma StoredContent(v: View, n: nat, reply: Reply, u: View)
    requires Inv(v) && Live(v, n) && n < |v.calls| && Fits(v.calls[n].query, reply)
    requires Inv(u) && u == v.(waiting := v.waiting - {n})
    ensures Provenance(SetCell(u, v.waiting[n].cell, StoredCell(v, n, reply)))
    ensures Tree(SetCell(u, v.waiting[n].cell, StoredCell(v, n, reply)))
    ensures Names(u) <= Names(SetCell(u, v.waiting[n].cell, StoredCell(v, n, reply)))
  {
    var t := v.waiting[n];
    var d := StoredCell(v, n, reply);
    var w := SetCell(u, t.cell, d);
    assert TokenSound(v, n) && Attached(v, t.cell);
    StoredNames(v, n, reply);
    assert Names(w) == Names(SetCell(v, t.cell, d)) && Names(u) == Names(v);
    JoinedSound(v, n, reply);
    HeldAlong(v, w, d.slot, d.value.value);
    ProvenanceAlong(u, w, t.cell);
    StoredItems(v, n, reply);
    StoredTree(v, u, t.cell, d);
  }

  lemma StoredKeeps(v: View, n: nat, reply: Reply, u: View)
    requires Inv(v) && Possible(v, ReplyArrives(n, reply)) && TokenCurrent(v, v.waiting[n])
    requires Inv(u) && u == v.(waiting := v.waiting - {n})
    requires forall k: nat :: Live(u, k) ==> Live(v, k) && k != n
    ensures Inv(SetCell(u, v.waiting[n].cell, StoredCell(v, n, reply)))
  {
    var id := v.waiting[n].cell;
    var d := StoredCell(v, n, reply);
    StoredQuiet(v, n, u);
    SetCellStructure(u, id, d);
    StoredContent(v, n, reply, u);
    StoredReading(v, n, reply, u);
    hide Structure, Provenance, Tree, Reading;
  }

  lemma StoredReading(v: View, n: nat, reply: Reply, u: View)
    requires Inv(v) && Live(v, n) && n < |v.calls| && Fits(v.calls[n].query, reply)
    requires Inv(u) && u == v.(waiting := v.waiting - {n})
    requires forall k: nat :: Live(u, k) ==> Live(v, k) && k != n
    ensures Reading(SetCell(u, v.waiting[n].cell, StoredCell(v, n, reply)))
  {
    StoredQuiet(v, n, u);
    StoredContent(v, n, reply, u);
    hide Provenance, Tree, HeldSound;
    ReadingAlong(u, SetCell(u, v.waiting[n].cell, StoredCell(v, n, reply)), v.waiting[n].cell);
  }

  lemma StoredQuiet(v: View, n: nat, u: View)
    requires Inv(v) && Live(v, n) && u == v.(waiting := v.waiting - {n})
    requires forall k: nat :: Live(u, k) ==> Live(v, k) && k != n
    ensures Attached(v, v.waiting[n].cell) && Attached(u, v.waiting[n].cell) && Quiet(u, v.waiting[n].cell)
  {
    hide Provenance, Tree, Reading, Names;
  }

  lemma StoredTree(v: View, u: View, id: nat, d: Cell)
    requires Shape(v) && Tree(v) && Attached(v, id) && d.slot == v.cells[id].slot
    requires u.cells == v.cells && u.children == v.children
    requires !d.slot.Resolution? ==> forall x :: x in Items(v.cells[id].value) ==> x in Items(d.value)
    ensures Tree(SetCell(u, id, d))
  {
  }

  /** Clearing below commutes with replacing the cell above. */
  lemma CellsCommute(cells: map<nat, Cell>, children: map<Slot, nat>, doomed: set<Slot>, id: nat, d: Cell)
    requires id in cells && d.slot == cells[id].slot && !Falls(cells, children, doomed, id)
    ensures CellsLeft(cells[id := d], children, doomed) == CellsLeft(cells, children, doomed)[id := d]
  {
    hide Reset;
  }

  lemma CutCommutes(u: View, id: nat, d: Cell)
    requires Shape(u) && Attached(u, id) && d.slot == u.cells[id].slot
    ensures ClearBelow(SetCell(u, id, d), d.slot) == SetCell(ClearBelow(u, d.slot), id, d)
  {
    var doomed := if d.slot.CopiesOf? then InventorySlots(u, d.slot.message) else u.children.Keys;
    if d.slot.CopiesOf? || d.slot.Resolution? || d.slot.Messages? {
      assert !Falls(u.cells, u.children, doomed, id);
      hide CellsLeft, Shape;
      CellsCommute(u.cells, u.children, doomed, id, d);
    }
  }

  /** A failed read of cell `id`, its token gone: everything below goes, then its value. */
  lemma EmptiedKeeps(u: View, id: nat, d: Cell)
    requires Inv(u) && Attached(u, id) && Quiet(u, id)
    requires d.slot == u.cells[id].slot && d.generation == u.cells[id].generation && d.value.None?
    ensures var x := ClearBelow(SetCell(u, id, d), d.slot);
      Inv(x) && Quiet(x, id) && Attached(x, id) && x.cells[id] == d && SameAsk(u, x) && (RootSlot(d.slot) || Names(x) == Names(u))
  {
    CutCommutes(u, id, d);
    ClearBelowKeeps(u, id);
    var y := ClearBelow(u, d.slot);
    assert Quiet(y, id);
    SetCellKeeps(y, id, d);
  }

  lemma RestartKeeps(v: View, n: nat, u: View, d: Cell)
    requires Inv(v) && n in v.waiting && n < |v.calls| && TokenCurrent(v, v.waiting[n])
    requires Inv(u) && u == v.(waiting := v.waiting - {n}) && Quiet(u, v.waiting[n].cell)
    requires d == v.cells[v.waiting[n].cell].(value := None, changed := true)
    ensures Inv(Issue(ClearBelow(SetCell(u, v.waiting[n].cell, d), d.slot), v.waiting[n].cell, v.calls[n].query, None, None,
                      false, v.waiting[n].fence))
  {
    var t := v.waiting[n];
    assert Live(v, n) && TokenSound(v, n) && Attached(u, t.cell);
    EmptiedKeeps(u, t.cell, d);
    var x := ClearBelow(SetCell(u, t.cell, d), d.slot);
    assert Names(u) == Names(v);
    AskedAlong(v, x, d.slot, v.calls[n].query);
    IssueKeeps(x, t.cell, v.calls[n].query, None, None, false, t.fence);
  }

  lemma CatchKeeps(v: View, n: nat, code: Code)
    requires Inv(v) && n in v.waiting && n < |v.calls|
    ensures Inv(Catch(v, n, code))
  {
    var t := v.waiting[n];
    var u := v.(waiting := v.waiting - {n});
    ForgetKeeps(v, n);
    if TokenCurrent(v, t) {
      assert Live(v, n) && Attached(v, t.cell) && Attached(u, t.cell);
      assert Quiet(u, t.cell);
      var c := v.cells[t.cell];
      if t.restartable && code == StaleCursor {
        RestartKeeps(v, n, u, c.(value := None, changed := true));
      } else {
        EmptiedKeeps(u, t.cell, c.(value := None, status := Failed));
        var x := ClearBelow(SetCell(u, t.cell, c.(value := None, status := Failed)), c.slot);
        if t.fence.WhileResolving? { ResumingKeeps(x, x.resuming[t.fence.selection := t.fence.entry]); }
      }
    } else if t.fence.WhileResolving? {
      ResumingKeeps(u, u.resuming[t.fence.selection := t.fence.entry]);
    }
  }

  lemma RejectedKeeps(v: View, n: nat, code: Code)
    requires Inv(v) && n in v.waiting
    ensures Inv(v.(waiting := v.waiting[n := v.waiting[n].(rejected := Some(code))]))
  {
    SameKeeps(v, v.(waiting := v.waiting[n := v.waiting[n].(rejected := Some(code))]));
  }

  lemma GuardTripsKeeps(v: View, n: nat, code: Code)
    requires Inv(v) && n in v.waiting && v.waiting[n].guard.Some?
    ensures Inv(GuardTrips(v, n, code))
  {
    var w := v.(waiting := v.waiting[n := v.waiting[n].(rejected := Some(code))]);
    RejectedKeeps(v, n, code);
    InvalidateClears(w);
    var x := Invalidate(w);
    assert Quiet(x, RESOLUTION);
    SetCellKeeps(x, RESOLUTION, x.cells[RESOLUTION].(status := Failed));
  }

  // ---------------------------------------------------------------------------------------------
  // Loads and selections

  lemma LoadThreadsKeeps(v: View, more: bool)
    requires Inv(v)
    ensures Inv(LoadThreads(v, more))
  {
    if v.vendor.Some? && v.inbox.None? {
      PageReadKeeps(v, THREADS, more, ListQuery(v.vendor.value, v.account));
    }
  }

  lemma LoadMessagesKeeps(v: View, more: bool)
    requires Inv(v)
    ensures Inv(LoadMessages(v, more))
  {
    if v.selected.Some? && ThreadSelector(v, v.selected.value.ref).Some? {
      PageReadKeeps(v, MESSAGES, more, MessagesQuery(ThreadSelector(v, v.selected.value.ref).value));
    }
  }

  /** Nothing but the resolution is left, so the rest of the selection may change at will. */
  ghost predicate OnlyResolution(v: View) {
    && v.children == map[] && CellClear(v, THREADS) && CellClear(v, MESSAGES)
  }

  lemma ChildrenDropped(x: View)
    requires Structure(x)
    ensures Structure(ClearChildren(x)) && ClearChildren(x).children == map[]
    ensures forall id: nat :: id < 3 ==> ClearChildren(x).cells[id] == x.cells[id]
    ensures forall n: nat :: Live(ClearChildren(x), n) ==> Live(x, n) && x.waiting[n].cell < 3
  {
    DropStructure(x, x.children.Keys);
    DropFrame(x, x.children.Keys);
    var y := ClearChildren(x);
    assert y.children == map[];
    forall n: nat | Live(y, n) ensures Live(x, n) && x.waiting[n].cell < 3 {
      assert Attached(y, y.waiting[n].cell);
    }
  }

  lemma ContentCleared(v: View)
    requires Structure(v) && CellClear(v, THREADS)
    ensures Structure(ClearContent(v)) && OnlyResolution(ClearContent(v))
    ensures ClearContent(v).cells[RESOLUTION] == v.cells[RESOLUTION]
  {
    var x := ResetCell(v, MESSAGES);
    ResetStructure(v, MESSAGES);
    ChildrenDropped(x);
    var y := ClearChildren(x);
    assert CellClear(y, THREADS) && CellClear(y, MESSAGES);
    StampStructure(y, ClearContent(v));
  }

  lemma StampStructure(v: View, w: View)
    requires Structure(v)
    requires w.cells == v.cells && w.children == v.children && w.nextCell == v.nextCell
    requires w.calls == v.calls && w.waiting == v.waiting
    requires w.clearedAt <= |w.calls| && w.resolutionClearedAt <= |w.calls|
    ensures Structure(w)
    ensures forall id: nat :: CellClear(v, id) ==> CellClear(w, id)
  {
    forall n: nat ensures Live(w, n) <==> Live(v, n) {}
  }

  /** A reader with only a resolution is sound if the resolution still answers the same question. */
  lemma OnlyResolutionKeeps(v: View, w: View)
    requires Provenance(v) && Reading(v) && Structure(v)
    requires Structure(w) && OnlyResolution(w)
    requires w.inbox == v.inbox && w.inboxVendor == v.inboxVendor && w.resolutionClearedAt == v.resolutionClearedAt
    requires w.cells[RESOLUTION] == v.cells[RESOLUTION] && w.calls == v.calls && w.waiting == v.waiting
    requires Hushed(w)
    ensures Inv(w)
  {
    if w.cells[RESOLUTION].value.Some? {
      var h := w.cells[RESOLUTION].value.value;
      assert HeldSound(v, Resolution, h);
      forall x | x in h.trail ensures HopSound(w, Resolution, x) {
        assert HopSound(v, Resolution, x);
      }
    }
    forall id | id in w.cells && w.cells[id].value.Some? ensures id == RESOLUTION {
      assert Attached(w, id);
    }
    forall n: nat | Live(w, n) && n < |w.calls| ensures TokenSound(w, n) {
      assert Attached(w, w.waiting[n].cell);
      assert Live(v, n) && TokenSound(v, n);
    }
  }

  /** Whatever the thread list holds or waits for was asked for outside the Inbox. */
  lemma ThreadsMeanVendorMode(v: View)
    requires Inv(v)
    ensures v.cells[THREADS].value.Some? ==> v.inbox.None?
    ensures forall n: nat :: Live(v, n) && v.waiting[n].cell == THREADS ==> v.inbox.None?
  {
    if v.cells[THREADS].value.Some? {
      var h := v.cells[THREADS].value.value;
      assert h.trail[0] in h.trail && HopSound(v, Threads, h.trail[0]);
    }
    forall n: nat | Live(v, n) && v.waiting[n].cell == THREADS ensures v.inbox.None? {
      assert TokenSound(v, n);
    }
  }

  /** The resolution belongs to the Inbox alone. */
  lemma ResolutionMeansInbox(v: View)
    requires Inv(v)
    ensures v.cells[RESOLUTION].value.Some? ==> v.inbox.Some?
    ensures forall n: nat :: Live(v, n) && v.waiting[n].cell == RESOLUTION ==> v.inbox.Some?
  {
    if v.cells[RESOLUTION].value.Some? {
      var h := v.cells[RESOLUTION].value.value;
      assert h.trail[0] in h.trail && HopSound(v, Resolution, h.trail[0]);
    }
    forall n: nat | Live(v, n) && v.waiting[n].cell == RESOLUTION ensures v.inbox.Some? {
      assert TokenSound(v, n);
    }
  }

  /** Selection fields and counters other than the content itself. */
  ghost predicate SameRecords(v: View, w: View) {
    && w.cells == v.cells && w.children == v.children && w.nextCell == v.nextCell
    && w.calls == v.calls && w.waiting == v.waiting
    && w.clearedAt == v.clearedAt && w.resolutionClearedAt == v.resolutionClearedAt
  }

  /** However the selection changes, invalidating or refreshing afterwards leaves a sound reader. */
  lemma RefreshKeeps(v: View, w: View)
    requires Inv(v) && SameRecords(v, w)
    ensures Inv(Refresh(w)) && Inv(Invalidate(w))
  {
    StampStructure(v, w);
    InvalidateClears(w);
    var x := Invalidate(w);
    if x.inbox.Some? { ResolveKeeps(x, false); }
    else if x.selected.Some? { LoadMessagesKeeps(x, false); }
    else { LoadThreadsKeeps(x, false); }
  }

  /** Vendors are offered only while none is chosen. */
  lemma ChoicesMeanNoneChosen(v: View)
    requires Inv(v) && v.cells[RESOLUTION].value.Some? && v.cells[RESOLUTION].value.value.reply.Choices?
    ensures v.inboxVendor.None?
  {
    var h := v.cells[RESOLUTION].value.value;
    assert HeldSound(v, Resolution, h);
    assert h.trail[|h.trail| - 1] in h.trail;
    assert HopSound(v, Resolution, h.trail[|h.trail| - 1]);
  }

  lemma StartResolutionKeeps(v: View, more: bool)
    requires Inv(v) && v.inbox.Some?
    requires more ==> v.cells[RESOLUTION].value.Some? && v.cells[RESOLUTION].value.value.reply.Choices?
                      && More(NextCursor(v.cells[RESOLUTION].value))
    requires !more ==> v.children == map[]
    ensures Inv(StartResolution(v, more))
  {
    if more { ChoicesMeanNoneChosen(v); }
    StartReadKeeps(v, RESOLUTION, more, ResolveQuery(v.inbox.value.origin, v.inboxVendor),
                   if more && v.inboxVendor.None? then NextCursor(v.cells[RESOLUTION].value) else None, more,
                   WhileResolving(v.inbox.value.id, v.selection));
  }

  lemma ResolvingMoreKeeps(v: View)
    requires Inv(v)
    ensures Inv(Resolving(v, true))
  {
    hide Inv;
    SameKeeps(v, v.(selection := v.selection + 1));
  }

  lemma ResolvingAnewKeeps(v: View)
    requires Inv(v) && v.inbox.Some? && Allowed(v)
    ensures Inv(Resolving(v, false))
  {
    hide Inv;
    ResolutionCleared(v, v.(selection := v.selection + 1, vendor := None, selected := None));
  }

  lemma ResolutionCleared(v: View, w: View)
    requires Inv(v) && v.inbox.Some? && Allowed(v)
    requires SameRecords(v, w) && w.inbox == v.inbox && w.inboxVendor == v.inboxVendor
    requires w.visible == v.visible && w.mutations == v.mutations
    ensures Inv(ClearContent(w)) && ClearContent(w).children == map[]
  {
    ThreadsMeanVendorMode(v);
    assert CellClear(v, THREADS);
    StampStructure(v, w);
    ContentCleared(w);
    OnlyResolutionKeeps(v, ClearContent(w));
  }

  lemma ResolveKeeps(v: View, more: bool)
    requires Inv(v)
    ensures Inv(ResolveInbox(v, more))
  {
    if !ResolveRefused(v, more) {
      if more { ResolvingMoreKeeps(v); } else { ResolvingAnewKeeps(v); }
      StartResolutionKeeps(Resolving(v, more), more);
    }
  }

  lemma AdoptedKeeps(v: View, r: Reply)
    requires Inv(v) && Rooted(v) && v.inbox.Some? && Allowed(v) && r.Resolved?
    ensures Inv(ClearContent(v.(selected := Some(r.selected), vendor := r.vendor)))
  {
    hide Inv, ClearContent;
    ResolutionCleared(v, v.(selected := Some(r.selected), vendor := r.vendor));
  }

  lemma AfterResolveKeeps(v: View, selection: nat)
    requires Inv(v) && selection in v.resuming
    ensures Inv(AfterResolve(v, selection))
  {
    InvRooted(v);
    hide Inv, ClearContent, LoadMessages, Structure;
    var u := v.(resuming := v.resuming - {selection});
    ResumingKeeps(v, u.resuming);
    var c := v.cells[RESOLUTION];
    if FenceHolds(v, WhileResolving(v.resuming[selection], selection)) && c.status == Ready
       && c.value.Some? && c.value.value.reply.Resolved? {
      AdoptedKeeps(u, c.value.value.reply);
      LoadMessagesKeeps(ClearContent(u.(selected := Some(c.value.value.reply.selected), vendor := c.value.value.reply.vendor)), false);
    }
  }

  lemma ThreadsReset(v: View, w: View)
    requires Inv(v) && v.inbox.None? && SameRecords(v, w)
    ensures Structure(ResetCell(w, THREADS)) && CellClear(ResetCell(w, THREADS), THREADS)
    ensures CellClear(ResetCell(w, THREADS), RESOLUTION)
  {
    ResolutionMeansInbox(v);
    assert CellClear(v, RESOLUTION);
    StampStructure(v, w);
    ResetStructure(w, THREADS);
  }

  lemma OpenedBlank(v: View, w: View)
    requires Inv(v) && v.inbox.None? && SameRecords(v, w)
    ensures Inv(ClearContent(ResetCell(w, THREADS)))
  {
    ThreadsReset(v, w);
    var x := ResetCell(w, THREADS);
    var y := ClearContent(x);
    ContentCleared(x);
    assert y.waiting == x.waiting && y.cells[RESOLUTION] == x.cells[RESOLUTION];
    assert CellClear(y, RESOLUTION) by {
      forall n: nat | Live(y, n) ensures y.waiting[n].cell != RESOLUTION {
        assert y.waiting[n].cell == RESOLUTION ==> Live(x, n);
      }
    }
    NothingLeft(y);
  }

  lemma OpeningKeeps(v: View, thread: ThreadItem)
    requires Inv(v) && v.inbox.None?
    ensures Inv(Opening(v, thread))
  {
    hide Inv;
    OpenedBlank(v, v.(selection := v.selection + 1, selected := Some(thread)));
  }

  lemma OpenThreadKeeps(v: View, thread: ThreadItem)
    requires Inv(v)
    ensures Inv(OpenThread(v, thread))
  {
    if v.inbox.None? {
      OpeningKeeps(v, thread);
      LoadMessagesKeeps(Opening(v, thread), false);
    }
  }

  lemma NothingLeft(v: View)
    requires Structure(v) && OnlyResolution(v) && CellClear(v, RESOLUTION)
    ensures Inv(v)
  {
    forall id | id in v.cells ensures v.cells[id].value.None? {
      assert v.cells[id].value.Some? ==> Attached(v, id);
    }
    forall n | n in v.waiting ensures !Live(v, n) {
      assert Live(v, n) ==> Attached(v, v.waiting[n].cell);
    }
    ClearInv(v);
  }

  // ---------------------------------------------------------------------------------------------
  // Bodies, copies and inventory

  lemma AttachShape(v: View, slot: Slot)
    requires Shape(v) && slot !in v.children && !RootSlot(slot)
    ensures Shape(Attach(v, slot)) && v.nextCell !in v.cells
  {}

  lemma AttachStructure(v: View, slot: Slot)
    requires Structure(v) && slot !in v.children && !RootSlot(slot)
    ensures Structure(Attach(v, slot))
    ensures forall n: nat :: Live(Attach(v, slot), n) ==> Live(v, n) && v.waiting[n].cell != v.nextCell
  {
    AttachShape(v, slot);
    hide Shape;
    var w := Attach(v, slot);
    forall n: nat | Live(w, n) ensures Live(v, n) && v.waiting[n].cell != v.nextCell {}
  }

  lemma AttachKeeps(v: View, slot: Slot)
    requires Inv(v) && slot !in v.children && !RootSlot(slot)
    requires slot.InventoryOf? ==> CopiesOf(slot.message) in v.children && slot.copy in Items(Value(v, v.children[CopiesOf(slot.message)]))
    requires !slot.InventoryOf? ==> slot.message in Items(Value(v, MESSAGES))
    requires v.visible && v.mutations == 0
    ensures Inv(Attach(v, slot)) && Attached(Attach(v, slot), v.nextCell) && SameAsk(v, Attach(v, slot))
    ensures Names(Attach(v, slot)) == Names(v)
  {
    var w := Attach(v, slot);
    AttachStructure(v, slot);
    AttachShape(v, slot);
    AttachTree(v, slot);
    AttachReads(v, slot);
    hide Structure, Tree, Provenance, Reading;
  }

  lemma AttachReads(v: View, slot: Slot)
    requires Structure(v) && Provenance(v) && Reading(v) && slot !in v.children && !RootSlot(slot)
    ensures Provenance(Attach(v, slot)) && Reading(Attach(v, slot))
  {
    var w := Attach(v, slot);
    AttachStructure(v, slot);
    AttachShape(v, slot);
    hide HeldSound, TokenSound;
    ProvenanceAlong(v, w, v.nextCell);
    ReadingAlong(v, w, v.nextCell);
  }

  lemma AttachTree(v: View, slot: Slot)
    requires Shape(v) && Tree(v) && slot !in v.children && !RootSlot(slot)
    requires slot.InventoryOf? ==> CopiesOf(slot.message) in v.children && slot.copy in Items(Value(v, v.children[CopiesOf(slot.message)]))
    requires !slot.InventoryOf? ==> slot.message in Items(Value(v, MESSAGES))
    ensures Tree(Attach(v, slot))
  {
    var w := Attach(v, slot);
    forall s | s in v.children ensures w.children[s] == v.children[s] && Value(w, w.children[s]) == Value(v, v.children[s]) {}
  }

  /** The thread a message is asked for under is named by one of the pages on display. */
  lemma SelectorNamed(v: View, message: string)
    requires Inv(v) && MessageSelector(v, message).Some?
    ensures NamedSelector(v, MessageSelector(v, message).value)
    ensures MessageSelector(v, message).value.thread == v.cells[MESSAGES].value.value.reply.thread.value
  {
    var h := v.cells[MESSAGES].value.value;
    assert HeldSound(v, Messages, h);
    var last := h.trail[|h.trail| - 1];
    assert last in h.trail && ThreadOf(last.reply) == h.reply.thread;
  }

  lemma OpenBodyKeeps(v: View, message: string)
    requires Inv(v)
    ensures Inv(OpenBody(v, message))
  {
    var s := MessageSelector(v, message);
    if s.Some? {
      var w := CloseBody(v, message);
      DropKeeps(v, {BodyOf(message)});
      DropFrame(v, {BodyOf(message)});
      SelectorNamed(v, message);
      assert Value(w, MESSAGES) == Value(v, MESSAGES);
      AttachKeeps(w, BodyOf(message));
      var x := Attach(w, BodyOf(message));
      AskedAlong(v, x, BodyOf(message), BodyQuery(s.value, message));
      StartReadKeeps(x, v.nextCell, false, BodyQuery(s.value, message), None, false, WhileAllowed);
    }
  }

  lemma CloseBodyKeeps(v: View, message: string)
    requires Inv(v)
    ensures Inv(CloseBody(v, message))
  {
    DropKeeps(v, {BodyOf(message)});
  }

  lemma LoadCopiesKeeps(v: View, message: string, more: bool)
    requires Inv(v)
    ensures Inv(LoadCopies(v, message, more))
  {
    var s := MessageSelector(v, message);
    if s.Some? && CopiesOf(message) in v.children {
      SelectorNamed(v, message);
      PageReadKeeps(v, v.children[CopiesOf(message)], more, CopiesQuery(s.value, message));
    }
  }

  lemma CloseCopiesKeeps(v: View, message: string)
    requires Inv(v)
    ensures Inv(CloseCopies(v, message))
    ensures CopiesOf(message) !in CloseCopies(v, message).children
    ensures Value(CloseCopies(v, message), MESSAGES) == Value(v, MESSAGES)
  {
    DropKeeps(v, {CopiesOf(message)} + InventorySlots(v, message));
    DropFrame(v, {CopiesOf(message)} + InventorySlots(v, message));
  }

  lemma OpenCopiesKeeps(v: View, message: string)
    requires Inv(v)
    ensures Inv(OpenCopies(v, message))
  {
    if MessageSelector(v, message).Some? {
      CloseCopiesKeeps(v, message);
      AttachKeeps(CloseCopies(v, message), CopiesOf(message));
      LoadCopiesKeeps(Attach(CloseCopies(v, message), CopiesOf(message)), message, false);
    }
  }

  lemma LoadInventoryKeeps(v: View, message: string, copy: string, more: bool)
    requires Inv(v)
    ensures Inv(LoadInventory(v, message, copy, more))
  {
    var s := MessageSelector(v, message);
    var slot := InventoryOf(message, copy);
    if s.Some? && slot in v.children {
      SelectorNamed(v, message);
      PageReadKeeps(v, v.children[slot], more, InventoryQuery(s.value, message, copy));
    }
  }

  lemma CloseInventoryKeeps(v: View, message: string, copy: string)
    requires Inv(v)
    ensures Inv(CloseInventory(v, message, copy))
    ensures CopiesOf(message) in v.children ==> CopiesOf(message) in CloseInventory(v, message, copy).children
    ensures CopiesOf(message) in v.children ==>
      Value(CloseInventory(v, message, copy), v.children[CopiesOf(message)]) == Value(v, v.children[CopiesOf(message)])
  {
    DropKeeps(v, {InventoryOf(message, copy)});
    if CopiesOf(message) in v.children {
      assert !Falls(v.cells, v.children, {InventoryOf(message, copy)}, v.children[CopiesOf(message)]);
    }
  }

  lemma OpenInventoryKeeps(v: View, message: string, copy: string)
    requires Inv(v)
    ensures Inv(OpenInventory(v, message, copy))
  {
    if CopiesOf(message) in v.children && copy in Items(Value(v, v.children[CopiesOf(message)])) {
      CloseInventoryKeeps(v, message, copy);
      assert v.visible && v.mutations == 0;
      AttachKeeps(CloseInventory(v, message, copy), InventoryOf(message, copy));
      var w := Attach(CloseInventory(v, message, copy), InventoryOf(message, copy));
      hide Inv, Attach, CloseInventory, LoadInventory;
      LoadInventoryKeeps(w, message, copy, false);
    }
  }

  // ---------------------------------------------------------------------------------------------
  // Every event

  lemma SourceKeeps(v: View, current: bool)
    requires Inv(v)
    ensures Inv(v.(sourceCurrent := current))
  {
    SameKeeps(v, v.(sourceCurrent := current));
  }

  /** Fewer mutations can only lift the blank. */
  lemma FewerMutationsKeep(v: View, w: View)
    requires Inv(v) && w == v.(mutations := w.mutations) && w.mutations <= v.mutations
    ensures Inv(w)
  {
    StampStructure(v, w);
    ProvenanceAlong(v, w, v.nextCell);
    ReadingAlong(v, w, v.nextCell);
  }

  lemma EndMutationKeeps(v: View, refresh: bool)
    requires Inv(v)
    ensures Inv(EndMutation(v, refresh))
  {
    hide Inv;
    var w := v.(mutations := if v.mutations == 0 then 0 else v.mutations - 1);
    if refresh {
      RefreshKeeps(v, w);
    } else {
      FewerMutationsKeep(v, w);
    }
  }

  lemma ChooseVendorKeeps(v: View, vendor: string)
    requires Inv(v)
    ensures Inv(ChooseVendor(v, vendor))
  {
    hide Inv;
    RefreshKeeps(v, v.(inboxVendor := Some(vendor)));
    ResolveKeeps(Invalidate(v.(inboxVendor := Some(vendor))), false);
  }

  lemma OpenInboxKeeps(v: View, origin: MessageRef, current: bool)
    requires Inv(v)
    ensures Inv(OpenInbox(v, origin, current))
  {
    hide Inv;
    RefreshKeeps(v, v.(inbox := Some(Entry(v.entries, origin)), entries := v.entries + 1, sourceCurrent := current,
                       inboxVendor := None, vendor := None, selected := None, visible := true,
                       account := Some(Account(origin.provider, origin.accountId))));
  }

  lemma SelectVendorKeeps(v: View, vendor: string)
    requires Inv(v)
    ensures Inv(SelectVendor(v, vendor))
  {
    hide Inv;
    RefreshKeeps(v, v.(inbox := None, inboxVendor := None, vendor := Some(vendor), account := None, selected := None, visible := true));
  }

  lemma SelectAccountKeeps(v: View, account: Option<Account>)
    requires Inv(v)
    ensures Inv(SelectAccount(v, account))
  {
    hide Inv;
    RefreshKeeps(v, v.(account := account, selected := None));
  }

  lemma SuspendKeeps(v: View)
    requires Inv(v)
    ensures Inv(Suspend(v))
  {
    hide Inv;
    RefreshKeeps(v, v.(visible := false));
  }

  lemma CloseKeeps(v: View)
    requires Inv(v)
    ensures Inv(Close(v))
  {
    hide Inv;
    RefreshKeeps(v, v.(inbox := None, inboxVendor := None, vendor := None, selected := None, account := None, visible := false));
  }

  lemma BackToThreadsKeeps(v: View)
    requires Inv(v)
    ensures Inv(BackToThreads(v))
  {
    hide Inv;
    if v.inbox.Some? { CloseKeeps(v); } else { RefreshKeeps(v, v.(selected := None)); }
  }

  lemma ResumeKeeps(v: View)
    requires Inv(v)
    ensures Inv(Resume(v))
  {
    hide Inv;
    RefreshKeeps(v, v.(visible := true));
  }

  lemma BeginMutationKeeps(v: View)
    requires Inv(v)
    ensures Inv(BeginMutation(v))
  {
    hide Inv;
    RefreshKeeps(v, v.(mutations := v.mutations + 1));
  }

  lemma SelectionKeeps(v: View, e: Event)
    requires Inv(v) && Possible(v, e)
    requires e.InboxOpened? || e.VendorSelected? || e.AccountSelected? || e.ThreadsAgain? || e.Closed? || e.Suspended?
             || e.Resumed? || e.MutationBegins? || e.Refreshed? || e.Invalidated?
    ensures Inv(Next(v, e))
  {
    hide Inv, OpenInbox, SelectVendor, SelectAccount, BackToThreads, Close, Suspend, Resume, BeginMutation, Refresh, Invalidate;
    match e {
      case InboxOpened(origin, current) => OpenInboxKeeps(v, origin, current);
      case VendorSelected(vendor) => SelectVendorKeeps(v, vendor);
      case AccountSelected(account) => SelectAccountKeeps(v, account);
      case ThreadsAgain => BackToThreadsKeeps(v);
      case Closed => CloseKeeps(v);
      case Suspended => SuspendKeeps(v);
      case Resumed => ResumeKeeps(v);
      case MutationBegins => BeginMutationKeeps(v);
      case Refreshed => RefreshKeeps(v, v);
      case Invalidated => RefreshKeeps(v, v);
    }
  }

  lemma ChildKeeps(v: View, e: Event)
    requires Inv(v) && Possible(v, e)
    requires e.BodyOpened? || e.BodyClosed? || e.CopiesOpened? || e.CopiesLoaded? || e.CopiesClosed?
             || e.InventoryOpened? || e.InventoryLoaded? || e.InventoryClosed?
    ensures Inv(Next(v, e))
  {
    hide Inv, OpenInbox, ResolveInbox, ChooseVendor, SelectVendor, SelectAccount, OpenThread, BackToThreads, Close, Suspend, Resume,
      BeginMutation, EndMutation, Refresh, Invalidate, LoadThreads, LoadMessages, OpenBody, CloseBody, OpenCopies, LoadCopies,
      CloseCopies, OpenInventory, LoadInventory, CloseInventory, Store, GuardTrips, Catch, AfterResolve;
    match e {
      case BodyOpened(m) => OpenBodyKeeps(v, m);
      case BodyClosed(m) => CloseBodyKeeps(v, m);
      case CopiesOpened(m) => OpenCopiesKeeps(v, m);
      case CopiesLoaded(m, more) => LoadCopiesKeeps(v, m, more);
      case CopiesClosed(m) => CloseCopiesKeeps(v, m);
      case InventoryOpened(m, c) => OpenInventoryKeeps(v, m, c);
      case InventoryLoaded(m, c, more) => LoadInventoryKeeps(v, m, c, more);
      case InventoryClosed(m, c) => CloseInventoryKeeps(v, m, c);
    }
  }

  lemma NextKeeps(v: View, e: Event)
    requires Inv(v) && Possible(v, e)
    ensures Inv(Next(v, e))
  {
    hide Inv, OpenInbox, ResolveInbox, ChooseVendor, SelectVendor, SelectAccount, OpenThread, BackToThreads, Close, Suspend, Resume,
      BeginMutation, EndMutation, Refresh, Invalidate, LoadThreads, LoadMessages, OpenBody, CloseBody, OpenCopies, LoadCopies,
      CloseCopies, OpenInventory, LoadInventory, CloseInventory, Store, GuardTrips, Catch, AfterResolve;
    match e {
      case SourceChanges(current) => SourceKeeps(v, current);
      case InboxResolved(more) => ResolveKeeps(v, more);
      case VendorChosen(vendor) => ChooseVendorKeeps(v, vendor);
      case ThreadOpened(thread) => OpenThreadKeeps(v, thread);
      case MutationEnds(refresh) => EndMutationKeeps(v, refresh);
      case ThreadsLoaded(more) => LoadThreadsKeeps(v, more);
      case MessagesLoaded(more) => LoadMessagesKeeps(v, more);
      case ReplyArrives(n, reply) => StoreKeeps(v, n, reply);
      case CallFails(n, code) => if v.waiting[n].guard.Some? { GuardTripsKeeps(v, n, code); } else { CatchKeeps(v, n, code); }
      case RejectionArrives(n) => CatchKeeps(v, n, v.waiting[n].rejected.value);
      case ResolutionResumes(s) => AfterResolveKeeps(v, s);
      case BodyOpened(_) => ChildKeeps(v, e);
      case BodyClosed(_) => ChildKeeps(v, e);
      case CopiesOpened(_) => ChildKeeps(v, e);
      case CopiesLoaded(_, _) => ChildKeeps(v, e);
      case CopiesClosed(_) => ChildKeeps(v, e);
      case InventoryOpened(_, _) => ChildKeeps(v, e);
      case InventoryLoaded(_, _, _) => ChildKeeps(v, e);
      case InventoryClosed(_, _) => ChildKeeps(v, e);
      case _ => SelectionKeeps(v, e);
    }
  }
}
