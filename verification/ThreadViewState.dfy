/** The thread reader as the objects it is made of: read states on the heap, three maps that hold them,
    and waiting reads that hold on to theirs after the maps have let go.  The step functions speak of one
    table of cells; here that table is only an abstraction, and every operation is shown to refine its
    step through it. */
module ThreadViewStates {
  import opened Basics
  import opened ThreadViews
  import opened ThreadViewProofs

  /** One read state.  `slot` is the place it was made for, which its reads clear below; `id` is for the
      proof alone. */
  class ThreadReadState {
    ghost const id: nat
    const slot: Slot
    var status: Status
    var value: Option<Held>
    var changed: bool
    var generation: nat

    ghost function Cell(): Cell
      reads this
    {
      ThreadViews.Cell(slot, status, value, changed, generation)
    }

    constructor (ghost id: nat, slot: Slot)
      ensures this.id == id && Cell() == ThreadViews.Cell(slot, Idle, None, false, 0)
    {
      this.id, this.slot := id, slot;
      status, value, changed, generation := Idle, None, false, 0;
    }

    method Reset()
      modifies this
      ensures Cell() == ThreadViews.Reset(old(Cell()))
    {
      generation := generation + 1;
      status, value, changed := Idle, None, false;
    }

    /** The synchronous part of `read`: a new generation, and no value unless it continues one. */
    method Open(more: bool)
      modifies this
      ensures Cell() == Opened(old(Cell()), more)
    {
      generation := generation + 1;
      status := Loading;
      if !more {
        value, changed := None, false;
      }
    }

    method Keep(held: Held)
      modifies this
      ensures Cell() == old(Cell()).(value := Some(held), status := Ready)
    {
      value, status := Some(held), Ready;
    }

    /** A stale cursor empties the state for a restart; any other error ends the read. */
    method Fail(restart: bool)
      modifies this
      ensures Cell() == if restart then old(Cell()).(value := None, changed := true) else old(Cell()).(value := None, status := Failed)
    {
      value := None;
      if restart {
        changed := true;
      } else {
        status := Failed;
      }
    }

    method Blame()
      modifies this
      ensures Cell() == old(Cell()).(status := Failed)
    {
      status := Failed;
    }
  }

  // ---------------------------------------------------------------------------------------------
  // The abstraction

  /** A waiting read, as its closure: the state object, not its name. */
  datatype Pending = Pending(state: ThreadReadState, generation: nat, previous: Option<Held>, restartable: bool,
                             fence: Fence, guard: Option<Guard>, rejected: Option<Code>)

  ghost function TokenOf(p: Pending): Token {
    Token(p.state.id, p.generation, p.previous, p.restartable, p.fence, p.guard, p.rejected)
  }

  ghost function TokensOf(waiting: map<nat, Pending>): map<nat, Token> {
    map n | n in waiting :: TokenOf(waiting[n])
  }

  ghost function CellsOf(made: seq<ThreadReadState>): (r: map<nat, Cell>)
    reads made
    ensures forall i: nat :: i in r <==> i < |made|
  {
    map i: nat | i < |made| :: made[i].Cell()
  }

  ghost function BodySlots(bodies: map<string, ThreadReadState>): set<Slot> {
    set m | m in bodies :: BodyOf(m)
  }

  ghost function CopiesSlots(copies: map<string, ThreadReadState>): set<Slot> {
    set m | m in copies :: CopiesOf(m)
  }

  ghost function InventoriesSlots(inventory: map<(string, string), ThreadReadState>): set<Slot> {
    set k | k in inventory :: InventoryOf(k.0, k.1)
  }

  /** The three maps, with the keys of each. */
  datatype Maps = Maps(bodies: map<string, ThreadReadState>, copies: map<string, ThreadReadState>,
                       inventory: map<(string, string), ThreadReadState>)

  ghost predicate Holds(m: Maps, s: Slot) {
    match s
    case BodyOf(x) => x in m.bodies
    case CopiesOf(x) => x in m.copies
    case InventoryOf(x, c) => (x, c) in m.inventory
    case _ => false
  }

  ghost function HeldAt(m: Maps, s: Slot): ThreadReadState
    requires Holds(m, s)
  {
    match s
    case BodyOf(x) => m.bodies[x]
    case CopiesOf(x) => m.copies[x]
    case InventoryOf(x, c) => m.inventory[(x, c)]
  }

  /** The three maps as one, from slots to identities. */
  ghost function ChildrenOf(m: Maps): (r: map<Slot, nat>)
    ensures forall s :: s in r <==> Holds(m, s)
    ensures forall s :: s in r ==> r[s] == HeldAt(m, s).id
  {
    var slots := BodySlots(m.bodies) + CopiesSlots(m.copies) + InventoriesSlots(m.inventory);
    assert forall s :: s in slots <==> Holds(m, s) by { SlotsHeld(m); }
    map s | s in slots :: HeldAt(m, s).id
  }

  lemma SlotsHeld(m: Maps)
    ensures forall s :: s in BodySlots(m.bodies) + CopiesSlots(m.copies) + InventoriesSlots(m.inventory) <==> Holds(m, s)
  {
    forall s | Holds(m, s) && s.InventoryOf? ensures s in InventoriesSlots(m.inventory) {
      assert (s.message, s.copy) in m.inventory;
    }
  }

  /** `n` holds what `m` holds, but for the doomed slots. */
  ghost predicate Shrinks(m: Maps, n: Maps, doomed: set<Slot>) {
    forall s :: (Holds(n, s) <==> Holds(m, s) && s !in doomed) && (Holds(n, s) ==> HeldAt(n, s) == HeldAt(m, s))
  }

  lemma ShrinksSlotwise(m: Maps, n: Maps, doomed: set<Slot>)
    requires forall s :: (Holds(n, s) <==> Holds(m, s) && s !in doomed) && (Holds(n, s) ==> HeldAt(n, s) == HeldAt(m, s))
    ensures Shrinks(m, n, doomed)
  {}

  lemma ChildrenShrink(m: Maps, n: Maps, doomed: set<Slot>)
    requires Shrinks(m, n, doomed)
    ensures ChildrenOf(n) == SlotsLeft(ChildrenOf(m), doomed)
  {
    hide ChildrenOf, Holds, HeldAt;
  }

  /** Every state ever made is known by its identity. */
  ghost predicate Numbered(made: seq<ThreadReadState>) {
    forall i :: 0 <= i < |made| ==> made[i].id == i
  }

  ghost predicate Of(made: seq<ThreadReadState>, o: ThreadReadState) {
    o.id < |made| && made[o.id] == o
  }

  /** The objects hang together: there are roots, and every state in a map or a waiting read was made here, for
      the place it is in. */
  ghost predicate Assembled(made: seq<ThreadReadState>, maps: Maps, waiting: map<nat, Pending>) {
    && Numbered(made) && |made| >= 3
    && (forall s :: Holds(maps, s) ==> Of(made, HeldAt(maps, s)) && HeldAt(maps, s).slot == s)
    && (forall n :: n in waiting ==> Of(made, waiting[n].state))
  }

  lemma StillAssembled(made: seq<ThreadReadState>, maps: Maps, waiting: map<nat, Pending>, n: nat, p: Pending)
    requires Assembled(made, maps, waiting) && Of(made, p.state)
    ensures Assembled(made, maps, waiting[n := p])
  {}

  /** The maps with one more state, under its slot. */
  ghost function Grown(maps: Maps, s: Slot, o: ThreadReadState): Maps {
    match s
    case BodyOf(m) => maps.(bodies := maps.bodies[m := o])
    case CopiesOf(m) => maps.(copies := maps.copies[m := o])
    case InventoryOf(m, c) => maps.(inventory := maps.inventory[(m, c) := o])
    case _ => maps
  }

  lemma GrownHolds(maps: Maps, s: Slot, o: ThreadReadState)
    requires !RootSlot(s)
    ensures forall t :: Holds(Grown(maps, s, o), t) <==> t == s || Holds(maps, t)
    ensures forall t :: Holds(Grown(maps, s, o), t) ==> HeldAt(Grown(maps, s, o), t) == if t == s then o else HeldAt(maps, t)
  {}

  lemma GrownChildren(maps: Maps, s: Slot, o: ThreadReadState)
    requires !RootSlot(s)
    ensures ChildrenOf(Grown(maps, s, o)) == ChildrenOf(maps)[s := o.id]
  {
    hide ChildrenOf, Holds, HeldAt, Grown;
    GrownHolds(maps, s, o);
  }

  lemma GrownAssembled(made: seq<ThreadReadState>, maps: Maps, waiting: map<nat, Pending>, s: Slot, o: ThreadReadState)
    requires Assembled(made, maps, waiting) && !RootSlot(s) && o.id == |made| && o.slot == s
    ensures Assembled(made + [o], Grown(maps, s, o), waiting) && Of(made + [o], o) && |made| >= 3
    ensures forall x :: Of(made, x) ==> Of(made + [o], x)
  {
    hide Holds, HeldAt, Grown;
    GrownHolds(maps, s, o);
  }

  lemma GrownCells(made: seq<ThreadReadState>, o: ThreadReadState)
    ensures CellsOf(made + [o]) == CellsOf(made)[|made| := o.Cell()]
  {}

  /** Every slot leads to a cell made for it. */
  ghost predicate Hung(cells: map<nat, Cell>, children: map<Slot, nat>) {
    forall s :: s in children ==> children[s] in cells && cells[children[s]].slot == s
  }

  lemma NothingDropped(cells: map<nat, Cell>, children: map<Slot, nat>)
    ensures CellsLeft(cells, children, {}) == cells && SlotsLeft(children, {}) == children
  {}

  /** Dropping slots one at a time, in any order, drops them all. */
  lemma OneMoreDropped(cells: map<nat, Cell>, children: map<Slot, nat>, done: set<Slot>, slot: Slot)
    requires Hung(cells, children) && slot in children && slot !in done
    ensures CellsLeft(cells, children, done + {slot}) ==
      CellsLeft(cells, children, done)[children[slot] := Reset(CellsLeft(cells, children, done)[children[slot]])]
  {
    hide Reset;
    var before, after := CellsLeft(cells, children, done), CellsLeft(cells, children, done + {slot});
    forall id | id in cells ensures after[id] == if children[slot] == id then Reset(before[id]) else before[id] {
      assert children[slot] == id ==> cells[id].slot == slot;
    }
  }

  /** Slots that are in no map fall nowhere. */
  lemma OnlyHungSlotsFall(cells: map<nat, Cell>, children: map<Slot, nat>, doomed: set<Slot>)
    ensures CellsLeft(cells, children, doomed) == CellsLeft(cells, children, doomed * children.Keys)
  {}

  ghost function SlotsOf(states: set<ThreadReadState>): set<Slot> {
    set o | o in states :: o.slot
  }

  lemma FreshlyMade(made: seq<ThreadReadState>)
    requires |made| == 3 && Numbered(made)
    requires forall i :: 0 <= i < 3 ==> made[i].Cell() == Initial().cells[i]
    ensures CellsOf(made) == Initial().cells
    ensures ChildrenOf(Maps(map[], map[], map[])) == map[] && TokensOf(map[]) == map[]
    ensures Assembled(made, Maps(map[], map[], map[]), map[])
  {
    assert CellsOf(made) == Initial().cells;
  }

  lemma ReplyKeeps(v: View, n: nat, reply: Reply)
    requires Inv(v) && n in v.waiting && v.waiting[n].rejected.None? && n < |v.calls| && Fits(v.calls[n].query, reply)
    ensures Inv(Store(v, n, reply))
  {
    hide Inv, Store;
    StoreKeeps(v, n, reply);
  }

  lemma NoSlots(states: set<ThreadReadState>)
    requires states == {}
    ensures SlotsOf(states) == {}
  {}

  lemma InitialSound()
    ensures Inv(Initial())
  {
    ClearInv(Initial());
  }

  class ThreadViewState {
    var vendor: Option<string>
    var account: Option<Account>
    var selected: Option<ThreadItem>
    var visible: bool
    var mutations: nat
    var selection: nat
    var inbox: Option<Entry>
    var inboxVendor: Option<string>
    var sourceCurrent: bool
    var entries: nat
    const resolution: ThreadReadState
    const threads: ThreadReadState
    const messages: ThreadReadState
    var bodies: map<string, ThreadReadState>
    var copies: map<string, ThreadReadState>
    var inventory: map<(string, string), ThreadReadState>
    var calls: seq<Call>
    var waiting: map<nat, Pending>
    var resuming: map<nat, nat>
    ghost var made: seq<ThreadReadState>
    ghost var clearedAt: nat
    ghost var resolutionClearedAt: nat

    ghost function State(): View
      reads this, made
    {
      View(vendor, account, selected, visible, mutations, selection, inbox, inboxVendor, sourceCurrent, entries,
           CellsOf(made), ChildrenOf(Maps(bodies, copies, inventory)), |made|, calls, TokensOf(waiting), resuming,
           clearedAt, resolutionClearedAt)
    }

    ghost function Held(): Maps
      reads this
    {
      Maps(bodies, copies, inventory)
    }

    ghost predicate Wired()
      reads this
    {
      && Assembled(made, Maps(bodies, copies, inventory), waiting)
      && made[RESOLUTION] == resolution && made[THREADS] == threads && made[MESSAGES] == messages
    }

    ghost predicate Valid()
      reads this, made
    {
      Wired() && Inv(State())
    }

    constructor ()
      ensures Valid() && State() == Initial()
    {
      vendor, account, selected, visible, mutations, selection := None, None, None, true, 0, 0;
      inbox, inboxVendor, sourceCurrent, entries := None, None, false, 0;
      resolution := new ThreadReadState(RESOLUTION, Resolution);
      threads := new ThreadReadState(THREADS, Threads);
      messages := new ThreadReadState(MESSAGES, Messages);
      bodies, copies, inventory, calls, waiting, resuming := map[], map[], map[], [], map[], map[];
      clearedAt, resolutionClearedAt := 0, 0;
      made := [resolution, threads, messages];
      new;
      hide Inv, CellsOf, ChildrenOf, TokensOf, Assembled;
      InitialSound();
      FreshlyMade(made);
    }
  
    // -------------------------------------------------------------------------------------------
    // Clearing

    lemma WiredHangs()
      requires Wired()
      ensures Hung(CellsOf(made), ChildrenOf(Held()))
    {}

    /** The state is in the map for its slot. */
    ghost predicate Placed(o: ThreadReadState)
      reads this
    {
      var children := ChildrenOf(Held());
      Of(made, o) && o.slot in children && children[o.slot] == o.id
    }

    method ResetState(o: ThreadReadState)
      requires Numbered(made) && Of(made, o)
      modifies o
      ensures o.id in old(CellsOf(made))
      ensures CellsOf(made) == old(CellsOf(made))[o.id := Reset(old(CellsOf(made))[o.id])]
    {
      assert forall i: nat :: i < |made| && i != o.id ==> made[i] != o;
      o.Reset();
      assert forall i: nat :: i < |made| && i != o.id ==> made[i].Cell() == old(made[i].Cell());
    }

    lemma OneMoreGone(states: set<ThreadReadState>, left: set<ThreadReadState>, o: ThreadReadState)
      requires (forall x :: x in states ==> Placed(x)) && left <= states && o in left
      ensures o.slot !in SlotsOf(states - left) && o.slot in ChildrenOf(Held()) && ChildrenOf(Held())[o.slot] == o.id
      ensures SlotsOf(states - (left - {o})) == SlotsOf(states - left) + {o.slot}
    {
      hide ChildrenOf;
    }

    /** The loops that reset child states, whatever order they take. */
    method ResetEach(states: set<ThreadReadState>)
      requires Wired() && forall o :: o in states ==> Placed(o)
      modifies states
      ensures CellsOf(made) == CellsLeft(old(CellsOf(made)), ChildrenOf(Held()), SlotsOf(states))
    {
      hide CellsLeft, ChildrenOf, SlotsOf;
      ghost var cells, children := CellsOf(made), ChildrenOf(Held());
      WiredHangs();
      NothingDropped(cells, children);
      var left := states;
      assert SlotsOf(states - left) == {} by { NoSlots(states - left); }
      while left != {}
        invariant left <= states
        invariant CellsOf(made) == CellsLeft(cells, children, SlotsOf(states - left))
        decreases |left|
      {
        var o :| o in left;
        OneMoreGone(states, left, o);
        OneMoreDropped(cells, children, SlotsOf(states - left), o.slot);
        ResetState(o);
        left := left - {o};
      }
      assert states - left == states;
    }
  
    method Rehang(n: Maps, ghost doomed: set<Slot>)
      requires Wired() && Shrinks(Held(), n, doomed)
      modifies this`bodies, this`copies, this`inventory
      ensures Wired() && Held() == n && CellsOf(made) == old(CellsOf(made))
    {
      bodies, copies, inventory := n.bodies, n.copies, n.inventory;
    }

    /** What the maps hold was made here, for its place. */
    lemma Homes()
      requires Wired()
      ensures forall m :: m in bodies ==> bodies[m] in made && Of(made, bodies[m]) && bodies[m].slot == BodyOf(m)
      ensures forall m :: m in copies ==> copies[m] in made && Of(made, copies[m]) && copies[m].slot == CopiesOf(m)
      ensures forall k :: k in inventory ==> inventory[k] in made && Of(made, inventory[k]) && inventory[k].slot == InventoryOf(k.0, k.1)
    {
      assert forall m :: m in bodies ==> Holds(Held(), BodyOf(m));
      assert forall m :: m in copies ==> Holds(Held(), CopiesOf(m));
      assert forall k :: k in inventory ==> Holds(Held(), InventoryOf(k.0, k.1));
    }

    /** The states in the maps under the given slots, all and only those. */
    ghost predicate Gathers(states: set<ThreadReadState>, slots: set<Slot>)
      reads this
    {
      && (forall o :: o in states ==> o.slot in slots && Holds(Held(), o.slot) && HeldAt(Held(), o.slot) == o)
      && (forall s :: s in slots && Holds(Held(), s) ==> HeldAt(Held(), s) in states)
    }

    lemma GatheredSlots(states: set<ThreadReadState>, slots: set<Slot>)
      requires Wired() && Gathers(states, slots)
      ensures SlotsOf(states) == slots * ChildrenOf(Held()).Keys
      ensures forall o :: o in states ==> Placed(o) && o in made
    {
      hide ChildrenOf;
      forall s | s in slots && Holds(Held(), s) ensures s in SlotsOf(states) {
        assert HeldAt(Held(), s).slot == s;
      }
    }

    /** Resets the gathered states and lets the maps go on without them. */
    method LetGo(states: set<ThreadReadState>, n: Maps, ghost doomed: set<Slot>)
      requires Wired() && Gathers(states, doomed) && Shrinks(Held(), n, doomed)
      modifies this`bodies, this`copies, this`inventory, made
      ensures Wired() && State() == Drop(old(State()), doomed)
    {
      hide ChildrenOf, CellsLeft, SlotsLeft, TokensOf, CellsOf, SlotsOf, Placed, Gathers, Shrinks, Wired;
      GatheredSlots(states, doomed);
      ChildrenShrink(Held(), n, doomed);
      OnlyHungSlotsFall(CellsOf(made), ChildrenOf(Held()), doomed);
      ResetEach(states);
      Rehang(n, doomed);
    }

    /** The maps without the doomed slots. */
    function Kept(doomed: set<Slot>): Maps
      reads this
    {
      Maps(map m | m in bodies && BodyOf(m) !in doomed :: bodies[m],
           map m | m in copies && CopiesOf(m) !in doomed :: copies[m],
           map k | k in inventory && InventoryOf(k.0, k.1) !in doomed :: inventory[k])
    }

    lemma KeptShrinks(doomed: set<Slot>)
      ensures Shrinks(Held(), Kept(doomed), doomed)
    {
      hide Shrinks;
      forall s ensures (Holds(Kept(doomed), s) <==> Holds(Held(), s) && s !in doomed)
                    && (Holds(Kept(doomed), s) ==> HeldAt(Kept(doomed), s) == HeldAt(Held(), s))
      {
        KeptAt(doomed, s);
      }
      ShrinksSlotwise(Held(), Kept(doomed), doomed);
    }

    lemma KeptAt(doomed: set<Slot>, s: Slot)
      ensures Holds(Kept(doomed), s) <==> Holds(Held(), s) && s !in doomed
      ensures Holds(Kept(doomed), s) ==> HeldAt(Kept(doomed), s) == HeldAt(Held(), s)
    {}

    /** The states in the maps under the doomed slots. */
    function Doomed(doomed: set<Slot>): set<ThreadReadState>
      reads this
    {
      (set m | m in bodies && BodyOf(m) in doomed :: bodies[m])
        + (set m | m in copies && CopiesOf(m) in doomed :: copies[m])
        + (set k | k in inventory && InventoryOf(k.0, k.1) in doomed :: inventory[k])
    }

    lemma DoomedGathers(doomed: set<Slot>)
      requires Wired()
      ensures Gathers(Doomed(doomed), doomed)
    {
      Homes();
      hide Wired;
    }

    /** Resets what sits under the doomed slots and takes the slots out of the three maps. */
    method DropSlots(doomed: set<Slot>)
      requires Wired()
      modifies this`bodies, this`copies, this`inventory, made
      ensures Wired() && State() == Drop(old(State()), doomed)
    {
      hide Drop, CellsOf, TokensOf, ChildrenOf, Gathers, Shrinks, Wired, Doomed, Kept;
      DoomedGathers(doomed);
      KeptShrinks(doomed);
      LetGo(Doomed(doomed), Kept(doomed), doomed);
    }

    method ClearAllChildren()
      requires Wired()
      modifies this`bodies, this`copies, this`inventory, made
      ensures Wired() && State() == ClearChildren(old(State()))
    {
      SlotsHeld(Held());
      var slots := (set m | m in bodies :: BodyOf(m)) + (set m | m in copies :: CopiesOf(m))
        + (set k | k in inventory :: InventoryOf(k.0, k.1));
      assert slots == State().children.Keys;
      hide Drop, CellsOf, TokensOf, ChildrenOf, Wired;
      DropSlots(slots);
    }

    /** The slots of a message's inventories. */
    method InventoriesOf(message: string) returns (slots: set<Slot>)
      ensures slots == InventorySlots(State(), message)
    {
      hide CellsOf, TokensOf;
      slots := set k | k in inventory && k.0 == message :: InventoryOf(k.0, k.1);
      forall s | s in InventorySlots(State(), message) ensures s in slots {
        assert Holds(Held(), s) && (s.message, s.copy) in inventory;
      }
    }

    method ClearInventoryOf(message: string)
      requires Wired()
      modifies this`bodies, this`copies, this`inventory, made
      ensures Wired() && State() == ClearInventory(old(State()), message)
    {
      hide Drop, CellsOf, TokensOf, ChildrenOf, Wired, InventorySlots;
      var slots := InventoriesOf(message);
      DropSlots(slots);
    }

    /** The copies of a message and every inventory under them. */
    method DropCopies(message: string)
      requires Wired()
      modifies this`bodies, this`copies, this`inventory, made
      ensures Wired() && State() == ThreadViews.CloseCopies(old(State()), message)
    {
      hide Drop, CellsOf, TokensOf, ChildrenOf, Wired, InventorySlots;
      var slots := InventoriesOf(message);
      DropSlots({CopiesOf(message)} + slots);
    }

    method OpenState(o: ThreadReadState, more: bool)
      requires Numbered(made) && Of(made, o)
      modifies o
      ensures CellsOf(made) == old(CellsOf(made))[o.id := Opened(old(o.Cell()), more)]
    {
      assert forall i: nat :: i < |made| && i != o.id ==> made[i] != o;
      o.Open(more);
      assert forall i: nat :: i < |made| && i != o.id ==> made[i].Cell() == old(made[i].Cell());
    }

    method KeepState(o: ThreadReadState, held: Held)
      requires Numbered(made) && Of(made, o)
      modifies o
      ensures CellsOf(made) == old(CellsOf(made))[o.id := old(o.Cell()).(value := Some(held), status := Ready)]
    {
      assert forall i: nat :: i < |made| && i != o.id ==> made[i] != o;
      o.Keep(held);
      assert forall i: nat :: i < |made| && i != o.id ==> made[i].Cell() == old(made[i].Cell());
    }

    method FailState(o: ThreadReadState, restart: bool)
      requires Numbered(made) && Of(made, o)
      modifies o
      ensures CellsOf(made) == old(CellsOf(made))[o.id :=
        if restart then old(o.Cell()).(value := None, changed := true) else old(o.Cell()).(value := None, status := Failed)]
    {
      assert forall i: nat :: i < |made| && i != o.id ==> made[i] != o;
      o.Fail(restart);
      assert forall i: nat :: i < |made| && i != o.id ==> made[i].Cell() == old(made[i].Cell());
    }

    method BlameState(o: ThreadReadState)
      requires Numbered(made) && Of(made, o)
      modifies o
      ensures CellsOf(made) == old(CellsOf(made))[o.id := old(o.Cell()).(status := Failed)]
    {
      assert forall i: nat :: i < |made| && i != o.id ==> made[i] != o;
      o.Blame();
      assert forall i: nat :: i < |made| && i != o.id ==> made[i].Cell() == old(made[i].Cell());
    }
  
    method ClearUnder(slot: Slot)
      requires Wired()
      modifies this`bodies, this`copies, this`inventory, made
      ensures Wired() && State() == ClearBelow(old(State()), slot)
    {
      hide Wired, ClearChildren, ClearInventory, CellsOf, TokensOf, ChildrenOf;
      match slot {
        case Resolution => ClearAllChildren();
        case Messages => ClearAllChildren();
        case CopiesOf(m) => ClearInventoryOf(m);
        case _ =>
      }
    }

    lemma Roots()
      requires Wired()
      ensures Numbered(made) && Of(made, resolution) && Of(made, threads) && Of(made, messages)
      ensures resolution.id == RESOLUTION && threads.id == THREADS && messages.id == MESSAGES
      ensures resolution in made && threads in made && messages in made
      ensures Rooted(State())
      ensures State().cells[RESOLUTION] == resolution.Cell() && State().cells[THREADS] == threads.Cell()
      ensures State().cells[MESSAGES] == messages.Cell()
    {
      hide TokensOf, ChildrenOf;
    }

    /** Resets one of the roots. */
    method ResetRoot(o: ThreadReadState)
      requires Wired() && Of(made, o) && o in made
      modifies o
      ensures Wired() && o.id in old(State()).cells && State() == ResetCell(old(State()), o.id)
    {
      hide TokensOf, ChildrenOf, CellsOf;
      ResetState(o);
    }

    method ResetAllRoots()
      requires Wired()
      modifies made
      ensures Wired() && Rooted(old(State())) && State() == ResetRoots(old(State()))
    {
      Roots();
      hide Wired, CellsOf, TokensOf, ChildrenOf, Reset;
      ResetRoot(resolution);
      ResetRoot(threads);
      ResetRoot(messages);
    }

    method NewSelection()
      requires Wired()
      modifies this`selection, this`clearedAt, this`resolutionClearedAt
      ensures Wired()
      ensures State() == old(State()).(selection := old(selection) + 1, clearedAt := |calls|, resolutionClearedAt := |calls|)
    {
      hide TokensOf, ChildrenOf, CellsOf, Assembled;
      selection := selection + 1;
      clearedAt, resolutionClearedAt := |calls|, |calls|;
    }

    method Select(thread: Option<ThreadItem>, vendor: Option<string>)
      requires Wired()
      modifies this`vendor, this`selected
      ensures Wired() && State() == old(State()).(selected := thread, vendor := vendor)
    {
      hide TokensOf, ChildrenOf, CellsOf, Assembled;
      selected, this.vendor := thread, vendor;
    }

    method InvalidateNow()
      requires Wired()
      modifies this, made
      ensures Wired() && made == old(made) && Rooted(old(State())) && State() == ThreadViews.Invalidate(old(State()))
    {
      hide Wired, ClearChildren, ResetRoots, CellsOf, TokensOf, ChildrenOf;
      ResetAllRoots();
      ClearAllChildren();
      NewSelection();
      if inbox.Some? {
        Select(None, None);
      }
    }
  
    method Invalidate()
      requires Valid()
      modifies this, made
      ensures Valid() && made == old(made) && State() == ThreadViews.Invalidate(old(State()))
    {
      hide Inv, Wired, CellsOf, TokensOf, ChildrenOf, ThreadViews.Refresh, ThreadViews.Invalidate;
      RefreshKeeps(State(), State());
      InvalidateNow();
    }

    // -------------------------------------------------------------------------------------------
    // Reading

    method AllowedNow() returns (r: bool)
      ensures r == Allowed(State())
    {
      r := visible && mutations == 0 && (if inbox.Some? then sourceCurrent else vendor.Some?);
    }

    lemma CellAt(o: ThreadReadState)
      requires Of(made, o)
      ensures o.id in State().cells && State().cells[o.id] == o.Cell()
    {
      hide TokensOf, ChildrenOf;
    }

    lemma TokenAdded(n: nat, p: Pending)
      ensures TokensOf(waiting[n := p]) == TokensOf(waiting)[n := TokenOf(p)]
    {}

    method Await(n: nat, p: Pending)
      requires Wired() && Of(made, p.state)
      modifies this`waiting
      ensures Wired() && State() == old(State()).(waiting := old(State()).waiting[n := TokenOf(p)])
    {
      TokenAdded(n, p);
      StillAssembled(made, Maps(bodies, copies, inventory), waiting, n, p);
      hide TokensOf, ChildrenOf, CellsOf, Assembled;
      waiting := waiting[n := p];
    }

    method Send(call: Call)
      requires Wired()
      modifies this`calls
      ensures Wired() && State() == old(State()).(calls := old(calls) + [call])
    {
      hide TokensOf, ChildrenOf, CellsOf, Assembled;
      calls := calls + [call];
    }

    method GuardNow(slot: Slot) returns (guard: Option<Guard>)
      ensures guard == GuardOf(State(), slot)
    {
      guard := if inbox.Some? && slot != Resolution then Some(Guard(inbox.value.id, selection)) else None;
    }

    /** A call goes out, and the read that waits for it holds on to its state. */
    method IssueCall(o: ThreadReadState, query: Query, cursor: Cursor, previous: Option<Held>, restartable: bool, fence: Fence)
      requires Wired() && Of(made, o)
      modifies this`calls, this`waiting
      ensures Wired() && o.id in old(State()).cells
      ensures State() == Issue(old(State()), o.id, query, cursor, previous, restartable, fence)
    {
      CellAt(o);
      hide TokensOf, ChildrenOf, CellsOf, Wired, GuardOf;
      var guard := GuardNow(o.slot);
      Await(|calls|, Pending(o, o.generation, previous, restartable, fence, guard, None));
      Send(Call(query, cursor));
    }

    method BeginRead(o: ThreadReadState, more: bool, query: Query, cursor: Cursor, restartable: bool, fence: Fence)
      requires Wired() && Of(made, o) && o in made
      modifies this`calls, this`waiting, o
      ensures Wired() && o.id in old(State()).cells
      ensures State() == StartRead(old(State()), o.id, more, query, cursor, restartable, fence)
    {
      CellAt(o);
      hide TokensOf, ChildrenOf, CellsOf, Assembled, Issue;
      OpenState(o, more);
      IssueCall(o, query, cursor, o.value, restartable, fence);
    }

    method ReadPage(o: ThreadReadState, more: bool, query: Query)
      requires Wired() && Of(made, o) && o in made
      modifies this`bodies, this`copies, this`inventory, this`calls, this`waiting, made
      ensures Wired() && o.id in old(State()).cells && State() == PageRead(old(State()), o.id, more, query)
    {
      CellAt(o);
      hide TokensOf, ChildrenOf, CellsOf, Wired, StartRead, ClearBelow, Allowed;
      var allowed := AllowedNow();
      var cursor := NextCursor(o.value);
      if !allowed || (more && (!More(cursor) || o.status == Loading)) {
        return;
      }
      if !more {
        ClearUnder(o.slot);
      }
      BeginRead(o, more, query, if more then cursor else None, more, WhileAllowed);
    }

    method SelectorNow(ref: ThreadRef) returns (r: Option<Selector>)
      ensures r == ThreadSelector(State(), ref)
    {
      var allowed := AllowedNow();
      if !allowed {
        return None;
      }
      if inbox.Some? && selected.Some? && selected.value.nonVendor {
        return Some(ByInbox(ref, inbox.value.origin));
      }
      if vendor.None? {
        return None;
      }
      return Some(ByVendor(vendor.value, ref, if inbox.Some? then Some(inbox.value.origin) else None));
    }

    // -------------------------------------------------------------------------------------------
    // Bodies, copies and inventory

    method MessageQuery(message: string) returns (r: Option<Selector>)
      requires Wired()
      ensures r == MessageSelector(State(), message)
    {
      Roots();
      hide TokensOf, ChildrenOf, CellsOf, Wired, Allowed, ThreadSelector;
      var allowed := AllowedNow();
      var value := messages.value;
      if !allowed || message !in Items(value) || !value.value.reply.Paged? || value.value.reply.thread.None? {
        return None;
      }
      r := SelectorNow(value.value.reply.thread.value);
    }

    /** What a slot of the abstraction is in the maps. */
    lemma ChildAt(s: Slot)
      requires Wired()
      ensures s in State().children <==> Holds(Held(), s)
      ensures Holds(Held(), s) ==>
        var o := HeldAt(Held(), s);
        Of(made, o) && o in made && State().children[s] == o.id && o.id in State().cells && State().cells[o.id] == o.Cell()
    {
      hide TokensOf;
    }

    /** A fresh read state in its place. */
    method AttachState(slot: Slot) returns (o: ThreadReadState)
      requires Wired() && !RootSlot(slot)
      modifies this`bodies, this`copies, this`inventory, this`made
      ensures Wired() && fresh(o) && made == old(made) + [o] && o.id == |old(made)| && Of(made, o)
      ensures State() == Attach(old(State()), slot)
    {
      hide TokensOf, ChildrenOf, CellsOf, Assembled;
      ghost var maps := Maps(bodies, copies, inventory);
      o := new ThreadReadState(|made|, slot);
      GrownChildren(maps, slot, o);
      GrownAssembled(made, maps, waiting, slot, o);
      GrownCells(made, o);
      Hang(slot, o);
    }

    /** What sat under the doomed slots goes, and a fresh state takes its place. */
    method Replace(doomed: set<Slot>, slot: Slot) returns (o: ThreadReadState)
      requires Wired() && !RootSlot(slot)
      modifies this`bodies, this`copies, this`inventory, this`made, made
      ensures Wired() && fresh(o) && made == old(made) + [o] && o.id == |old(made)| && Of(made, o)
      ensures State() == Attach(Drop(old(State()), doomed), slot)
    {
      hide TokensOf, ChildrenOf, CellsOf, Wired, Drop, Attach;
      DropSlots(doomed);
      o := AttachState(slot);
    }

    method Hang(slot: Slot, o: ThreadReadState)
      requires !RootSlot(slot)
      modifies this`bodies, this`copies, this`inventory, this`made
      ensures made == old(made) + [o] && Maps(bodies, copies, inventory) == Grown(old(Maps(bodies, copies, inventory)), slot, o)
    {
      match slot {
        case BodyOf(m) => bodies := bodies[m := o];
        case CopiesOf(m) => copies := copies[m := o];
        case InventoryOf(m, c) => inventory := inventory[(m, c) := o];
      }
      made := made + [o];
    }

    method LoadCopyPage(message: string, more: bool)
      requires Wired()
      modifies this`bodies, this`copies, this`inventory, this`calls, this`waiting, made
      ensures Wired() && State() == ThreadViews.LoadCopies(old(State()), message, more)
    {
      ChildAt(CopiesOf(message));
      hide TokensOf, ChildrenOf, CellsOf, Wired, MessageSelector, PageRead;
      var query := MessageQuery(message);
      if query.None? || message !in copies {
        return;
      }
      ReadPage(copies[message], more, CopiesQuery(query.value, message));
    }

    method LoadInventoryPage(message: string, copy: string, more: bool)
      requires Wired()
      modifies this`bodies, this`copies, this`inventory, this`calls, this`waiting, made
      ensures Wired() && State() == ThreadViews.LoadInventory(old(State()), message, copy, more)
    {
      ChildAt(InventoryOf(message, copy));
      hide TokensOf, ChildrenOf, CellsOf, Wired, MessageSelector, PageRead;
      var query := MessageQuery(message);
      if query.None? || (message, copy) !in inventory {
        return;
      }
      ReadPage(inventory[(message, copy)], more, InventoryQuery(query.value, message, copy));
    }

    method OpenBody(message: string)
      requires Valid()
      modifies this, made
      ensures Valid() && State() == ThreadViews.OpenBody(old(State()), message)
      ensures old(made) <= made && forall x :: x in made ==> x in old(made) || fresh(x)
    {
      hide Inv, Wired, CellsOf, TokensOf, ChildrenOf, MessageSelector, Drop, Attach, StartRead;
      Roots();
      OpenBodyKeeps(State(), message);
      var query := MessageQuery(message);
      if query.None? {
        return;
      }
      var state := Replace({BodyOf(message)}, BodyOf(message));
      BeginRead(state, false, BodyQuery(query.value, message), None, false, WhileAllowed);
    }

    method CloseBody(message: string)
      requires Valid()
      modifies this, made
      ensures Valid() && made == old(made) && State() == ThreadViews.CloseBody(old(State()), message)
    {
      hide Inv, Wired, CellsOf, TokensOf, ChildrenOf, Drop;
      Roots();
      CloseBodyKeeps(State(), message);
      DropSlots({BodyOf(message)});
    }

    method OpenCopies(message: string)
      requires Valid()
      modifies this, made
      ensures Valid() && State() == ThreadViews.OpenCopies(old(State()), message)
      ensures old(made) <= made && forall x :: x in made ==> x in old(made) || fresh(x)
    {
      hide Inv, Wired, CellsOf, TokensOf, ChildrenOf, MessageSelector, InventorySlots, Drop, Attach, ThreadViews.LoadCopies;
      Roots();
      OpenCopiesKeeps(State(), message);
      var query := MessageQuery(message);
      if query.None? {
        return;
      }
      var slots := InventoriesOf(message);
      var state := Replace({CopiesOf(message)} + slots, CopiesOf(message));
      LoadCopyPage(message, false);
    }

    method LoadCopies(message: string, more: bool)
      requires Valid()
      modifies this, made
      ensures Valid() && made == old(made) && State() == ThreadViews.LoadCopies(old(State()), message, more)
    {
      hide Inv, Wired, CellsOf, TokensOf, ChildrenOf, ThreadViews.LoadCopies;
      Roots();
      LoadCopiesKeeps(State(), message, more);
      LoadCopyPage(message, more);
    }

    method CloseCopies(message: string)
      requires Valid()
      modifies this, made
      ensures Valid() && made == old(made) && State() == ThreadViews.CloseCopies(old(State()), message)
    {
      hide Inv, Wired, CellsOf, TokensOf, ChildrenOf, ThreadViews.CloseCopies;
      Roots();
      CloseCopiesKeeps(State(), message);
      DropCopies(message);
    }

    method OpenInventory(message: string, copy: string)
      requires Valid()
      modifies this, made
      ensures Valid() && State() == ThreadViews.OpenInventory(old(State()), message, copy)
      ensures old(made) <= made && forall x :: x in made ==> x in old(made) || fresh(x)
    {
      hide Inv, Wired, CellsOf, TokensOf, ChildrenOf, Drop, Attach, ThreadViews.LoadInventory;
      Roots();
      OpenInventoryKeeps(State(), message, copy);
      ChildAt(CopiesOf(message));
      if message !in copies || copy !in Items(copies[message].value) {
        return;
      }
      var state := Replace({InventoryOf(message, copy)}, InventoryOf(message, copy));
      LoadInventoryPage(message, copy, false);
    }

    method LoadInventory(message: string, copy: string, more: bool)
      requires Valid()
      modifies this, made
      ensures Valid() && made == old(made) && State() == ThreadViews.LoadInventory(old(State()), message, copy, more)
    {
      hide Inv, Wired, CellsOf, TokensOf, ChildrenOf, ThreadViews.LoadInventory;
      Roots();
      LoadInventoryKeeps(State(), message, copy, more);
      LoadInventoryPage(message, copy, more);
    }

    method CloseInventory(message: string, copy: string)
      requires Valid()
      modifies this, made
      ensures Valid() && made == old(made) && State() == ThreadViews.CloseInventory(old(State()), message, copy)
    {
      hide Inv, Wired, CellsOf, TokensOf, ChildrenOf, Drop;
      Roots();
      CloseInventoryKeeps(State(), message, copy);
      DropSlots({InventoryOf(message, copy)});
    }

    // -------------------------------------------------------------------------------------------
    // Settlements

    lemma TokenAt(n: nat)
      requires Wired() && n in waiting
      ensures n in State().waiting && State().waiting[n] == TokenOf(waiting[n])
      ensures Of(made, waiting[n].state) && waiting[n].state in made
      ensures waiting[n].state.id in State().cells && State().cells[waiting[n].state.id] == waiting[n].state.Cell()
    {
      CellAt(waiting[n].state);
      hide ChildrenOf, CellsOf;
    }

    /** Whether the read still counts: its state has not moved on, and its fence holds. */
    method CurrentNow(p: Pending) returns (current: bool)
      requires Of(made, p.state)
      ensures current == TokenCurrent(State(), TokenOf(p))
    {
      CellAt(p.state);
      hide TokensOf, ChildrenOf, CellsOf, Allowed;
      var allowed := AllowedNow();
      current := p.state.generation == p.generation && allowed
        && (p.fence.WhileAllowed? || (inbox.Some? && inbox.value.id == p.fence.entry && selection == p.fence.selection));
    }

    method Forget(n: nat)
      requires Wired() && n in waiting
      modifies this`waiting
      ensures Wired() && waiting == old(waiting) - {n} && State() == old(State()).(waiting := old(State()).waiting - {n})
    {
      assert TokensOf(waiting - {n}) == TokensOf(waiting) - {n};
      hide TokensOf, ChildrenOf, CellsOf;
      waiting := waiting - {n};
    }

    /** The read is over; a resolution's caller goes on in a step of its own. */
    method Finish(p: Pending)
      requires Wired()
      modifies this`resuming
      ensures Wired() && State() == Finished(old(State()), TokenOf(p))
    {
      hide TokensOf, ChildrenOf, CellsOf, Assembled;
      if p.fence.WhileResolving? {
        resuming := resuming[p.fence.selection := p.fence.entry];
      }
    }

    method StoreNow(n: nat, reply: Reply)
      requires Wired() && n in waiting
      modifies this`waiting, this`resuming, made
      ensures Wired() && n in old(State()).waiting && State() == Store(old(State()), n, reply)
    {
      TokenAt(n);
      hide TokensOf, ChildrenOf, CellsOf, Assembled, TokenCurrent, Finished, Joined;
      var p := waiting[n];
      var current := CurrentNow(p);
      Forget(n);
      if current {
        KeepState(p.state, Joined(p.previous, Hop(n, reply)));
      }
      Finish(p);
    }

    method OnReply(n: nat, reply: Reply)
      requires Valid() && n in waiting && waiting[n].rejected.None? && n < |calls| && Fits(calls[n].query, reply)
      modifies this, made
      ensures Valid() && made == old(made) && n in old(State()).waiting && State() == Store(old(State()), n, reply)
    {
      TokenAt(n);
      hide Inv, Wired, CellsOf, TokensOf, ChildrenOf, Store;
      ReplyKeeps(State(), n, reply);
      StoreNow(n, reply);
    }

    /** A failed call reaches its read: one restart for a stale cursor, the end for anything else. */
    method CatchNow(n: nat, code: Code)
      requires Wired() && n in waiting && n < |calls|
      modifies this, made
      ensures Wired() && made == old(made) && n in old(State()).waiting && State() == Catch(old(State()), n, code)
    {
      TokenAt(n);
      hide TokensOf, ChildrenOf, CellsOf, Wired, TokenCurrent, Finished, ClearBelow, Issue;
      var p := waiting[n];
      var current := CurrentNow(p);
      var query := calls[n].query;
      Forget(n);
      if current {
        GiveUp(p, query, p.restartable && code == StaleCursor);
      } else {
        Finish(p);
      }
    }

    method GiveUp(p: Pending, query: Query, restart: bool)
      requires Wired() && Of(made, p.state) && p.state in made
      modifies this`bodies, this`copies, this`inventory, this`calls, this`waiting, this`resuming, made
      ensures Wired() && p.state.id in old(State()).cells
      ensures
        var c := old(p.state.Cell());
        var d := if restart then c.(value := None, changed := true) else c.(value := None, status := Failed);
        var x := ClearBelow(old(State()).(cells := old(State()).cells[p.state.id := d]), c.slot);
        State() == if restart then Issue(x, p.state.id, query, None, None, false, p.fence) else Finished(x, TokenOf(p))
    {
      hide TokensOf, ChildrenOf, CellsOf, Wired, Finished, ClearBelow, Issue;
      Spoil(p.state, restart);
      ClearUnder(p.state.slot);
      if restart {
        IssueCall(p.state, query, None, None, false, p.fence);
      } else {
        Finish(p);
      }
    }

    method Spoil(o: ThreadReadState, restart: bool)
      requires Wired() && Of(made, o) && o in made
      modifies o
      ensures Wired() && o.id in old(State()).cells
      ensures State() == old(State()).(cells := old(State()).cells[o.id :=
        if restart then old(o.Cell()).(value := None, changed := true) else old(o.Cell()).(value := None, status := Failed)])
    {
      CellAt(o);
      hide TokensOf, ChildrenOf, CellsOf;
      FailState(o, restart);
    }

    method Reject(n: nat, code: Code)
      requires Wired() && n in waiting
      modifies this`waiting
      ensures Wired() && n in old(State()).waiting
      ensures State() == old(State()).(waiting := old(State()).waiting[n := old(State()).waiting[n].(rejected := Some(code))])
    {
      TokenAt(n);
      hide TokensOf, ChildrenOf, CellsOf, Wired;
      Await(n, waiting[n].(rejected := Some(code)));
    }

    method BlameResolution()
      requires Wired()
      modifies made
      ensures Wired() && Rooted(old(State()))
      ensures State() == old(State()).(cells := old(State()).cells[RESOLUTION := old(State()).cells[RESOLUTION].(status := Failed)])
    {
      Roots();
      hide TokensOf, ChildrenOf, CellsOf;
      BlameState(resolution);
    }

    /** The guard's own handler: a selection that is gone blanks the reader. */
    method TripGuard(n: nat, code: Code)
      requires Wired() && n in waiting && waiting[n].guard.Some?
      modifies this, made
      ensures Wired() && made == old(made) && Rooted(old(State())) && n in old(State()).waiting
      ensures old(State()).waiting[n].guard.Some? && State() == GuardTrips(old(State()), n, code)
    {
      TokenAt(n);
      Roots();
      hide TokensOf, ChildrenOf, CellsOf, Wired, ThreadViews.Invalidate, Allowed;
      var g := waiting[n].guard.value;
      var allowed := AllowedNow();
      Reject(n, code);
      if inbox.Some? && inbox.value.id == g.entry && selection == g.selection && allowed
         && (code == NotFound || code == StaleSelection) {
        Blank();
      }
    }

    /** Everything goes, and the resolution shows the error. */
    method Blank()
      requires Wired()
      modifies this, made
      ensures Wired() && made == old(made) && Rooted(old(State()))
      ensures
        var x := ThreadViews.Invalidate(old(State()));
        State() == x.(cells := x.cells[RESOLUTION := x.cells[RESOLUTION].(status := Failed)])
    {
      hide TokensOf, ChildrenOf, CellsOf, Wired, ThreadViews.Invalidate;
      InvalidateNow();
      BlameResolution();
    }

    /** A call fails; with an Inbox entry its guard sees the error first, and the read in a step of its own. */
    method OnFailure(n: nat, code: Code)
      requires Valid() && n in waiting && waiting[n].rejected.None? && n < |calls|
      modifies this, made
      ensures Valid() && made == old(made) && n in old(State()).waiting
      ensures State() == if old(State()).waiting[n].guard.Some? then GuardTrips(old(State()), n, code) else Catch(old(State()), n, code)
    {
      TokenAt(n);
      Roots();
      hide Inv, Wired, CellsOf, TokensOf, ChildrenOf, GuardTrips, Catch;
      if waiting[n].guard.Some? {
        GuardTripsKeeps(State(), n, code);
        TripGuard(n, code);
      } else {
        CatchKeeps(State(), n, code);
        CatchNow(n, code);
      }
    }

    method OnRejection(n: nat)
      requires Valid() && n in waiting && waiting[n].rejected.Some? && n < |calls|
      modifies this, made
      ensures Valid() && made == old(made) && n in old(State()).waiting
      ensures State() == Catch(old(State()), n, old(waiting[n].rejected.value))
    {
      TokenAt(n);
      hide Inv, Wired, CellsOf, TokensOf, ChildrenOf, Catch;
      CatchKeeps(State(), n, waiting[n].rejected.value);
      CatchNow(n, waiting[n].rejected.value);
    }
  }
}
