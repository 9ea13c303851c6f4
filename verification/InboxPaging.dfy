/** Inbox paging around the refresh owner: query epochs, request generations, page loads, span runs,
    removals, account mutations and Load more, as the module variables of main.ts.  Every function
    below is one atomic step, from one `await` to the next; a page load or a run that waits for the
    engine is a token that any later event may settle. */
module InboxPaging {
  import opened Basics
  import opened InboxReloads
  import M = MailboxScopes

  /** A row on display, with the query epoch and the mailbox scope its page was requested under. */
  datatype Row = Row(id: string, epoch: nat, scope: Option<Scope>)

  datatype LoadPhase = Querying | Discovering

  /** A page load under way, keyed by its request generation: `Querying` until the engine's page
      arrives, then `Discovering` until the capability reads settle.  `seen` is the mailbox scope at
      the time of the request, `asked` the cursor sent, and `owner` the refresh run it serves, if any. */
  datatype Load = Load(append: bool, scope: Option<Scope>, epoch: nat, seen: Option<Scope>,
                       asked: Option<string>, owner: Option<nat>, phase: LoadPhase)

  /** Where a refresh run stands: in a page load, back from one, or at its end. */
  datatype RunPhase = Paging(generation: nat) | Returned(ok: bool) | Over

  datatype RefreshRun = RefreshRun(request: Request, source: Option<Scope>, phase: RunPhase)

  /** A span commit, as it stood: what was asked for, the rows shown, and the cursor left. */
  datatype Commit = Commit(intent: Intent, rows: seq<Row>, cursor: Option<string>, epoch: nat)

  datatype Inbox = Inbox(
    reload: Reload, mail: M.Mailbox, configured: bool, removing: bool,
    generation: nat, epoch: nat,
    items: seq<Row>, itemsEpoch: Option<nat>, cursor: Option<string>, spanScope: Option<Scope>,
    loads: map<nat, Load>, runs: map<nat, RefreshRun>, commits: seq<Commit>)

  function Initial(): Inbox {
    Inbox(Reload(None, None, 0), M.INITIAL, false, false, 0, 0, [], None, None, None, map[], map[], [])
  }

  predicate Blocked(p: Inbox) {
    !p.configured || p.mail.inFlight || p.removing
  }

  function EnvOf(p: Inbox): Env {
    Env(p.epoch, Blocked(p), M.CurrentScope(p.mail))
  }

  /** A cursor that leads somewhere; the source tests it for truth, so the empty string does not. */
  predicate More(cursor: Option<string>) {
    cursor.Some? && cursor.value != ""
  }

  predicate OwnerSees(p: Inbox, id: nat) {
    Owns(p.reload, id) && Current(EnvOf(p), p.reload.active.value)
  }

  // ---------------------------------------------------------------------------------------------
  // Page loads and runs

  predicate LoadAllowed(p: Inbox, append: bool, scope: Option<Scope>) {
    M.ScopeIsCurrent(p.mail, scope) && !Blocked(p) && (append ==> More(p.cursor))
  }

  /** The synchronous part of a page load: a new generation and a query to the engine. */
  function BeginLoad(p: Inbox, append: bool, scope: Option<Scope>, owner: Option<nat>): Inbox {
    var g := p.generation + 1;
    var asked := if append then p.cursor else None;
    p.(generation := g, loads := p.loads[g := Load(append, scope, p.epoch, M.CurrentScope(p.mail), asked, owner, Querying)])
  }

  /** A page load on behalf of a run; a refused load comes back false at once. */
  function RunLoads(p: Inbox, id: nat, append: bool): Inbox
    requires id in p.runs
  {
    var run := p.runs[id];
    if LoadAllowed(p, append, run.request.scope) then
      var q := BeginLoad(p, append, run.request.scope, Some(id));
      q.(runs := p.runs[id := run.(phase := Paging(q.generation))])
    else p.(runs := p.runs[id := run.(phase := Returned(false))])
  }

  /** Adopts what the owner decided; a begun run records the mailbox scope and asks for page one. */
  function Adopted(p: Inbox, o: Outcome): Inbox {
    var q := p.(reload := o.reload);
    if o.started.None? then q else
    var r := o.started.value;
    RunLoads(q.(runs := q.runs[r.id := RefreshRun(r, M.CurrentScope(p.mail), Over)]), r.id, false)
  }

  function Waked(p: Inbox): Inbox {
    Adopted(p, Wake(p.reload, EnvOf(p)))
  }

  function Asked(p: Inbox, intent: Intent, scope: Option<Scope>): Inbox {
    Adopted(p, Ask(p.reload, EnvOf(p), intent, scope))
  }

  /** `loadInbox` without append: a first-page request, under a scope or under none. */
  function LoadFirst(p: Inbox, scope: Option<Scope>): Inbox {
    var q := if p.configured && M.ScopeIsCurrent(p.mail, scope) then p.(spanScope := None) else p;
    Asked(q, First, scope)
  }

  /** `refreshLoadedInboxSpan`: restore as many rows as are shown, if they answer the current query. */
  function RefreshSpan(p: Inbox): Inbox {
    var q := if p.configured then p.(spanScope := None) else p;
    Asked(q, if q.itemsEpoch == Some(q.epoch) then Span(|q.items|) else First, None)
  }

  /** Load more: refused while a refresh runs. */
  function LoadMore(p: Inbox, scope: Option<Scope>): Inbox {
    var q := p.(reload := Synchronize(p.reload, EnvOf(p)));
    if q.reload.active.None? && LoadAllowed(q, true, scope) then BeginLoad(q, true, scope, None) else q
  }

  // ---------------------------------------------------------------------------------------------
  // Replies

  datatype Page = Page(ids: seq<string>, cursor: Option<string>)

  function RowsOf(ids: seq<string>, l: Load): seq<Row> {
    seq(|ids|, i requires 0 <= i < |ids| => Row(ids[i], l.epoch, l.seen))
  }

  function Ids(rows: seq<Row>): set<string> {
    set r | r in rows :: r.id
  }

  /** The page's rows whose ids are not on display yet, in page order. */
  function Unknown(rows: seq<Row>, known: set<string>): seq<Row> {
    if rows == [] then []
    else (if rows[0].id in known then [] else [rows[0]]) + Unknown(rows[1..], known)
  }

  function Without(rows: seq<Row>, id: string): seq<Row> {
    if rows == [] then []
    else (if rows[0].id == id then [] else [rows[0]]) + Without(rows[1..], id)
  }

  /** A load is over: it leaves the table, and the run it serves, if any, gets its result. */
  function Return(p: Inbox, g: nat, ok: bool): Inbox
    requires g in p.loads
  {
    var l := p.loads[g];
    var q := p.(loads := p.loads - {g});
    if l.owner.Some? && l.owner.value in p.runs
    then q.(runs := p.runs[l.owner.value := p.runs[l.owner.value].(phase := Returned(ok))])
    else q
  }

  predicate LoadCurrent(p: Inbox, g: nat)
    requires g in p.loads
  {
    g == p.generation && M.ScopeIsCurrent(p.mail, p.loads[g].scope)
  }

  function Failed(p: Inbox, g: nat): Inbox
    requires g in p.loads
  {
    if LoadCurrent(p, g) && !p.loads[g].append then Return(p.(cursor := None), g, false)
    else Return(p, g, false)
  }

  function Replied(p: Inbox, g: nat, page: Page): Inbox
    requires g in p.loads
  {
    var l := p.loads[g];
    if !LoadCurrent(p, g) then Return(p, g, false) else
    var rows := RowsOf(page.ids, l);
    var q := if l.append then p.(items := p.items + Unknown(rows, Ids(p.items)))
             else p.(items := rows, itemsEpoch := Some(p.epoch));
    q.(cursor := page.cursor, loads := p.loads[g := l.(phase := Discovering)])
  }

  /** A run goes on after a page load: it gives up, asks for the next page, or commits its span. */
  function Resumed(p: Inbox, id: nat): Inbox
    requires id in p.runs && p.runs[id].phase.Returned?
  {
    var run := p.runs[id];
    var over := p.(runs := p.runs[id := run.(phase := Over)]);
    if !run.phase.ok || !OwnerSees(p, id) then over
    else if run.request.intent.Span? && |p.items| < run.request.intent.target && More(p.cursor) then
      RunLoads(p, id, true)
    else over.(
      spanScope := if run.source.Some? && run.request.epoch == p.epoch && M.ScopeIsCurrent(p.mail, run.source)
                   then run.source else None,
      commits := p.commits + [Commit(run.request.intent, p.items, p.cursor, p.epoch)])
  }

  // ---------------------------------------------------------------------------------------------
  // Events

  /** What a settled removal leaves to do: nothing accepted, one row deleted, or all rows cleared. */
  datatype Removal = Unaccepted | Deleted(id: string) | Cleared(completed: bool)

  function AfterRemoval(p: Inbox, effect: Removal): Inbox {
    match effect
    case Unaccepted => p
    case Deleted(id) => p.(items := Without(p.items, id))
    case Cleared(completed) => p.(items := [], cursor := if completed then None else p.cursor)
  }

  datatype Event =
    | QueryChanged(clear: bool)
    | ConfigurationReset
    | ConfigurationReady
    | MailboxEvent(e: M.Event)
    | RemovalBegins
    | RemovalEnds(effect: Removal)
    | FirstPageWanted(scope: Option<Scope>)
    | SpanWanted
    | MorePressed(scope: Option<Scope>)
    | PageArrives(generation: nat, page: Page)
    | PageFails(generation: nat)
    | CapabilitiesSettle(generation: nat)
    | RunResumes(id: nat)
    | RunEnds(id: nat)

  predicate Distinct(ids: seq<string>) {
    forall i, j :: 0 <= i < j < |ids| ==> ids[i] != ids[j]
  }

  /** What is outstanding may settle; the only thing asked of the engine is that the ids of one page differ. */
  predicate Possible(p: Inbox, e: Event) {
    match e
    case MailboxEvent(m) => M.Enabled(p.mail, m)
    case RemovalBegins => !p.removing
    case RemovalEnds(_) => p.removing
    case PageArrives(g, page) => g in p.loads && p.loads[g].phase == Querying && Distinct(page.ids)
    case PageFails(g) => g in p.loads && p.loads[g].phase == Querying
    case CapabilitiesSettle(g) => g in p.loads && p.loads[g].phase == Discovering
    case RunResumes(id) => id in p.runs && p.runs[id].phase.Returned?
    case RunEnds(id) => id in p.runs && p.runs[id].phase.Over?
    case _ => true
  }

  /** A new query: a new epoch and generation; a change of account or sender also drops the rows. */
  function NewQuery(p: Inbox, clear: bool): Inbox {
    var q := p.(generation := p.generation + 1, epoch := p.epoch + 1);
    if clear then q.(items := [], cursor := None) else q
  }

  function RemovalBegun(p: Inbox): Inbox {
    p.(removing := true, generation := p.generation + 1)
  }

  /** The first of overlapping account mutations retires the generation. */
  function MutationBegun(p: Inbox): Inbox {
    p.(mail := M.Begin(p.mail), generation := if p.mail.mutations == 0 then p.generation + 1 else p.generation)
  }

  function MailStep(p: Inbox, e: M.Event): Inbox
    requires M.Enabled(p.mail, e)
  {
    match e
    case MutationBegins => Waked(MutationBegun(p))
    case MutationEnds(_) => Waked(p.(mail := M.Step(p.mail, e)))
    case _ => p.(mail := M.Step(p.mail, e))
  }

  function Next(p: Inbox, e: Event): Inbox
    requires Possible(p, e)
  {
    match e
    case QueryChanged(clear) => LoadFirst(NewQuery(p, clear), None)
    case ConfigurationReset =>
      p.(configured := false, generation := p.generation + 1, epoch := p.epoch + 1, reload := Cancel(p.reload))
    case ConfigurationReady => LoadFirst(p.(configured := true), None)
    case MailboxEvent(m) => MailStep(p, m)
    case RemovalBegins => Waked(RemovalBegun(p))
    case RemovalEnds(effect) => LoadFirst(AfterRemoval(p, effect).(removing := false), None)
    case FirstPageWanted(scope) => LoadFirst(p, scope)
    case SpanWanted => RefreshSpan(p)
    case MorePressed(scope) => LoadMore(p, scope)
    case PageArrives(g, page) => Replied(p, g, page)
    case PageFails(g) => Failed(p, g)
    case CapabilitiesSettle(g) => Return(p, g, true)
    case RunResumes(id) => Resumed(p, id)
    case RunEnds(id) => Adopted(p.(runs := p.runs - {id}), Settle(p.reload, EnvOf(p), id))
  }

  ghost predicate History(p: Inbox, events: seq<Event>)
    decreases |events|
  {
    events == [] || (Possible(p, events[0]) && History(Next(p, events[0]), events[1..]))
  }

  ghost function After(p: Inbox, events: seq<Event>): Inbox
    requires History(p, events)
    decreases |events|
  {
    if events == [] then p else After(Next(p, events[0]), events[1..])
  }

  // ---------------------------------------------------------------------------------------------
  // The invariant

  ghost predicate RowsOfOneEpoch(p: Inbox) {
    forall r :: r in p.items ==> p.itemsEpoch == Some(r.epoch)
  }

  predicate DistinctRows(rows: seq<Row>) {
    forall i, j :: 0 <= i < j < |rows| ==> rows[i].id != rows[j].id
  }

  /** A scope the client once saw as current is current still or past for good. */
  predicate Known(m: M.Mailbox, scope: Option<Scope>) {
    scope.None? || M.CurrentScope(m) == scope || M.Past(m, scope.value)
  }

  /** Identities: request objects, runs and loads refer to each other one to one. */
  ghost predicate Linked(p: Inbox) {
    && M.Valid(p.mail)
    && (forall id :: id in p.runs ==> id < p.reload.nextId && p.runs[id].request.id == id)
    && (p.reload.pending.Some? ==> p.reload.pending.value.id < p.reload.nextId && p.reload.pending.value.id !in p.runs)
    && (p.reload.active.Some? ==> p.reload.active.value.id in p.runs
                                  && p.runs[p.reload.active.value.id].request == p.reload.active.value)
    && (forall id :: id in p.runs && p.runs[id].phase.Paging? ==>
          p.runs[id].phase.generation in p.loads && p.loads[p.runs[id].phase.generation].owner == Some(id))
    && (forall g :: g in p.loads && p.loads[g].owner.Some? ==>
          p.loads[g].owner.value in p.runs && p.runs[p.loads[g].owner.value].phase == Paging(g))
  }

  ghost predicate Stamped(p: Inbox) {
    && (p.itemsEpoch.Some? ==> p.itemsEpoch.value <= p.epoch)
    && (p.reload.pending.Some? ==> p.reload.pending.value.epoch <= p.epoch && Known(p.mail, p.reload.pending.value.scope))
    && (p.reload.active.Some? ==> p.reload.active.value.epoch <= p.epoch && Known(p.mail, p.reload.active.value.scope))
    && (forall g :: g in p.loads ==> g <= p.generation)
    && (p.generation in p.loads ==> p.loads[p.generation].epoch == p.epoch)
    && (forall id :: id in p.runs ==> Known(p.mail, p.runs[id].source))
    && Known(p.mail, p.spanScope)
  }

  /** The live load may only append to rows of its own epoch. */
  ghost predicate AppendsMatch(p: Inbox) {
    p.generation in p.loads && p.loads[p.generation].append ==> p.itemsEpoch == Some(p.epoch)
  }

  ghost predicate PastFirstPage(p: Inbox, id: nat)
    requires id in p.runs
  {
    match p.runs[id].phase
    case Paging(g) => g in p.loads && (p.loads[g].append || p.loads[g].phase == Discovering)
    case Returned(ok) => ok
    case Over => false
  }

  /** The current owner is unblocked, its load is the live one, and past its first page the rows are its own. */
  ghost predicate OwnerSound(p: Inbox) {
    p.reload.active.Some? && Current(EnvOf(p), p.reload.active.value) ==>
      var id := p.reload.active.value.id;
      && !Blocked(p)
      && id in p.runs
      && (p.generation in p.loads ==> p.loads[p.generation].owner == Some(id))
      && (p.runs[id].phase.Paging? ==> p.runs[id].phase.generation == p.generation)
      && (PastFirstPage(p, id) ==> p.itemsEpoch == Some(p.epoch))
  }

  /** While the rows and cursor still belong to an older query, something stands in the way of Load
      more: missing configuration, a blocker over an unscoped request, or the owner's first page. */
  ghost predicate OldCursorGuarded(p: Inbox) {
    More(p.cursor) && p.itemsEpoch != Some(p.epoch) ==>
      || !p.configured
      || (Blocked(p) && p.reload.pending.Some? && p.reload.pending.value.epoch == p.epoch
          && p.reload.pending.value.scope.None?)
      || FirstPageUnderway(p)
  }

  ghost predicate FirstPageUnderway(p: Inbox) {
    && p.reload.active.Some? && p.reload.active.value.epoch == p.epoch && p.reload.active.value.scope.None?
    && p.reload.active.value.id in p.runs
    && p.runs[p.reload.active.value.id].phase == Paging(p.generation)
    && p.generation in p.loads && !p.loads[p.generation].append && p.loads[p.generation].phase == Querying
    && p.loads[p.generation].scope.None?
  }

  predicate AllSeen(rows: seq<Row>, scope: Option<Scope>) {
    forall r :: r in rows ==> r.scope == scope
  }

  /** Rows and live load were requested under `scope`. */
  ghost predicate Vouched(p: Inbox, scope: Option<Scope>) {
    AllSeen(p.items, scope) && (p.generation in p.loads ==> p.loads[p.generation].seen == scope)
  }

  ghost predicate SpanVouched(p: Inbox) {
    p.spanScope.Some? && M.CurrentScope(p.mail) == p.spanScope ==> Vouched(p, p.spanScope)
  }

  ghost predicate SourceVouched(p: Inbox) {
    p.reload.active.Some? && Current(EnvOf(p), p.reload.active.value) && p.reload.active.value.id in p.runs ==>
      var id := p.reload.active.value.id;
      var source := p.runs[id].source;
      source.Some? && M.CurrentScope(p.mail) == source ==>
        && (p.generation in p.loads ==> p.loads[p.generation].seen == source)
        && (PastFirstPage(p, id) ==> AllSeen(p.items, source))
  }

  ghost predicate SpanComplete(c: Commit) {
    && (c.intent.Span? ==> c.intent.target <= |c.rows| || !More(c.cursor))
    && DistinctRows(c.rows)
    && (forall r :: r in c.rows ==> r.epoch == c.epoch)
  }

  ghost predicate CommitsComplete(p: Inbox) {
    forall c :: c in p.commits ==> SpanComplete(c)
  }

  ghost predicate Inv(p: Inbox) {
    && RowsOfOneEpoch(p) && DistinctRows(p.items)
    && Linked(p) && Stamped(p)
    && AppendsMatch(p) && OwnerSound(p) && OldCursorGuarded(p)
    && SpanVouched(p) && SourceVouched(p)
    && CommitsComplete(p)
  }

  // ---------------------------------------------------------------------------------------------
  // Rows

  lemma {:induction false} UnknownRows(rows: seq<Row>, known: set<string>)
    ensures forall r :: r in Unknown(rows, known) <==> r in rows && r.id !in known
    ensures DistinctRows(rows) ==> DistinctRows(Unknown(rows, known))
  {
    if rows != [] {
      UnknownRows(rows[1..], known);
      assert rows == [rows[0]] + rows[1..];
      var rest := Unknown(rows[1..], known);
      if DistinctRows(rows) {
        assert DistinctRows(rows[1..]);
        assert rows[0].id !in known ==> Unknown(rows, known) == [rows[0]] + rest;
      }
    }
  }

  lemma {:induction false} WithoutRows(rows: seq<Row>, id: string)
    ensures forall r :: r in Without(rows, id) <==> r in rows && r.id != id
    ensures DistinctRows(rows) ==> DistinctRows(Without(rows, id))
  {
    if rows != [] {
      WithoutRows(rows[1..], id);
      assert rows == [rows[0]] + rows[1..];
      var rest := Without(rows[1..], id);
      if DistinctRows(rows) {
        assert DistinctRows(rows[1..]);
        assert rows[0].id != id ==> Without(rows, id) == [rows[0]] + rest;
      }
    }
  }

  /** Appending a page adds exactly its rows with unknown ids, so that every id of either shows once. */
  lemma AppendedRows(items: seq<Row>, rows: seq<Row>)
    requires DistinctRows(items) && DistinctRows(rows)
    ensures var all := items + Unknown(rows, Ids(items));
      && DistinctRows(all) && Ids(all) == Ids(items) + Ids(rows)
      && (forall r :: r in all <==> r in items || (r in rows && r.id !in Ids(items)))
  {
    UnknownRows(rows, Ids(items));
    var added := Unknown(rows, Ids(items));
    forall i, j | 0 <= i < j < |items + added| ensures (items + added)[i].id != (items + added)[j].id {
      if i < |items| <= j {
        assert items[i] in items && items[i].id in Ids(items);
        assert added[j - |items|] in added;
      }
    }
    forall id | id in Ids(rows) && id !in Ids(items) ensures id in Ids(items + added) {
      var r :| r in rows && r.id == id;
      assert r in added;
    }
  }

  // ---------------------------------------------------------------------------------------------
  // Moves

  /** What must hold just before the owner is consulted: all of the invariant, except that the rows may
      be unguarded if the coming request is the unscoped one that guards them. */
  ghost predicate Base(p: Inbox) {
    && RowsOfOneEpoch(p) && DistinctRows(p.items)
    && Linked(p) && Stamped(p)
    && AppendsMatch(p)
    && SpanVouched(p)
    && CommitsComplete(p)
  }

  lemma StartsRun(p: Inbox, r: Request)
    requires Base(p) && !Blocked(p)
    requires p.reload.active == Some(r) && Current(EnvOf(p), r)
    requires More(p.cursor) && p.itemsEpoch != Some(p.epoch) ==> r.scope.None?
    requires r.id in p.runs && p.runs[r.id] == RefreshRun(r, M.CurrentScope(p.mail), Over)
    ensures Inv(RunLoads(p, r.id, false))
    ensures r.scope.None? ==> FirstPageUnderway(RunLoads(p, r.id, false))
  {
    assert M.ScopeIsCurrent(p.mail, r.scope);
    var q := RunLoads(p, r.id, false);
    assert q.loads.Keys == p.loads.Keys + {q.generation};
  }

  predicate ActiveCurrent(p: Inbox) {
    p.reload.active.Some? && Current(EnvOf(p), p.reload.active.value)
  }

  /** Some request for the current epoch, unscoped, is on the books. */
  predicate UnscopedOnBooks(p: Inbox, slot: Option<Request>) {
    slot.Some? && slot.value.epoch == p.epoch && slot.value.scope.None?
  }

  /** A run starts from the pending slot. */
  lemma StartsPending(p: Inbox, o: Outcome)
    requires Base(p) && !Blocked(p) && o.started.Some?
    requires o.started.value.id !in p.runs && o.started.value.id < o.reload.nextId
    requires o.reload == Reload(None, o.started, o.reload.nextId) && p.reload.nextId <= o.reload.nextId
    requires Current(EnvOf(p), o.started.value)
    requires More(p.cursor) && p.itemsEpoch != Some(p.epoch) ==> o.started.value.scope.None?
    ensures Inv(Adopted(p, o))
  {
    var r := o.started.value;
    var q := p.(reload := o.reload);
    var v := q.(runs := q.runs[r.id := RefreshRun(r, M.CurrentScope(p.mail), Over)]);
    assert EnvOf(v) == EnvOf(p);
    StartsRun(v, r);
  }

  lemma WakedKeeps(p: Inbox)
    requires Base(p)
    requires More(p.cursor) && p.itemsEpoch != Some(p.epoch) ==>
      !p.configured || UnscopedOnBooks(p, p.reload.pending) || UnscopedOnBooks(p, p.reload.active)
    requires !Blocked(p) ==> !ActiveCurrent(p)
    ensures Inv(Waked(p))
  {
    var o := Wake(p.reload, EnvOf(p));
    if o.started.Some? {
      StartsPending(p, o);
    }
  }

  lemma AskedKeeps(p: Inbox, intent: Intent, scope: Option<Scope>)
    requires Base(p)
    requires ActiveCurrent(p) || scope.Some? ==> OwnerSound(p) && SourceVouched(p) && OldCursorGuarded(p)
    ensures Inv(Asked(p, intent, scope))
  {
    var o := Ask(p.reload, EnvOf(p), intent, scope);
    if o.started.Some? {
      StartsPending(p, o);
    }
  }

  lemma LoadFirstKeeps(p: Inbox, scope: Option<Scope>)
    requires Base(p)
    requires ActiveCurrent(p) || scope.Some? ==> OwnerSound(p) && SourceVouched(p) && OldCursorGuarded(p)
    ensures Inv(LoadFirst(p, scope))
  {
    AskedKeeps(p, First, scope);
    AskedKeeps(p.(spanScope := None), First, scope);
  }

  lemma LoadMoreKeeps(p: Inbox, scope: Option<Scope>)
    requires Inv(p)
    ensures Inv(LoadMore(p, scope))
  {
    var q := p.(reload := Synchronize(p.reload, EnvOf(p)));
    assert Inv(q);
    if q.reload.active.None? && LoadAllowed(q, true, scope) {
      var v := BeginLoad(q, true, scope, None);
      assert v.loads.Keys == q.loads.Keys + {v.generation};
    }
  }

  // ---------------------------------------------------------------------------------------------
  // Events

  lemma MailBaseKeeps(p: Inbox, e: M.Event)
    requires Base(p) && M.Enabled(p.mail, e)
    ensures Base(p.(mail := M.Step(p.mail, e)))
  {
    KnownAlong(p, e);
  }

  /** What a waking owner needs when a blocker has just come up. */
  ghost predicate Interrupted(p: Inbox) {
    && Base(p) && Blocked(p)
    && (More(p.cursor) && p.itemsEpoch != Some(p.epoch) ==>
          !p.configured || UnscopedOnBooks(p, p.reload.pending) || UnscopedOnBooks(p, p.reload.active))
  }

  lemma MutationInterrupts(p: Inbox)
    requires Inv(p)
    ensures Interrupted(MutationBegun(p))
  {
    MailBaseKeeps(p, M.MutationBegins);
  }

  lemma RemovalInterrupts(p: Inbox)
    requires Inv(p)
    ensures Interrupted(RemovalBegun(p))
  {
  }

  lemma InterruptedKeeps(p: Inbox)
    requires Interrupted(p)
    ensures Inv(Waked(p))
  {
    WakedKeeps(p);
  }

  lemma MutationBeginsKeeps(p: Inbox)
    requires Inv(p)
    ensures Inv(MailStep(p, M.MutationBegins))
  {
    MutationInterrupts(p);
    InterruptedKeeps(MutationBegun(p));
  }

  lemma MutationEndsKeeps(p: Inbox, revision: Option<nat>)
    requires Inv(p) && p.mail.mutations > 0
    ensures Inv(MailStep(p, M.MutationEnds(revision)))
  {
    var q := p.(mail := M.End(p.mail, revision));
    MailBaseKeeps(p, M.MutationEnds(revision));
    assert Blocked(p);
    KnownAlong(p, M.MutationEnds(revision));
    assert !ActiveCurrent(p) && !ActiveCurrent(q);
    WakedKeeps(q);
  }

  lemma MailStepKeeps(p: Inbox, e: M.Event)
    requires Inv(p) && M.Enabled(p.mail, e)
    ensures Inv(Next(p, MailboxEvent(e)))
  {
    match e {
      case MutationBegins => MutationBeginsKeeps(p);
      case MutationEnds(revision) => MutationEndsKeeps(p, revision);
      case _ => QuietMailKeeps(p, e);
    }
  }

  /** A revision observed outside a mutation changes neither blocker nor owner. */
  lemma QuietMailKeeps(p: Inbox, e: M.Event)
    requires Inv(p) && M.Enabled(p.mail, e) && (e.AccountsLoaded? || e.EventScheduled?)
    ensures Inv(p.(mail := M.Step(p.mail, e)))
  {
    var q := p.(mail := M.Step(p.mail, e));
    MailBaseKeeps(p, e);
    KnownAlong(p, e);
    assert Blocked(q) == Blocked(p);
    if ActiveCurrent(q) {
      assert ActiveCurrent(p);
    }
  }

  /** Scopes seen before a mailbox step are known after it, and a scope live after it was live or unseen. */
  lemma KnownAlong(p: Inbox, e: M.Event)
    requires M.Valid(p.mail) && M.Enabled(p.mail, e)
    ensures forall scope :: Known(p.mail, scope) ==> Known(M.Step(p.mail, e), scope)
    ensures forall scope: Option<Scope> :: scope.Some? && Known(p.mail, scope) && M.CurrentScope(M.Step(p.mail, e)) == scope
              ==> M.CurrentScope(p.mail) == scope
  {
    forall s | Known(p.mail, Some(s))
      ensures Known(M.Step(p.mail, e), Some(s))
      ensures M.CurrentScope(M.Step(p.mail, e)) == Some(s) ==> M.CurrentScope(p.mail) == Some(s)
    {
      if M.Past(p.mail, s) { M.PastStaysPast(p.mail, e, s); } else { M.LiveOrPast(p.mail, e, s); }
    }
  }

  lemma ReturnLinked(p: Inbox, g: nat, ok: bool)
    requires Linked(p) && g in p.loads
    ensures Linked(Return(p, g, ok))
  {
  }

  /** Where the owner stands when one of the loads returns. */
  lemma ReturnOwner(p: Inbox, g: nat, ok: bool)
    requires Linked(p) && OwnerSound(p) && SourceVouched(p) && g in p.loads
    requires ok ==> p.loads[g].phase == Discovering
    ensures OwnerSound(Return(p, g, ok)) && SourceVouched(Return(p, g, ok))
  {
    var v := Return(p, g, ok);
    assert EnvOf(v) == EnvOf(p);
    if ActiveCurrent(v) {
      var id := v.reload.active.value.id;
      if p.runs[id].phase == Paging(g) {
        assert v.runs[id].phase == Returned(ok) && v.generation !in v.loads;
      } else {
        assert v.runs[id] == p.runs[id];
        assert PastFirstPage(v, id) ==> PastFirstPage(p, id);
      }
    }
  }

  lemma ReturnKeeps(p: Inbox, g: nat, ok: bool)
    requires Inv(p) && g in p.loads
    requires ok ==> p.loads[g].phase == Discovering
    requires !ok && p.loads[g].phase == Querying ==>
      !LoadCurrent(p, g) || p.loads[g].append || !More(p.cursor)
    ensures Inv(Return(p, g, ok))
  {
    var v := Return(p, g, ok);
    ReturnLinked(p, g, ok);
    ReturnOwner(p, g, ok);
    hide Linked, OwnerSound, SourceVouched;
    assert EnvOf(v) == EnvOf(p);
    assert Stamped(v);
    assert OldCursorGuarded(v);
  }

  lemma RepliedLinked(p: Inbox, g: nat, page: Page)
    requires Linked(p) && g in p.loads && LoadCurrent(p, g)
    ensures Linked(Replied(p, g, page))
  {
  }

  /** What a reply that is still current leaves on display. */
  lemma RepliedRows(p: Inbox, page: Page)
    requires RowsOfOneEpoch(p) && DistinctRows(p.items) && Stamped(p) && AppendsMatch(p)
    requires p.generation in p.loads && LoadCurrent(p, p.generation) && Distinct(page.ids)
    ensures
      var v := Replied(p, p.generation, page);
      var l := p.loads[p.generation];
      && RowsOfOneEpoch(v) && DistinctRows(v.items) && v.itemsEpoch == Some(p.epoch)
      && (forall r :: r in v.items ==> r.scope == l.seen || (l.append && r in p.items))
  {
    var l := p.loads[p.generation];
    var rows := RowsOf(page.ids, l);
    assert forall r :: r in rows ==> r.epoch == l.epoch && r.scope == l.seen;
    AppendedRows(p.items, rows);
    UnknownRows(rows, Ids(p.items));
  }

  lemma RepliedOwner(p: Inbox, page: Page)
    requires Inv(p) && p.generation in p.loads && LoadCurrent(p, p.generation) && Distinct(page.ids)
    ensures OwnerSound(Replied(p, p.generation, page)) && SourceVouched(Replied(p, p.generation, page))
  {
    var v := Replied(p, p.generation, page);
    assert EnvOf(v) == EnvOf(p);
    RepliedRows(p, page);
    if ActiveCurrent(v) {
      assert ActiveCurrent(p) && v.runs == p.runs;
    }
  }

  lemma RepliedKeeps(p: Inbox, g: nat, page: Page)
    requires Inv(p) && Possible(p, PageArrives(g, page))
    ensures Inv(Replied(p, g, page))
  {
    if LoadCurrent(p, g) {
      RepliedLinked(p, g, page);
      RepliedRows(p, page);
      RepliedOwner(p, page);
    } else {
      ReturnKeeps(p, g, false);
    }
  }

  lemma FailedKeeps(p: Inbox, g: nat)
    requires Inv(p) && Possible(p, PageFails(g))
    ensures Inv(Failed(p, g))
  {
    if LoadCurrent(p, g) && !p.loads[g].append {
      ReturnKeeps(p.(cursor := None), g, false);
    } else {
      ReturnKeeps(p, g, false);
    }
  }

  /** The owner asks for its next page. */
  lemma NextPageKeeps(p: Inbox, id: nat)
    requires Inv(p) && id in p.runs && p.runs[id].phase == Returned(true) && OwnerSees(p, id) && More(p.cursor)
    ensures Inv(RunLoads(p, id, true))
  {
    var v := RunLoads(p, id, true);
    assert M.ScopeIsCurrent(p.mail, p.runs[id].request.scope);
    assert EnvOf(v) == EnvOf(p);
    assert v.loads.Keys == p.loads.Keys + {v.generation};
    assert Linked(v) && Stamped(v);
  }

  lemma OverKeeps(p: Inbox, id: nat)
    requires Inv(p) && id in p.runs && p.runs[id].phase.Returned?
    ensures Inv(p.(runs := p.runs[id := p.runs[id].(phase := Over)]))
  {
    var v := p.(runs := p.runs[id := p.runs[id].(phase := Over)]);
    assert EnvOf(v) == EnvOf(p);
    assert Linked(v) && Stamped(v) && OldCursorGuarded(v);
  }

  lemma ResumedKeeps(p: Inbox, id: nat)
    requires Inv(p) && Possible(p, RunResumes(id))
    ensures Inv(Resumed(p, id))
  {
    var run := p.runs[id];
    OverKeeps(p, id);
    if run.phase.ok && OwnerSees(p, id) {
      if run.request.intent.Span? && |p.items| < run.request.intent.target && More(p.cursor) {
        NextPageKeeps(p, id);
      } else {
        var over := p.(runs := p.runs[id := run.(phase := Over)]);
        CommitKeeps(p, over, id, Resumed(p, id));
      }
    }
  }

  /** The owner commits its span: the rows are its own, and its source scope vouches for them. */
  lemma CommitKeeps(p: Inbox, over: Inbox, id: nat, v: Inbox)
    requires Inv(p) && id in p.runs && p.runs[id].phase == Returned(true) && OwnerSees(p, id)
    requires Inv(over) && over == p.(runs := p.runs[id := p.runs[id].(phase := Over)])
    requires p.runs[id].request.intent.Span? ==> p.runs[id].request.intent.target <= |p.items| || !More(p.cursor)
    requires v == over.(spanScope := v.spanScope,
                        commits := p.commits + [Commit(p.runs[id].request.intent, p.items, p.cursor, p.epoch)])
    requires v.spanScope.None? || (v.spanScope == p.runs[id].source && M.CurrentScope(p.mail) == v.spanScope)
    ensures Inv(v)
  {
    assert PastFirstPage(p, id) && p.generation !in p.loads;
    assert SpanComplete(Commit(p.runs[id].request.intent, p.items, p.cursor, p.epoch));
    assert CommitsComplete(v);
    assert EnvOf(v) == EnvOf(over);
    assert SpanVouched(v);
  }

  /** Without its owner, and without that run, everything else stands. */
  lemma OwnerGone(p: Inbox, id: nat)
    requires Inv(p) && Possible(p, RunEnds(id)) && Owns(p.reload, id)
    ensures Base(p.(runs := p.runs - {id}, reload := p.reload.(active := None)))
    ensures OldCursorGuarded(p) ==> OldCursorGuarded(p.(runs := p.runs - {id}, reload := p.reload.(active := None)))
  {}

  lemma StrayRunEnds(p: Inbox, id: nat)
    requires Inv(p) && Possible(p, RunEnds(id)) && !Owns(p.reload, id)
    ensures Inv(p.(runs := p.runs - {id}))
  {
    var q := p.(runs := p.runs - {id});
    assert EnvOf(q) == EnvOf(p);
  }

  lemma RunEndsKeeps(p: Inbox, id: nat)
    requires Inv(p) && Possible(p, RunEnds(id))
    ensures Inv(Next(p, RunEnds(id)))
  {
    hide Base, Waked;
    if Owns(p.reload, id) {
      var v := p.(runs := p.runs - {id}, reload := p.reload.(active := None));
      OwnerGone(p, id);
      hide Inv;
      WakedKeeps(v);
      WakesAfterRun(p, id);
    } else {
      StrayRunEnds(p, id);
      hide Inv;
      assert Adopted(p.(runs := p.runs - {id}), Outcome(p.reload, false, None)) == p.(runs := p.runs - {id});
    }
  }

  lemma WakesAfterRun(p: Inbox, id: nat)
    requires Possible(p, RunEnds(id)) && Owns(p.reload, id)
    ensures Next(p, RunEnds(id)) == Waked(p.(runs := p.runs - {id}, reload := p.reload.(active := None)))
  {
    hide RunLoads;
    assert EnvOf(p.(runs := p.runs - {id}, reload := p.reload.(active := None))) == EnvOf(p);
  }

  /** A new query makes every request and load on the books stale. */
  lemma NewQueryBase(p: Inbox, clear: bool)
    requires Inv(p)
    ensures Base(NewQuery(p, clear)) && !ActiveCurrent(NewQuery(p, clear))
  {
  }

  lemma UnscopedLoadKeeps(p: Inbox)
    requires Base(p) && !ActiveCurrent(p)
    ensures Inv(LoadFirst(p, None))
  {
    LoadFirstKeeps(p, None);
  }

  lemma QueryChangedKeeps(p: Inbox, clear: bool)
    requires Inv(p)
    ensures Inv(Next(p, QueryChanged(clear)))
  {
    NewQueryBase(p, clear);
    UnscopedLoadKeeps(NewQuery(p, clear));
  }

  lemma ConfiguredBase(p: Inbox)
    requires Inv(p)
    ensures !p.configured ==> Base(p.(configured := true)) && !ActiveCurrent(p.(configured := true))
  {
  }

  lemma ConfigurationReadyKeeps(p: Inbox)
    requires Inv(p)
    ensures Inv(Next(p, ConfigurationReady))
  {
    if p.configured {
      assert p == p.(configured := true);
      LoadFirstKeeps(p, None);
    } else {
      ConfiguredBase(p);
      UnscopedLoadKeeps(p.(configured := true));
    }
  }

  lemma ConfigurationResetKeeps(p: Inbox)
    requires Inv(p)
    ensures Inv(Next(p, ConfigurationReset))
  {
  }

  lemma RemovalBase(p: Inbox, effect: Removal)
    requires Inv(p) && p.removing
    ensures Base(AfterRemoval(p, effect).(removing := false))
    ensures !ActiveCurrent(AfterRemoval(p, effect).(removing := false))
  {
    if effect.Deleted? { WithoutRows(p.items, effect.id); }
  }

  lemma RemovalEndsKeeps(p: Inbox, effect: Removal)
    requires Inv(p) && p.removing
    ensures Inv(Next(p, RemovalEnds(effect)))
  {
    RemovalBase(p, effect);
    UnscopedLoadKeeps(AfterRemoval(p, effect).(removing := false));
  }

  lemma WantedKeeps(p: Inbox, scope: Option<Scope>)
    requires Inv(p)
    ensures Inv(Next(p, FirstPageWanted(scope))) && Inv(Next(p, SpanWanted))
  {
    LoadFirstKeeps(p, scope);
    var q := if p.configured then p.(spanScope := None) else p;
    AskedKeeps(q, if q.itemsEpoch == Some(q.epoch) then Span(|q.items|) else First, None);
  }

  lemma RemovalBeginsKeeps(p: Inbox)
    requires Inv(p) && !p.removing
    ensures Inv(Next(p, RemovalBegins))
  {
    RemovalInterrupts(p);
    InterruptedKeeps(RemovalBegun(p));
  }

  lemma SettlementKeeps(p: Inbox, e: Event)
    requires Inv(p) && Possible(p, e)
    requires e.PageArrives? || e.PageFails? || e.CapabilitiesSettle? || e.RunResumes?
    ensures Inv(Next(p, e))
  {
    match e {
      case PageArrives(g, page) => RepliedKeeps(p, g, page);
      case PageFails(g) => FailedKeeps(p, g);
      case CapabilitiesSettle(g) => ReturnKeeps(p, g, true);
      case RunResumes(id) => ResumedKeeps(p, id);
    }
  }

  lemma MorePressedKeeps(p: Inbox, scope: Option<Scope>)
    requires Inv(p)
    ensures Inv(Next(p, MorePressed(scope)))
  {
    LoadMoreKeeps(p, scope);
  }

  lemma NextKeeps(p: Inbox, e: Event)
    requires Inv(p) && Possible(p, e)
    ensures Inv(Next(p, e))
  {
    match e {
      case QueryChanged(clear) => QueryChangedKeeps(p, clear);
      case ConfigurationReset => ConfigurationResetKeeps(p);
      case ConfigurationReady => ConfigurationReadyKeeps(p);
      case MailboxEvent(m) => MailStepKeeps(p, m);
      case RemovalBegins => RemovalBeginsKeeps(p);
      case RemovalEnds(effect) => RemovalEndsKeeps(p, effect);
      case FirstPageWanted(scope) => WantedKeeps(p, scope);
      case SpanWanted => WantedKeeps(p, None);
      case MorePressed(scope) => MorePressedKeeps(p, scope);
      case RunEnds(id) => RunEndsKeeps(p, id);
      case _ => SettlementKeeps(p, e);
    }
  }

  lemma {:induction false} HistoryKeeps(p: Inbox, events: seq<Event>)
    requires Inv(p) && History(p, events)
    ensures Inv(After(p, events))
    decreases |events|
  {
    if events != [] {
      NextKeeps(p, events[0]);
      HistoryKeeps(Next(p, events[0]), events[1..]);
    }
  }

  // ---------------------------------------------------------------------------------------------
  // The theorems

  /** Over every history, all rows on display were requested in one query epoch, the recorded one,
      their ids are distinct, and every span that was committed held, at that moment, its target row
      count or no further cursor, with rows of the epoch it was committed for only. */
  lemma RowsAnswerOneQuery(events: seq<Event>)
    requires History(Initial(), events)
    ensures
      var p := After(Initial(), events);
      && (forall r :: r in p.items ==> p.itemsEpoch == Some(r.epoch))
      && DistinctRows(p.items)
      && (forall c :: c in p.commits ==> SpanComplete(c))
  {
    HistoryKeeps(Initial(), events);
  }

  /** A matching span scope vouches for the rows: while the recorded span scope is the current mailbox
      scope, every row on display was requested under exactly that scope. */
  lemma SpanScopeVouchesForRows(events: seq<Event>)
    requires History(Initial(), events)
    requires After(Initial(), events).spanScope.Some?
    requires After(Initial(), events).spanScope == M.CurrentScope(After(Initial(), events).mail)
    ensures AllSeen(After(Initial(), events).items, After(Initial(), events).spanScope)
  {
    HistoryKeeps(Initial(), events);
  }
}
