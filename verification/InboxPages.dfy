/** What the Inbox shows, reply by reply: the rows and the cursor each event leaves, the page each event
    asks for, and the chain of pages behind a committed span. */
module InboxPages {
  import opened Basics
  import opened InboxReloads
  import opened InboxPaging
  import M = MailboxScopes

  // ---------------------------------------------------------------------------------------------
  // Rows and cursor

  function IdList(rows: seq<Row>): (ids: seq<string>)
    ensures |ids| == |rows| && forall i :: 0 <= i < |rows| ==> ids[i] == rows[i].id
  {
    seq(|rows|, i requires 0 <= i < |rows| => rows[i].id)
  }

  /** The ids of `ids` that are not in `known`, in order. */
  function NewIds(ids: seq<string>, known: set<string>): seq<string> {
    if ids == [] then []
    else if ids[|ids| - 1] in known then NewIds(ids[..|ids| - 1], known)
    else NewIds(ids[..|ids| - 1], known) + [ids[|ids| - 1]]
  }

  predicate SameDisplay(p: Inbox, q: Inbox) {
    q.items == p.items && q.cursor == p.cursor && q.itemsEpoch == p.itemsEpoch
  }

  /** A page shown from the top: its ids in its order, and its cursor. */
  predicate ShowsPage(p: Inbox, q: Inbox, page: Page) {
    IdList(q.items) == page.ids && q.cursor == page.cursor && q.itemsEpoch == Some(p.epoch)
  }

  /** A page shown below what was there: what was not shown yet, in its order, and its cursor. */
  predicate ShowsMore(p: Inbox, q: Inbox, page: Page) {
    && |p.items| <= |q.items| && q.items[..|p.items|] == p.items
    && IdList(q.items[|p.items|..]) == NewIds(page.ids, Ids(p.items))
    && q.cursor == page.cursor && q.itemsEpoch == p.itemsEpoch
  }

  lemma {:induction false} UnknownAppends(rows: seq<Row>, r: Row, known: set<string>)
    ensures Unknown(rows + [r], known) == Unknown(rows, known) + Unknown([r], known)
  {
    if rows == [] {
      assert rows + [r] == [r];
    } else {
      assert (rows + [r])[1..] == rows[1..] + [r];
      UnknownAppends(rows[1..], r, known);
    }
  }

  lemma {:induction false} UnknownIds(rows: seq<Row>, known: set<string>)
    ensures IdList(Unknown(rows, known)) == NewIds(IdList(rows), known)
  {
    if rows != [] {
      var front, last := rows[..|rows| - 1], rows[|rows| - 1];
      assert rows == front + [last];
      UnknownAppends(front, last, known);
      UnknownIds(front, known);
      assert IdList(rows)[..|rows| - 1] == IdList(front);
      assert [last][1..] == [];
    }
  }

  /** A page that arrives: in time for a first page, in time to be appended, or too late.  The rows it adds carry
      the epoch and the scope it was asked for under. */
  lemma RepliesAreShown(p: Inbox, g: nat, page: Page)
    requires Possible(p, PageArrives(g, page))
    ensures
      var q, l := Next(p, PageArrives(g, page)), p.loads[g];
      && (if !LoadCurrent(p, g) then SameDisplay(p, q)
          else if l.append then ShowsMore(p, q, page)
          else ShowsPage(p, q, page))
      && (forall r :: r in q.items ==> r in p.items || (r.epoch == l.epoch && r.scope == l.seen))
  {
    var rows := RowsOf(page.ids, p.loads[g]);
    assert IdList(rows) == page.ids;
    UnknownIds(rows, Ids(p.items));
    UnknownRows(rows, Ids(p.items));
    assert (p.items + Unknown(rows, Ids(p.items)))[|p.items|..] == Unknown(rows, Ids(p.items));
  }

  lemma {:induction false} WithoutAbsent(rows: seq<Row>, id: string)
    requires forall r :: r in rows ==> r.id != id
    ensures Without(rows, id) == rows
  {
    if rows != [] {
      WithoutAbsent(rows[1..], id);
      assert rows == [rows[0]] + rows[1..];
    }
  }

  /** Taking a row out leaves the others where they were. */
  lemma {:induction false} WithoutAt(rows: seq<Row>, i: nat)
    requires DistinctRows(rows) && i < |rows|
    ensures Without(rows, rows[i].id) == rows[..i] + rows[i + 1..]
  {
    var rest := rows[1..];
    if i == 0 {
      forall r | r in rest ensures r.id != rows[0].id {
        var j :| 0 <= j < |rest| && rest[j] == r;
        assert rows[j + 1] == r;
      }
      WithoutAbsent(rest, rows[0].id);
    } else {
      WithoutAt(rest, i - 1);
      assert rest[i - 1] == rows[i];
      assert rows[..i] == [rows[0]] + rest[..i - 1] && rows[i + 1..] == rest[i..];
    }
  }

  /** The owner, the mailbox and the runs change no row. */
  lemma AdoptedShows(p: Inbox, o: Outcome)
    ensures SameDisplay(p, Adopted(p, o))
  {}

  lemma FirstShows(p: Inbox, scope: Option<Scope>)
    ensures SameDisplay(p, LoadFirst(p, scope)) && SameDisplay(p, RefreshSpan(p)) && SameDisplay(p, Waked(p))
  {
    hide Adopted, Ask, Wake;
    var span := if p.itemsEpoch == Some(p.epoch) then Span(|p.items|) else First;
    AdoptedShows(p, Ask(p.reload, EnvOf(p), First, scope));
    AdoptedShows(p, Ask(p.reload, EnvOf(p), span, None));
    AdoptedShows(p, Wake(p.reload, EnvOf(p)));
    var q := p.(spanScope := None);
    AdoptedShows(q, Ask(q.reload, EnvOf(q), First, scope));
    AdoptedShows(q, Ask(q.reload, EnvOf(q), span, None));
  }

  /** What a filter leaves on display, cleared or as it was; no page asked for before it is live after it. */
  lemma FiltersShow(p: Inbox, clear: bool)
    ensures var q := Next(p, QueryChanged(clear));
      && q.itemsEpoch == p.itemsEpoch && p.generation < q.generation
      && if clear then q.items == [] && q.cursor.None? else SameDisplay(p, q)
  {
    FirstRises(NewQuery(p, clear));
    hide LoadFirst;
    FirstShows(NewQuery(p, clear), None);
  }

  lemma FirstRises(p: Inbox)
    ensures p.generation <= LoadFirst(p, None).generation
  {}

  /** A lost configuration retires the epoch, the live load and whatever the owner holds, and no row. */
  lemma ResetStops(p: Inbox)
    ensures
      var q := Next(p, ConfigurationReset);
      && Blocked(q) && q.epoch == p.epoch + 1 && p.generation < q.generation && q.reload.pending.None? && q.reload.active.None?
      && SameDisplay(p, q) && q.loads == p.loads && q.runs == p.runs && q.mail == p.mail && q.removing == p.removing
  {}

  /** What a removal leaves on display: all, all but one row in their places, or nothing. */
  lemma RemovalsShow(p: Inbox, effect: Removal)
    requires p.removing && DistinctRows(p.items)
    ensures
      var q := Next(p, RemovalEnds(effect));
      && q.itemsEpoch == p.itemsEpoch
      && match effect {
           case Unaccepted => SameDisplay(p, q)
           case Deleted(id) =>
             && q.cursor == p.cursor
             && (id !in Ids(p.items) ==> q.items == p.items)
             && (forall i :: 0 <= i < |p.items| && p.items[i].id == id ==> q.items == p.items[..i] + p.items[i + 1..])
           case Cleared(completed) => q.items == [] && q.cursor == (if completed then None else p.cursor)
         }
  {
    hide LoadFirst, Without;
    if effect.Deleted? {
      if effect.id !in Ids(p.items) { WithoutAbsent(p.items, effect.id); }
      forall i | 0 <= i < |p.items| && p.items[i].id == effect.id
        ensures Without(p.items, effect.id) == p.items[..i] + p.items[i + 1..]
      {
        WithoutAt(p.items, i);
      }
    }
    hide Ids;
    FirstShows(AfterRemoval(p, effect).(removing := false), None);
  }

  /** The failure of a current first page takes the cursor away, and no row. */
  lemma FailuresShow(p: Inbox, g: nat)
    requires Possible(p, PageFails(g))
    ensures
      var q := Next(p, PageFails(g));
      && q.items == p.items && q.itemsEpoch == p.itemsEpoch
      && q.cursor == (if LoadCurrent(p, g) && !p.loads[g].append then None else p.cursor)
  {}

  /** No other event changes a row or the cursor. */
  lemma OthersShowTheSame(p: Inbox, e: InboxPaging.Event)
    requires Possible(p, e) && !e.PageArrives? && !e.PageFails? && !e.QueryChanged? && !e.RemovalEnds?
    ensures SameDisplay(p, Next(p, e))
  {
    hide LoadFirst, RefreshSpan, Waked, Adopted, Settle;
    match e {
      case ConfigurationReady => FirstShows(p.(configured := true), None);
      case MailboxEvent(m) =>
        FirstShows(MutationBegun(p), None);
        FirstShows(p.(mail := M.Step(p.mail, m)), None);
      case RemovalBegins => FirstShows(RemovalBegun(p), None);
      case FirstPageWanted(scope) => FirstShows(p, scope);
      case SpanWanted => FirstShows(p, None);
      case RunEnds(id) => AdoptedShows(p.(runs := p.runs - {id}), Settle(p.reload, EnvOf(p), id));
      case _ =>
    }
  }

  // ---------------------------------------------------------------------------------------------
  // Pages asked for

  /** One more page is asked for: the first one, or the one behind the cursor on display. */
  ghost predicate AsksFor(p: Inbox, q: Inbox, append: bool, scope: Option<Scope>, owner: Option<nat>) {
    && q.generation == p.generation + 1
    && q.loads == p.loads[q.generation :=
         Load(append, scope, p.epoch, M.CurrentScope(p.mail), if append then p.cursor else None, owner, Querying)]
  }

  predicate AsksNothing(p: Inbox, q: Inbox) {
    q.generation == p.generation && q.loads == p.loads
  }

  /** Load more asks for the page behind the cursor exactly when no refresh runs, the scope is current, nothing
      blocks and there is more. */
  lemma MoreIsAskedFor(p: Inbox, scope: Option<Scope>)
    ensures
      var q := Next(p, MorePressed(scope));
      if !ActiveCurrent(p) && M.ScopeIsCurrent(p.mail, scope) && !Blocked(p) && More(p.cursor)
      then AsksFor(p, q, true, scope, None)
      else AsksNothing(p, q)
  {
  }

  /** A load that is over goes to the run it serves, and to no other. */
  ghost predicate ComesBack(p: Inbox, q: Inbox, g: nat, ok: bool)
    requires g in p.loads
  {
    && q.generation == p.generation && q.reload == p.reload && q.loads == p.loads - {g}
    && q.runs.Keys == p.runs.Keys
    && forall id :: id in p.runs ==>
         q.runs[id] == if p.loads[g].owner == Some(id) then p.runs[id].(phase := Returned(ok)) else p.runs[id]
  }

  lemma ReturnComesBack(p: Inbox, g: nat, ok: bool)
    requires g in p.loads
    ensures ComesBack(p, Return(p, g, ok), g, ok) && ComesBack(p, Return(p.(cursor := None), g, ok), g, ok)
  {}

  /** A current page goes on to its capabilities; any other end of a load goes to the run it serves, which
      learns true only when the capabilities have settled. */
  lemma LoadsComeBack(p: Inbox, e: InboxPaging.Event, g: nat)
    requires Possible(p, e)
    requires e == PageFails(g) || e == CapabilitiesSettle(g) || (e.PageArrives? && e.generation == g)
    ensures
      var q := Next(p, e);
      if e.PageArrives? && LoadCurrent(p, g)
      then q.loads == p.loads[g := p.loads[g].(phase := Discovering)] && q.runs == p.runs && q.generation == p.generation
      else ComesBack(p, q, g, e.CapabilitiesSettle?)
  {
    hide Unknown, RowsOf, Ids, Return, ComesBack;
    ReturnComesBack(p, g, e.CapabilitiesSettle?);
  }

  /** Whether the run has all it was asked for. */
  predicate SpanFilled(p: Inbox, intent: Intent) {
    intent.First? || intent.target <= |p.items| || !More(p.cursor)
  }

  /** A run that is back from a page: overtaken or refused, it is over; short of its span, it asks for the page
      behind the cursor; filled, it commits what is shown, and the mailbox scope it was begun under vouches for
      the rows exactly when that scope is current still. */
  lemma RunsFillTheirSpan(p: Inbox, id: nat)
    requires InboxPaging.Inv(p) && Possible(p, RunResumes(id))
    ensures
      var q, run := Next(p, RunResumes(id)), p.runs[id];
      if !run.phase.ok || !OwnerSees(p, id) then
        AsksNothing(p, q) && q.commits == p.commits && q.spanScope == p.spanScope && q.runs[id].phase == Over
      else if !SpanFilled(p, run.request.intent) then
        && AsksFor(p, q, true, run.request.scope, Some(id)) && q.commits == p.commits && q.spanScope == p.spanScope
        && q.runs[id].phase == Paging(q.generation)
      else
        && AsksNothing(p, q) && q.runs[id].phase == Over
        && q.commits == p.commits + [Commit(run.request.intent, p.items, p.cursor, p.epoch)]
        && q.spanScope == (if M.CurrentScope(p.mail) == run.source then run.source else None)
  {
  }

  /** A run that begins records the mailbox scope and asks for page one; nothing else is asked for. */
  ghost predicate Begins(p: Inbox, q: Inbox, r: Request) {
    && q.reload.active == Some(r) && AsksFor(p, q, false, r.scope, Some(r.id))
    && q.runs == p.runs[r.id := RefreshRun(r, M.CurrentScope(p.mail), Paging(q.generation))]
  }

  lemma AdoptedBegins(p: Inbox, o: Outcome)
    requires o.started.Some? ==> !Blocked(p) && Current(EnvOf(p), o.started.value) && o.reload.active == o.started
    ensures
      var q := Adopted(p, o);
      && q.reload == o.reload
      && if o.started.Some? then Begins(p, q, o.started.value) else AsksNothing(p, q) && q.runs == p.runs
  {
    var q := Adopted(p, o);
    if o.started.Some? {
      var r := o.started.value;
      var waiting := RefreshRun(r, M.CurrentScope(p.mail), Paging(q.generation));
      assert p.runs[r.id := waiting.(phase := Over)][r.id := waiting] == p.runs[r.id := waiting];
    }
  }

  /** What the owner holds asks for at least `intent`, in a request made just now for the present query. */
  predicate TakenOn(p: Inbox, q: Inbox, intent: Intent, slot: Option<Request>) {
    slot.Some? && slot.value.id == p.reload.nextId && slot.value.epoch == q.epoch && AtMost(intent, slot.value.intent)
  }

  /** A request for the present query is taken on: it begins at once if nothing blocks and nothing runs, and
      waits otherwise. */
  lemma RequestsBegin(p: Inbox, intent: Intent, scope: Option<Scope>)
    requires M.ScopeIsCurrent(p.mail, scope)
    ensures
      var q := Asked(p, intent, scope);
      if Blocked(p) || ActiveCurrent(p)
      then TakenOn(p, q, intent, q.reload.pending) && AsksNothing(p, q) && q.runs == p.runs
      else TakenOn(p, q, intent, q.reload.active) && Begins(p, q, q.reload.active.value)
  {
    hide Adopted;
    AskedFrame(p, intent, scope);
    AdoptedBegins(p, Ask(p.reload, EnvOf(p), intent, scope));
  }

  /** A wake begins what waits exactly when nothing blocks, nothing runs and what waits is current; under a
      blocker what ran waits. */
  lemma WakesBegin(p: Inbox)
    ensures
      var q := Waked(p);
      if !Blocked(p) && !ActiveCurrent(p) && p.reload.pending.Some? && Current(EnvOf(p), p.reload.pending.value)
      then Begins(p, q, p.reload.pending.value)
      else AsksNothing(p, q) && q.runs == p.runs && (Blocked(p) ==> q.reload.active.None?)
           && (Blocked(p) && ActiveCurrent(p) ==>
                 q.reload.pending.Some? && AtMost(p.reload.active.value.intent, q.reload.pending.value.intent))
  {
    hide Adopted;
    AdoptedBegins(p, Wake(p.reload, EnvOf(p)));
  }

  /** Filters, a configuration that is ready, the end of a removal and the wishes for rows reach the owner as
      requests, for the epoch and under the blockers the event leaves. */
  lemma EventsReachTheOwner(p: Inbox, e: InboxPaging.Event, scope: Option<Scope>)
    requires Possible(p, e) && M.ScopeIsCurrent(p.mail, scope)
    requires e.QueryChanged? || e.ConfigurationReady? || e.RemovalEnds? || e == FirstPageWanted(scope) || e.SpanWanted?
    ensures
      var q := Next(p, e);
      var intent := if e.SpanWanted? && p.itemsEpoch == Some(p.epoch) then Span(|p.items|) else First;
      && q.epoch == (if e.QueryChanged? then p.epoch + 1 else p.epoch)
      && q.configured == (p.configured || e.ConfigurationReady?) && q.removing == (p.removing && !e.RemovalEnds?)
      && q.mail == p.mail
      && (TakenOn(p, q, intent, q.reload.pending) || TakenOn(p, q, intent, q.reload.active))
      && (q.configured ==> q.spanScope.None?)
  {
    hide Asked, Unknown, Without;
    match e {
      case QueryChanged(clear) => WishTakenOn(p, NewQuery(p, clear), First, None);
      case ConfigurationReady => WishTakenOn(p, p.(configured := true), First, None);
      case RemovalEnds(effect) => WishTakenOn(p, AfterRemoval(p, effect).(removing := false), First, None);
      case FirstPageWanted(_) => WishTakenOn(p, p, First, scope);
      case SpanWanted => WishTakenOn(p, p, if p.itemsEpoch == Some(p.epoch) then Span(|p.items|) else First, None);
    }
  }

  lemma WishTakenOn(p: Inbox, at: Inbox, intent: Intent, scope: Option<Scope>)
    requires M.ScopeIsCurrent(at.mail, scope) && at.reload == p.reload
    ensures
      var q := Asked(if at.configured then at.(spanScope := None) else at, intent, scope);
      && q.epoch == at.epoch && q.configured == at.configured && q.removing == at.removing && q.mail == at.mail
      && (TakenOn(p, q, intent, q.reload.pending) || TakenOn(p, q, intent, q.reload.active))
      && (q.configured ==> q.spanScope.None?)
  {
    hide Asked, AtMost;
    var told := if at.configured then at.(spanScope := None) else at;
    RequestsBegin(told, intent, scope);
    AskedFrame(told, intent, scope);
  }

  lemma AskedFrame(p: Inbox, intent: Intent, scope: Option<Scope>)
    ensures var q := Asked(p, intent, scope);
      && q.epoch == p.epoch && q.configured == p.configured && q.removing == p.removing && q.mail == p.mail
      && q.spanScope == p.spanScope
  {}

  /** A mutation of the accounts, the beginning of a removal and the end of the owner's run: what each leaves
      for the wake that follows.  A removal and the first of overlapping mutations retire the live load. */
  lemma EventsWakeTheOwner(p: Inbox, e: InboxPaging.Event) returns (at: Inbox)
    requires Possible(p, e)
    requires e.RemovalBegins? || (e.RunEnds? && Owns(p.reload, e.id))
      || (e.MailboxEvent? && (e.e.MutationBegins? || e.e.MutationEnds?))
    ensures Next(p, e) == Waked(at)
    ensures
      var retires := e.RemovalBegins? || (e.MailboxEvent? && e.e.MutationBegins? && p.mail.mutations == 0);
      && at.mail == (if e.MailboxEvent? then M.Step(p.mail, e.e) else p.mail)
      && at.removing == (p.removing || e.RemovalBegins?) && at.configured == p.configured && at.epoch == p.epoch
      && at.generation == (if retires then p.generation + 1 else p.generation) && at.loads == p.loads
      && at.reload == (if e.RunEnds? then p.reload.(active := None) else p.reload)
      && at.runs == (if e.RunEnds? then p.runs - {e.id} else p.runs)
  {
    hide Waked;
    match e {
      case RunEnds(id) =>
        WakesAfterRun(p, id);
        return p.(runs := p.runs - {id}, reload := p.reload.(active := None));
      case RemovalBegins => return RemovalBegun(p);
      case MailboxEvent(m) =>
        return if m.MutationBegins? then MutationBegun(p) else p.(mail := M.Step(p.mail, m));
    }
  }

  // ---------------------------------------------------------------------------------------------
  // The pages behind a span

  /** A page that was shown, with the cursor and the epoch it was asked for. */
  datatype Taken = Taken(asked: Option<string>, epoch: nat, page: Page)

  /** The pages shown since the last first page. */
  function PagesAfter(p: Inbox, e: InboxPaging.Event, pages: seq<Taken>): seq<Taken>
    requires Possible(p, e)
  {
    if e.PageArrives? && LoadCurrent(p, e.generation) then
      var l := p.loads[e.generation];
      (if l.append then pages else []) + [Taken(l.asked, l.epoch, e.page)]
    else pages
  }

  ghost function PagesAlong(p: Inbox, events: seq<InboxPaging.Event>, pages: seq<Taken>): seq<Taken>
    requires History(p, events)
    decreases |events|
  {
    if events == [] then pages else PagesAlong(Next(p, events[0]), events[1..], PagesAfter(p, events[0], pages))
  }

  /** Each page was asked for at the cursor the page before it gave, the first one at none. */
  predicate Chain(pages: seq<Taken>) {
    && (pages != [] ==> pages[0].asked.None?)
    && forall i :: 0 < i < |pages| ==> pages[i].asked == pages[i - 1].page.cursor
  }

  /** The ids of all pages, in order, each where it first comes up. */
  function Merged(pages: seq<Taken>): seq<string> {
    if pages == [] then []
    else
      var before := Merged(pages[..|pages| - 1]);
      before + NewIds(pages[|pages| - 1].page.ids, set id | id in before)
  }

  /** Cursor, live load and epochs agree with the pages shown. */
  ghost predicate Chained(p: Inbox, pages: seq<Taken>) {
    && Chain(pages)
    && (p.cursor.Some? ==> pages != [] && p.cursor == pages[|pages| - 1].page.cursor)
    && (forall t :: t in pages ==> p.itemsEpoch == Some(t.epoch))
    && (p.generation in p.loads && p.loads[p.generation].phase == Querying ==>
          p.loads[p.generation].asked == if p.loads[p.generation].append then p.cursor else None)
    && (p.generation in p.loads && p.loads[p.generation].append ==> p.loads[p.generation].asked.Some?)
    && (p.removing ==> p.generation !in p.loads)
  }

  /** Past its first page, the owner shows the pages and nothing else, and the cursor of the last one. */
  ghost predicate Whole(p: Inbox, pages: seq<Taken>) {
    ActiveCurrent(p) && p.reload.active.value.id in p.runs && PastFirstPage(p, p.reload.active.value.id) ==>
      pages != [] && IdList(p.items) == Merged(pages) && p.cursor == pages[|pages| - 1].page.cursor
  }

  ghost predicate Paged(p: Inbox, pages: seq<Taken>) {
    InboxPaging.Inv(p) && Chained(p, pages) && Whole(p, pages)
  }

  /** Nothing new is shown, and at most one page is asked for. */
  ghost predicate OnlyAsks(p: Inbox, q: Inbox) {
    && SameDisplay(p, q) && q.removing == p.removing
    && (AsksNothing(p, q)
        || exists append, scope, owner :: AsksFor(p, q, append, scope, owner) && !p.removing && (append ==> p.cursor.Some?))
  }

  lemma AsksChained(p: Inbox, q: Inbox, pages: seq<Taken>)
    requires Chained(p, pages) && OnlyAsks(p, q)
    ensures Chained(q, pages)
  {}

  /** The owner's decisions leave the pages as they are: a run that begins has shown none yet. */
  lemma AdoptedPages(p: Inbox, o: Outcome, pages: seq<Taken>)
    requires Chained(p, pages) && Whole(p, pages)
    requires o.started.Some? ==> !Blocked(p) && Current(EnvOf(p), o.started.value) && o.reload.active == o.started
    requires o.started.None? ==> o.reload.active.None? || o.reload.active == p.reload.active
    ensures Chained(Adopted(p, o), pages) && Whole(Adopted(p, o), pages)
  {
    var q := Adopted(p, o);
    AdoptedBegins(p, o);
    AdoptedShows(p, o);
    AdoptedFrame(p, o);
    hide Adopted, Merged, IdList, Chain, Current;
    if o.started.Some? {
      assert AsksFor(p, q, false, o.started.value.scope, Some(o.started.value.id));
    }
    assert OnlyAsks(p, q);
    AsksChained(p, q, pages);
  }

  lemma AdoptedFrame(p: Inbox, o: Outcome)
    ensures Adopted(p, o).removing == p.removing && EnvOf(Adopted(p, o)) == EnvOf(p)
  {}

  lemma AskedPages(p: Inbox, intent: Intent, scope: Option<Scope>, pages: seq<Taken>)
    requires Chained(p, pages) && Whole(p, pages)
    ensures Chained(Asked(p, intent, scope), pages) && Whole(Asked(p, intent, scope), pages)
  {
    hide Adopted, Chained, Whole;
    AdoptedPages(p, Ask(p.reload, EnvOf(p), intent, scope), pages);
  }

  lemma WakedPages(p: Inbox, pages: seq<Taken>)
    requires Chained(p, pages) && Whole(p, pages)
    ensures Chained(Waked(p), pages) && Whole(Waked(p), pages)
  {
    hide Adopted, Chained, Whole;
    AdoptedPages(p, Wake(p.reload, EnvOf(p)), pages);
  }

  lemma FirstPages(p: Inbox, scope: Option<Scope>, pages: seq<Taken>)
    requires Chained(p, pages) && Whole(p, pages)
    ensures Chained(LoadFirst(p, scope), pages) && Whole(LoadFirst(p, scope), pages)
    ensures Chained(RefreshSpan(p), pages) && Whole(RefreshSpan(p), pages)
  {
    var q := p.(spanScope := None);
    var span := if p.itemsEpoch == Some(p.epoch) then Span(|p.items|) else First;
    assert Chained(q, pages) && Whole(q, pages);
    hide Asked, Chained, Whole;
    AskedPages(p, First, scope, pages);
    AskedPages(q, First, scope, pages);
    AskedPages(p, span, None, pages);
    AskedPages(q, span, None, pages);
  }

  /** A step that begins with no current owner: what it does to rows and cursor is no span's business. */
  lemma OwnerlessPages(p: Inbox, at: Inbox, pages: seq<Taken>)
    requires Chained(p, pages) && !ActiveCurrent(at)
    requires at.itemsEpoch == p.itemsEpoch && (at.cursor == p.cursor || at.cursor.None?)
    requires at.generation !in at.loads || (at.generation in p.loads && at.cursor == p.cursor && at.generation == p.generation
                                            && at.loads == p.loads && !at.removing)
    ensures Chained(at, pages) && Whole(at, pages)
  {}

  lemma FilterPages(p: Inbox, clear: bool, pages: seq<Taken>)
    requires Paged(p, pages)
    ensures Paged(Next(p, QueryChanged(clear)), pages)
  {
    InboxPaging.NextKeeps(p, QueryChanged(clear));
    NewQueryBase(p, clear);
    OwnerlessPages(p, NewQuery(p, clear), pages);
    hide Chained, Whole, LoadFirst, InboxPaging.Inv;
    FirstPages(NewQuery(p, clear), None, pages);
  }

  lemma ReadyPages(p: Inbox, pages: seq<Taken>)
    requires Paged(p, pages)
    ensures Paged(Next(p, ConfigurationReady), pages)
  {
    InboxPaging.NextKeeps(p, ConfigurationReady);
    ConfiguredBase(p);
    var at := p.(configured := true);
    if p.configured { assert at == p; } else { OwnerlessPages(p, at, pages); }
    hide Chained, Whole, LoadFirst, InboxPaging.Inv;
    FirstPages(at, None, pages);
  }

  lemma RemovedPages(p: Inbox, effect: Removal, pages: seq<Taken>)
    requires Paged(p, pages) && p.removing
    ensures Paged(Next(p, RemovalEnds(effect)), pages)
  {
    InboxPaging.NextKeeps(p, RemovalEnds(effect));
    RemovalBase(p, effect);
    var at := AfterRemoval(p, effect).(removing := false);
    OwnerlessPages(p, at, pages);
    hide Chained, Whole, LoadFirst, InboxPaging.Inv;
    FirstPages(at, None, pages);
  }

  lemma RemovingPages(p: Inbox, pages: seq<Taken>)
    requires Paged(p, pages) && !p.removing
    ensures Paged(Next(p, RemovalBegins), pages)
  {
    InboxPaging.NextKeeps(p, RemovalBegins);
    var at := RemovalBegun(p);
    assert at.generation !in at.loads;
    assert Chained(at, pages) && Whole(at, pages);
    hide Chained, Whole, Waked, InboxPaging.Inv;
    WakedPages(at, pages);
  }

  /** No step of the mailbox makes a stale owner current. */
  lemma MailPages(p: Inbox, m: M.Event, pages: seq<Taken>)
    requires Paged(p, pages) && M.Enabled(p.mail, m)
    ensures Paged(Next(p, MailboxEvent(m)), pages)
  {
    InboxPaging.NextKeeps(p, MailboxEvent(m));
    KnownAlong(p, m);
    var at := if m.MutationBegins? then MutationBegun(p) else p.(mail := M.Step(p.mail, m));
    MailStale(p, m);
    assert at.generation == p.generation || at.generation !in at.loads;
    assert Chained(at, pages) && Whole(at, pages);
    hide Chained, Whole, Waked, InboxPaging.Inv;
    WakedPages(at, pages);
  }

  lemma MailStale(p: Inbox, m: M.Event)
    requires InboxPaging.Inv(p) && M.Enabled(p.mail, m)
    ensures ActiveCurrent(p.(mail := M.Step(p.mail, m))) ==> ActiveCurrent(p)
  {
    KnownAlong(p, m);
  }

  lemma EndedPages(p: Inbox, id: nat, pages: seq<Taken>)
    requires Paged(p, pages) && Possible(p, RunEnds(id))
    ensures Paged(Next(p, RunEnds(id)), pages)
  {
    InboxPaging.NextKeeps(p, RunEnds(id));
    if Owns(p.reload, id) {
      var at := p.(runs := p.runs - {id}, reload := p.reload.(active := None));
      assert Chained(at, pages) && Whole(at, pages);
      hide Chained, Whole, Waked, InboxPaging.Inv, InboxPaging.Next;
      WakesAfterRun(p, id);
      WakedPages(at, pages);
    }
  }

  lemma ReturnedPages(p: Inbox, g: nat, ok: bool, pages: seq<Taken>)
    requires Linked(p) && Chained(p, pages) && Whole(p, pages) && g in p.loads
    requires ok ==> p.loads[g].phase == Discovering
    ensures Chained(Return(p, g, ok), pages) && Whole(Return(p, g, ok), pages)
  {
    var q := Return(p, g, ok);
    ReturnedChained(p, g, ok, pages);
    hide Chained, Merged, IdList, Return;
    ReturnedPast(p, g, ok);
  }

  lemma ReturnedChained(p: Inbox, g: nat, ok: bool, pages: seq<Taken>)
    requires Chained(p, pages) && g in p.loads
    ensures Chained(Return(p, g, ok), pages)
  {
    hide Chain;
  }

  lemma ReturnedPast(p: Inbox, g: nat, ok: bool)
    requires Linked(p) && g in p.loads && (ok ==> p.loads[g].phase == Discovering)
    ensures var q := Return(p, g, ok);
      && EnvOf(q) == EnvOf(p) && q.reload == p.reload && SameDisplay(p, q) && q.runs.Keys == p.runs.Keys
      && forall id :: id in p.runs && PastFirstPage(q, id) ==> PastFirstPage(p, id)
  {}

  lemma FailedPages(p: Inbox, g: nat, pages: seq<Taken>)
    requires Paged(p, pages) && Possible(p, PageFails(g))
    ensures Paged(Next(p, PageFails(g)), pages)
  {
    InboxPaging.NextKeeps(p, PageFails(g));
    ReturnedPages(p, g, false, pages);
    if LoadCurrent(p, g) && !p.loads[g].append { LostPages(p, pages); }
  }

  /** When a first page fails nobody is past it. */
  lemma LostPages(p: Inbox, pages: seq<Taken>)
    requires Paged(p, pages) && Possible(p, PageFails(p.generation)) && !p.loads[p.generation].append
    ensures
      var q := Return(p.(cursor := None), p.generation, false);
      Chained(q, pages) && Whole(q, pages)
  {
    var q := Return(p.(cursor := None), p.generation, false);
    assert EnvOf(q) == EnvOf(p);
    ReturnedChained(p, p.generation, false, pages);
    hide Chain, Merged, IdList;
    assert q == Return(p, p.generation, false).(cursor := None);
    assert Chained(q, pages);
    hide Chained;
    if ActiveCurrent(q) { assert !PastFirstPage(q, q.reload.active.value.id); }
  }

  /** The ids on display after an append are those of all pages. */
  lemma MergedAppends(items: seq<Row>, added: seq<Row>, pages: seq<Taken>, t: Taken)
    requires IdList(items) == Merged(pages) && IdList(added) == NewIds(t.page.ids, Ids(items))
    ensures IdList(items + added) == Merged(pages + [t])
  {
    assert (pages + [t])[..|pages|] == pages;
    assert Ids(items) == set id | id in Merged(pages) by {
      assert forall id :: id in IdList(items) <==> id in Ids(items) by {
        forall id | id in IdList(items) ensures id in Ids(items) {
          var i :| 0 <= i < |items| && IdList(items)[i] == id;
          assert items[i] in items;
        }
        forall id | id in Ids(items) ensures id in IdList(items) {
          var r :| r in items && r.id == id;
          var i :| 0 <= i < |items| && items[i] == r;
          assert IdList(items)[i] == id;
        }
      }
    }
    assert IdList(items + added) == IdList(items) + IdList(added);
  }

  /** With nothing known and no id twice, a page is taken whole. */
  lemma {:induction false} AllNew(ids: seq<string>)
    ensures NewIds(ids, {}) == ids
  {
    if ids != [] {
      AllNew(ids[..|ids| - 1]);
      assert ids == ids[..|ids| - 1] + [ids[|ids| - 1]];
    }
  }

  lemma MergedOne(t: Taken)
    ensures Merged([t]) == t.page.ids
  {
    assert [t][..0] == [] && Merged([]) == [];
    assert (set id | id in Merged([t][..0])) == {};
    AllNew(t.page.ids);
  }

  lemma EmptyChain()
    ensures Chain([])
  {}

  lemma ChainGrows(pages: seq<Taken>, t: Taken)
    requires Chain(pages)
    requires if pages == [] then t.asked.None? else t.asked == pages[|pages| - 1].page.cursor
    ensures Chain(pages + [t])
  {}

  /** What a current reply leaves of load, cursor and epoch. */
  lemma ReplyFacts(p: Inbox, page: Page)
    requires Stamped(p) && AppendsMatch(p) && Possible(p, PageArrives(p.generation, page)) && LoadCurrent(p, p.generation)
    ensures
      var q, l := Next(p, PageArrives(p.generation, page)), p.loads[p.generation];
      && q.generation == p.generation && q.removing == p.removing && q.loads == p.loads[p.generation := l.(phase := Discovering)]
      && q.cursor == page.cursor && q.itemsEpoch == Some(p.epoch)
      && l.epoch == p.epoch && (l.append ==> p.itemsEpoch == Some(p.epoch))
  {
    hide Unknown, RowsOf, Ids;
  }

  lemma ReplyChains(p: Inbox, page: Page, pages: seq<Taken>)
    requires Paged(p, pages) && Possible(p, PageArrives(p.generation, page)) && LoadCurrent(p, p.generation)
    ensures var e := PageArrives(p.generation, page);
      Chained(Next(p, e), PagesAfter(p, e, pages))
  {
    ReplyFacts(p, page);
    hide InboxPaging.Inv, Whole, InboxPaging.Next, Chain, LoadCurrent;
    var l := p.loads[p.generation];
    var t := Taken(l.asked, l.epoch, page);
    EmptyChain();
    ChainGrows(if l.append then pages else [], t);
  }

  lemma ReplyWhole(p: Inbox, page: Page, pages: seq<Taken>)
    requires Paged(p, pages) && Possible(p, PageArrives(p.generation, page)) && LoadCurrent(p, p.generation)
    ensures var e := PageArrives(p.generation, page);
      Whole(Next(p, e), PagesAfter(p, e, pages))
  {
    var e := PageArrives(p.generation, page);
    RepliesAreShown(p, p.generation, page);
    var q, now, l := Next(p, e), PagesAfter(p, e, pages), p.loads[p.generation];
    var t := Taken(l.asked, l.epoch, page);
    assert EnvOf(q) == EnvOf(p) && q.reload == p.reload && q.runs == p.runs;
    if !l.append {
      assert now == [t];
      MergedOne(t);
    } else if ActiveCurrent(q) {
      assert PastFirstPage(q, q.reload.active.value.id) ==> PastFirstPage(p, p.reload.active.value.id);
      if PastFirstPage(p, p.reload.active.value.id) {
        MergedAppends(p.items, q.items[|p.items|..], pages, t);
        assert q.items == p.items + q.items[|p.items|..];
      }
    }
  }

  lemma MorePages(p: Inbox, scope: Option<Scope>, pages: seq<Taken>)
    requires Paged(p, pages)
    ensures Paged(Next(p, MorePressed(scope)), pages)
  {
    InboxPaging.NextKeeps(p, MorePressed(scope));
    MoreIsAskedFor(p, scope);
    var q := Next(p, MorePressed(scope));
    assert SameDisplay(p, q) && q.removing == p.removing && q.runs == p.runs && EnvOf(q) == EnvOf(p);
    assert q.reload.active.None? || q.reload == p.reload || q.reload.active == p.reload.active;
    hide InboxPaging.Next, Chain, Merged, IdList;
    if !AsksNothing(p, q) { assert AsksFor(p, q, true, scope, None) && !p.removing && p.cursor.Some?; }
    assert OnlyAsks(p, q);
    AsksChained(p, q, pages);
    OwnerAlong(p, q, pages);
  }

  /** An owner past its first page now was so before. */
  lemma OwnerAlong(p: Inbox, q: Inbox, pages: seq<Taken>)
    requires Whole(p, pages) && SameDisplay(p, q) && EnvOf(q) == EnvOf(p)
    requires q.reload.active.None? || q.reload.active == p.reload.active
    requires q.reload.active.Some? && q.reload.active.value.id in q.runs && PastFirstPage(q, q.reload.active.value.id) ==>
      q.reload.active.value.id in p.runs && PastFirstPage(p, q.reload.active.value.id)
    ensures Whole(q, pages)
  {}

  lemma ResumedPages(p: Inbox, id: nat, pages: seq<Taken>)
    requires Paged(p, pages) && Possible(p, RunResumes(id))
    ensures Paged(Next(p, RunResumes(id)), pages)
  {
    InboxPaging.NextKeeps(p, RunResumes(id));
    var q := Next(p, RunResumes(id));
    ResumedAsks(p, id);
    ResumedPast(p, id);
    hide InboxPaging.Inv, InboxPaging.Next, Chain, Merged, IdList, PastFirstPage;
    AsksChained(p, q, pages);
    OwnerAlong(p, q, pages);
  }

  lemma ResumedAsks(p: Inbox, id: nat)
    requires InboxPaging.Inv(p) && Possible(p, RunResumes(id))
    ensures OnlyAsks(p, Next(p, RunResumes(id)))
  {
    RunsFillTheirSpan(p, id);
    var q := Next(p, RunResumes(id));
    assert SameDisplay(p, q) && q.removing == p.removing;
    if OwnerSees(p, id) { assert !p.removing; }
    hide InboxPaging.Inv, InboxPaging.Next, RunLoads;
    if !AsksNothing(p, q) {
      assert AsksFor(p, q, true, p.runs[id].request.scope, Some(id));
    }
  }

  lemma ResumedPast(p: Inbox, id: nat)
    requires Linked(p) && Possible(p, RunResumes(id)) && forall g :: g in p.loads ==> g <= p.generation
    ensures var q := Next(p, RunResumes(id));
      && EnvOf(q) == EnvOf(p) && q.reload == p.reload && q.runs.Keys == p.runs.Keys
      && forall i :: i in p.runs && PastFirstPage(q, i) ==> PastFirstPage(p, i)
  {
    var q := Next(p, RunResumes(id));
    forall i | i in p.runs && PastFirstPage(q, i) ensures PastFirstPage(p, i) {
      if i == id {
        assert p.runs[id].phase.Returned?;
      } else {
        assert q.runs[i] == p.runs[i];
      }
    }
  }

  lemma WantedPages(p: Inbox, scope: Option<Scope>, pages: seq<Taken>)
    requires Paged(p, pages)
    ensures Paged(Next(p, FirstPageWanted(scope)), pages) && Paged(Next(p, SpanWanted), pages)
  {
    InboxPaging.NextKeeps(p, FirstPageWanted(scope));
    InboxPaging.NextKeeps(p, SpanWanted);
    hide InboxPaging.Inv, Chained, Whole, LoadFirst, RefreshSpan;
    FirstPages(p, scope, pages);
  }

  lemma ResetPages(p: Inbox, pages: seq<Taken>)
    requires Paged(p, pages)
    ensures Paged(Next(p, ConfigurationReset), pages)
  {
    InboxPaging.NextKeeps(p, ConfigurationReset);
    OwnerlessPages(p, Next(p, ConfigurationReset), pages);
  }

  lemma ReplyPages(p: Inbox, g: nat, page: Page, pages: seq<Taken>)
    requires Paged(p, pages) && Possible(p, PageArrives(g, page))
    ensures Paged(Next(p, PageArrives(g, page)), PagesAfter(p, PageArrives(g, page), pages))
  {
    InboxPaging.NextKeeps(p, PageArrives(g, page));
    if LoadCurrent(p, g) {
      ReplyChains(p, page, pages);
      ReplyWhole(p, page, pages);
    } else {
      ReturnedPages(p, g, false, pages);
    }
  }

  lemma SettledPages(p: Inbox, g: nat, pages: seq<Taken>)
    requires Paged(p, pages) && Possible(p, CapabilitiesSettle(g))
    ensures Paged(Next(p, CapabilitiesSettle(g)), pages)
  {
    InboxPaging.NextKeeps(p, CapabilitiesSettle(g));
    ReturnedPages(p, g, true, pages);
  }

  lemma NextPages(p: Inbox, e: InboxPaging.Event, pages: seq<Taken>)
    requires Paged(p, pages) && Possible(p, e)
    ensures Paged(Next(p, e), PagesAfter(p, e, pages))
  {
    hide Paged, InboxPaging.Next;
    match e {
      case QueryChanged(clear) => FilterPages(p, clear, pages);
      case ConfigurationReset => ResetPages(p, pages);
      case ConfigurationReady => ReadyPages(p, pages);
      case MailboxEvent(m) => MailPages(p, m, pages);
      case RemovalBegins => RemovingPages(p, pages);
      case RemovalEnds(effect) => RemovedPages(p, effect, pages);
      case FirstPageWanted(scope) => WantedPages(p, scope, pages);
      case SpanWanted => WantedPages(p, None, pages);
      case MorePressed(scope) => MorePages(p, scope, pages);
      case PageArrives(g, page) => ReplyPages(p, g, page, pages);
      case PageFails(g) => FailedPages(p, g, pages);
      case CapabilitiesSettle(g) => SettledPages(p, g, pages);
      case RunResumes(id) => ResumedPages(p, id, pages);
      case RunEnds(id) => EndedPages(p, id, pages);
    }
  }

  lemma {:induction false} HistoryPages(p: Inbox, events: seq<InboxPaging.Event>, pages: seq<Taken>)
    requires Paged(p, pages) && History(p, events)
    ensures Paged(After(p, events), PagesAlong(p, events, pages))
    decreases |events|
  {
    hide Paged, InboxPaging.Next, PagesAfter;
    if events != [] {
      NextPages(p, events[0], pages);
      HistoryPages(Next(p, events[0]), events[1..], PagesAfter(p, events[0], pages));
    }
  }

  /** No id comes twice, and none is lost: the merged ids are those of all pages. */
  lemma {:induction false} MergedIsUnion(pages: seq<Taken>)
    requires forall t :: t in pages ==> Distinct(t.page.ids)
    ensures Distinct(Merged(pages))
    ensures forall id :: id in Merged(pages) <==> exists t :: t in pages && id in t.page.ids
  {
    if pages != [] {
      var front, last := pages[..|pages| - 1], pages[|pages| - 1];
      assert pages == front + [last];
      MergedIsUnion(front);
      var known := set id | id in Merged(front);
      NewIdsAre(last.page.ids, known);
      DistinctJoin(Merged(front), NewIds(last.page.ids, known));
      forall id | id in last.page.ids ensures id in Merged(pages) {
        assert id in known || id in NewIds(last.page.ids, known);
      }
    }
  }

  lemma DistinctJoin(a: seq<string>, b: seq<string>)
    requires Distinct(a) && Distinct(b) && forall id :: id in b ==> id !in a
    ensures Distinct(a + b)
  {
    forall i, j | 0 <= i < j < |a + b| ensures (a + b)[i] != (a + b)[j] {
      if i < |a| <= j { assert a[i] in a && b[j - |a|] in b; }
    }
  }

  lemma {:induction false} NewIdsAre(ids: seq<string>, known: set<string>)
    ensures forall id :: id in NewIds(ids, known) <==> id in ids && id !in known
    ensures Distinct(ids) ==> Distinct(NewIds(ids, known))
  {
    if ids != [] {
      NewIdsAre(ids[..|ids| - 1], known);
      assert ids == ids[..|ids| - 1] + [ids[|ids| - 1]];
      if Distinct(ids) { assert ids[|ids| - 1] !in ids[..|ids| - 1]; }
    }
  }

  /** Over every history, a span that is committed is what the engine answered, page by page: a chain of pages
      asked for one behind the other from the top, all for the query of the commit, with no page left out and
      each id where it first came up; the cursor left is that of the last page. */
  lemma CommittedSpanIsItsPages(events: seq<InboxPaging.Event>, id: nat)
    requires History(InboxPaging.Initial(), events) && Possible(After(InboxPaging.Initial(), events), RunResumes(id))
    ensures
      var p := After(InboxPaging.Initial(), events);
      var q := Next(p, RunResumes(id));
      var pages := PagesAlong(InboxPaging.Initial(), events, []);
      q.commits != p.commits ==>
        && Chain(pages) && pages != []
        && q.commits == p.commits + [Commit(p.runs[id].request.intent, p.items, p.cursor, p.epoch)]
        && IdList(p.items) == Merged(pages) && p.cursor == pages[|pages| - 1].page.cursor
        && forall t :: t in pages ==> t.epoch == p.epoch
  {
    var p, pages := After(InboxPaging.Initial(), events), PagesAlong(InboxPaging.Initial(), events, []);
    HistoryPages(InboxPaging.Initial(), events, []);
    RunsFillTheirSpan(p, id);
    hide InboxPaging.Next, Chain, Merged, IdList;
    var q := Next(p, RunResumes(id));
    if q.commits != p.commits {
      assert OwnerSees(p, id) && p.runs[id].phase.ok;
      assert PastFirstPage(p, id);
      assert p.itemsEpoch == Some(p.epoch);
    }
  }
}
