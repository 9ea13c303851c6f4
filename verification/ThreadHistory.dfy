/** One lifecycle dispatch for the Vendors reader and the Inbox reader: counted mutation holds over
    both, and Inbox spans whose refresh waits until nothing is held. */
module ThreadHistories {
  import opened Basics
  import opened ThreadViews
  import opened ThreadViewProofs
  import T = ThreadViewTheorems
  import F = ThreadViewEffects

  /** What happened to Inbox spans: committed; called off by a prepare, a clear or a mutation; or
      refreshed, with so many holds. */
  datatype Mark = SpanCommitted | SpanVoided | SpanRefreshed(holds: nat)

  /** `tails` counts the `endMutation` calls still waiting for their second half. */
  datatype Dispatch = Dispatch(vendor: View, inbox: View, holds: nat, committed: bool, tails: nat, marks: seq<Mark>)

  function Fresh(): Dispatch {
    Dispatch(ThreadViews.Initial(), ThreadViews.Initial(), 0, false, 0, [])
  }

  predicate Readers(h: Dispatch) {
    Rooted(h.vendor) && Rooted(h.inbox)
  }

  function ShowView(h: Dispatch, vendors: bool, inbox: bool): Dispatch
    requires Readers(h)
  {
    h.(vendor := if vendors then Resume(h.vendor) else Suspend(h.vendor),
       inbox := if inbox then Resume(h.inbox) else Close(h.inbox))
  }

  function RefreshBoth(h: Dispatch): Dispatch
    requires Readers(h)
  {
    h.(vendor := Refresh(h.vendor), inbox := Refresh(h.inbox))
  }

  function ClearSelection(h: Dispatch): Dispatch
    requires Readers(h)
  {
    h.(committed := false, inbox := Close(h.inbox), marks := h.marks + [SpanVoided])
  }

  function Prepare(h: Dispatch): Dispatch
    requires Readers(h)
  {
    h.(committed := false, inbox := Invalidate(h.inbox), vendor := Refresh(h.vendor), marks := h.marks + [SpanVoided])
  }

  function RefreshCommitted(h: Dispatch): Dispatch
    requires Readers(h)
  {
    if h.holds > 0 || !h.committed then h
    else h.(committed := false, inbox := Refresh(h.inbox), marks := h.marks + [SpanRefreshed(h.holds)])
  }

  function CommitSpan(h: Dispatch): Dispatch
    requires Readers(h)
  {
    RefreshCommitted(h.(committed := true, marks := h.marks + [SpanCommitted]))
  }

  function Begin(h: Dispatch): Dispatch
    requires Readers(h)
  {
    h.(holds := h.holds + 1, committed := false, vendor := BeginMutation(h.vendor), inbox := BeginMutation(h.inbox),
       marks := h.marks + [SpanVoided])
  }

  /** The first half of `endMutation`: all three counters, and the Vendors reader's own refresh. */
  function End(h: Dispatch): Dispatch
    requires Readers(h)
  {
    h.(holds := if h.holds == 0 then 0 else h.holds - 1, vendor := EndMutation(h.vendor, true),
       inbox := EndMutation(h.inbox, false), tails := h.tails + 1)
  }

  function EndTail(h: Dispatch): Dispatch
    requires Readers(h) && h.tails > 0
  {
    RefreshCommitted(h.(tails := h.tails - 1))
  }

  datatype Event =
    | ViewSet(vendors: bool, inbox: bool)
    | BothRefreshed
    | InboxCleared
    | RefreshPrepared
    | SpanCommits
    | HoldBegins
    | HoldEnds
    | TailRuns
    | VendorReader(e: ThreadViews.Event)
    | InboxReader(e: ThreadViews.Event)

  /** The readers' own events interleave freely; only this dispatch counts their mutations. */
  predicate Possible(h: Dispatch, e: Event) {
    match e
    case TailRuns => h.tails > 0
    case VendorReader(x) => ThreadViews.Possible(h.vendor, x) && !x.MutationBegins? && !x.MutationEnds?
    case InboxReader(x) => ThreadViews.Possible(h.inbox, x) && !x.MutationBegins? && !x.MutationEnds?
    case _ => true
  }

  function Next(h: Dispatch, e: Event): Dispatch
    requires Readers(h) && Possible(h, e)
  {
    match e
    case ViewSet(vendors, inbox) => ShowView(h, vendors, inbox)
    case BothRefreshed => RefreshBoth(h)
    case InboxCleared => ClearSelection(h)
    case RefreshPrepared => Prepare(h)
    case SpanCommits => CommitSpan(h)
    case HoldBegins => Begin(h)
    case HoldEnds => End(h)
    case TailRuns => EndTail(h)
    case VendorReader(x) => h.(vendor := ThreadViews.Next(h.vendor, x))
    case InboxReader(x) => h.(inbox := ThreadViews.Next(h.inbox, x))
  }

  ghost predicate History(h: Dispatch, events: seq<Event>)
    decreases |events|
  {
    Readers(h) && (events == [] || (Possible(h, events[0]) && History(Next(h, events[0]), events[1..])))
  }

  ghost function After(h: Dispatch, events: seq<Event>): (r: Dispatch)
    requires History(h, events)
    ensures Readers(r)
    decreases |events|
  {
    if events == [] then h else After(Next(h, events[0]), events[1..])
  }

  // ---------------------------------------------------------------------------------------------
  // The invariant

  /** Nothing has called off or refreshed the span committed at `i`. */
  ghost predicate Standing(marks: seq<Mark>, i: nat) {
    && i < |marks| && marks[i].SpanCommitted?
    && (forall j :: i < j < |marks| ==> marks[j].SpanCommitted?)
  }

  /** The refresh at `k` answers a span that was committed before it and stood right up to it, with no
      other refresh in between, at a moment when nothing was held. */
  ghost predicate Earned(marks: seq<Mark>, k: nat) {
    && k < |marks| && marks[k] == SpanRefreshed(0)
    && (exists i: nat :: i < k && Standing(marks[..k], i))
  }

  /** A sound reader under `n` mutations. */
  ghost predicate Fine(v: View, n: nat) {
    Rooted(v) && Inv(v) && v.mutations == n
  }

  ghost predicate Sound(h: Dispatch) {
    Fine(h.vendor, h.holds) && Fine(h.inbox, h.holds)
  }

  ghost predicate Spans(h: Dispatch) {
    && (h.committed <==> exists i: nat :: Standing(h.marks, i))
    && (h.committed ==> h.holds > 0 || h.tails > 0)
    && (forall k :: 0 <= k < |h.marks| && h.marks[k].SpanRefreshed? ==> Earned(h.marks, k))
  }

  lemma StepFine(v: View, e: ThreadViews.Event)
    requires Rooted(v) && Inv(v) && ThreadViews.Possible(v, e) && !e.MutationBegins? && !e.MutationEnds?
    ensures Fine(ThreadViews.Next(v, e), v.mutations)
  {
    NextKeeps(v, e);
    T.StampedReachable(v);
    T.NextRises(v, e);
  }

  lemma ShownFine(v: View)
    requires Rooted(v) && Inv(v)
    ensures Fine(Resume(v), v.mutations) && Fine(Suspend(v), v.mutations) && Fine(Close(v), v.mutations)
    ensures Fine(Refresh(v), v.mutations) && Fine(Invalidate(v), v.mutations)
  {
    hide Inv, Resume, Suspend, Close, Refresh, Invalidate;
    StepFine(v, Resumed);
    StepFine(v, Suspended);
    StepFine(v, Closed);
    StepFine(v, Refreshed);
    StepFine(v, Invalidated);
  }

  lemma HeldFine(v: View, refresh: bool)
    requires Rooted(v) && Inv(v)
    ensures Fine(BeginMutation(v), v.mutations + 1)
    ensures Fine(EndMutation(v, refresh), if v.mutations == 0 then 0 else v.mutations - 1)
  {
    hide BeginMutation, EndMutation;
    BeginMutationKeeps(v);
    EndMutationKeeps(v, refresh);
    T.StampedReachable(v);
    T.MutationRises(v, refresh);
  }

  /** The readers stay sound and their counters equal, whatever the dispatch does. */
  lemma ReadersKeep(h: Dispatch, e: Event)
    requires Sound(h) && Possible(h, e)
    ensures Sound(Next(h, e)) && Readers(Next(h, e))
  {
    hide Inv, Refresh, Invalidate, Resume, Suspend, Close, BeginMutation, EndMutation, ThreadViews.Next;
    ShownFine(h.vendor);
    ShownFine(h.inbox);
    HeldFine(h.vendor, true);
    HeldFine(h.inbox, false);
    if e.VendorReader? { StepFine(h.vendor, e.e); }
    if e.InboxReader? { StepFine(h.inbox, e.e); }
  }

  // ---------------------------------------------------------------------------------------------
  // Spans

  lemma MarkKept(marks: seq<Mark>, m: Mark, k: nat)
    requires k < |marks| && Earned(marks, k)
    ensures Earned(marks + [m], k)
  {
    assert (marks + [m])[..k] == marks[..k];
  }

  lemma MarksKept(marks: seq<Mark>, m: Mark)
    requires forall k :: 0 <= k < |marks| && marks[k].SpanRefreshed? ==> Earned(marks, k)
    requires m.SpanRefreshed? ==> m.holds == 0 && exists i: nat :: Standing(marks, i)
    ensures forall k :: 0 <= k < |marks + [m]| && (marks + [m])[k].SpanRefreshed? ==> Earned(marks + [m], k)
  {
    forall k | 0 <= k < |marks + [m]| && (marks + [m])[k].SpanRefreshed? ensures Earned(marks + [m], k) {
      if k < |marks| {
        MarkKept(marks, m, k);
      } else {
        assert (marks + [m])[..k] == marks;
      }
    }
  }

  /** A commit makes a standing span; anything else unmakes it. */
  lemma StandingAlong(marks: seq<Mark>, m: Mark)
    ensures m.SpanCommitted? ==> Standing(marks + [m], |marks|)
    ensures !m.SpanCommitted? ==> !exists i: nat :: Standing(marks + [m], i)
  {
    assert (marks + [m])[|marks|] == m;
  }

  /** The span bookkeeping of one step: at most one mark, or a commit followed at once by its refresh. */
  lemma SpansKeep(h: Dispatch, e: Event)
    requires Readers(h) && Possible(h, e) && Spans(h)
    ensures Spans(Next(h, e))
  {
    hide Refresh, Invalidate, Resume, Suspend, Close, BeginMutation, EndMutation, ThreadViews.Next;
    match e {
      case SpanCommits =>
        MarksKept(h.marks, SpanCommitted);
        StandingAlong(h.marks, SpanCommitted);
        MarksKept(h.marks + [SpanCommitted], SpanRefreshed(0));
        StandingAlong(h.marks + [SpanCommitted], SpanRefreshed(0));
      case TailRuns =>
        if h.committed { MarksKept(h.marks, SpanRefreshed(0)); StandingAlong(h.marks, SpanRefreshed(0)); }
      case _ =>
        MarksKept(h.marks, SpanVoided);
        StandingAlong(h.marks, SpanVoided);
    }
  }

  lemma {:induction false} HistoryKeeps(h: Dispatch, events: seq<Event>)
    requires Sound(h) && Spans(h) && History(h, events)
    ensures Sound(After(h, events)) && Spans(After(h, events))
    decreases |events|
  {
    hide Sound, Spans, Next;
    if events != [] {
      ReadersKeep(h, events[0]);
      SpansKeep(h, events[0]);
      HistoryKeeps(Next(h, events[0]), events[1..]);
    }
  }

  lemma Reachable(events: seq<Event>)
    requires History(Fresh(), events)
    ensures Sound(After(Fresh(), events)) && Spans(After(Fresh(), events))
  {
    ClearInv(ThreadViews.Initial());
    HistoryKeeps(Fresh(), events);
  }

  // ---------------------------------------------------------------------------------------------
  // The theorems

  /** The three counters agree after every synchronous step, and while anything is held neither reader
      shows a thing. */
  lemma HoldsAgreeAndBlankBothReaders(events: seq<Event>)
    requires History(Fresh(), events)
    ensures
      var h := After(Fresh(), events);
      && h.holds == h.vendor.mutations == h.inbox.mutations
      && (h.holds > 0 ==> Blank(h.vendor) && Blank(h.inbox))
  {
    Reachable(events);
  }

  /** Each refresh through the committed span answers a commit that stood right up to it, no refresh
      answers the same commit twice, and nothing is held at that moment; and once nothing is held and
      every second half has run, no committed span is left waiting: it was refreshed or called off. */
  lemma CommittedSpansRefreshOnce(events: seq<Event>)
    requires History(Fresh(), events)
    ensures
      var h := After(Fresh(), events);
      && (forall k :: 0 <= k < |h.marks| && h.marks[k].SpanRefreshed? ==> Earned(h.marks, k))
      && (h.holds == 0 && h.tails == 0 ==>
            forall i: nat :: i < |h.marks| && h.marks[i].SpanCommitted? ==>
              exists j :: i < j < |h.marks| && !h.marks[j].SpanCommitted?)
  {
    Reachable(events);
    var h := After(Fresh(), events);
    forall i: nat | h.holds == 0 && h.tails == 0 && i < |h.marks| && h.marks[i].SpanCommitted?
      ensures exists j :: i < j < |h.marks| && !h.marks[j].SpanCommitted?
    {
      assert !Standing(h.marks, i);
    }
  }

  // ---------------------------------------------------------------------------------------------
  // What the dispatch does to its readers

  /** The reader was refreshed: everything is cleared and the first page of what is selected is asked for. */
  ghost predicate ReadAnew(v: View, w: View) {
    && w.calls == v.calls + T.FirstCall(v)
    && w.clearedAt == |v.calls| && w.resolutionClearedAt == |v.calls|
    && w.mutations == v.mutations && w.visible == v.visible
  }

  lemma RefreshRefreshes(v: View)
    requires Rooted(v)
    ensures ReadAnew(v, Refresh(v))
  {
    hide Invalidate, LoadThreads, LoadMessages, ResolveInbox;
    T.RefreshAsksOnce(v);
    F.RefreshFlags(v);
    T.InvalidateFrame(v);
    InvalidateStamps(v);
    LoadStamps(Invalidate(v));
  }

  lemma InvalidateStamps(v: View)
    requires Rooted(v)
    ensures Invalidate(v).clearedAt == |v.calls| && Invalidate(v).resolutionClearedAt == |v.calls|
  {}

  lemma LoadStamps(w: View)
    requires Rooted(w) && w.clearedAt == |w.calls|
    ensures LoadThreads(w, false).clearedAt == w.clearedAt && LoadThreads(w, false).resolutionClearedAt == w.resolutionClearedAt
    ensures LoadMessages(w, false).clearedAt == w.clearedAt && LoadMessages(w, false).resolutionClearedAt == w.resolutionClearedAt
    ensures ResolveInbox(w, false).clearedAt == w.clearedAt && ResolveInbox(w, false).resolutionClearedAt == w.resolutionClearedAt
  {
    hide ClearBelow, ClearContent;
    T.BelowFrame(w, w.cells[THREADS].slot);
    T.BelowFrame(w, w.cells[MESSAGES].slot);
    F.ContentFrame(w.(selection := w.selection + 1, vendor := None, selected := None));
  }

  /** The steps that owe the Inbox reader a refresh: a commit while nothing is held, and the second half of an
      `endMutation` while nothing is held and a span stands. */
  ghost predicate OwesRefresh(h: Dispatch, e: Event) {
    h.holds == 0 && (e.SpanCommits? || (e.TailRuns? && exists i: nat :: Standing(h.marks, i)))
  }

  ghost predicate Adds(h: Dispatch, n: Dispatch, m: Mark) {
    h.marks <= n.marks && m in n.marks[|h.marks|..]
  }

  lemma MarksOf(h: Dispatch, e: Event)
    requires Readers(h) && Possible(h, e)
    ensures h.marks <= Next(h, e).marks
    ensures (exists k :: |h.marks| <= k < |Next(h, e).marks| && Next(h, e).marks[k].SpanRefreshed?) <==>
      h.holds == 0 && (e.SpanCommits? || (e.TailRuns? && h.committed))
    ensures Adds(h, Next(h, e), SpanCommitted) <==> e.SpanCommits?
    ensures Adds(h, Next(h, e), SpanVoided) <==> e.InboxCleared? || e.RefreshPrepared? || e.HoldBegins?
  {
    hide Refresh, Invalidate, Resume, Suspend, Close, BeginMutation, EndMutation, ThreadViews.Next;
    var n := Next(h, e);
    if e.SpanCommits? {
      assert n.marks[|h.marks|] == SpanCommitted;
      if h.holds == 0 { assert n.marks[|h.marks| + 1].SpanRefreshed?; }
    }
    if e.TailRuns? && h.committed && h.holds == 0 { assert n.marks[|h.marks|].SpanRefreshed?; }
    if e.InboxCleared? || e.RefreshPrepared? || e.HoldBegins? { assert n.marks[|h.marks|] == SpanVoided; }
  }

  lemma SpanStepRefreshes(h: Dispatch, e: Event)
    requires Readers(h) && Possible(h, e) && (h.committed <==> exists i: nat :: Standing(h.marks, i))
    ensures e.SpanCommits? || e.TailRuns? ==>
      if OwesRefresh(h, e) then ReadAnew(h.inbox, Next(h, e).inbox) else Next(h, e).inbox == h.inbox
  {
    hide Refresh, ReadAnew, Standing;
    RefreshRefreshes(h.inbox);
  }

  /** The marks tell the truth.  In every run a step is marked as a refresh of a committed span exactly when one is
      owed, and exactly then does a commit or a second half refresh the Inbox reader; otherwise it leaves that
      reader alone.  A commit is marked when it happens, and so is what calls one off. */
  lemma SpansRefreshTheReader(events: seq<Event>, e: Event)
    requires History(Fresh(), events) && Possible(After(Fresh(), events), e)
    ensures
      var h := After(Fresh(), events);
      var n := Next(h, e);
      && h.marks <= n.marks
      && ((exists k :: |h.marks| <= k < |n.marks| && n.marks[k].SpanRefreshed?) <==> OwesRefresh(h, e))
      && (e.SpanCommits? || e.TailRuns? ==>
            if OwesRefresh(h, e) then ReadAnew(h.inbox, n.inbox) else n.inbox == h.inbox)
      && (Adds(h, n, SpanCommitted) <==> e.SpanCommits?)
      && (Adds(h, n, SpanVoided) <==> e.InboxCleared? || e.RefreshPrepared? || e.HoldBegins?)
  {
    hide Sound, Next, ReadAnew, After, Adds, Standing, Earned, History;
    Reachable(events);
    var h := After(Fresh(), events);
    MarksOf(h, e);
    SpanStepRefreshes(h, e);
  }

  /** What each step of the dispatch asks of the readers: who is shown reads, who is not is hidden or closed; a
      preparation clears the Inbox reader and refreshes the other; the first hold silences both; the end of one
      reads in the Vendors reader alone. */
  lemma DispatchReachesBothReaders(h: Dispatch, vendors: bool, inbox: bool)
    requires Readers(h)
    ensures
      var n := ShowView(h, vendors, inbox);
      && n.vendor.visible == vendors
      && n.vendor.calls == h.vendor.calls + (if vendors then T.FirstCall(h.vendor.(visible := true)) else [])
      && (if inbox then n.inbox.visible && n.inbox.calls == h.inbox.calls + T.FirstCall(h.inbox.(visible := true))
          else T.SelectionOf(n.inbox) == T.Selection(None, None, None, None, None) && n.inbox.calls == h.inbox.calls)
    ensures ReadAnew(h.vendor, RefreshBoth(h).vendor) && ReadAnew(h.inbox, RefreshBoth(h).inbox)
    ensures
      var n := ClearSelection(h);
      T.SelectionOf(n.inbox) == T.Selection(None, None, None, None, None) && n.vendor == h.vendor
    ensures
      var n := Prepare(h);
      && ReadAnew(h.vendor, n.vendor) && n.inbox.calls == h.inbox.calls
      && n.inbox.clearedAt == |h.inbox.calls| && n.inbox.resolutionClearedAt == |h.inbox.calls|
    ensures Begin(h).vendor.calls == h.vendor.calls && Begin(h).inbox.calls == h.inbox.calls
    ensures
      var k := if h.vendor.mutations == 0 then 0 else h.vendor.mutations - 1;
      End(h).vendor.calls == h.vendor.calls + T.FirstCall(h.vendor.(mutations := k)) && End(h).inbox.calls == h.inbox.calls
  {
    hide Refresh, Invalidate, Resume, Suspend, Close, BeginMutation, EndMutation, ReadAnew;
    F.ShownReadersRead(h.vendor);
    F.ShownReadersRead(h.inbox);
    T.CloseSelectsNothing(h.inbox);
    RefreshRefreshes(h.vendor);
    RefreshRefreshes(h.inbox);
    T.InvalidateFrame(h.inbox);
    InvalidateStamps(h.inbox);
    F.ReleasedReadersRead(h.vendor, true);
    F.ReleasedReadersRead(h.inbox, false);
  }
}
