/** Gmail label settings: a load reads the watched labels, the label catalog and the watched labels
    again, and shows the catalog as verified only when nothing changed in between.  Loads overlap, the
    account may change under them, and edits go to the engine at any time. */
module GmailLabels {
  import opened Basics

  /** One state of an account's watched labels in the engine. */
  datatype Snapshot = Snapshot(revision: int, labels: set<string>)

  /** Each account's states, oldest first. */
  type Engine = map<string, seq<Snapshot>>

  /** Replies name their account and the revision they were made at.  `at` is the place of the state
      they were made from; the client cannot see it. */
  datatype Selectors = Selectors(account: string, revision: int, current: bool, items: map<string, bool>, at: nat)

  datatype Catalog = Catalog(account: string, revision: int, selected: map<string, bool>, at: nat)

  /** What a load waits for; `asked` is the newest state when the call went out. */
  datatype Wait =
    | First
    | ForCatalog(first: Selectors)
    | Recheck(first: Selectors, catalog: Catalog)
    | Relist(loaded: Option<Selectors>)

  datatype Load = Load(account: string, generation: nat, asked: nat, wait: Wait)

  /** How the verified display came about. */
  datatype Evidence = Evidence(load: nat, account: string, first: nat, catalog: nat, last: nat)

  /** The module variables, the loads still out by their sequence numbers, and the engine. */
  datatype Labels = Labels(generation: nat, sequence: nat, scope: Option<string>, revision: Option<int>,
                           verified: bool, mutating: bool, items: map<string, bool>, catalog: map<string, bool>,
                           loads: map<nat, Load>, evidence: Option<Evidence>, engine: Engine)

  function Initial(engine: Engine): Labels {
    Labels(0, 0, None, None, false, false, map[], map[], map[], None, engine)
  }

  function Newest(engine: Engine, account: string): nat {
    if account in engine && engine[account] != [] then |engine[account]| - 1 else 0
  }

  /** Another account, or none: everything shown goes. */
  function Invalidate(s: Labels, scope: Option<string>): (r: Labels)
    ensures r.engine == s.engine
  {
    s.(generation := s.generation + 1, sequence := s.sequence + 1, scope := scope, revision := None,
       mutating := false, verified := false, catalog := map[], items := map[])
  }

  function Reconcile(s: Labels, next: Option<string>): (r: Labels)
    ensures r.engine == s.engine
  {
    if s.scope == next then s else Invalidate(s, next)
  }

  function StartLoad(s: Labels): (r: Labels)
    ensures r.engine == s.engine
  {
    if s.scope.None? then s
    else
      var n := s.sequence + 1;
      s.(sequence := n, verified := false,
         loads := s.loads[n := Load(s.scope.value, s.generation, Newest(s.engine, s.scope.value), First)])
  }

  predicate NewestLoad(s: Labels, n: nat)
    requires n in s.loads
  {
    n == s.sequence && s.loads[n].generation == s.generation
  }

  /** The guard after each reply. */
  predicate ScopeMatches(s: Labels, n: nat, account: string)
    requires n in s.loads
  {
    n == s.sequence && s.loads[n].generation == s.generation && s.scope == Some(s.loads[n].account)
    && account == s.loads[n].account
  }

  function Drop(s: Labels, n: nat): (r: Labels)
    ensures r.engine == s.engine
  {
    s.(loads := s.loads - {n})
  }

  /** The load goes on to its next call. */
  function Ask(s: Labels, n: nat, wait: Wait): (r: Labels)
    requires n in s.loads
    ensures r.engine == s.engine
  {
    s.(loads := s.loads[n := s.loads[n].(wait := wait, asked := Newest(s.engine, s.loads[n].account))])
  }

  function FirstReplies(s: Labels, n: nat, reply: Selectors): (r: Labels)
    requires n in s.loads
    ensures r.engine == s.engine
  {
    if !ScopeMatches(s, n, reply.account) then Drop(s, n)
    else Ask(s.(revision := Some(reply.revision), items := reply.items), n, ForCatalog(reply))
  }

  function CatalogReplies(s: Labels, n: nat, reply: Catalog): (r: Labels)
    requires n in s.loads && s.loads[n].wait.ForCatalog?
    ensures r.engine == s.engine
  {
    if !ScopeMatches(s, n, reply.account) then Drop(s, n)
    else Ask(s, n, Recheck(s.loads[n].wait.first, reply))
  }

  predicate RefreshIsCurrent(first: Selectors, catalog: Catalog, last: Selectors) {
    first.revision == catalog.revision && catalog.revision == last.revision && last.current
  }

  function RecheckReplies(s: Labels, n: nat, reply: Selectors): (r: Labels)
    requires n in s.loads && s.loads[n].wait.Recheck?
    ensures r.engine == s.engine
  {
    var w := s.loads[n].wait;
    if !ScopeMatches(s, n, reply.account) then Drop(s, n)
    else if !RefreshIsCurrent(w.first, w.catalog, reply)
    then Drop(s, n).(revision := None, verified := false, catalog := map[], items := reply.items)
    else Drop(s, n).(revision := Some(reply.revision), verified := true, catalog := w.catalog.selected, items := reply.items,
                     evidence := Some(Evidence(n, reply.account, w.first.at, w.catalog.at, reply.at)))
  }

  /** The first call or one of the two after it fails: the watched labels are listed once more. */
  function CallFails(s: Labels, n: nat): (r: Labels)
    requires n in s.loads && !s.loads[n].wait.Relist?
    ensures r.engine == s.engine
  {
    var loaded := if s.loads[n].wait.First? then None else Some(s.loads[n].wait.first);
    if !NewestLoad(s, n) then Drop(s, n)
    else Ask(s.(verified := false, catalog := map[]), n, Relist(loaded))
  }

  function RelistReplies(s: Labels, n: nat, reply: Selectors): (r: Labels)
    requires n in s.loads
    ensures r.engine == s.engine
  {
    if !ScopeMatches(s, n, reply.account) then Drop(s, n)
    else Drop(s, n).(revision := Some(reply.revision), items := reply.items)
  }

  function Inert(items: map<string, bool>): map<string, bool> {
    map name | name in items :: false
  }

  function RelistFails(s: Labels, n: nat): (r: Labels)
    requires n in s.loads && s.loads[n].wait.Relist?
    ensures r.engine == s.engine
  {
    if !NewestLoad(s, n) then Drop(s, n)
    else
      var loaded := s.loads[n].wait.loaded;
      Drop(s, n).(revision := None, items := if loaded.Some? then Inert(loaded.value.items) else map[])
  }

  /** Adding or removing a label begins. */
  function EditBegins(s: Labels): (r: Labels)
    ensures r.engine == s.engine
  {
    if s.scope.None? || s.revision.None? || s.mutating then s else s.(mutating := true)
  }

  /** It settles; some refusals of an added label clear the catalog; a load follows at once. */
  function EditSettles(s: Labels, generation: nat, clears: bool): (r: Labels)
    ensures r.engine == s.engine
  {
    if generation != s.generation then s
    else StartLoad((if clears then s.(catalog := map[], revision := None) else s).(mutating := false))
  }

  /** The engine takes a change, from this client or elsewhere. */
  function EngineChanges(s: Labels, account: string, next: Snapshot): Labels {
    s.(engine := s.engine[account := (if account in s.engine then s.engine[account] else []) + [next]])
  }

  datatype Event =
    | AccountsLoaded(active: Option<string>)
    | Refresh
    | FirstArrives(n: nat, selectors: Selectors)
    | CatalogArrives(n: nat, catalog: Catalog)
    | RecheckArrives(n: nat, selectors: Selectors)
    | Fails(n: nat)
    | RelistArrives(n: nat, selectors: Selectors)
    | RelistFailed(n: nat)
    | Edit
    | EditSettled(generation: nat, clears: bool)
    | Changed(account: string, next: Snapshot)

  /** A reply is made from one state of its account; for the load's own account, from a state that was
      current at some time between the call and the reply. */
  predicate Truthful(s: Labels, n: nat, account: string, revision: int, at: nat)
    requires n in s.loads
  {
    && account in s.engine && at < |s.engine[account]| && s.engine[account][at].revision == revision
    && (account == s.loads[n].account ==> s.loads[n].asked <= at)
  }

  predicate SelectorsAnswer(s: Labels, n: nat, r: Selectors)
    requires n in s.loads
  {
    Truthful(s, n, r.account, r.revision, r.at) && r.items.Keys == s.engine[r.account][r.at].labels
  }

  /** The catalog marks exactly the labels watched in that state. */
  predicate CatalogAnswers(s: Labels, n: nat, r: Catalog)
    requires n in s.loads
  {
    Truthful(s, n, r.account, r.revision, r.at)
    && forall name :: name in r.selected ==> (r.selected[name] <==> name in s.engine[r.account][r.at].labels)
  }

  /** Every change strictly raises the account's revision. */
  predicate Rises(engine: Engine, account: string, next: Snapshot) {
    account in engine && engine[account] != [] ==> engine[account][|engine[account]| - 1].revision < next.revision
  }

  predicate Possible(s: Labels, e: Event) {
    match e
    case FirstArrives(n, r) => n in s.loads && s.loads[n].wait.First? && SelectorsAnswer(s, n, r)
    case CatalogArrives(n, r) => n in s.loads && s.loads[n].wait.ForCatalog? && CatalogAnswers(s, n, r)
    case RecheckArrives(n, r) => n in s.loads && s.loads[n].wait.Recheck? && SelectorsAnswer(s, n, r)
    case Fails(n) => n in s.loads && !s.loads[n].wait.Relist?
    case RelistArrives(n, r) => n in s.loads && s.loads[n].wait.Relist? && SelectorsAnswer(s, n, r)
    case RelistFailed(n) => n in s.loads && s.loads[n].wait.Relist?
    case Changed(account, next) => Rises(s.engine, account, next)
    case _ => true
  }

  function Next(s: Labels, e: Event): Labels
    requires Possible(s, e)
  {
    match e
    case AccountsLoaded(next) => Reconcile(s, next)
    case Refresh => StartLoad(s)
    case FirstArrives(n, r) => FirstReplies(s, n, r)
    case CatalogArrives(n, r) => CatalogReplies(s, n, r)
    case RecheckArrives(n, r) => RecheckReplies(s, n, r)
    case Fails(n) => CallFails(s, n)
    case RelistArrives(n, r) => RelistReplies(s, n, r)
    case RelistFailed(n) => RelistFails(s, n)
    case Edit => EditBegins(s)
    case EditSettled(generation, clears) => EditSettles(s, generation, clears)
    case Changed(account, next) => EngineChanges(s, account, next)
  }

  ghost predicate History(s: Labels, events: seq<Event>)
    decreases |events|
  {
    events == [] || (Possible(s, events[0]) && History(Next(s, events[0]), events[1..]))
  }

  ghost function After(s: Labels, events: seq<Event>): Labels
    requires History(s, events)
    decreases |events|
  {
    if events == [] then s else After(Next(s, events[0]), events[1..])
  }

  // ---------------------------------------------------------------------------------------------
  // The invariant

  ghost predicate Rising(states: seq<Snapshot>) {
    forall i, j :: 0 <= i < j < |states| ==> states[i].revision < states[j].revision
  }

  ghost predicate EngineRises(engine: Engine) {
    forall a :: a in engine ==> Rising(engine[a])
  }

  ghost predicate FromSelectors(engine: Engine, r: Selectors) {
    && r.account in engine && r.at < |engine[r.account]| && engine[r.account][r.at].revision == r.revision
    && r.items.Keys == engine[r.account][r.at].labels
  }

  ghost predicate FromCatalog(engine: Engine, r: Catalog) {
    && r.account in engine && r.at < |engine[r.account]| && engine[r.account][r.at].revision == r.revision
    && forall name :: name in r.selected ==> (r.selected[name] <==> name in engine[r.account][r.at].labels)
  }

  /** A load's replies are of its own account and each no older than the one before. */
  ghost predicate LoadSound(engine: Engine, load: Load) {
    match load.wait
    case First => true
    case ForCatalog(first) => first.account == load.account && FromSelectors(engine, first) && first.at <= load.asked
    case Recheck(first, catalog) =>
      && first.account == load.account && FromSelectors(engine, first)
      && catalog.account == load.account && FromCatalog(engine, catalog)
      && first.at <= catalog.at <= load.asked
    case Relist(_) => true
  }

  ghost predicate LoadsSound(s: Labels) {
    forall n :: n in s.loads ==> n <= s.sequence && LoadSound(s.engine, s.loads[n])
  }

  /** The verified display is one state of the account, untouched from the first read to the last. */
  ghost predicate VerifiedSound(s: Labels) {
    s.verified ==>
      && s.scope.Some? && s.evidence.Some?
      && var account, proof := s.scope.value, s.evidence.value;
      && proof.account == account && proof.load == s.sequence
      && account in s.engine && proof.last < |s.engine[account]|
      && proof.first == proof.catalog == proof.last
      && s.revision == Some(s.engine[account][proof.last].revision)
      && s.items.Keys == s.engine[account][proof.last].labels
      && forall name :: name in s.catalog ==> (s.catalog[name] <==> name in s.items)
  }

  /** The newest load is out only while nothing is verified. */
  ghost predicate NewestIsUnverified(s: Labels) {
    s.verified ==> s.sequence !in s.loads
  }

  ghost predicate Inv(s: Labels) {
    EngineRises(s.engine) && LoadsSound(s) && VerifiedSound(s) && NewestIsUnverified(s)
  }

  lemma NextEngine(s: Labels, e: Event)
    requires Inv(s) && Possible(s, e)
    ensures EngineRises(Next(s, e).engine)
  {
    hide LoadsSound, VerifiedSound, SelectorsAnswer, CatalogAnswers, Reconcile, StartLoad, FirstReplies, CatalogReplies,
      RecheckReplies, CallFails, RelistReplies, RelistFails, EditBegins, EditSettles;
  }

  lemma EngineGrows(s: Labels, account: string, next: Snapshot, load: Load)
    requires LoadSound(s.engine, load)
    ensures LoadSound(EngineChanges(s, account, next).engine, load)
  {
  }

  lemma FirstKeepsLoads(s: Labels, n: nat, r: Selectors)
    requires LoadsSound(s) && Possible(s, FirstArrives(n, r))
    ensures LoadsSound(FirstReplies(s, n, r))
  {
    assert r.account == s.loads[n].account ==> r.at <= Newest(s.engine, r.account);
  }

  lemma CatalogKeepsLoads(s: Labels, n: nat, r: Catalog)
    requires LoadsSound(s) && Possible(s, CatalogArrives(n, r))
    ensures LoadsSound(CatalogReplies(s, n, r))
  {
    var load := s.loads[n];
    assert LoadSound(s.engine, load);
    if r.account == load.account {
      assert LoadSound(s.engine, load.(wait := Recheck(load.wait.first, r), asked := Newest(s.engine, load.account)));
    }
    hide LoadSound, CatalogAnswers;
  }

  lemma ChangeKeepsLoads(s: Labels, account: string, next: Snapshot)
    requires LoadsSound(s)
    ensures LoadsSound(EngineChanges(s, account, next))
  {
    hide LoadSound;
    forall n | n in s.loads ensures LoadSound(EngineChanges(s, account, next).engine, s.loads[n]) {
      EngineGrows(s, account, next, s.loads[n]);
    }
  }

  lemma DropKeepsLoads(s: Labels, n: nat, t: Labels)
    requires LoadsSound(s) && n in s.loads
    ensures Drops(s, n, t) ==> LoadsSound(t)
  {}

  lemma RecheckDrops(s: Labels, n: nat, r: Selectors)
    requires n in s.loads
    ensures s.loads[n].wait.Recheck? ==> Drops(s, n, RecheckReplies(s, n, r))
    ensures Drops(s, n, RelistReplies(s, n, r))
  {}

  lemma RelistDrops(s: Labels, n: nat)
    requires n in s.loads && s.loads[n].wait.Relist?
    ensures Drops(s, n, RelistFails(s, n))
  {}

  ghost predicate Drops(s: Labels, n: nat, t: Labels) {
    t.loads == s.loads - {n} && t.engine == s.engine && t.sequence == s.sequence
  }

  lemma StartKeepsLoads(s: Labels)
    requires LoadsSound(s)
    ensures LoadsSound(StartLoad(s))
  {}

  lemma FailureKeepsLoads(s: Labels, n: nat)
    requires LoadsSound(s) && n in s.loads && !s.loads[n].wait.Relist?
    ensures LoadsSound(CallFails(s, n))
  {}

  lemma NextLoads(s: Labels, e: Event)
    requires Inv(s) && Possible(s, e)
    ensures LoadsSound(Next(s, e))
  {
    hide EngineRises, VerifiedSound, NewestIsUnverified, SelectorsAnswer, CatalogAnswers, Rises, LoadSound;
    hide FirstReplies, CatalogReplies, RecheckReplies, RelistReplies, RelistFails, EngineChanges, StartLoad, CallFails;
    match e {
      case RecheckArrives(n, r) => RecheckDrops(s, n, r); DropKeepsLoads(s, n, Next(s, e));
      case RelistArrives(n, r) => RecheckDrops(s, n, r); DropKeepsLoads(s, n, Next(s, e));
      case RelistFailed(n) => RelistDrops(s, n); DropKeepsLoads(s, n, Next(s, e));
      case Refresh => StartKeepsLoads(s);
      case Fails(n) => FailureKeepsLoads(s, n);
      case EditSettled(_, clears) =>
        StartKeepsLoads((if clears then s.(catalog := map[], revision := None) else s).(mutating := false));
      case FirstArrives(n, r) => FirstKeepsLoads(s, n, r);
      case CatalogArrives(n, r) => CatalogKeepsLoads(s, n, r);
      case Changed(account, next) => ChangeKeepsLoads(s, account, next);
      case _ =>
    }
  }

  ghost predicate DisplaySound(s: Labels) {
    VerifiedSound(s) && NewestIsUnverified(s)
  }

  /** The one step that verifies: three truthful reads of one revision are reads of one state. */
  lemma RecheckVerifies(s: Labels, n: nat, r: Selectors)
    requires Inv(s) && Possible(s, RecheckArrives(n, r))
    ensures DisplaySound(RecheckReplies(s, n, r))
  {
    assert LoadSound(s.engine, s.loads[n]);
  }

  /** The other replies leave an unverified display unverified, or leave everything shown alone. */
  lemma ReplyVerified(s: Labels, n: nat, r: Selectors)
    requires Inv(s) && n in s.loads
    ensures DisplaySound(FirstReplies(s, n, r)) && DisplaySound(RelistReplies(s, n, r))
  {
    hide EngineRises, LoadsSound;
  }

  lemma CatalogVerified(s: Labels, n: nat, r: Catalog)
    requires Inv(s) && n in s.loads && s.loads[n].wait.ForCatalog?
    ensures DisplaySound(CatalogReplies(s, n, r))
  {
    hide EngineRises, LoadsSound;
  }

  lemma FailureVerified(s: Labels, n: nat)
    requires Inv(s) && n in s.loads
    ensures s.loads[n].wait.Relist? ==> DisplaySound(RelistFails(s, n))
    ensures !s.loads[n].wait.Relist? ==> DisplaySound(CallFails(s, n))
  {
    hide EngineRises, LoadsSound, Inert;
  }

  lemma CommandVerified(s: Labels, e: Event)
    requires Inv(s) && Possible(s, e)
    requires e.AccountsLoaded? || e.Refresh? || e.Edit? || e.EditSettled? || e.Changed?
    ensures DisplaySound(Next(s, e))
  {
    hide EngineRises, LoadsSound;
  }

  lemma NextVerified(s: Labels, e: Event)
    requires Inv(s) && Possible(s, e)
    ensures DisplaySound(Next(s, e))
  {
    hide Inv, DisplaySound, SelectorsAnswer, CatalogAnswers, FirstReplies, CatalogReplies, RecheckReplies, RelistReplies,
      RelistFails, CallFails, EngineChanges, StartLoad;
    match e {
      case FirstArrives(n, r) => ReplyVerified(s, n, r);
      case CatalogArrives(n, r) => CatalogVerified(s, n, r);
      case RecheckArrives(n, r) => RecheckVerifies(s, n, r);
      case Fails(n) => FailureVerified(s, n);
      case RelistArrives(n, r) => ReplyVerified(s, n, r);
      case RelistFailed(n) => FailureVerified(s, n);
      case _ => CommandVerified(s, e);
    }
  }

  lemma NextKeeps(s: Labels, e: Event)
    requires Inv(s) && Possible(s, e)
    ensures Inv(Next(s, e))
  {
    NextEngine(s, e);
    NextLoads(s, e);
    NextVerified(s, e);
    hide Next, EngineRises, LoadsSound;
  }

  lemma {:induction false} HistoryKeeps(s: Labels, events: seq<Event>)
    requires Inv(s) && History(s, events)
    ensures Inv(After(s, events))
    decreases |events|
  {
    hide Inv, Next;
    if events != [] {
      NextKeeps(s, events[0]);
      HistoryKeeps(Next(s, events[0]), events[1..]);
    }
  }

  // ---------------------------------------------------------------------------------------------
  // Whole runs

  /** Whenever the catalog is shown as verified, the newest load for the account in view verified it,
      and its three reads saw one and the same state of the engine: the revision, the watched labels
      and every catalog mark shown belong to that state, and no change fell between the reads. */
  lemma VerifiedShowsOneState(engine: Engine, events: seq<Event>)
    requires EngineRises(engine) && History(Initial(engine), events)
    ensures var s := After(Initial(engine), events);
      s.verified ==>
        && s.scope.Some? && s.evidence.Some? && s.scope.value in s.engine
        && var account, proof := s.scope.value, s.evidence.value;
        && proof.account == account && proof.load == s.sequence
        && proof.first == proof.catalog == proof.last < |s.engine[account]|
        && var shown := s.engine[account][proof.last];
        && s.revision == Some(shown.revision) && s.items.Keys == shown.labels
        && (forall name :: name in s.catalog ==> (s.catalog[name] <==> name in shown.labels))
  {
    HistoryKeeps(Initial(engine), events);
    hide EngineRises, LoadsSound;
  }

  /** A load that is no longer the newest, or whose account left the view, changes nothing but itself. */
  lemma OvertakenLoadsAreSilent(s: Labels, e: Event, n: nat)
    requires Possible(s, e) && n in s.loads && (n != s.sequence || s.loads[n].generation != s.generation)
    requires !(e.AccountsLoaded? || e.Refresh? || e.Edit? || e.EditSettled? || e.Changed?) && e.n == n
    ensures Next(s, e) == Drop(s, n)
  {}

  /** A third reply verifies the display exactly when the guard lets it through, all three reads carry
      one revision and the engine calls its catalog current. */
  lemma VerifiesIff(engine: Engine, events: seq<Event>, n: nat, reply: Selectors)
    requires EngineRises(engine) && History(Initial(engine), events)
    requires Possible(After(Initial(engine), events), RecheckArrives(n, reply))
    ensures var s := After(Initial(engine), events);
      var w := s.loads[n].wait;
      RecheckReplies(s, n, reply).verified && NewestLoad(s, n) <==>
        ScopeMatches(s, n, reply.account) && reply.current && w.first.at == w.catalog.at == reply.at
  {
    HistoryKeeps(Initial(engine), events);
    hide VerifiedSound;
  }

  // ---------------------------------------------------------------------------------------------
  // What loads and edits do

  /** All but the loads, which are those before with one more call out. */
  ghost predicate Calls(s: Labels, t: Labels, n: nat, load: Load) {
    t.loads == s.loads[n := load] && load.asked == Newest(s.engine, load.account) && t.engine == s.engine
  }

  /** A load begins: it is the newest, for the account in view, and nothing counts as verified meanwhile. */
  lemma LoadsBegin(s: Labels)
    ensures
      var t := Next(s, Refresh);
      if s.scope.None? then t == s
      else
        var n := s.sequence + 1;
        && n in t.loads && NewestLoad(t, n) && t.loads[n].account == s.scope.value && t.loads[n].wait.First?
        && Calls(s, t, n, t.loads[n]) && !t.verified
        && t.scope == s.scope && t.revision == s.revision && t.items == s.items && t.catalog == s.catalog && t.mutating == s.mutating
  {}

  /** Where a load stands after the replies it had: its first reply is shown at once, and it goes on to the next call. */
  lemma LoadsGoOn(s: Labels, n: nat, first: Selectors, catalog: Catalog)
    requires n in s.loads
    ensures s.loads[n].wait.First? && ScopeMatches(s, n, first.account) ==>
      var t := FirstReplies(s, n, first);
      && Calls(s, t, n, t.loads[n]) && t.loads[n].wait == ForCatalog(first) && ScopeMatches(t, n, first.account)
      && t.revision == Some(first.revision) && t.items == first.items && t.verified == s.verified && t.catalog == s.catalog
    ensures s.loads[n].wait.ForCatalog? && ScopeMatches(s, n, catalog.account) ==>
      var t := CatalogReplies(s, n, catalog);
      && Calls(s, t, n, t.loads[n]) && t.loads[n].wait == Recheck(s.loads[n].wait.first, catalog) && ScopeMatches(t, n, catalog.account)
      && t.revision == s.revision && t.items == s.items && t.verified == s.verified && t.catalog == s.catalog
  {}

  /** The last reply of the newest load: with three equal revisions and a current catalog all of it is shown as
      verified; otherwise the watched labels are shown alone, with no revision to edit them at. */
  lemma LastReplyIsShown(s: Labels, n: nat, reply: Selectors)
    requires Possible(s, RecheckArrives(n, reply)) && ScopeMatches(s, n, reply.account)
    ensures
      var t, w := Next(s, RecheckArrives(n, reply)), s.loads[n].wait;
      && t.items == reply.items && t.loads == s.loads - {n} && t.scope == s.scope
      && if w.first.revision == reply.revision && w.catalog.revision == reply.revision && reply.current
         then t.verified && t.catalog == w.catalog.selected && t.revision == Some(reply.revision)
         else !t.verified && t.catalog == map[] && t.revision.None?
  {}

  /** A load that nothing disturbs and whose three replies carry one revision, the last with a current catalog, ends
      with its catalog verified and its labels shown. */
  lemma UndisturbedLoadVerifies(s: Labels, first: Selectors, catalog: Catalog, last: Selectors)
    requires s.scope == Some(first.account) && catalog.account == last.account == first.account
    requires first.revision == catalog.revision == last.revision && last.current
    ensures
      var n := s.sequence + 1;
      var begun := StartLoad(s);
      n in begun.loads &&
      var one := FirstReplies(begun, n, first);
      n in one.loads && one.loads[n].wait.ForCatalog? &&
      var two := CatalogReplies(one, n, catalog);
      n in two.loads && two.loads[n].wait.Recheck? &&
      var end := RecheckReplies(two, n, last);
      end.verified && end.items == last.items && end.catalog == catalog.selected && end.revision == Some(last.revision)
  {
    hide FirstReplies, CatalogReplies, RecheckReplies, StartLoad;
    LoadsBegin(s);
    var n, begun := s.sequence + 1, StartLoad(s);
    LoadsGoOn(begun, n, first, catalog);
    var one := FirstReplies(begun, n, first);
    LoadsGoOn(one, n, first, catalog);
    var two := CatalogReplies(one, n, catalog);
    LastReplyShows(two, n, last);
  }

  lemma LastReplyShows(s: Labels, n: nat, reply: Selectors)
    requires n in s.loads && s.loads[n].wait.Recheck? && ScopeMatches(s, n, reply.account)
    requires RefreshIsCurrent(s.loads[n].wait.first, s.loads[n].wait.catalog, reply)
    ensures
      var t := RecheckReplies(s, n, reply);
      t.verified && t.items == reply.items && t.catalog == s.loads[n].wait.catalog.selected && t.revision == Some(reply.revision)
  {}

  /** A newest load that fails: the catalog goes and the labels are listed once more; that list is shown, unverified; if
      it fails too, the labels first read are shown with none of them usable, or none at all. */
  lemma FailedLoadsFallBack(s: Labels, e: Event, n: nat)
    requires Possible(s, e) && n in s.loads && NewestLoad(s, n) && (e == Fails(n) || e == RelistFailed(n)
               || (e.RelistArrives? && e.n == n && ScopeMatches(s, n, e.selectors.account)))
    ensures
      var t := Next(s, e);
      match e
      case Fails(_) =>
        && !t.verified && t.catalog == map[] && Calls(s, t, n, t.loads[n]) && t.items == s.items && t.revision == s.revision
        && t.loads[n].wait == Relist(if s.loads[n].wait.First? then None else Some(s.loads[n].wait.first))
      case RelistArrives(_, reply) =>
        t.loads == s.loads - {n} && t.verified == s.verified && t.revision == Some(reply.revision) && t.items == reply.items
      case RelistFailed(_) =>
        && t.loads == s.loads - {n} && t.verified == s.verified && t.revision.None?
        && (s.loads[n].wait.loaded.None? ==> t.items == map[])
        && (s.loads[n].wait.loaded.Some? ==>
              t.items.Keys == s.loads[n].wait.loaded.value.items.Keys && forall name :: name in t.items ==> !t.items[name])
      case _ => true
  {}

  /** Another account: nothing of the old one is shown, and no load of it is the newest any more. */
  lemma AccountsChange(s: Labels, next: Option<string>)
    requires forall n :: n in s.loads ==> n <= s.sequence
    ensures
      var t := Next(s, AccountsLoaded(next));
      if next == s.scope then t == s
      else
        && t.scope == next && t.revision.None? && !t.verified && !t.mutating && t.catalog == map[] && t.items == map[]
        && t.loads == s.loads && forall n :: n in t.loads ==> !NewestLoad(t, n)
  {}

  /** An edit begins only with a revision to make it at, and one at a time. */
  lemma EditsBegin(s: Labels)
    ensures Next(s, Edit) == s.(mutating := s.mutating || (s.scope.Some? && s.revision.Some?))
  {}

  /** An edit that settles for the account in view has the labels loaded anew; otherwise nothing happens. */
  lemma EditsLoadAnew(s: Labels, generation: nat, clears: bool)
    ensures
      var t := Next(s, EditSettled(generation, clears));
      var edited := (if clears then s.(catalog := map[], revision := None) else s).(mutating := false);
      t == if generation == s.generation then Next(edited, Refresh) else s
  {}
}
