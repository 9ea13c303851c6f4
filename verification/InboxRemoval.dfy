/** The Inbox removal client: prepare, mutate, status and acknowledge calls, with replies that may be
    lost, and recovery of receipts saved by earlier sessions.  Here jobs wait in a queue and one runs at
    a time, between two awaits; `InboxRemovalChains` shows that the client's promise chain is such a queue. */
module InboxRemovals {
  import opened Basics

  datatype Kind = Clear | Delete

  /** A removal known by its key. */
  datatype Request = Request(key: string, kind: Kind, message: Option<string>)

  datatype Receipt = Receipt(completed: bool)

  datatype RecordState = Found(receipt: Receipt) | Missing | Unreadable

  datatype Record = Record(request: Request, state: RecordState)

  datatype Job = Perform(kind: Kind, message: Option<string>) | ReadSaved | ReadOne(request: Request)

  /** What the running job waits for.  `Announcing` and `Publishing` wait for `onChange`. */
  datatype Phase =
    | Preparing(kind: Kind, message: Option<string>)
    | Announcing(request: Request)
    | Mutating(request: Request)
    | Checking(request: Request)
    | Publishing(request: Request, acknowledge: bool)
    | Acknowledging(request: Request)
    | Listing

  /** A running recovery: `waiting` while one of its jobs is queued or runs, and the receipts left to read. */
  datatype Recovery = Recovery(waiting: bool, left: seq<Request>)

  /** What the client did and learned, in order. */
  datatype Entry =
    | PrepareCall(kind: Kind, message: Option<string>)
    | Prepared(key: string)
    | MutateCall(key: string)
    | MutationLost(key: string)
    | StatusCall(key: string)
    | Published(key: string, completed: bool)
    | AcknowledgeCall(key: string)
    | SavedCall

  /** What went over the wire with each call: what was asked to be prepared, the key that came back, and the whole
      request a mutation was sent for or a status was read of.  Its kind picks the command. */
  datatype Wire = Asked(kind: Kind, message: Option<string>) | Got(key: string) | Sent(request: Request) | Checked(request: Request)

  /** `known` is every key the engine has told the client of, by a prepare reply or a saved list, and `listed` every
      receipt of a saved list. */
  datatype Client = Client(records: map<string, Record>, latestClear: Option<string>, queue: seq<Job>,
                           running: Option<Phase>, ofRestore: bool, restoring: Option<Recovery>,
                           known: set<string>, listed: set<Request>, log: seq<Entry>, wire: seq<Wire>)

  function Initial(): Client {
    Client(map[], None, [], None, false, None, {}, {}, [], [])
  }

  function Enqueue(c: Client, job: Job): Client {
    c.(queue := c.queue + [job])
  }

  /** The queue's head starts and makes its first call. */
  function StartJob(c: Client): Client
    requires c.running.None? && c.queue != []
  {
    var d := c.(queue := c.queue[1..]);
    match c.queue[0]
    case Perform(kind, message) =>
      d.(running := Some(Preparing(kind, message)), ofRestore := false, log := c.log + [PrepareCall(kind, message)],
         wire := c.wire + [Asked(kind, message)])
    case ReadSaved => d.(running := Some(Listing), ofRestore := true, log := c.log + [SavedCall])
    case ReadOne(request) =>
      d.(running := Some(Checking(request)), ofRestore := true, log := c.log + [StatusCall(request.key)],
         wire := c.wire + [Checked(request)])
  }

  /** The running job is over; the recovery it belongs to, if any, may go on. */
  function Done(c: Client): Client {
    c.(running := None, ofRestore := false,
       restoring := if c.ofRestore && c.restoring.Some? then Some(c.restoring.value.(waiting := false)) else c.restoring)
  }

  function Mutate(c: Client, request: Request): Client {
    c.(running := Some(Mutating(request)), log := c.log + [MutateCall(request.key)], wire := c.wire + [Sent(request)])
  }

  /** Clear records that came up missing are dropped once a newer Clear has its key. */
  function DropMissingClears(records: map<string, Record>): map<string, Record> {
    map k | k in records && !(records[k].request.kind.Clear? && records[k].state.Missing?) :: records[k]
  }

  function PrepareReplied(c: Client, key: string): Client
    requires c.running.Some? && c.running.value.Preparing?
  {
    var p := c.running.value;
    var request := Request(key, p.kind, p.message);
    var d := c.(known := c.known + {key}, log := c.log + [Prepared(key)], wire := c.wire + [Got(key)]);
    if p.kind.Clear?
    then d.(latestClear := Some(key), records := DropMissingClears(c.records), running := Some(Announcing(request)))
    else Mutate(d, request)
  }

  /** A record is shown; a completed receipt is acknowledged once the display has it. */
  function Publish(c: Client, record: Record): Client {
    var completed := record.state.Found? && record.state.receipt.completed;
    c.(records := c.records[record.request.key := record],
       running := Some(Publishing(record.request, completed)),
       log := c.log + [Published(record.request.key, completed)])
  }

  function CheckStatus(c: Client, request: Request): Client {
    c.(running := Some(Checking(request)), log := c.log + [StatusCall(request.key)], wire := c.wire + [Checked(request)])
  }

  function MutationFailed(c: Client): Client
    requires c.running.Some? && c.running.value.Mutating?
  {
    var request := c.running.value.request;
    CheckStatus(c.(log := c.log + [MutationLost(request.key)]), request)
  }

  /** A status read fails: a superseded Clear that is missing is forgotten, all else is shown. */
  function StatusFailed(c: Client, missing: bool): Client
    requires c.running.Some? && c.running.value.Checking?
  {
    var request := c.running.value.request;
    if missing && request.kind.Clear? && c.latestClear != Some(request.key)
    then c.(records := c.records - {request.key}, running := Some(Publishing(request, false)))
    else Publish(c, Record(request, if missing then Missing else Unreadable))
  }

  function PublishDone(c: Client): Client
    requires c.running.Some? && c.running.value.Publishing?
  {
    var p := c.running.value;
    if p.acknowledge
    then c.(running := Some(Acknowledging(p.request)), log := c.log + [AcknowledgeCall(p.request.key)])
    else Done(c)
  }

  function LastClear(requests: seq<Request>): Option<string> {
    if requests == [] then None
    else if requests[|requests| - 1].kind.Clear? then Some(requests[|requests| - 1].key)
    else LastClear(requests[..|requests| - 1])
  }

  function KeysOf(requests: seq<Request>): set<string> {
    set r | r in requests :: r.key
  }

  function SavedReplied(c: Client, requests: seq<Request>): Client
    requires c.running.Some? && c.running.value.Listing?
  {
    Done(c.(latestClear := if c.latestClear.None? then LastClear(requests) else c.latestClear,
            known := c.known + KeysOf(requests), listed := c.listed + set r | r in requests :: r,
            restoring := Some(Recovery(true, requests))))
  }

  /** `restore`: one recovery at a time. */
  function Restore(c: Client): Client {
    if c.restoring.Some? then c
    else Enqueue(c, ReadSaved).(restoring := Some(Recovery(true, [])))
  }

  /** The recovery goes on between its jobs: it queues the next read, or it is over. */
  function RecoveryGoesOn(c: Client): Client
    requires c.restoring.Some? && !c.restoring.value.waiting
  {
    var left := c.restoring.value.left;
    if left == [] then c.(restoring := None)
    else Enqueue(c, ReadOne(left[0])).(restoring := Some(Recovery(true, left[1..])))
  }

  datatype Event =
    | ClearPressed
    | DeletePressed(message: string)
    | RestoreAsked
    | JobStarts
    | RecoveryContinues
    | PrepareArrives(key: string)
    | PrepareFails
    | AnnounceDone
    | MutationArrives(receipt: Receipt)
    | MutationFails
    | StatusArrives(receipt: Receipt)
    | StatusFails(missing: bool)
    | PublishArrives
    | AcknowledgeSettles
    | SavedArrives(requests: seq<Request>)
    | SavedFails

  predicate Waits(c: Client, e: Event) {
    c.running.Some? &&
    match e
    case PrepareArrives(key) => c.running.value.Preparing? && key !in c.known
    case PrepareFails => c.running.value.Preparing?
    case AnnounceDone => c.running.value.Announcing?
    case MutationArrives(_) => c.running.value.Mutating?
    case MutationFails => c.running.value.Mutating?
    case StatusArrives(_) => c.running.value.Checking?
    case StatusFails(_) => c.running.value.Checking?
    case PublishArrives => c.running.value.Publishing?
    case AcknowledgeSettles => c.running.value.Acknowledging?
    case SavedArrives(_) => c.running.value.Listing?
    case SavedFails => c.running.value.Listing?
    case _ => false
  }

  /** Replies come to the call that is out; the engine's new keys are new; all else is always possible. */
  predicate Possible(c: Client, e: Event) {
    match e
    case ClearPressed => true
    case DeletePressed(_) => true
    case RestoreAsked => true
    case JobStarts => c.running.None? && c.queue != []
    case RecoveryContinues => c.restoring.Some? && !c.restoring.value.waiting
    case _ => Waits(c, e)
  }

  function Next(c: Client, e: Event): Client
    requires Possible(c, e)
  {
    match e
    case ClearPressed => Enqueue(c, Perform(Clear, None))
    case DeletePressed(m) => Enqueue(c, Perform(Delete, Some(m)))
    case RestoreAsked => Restore(c)
    case JobStarts => StartJob(c)
    case RecoveryContinues => RecoveryGoesOn(c)
    case PrepareArrives(key) => PrepareReplied(c, key)
    case PrepareFails => Done(c)
    case AnnounceDone => Mutate(c, c.running.value.request)
    case MutationArrives(receipt) => Publish(c, Record(c.running.value.request, Found(receipt)))
    case MutationFails => MutationFailed(c)
    case StatusArrives(receipt) => Publish(c, Record(c.running.value.request, Found(receipt)))
    case StatusFails(missing) => StatusFailed(c, missing)
    case PublishArrives => PublishDone(c)
    case AcknowledgeSettles => Done(c)
    case SavedArrives(requests) => SavedReplied(c, requests)
    case SavedFails => Done(c)
  }

  ghost predicate History(c: Client, events: seq<Event>)
    decreases |events|
  {
    events == [] || (Possible(c, events[0]) && History(Next(c, events[0]), events[1..]))
  }

  ghost function After(c: Client, events: seq<Event>): Client
    requires History(c, events)
    decreases |events|
  {
    if events == [] then c else After(Next(c, events[0]), events[1..])
  }

  // ---------------------------------------------------------------------------------------------
  // The invariant

  /** A key the client prepared is out of the way of status reads: its mutation has been called. */
  ghost predicate Dispatched(c: Client, key: string) {
    Prepared(key) in c.log ==> MutateCall(key) in c.log
  }

  ghost predicate Readable(c: Client, request: Request) {
    request.key in c.known && Dispatched(c, request.key)
  }

  ghost predicate LogKnown(c: Client) {
    && (forall k :: Prepared(k) in c.log ==> k in c.known)
    && (forall k :: StatusCall(k) in c.log ==> k in c.known)
    && (forall k :: MutateCall(k) in c.log ==> k in c.known)
  }

  /** The status reads still to come are of readable keys. */
  ghost predicate ReadsKnown(c: Client) {
    && (forall j :: j in c.queue && j.ReadOne? ==> Readable(c, j.request))
    && (forall j :: j in c.queue && j.Perform? && j.kind.Clear? ==> j.message.None?)
    && (c.restoring.Some? ==> forall r :: r in c.restoring.value.left ==> Readable(c, r))
  }

  ghost predicate KeysKnown(c: Client) {
    LogKnown(c) && ReadsKnown(c)
  }

  /** Between prepare and mutation lies only the announcement of a Clear. */
  ghost predicate PreparedDispatched(c: Client) {
    forall k :: Prepared(k) in c.log && c.running != Some(Announcing(Request(k, Clear, None))) ==> MutateCall(k) in c.log
  }

  ghost predicate RunningSound(c: Client) {
    c.running.Some? ==>
      match c.running.value
      case Preparing(kind, message) => kind.Clear? ==> message.None?
      case Announcing(r) =>
        && r.kind.Clear? && r.message.None? && r.key in c.known
        && Prepared(r.key) in c.log && MutateCall(r.key) !in c.log && StatusCall(r.key) !in c.log
      case Mutating(r) => r.key in c.known && MutateCall(r.key) in c.log
      case Checking(r) => Readable(c, r)
      case Publishing(r, ack) => ack ==> Published(r.key, true) in c.log
      case _ => true
  }

  ghost predicate PhaseSound(c: Client) {
    PreparedDispatched(c) && RunningSound(c)
  }

  ghost predicate MutatedOnce(log: seq<Entry>) {
    forall i, j :: 0 <= i < j < |log| && log[i].MutateCall? && log[j].MutateCall? ==> log[i].key != log[j].key
  }

  ghost predicate MutatesPrepared(log: seq<Entry>) {
    forall j :: 0 <= j < |log| && log[j].MutateCall? ==> Prepared(log[j].key) in log[..j]
  }

  ghost predicate StatusAfterMutation(log: seq<Entry>) {
    forall j :: 0 <= j < |log| && log[j].StatusCall? && Prepared(log[j].key) in log ==> MutateCall(log[j].key) in log[..j]
  }

  ghost predicate AcknowledgesPublished(log: seq<Entry>) {
    forall j :: 0 <= j < |log| && log[j].AcknowledgeCall? ==> Published(log[j].key, true) in log[..j]
  }

  /** Entries that open a job. */
  predicate Opens(e: Entry) {
    e.PrepareCall? || e.SavedCall? || e.StatusCall?
  }

  /** Entries after which a job may be over. */
  predicate Closes(e: Entry) {
    match e
    case Prepared(_) => false
    case MutateCall(_) => false
    case MutationLost(_) => false
    case Published(_, completed) => !completed
    case _ => true
  }

  /** What may come right after an entry: a job that may be over gives way to a new one, or it goes
      on with the key it holds. */
  predicate MayFollow(a: Entry, b: Entry) {
    || (Closes(a) && Opens(b))
    || match a
       case PrepareCall(_, _) => b.Prepared?
       case Prepared(k) => b == MutateCall(k)
       case MutateCall(k) => b == MutationLost(k) || (b.Published? && b.key == k)
       case MutationLost(k) => b == StatusCall(k)
       case StatusCall(k) => b.Published? && b.key == k
       case Published(k, completed) => completed && b == AcknowledgeCall(k)
       case _ => false
  }

  /** One job at a time, each in the order prepare, mutation, status, display, acknowledgement. */
  ghost predicate InJobOrder(log: seq<Entry>) {
    (log != [] ==> Opens(log[0])) && forall i :: 0 <= i < |log| - 1 ==> MayFollow(log[i], log[i + 1])
  }

  predicate WaitsOn(p: Phase, last: Entry) {
    match p
    case Preparing(kind, message) => last == PrepareCall(kind, message)
    case Announcing(r) => last == Prepared(r.key)
    case Mutating(r) => last == MutateCall(r.key)
    case Checking(r) => last == StatusCall(r.key)
    case Publishing(r, ack) => last == Published(r.key, ack) || (!ack && last == StatusCall(r.key))
    case Acknowledging(r) => last == AcknowledgeCall(r.key)
    case Listing => last == SavedCall
  }

  /** The last entry is the call the running job waits on. */
  ghost predicate LastIsRunning(c: Client) {
    match c.running
    case None => c.log == [] || Closes(c.log[|c.log| - 1])
    case Some(p) => c.log != [] && WaitsOn(p, c.log[|c.log| - 1])
  }

  ghost predicate LogSound(log: seq<Entry>) {
    MutatedOnce(log) && MutatesPrepared(log) && StatusAfterMutation(log) && AcknowledgesPublished(log)
  }

  /** Records sit under their keys, and only the newest Clear may be on record as missing. */
  ghost predicate RecordsSound(records: map<string, Record>, latestClear: Option<string>) {
    forall k :: k in records ==>
      && records[k].request.key == k
      && (records[k].request.kind.Clear? && records[k].state.Missing? ==> latestClear == Some(k))
  }

  ghost predicate OneMissingClear(c: Client) {
    RecordsSound(c.records, c.latestClear)
  }

  ghost predicate Inv(c: Client) {
    KeysKnown(c) && PhaseSound(c) && LogSound(c.log) && OneMissingClear(c) && InJobOrder(c.log) && LastIsRunning(c)
  }

  // ---------------------------------------------------------------------------------------------
  // The log

  /** What an entry needs of the log it is appended to. */
  ghost predicate Admits(log: seq<Entry>, e: Entry) {
    match e
    case MutateCall(k) => Prepared(k) in log && MutateCall(k) !in log
    case StatusCall(k) => Prepared(k) in log ==> MutateCall(k) in log
    case AcknowledgeCall(k) => Published(k, true) in log
    case Prepared(k) => StatusCall(k) !in log
    case _ => true
  }

  lemma StatusGrows(log: seq<Entry>, e: Entry)
    requires StatusAfterMutation(log) && Admits(log, e)
    ensures StatusAfterMutation(log + [e])
  {
    var next := log + [e];
    forall j | 0 <= j < |next| && next[j].StatusCall? && Prepared(next[j].key) in next
      ensures MutateCall(next[j].key) in next[..j]
    {
      if j < |log| {
        assert next[j] == log[j] && next[..j] == log[..j] && log[j] in log;
        assert Prepared(log[j].key) in log;
      } else {
        assert next[..j] == log;
      }
    }
  }

  lemma MutationsGrow(log: seq<Entry>, e: Entry)
    requires MutatedOnce(log) && MutatesPrepared(log) && AcknowledgesPublished(log) && Admits(log, e)
    ensures MutatedOnce(log + [e]) && MutatesPrepared(log + [e]) && AcknowledgesPublished(log + [e])
  {
    var next := log + [e];
    assert next[..|log|] == log;
    forall j | 0 <= j < |log| ensures next[j] == log[j] && next[..j] == log[..j] {}
    forall i, j | 0 <= i < j < |next| && next[i].MutateCall? && next[j].MutateCall? ensures next[i].key != next[j].key {
      if j == |log| { assert log[i] in log; }
    }
  }

  lemma LogGrows(log: seq<Entry>, e: Entry)
    requires LogSound(log) && Admits(log, e)
    ensures LogSound(log + [e])
  {
    hide MutatedOnce, MutatesPrepared, AcknowledgesPublished, StatusAfterMutation;
    StatusGrows(log, e);
    MutationsGrow(log, e);
  }

  lemma StartLog(c: Client)
    requires Inv(c) && Possible(c, JobStarts)
    ensures LogSound(StartJob(c).log)
  {
    hide LogSound, OneMissingClear, InJobOrder, LastIsRunning, PhaseSound;
    assert c.queue[0] in c.queue;
    LogGrows(c.log, StartJob(c).log[|c.log|]);
  }

  lemma PrepareLog(c: Client, key: string)
    requires Inv(c) && Possible(c, PrepareArrives(key))
    ensures LogSound(PrepareReplied(c, key).log)
  {
    hide LogSound, OneMissingClear, InJobOrder, LastIsRunning, PhaseSound, ReadsKnown, DropMissingClears;
    LogGrows(c.log, Prepared(key));
    if c.running.value.kind.Delete? { LogGrows(c.log + [Prepared(key)], MutateCall(key)); }
  }

  lemma PublishLog(log: seq<Entry>, key: string, completed: bool)
    requires LogSound(log)
    ensures LogSound(log + [Published(key, completed)])
  {
    hide LogSound;
    LogGrows(log, Published(key, completed));
  }

  lemma NextLog(c: Client, e: Event)
    requires Inv(c) && Possible(c, e)
    ensures LogSound(Next(c, e).log)
  {
    hide LogSound, OneMissingClear, InJobOrder, LastIsRunning, KeysKnown, PreparedDispatched, StartJob, PrepareReplied,
      MutationFailed, KeysOf, LastClear;
    match e {
      case JobStarts => StartLog(c);
      case PrepareArrives(key) => PrepareLog(c, key);
      case AnnounceDone => LogGrows(c.log, MutateCall(c.running.value.request.key));
      case MutationFails => LostLog(c);
      case MutationArrives(receipt) => PublishLog(c.log, c.running.value.request.key, receipt.completed);
      case StatusArrives(receipt) => PublishLog(c.log, c.running.value.request.key, receipt.completed);
      case StatusFails(_) => PublishLog(c.log, c.running.value.request.key, false);
      case PublishArrives =>
        if c.running.value.acknowledge { LogGrows(c.log, AcknowledgeCall(c.running.value.request.key)); }
      case _ =>
    }
  }

  lemma LostLog(c: Client)
    requires Inv(c) && Possible(c, MutationFails)
    ensures LogSound(MutationFailed(c).log)
  {
    hide LogSound, OneMissingClear, InJobOrder, LastIsRunning, KeysKnown;
    var key := c.running.value.request.key;
    LogGrows(c.log, MutationLost(key));
    LogGrows(c.log + [MutationLost(key)], StatusCall(key));
  }

  lemma StaysReadable(c: Client, e: Event, request: Request)
    requires Inv(c) && Possible(c, e) && Readable(c, request)
    ensures Readable(Next(c, e), request)
  {
    hide LogSound, OneMissingClear, InJobOrder, LastIsRunning, KeysKnown, PhaseSound;
  }

  lemma SavedAreReadable(c: Client, requests: seq<Request>, request: Request)
    requires Inv(c) && Possible(c, SavedArrives(requests)) && request in requests
    ensures Readable(SavedReplied(c, requests), request)
  {
    hide LogSound, OneMissingClear, InJobOrder, LastIsRunning, KeysKnown;
    assert request.key in KeysOf(requests);
  }

  lemma StartLogKnown(c: Client)
    requires Inv(c) && Possible(c, JobStarts)
    ensures LogKnown(StartJob(c))
  {
    hide LogSound, OneMissingClear, InJobOrder, LastIsRunning, PhaseSound, Dispatched;
    assert c.queue[0] in c.queue;
  }

  lemma PrepareLogKnown(c: Client, key: string)
    requires Inv(c) && Possible(c, PrepareArrives(key))
    ensures LogKnown(PrepareReplied(c, key))
  {
    hide LogSound, OneMissingClear, InJobOrder, LastIsRunning, PhaseSound, ReadsKnown, DropMissingClears;
  }

  lemma NextLogKnown(c: Client, e: Event)
    requires Inv(c) && Possible(c, e)
    ensures LogKnown(Next(c, e))
  {
    hide LogSound, OneMissingClear, InJobOrder, LastIsRunning, Dispatched, PreparedDispatched, ReadsKnown, StartJob,
      PrepareReplied, KeysOf, LastClear;
    if e.JobStarts? { StartLogKnown(c); }
    else if e.PrepareArrives? { PrepareLogKnown(c, e.key); }
  }

  lemma NextReadsKnown(c: Client, e: Event)
    requires Inv(c) && Possible(c, e)
    ensures ReadsKnown(Next(c, e))
  {
    hide LogSound, OneMissingClear, InJobOrder, LastIsRunning, LogKnown, PhaseSound, Readable;
    var d := Next(c, e);
    forall r | Readable(c, r) ensures Readable(d, r) { StaysReadable(c, e, r); }
    if e.SavedArrives? {
      forall r | r in e.requests ensures Readable(d, r) { SavedAreReadable(c, e.requests, r); }
    }
  }

  lemma NextKnown(c: Client, e: Event)
    requires Inv(c) && Possible(c, e)
    ensures KeysKnown(Next(c, e))
  {
    hide LogSound, OneMissingClear, InJobOrder, LastIsRunning, LogKnown, ReadsKnown, PhaseSound;
    NextLogKnown(c, e);
    NextReadsKnown(c, e);
  }

  lemma NextPrepared(c: Client, e: Event)
    requires Inv(c) && Possible(c, e)
    ensures PreparedDispatched(Next(c, e))
  {
    hide LogSound, OneMissingClear, InJobOrder, LastIsRunning, KeysKnown;
  }

  lemma NextRunning(c: Client, e: Event)
    requires Inv(c) && Possible(c, e)
    ensures RunningSound(Next(c, e))
  {
    hide LogSound, OneMissingClear, InJobOrder, LastIsRunning, PreparedDispatched;
  }

  lemma NextPhase(c: Client, e: Event)
    requires Inv(c) && Possible(c, e)
    ensures PhaseSound(Next(c, e))
  {
    hide LogSound, OneMissingClear, InJobOrder, LastIsRunning, KeysKnown, PreparedDispatched, RunningSound;
    NextPrepared(c, e);
    NextRunning(c, e);
  }

  lemma NextRecords(c: Client, e: Event)
    requires Inv(c) && Possible(c, e)
    ensures OneMissingClear(Next(c, e))
  {
    hide LogSound, KeysKnown, PhaseSound, InJobOrder, LastIsRunning;
  }

  lemma OrderGrows(log: seq<Entry>, e: Entry)
    requires InJobOrder(log) && (if log == [] then Opens(e) else MayFollow(log[|log| - 1], e))
    ensures InJobOrder(log + [e])
  {
    var next := log + [e];
    forall i | 0 <= i < |next| - 1 ensures MayFollow(next[i], next[i + 1]) {
      if i + 1 < |log| { assert next[i] == log[i] && next[i + 1] == log[i + 1]; }
    }
  }

  lemma NextLast(c: Client, e: Event)
    requires Inv(c) && Possible(c, e)
    ensures LastIsRunning(Next(c, e))
  {
    hide LogSound, KeysKnown, PhaseSound, OneMissingClear, InJobOrder, DropMissingClears, KeysOf, LastClear;
  }

  lemma NextInOrder(c: Client, e: Event)
    requires Inv(c) && Possible(c, e)
    ensures InJobOrder(Next(c, e).log)
  {
    hide LogSound, KeysKnown, PhaseSound, OneMissingClear, InJobOrder;
    var d := Next(c, e);
    match e {
      case PrepareArrives(key) =>
        OrderGrows(c.log, Prepared(key));
        if c.running.value.kind.Delete? { OrderGrows(c.log + [Prepared(key)], MutateCall(key)); }
      case MutationFails =>
        var key := c.running.value.request.key;
        OrderGrows(c.log, MutationLost(key));
        OrderGrows(c.log + [MutationLost(key)], StatusCall(key));
      case JobStarts => OrderGrows(c.log, d.log[|c.log|]);
      case AnnounceDone => OrderGrows(c.log, d.log[|c.log|]);
      case MutationArrives(_) => OrderGrows(c.log, d.log[|c.log|]);
      case StatusArrives(_) => OrderGrows(c.log, d.log[|c.log|]);
      case StatusFails(_) => if d.log != c.log { OrderGrows(c.log, d.log[|c.log|]); }
      case PublishArrives => if d.log != c.log { OrderGrows(c.log, d.log[|c.log|]); }
      case _ =>
    }
  }

  lemma NextKeeps(c: Client, e: Event)
    requires Inv(c) && Possible(c, e)
    ensures Inv(Next(c, e))
  {
    NextLog(c, e);
    NextKnown(c, e);
    NextPhase(c, e);
    NextRecords(c, e);
    NextInOrder(c, e);
    NextLast(c, e);
    hide LogSound, KeysKnown, PhaseSound, OneMissingClear, InJobOrder, LastIsRunning;
  }

  lemma {:induction false} HistoryKeeps(c: Client, events: seq<Event>)
    requires Inv(c) && History(c, events)
    ensures Inv(After(c, events))
    decreases |events|
  {
    hide Inv, Next;
    if events != [] {
      NextKeeps(c, events[0]);
      HistoryKeeps(Next(c, events[0]), events[1..]);
    }
  }

  // ---------------------------------------------------------------------------------------------
  // Whole runs

  lemma InitialInv()
    ensures Inv(Initial())
  {}

  /** In every run each key is mutated at most once and only after its own prepare, no status read of
      a prepared key comes before its mutation, and a key is acknowledged only once a completed
      receipt for it is on display. */
  lemma SafeInQueue(events: seq<Event>)
    requires History(Initial(), events)
    ensures var log := After(Initial(), events).log;
      && (forall i, j :: 0 <= i < j < |log| && log[i].MutateCall? && log[j].MutateCall? ==> log[i].key != log[j].key)
      && (forall j :: 0 <= j < |log| && log[j].MutateCall? ==> Prepared(log[j].key) in log[..j])
      && (forall j :: 0 <= j < |log| && log[j].StatusCall? && Prepared(log[j].key) in log ==> MutateCall(log[j].key) in log[..j])
      && (forall j :: 0 <= j < |log| && log[j].AcknowledgeCall? ==> Published(log[j].key, true) in log[..j])
  {
    InitialInv();
    HistoryKeeps(Initial(), events);
    hide KeysKnown, PhaseSound, OneMissingClear, InJobOrder, LastIsRunning;
  }

  /** The mutex: however presses, recoveries and replies interleave, the calls of two jobs never mix.
      In particular a lost mutation reply is followed at once by a status read of the same key. */
  lemma UnmixedInQueue(events: seq<Event>)
    requires History(Initial(), events)
    ensures var log := After(Initial(), events).log;
      && InJobOrder(log)
      && (forall i, k :: 0 <= i < |log| && log[i] == MutationLost(k) ==>
            i + 1 < |log| && log[i + 1] == StatusCall(k) && MutateCall(k) !in log[i..])
  {
    InitialInv();
    HistoryKeeps(Initial(), events);
    hide KeysKnown, PhaseSound, OneMissingClear, After;
    var c := After(Initial(), events);
    forall i, k | 0 <= i < |c.log| && c.log[i] == MutationLost(k)
      ensures i + 1 < |c.log| && c.log[i + 1] == StatusCall(k) && MutateCall(k) !in c.log[i..]
    {
      LostOnlyAfterMutation(c, i);
    }
  }

  /** A lost reply is one of the mutation just called. */
  lemma LostOnlyAfterMutation(c: Client, i: nat)
    requires LogSound(c.log) && InJobOrder(c.log) && LastIsRunning(c)
    requires i < |c.log| && c.log[i].MutationLost?
    ensures 0 < i && c.log[i - 1] == MutateCall(c.log[i].key)
    ensures i + 1 < |c.log| && c.log[i + 1] == StatusCall(c.log[i].key)
    ensures MutateCall(c.log[i].key) !in c.log[i..]
  {
    hide MutatesPrepared, StatusAfterMutation, AcknowledgesPublished;
    assert 0 < i;
    assert MayFollow(c.log[i - 1], c.log[i - 1 + 1]);
    forall j | i <= j < |c.log| ensures c.log[j] != MutateCall(c.log[i].key) {}
  }

  /** In every reachable state at most one Clear is on record as missing, and it is the newest Clear. */
  lemma OneMissingInQueue(events: seq<Event>)
    requires History(Initial(), events)
    ensures var c := After(Initial(), events);
      && (forall k :: k in c.records && c.records[k].request.kind.Clear? && c.records[k].state.Missing? ==>
            c.latestClear == Some(k) && c.records[k].request.key == k)
      && |set k | k in c.records && c.records[k].request.kind.Clear? && c.records[k].state.Missing?| <= 1
  {
    InitialInv();
    HistoryKeeps(Initial(), events);
    hide KeysKnown, PhaseSound, LogSound, InJobOrder, LastIsRunning;
    var c := After(Initial(), events);
    var missing := set k | k in c.records && c.records[k].request.kind.Clear? && c.records[k].state.Missing?;
    if k :| k in missing {
      assert missing == {k};
    }
  }

  // ---------------------------------------------------------------------------------------------
  // Recovery

  predicate RestoreJob(j: Job) {
    j.ReadSaved? || j.ReadOne?
  }

  /** No job of a recovery is queued or runs. */
  ghost predicate Quiet(c: Client) {
    !c.ofRestore && forall j :: j in c.queue ==> !RestoreJob(j)
  }

  /** A recovery has at most one job at a time, and none between its reads. */
  ghost predicate OneRestoreJob(c: Client) {
    && (c.ofRestore ==> c.running.Some? && forall j :: j in c.queue ==> !RestoreJob(j))
    && (forall i, j :: 0 <= i < j < |c.queue| && RestoreJob(c.queue[i]) ==> !RestoreJob(c.queue[j]))
    && (c.running == Some(Listing) ==> c.ofRestore)
    && (c.restoring.None? || !c.restoring.value.waiting ==> Quiet(c))
    && (c.running == Some(Listing) || ReadSaved in c.queue ==> c.restoring.Some? && c.restoring.value.left == [])
  }

  /** A saved receipt that is still to be read. */
  ghost predicate Owes(c: Client, request: Request) {
    (c.restoring.Some? && request in c.restoring.value.left) || ReadOne(request) in c.queue
  }

  lemma StartKeepsOneJob(c: Client)
    requires OneRestoreJob(c) && Possible(c, JobStarts)
    ensures OneRestoreJob(StartJob(c))
  {
    var rest := c.queue[1..];
    assert c.queue == [c.queue[0]] + rest;
    forall j | j in rest ensures j in c.queue && (RestoreJob(c.queue[0]) ==> !RestoreJob(j)) {
      var i :| 0 <= i < |rest| && rest[i] == j;
      assert c.queue[i + 1] == j;
    }
    assert c.queue[0] in c.queue;
    assert ReadSaved in rest ==> ReadSaved in c.queue;
  }

  lemma PrepareLeavesJobs(c: Client, key: string)
    requires OneRestoreJob(c) && Possible(c, PrepareArrives(key))
    ensures OneRestoreJob(PrepareReplied(c, key))
  {
    hide DropMissingClears;
  }

  lemma MutationLeavesJobs(c: Client)
    requires OneRestoreJob(c) && Possible(c, MutationFails)
    ensures OneRestoreJob(MutationFailed(c))
  {}

  lemma NextOneRestoreJob(c: Client, e: Event)
    requires OneRestoreJob(c) && Possible(c, e)
    ensures OneRestoreJob(Next(c, e))
  {
    hide StartJob, KeysOf, LastClear, PrepareReplied, MutationFailed;
    if e.JobStarts? { StartKeepsOneJob(c); }
    else if e.PrepareArrives? { PrepareLeavesJobs(c, e.key); }
    else if e.MutationFails? { MutationLeavesJobs(c); }
  }

  /** A read that is owed stays owed until the very step that makes its status call. */
  lemma OwedUntilAsked(c: Client, e: Event, request: Request)
    requires OneRestoreJob(c) && Possible(c, e) && Owes(c, request)
    ensures Owes(Next(c, e), request) || Next(c, e).log == c.log + [StatusCall(request.key)]
  {
    hide DropMissingClears, KeysOf, LastClear;
    assert c.queue != [] ==> c.queue == [c.queue[0]] + c.queue[1..];
    if c.restoring.Some? && c.restoring.value.left != [] {
      assert c.restoring.value.left == [c.restoring.value.left[0]] + c.restoring.value.left[1..];
    }
  }

  lemma NextExtends(c: Client, e: Event)
    requires Possible(c, e)
    ensures c.log <= Next(c, e).log
  {
    hide DropMissingClears, KeysOf, LastClear;
  }

  lemma {:induction false} HistoryExtends(c: Client, events: seq<Event>)
    requires History(c, events)
    ensures c.log <= After(c, events).log
    decreases |events|
  {
    hide Next;
    if events != [] {
      NextExtends(c, events[0]);
      HistoryExtends(Next(c, events[0]), events[1..]);
    }
  }

  lemma {:induction false} HistoryOneRestoreJob(c: Client, events: seq<Event>)
    requires OneRestoreJob(c) && History(c, events)
    ensures OneRestoreJob(After(c, events))
    decreases |events|
  {
    hide Next, OneRestoreJob;
    if events != [] {
      NextOneRestoreJob(c, events[0]);
      HistoryOneRestoreJob(Next(c, events[0]), events[1..]);
    }
  }

  lemma {:induction false} OwedIsAsked(c: Client, events: seq<Event>, request: Request)
    requires OneRestoreJob(c) && Owes(c, request) && History(c, events)
    ensures c.log <= After(c, events).log
    ensures Owes(After(c, events), request) || StatusCall(request.key) in After(c, events).log[|c.log|..]
    decreases |events|
  {
    hide Next, OneRestoreJob, Owes;
    HistoryExtends(c, events);
    if events != [] {
      var d, end := Next(c, events[0]), After(c, events);
      NextOneRestoreJob(c, events[0]);
      NextExtends(c, events[0]);
      HistoryExtends(d, events[1..]);
      OwedUntilAsked(c, events[0], request);
      if Owes(d, request) {
        OwedIsAsked(d, events[1..], request);
        assert end.log[|c.log|..] == end.log[|c.log|..|d.log|] + end.log[|d.log|..];
      } else {
        assert end.log[|c.log|] == StatusCall(request.key);
        assert end.log[|c.log|..][0] == StatusCall(request.key);
      }
    }
  }

  /** Recovery reads every receipt: once a list of saved receipts has arrived and no recovery is under way
      any more, each of them has been read by status since, whatever presses and failures came between. */
  lemma RecoveredInQueue(before: seq<Event>, requests: seq<Request>, after: seq<Event>)
    requires History(Initial(), before) && Possible(After(Initial(), before), SavedArrives(requests))
    requires History(SavedReplied(After(Initial(), before), requests), after)
    requires After(SavedReplied(After(Initial(), before), requests), after).restoring.None?
    ensures
      var listed := SavedReplied(After(Initial(), before), requests);
      var end := After(listed, after);
      && |listed.log| <= |end.log|
      && forall r :: r in requests ==> StatusCall(r.key) in end.log[|listed.log|..]
  {
    var c := After(Initial(), before);
    var listed := SavedReplied(c, requests);
    var end := After(listed, after);
    HistoryOneRestoreJob(Initial(), before);
    NextOneRestoreJob(c, SavedArrives(requests));
    HistoryOneRestoreJob(listed, after);
    HistoryExtends(listed, after);
    hide SavedReplied, After;
    forall r | r in requests ensures StatusCall(r.key) in end.log[|listed.log|..] {
      SavedIsOwed(c, requests, r);
      OwedIsAsked(listed, after, r);
    }
  }

  lemma SavedIsOwed(c: Client, requests: seq<Request>, r: Request)
    requires c.running == Some(Listing) && r in requests
    ensures Owes(SavedReplied(c, requests), r)
  {
    hide KeysOf, LastClear;
  }

  // ---------------------------------------------------------------------------------------------
  // Presses

  /** Something the user asked for: Clear, or Delete of a message. */
  datatype Press = Press(kind: Kind, message: Option<string>)

  function PressOf(e: Event): seq<Press> {
    match e
    case ClearPressed => [Press(Clear, None)]
    case DeletePressed(m) => [Press(Delete, Some(m))]
    case _ => []
  }

  function PressesOf(events: seq<Event>): seq<Press> {
    if events == [] then [] else PressOf(events[0]) + PressesOf(events[1..])
  }

  /** The presses that have been prepared, in order. */
  function Answered(log: seq<Entry>): seq<Press> {
    if log == [] then []
    else
      var last := log[|log| - 1];
      Answered(log[..|log| - 1]) + (if last.PrepareCall? then [Press(last.kind, last.message)] else [])
  }

  /** The presses still in the queue, in order. */
  function Waiting(queue: seq<Job>): seq<Press> {
    if queue == [] then []
    else
      var last := queue[|queue| - 1];
      Waiting(queue[..|queue| - 1]) + (if last.Perform? then [Press(last.kind, last.message)] else [])
  }

  function Taken(c: Client): seq<Press> {
    Answered(c.log) + Waiting(c.queue)
  }

  lemma AnsweredGrows(log: seq<Entry>, e: Entry)
    ensures Answered(log + [e]) == Answered(log) + (if e.PrepareCall? then [Press(e.kind, e.message)] else [])
  {
    assert (log + [e])[..|log|] == log;
  }

  lemma WaitingGrows(queue: seq<Job>, j: Job)
    ensures Waiting(queue + [j]) == Waiting(queue) + (if j.Perform? then [Press(j.kind, j.message)] else [])
  {
    assert (queue + [j])[..|queue|] == queue;
  }

  lemma {:induction false} WaitingShrinks(queue: seq<Job>)
    requires queue != []
    ensures Waiting(queue) == (if queue[0].Perform? then [Press(queue[0].kind, queue[0].message)] else []) + Waiting(queue[1..])
  {
    if |queue| > 1 {
      var less := queue[..|queue| - 1];
      WaitingShrinks(less);
      assert less[1..] == queue[1..][..|queue[1..]| - 1];
    }
  }

  lemma StartTakes(c: Client)
    requires Possible(c, JobStarts)
    ensures Taken(StartJob(c)) == Taken(c)
  {
    hide Answered, Waiting;
    var d := StartJob(c);
    var e := d.log[|c.log|];
    assert d.log == c.log + [e] && d.queue == c.queue[1..];
    WaitingShrinks(c.queue);
    AnsweredGrows(c.log, e);
    var head := if c.queue[0].Perform? then [Press(c.queue[0].kind, c.queue[0].message)] else [];
    assert Answered(d.log) == Answered(c.log) + head && Waiting(c.queue) == head + Waiting(d.queue);
  }

  /** Presses and recoveries wait in the queue, and the log is as it was. */
  lemma QueueTakes(c: Client, e: Event)
    requires Possible(c, e) && (e.ClearPressed? || e.DeletePressed? || e.RestoreAsked? || e.RecoveryContinues?)
    ensures Taken(Next(c, e)) == Taken(c) + PressOf(e)
  {
    hide Answered, Waiting;
    match e {
      case ClearPressed => WaitingGrows(c.queue, Perform(Clear, None));
      case DeletePressed(m) => WaitingGrows(c.queue, Perform(Delete, Some(m)));
      case RestoreAsked => WaitingGrows(c.queue, ReadSaved);
      case RecoveryContinues =>
        if c.restoring.value.left != [] { WaitingGrows(c.queue, ReadOne(c.restoring.value.left[0])); }
    }
  }

  /** Two more entries at most, and no prepare call among them. */
  lemma LogTakes(c: Client, d: Client, x: Entry, y: Entry)
    requires !x.PrepareCall? && !y.PrepareCall? && d.queue == c.queue
    requires d.log == c.log || d.log == c.log + [x] || d.log == c.log + [x] + [y]
    ensures Taken(d) == Taken(c)
  {
    AnsweredGrows(c.log, x);
    AnsweredGrows(c.log + [x], y);
    hide Answered, Waiting;
  }

  lemma ReplyTakes(c: Client, e: Event)
    requires Waits(c, e)
    ensures Taken(Next(c, e)) == Taken(c)
  {
    hide Taken, DropMissingClears, KeysOf, LastClear;
    var d := Next(c, e);
    if |d.log| == |c.log| {
      LogTakes(c, d, SavedCall, SavedCall);
    } else {
      var x := d.log[|c.log|];
      LogTakes(c, d, x, if |d.log| == |c.log| + 2 then d.log[|c.log| + 1] else x);
    }
  }

  lemma NextTakes(c: Client, e: Event)
    requires Possible(c, e)
    ensures Taken(Next(c, e)) == Taken(c) + PressOf(e)
  {
    if e.JobStarts? {
      StartTakes(c);
    } else if e.ClearPressed? || e.DeletePressed? || e.RestoreAsked? || e.RecoveryContinues? {
      QueueTakes(c, e);
    } else {
      ReplyTakes(c, e);
    }
    hide Next, Taken;
  }

  lemma {:induction false} HistoryTakes(c: Client, events: seq<Event>)
    requires History(c, events)
    ensures Taken(After(c, events)) == Taken(c) + PressesOf(events)
    decreases |events|
  {
    hide Next, Taken, PressOf;
    if events != [] {
      NextTakes(c, events[0]);
      HistoryTakes(Next(c, events[0]), events[1..]);
    }
  }

  // ---------------------------------------------------------------------------------------------
  // The wire

  /** A mutation goes out for what was prepared under its key, right after the key came back. */
  ghost predicate SentAsAsked(wire: seq<Wire>) {
    forall j :: 0 <= j < |wire| && wire[j].Sent? ==>
      2 <= j && wire[j - 1] == Got(wire[j].request.key) && wire[j - 2] == Asked(wire[j].request.kind, wire[j].request.message)
  }

  /** A status is read of a receipt that was listed, or of the mutation just sent. */
  ghost predicate CheckedAsSent(wire: seq<Wire>, listed: set<Request>) {
    forall j :: 0 <= j < |wire| && wire[j].Checked? ==> ReadOf(wire, listed, j)
  }

  ghost predicate ReadOf(wire: seq<Wire>, listed: set<Request>, j: nat)
    requires j < |wire| && wire[j].Checked?
  {
    wire[j].request in listed || (1 <= j && wire[j - 1] == Sent(wire[j].request))
  }

  /** What the running job's last call carried. */
  ghost predicate WireInPhase(c: Client) {
    var n := |c.wire|;
    c.running.Some? ==>
      match c.running.value
      case Preparing(kind, message) => 1 <= n && c.wire[n - 1] == Asked(kind, message)
      case Announcing(r) => 2 <= n && c.wire[n - 1] == Got(r.key) && c.wire[n - 2] == Asked(r.kind, r.message)
      case Mutating(r) => 1 <= n && c.wire[n - 1] == Sent(r)
      case _ => true
  }

  ghost predicate ReadsListed(c: Client) {
    && (forall j :: j in c.queue && j.ReadOne? ==> j.request in c.listed)
    && (c.restoring.Some? ==> forall r :: r in c.restoring.value.left ==> r in c.listed)
  }

  ghost predicate WireSound(c: Client) {
    SentAsAsked(c.wire) && CheckedAsSent(c.wire, c.listed) && WireInPhase(c) && ReadsListed(c)
  }

  lemma NextReadsListed(c: Client, e: Event)
    requires ReadsListed(c) && Possible(c, e)
    ensures ReadsListed(Next(c, e))
  {
    hide DropMissingClears, KeysOf, LastClear;
  }

  lemma NextWirePhase(c: Client, e: Event)
    requires WireInPhase(c) && Possible(c, e)
    ensures WireInPhase(Next(c, e))
  {
    hide DropMissingClears, KeysOf, LastClear;
  }

  /** What a call needs of the wire it goes over. */
  ghost predicate MayGo(wire: seq<Wire>, listed: set<Request>, w: Wire) {
    var n := |wire|;
    match w
    case Sent(r) => 2 <= n && wire[n - 1] == Got(r.key) && wire[n - 2] == Asked(r.kind, r.message)
    case Checked(r) => r in listed || (1 <= n && wire[n - 1] == Sent(r))
    case _ => true
  }

  ghost predicate CallsSound(wire: seq<Wire>, listed: set<Request>) {
    SentAsAsked(wire) && CheckedAsSent(wire, listed)
  }

  lemma WireGrows(wire: seq<Wire>, listed: set<Request>, w: Wire)
    requires CallsSound(wire, listed) && MayGo(wire, listed, w)
    ensures CallsSound(wire + [w], listed)
  {
    var next := wire + [w];
    assert forall j :: 0 <= j < |wire| ==> next[j] == wire[j];
    forall j | 0 <= j < |next| && next[j].Checked? ensures ReadOf(next, listed, j) {
      if j < |wire| { assert ReadOf(wire, listed, j); }
    }
  }

  lemma StartSent(c: Client)
    requires WireSound(c) && Possible(c, JobStarts)
    ensures CallsSound(StartJob(c).wire, c.listed)
  {
    assert CallsSound(c.wire, c.listed);
    hide CallsSound, SentAsAsked, CheckedAsSent;
    assert c.queue[0] in c.queue;
    if !c.queue[0].ReadSaved? { WireGrows(c.wire, c.listed, StartJob(c).wire[|c.wire|]); }
  }

  lemma NextSent(c: Client, e: Event)
    requires WireSound(c) && Possible(c, e)
    ensures CallsSound(Next(c, e).wire, Next(c, e).listed)
  {
    assert CallsSound(c.wire, c.listed);
    hide CallsSound, SentAsAsked, CheckedAsSent, StartJob, DropMissingClears, KeysOf, LastClear;
    match e {
      case JobStarts => StartSent(c);
      case PrepareArrives(key) =>
        WireGrows(c.wire, c.listed, Got(key));
        var p := c.running.value;
        if p.kind.Delete? { WireGrows(c.wire + [Got(key)], c.listed, Sent(Request(key, p.kind, p.message))); }
      case AnnounceDone => WireGrows(c.wire, c.listed, Sent(c.running.value.request));
      case MutationFails => WireGrows(c.wire, c.listed, Checked(c.running.value.request));
      case SavedArrives(requests) => ListGrows(c.wire, c.listed, SavedReplied(c, requests).listed);
      case _ =>
    }
  }

  lemma ListGrows(wire: seq<Wire>, listed: set<Request>, more: set<Request>)
    requires CallsSound(wire, listed) && listed <= more
    ensures CallsSound(wire, more)
  {
    forall j | 0 <= j < |wire| && wire[j].Checked? ensures ReadOf(wire, more, j) {
      assert ReadOf(wire, listed, j);
    }
  }

  lemma NextWire(c: Client, e: Event)
    requires WireSound(c) && Possible(c, e)
    ensures WireSound(Next(c, e))
  {
    NextReadsListed(c, e);
    NextWirePhase(c, e);
    NextSent(c, e);
    hide Next, SentAsAsked, CheckedAsSent, WireInPhase, ReadsListed;
    assert CallsSound(Next(c, e).wire, Next(c, e).listed);
  }

  /** The keys of the calls, as the log and as the wire have them. */
  datatype Trace = PreparedFor(kind: Kind, message: Option<string>) | KeyCame(key: string) | MutatedBy(key: string) | ReadBy(key: string)

  function LogTrace(log: seq<Entry>): seq<Trace> {
    if log == [] then []
    else LogTrace(log[..|log| - 1]) + EntryTrace(log[|log| - 1])
  }

  function EntryTrace(e: Entry): seq<Trace> {
    match e
    case PrepareCall(kind, message) => [PreparedFor(kind, message)]
    case Prepared(key) => [KeyCame(key)]
    case MutateCall(key) => [MutatedBy(key)]
    case StatusCall(key) => [ReadBy(key)]
    case _ => []
  }

  function WireTrace(wire: seq<Wire>): seq<Trace> {
    if wire == [] then []
    else WireTrace(wire[..|wire| - 1]) + [CallTrace(wire[|wire| - 1])]
  }

  function CallTrace(w: Wire): Trace {
    match w
    case Asked(kind, message) => PreparedFor(kind, message)
    case Got(key) => KeyCame(key)
    case Sent(r) => MutatedBy(r.key)
    case Checked(r) => ReadBy(r.key)
  }

  lemma LogTraceGrows(log: seq<Entry>, e: Entry)
    ensures LogTrace(log + [e]) == LogTrace(log) + EntryTrace(e)
  {
    assert (log + [e])[..|log|] == log;
  }

  lemma WireTraceGrows(wire: seq<Wire>, w: Wire)
    ensures WireTrace(wire + [w]) == WireTrace(wire) + [CallTrace(w)]
  {
    assert (wire + [w])[..|wire|] == wire;
  }

  lemma StartTraces(c: Client)
    requires LogTrace(c.log) == WireTrace(c.wire) && Possible(c, JobStarts)
    ensures LogTrace(StartJob(c).log) == WireTrace(StartJob(c).wire)
  {
    hide LogTrace, WireTrace;
    LogTraceGrows(c.log, StartJob(c).log[|c.log|]);
    if !c.queue[0].ReadSaved? { WireTraceGrows(c.wire, StartJob(c).wire[|c.wire|]); }
  }

  /** The log and the wire tell of the same calls. */
  lemma NextTraces(c: Client, e: Event)
    requires LogTrace(c.log) == WireTrace(c.wire) && Possible(c, e)
    ensures LogTrace(Next(c, e).log) == WireTrace(Next(c, e).wire)
  {
    hide LogTrace, WireTrace, StartJob, DropMissingClears, KeysOf, LastClear;
    match e {
      case JobStarts => StartTraces(c);
      case PrepareArrives(key) =>
        LogTraceGrows(c.log, Prepared(key));
        WireTraceGrows(c.wire, Got(key));
        var p := c.running.value;
        if p.kind.Delete? {
          LogTraceGrows(c.log + [Prepared(key)], MutateCall(key));
          WireTraceGrows(c.wire + [Got(key)], Sent(Request(key, p.kind, p.message)));
        }
      case AnnounceDone =>
        LogTraceGrows(c.log, MutateCall(c.running.value.request.key));
        WireTraceGrows(c.wire, Sent(c.running.value.request));
      case MutationFails =>
        var r := c.running.value.request;
        LogTraceGrows(c.log, MutationLost(r.key));
        LogTraceGrows(c.log + [MutationLost(r.key)], StatusCall(r.key));
        WireTraceGrows(c.wire, Checked(r));
      case MutationArrives(receipt) => LogTraceGrows(c.log, Published(c.running.value.request.key, receipt.completed));
      case StatusArrives(receipt) => LogTraceGrows(c.log, Published(c.running.value.request.key, receipt.completed));
      case StatusFails(_) => LogTraceGrows(c.log, Published(c.running.value.request.key, false));
      case PublishArrives => LogTraceGrows(c.log, AcknowledgeCall(c.running.value.request.key));
      case _ =>
    }
  }

  lemma {:induction false} HistoryWire(c: Client, events: seq<Event>)
    requires WireSound(c) && LogTrace(c.log) == WireTrace(c.wire) && History(c, events)
    ensures WireSound(After(c, events)) && LogTrace(After(c, events).log) == WireTrace(After(c, events).wire)
    decreases |events|
  {
    hide WireSound, Next, LogTrace, WireTrace;
    if events != [] {
      NextWire(c, events[0]);
      NextTraces(c, events[0]);
      HistoryWire(Next(c, events[0]), events[1..]);
    }
  }

  // ---------------------------------------------------------------------------------------------
  // Outcomes

  /** What a step does to the records and to the newest Clear, and nothing else does: a receipt is recorded as it
      came, a failed status read as missing or unreadable, unless it is a missing Clear that is no longer the
      newest; a new Clear drops the missing ones and becomes the newest; a saved list names one only when this
      client has none. */
  lemma OutcomesAreRecorded(c: Client, e: Event)
    requires Possible(c, e)
    ensures
      var d := Next(c, e);
      match e
      case MutationArrives(receipt) =>
        var r := c.running.value.request;
        d.records == c.records[r.key := Record(r, Found(receipt))] && d.running == Some(Publishing(r, receipt.completed))
        && d.latestClear == c.latestClear
      case StatusArrives(receipt) =>
        var r := c.running.value.request;
        d.records == c.records[r.key := Record(r, Found(receipt))] && d.running == Some(Publishing(r, receipt.completed))
        && d.latestClear == c.latestClear
      case StatusFails(missing) =>
        var r := c.running.value.request;
        && d.running == Some(Publishing(r, false)) && d.latestClear == c.latestClear
        && d.records == (if missing && r.kind.Clear? && c.latestClear != Some(r.key) then c.records - {r.key}
                         else c.records[r.key := Record(r, if missing then Missing else Unreadable)])
      case PrepareArrives(key) =>
        if c.running.value.kind.Delete? then d.records == c.records && d.latestClear == c.latestClear
        else
          && d.latestClear == Some(key)
          && (forall x :: x in d.records <==> x in c.records && !(c.records[x].request.kind.Clear? && c.records[x].state.Missing?))
          && (forall x :: x in d.records ==> d.records[x] == c.records[x])
      case SavedArrives(requests) =>
        d.records == c.records && d.latestClear == if c.latestClear.Some? then c.latestClear else LastClear(requests)
      case _ => d.records == c.records && d.latestClear == c.latestClear
  {
    hide KeysOf, LastClear;
  }

  /** The last Clear of a list, if it has one. */
  lemma {:induction false} LastClearIsLast(requests: seq<Request>)
    ensures LastClear(requests).None? <==> forall r :: r in requests ==> !r.kind.Clear?
    ensures LastClear(requests).Some? ==>
      exists i :: 0 <= i < |requests| && requests[i].kind.Clear? && LastClear(requests) == Some(requests[i].key)
                  && forall j :: i < j < |requests| ==> !requests[j].kind.Clear?
  {
    if requests != [] {
      var n := |requests| - 1;
      LastClearIsLast(requests[..n]);
      assert requests == requests[..n] + [requests[n]];
      if !requests[n].kind.Clear? && LastClear(requests[..n]).Some? {
        var i :| 0 <= i < n && requests[..n][i].kind.Clear? && LastClear(requests[..n]) == Some(requests[..n][i].key)
                 && forall j :: i < j < n ==> !requests[..n][j].kind.Clear?;
        assert requests[i].kind.Clear? && forall j :: i < j < |requests| ==> !requests[j].kind.Clear?;
      }
    }
  }

  // ---------------------------------------------------------------------------------------------
  // What follows what

  /** The entry at `j`, and what came of it: a key is sent with its mutation next, a completed receipt is acknowledged
      next, unless the job still waits for the display. */
  ghost predicate Followed(log: seq<Entry>, running: Option<Phase>, j: nat)
    requires j < |log|
  {
    && (log[j].Prepared? ==>
          if j + 1 < |log| then log[j + 1] == MutateCall(log[j].key)
          else running.Some? && running.value.Announcing? && running.value.request.key == log[j].key)
    && (log[j].Published? && log[j].completed ==>
          if j + 1 < |log| then log[j + 1] == AcknowledgeCall(log[j].key)
          else running.Some? && running.value.Publishing? && running.value.acknowledge && running.value.request.key == log[j].key)
    && (log[j].AcknowledgeCall? ==> 0 < j && log[j - 1] == Published(log[j].key, true))
  }

  ghost predicate Follows(c: Client) {
    && (forall j: nat :: j < |c.log| ==> Followed(c.log, c.running, j))
    && (c.running.Some? && c.running.value.Announcing? ==>
          c.log != [] && c.log[|c.log| - 1] == Prepared(c.running.value.request.key))
    && (c.running.Some? && c.running.value.Publishing? && c.running.value.acknowledge ==>
          c.log != [] && c.log[|c.log| - 1] == Published(c.running.value.request.key, true))
  }

  /** Steps that add to the log. */
  lemma CallsFollow(c: Client, e: Event)
    requires Follows(c) && Possible(c, e)
    requires e.PrepareArrives? || e.AnnounceDone? || e.MutationFails? || e.PublishArrives? || e.JobStarts?
    ensures Follows(Next(c, e))
  {
    hide DropMissingClears;
    var d := Next(c, e);
    forall j: nat | j < |d.log| ensures Followed(d.log, d.running, j) {
      if j < |c.log| { assert Followed(c.log, c.running, j); }
    }
  }

  lemma OutcomesFollow(c: Client, e: Event)
    requires Follows(c) && Possible(c, e)
    requires e.MutationArrives? || e.StatusArrives? || e.StatusFails?
    ensures Follows(Next(c, e))
  {
    var d := Next(c, e);
    forall j: nat | j < |d.log| ensures Followed(d.log, d.running, j) {
      if j < |c.log| { assert Followed(c.log, c.running, j); }
    }
  }

  lemma NextFollows(c: Client, e: Event)
    requires Follows(c) && Possible(c, e)
    ensures Follows(Next(c, e))
  {
    if e.PrepareArrives? || e.AnnounceDone? || e.MutationFails? || e.PublishArrives? || e.JobStarts? {
      CallsFollow(c, e);
    } else if e.MutationArrives? || e.StatusArrives? || e.StatusFails? {
      OutcomesFollow(c, e);
    } else {
      var d := Next(c, e);
      assert d.log == c.log;
      forall j: nat | j < |d.log| ensures Followed(d.log, d.running, j) { assert Followed(c.log, c.running, j); }
    }
  }

  lemma {:induction false} HistoryFollows(c: Client, events: seq<Event>)
    requires Follows(c) && History(c, events)
    ensures Follows(After(c, events))
    decreases |events|
  {
    hide Follows, Next;
    if events != [] {
      NextFollows(c, events[0]);
      HistoryFollows(Next(c, events[0]), events[1..]);
    }
  }

  /** A recovery is begun unless one is under way, by a job that reads the saved list; then it queues one read for each
      receipt listed, in their order, each when the one before is over, and nothing else. */
  lemma RecoveriesQueueReads(c: Client, requests: seq<Request>)
    ensures
      var d := Next(c, RestoreAsked);
      if c.restoring.Some? then d == c
      else d.queue == c.queue + [ReadSaved] && d.restoring.Some? && d.restoring.value.waiting && d.running == c.running
    ensures Possible(c, SavedArrives(requests)) && c.ofRestore ==>
      var d := Next(c, SavedArrives(requests));
      d.restoring == Some(Recovery(false, requests)) && d.queue == c.queue && d.running.None?
    ensures Possible(c, RecoveryContinues) ==>
      var d, left := Next(c, RecoveryContinues), c.restoring.value.left;
      if left == [] then d.restoring.None? && d.queue == c.queue
      else d.queue == c.queue + [ReadOne(left[0])] && d.restoring == Some(Recovery(true, left[1..]))
  {}

  // ---------------------------------------------------------------------------------------------
  // The records, updated in place

  /** The client's receipts: what each key's record may be is the class's to keep. */
  class RemovalRecords {
    var records: map<string, Record>
    var latestClear: Option<string>

    ghost predicate Valid()
      reads this
    {
      RecordsSound(records, latestClear)
    }

    constructor ()
      ensures Valid() && records == map[] && latestClear.None?
    {
      records, latestClear := map[], None;
    }

    /** A new Clear has its key: no missing Clear is left on record, and no other record is touched. */
    method NewClear(key: string)
      requires Valid()
      modifies this
      ensures Valid() && latestClear == Some(key)
      ensures forall k :: k in records ==> !(records[k].request.kind.Clear? && records[k].state.Missing?)
      ensures records == DropMissingClears(old(records))
      ensures forall c: Client :: c.records == old(records) && c.running == Some(Preparing(Clear, None)) ==>
        PrepareReplied(c, key).records == records && PrepareReplied(c, key).latestClear == latestClear
    {
      latestClear := Some(key);
      var left := records.Keys;
      while left != {}
        invariant left <= old(records).Keys && latestClear == Some(key)
        invariant records == map k | k in old(records) &&
          (k in left || !(old(records)[k].request.kind.Clear? && old(records)[k].state.Missing?)) :: old(records)[k]
        decreases |left|
      {
        var k :| k in left;
        if records[k].request.kind.Clear? && records[k].state.Missing? {
          records := records - {k};
        }
        left := left - {k};
      }
    }

    /** A status read failed: a superseded Clear that is missing leaves no record, anything else leaves just
        its own. */
    method StatusUnavailable(request: Request, missing: bool)
      requires Valid()
      modifies this`records
      ensures Valid()
      ensures forall k :: k != request.key ==> (k in records <==> k in old(records)) && (k in records ==> records[k] == old(records)[k])
      ensures request.key in records <==> !(missing && request.kind.Clear? && latestClear != Some(request.key))
      ensures request.key in records ==> records[request.key] == Record(request, if missing then Missing else Unreadable)
      ensures forall c: Client :: c.records == old(records) && c.latestClear == latestClear && c.running == Some(Checking(request)) ==>
        StatusFailed(c, missing).records == records
    {
      if missing && request.kind.Clear? && latestClear != Some(request.key) {
        records := records - {request.key};
      } else {
        records := records[request.key := Record(request, if missing then Missing else Unreadable)];
      }
    }
  }
}
