/** The promise chain behind the removal client.  Each `serialize` call adds a link: it waits for the
    absorbed promise of the link before it, runs its job, settles by fulfilment or rejection, and one
    step later its own absorbed promise settles.  Nothing here says that jobs exclude each other; that
    follows, and with it every property of the queue. */
module InboxRemovalChains {
  import opened Basics
  import Q = InboxRemovals

  datatype Stage = Waiting | Running(phase: Q.Phase) | Settled(fulfilled: bool) | Absorbed

  datatype Link = Link(job: Q.Job, stage: Stage)

  datatype Chain = Chain(links: seq<Link>, records: map<string, Q.Record>, latestClear: Option<string>,
                         restoring: Option<Q.Recovery>, known: set<string>, listed: set<Q.Request>,
                         log: seq<Q.Entry>, wire: seq<Q.Wire>)

  function Fresh(): Chain {
    Chain([], map[], None, None, {}, {}, [], [])
  }

  function WaitingJobs(links: seq<Link>): seq<Q.Job> {
    if links == [] then []
    else (if links[0].stage.Waiting? then [links[0].job] else []) + WaitingJobs(links[1..])
  }

  /** The client with one job's phase, as that job's code sees it. */
  function Seen(c: Chain, running: Option<Q.Phase>, ofRestore: bool): Q.Client {
    Q.Client(c.records, c.latestClear, WaitingJobs(c.links), running, ofRestore, c.restoring, c.known, c.listed,
             c.log, c.wire)
  }

  function SeenBy(c: Chain, i: nat): Q.Client
    requires i < |c.links| && c.links[i].stage.Running?
  {
    Seen(c, Some(c.links[i].stage.phase), Q.RestoreJob(c.links[i].job))
  }

  /** What a job leaves behind, with its link in the given stage. */
  function Left(c: Chain, i: nat, d: Q.Client, stage: Stage): Chain
    requires i < |c.links|
  {
    Chain(c.links[i := c.links[i].(stage := stage)], d.records, d.latestClear, d.restoring, d.known,
          d.listed, d.log, d.wire)
  }

  function Serialize(c: Chain, job: Q.Job): Chain {
    c.(links := c.links + [Link(job, Waiting)])
  }

  function Restore(c: Chain): Chain {
    if c.restoring.Some? then c else Serialize(c, Q.ReadSaved).(restoring := Some(Q.Recovery(true, [])))
  }

  function RecoveryGoesOn(c: Chain): Chain
    requires c.restoring.Some? && !c.restoring.value.waiting
  {
    var left := c.restoring.value.left;
    if left == [] then c.(restoring := None)
    else Serialize(c, Q.ReadOne(left[0])).(restoring := Some(Q.Recovery(true, left[1..])))
  }

  /** The link's job makes its first call. */
  function Start(c: Chain, i: nat): Chain
    requires i < |c.links|
  {
    var d := Q.StartJob(Seen(c, None, false).(queue := [c.links[i].job]));
    Left(c, i, d, Running(d.running.value))
  }

  /** A failed prepare or saved list rejects the job's promise; every other end fulfils it. */
  predicate Fulfils(e: Q.Event) {
    !e.PrepareFails? && !e.SavedFails?
  }

  function Resume(c: Chain, i: nat, e: Q.Event): Chain
    requires i < |c.links| && c.links[i].stage.Running? && Q.Waits(SeenBy(c, i), e)
  {
    var d := Q.Next(SeenBy(c, i), e);
    Left(c, i, d, if d.running.Some? then Running(d.running.value) else Settled(Fulfils(e)))
  }

  function Absorb(c: Chain, i: nat): Chain
    requires i < |c.links|
  {
    c.(links := c.links[i := c.links[i].(stage := Absorbed)])
  }

  datatype Event =
    | ClearPressed
    | DeletePressed(message: string)
    | RestoreAsked
    | RecoveryContinues
    | LinkStarts(i: nat)
    | JobResumes(i: nat, e: Q.Event)
    | TailSettles(i: nat)

  /** A link starts when the absorbed promise before it has settled, whether its job was fulfilled or
      rejected; any running job may get the reply it waits for. */
  predicate Possible(c: Chain, e: Event) {
    match e
    case RecoveryContinues => c.restoring.Some? && !c.restoring.value.waiting
    case LinkStarts(i) => i < |c.links| && c.links[i].stage.Waiting? && (i == 0 || c.links[i - 1].stage.Absorbed?)
    case JobResumes(i, r) => i < |c.links| && c.links[i].stage.Running? && Q.Waits(SeenBy(c, i), r)
    case TailSettles(i) => i < |c.links| && c.links[i].stage.Settled?
    case _ => true
  }

  function Next(c: Chain, e: Event): Chain
    requires Possible(c, e)
  {
    match e
    case ClearPressed => Serialize(c, Q.Perform(Q.Clear, None))
    case DeletePressed(m) => Serialize(c, Q.Perform(Q.Delete, Some(m)))
    case RestoreAsked => Restore(c)
    case RecoveryContinues => RecoveryGoesOn(c)
    case LinkStarts(i) => Start(c, i)
    case JobResumes(i, r) => Resume(c, i, r)
    case TailSettles(i) => Absorb(c, i)
  }

  ghost predicate History(c: Chain, events: seq<Event>)
    decreases |events|
  {
    events == [] || (Possible(c, events[0]) && History(Next(c, events[0]), events[1..]))
  }

  ghost function After(c: Chain, events: seq<Event>): Chain
    requires History(c, events)
    decreases |events|
  {
    if events == [] then c else After(Next(c, events[0]), events[1..])
  }

  // ---------------------------------------------------------------------------------------------
  // Exclusion

  /** A link has started only if every link before it is over and absorbed. */
  ghost predicate InOrder(links: seq<Link>) {
    forall i, j :: 0 <= i < j < |links| && !links[j].stage.Waiting? ==> links[i].stage.Absorbed?
  }

  lemma NextInOrder(c: Chain, e: Event)
    requires InOrder(c.links) && Possible(c, e)
    ensures InOrder(Next(c, e).links)
  {
    hide Q.Next, Q.StartJob, Q.Waits;
    var d := Next(c, e);
    if e.LinkStarts? {
      forall i, j | 0 <= i < j < |d.links| && !d.links[j].stage.Waiting? ensures d.links[i].stage.Absorbed? {
        if j == e.i { assert i < e.i - 1 ==> !c.links[e.i - 1].stage.Waiting?; }
      }
    }
  }

  lemma {:induction false} HistoryInOrder(c: Chain, events: seq<Event>)
    requires InOrder(c.links) && History(c, events)
    ensures InOrder(After(c, events).links)
    decreases |events|
  {
    hide Next, InOrder;
    if events != [] {
      NextInOrder(c, events[0]);
      HistoryInOrder(Next(c, events[0]), events[1..]);
    }
  }

  /** In every run of the chain at most one job runs, and links run in the order of their calls. */
  lemma JobsRunOneAtATime(events: seq<Event>)
    requires History(Fresh(), events)
    ensures var links := After(Fresh(), events).links;
      && (forall i, j :: 0 <= i < j < |links| ==> !(links[i].stage.Running? && links[j].stage.Running?))
      && (forall i, j :: 0 <= i < j < |links| && !links[j].stage.Waiting? ==> links[i].stage.Absorbed?)
  {
    HistoryInOrder(Fresh(), events);
  }

  /** The chain never breaks: unless a job runs, the first waiting link starts at once, or as soon as the
      absorbed promise before it settles, and a rejected job stops it no more than a fulfilled one. */
  lemma FirstWaitingLinkStarts(events: seq<Event>, i: nat)
    requires History(Fresh(), events) && i < |After(Fresh(), events).links|
    requires After(Fresh(), events).links[i].stage.Waiting?
    requires forall j :: 0 <= j < i ==> !After(Fresh(), events).links[j].stage.Waiting? && !After(Fresh(), events).links[j].stage.Running?
    ensures var c := After(Fresh(), events);
      || Possible(c, LinkStarts(i))
      || (i > 0 && Possible(c, TailSettles(i - 1)) && Possible(Next(c, TailSettles(i - 1)), LinkStarts(i)))
  {
    hide Q.Next, Q.StartJob, Q.Waits, After;
  }

  // ---------------------------------------------------------------------------------------------
  // The chain is a queue

  function RunningLink(links: seq<Link>): (r: Option<Link>)
    ensures r.Some? ==> r.value in links && r.value.stage.Running?
    ensures r.None? ==> forall link :: link in links ==> !link.stage.Running?
  {
    if links == [] then None else if links[0].stage.Running? then Some(links[0]) else RunningLink(links[1..])
  }

  /** The chain as a queue with at most one running job. */
  function AsQueue(c: Chain): Q.Client {
    var link := RunningLink(c.links);
    if link.None? then Seen(c, None, false) else Seen(c, Some(link.value.stage.phase), Q.RestoreJob(link.value.job))
  }

  /** In order, a running link is the running link. */
  lemma TheRunningLink(links: seq<Link>, i: nat)
    requires InOrder(links) && i < |links| && links[i].stage.Running?
    ensures RunningLink(links) == Some(links[i])
  {
    var r := RunningLink(links).value;
    var j :| 0 <= j < |links| && links[j] == r;
  }

  lemma NoneRuns(links: seq<Link>)
    requires forall i :: 0 <= i < |links| ==> !links[i].stage.Running?
    ensures RunningLink(links).None?
  {}

  lemma {:induction false} WaitingAppended(links: seq<Link>, link: Link)
    ensures WaitingJobs(links + [link]) == WaitingJobs(links) + (if link.stage.Waiting? then [link.job] else [])
  {
    var all := links + [link];
    if links == [] {
      assert all[1..] == [];
    } else {
      assert all[1..] == links[1..] + [link];
      WaitingAppended(links[1..], link);
    }
  }

  /** A link that has started may change its stage without a trace in the queue. */
  lemma {:induction false} WaitingUnmoved(links: seq<Link>, i: nat, stage: Stage)
    requires i < |links| && !links[i].stage.Waiting? && !stage.Waiting?
    ensures WaitingJobs(links[i := links[i].(stage := stage)]) == WaitingJobs(links)
  {
    var next := links[i := links[i].(stage := stage)];
    if i == 0 {
      assert next[1..] == links[1..];
    } else {
      assert next[1..] == links[1..][i - 1 := links[i].(stage := stage)];
      WaitingUnmoved(links[1..], i - 1, stage);
    }
  }

  /** The first waiting link is the head of the queue. */
  lemma {:induction false} WaitingTaken(links: seq<Link>, i: nat, stage: Stage)
    requires i < |links| && links[i].stage.Waiting? && !stage.Waiting?
    requires forall j :: 0 <= j < i ==> !links[j].stage.Waiting?
    ensures WaitingJobs(links) == [links[i].job] + WaitingJobs(links[i := links[i].(stage := stage)])
  {
    var next := links[i := links[i].(stage := stage)];
    if i == 0 {
      assert next[1..] == links[1..];
    } else {
      assert next[1..] == links[1..][i - 1 := links[i].(stage := stage)];
      WaitingTaken(links[1..], i - 1, stage);
    }
  }

  function QueueEvents(e: Event): seq<Q.Event> {
    match e
    case ClearPressed => [Q.ClearPressed]
    case DeletePressed(m) => [Q.DeletePressed(m)]
    case RestoreAsked => [Q.RestoreAsked]
    case RecoveryContinues => [Q.RecoveryContinues]
    case LinkStarts(_) => [Q.JobStarts]
    case JobResumes(_, r) => [r]
    case TailSettles(_) => []
  }

  /** What the queue sees of a chain step. */
  ghost predicate Simulates(c: Chain, e: Event)
    requires Possible(c, e)
  {
    if e.TailSettles? then AsQueue(Next(c, e)) == AsQueue(c)
    else Q.Possible(AsQueue(c), QueueEvents(e)[0]) && Q.Next(AsQueue(c), QueueEvents(e)[0]) == AsQueue(Next(c, e))
  }

  lemma {:induction false} RunningAppended(links: seq<Link>, job: Q.Job)
    ensures RunningLink(links + [Link(job, Waiting)]) == RunningLink(links)
  {
    var all := links + [Link(job, Waiting)];
    if links == [] {
      assert all[1..] == [];
    } else {
      assert all[1..] == links[1..] + [Link(job, Waiting)];
      RunningAppended(links[1..], job);
    }
  }

  lemma SerializeSimulates(c: Chain, e: Event)
    requires InOrder(c.links) && Possible(c, e)
    requires e.ClearPressed? || e.DeletePressed? || e.RestoreAsked? || e.RecoveryContinues?
    ensures Simulates(c, e)
  {
    forall job ensures AsQueue(Serialize(c, job)) == Q.Enqueue(AsQueue(c), job) {
      WaitingAppended(c.links, Link(job, Waiting));
      RunningAppended(c.links, job);
    }
  }

  lemma StartSimulates(c: Chain, i: nat)
    requires InOrder(c.links) && Possible(c, LinkStarts(i))
    ensures Simulates(c, LinkStarts(i))
  {
    var job := c.links[i].job;
    var d := Next(c, LinkStarts(i));
    NextInOrder(c, LinkStarts(i));
    forall j | 0 <= j < |c.links| ensures !c.links[j].stage.Running? && (j < i ==> !c.links[j].stage.Waiting?) {
      assert j < i - 1 ==> c.links[j].stage.Absorbed?;
    }
    NoneRuns(c.links);
    TheRunningLink(d.links, i);
    WaitingTaken(c.links, i, d.links[i].stage);
    assert AsQueue(c).queue[1..] == WaitingJobs(d.links);
  }

  lemma ResumeSimulates(c: Chain, i: nat, e: Q.Event)
    requires InOrder(c.links) && Possible(c, JobResumes(i, e))
    ensures Simulates(c, JobResumes(i, e))
  {
    var d := Next(c, JobResumes(i, e));
    NextInOrder(c, JobResumes(i, e));
    TheRunningLink(c.links, i);
    assert AsQueue(c) == SeenBy(c, i);
    WaitingUnmoved(c.links, i, d.links[i].stage);
    RepliesLeaveQueue(SeenBy(c, i), e);
    if d.links[i].stage.Running? {
      TheRunningLink(d.links, i);
    } else {
      forall j | 0 <= j < |d.links| ensures !d.links[j].stage.Running? {
        assert j > i ==> c.links[j].stage.Waiting?;
        assert j < i ==> c.links[j].stage.Absorbed?;
      }
      NoneRuns(d.links);
    }
    hide Q.Next, Q.Waits, WaitingJobs;
  }

  /** A reply moves its own job and nothing in the queue; a job that is over leaves no mark of recovery. */
  lemma RepliesLeaveQueue(q: Q.Client, e: Q.Event)
    requires Q.Waits(q, e)
    ensures Q.Possible(q, e)
    ensures var d := Q.Next(q, e);
      d.queue == q.queue && (if d.running.Some? then d.ofRestore == q.ofRestore else !d.ofRestore)
  {
    hide Q.DropMissingClears, Q.KeysOf, Q.LastClear;
  }

  lemma AbsorbSimulates(c: Chain, i: nat)
    requires InOrder(c.links) && Possible(c, TailSettles(i))
    ensures Simulates(c, TailSettles(i))
  {
    WaitingUnmoved(c.links, i, Absorbed);
    forall j | 0 <= j < |c.links| ensures !c.links[j].stage.Running? {
      assert j > i ==> c.links[j].stage.Waiting?;
      assert j < i ==> c.links[j].stage.Absorbed?;
    }
    NoneRuns(c.links);
    NoneRuns(Absorb(c, i).links);
  }

  lemma StepSimulates(c: Chain, e: Event)
    requires InOrder(c.links) && Possible(c, e)
    ensures Simulates(c, e)
  {
    hide Simulates, InOrder, Q.Waits;
    match e {
      case LinkStarts(i) => StartSimulates(c, i);
      case JobResumes(i, r) => ResumeSimulates(c, i, r);
      case TailSettles(i) => AbsorbSimulates(c, i);
      case _ => SerializeSimulates(c, e);
    }
  }

  ghost function QueueHistory(events: seq<Event>): seq<Q.Event> {
    if events == [] then [] else QueueEvents(events[0]) + QueueHistory(events[1..])
  }

  /** Every run of the chain is a run of the queue. */
  lemma {:induction false} ChainIsQueue(c: Chain, events: seq<Event>)
    requires InOrder(c.links) && History(c, events)
    ensures Q.History(AsQueue(c), QueueHistory(events))
    ensures Q.After(AsQueue(c), QueueHistory(events)) == AsQueue(After(c, events))
    decreases |events|
  {
    hide InOrder, Next, AsQueue, Q.Next, Q.Possible;
    if events != [] {
      StepSimulates(c, events[0]);
      NextInOrder(c, events[0]);
      ChainIsQueue(Next(c, events[0]), events[1..]);
      var rest := QueueHistory(events[1..]);
      if events[0].TailSettles? {
        assert QueueHistory(events) == rest;
      } else {
        assert QueueHistory(events)[0] == QueueEvents(events[0])[0] && QueueHistory(events)[1..] == rest;
      }
    }
  }

  lemma Reachable(events: seq<Event>)
    requires History(Fresh(), events)
    ensures InOrder(After(Fresh(), events).links)
    ensures Q.History(Q.Initial(), QueueHistory(events))
    ensures Q.After(Q.Initial(), QueueHistory(events)) == AsQueue(After(Fresh(), events))
  {
    HistoryInOrder(Fresh(), events);
    ChainIsQueue(Fresh(), events);
    assert AsQueue(Fresh()) == Q.Initial();
  }

  // ---------------------------------------------------------------------------------------------
  // What the client promises

  /** In every run of the chain each key is mutated at most once and only after its own prepare, no status
      read of a prepared key comes before its mutation, and a key is acknowledged only once a completed
      receipt for it is on display. */
  lemma RemovalsAreSafe(events: seq<Event>)
    requires History(Fresh(), events)
    ensures var log := After(Fresh(), events).log;
      && (forall i, j :: 0 <= i < j < |log| && log[i].MutateCall? && log[j].MutateCall? ==> log[i].key != log[j].key)
      && (forall j :: 0 <= j < |log| && log[j].MutateCall? ==> Q.Prepared(log[j].key) in log[..j])
      && (forall j :: 0 <= j < |log| && log[j].StatusCall? && Q.Prepared(log[j].key) in log ==> Q.MutateCall(log[j].key) in log[..j])
      && (forall j :: 0 <= j < |log| && log[j].AcknowledgeCall? ==> Q.Published(log[j].key, true) in log[..j])
  {
    Reachable(events);
    Q.SafeInQueue(QueueHistory(events));
  }

  /** However presses, recoveries and replies interleave, the calls of two jobs never mix.  In particular a
      lost mutation reply is followed at once by a status read of the same key, and by no mutation of it. */
  lemma JobsNeverMix(events: seq<Event>)
    requires History(Fresh(), events)
    ensures var log := After(Fresh(), events).log;
      && Q.InJobOrder(log)
      && (forall i, k :: 0 <= i < |log| && log[i] == Q.MutationLost(k) ==>
            i + 1 < |log| && log[i + 1] == Q.StatusCall(k) && Q.MutateCall(k) !in log[i..])
  {
    Reachable(events);
    Q.UnmixedInQueue(QueueHistory(events));
  }

  /** In every reachable state at most one Clear is on record as missing, and it is the newest Clear. */
  lemma AtMostOneMissingClear(events: seq<Event>)
    requires History(Fresh(), events)
    ensures var c := After(Fresh(), events);
      && (forall k :: k in c.records && c.records[k].request.kind.Clear? && c.records[k].state.Missing? ==>
            c.latestClear == Some(k) && c.records[k].request.key == k)
      && |set k | k in c.records && c.records[k].request.kind.Clear? && c.records[k].state.Missing?| <= 1
  {
    Reachable(events);
    Q.OneMissingInQueue(QueueHistory(events));
  }

  /** Recovery reads every receipt: once a list of saved receipts has arrived and no recovery is under way
      any more, each of them has been read by status since, whatever presses and failures came between. */
  lemma RecoveryReadsEveryReceipt(before: seq<Event>, i: nat, requests: seq<Q.Request>, after: seq<Event>)
    requires History(Fresh(), before) && Possible(After(Fresh(), before), JobResumes(i, Q.SavedArrives(requests)))
    requires History(Next(After(Fresh(), before), JobResumes(i, Q.SavedArrives(requests))), after)
    requires After(Next(After(Fresh(), before), JobResumes(i, Q.SavedArrives(requests))), after).restoring.None?
    ensures
      var listed := Next(After(Fresh(), before), JobResumes(i, Q.SavedArrives(requests)));
      var end := After(listed, after);
      && |listed.log| <= |end.log|
      && forall r :: r in requests ==> Q.StatusCall(r.key) in end.log[|listed.log|..]
  {
    Reachable(before);
    var c := After(Fresh(), before);
    var e := JobResumes(i, Q.SavedArrives(requests));
    var listed := Next(c, e);
    StepSimulates(c, e);
    NextInOrder(c, e);
    ChainIsQueue(listed, after);
    hide Next, InOrder, WaitingJobs, RunningLink;
    Q.RecoveredInQueue(QueueHistory(before), requests, QueueHistory(after));
  }

  function PressesOf(events: seq<Event>): seq<Q.Press> {
    if events == [] then []
    else
      (match events[0]
       case ClearPressed => [Q.Press(Q.Clear, None)]
       case DeletePressed(m) => [Q.Press(Q.Delete, Some(m))]
       case _ => []) + PressesOf(events[1..])
  }

  lemma {:induction false} QueueAppends(a: seq<Q.Event>, b: seq<Q.Event>)
    ensures Q.PressesOf(a + b) == Q.PressesOf(a) + Q.PressesOf(b)
  {
    if a == [] {
      assert a + b == b;
    } else {
      assert (a + b)[1..] == a[1..] + b;
      QueueAppends(a[1..], b);
    }
  }

  /** Replies are no presses. */
  ghost predicate RepliesOnly(events: seq<Event>) {
    forall e :: e in events && e.JobResumes? ==> Q.PressOf(e.e) == []
  }

  lemma {:induction false} HistoryRepliesOnly(c: Chain, events: seq<Event>)
    requires History(c, events)
    ensures RepliesOnly(events)
    decreases |events|
  {
    hide Next;
    if events != [] {
      HistoryRepliesOnly(Next(c, events[0]), events[1..]);
      assert events == [events[0]] + events[1..];
    }
  }

  lemma {:induction false} SamePresses(events: seq<Event>)
    requires RepliesOnly(events)
    ensures Q.PressesOf(QueueHistory(events)) == PressesOf(events)
  {
    if events != [] {
      assert events[0] in events;
      SamePresses(events[1..]);
      QueueAppends(QueueEvents(events[0]), QueueHistory(events[1..]));
      assert forall q: Q.Event :: [q][1..] == [];
    }
  }

  /** Nothing is prepared but what was pressed, and every press is: in every run of the chain the prepare calls
      made, followed by the jobs still waiting, are the presses in their order, Clear as Clear and Delete as
      Delete of its message. */
  lemma PressesBecomeCalls(events: seq<Event>)
    requires History(Fresh(), events)
    ensures var c := After(Fresh(), events);
      Q.Answered(c.log) + Q.Waiting(WaitingJobs(c.links)) == PressesOf(events)
  {
    Reachable(events);
    Q.HistoryTakes(Q.Initial(), QueueHistory(events));
    HistoryRepliesOnly(Fresh(), events);
    SamePresses(events);
    hide After, History, Q.After, Q.History, WaitingJobs, Q.Answered, Q.Waiting;
    assert Q.Taken(Q.Initial()) == [] by { NothingTaken(); }
  }

  lemma NothingTaken()
    ensures Q.Taken(Q.Initial()) == []
  {}

  /** Every mutation is sent for what was pressed: of the kind and for the message that were prepared under its key,
      right after the key came back.  Every status is read of the mutation just sent or of a listed receipt,
      whole.  And the log's keys are the wire's. */
  lemma CallsCarryTheirPress(events: seq<Event>)
    requires History(Fresh(), events)
    ensures
      var c := After(Fresh(), events);
      && (forall j :: 0 <= j < |c.wire| && c.wire[j].Sent? ==>
            2 <= j && c.wire[j - 1] == Q.Got(c.wire[j].request.key)
            && c.wire[j - 2] == Q.Asked(c.wire[j].request.kind, c.wire[j].request.message))
      && (forall j :: 0 <= j < |c.wire| && c.wire[j].Checked? ==> Q.ReadOf(c.wire, c.listed, j))
      && Q.LogTrace(c.log) == Q.WireTrace(c.wire)
  {
    Reachable(events);
    Q.HistoryWire(Q.Initial(), QueueHistory(events));
    hide After, History, Q.After, Q.History, WaitingJobs, RunningLink;
  }

  /** Nothing is left undone: in every run of the chain a prepared key goes out with its mutation as the very next thing,
      and a completed receipt on display is acknowledged as the very next thing, unless the job still waits for the
      display; and nothing else is acknowledged. */
  lemma PreparedAreSentAndCompletedAcknowledged(events: seq<Event>)
    requires History(Fresh(), events)
    ensures
      var log := After(Fresh(), events).log;
      && (forall j :: 0 <= j < |log| - 1 && log[j].Prepared? ==> log[j + 1] == Q.MutateCall(log[j].key))
      && (forall j :: 0 <= j < |log| - 1 && log[j].Published? && log[j].completed ==> log[j + 1] == Q.AcknowledgeCall(log[j].key))
      && (forall j :: 0 <= j < |log| && log[j].AcknowledgeCall? ==> 0 < j && log[j - 1] == Q.Published(log[j].key, true))
      && (log != [] && (log[|log| - 1].Prepared? || (log[|log| - 1].Published? && log[|log| - 1].completed)) ==>
            AsQueue(After(Fresh(), events)).running.Some?)
  {
    Reachable(events);
    Q.HistoryFollows(Q.Initial(), QueueHistory(events));
    hide After, History, Q.After, Q.History;
    var log := After(Fresh(), events).log;
    var running := AsQueue(After(Fresh(), events)).running;
    FollowedThroughout(log, running);
  }

  lemma FollowedThroughout(log: seq<Q.Entry>, running: Option<Q.Phase>)
    requires forall j: nat :: j < |log| ==> Q.Followed(log, running, j)
    ensures forall j :: 0 <= j < |log| - 1 && log[j].Prepared? ==> log[j + 1] == Q.MutateCall(log[j].key)
    ensures forall j :: 0 <= j < |log| - 1 && log[j].Published? && log[j].completed ==> log[j + 1] == Q.AcknowledgeCall(log[j].key)
    ensures forall j :: 0 <= j < |log| && log[j].AcknowledgeCall? ==> 0 < j && log[j - 1] == Q.Published(log[j].key, true)
    ensures log != [] && (log[|log| - 1].Prepared? || (log[|log| - 1].Published? && log[|log| - 1].completed)) ==> running.Some?
  {
    forall j | 0 <= j < |log| - 1
      ensures log[j].Prepared? ==> log[j + 1] == Q.MutateCall(log[j].key)
      ensures log[j].Published? && log[j].completed ==> log[j + 1] == Q.AcknowledgeCall(log[j].key)
    {
      assert Q.Followed(log, running, j);
    }
    forall j | 0 <= j < |log| && log[j].AcknowledgeCall? ensures 0 < j && log[j - 1] == Q.Published(log[j].key, true) {
      assert Q.Followed(log, running, j);
    }
    if log != [] { assert Q.Followed(log, running, |log| - 1); }
  }
}
