/**
  GreenbayApp.Run over amboy's local queue as a transition system: the submitting loop with a bounded
  channel behind a lock, the dispatcher, a pool of workers, the waiting loop, the results, and a context
  that may be cancelled at any time.  Jobs that completed in an earlier run are dropped by the dispatcher.
 */
module QueueRun {
  import opened Common
  import opened Greenbay
  import opened ConfigIndex
  import opened Generators
  import opened Converter
  import opened Options
  import opened App

  /** The items that arrive, and the names of the jobs that are completed already when the run begins. */
  datatype Setting = Setting(items: seq<JobWithError>, workers: int, ranBefore: set<string>)

  function PoolSize(c: Setting): (size: nat)
    ensures size > 0 && (c.workers > 0 ==> size == c.workers) && (c.workers <= 0 ==> size == 1)
  {
    if c.workers <= 0 then 1 else c.workers
  }

  /** Twice the workers, between 8 and 64. */
  function Capacity(c: Setting): (n: nat)
    ensures 8 <= n <= 64 && (4 <= c.workers <= 32 ==> n == 2 * c.workers)
    ensures (c.workers < 4 ==> n == 8) && (c.workers > 32 ==> n == 64)
  {
    if c.workers * 2 > 64 then 64 else if c.workers * 2 < 8 then 8 else c.workers * 2
  }

  /** Where an accepted job is. */
  datatype Place = Putting | Queued | Held | Running | Executed | Dropped

  /** At the top of its loop, inside Next, or offering a job to the workers. */
  datatype Dispatcher = Top | InNext | Holding(id: string) | Stopped

  datatype Phase = Submitting | Waiting | Collecting | Rejected | Reported

  /**
    putting is the job whose Put holds the lock and waits for room in the channel; ticks are the jobs whose
    completion is still to be counted; left and emitted are the range over the tasks in Results.
   */
  datatype State = State(
    next: nat, errors: nat, putting: Option<string>,
    tasks: map<string, Job>, at: map<string, Place>,
    channel: seq<string>, dispatcher: Dispatcher,
    idle: nat, quit: nat, running: set<string>,
    executed: set<string>, ticks: nat, numCompleted: nat,
    cancelled: bool, phase: Phase, left: set<string>, emitted: seq<string>)

  function Init(c: Setting): State {
    State(0, 0, None, map[], map[], [], Top, PoolSize(c), 0, {}, {}, 0, 0, false, Submitting, {}, [])
  }

  datatype Action =
    | Submit | Send
    | Look | Take | NextNil
    | HandOver | Finish(id: string) | Quit | Tick
    | Poll | GiveUp
    | Range(id: string) | Close
    | Cancel

  predicate Enabled(c: Setting, s: State, a: Action) {
    match a
    case Submit => s.phase.Submitting? && s.putting.None?
    case Send => s.putting.Some? && |s.channel| < Capacity(c) && s.next < |c.items|
    case Look => s.dispatcher.Top?
    case Take => s.dispatcher.InNext? && s.channel != []
    case NextNil => s.dispatcher.InNext? && s.cancelled
    case HandOver => s.dispatcher.Holding? && s.idle > 0
    case Finish(id) => id in s.running
    case Quit => s.idle > 0 && s.cancelled
    case Tick => s.ticks > 0 && s.putting.None?
    case Poll => s.phase.Waiting? && s.numCompleted >= |s.tasks|
    case GiveUp => s.phase.Waiting? && s.cancelled
    case Range(id) => s.phase.Collecting? && !s.cancelled && id in s.left
    case Close => s.phase.Collecting? && (s.cancelled || s.left == {})
    case Cancel => !s.cancelled
  }

  /** One turn of the submitting loop, up to the send inside Put; after the last turn, its end. */
  function DoSubmit(c: Setting, s: State): State {
    if s.next >= |c.items| then
      s.(phase := if s.errors > 0 then Rejected else Waiting)
    else
      match c.items[s.next]
      case JobOk(j) =>
        if j.id in s.tasks then s.(next := s.next + 1, errors := s.errors + 1)
        else s.(putting := Some(j.id), tasks := s.tasks[j.id := j], at := s.at[j.id := Putting])
      case _ => s.(next := s.next + 1, errors := s.errors + 1)
  }

  function DoSend(s: State): State
    requires s.putting.Some?
  {
    var id := s.putting.value;
    s.(next := s.next + 1, putting := None, at := s.at[id := Queued], channel := s.channel + [id])
  }

  /** A job that is completed already is dropped. */
  function DoTake(c: Setting, s: State): State
    requires s.channel != []
  {
    var id := s.channel[0];
    if id in c.ranBefore then s.(channel := s.channel[1..], dispatcher := Top, at := s.at[id := Dropped])
    else s.(channel := s.channel[1..], dispatcher := Holding(id), at := s.at[id := Held])
  }

  function DoHandOver(s: State): State
    requires s.dispatcher.Holding? && s.idle > 0
  {
    var id := s.dispatcher.id;
    s.(dispatcher := Top, idle := s.idle - 1, running := s.running + {id}, at := s.at[id := Running])
  }

  function DoFinish(s: State, id: string): State {
    s.(running := s.running - {id}, idle := s.idle + 1, executed := s.executed + {id}, ticks := s.ticks + 1,
       at := s.at[id := Executed])
  }

  /** Only completed jobs are sent on. */
  function DoRange(c: Setting, s: State, id: string): State {
    s.(left := s.left - {id},
       emitted := if id in s.executed || id in c.ranBefore then s.emitted + [id] else s.emitted)
  }

  function Do(c: Setting, s: State, a: Action): State
    requires Enabled(c, s, a)
  {
    match a
    case Submit => DoSubmit(c, s)
    case Send => DoSend(s)
    case Look => s.(dispatcher := if s.cancelled then Stopped else InNext)
    case Take => DoTake(c, s)
    case NextNil => s.(dispatcher := Top)
    case HandOver => DoHandOver(s)
    case Finish(id) => DoFinish(s, id)
    case Quit => s.(idle := s.idle - 1, quit := s.quit + 1)
    case Tick => s.(ticks := s.ticks - 1, numCompleted := s.numCompleted + 1)
    case Poll => s.(phase := Collecting, left := s.tasks.Keys)
    case GiveUp => s.(phase := Collecting, left := s.tasks.Keys)
    case Range(id) => DoRange(c, s, id)
    case Close => s.(phase := Reported)
    case Cancel => s.(cancelled := true)
  }

  // ----- every accepted job is in one place -----

  /** The place of a job is what the rest of the state says of it. */
  ghost predicate PlaceOf(c: Setting, s: State, id: string)
    requires id in s.at
  {
    && (s.at[id].Putting? <==> s.putting == Some(id))
    && (s.at[id].Queued? <==> id in s.channel)
    && (s.at[id].Held? <==> s.dispatcher == Holding(id))
    && (s.at[id].Running? <==> id in s.running)
    && (s.at[id].Executed? <==> id in s.executed)
    && (s.at[id].Held? || s.at[id].Running? || s.at[id].Executed? ==> id !in c.ranBefore)
    && (s.at[id].Dropped? ==> id in c.ranBefore)
  }

  ghost predicate PlacesOk(c: Setting, s: State) {
    && s.at.Keys == s.tasks.Keys
    && (forall id :: id in s.at ==> PlaceOf(c, s, id))
    && (s.putting.Some? ==> s.putting.value in s.at)
    && (forall i :: 0 <= i < |s.channel| ==> s.channel[i] in s.at)
    && Distinct(s.channel)
    && (s.dispatcher.Holding? ==> s.dispatcher.id in s.at)
    && s.running <= s.at.Keys && s.executed <= s.at.Keys
  }

  ghost predicate PoolOk(c: Setting, s: State) {
    && s.idle + s.quit + |s.running| == PoolSize(c)
    && s.ticks + s.numCompleted == |s.executed|
    && |s.channel| <= Capacity(c)
    && (s.quit > 0 || s.dispatcher.Stopped? ==> s.cancelled)
  }

  /** How many items the loop has turned to, the one in Put included. */
  function Turned(s: State): nat {
    s.next + (if s.putting.Some? then 1 else 0)
  }

  ghost predicate SubmitOk(c: Setting, s: State) {
    && Turned(s) <= |c.items|
    && |s.tasks| <= Turned(s)
    && (s.errors == 0 <==> Accepted(c.items[..Turned(s)]))
    && (s.errors == 0 ==> App.Queued(s.tasks, c.items[..Turned(s)]))
    && (!s.phase.Submitting? ==> Turned(s) == s.next == |c.items|)
    && (s.phase.Rejected? ==> s.errors > 0)
    && (s.phase.Waiting? || s.phase.Collecting? || s.phase.Reported? ==> s.errors == 0)
  }

  /** Without a cancelled context the results are all jobs, and all jobs were run. */
  ghost predicate CollectOk(s: State) {
    && Distinct(s.emitted)
    && (forall i :: 0 <= i < |s.emitted| ==> s.emitted[i] in s.executed && s.emitted[i] !in s.left)
    && (s.phase.Submitting? || s.phase.Waiting? || s.phase.Rejected? ==> s.emitted == [])
    && (s.emitted != [] ==> s.executed == s.tasks.Keys)
    && (s.phase.Collecting? ==> s.left <= s.tasks.Keys)
    && (!s.cancelled && (s.phase.Collecting? || s.phase.Reported?) ==>
          s.executed == s.tasks.Keys && forall id :: id in s.tasks ==> id in s.left || id in s.emitted)
    && (!s.cancelled && s.phase.Reported? ==> s.left == {})
  }

  ghost predicate Inv(c: Setting, s: State) {
    PlacesOk(c, s) && PoolOk(c, s) && SubmitOk(c, s) && CollectOk(s)
  }

  lemma InitInv(c: Setting)
    ensures Inv(c, Init(c))
  {
  }

  // ----- places -----

  lemma PutPlaces(c: Setting, s: State, j: Job)
    requires PlacesOk(c, s) && s.putting.None? && j.id !in s.tasks
    ensures PlacesOk(c, s.(putting := Some(j.id), tasks := s.tasks[j.id := j], at := s.at[j.id := Putting]))
  {
    var t := s.(putting := Some(j.id), tasks := s.tasks[j.id := j], at := s.at[j.id := Putting]);
    forall id | id in t.at ensures PlaceOf(c, t, id) {
      assert id in s.at ==> PlaceOf(c, s, id);
    }
  }

  /** A step that leaves the places and what they speak of alone. */
  lemma SamePlaces(c: Setting, s: State, t: State)
    requires PlacesOk(c, s)
    requires t.at == s.at && t.tasks == s.tasks && t.putting == s.putting && t.channel == s.channel
    requires t.dispatcher == s.dispatcher || (!s.dispatcher.Holding? && !t.dispatcher.Holding?)
    requires t.running == s.running && t.executed == s.executed
    ensures PlacesOk(c, t)
  {
    forall id | id in t.at ensures PlaceOf(c, t, id) {
      assert PlaceOf(c, s, id);
    }
  }

  lemma SendPlaces(c: Setting, s: State)
    requires PlacesOk(c, s) && Enabled(c, s, Send)
    ensures PlacesOk(c, DoSend(s))
  {
    var t := DoSend(s);
    assert PlaceOf(c, s, s.putting.value);
    forall id | id in t.at ensures PlaceOf(c, t, id) {
      assert PlaceOf(c, s, id);
    }
  }

  lemma TakePlaces(c: Setting, s: State)
    requires PlacesOk(c, s) && Enabled(c, s, Take)
    ensures PlacesOk(c, DoTake(c, s))
  {
    var t, first := DoTake(c, s), s.channel[0];
    assert s.channel == [first] + t.channel;
    assert PlaceOf(c, s, first);
    forall id | id in t.at ensures PlaceOf(c, t, id) {
      assert PlaceOf(c, s, id);
      assert id in s.channel <==> id == first || id in t.channel;
    }
  }

  lemma HandOverPlaces(c: Setting, s: State)
    requires PlacesOk(c, s) && Enabled(c, s, HandOver)
    ensures PlacesOk(c, DoHandOver(s))
    ensures s.dispatcher.id !in s.running
  {
    var t := DoHandOver(s);
    assert PlaceOf(c, s, s.dispatcher.id);
    forall id | id in t.at ensures PlaceOf(c, t, id) {
      assert PlaceOf(c, s, id);
    }
  }

  lemma FinishPlaces(c: Setting, s: State, done: string)
    requires PlacesOk(c, s) && done in s.running
    ensures PlacesOk(c, DoFinish(s, done))
    ensures done !in s.executed
  {
    var t := DoFinish(s, done);
    assert PlaceOf(c, s, done);
    forall id | id in t.at ensures PlaceOf(c, t, id) {
      assert PlaceOf(c, s, id);
    }
  }

  lemma SubmitPlaces(c: Setting, s: State)
    requires PlacesOk(c, s) && Enabled(c, s, Submit)
    ensures PlacesOk(c, DoSubmit(c, s))
  {
    if s.next < |c.items| && c.items[s.next].JobOk? && c.items[s.next].job.id !in s.tasks {
      PutPlaces(c, s, c.items[s.next].job);
    } else {
      SamePlaces(c, s, DoSubmit(c, s));
    }
  }

  lemma PlacesStep(c: Setting, s: State, a: Action)
    requires PlacesOk(c, s) && Enabled(c, s, a)
    ensures PlacesOk(c, Do(c, s, a))
  {
    match a
    case Submit => SubmitPlaces(c, s);
    case Send => SendPlaces(c, s);
    case Take => TakePlaces(c, s);
    case HandOver => HandOverPlaces(c, s);
    case Finish(id) => FinishPlaces(c, s, id);
    case _ => SamePlaces(c, s, Do(c, s, a));
  }

  // ----- pool, submission and results -----

  lemma HandOverPool(c: Setting, s: State)
    requires PoolOk(c, s) && Enabled(c, s, HandOver) && s.dispatcher.id !in s.running
    ensures PoolOk(c, DoHandOver(s))
  {
  }

  lemma FinishPool(c: Setting, s: State, id: string)
    requires PoolOk(c, s) && id in s.running && id !in s.executed
    ensures PoolOk(c, DoFinish(s, id))
  {
    assert s.running == (s.running - {id}) + {id};
  }

  lemma OthersPool(c: Setting, s: State, a: Action)
    requires PoolOk(c, s) && Enabled(c, s, a) && !a.HandOver? && !a.Finish?
    ensures PoolOk(c, Do(c, s, a))
  {
  }

  lemma PoolStep(c: Setting, s: State, a: Action)
    requires PlacesOk(c, s) && PoolOk(c, s) && Enabled(c, s, a)
    ensures PoolOk(c, Do(c, s, a))
  {
    match a
    case HandOver =>
      HandOverPlaces(c, s);
      HandOverPool(c, s);
    case Finish(id) =>
      FinishPlaces(c, s, id);
      FinishPool(c, s, id);
    case _ =>
      OthersPool(c, s, a);
  }

  /** The next item is an error or a second job of a name. */
  lemma SubmitFails(c: Setting, s: State)
    requires SubmitOk(c, s) && s.phase.Submitting? && s.putting.None? && s.next < |c.items|
    requires c.items[s.next].JobOk? ==> c.items[s.next].job.id in s.tasks
    ensures SubmitOk(c, s.(next := s.next + 1, errors := s.errors + 1))
  {
    AcceptNext(c.items, s.next);
    if s.errors == 0 && c.items[s.next].JobOk? {
      QueueNext(s.tasks, c.items, s.next);
    }
  }

  lemma SubmitPuts(c: Setting, s: State, j: Job)
    requires SubmitOk(c, s) && s.phase.Submitting? && s.putting.None? && s.next < |c.items|
    requires c.items[s.next] == JobOk(j) && j.id !in s.tasks
    ensures SubmitOk(c, s.(putting := Some(j.id), tasks := s.tasks[j.id := j], at := s.at[j.id := Putting]))
  {
    AcceptNext(c.items, s.next);
    assert |s.tasks[j.id := j]| == |s.tasks| + 1;
    if s.errors == 0 {
      QueueNext(s.tasks, c.items, s.next);
    }
  }

  lemma SubmitNext(c: Setting, s: State)
    requires SubmitOk(c, s) && Enabled(c, s, Submit)
    ensures SubmitOk(c, DoSubmit(c, s))
  {
    if s.next < |c.items| {
      match c.items[s.next]
      case JobOk(j) =>
        if j.id in s.tasks {
          SubmitFails(c, s);
        } else {
          SubmitPuts(c, s, j);
        }
      case _ => SubmitFails(c, s);
    }
  }

  lemma SubmitStep(c: Setting, s: State, a: Action)
    requires SubmitOk(c, s) && Enabled(c, s, a)
    ensures SubmitOk(c, Do(c, s, a))
  {
    if a.Submit? {
      SubmitNext(c, s);
    }
  }

  /** When as many jobs are counted as there are, all of them were run. */
  lemma AllCounted(c: Setting, s: State)
    requires PlacesOk(c, s) && PoolOk(c, s) && s.numCompleted >= |s.tasks|
    ensures s.executed == s.tasks.Keys
  {
    assert |s.tasks.Keys| == |s.tasks|;
    SameSize(s.executed, s.tasks.Keys);
  }

  lemma SameSize<T>(a: set<T>, b: set<T>)
    requires a <= b && |a| >= |b|
    ensures a == b
  {
    assert b == a + (b - a);
    assert |b| == |a| + |b - a|;
  }

  lemma RangeCollects(c: Setting, s: State, id: string)
    requires CollectOk(s) && s.phase.Collecting? && !s.cancelled && id in s.left
    ensures CollectOk(DoRange(c, s, id))
  {
    assert id in s.executed;
    var t := DoRange(c, s, id);
    assert t.emitted == s.emitted + [id];
    forall other | other in t.tasks ensures other in t.left || other in t.emitted {
      assert other in s.left || other in s.emitted;
      assert id in t.emitted by { assert t.emitted[|s.emitted|] == id; }
      if other in s.emitted {
        var k :| 0 <= k < |s.emitted| && s.emitted[k] == other;
        assert t.emitted[k] == other;
      }
    }
  }

  lemma PollCollects(s: State)
    requires CollectOk(s) && s.phase.Waiting? && s.executed == s.tasks.Keys
    ensures CollectOk(s.(phase := Collecting, left := s.tasks.Keys))
  {
  }

  /** Once all jobs were run there is none left to finish. */
  lemma FinishCollects(s: State, id: string)
    requires CollectOk(s) && id in s.tasks && id !in s.executed && id in s.running
    ensures CollectOk(DoFinish(s, id))
  {
  }

  lemma SubmitCollects(c: Setting, s: State)
    requires CollectOk(s) && Enabled(c, s, Submit)
    ensures CollectOk(DoSubmit(c, s))
  {
  }

  lemma OthersCollect(c: Setting, s: State, a: Action)
    requires CollectOk(s) && Enabled(c, s, a) && !a.Range? && !a.Poll? && !a.Finish? && !a.Submit?
    ensures CollectOk(Do(c, s, a))
  {
  }

  lemma CollectStep(c: Setting, s: State, a: Action)
    requires PlacesOk(c, s) && PoolOk(c, s) && CollectOk(s) && Enabled(c, s, a)
    ensures CollectOk(Do(c, s, a))
  {
    match a
    case Range(id) => RangeCollects(c, s, id);
    case Poll =>
      AllCounted(c, s);
      PollCollects(s);
    case Finish(id) =>
      FinishPlaces(c, s, id);
      FinishCollects(s, id);
    case Submit => SubmitCollects(c, s);
    case _ => OthersCollect(c, s, a);
  }

  lemma StepInv(c: Setting, s: State, a: Action)
    requires Inv(c, s) && Enabled(c, s, a)
    ensures Inv(c, Do(c, s, a))
  {
    PlacesStep(c, s, a);
    PoolStep(c, s, a);
    SubmitStep(c, s, a);
    CollectStep(c, s, a);
  }

  ghost predicate Runs(c: Setting, s: State, actions: seq<Action>, t: State)
    decreases |actions|
  {
    if actions == [] then s == t
    else Enabled(c, s, actions[0]) && Runs(c, Do(c, s, actions[0]), actions[1..], t)
  }

  lemma {:induction false} RunsInv(c: Setting, s: State, actions: seq<Action>, t: State)
    requires Inv(c, s) && Runs(c, s, actions, t)
    ensures Inv(c, t)
    decreases |actions|
  {
    if actions == [] {
    } else {
      StepInv(c, s, actions[0]);
      RunsInv(c, Do(c, s, actions[0]), actions[1..], t);
    }
  }

  // ----- what a run that ends has reported -----

  /** The results that reach the producer; execute gives the output that a job has at the end. */
  ghost function Delivered(t: State, execute: Job -> CheckOutput): seq<QueuedJob>
    requires forall i :: 0 <= i < |t.emitted| ==> t.emitted[i] in t.tasks
  {
    seq(|t.emitted|, i requires 0 <= i < |t.emitted| => Check(execute(t.tasks[t.emitted[i]])))
  }

  /** All jobs that were reported passed. */
  ghost predicate ReportedPass(t: State, execute: Job -> CheckOutput) {
    forall i :: 0 <= i < |t.emitted| && t.emitted[i] in t.tasks ==> execute(t.tasks[t.emitted[i]]).passed
  }

  lemma EmittedAreTasks(c: Setting, t: State)
    requires Inv(c, t)
    ensures forall i :: 0 <= i < |t.emitted| ==> t.emitted[i] in t.tasks && t.emitted[i] !in c.ranBefore
  {
    forall i | 0 <= i < |t.emitted| ensures t.emitted[i] in t.tasks && t.emitted[i] !in c.ranBefore {
      assert t.emitted[i] in t.executed;
      assert PlaceOf(c, t, t.emitted[i]);
    }
  }

  lemma AllEmitted(c: Setting, t: State)
    requires Inv(c, t) && t.phase.Reported? && !t.cancelled
    ensures forall id :: id in t.emitted <==> id in t.tasks
    ensures t.tasks.Keys !! c.ranBefore
  {
    EmittedAreTasks(c, t);
    forall id | id in t.tasks ensures id in t.emitted && id !in c.ranBefore {
      assert id in t.left || id in t.emitted;
    }
  }

  lemma AllReportedPass(c: Setting, t: State, execute: Job -> CheckOutput)
    requires Inv(c, t) && App.Queued(t.tasks, c.items) && Accepted(c.items)
    requires forall id :: id in t.emitted <==> id in t.tasks
    ensures ReportedPass(t, execute) <==> App.Runs(c.items, execute)
  {
    if ReportedPass(t, execute) {
      forall i | 0 <= i < |c.items| ensures execute(c.items[i].job).passed {
        assert c.items[i].JobOk?;
        var id := c.items[i].job.id;
        assert id in t.tasks && id in t.emitted;
        var k :| 0 <= k < |t.emitted| && t.emitted[k] == id;
      }
    }
    if App.Runs(c.items, execute) {
      forall k | 0 <= k < |t.emitted| ensures execute(t.tasks[t.emitted[k]]).passed {
        assert t.emitted[k] in t.tasks && t.emitted[k] in IdsOf(c.items);
        var i :| 0 <= i < |c.items| && c.items[i].JobOk? && c.items[i].job.id == t.emitted[k];
      }
    }
  }

  lemma DeliveredPass(t: State, execute: Job -> CheckOutput)
    requires forall i :: 0 <= i < |t.emitted| ==> t.emitted[i] in t.tasks
    ensures AllPassed(Delivered(t, execute)) <==> ReportedPass(t, execute)
  {
    var jobs := Delivered(t, execute);
    assert forall i :: 0 <= i < |jobs| ==> jobs[i] == Check(execute(t.tasks[t.emitted[i]]));
  }

  /** At its report a run has put every item into the queue. */
  lemma ReportedTookAll(c: Setting, t: State)
    requires SubmitOk(c, t) && t.phase.Reported?
    ensures Accepted(c.items) && App.Queued(t.tasks, c.items)
  {
    assert c.items[..|c.items|] == c.items;
  }

  /**
    A run that reports took every item, and reports distinct jobs that it ran itself.  It succeeds exactly
    when the output works and what it reports passed.  Unless the context was cancelled that is every
    selected job, and none of them had been completed before.
   */
  lemma RunOutcome(c: Setting, actions: seq<Action>, t: State, execute: Job -> CheckOutput, o: Options, io: IO)
    requires Runs(c, Init(c), actions, t) && t.phase.Reported?
    ensures Accepted(c.items) && App.Queued(t.tasks, c.items) && Distinct(t.emitted)
    ensures forall i :: 0 <= i < |t.emitted| ==> t.emitted[i] in t.tasks && t.emitted[i] !in c.ranBefore
    ensures Succeeds(o, Delivered(t, execute), io) <==> OutputWorks(o, io) && ReportedPass(t, execute)
    ensures t.emitted != [] ==> t.executed == IdsOf(c.items)
    ensures !t.cancelled ==>
      && IdsOf(c.items) !! c.ranBefore && t.executed == IdsOf(c.items)
      && (forall id :: id in t.emitted <==> id in IdsOf(c.items))
      && (Succeeds(o, Delivered(t, execute), io) <==> OutputWorks(o, io) && App.Runs(c.items, execute))
  {
    InitInv(c);
    RunsInv(c, Init(c), actions, t);
    ReportedTookAll(c, t);
    EmittedAreTasks(c, t);
    DeliveredPass(t, execute);
    if !t.cancelled {
      AllEmitted(c, t);
      AllReportedPass(c, t, execute);
    }
  }

  /** Success without all selected checks having passed: the exact case is a cancelled context before any
      failing job was reported. */
  lemma FalseSuccess(c: Setting, actions: seq<Action>, t: State, execute: Job -> CheckOutput, o: Options, io: IO)
    requires Runs(c, Init(c), actions, t) && t.phase.Reported? && OutputWorks(o, io)
    ensures forall i :: 0 <= i < |t.emitted| ==> t.emitted[i] in t.tasks
    ensures Succeeds(o, Delivered(t, execute), io) && !App.Runs(c.items, execute) <==>
      && t.cancelled
      && (exists id :: id in t.tasks && !execute(t.tasks[id]).passed)
      && forall id :: id in t.tasks && !execute(t.tasks[id]).passed ==> id !in t.emitted
  {
    RunOutcome(c, actions, t, execute, o, io);
    SomeFail(c.items, t.tasks, execute);
    assert ReportedPass(t, execute) <==>
      forall id :: id in t.tasks && !execute(t.tasks[id]).passed ==> id !in t.emitted;
  }

  lemma SomeFail(items: seq<JobWithError>, tasks: map<string, Job>, execute: Job -> CheckOutput)
    requires Accepted(items) && App.Queued(tasks, items)
    ensures !App.Runs(items, execute) <==> exists id :: id in tasks && !execute(tasks[id]).passed
  {
    if i :| 0 <= i < |items| && items[i].JobOk? && !execute(items[i].job).passed {
      assert items[i].job.id in tasks;
    }
    if id :| id in tasks && !execute(tasks[id]).passed {
      assert id in IdsOf(items);
      var i :| 0 <= i < |items| && items[i].JobOk? && items[i].job.id == id;
      assert !execute(items[i].job).passed;
    }
  }

  // ----- where runs end -----

  lemma SizeOfDistinct(xs: seq<string>)
    requires Distinct(xs)
    ensures |set x | x in xs| == |xs|
  {
    if xs == [] {
      assert (set x | x in xs) == {};
    } else {
      var n := |xs| - 1;
      SizeOfDistinct(xs[..n]);
      assert xs[n] !in xs[..n];
      assert (set x | x in xs) == (set x | x in xs[..n]) + {xs[n]};
    }
  }

  ghost predicate Halted(c: Setting, s: State) {
    forall a :: a != Cancel ==> !Enabled(c, s, a)
  }

  lemma NothingMoves(c: Setting, s: State)
    requires PoolOk(c, s) && Halted(c, s) && !s.cancelled
    ensures s.running == {} && s.dispatcher.InNext? && s.channel == []
  {
    forall id ensures id !in s.running {
      assert Enabled(c, s, Finish(id)) <==> id in s.running;
    }
    assert s.running == {};
    assert !Enabled(c, s, Look) && !Enabled(c, s, Take) && !Enabled(c, s, HandOver);
  }

  lemma CollectingGoesOn(c: Setting, s: State)
    requires s.phase.Collecting?
    ensures !Halted(c, s)
  {
    if s.cancelled || s.left == {} {
      assert Enabled(c, s, Close);
    } else {
      var id :| id in s.left;
      assert Enabled(c, s, Range(id));
    }
  }

  /** A run that waits for ever has run everything but the jobs that the dispatcher dropped. */
  lemma WaitsForDropped(c: Setting, s: State)
    requires PlacesOk(c, s) && PoolOk(c, s) && Halted(c, s) && s.phase.Waiting? && s.putting.None?
    ensures !s.cancelled && s.executed == s.tasks.Keys - c.ranBefore && !(s.tasks.Keys !! c.ranBefore)
  {
    assert !Enabled(c, s, Poll) && !Enabled(c, s, GiveUp) && !Enabled(c, s, Tick);
    NothingMoves(c, s);
    forall id | id in s.tasks ensures id in s.executed <==> id !in c.ranBefore {
      assert PlaceOf(c, s, id);
    }
    assert s.executed == s.tasks.Keys - c.ranBefore;
    assert |s.executed| < |s.tasks| == |s.tasks.Keys|;
    assert s.executed != s.tasks.Keys;
  }

  /** Outside Put a run halts only at its end, or waiting for a job that the dispatcher has dropped. */
  lemma HaltedOutsidePut(c: Setting, s: State)
    requires Inv(c, s) && Halted(c, s) && s.putting.None?
    ensures s.phase.Rejected? || s.phase.Reported? || s.phase.Waiting?
    ensures s.phase.Waiting? ==>
      !s.cancelled && s.executed == s.tasks.Keys - c.ranBefore && !(s.tasks.Keys !! c.ranBefore)
  {
    assert !Enabled(c, s, Submit);
    if s.phase.Collecting? {
      CollectingGoesOn(c, s);
    } else if s.phase.Waiting? {
      WaitsForDropped(c, s);
    }
  }

  /** Inside Put a run halts only under a cancelled context, with more jobs than the channel has room for. */
  lemma HaltedInPut(c: Setting, s: State)
    requires Inv(c, s) && Halted(c, s) && s.putting.Some?
    ensures s.phase.Submitting? && s.cancelled && |s.channel| == Capacity(c) && |s.tasks| > Capacity(c)
  {
    assert !Enabled(c, s, Send);
    if !s.cancelled {
      NothingMoves(c, s);
      assert false;
    }
    var id, queued := s.putting.value, set x | x in s.channel;
    assert PlaceOf(c, s, id);
    SizeOfDistinct(s.channel);
    assert queued + {id} <= s.tasks.Keys;
    assert |queued + {id}| == |queued| + 1;
    Smaller(queued + {id}, s.tasks.Keys);
    assert |s.tasks.Keys| == |s.tasks|;
  }

  lemma Smaller<T>(a: set<T>, b: set<T>)
    requires a <= b
    ensures |a| <= |b|
  {
    assert b == a + (b - a);
  }

  /**
    How a run can halt.  As long as the context lives it is rejected iff some item is not accepted, waits
    for ever iff all are accepted but some selected job was completed by an earlier run, and reports
    otherwise.  Under a cancelled context it ends, unless Put waits for room that no one makes any more,
    which takes more jobs than the channel holds.
   */
  lemma MaximalRun(c: Setting, actions: seq<Action>, t: State)
    requires Runs(c, Init(c), actions, t) && Halted(c, t)
    ensures !t.cancelled ==>
      && (t.phase.Rejected? <==> !Accepted(c.items))
      && (t.phase.Reported? <==> Accepted(c.items) && IdsOf(c.items) !! c.ranBefore)
      && (t.phase.Waiting? <==> Accepted(c.items) && !(IdsOf(c.items) !! c.ranBefore))
    ensures t.cancelled ==>
      || (t.phase.Rejected? && !Accepted(c.items))
      || (t.phase.Reported? && Accepted(c.items))
      || (t.phase.Submitting? && t.putting.Some? && |t.tasks| > Capacity(c))
  {
    InitInv(c);
    RunsInv(c, Init(c), actions, t);
    assert c.items[..|c.items|] == c.items;
    if t.putting.Some? {
      HaltedInPut(c, t);
    } else {
      HaltedOutsidePut(c, t);
      if t.phase.Reported? && !t.cancelled {
        AllEmitted(c, t);
      }
    }
  }

  // ----- no run is infinite -----

  function DispatcherWork(d: Dispatcher, cancelled: bool): nat {
    match d
    case Top => if cancelled then 1 else 2
    case InNext => if cancelled then 2 else 1
    case Holding(_) => 5
    case Stopped => 0
  }

  function PhaseWork(c: Setting, s: State): nat {
    match s.phase
    case Submitting => 3 + |c.items|
    case Waiting => 2 + |c.items|
    case Collecting => 1 + |s.left|
    case _ => 0
  }

  function Work(c: Setting, s: State): int {
    10 * (|c.items| - s.next) - (if s.putting.Some? then 1 else 0)
    + 7 * |s.channel| + DispatcherWork(s.dispatcher, s.cancelled) + 3 * |s.running| + s.idle + s.ticks
    + (if s.cancelled then 0 else 3) + PhaseWork(c, s)
  }

  lemma WorkIsNatural(c: Setting, s: State)
    requires SubmitOk(c, s)
    ensures Work(c, s) >= 0
  {
  }

  lemma SubmitLowers(c: Setting, s: State)
    requires SubmitOk(c, s) && Enabled(c, s, Submit)
    ensures Work(c, DoSubmit(c, s)) < Work(c, s)
  {
  }

  lemma RangeLowers(c: Setting, s: State, id: string)
    requires Enabled(c, s, Range(id))
    ensures Work(c, DoRange(c, s, id)) < Work(c, s)
  {
    assert s.left == (s.left - {id}) + {id};
  }

  /** The ends of the waiting and of the collecting phase. */
  lemma PhaseLowers(c: Setting, s: State, a: Action)
    requires SubmitOk(c, s) && Enabled(c, s, a) && (a.Poll? || a.GiveUp? || a.Close?)
    ensures Work(c, Do(c, s, a)) < Work(c, s)
  {
    assert |s.tasks.Keys| == |s.tasks|;
  }

  lemma HandOverLowers(c: Setting, s: State)
    requires Enabled(c, s, HandOver) && s.dispatcher.id !in s.running
    ensures Work(c, DoHandOver(s)) < Work(c, s)
  {
  }

  lemma FinishLowers(c: Setting, s: State, id: string)
    requires id in s.running
    ensures Work(c, DoFinish(s, id)) < Work(c, s)
  {
    assert s.running == (s.running - {id}) + {id};
  }

  lemma TakeLowers(c: Setting, s: State)
    requires Enabled(c, s, Take)
    ensures Work(c, DoTake(c, s)) < Work(c, s)
  {
  }

  lemma SendLowers(c: Setting, s: State)
    requires Enabled(c, s, Send)
    ensures Work(c, DoSend(s)) < Work(c, s)
  {
  }

  lemma OthersLower(c: Setting, s: State, a: Action)
    requires Enabled(c, s, a) && (a.Look? || a.NextNil? || a.Cancel? || a.Quit? || a.Tick?)
    ensures Work(c, Do(c, s, a)) < Work(c, s)
  {
  }

  lemma QueueLowers(c: Setting, s: State, a: Action)
    requires SubmitOk(c, s) && Enabled(c, s, a) && (a.Submit? || a.Send? || a.Take?)
    ensures Work(c, Do(c, s, a)) < Work(c, s)
  {
    match a
    case Submit => SubmitLowers(c, s);
    case Send => SendLowers(c, s);
    case Take => TakeLowers(c, s);
  }

  lemma WorkersLower(c: Setting, s: State, a: Action)
    requires PlacesOk(c, s) && Enabled(c, s, a) && (a.HandOver? || a.Finish?)
    ensures Work(c, Do(c, s, a)) < Work(c, s)
  {
    match a
    case HandOver =>
      HandOverPlaces(c, s);
      HandOverLowers(c, s);
    case Finish(id) => FinishLowers(c, s, id);
  }

  lemma StepLowers(c: Setting, s: State, a: Action)
    requires PlacesOk(c, s) && SubmitOk(c, s) && Enabled(c, s, a)
    ensures Work(c, Do(c, s, a)) < Work(c, s)
  {
    if a.Submit? || a.Send? || a.Take? {
      QueueLowers(c, s, a);
    } else if a.HandOver? || a.Finish? {
      WorkersLower(c, s, a);
    } else if a.Range? {
      RangeLowers(c, s, a.id);
    } else if a.Poll? || a.GiveUp? || a.Close? {
      PhaseLowers(c, s, a);
    } else {
      OthersLower(c, s, a);
    }
  }

  /** Every step lowers the work that is left, a cancellation included; so no run is infinite. */
  lemma WorkDrops(c: Setting, s: State, a: Action)
    requires Inv(c, s) && Enabled(c, s, a)
    ensures 0 <= Work(c, Do(c, s, a)) < Work(c, s)
  {
    StepInv(c, s, a);
    WorkIsNatural(c, Do(c, s, a));
    StepLowers(c, s, a);
  }

  // ----- a cancelled context can make any accepted selection succeed -----

  lemma RunsStep(c: Setting, s: State, a: Action, actions: seq<Action>, t: State)
    requires Enabled(c, s, a) && Runs(c, Do(c, s, a), actions, t)
    ensures Runs(c, s, [a] + actions, t)
  {
    assert ([a] + actions)[1..] == actions;
  }

  /** While the context lives, the submitting loop or what it waits for can move. */
  lemma SubmissionMoves(c: Setting, s: State) returns (a: Action)
    requires PoolOk(c, s) && SubmitOk(c, s) && s.phase.Submitting? && !s.cancelled
    ensures Enabled(c, s, a) && !Do(c, s, a).cancelled
    ensures Do(c, s, a).phase in {Submitting, Waiting, Rejected}
  {
    if s.putting.None? {
      a := Submit;
    } else if |s.channel| < Capacity(c) {
      a := Send;
    } else if s.running != {} {
      var id :| id in s.running;
      a := Finish(id);
    } else {
      a := if s.dispatcher.Top? then Look else if s.dispatcher.InNext? then Take else HandOver;
    }
  }

  lemma {:induction false} SubmissionEnds(c: Setting, s: State) returns (actions: seq<Action>, t: State)
    requires Inv(c, s) && s.phase.Submitting? && !s.cancelled
    ensures Runs(c, s, actions, t) && !t.cancelled && (t.phase.Waiting? || t.phase.Rejected?)
    decreases Work(c, s)
  {
    var a := SubmissionMoves(c, s);
    var next := Do(c, s, a);
    StepInv(c, s, a);
    WorkDrops(c, s, a);
    actions, t := [], next;
    if next.phase.Submitting? {
      actions, t := SubmissionEnds(c, next);
    }
    RunsStep(c, s, a, actions, t);
    actions := [a] + actions;
  }

  lemma {:induction false} RunsFurther(c: Setting, s: State, actions: seq<Action>, m: State, more: seq<Action>,
                                      t: State)
    requires Runs(c, s, actions, m) && Runs(c, m, more, t)
    ensures Runs(c, s, actions + more, t)
    decreases |actions|
  {
    if actions == [] {
      assert actions + more == more;
    } else {
      RunsFurther(c, Do(c, s, actions[0]), actions[1..], m, more, t);
      RunsStep(c, s, actions[0], actions[1..] + more, t);
      assert [actions[0]] + (actions[1..] + more) == actions + more;
    }
  }

  /** A context that is cancelled while the run waits leaves nothing to report. */
  lemma CancelledWait(c: Setting, s: State) returns (actions: seq<Action>, t: State)
    requires Inv(c, s) && s.phase.Waiting? && !s.cancelled
    ensures Runs(c, s, actions, t) && t.phase.Reported? && t.emitted == []
  {
    var s1 := Do(c, s, Cancel);
    var s2 := Do(c, s1, GiveUp);
    t := Do(c, s2, Close);
    RunsStep(c, s2, Close, [], t);
    RunsStep(c, s1, GiveUp, [Close], t);
    RunsStep(c, s, Cancel, [GiveUp] + [Close], t);
    actions := [Cancel] + ([GiveUp] + [Close]);
  }

  /** So every accepted selection has a run that succeeds, whatever its jobs would have reported. */
  lemma NothingReported(c: Setting, execute: Job -> CheckOutput, o: Options, io: IO)
    returns (actions: seq<Action>, t: State)
    requires Accepted(c.items) && OutputWorks(o, io)
    ensures Runs(c, Init(c), actions, t) && t.phase.Reported? && t.emitted == []
    ensures Succeeds(o, Delivered(t, execute), io)
  {
    InitInv(c);
    var first, m := SubmissionEnds(c, Init(c));
    RunsInv(c, Init(c), first, m);
    assert c.items[..|c.items|] == c.items;
    assert m.phase.Waiting?;
    var more;
    more, t := CancelledWait(c, m);
    RunsFurther(c, Init(c), first, m, more, t);
    actions := first + more;
  }
}
