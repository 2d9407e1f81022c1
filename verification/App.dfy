/** A whole run: select the tests, queue them, run them on some workers, report. */
module App {
  import opened Greenbay
  import opened ConfigIndex
  import opened Generators
  import opened Converter
  import opened Options

  /** amboy's local queue, as far as a run uses it. */
  class LocalUnordered {
    const workers: int
    var started: bool
    var tasks: map<string, Job>
    var channel: seq<string>
    var completed: set<string>

    ghost predicate Valid()
      reads this
    {
      multiset(channel) == multiset(tasks.Keys)
    }

    constructor (workers: int)
      ensures Valid() && tasks == map[] && completed == {} && !started
    {
      this.workers := workers;
      started, tasks, channel, completed := false, map[], [], {};
    }

    method Start()
      modifies this`started
      ensures started
    {
      started := true;
    }

    method Put(j: Job) returns (ok: bool)
      requires Valid()
      modifies this`tasks, this`channel
      ensures Valid()
      ensures ok <==> started && j.id !in old(tasks)
      ensures tasks == if ok then old(tasks)[j.id := j] else old(tasks)
    {
      if !started || j.id in tasks {
        return false;
      }
      assert (tasks[j.id := j]).Keys == tasks.Keys + {j.id};
      tasks := tasks[j.id := j];
      channel := channel + [j.id];
      return true;
    }

    /** Any schedule of the workers: at most size jobs run at once, and they finish in any order. */
    method Wait() returns (order: seq<string>)
      requires Valid() && completed == {}
      modifies this`completed
      ensures completed == tasks.Keys
      ensures multiset(order) == multiset(tasks.Keys)
    {
      var size := if workers <= 0 then 1 else workers;
      var waiting, running := channel, [];
      order := [];
      while waiting != [] || running != []
        invariant Scheduled(tasks.Keys, waiting, running, order)
        invariant |running| <= size
        invariant forall id :: id in completed <==> id in order
        decreases 2 * |waiting| + |running|
      {
        if {
          case waiting != [] && |running| < size =>
            StartNext(tasks.Keys, waiting, running, order);
            running, waiting := running + [waiting[0]], waiting[1..];
          case running != [] =>
            var k :| 0 <= k < |running|;
            Finish(tasks.Keys, waiting, running, order, k);
            order := order + [running[k]];
            completed := completed + {running[k]};
            running := running[..k] + running[k + 1..];
        }
      }
      AllFinished(tasks.Keys, order, completed);
    }

    /** The completed jobs in any order, as ranging over a Go map gives them. */
    method Results(execute: Job -> CheckOutput) returns (jobs: seq<QueuedJob>)
      requires completed <= tasks.Keys
      ensures forall j :: j in jobs <==> exists id :: id in completed && j == Check(execute(tasks[id]))
      ensures |jobs| == |completed|
    {
      jobs := [];
      var left := tasks.Keys;
      NoResult(completed, tasks, execute);
      while left != {}
        invariant left <= tasks.Keys
        invariant ResultsOf(jobs, completed - left, tasks, execute)
      {
        var id :| id in left;
        ghost var taken := completed - left;
        left := left - {id};
        if id in completed {
          assert completed - left == taken + {id};
          OneMoreResult(jobs, taken, tasks, execute, id);
          jobs := jobs + [Check(execute(tasks[id]))];
        } else {
          assert completed - left == taken;
        }
      }
      assert completed - left == completed;
    }
  }

  /** Every queued job waits, runs or is done. */
  ghost predicate Scheduled(ids: set<string>, waiting: seq<string>, running: seq<string>, order: seq<string>) {
    multiset(waiting) + multiset(running) + multiset(order) == multiset(ids)
  }

  lemma StartNext(ids: set<string>, waiting: seq<string>, running: seq<string>, order: seq<string>)
    requires Scheduled(ids, waiting, running, order) && waiting != []
    ensures Scheduled(ids, waiting[1..], running + [waiting[0]], order)
  {
    assert waiting == [waiting[0]] + waiting[1..];
  }

  lemma Finish(ids: set<string>, waiting: seq<string>, running: seq<string>, order: seq<string>, k: nat)
    requires Scheduled(ids, waiting, running, order) && k < |running|
    ensures Scheduled(ids, waiting, running[..k] + running[k + 1..], order + [running[k]])
  {
    assert running == running[..k] + [running[k]] + running[k + 1..];
  }

  lemma AllFinished(ids: set<string>, order: seq<string>, completed: set<string>)
    requires Scheduled(ids, [], [], order)
    requires forall id :: id in completed <==> id in order
    ensures multiset(order) == multiset(ids) && completed == ids
  {
    assert multiset(order) == multiset(ids);
    forall id ensures id in completed <==> id in ids {
      assert id in order <==> id in multiset(order);
      assert id in ids <==> id in multiset(ids);
    }
  }

  /** The jobs are the executed ones of the given ids, once each. */
  ghost predicate ResultsOf(jobs: seq<QueuedJob>, ids: set<string>, tasks: map<string, Job>,
                            execute: Job -> CheckOutput)
    requires ids <= tasks.Keys
  {
    && |jobs| == |ids|
    && forall j :: j in jobs <==> exists id :: id in ids && j == Check(execute(tasks[id]))
  }

  lemma NoResult(completed: set<string>, tasks: map<string, Job>, execute: Job -> CheckOutput)
    requires completed <= tasks.Keys
    ensures ResultsOf([], completed - tasks.Keys, tasks, execute)
  {
    assert completed - tasks.Keys == {};
  }

  lemma OneMoreResult(jobs: seq<QueuedJob>, ids: set<string>, tasks: map<string, Job>, execute: Job -> CheckOutput,
                      id: string)
    requires ids <= tasks.Keys && id in tasks && id !in ids
    requires ResultsOf(jobs, ids, tasks, execute)
    ensures ResultsOf(jobs + [Check(execute(tasks[id]))], ids + {id}, tasks, execute)
  {
    var now := jobs + [Check(execute(tasks[id]))];
    forall j ensures j in now <==> exists other :: other in ids + {id} && j == Check(execute(tasks[other])) {
      assert j in now <==> j in jobs || j == Check(execute(tasks[id]));
      if j in jobs {
        var other :| other in ids && j == Check(execute(tasks[other]));
        assert other in ids + {id};
      }
    }
  }

  /** The queue accepts every item that arrives. */
  ghost predicate Accepted(items: seq<JobWithError>) {
    && (forall i :: 0 <= i < |items| ==> items[i].JobOk?)
    && (forall i, j :: 0 <= i < j < |items| && items[i].JobOk? && items[j].JobOk? ==>
          items[i].job.id != items[j].job.id)
  }

  function IdsOf(items: seq<JobWithError>): set<string> {
    set i | 0 <= i < |items| && items[i].JobOk? :: items[i].job.id
  }

  ghost predicate Runs(items: seq<JobWithError>, execute: Job -> CheckOutput) {
    forall i :: 0 <= i < |items| && items[i].JobOk? ==> execute(items[i].job).passed
  }

  /**
    GreenbayApp.Run on the items that GetAllTests delivers.  It reports no error exactly when every item
    is a job, no two jobs share a name, all of them pass, and the output works.
   */
  method Run(items: seq<JobWithError>, output: Options, workers: int, execute: Job -> CheckOutput,
             io: IO, rt: Runtime)
    returns (ok: bool)
    ensures ok <==> Accepted(items) && Runs(items, execute) && OutputWorks(output, io)
    ensures ok <==>
      && (forall i :: 0 <= i < |items| ==> items[i].JobOk? && execute(items[i].job).passed)
      && (forall i, j :: 0 <= i < j < |items| && items[i].JobOk? && items[j].JobOk? ==>
            items[i].job.id != items[j].job.id)
      && output.format in {"gotest", "result", "log", "json", "report"}
      && (output.format == "gotest" || io.printWorks) && (output.writeFile ==> io.fileWorks)
  {
    var q := new LocalUnordered(workers);
    q.Start();
    var errors := Submit(q, items);
    if errors != 0 {
      return false;
    }
    var order := q.Wait();
    var jobs := q.Results(execute);
    ok := CollectResults(output, jobs, io, rt);
    AllPassedIffRuns(q.tasks, items, execute, jobs);
  }

  /** The loop over the stream: it puts the jobs and counts the errors. */
  method Submit(q: LocalUnordered, items: seq<JobWithError>) returns (errors: nat)
    requires q.Valid() && q.started && q.tasks == map[]
    modifies q`tasks, q`channel
    ensures q.Valid()
    ensures errors == 0 <==> Accepted(items)
    ensures errors == 0 ==> Queued(q.tasks, items)
  {
    errors := 0;
    for i := 0 to |items|
      invariant q.Valid()
      invariant errors == 0 <==> Accepted(items[..i])
      invariant errors == 0 ==> Queued(q.tasks, items[..i])
    {
      var check := items[i];
      AcceptNext(items, i);
      if !check.JobOk? {
        errors := errors + 1;
        continue;
      }
      if errors == 0 {
        QueueNext(q.tasks, items, i);
      }
      var put := q.Put(check.job);
      if !put {
        errors := errors + 1;
      }
    }
    assert items[..|items|] == items;
  }

  /** The queue holds exactly the jobs of the items, under their names. */
  ghost predicate Queued(tasks: map<string, Job>, items: seq<JobWithError>) {
    && tasks.Keys == IdsOf(items)
    && forall i :: 0 <= i < |items| && items[i].JobOk? ==>
         items[i].job.id in tasks && tasks[items[i].job.id] == items[i].job
  }

  lemma AcceptNext(items: seq<JobWithError>, i: nat)
    requires i < |items|
    ensures Accepted(items[..i + 1]) <==>
      Accepted(items[..i]) && items[i].JobOk? && items[i].job.id !in IdsOf(items[..i])
  {
    var was, now := items[..i], items[..i + 1];
    assert forall k :: 0 <= k < i ==> now[k] == was[k];
    if items[i].JobOk? && items[i].job.id in IdsOf(was) {
      var k :| 0 <= k < |was| && was[k].JobOk? && was[k].job.id == items[i].job.id;
      assert now[k].job.id == now[i].job.id;
    }
  }

  lemma QueueNext(tasks: map<string, Job>, items: seq<JobWithError>, i: nat)
    requires i < |items| && items[i].JobOk? && Queued(tasks, items[..i])
    ensures items[i].job.id !in tasks ==> Queued(tasks[items[i].job.id := items[i].job], items[..i + 1])
    ensures items[i].job.id in tasks <==> items[i].job.id in IdsOf(items[..i])
  {
    var was, now := items[..i], items[..i + 1];
    assert forall k :: 0 <= k < i ==> now[k] == was[k];
    assert IdsOf(now) == IdsOf(was) + {items[i].job.id} by {
      assert now == was + [items[i]];
      forall id | id in IdsOf(was) ensures id in IdsOf(now) {
        var k :| 0 <= k < |was| && was[k].JobOk? && was[k].job.id == id;
        assert now[k].JobOk? && now[k].job.id == id;
      }
      assert now[i].JobOk?;
    }
  }

  lemma AllPassedIffRuns(tasks: map<string, Job>, items: seq<JobWithError>, execute: Job -> CheckOutput,
                         jobs: seq<QueuedJob>)
    requires Accepted(items) && Queued(tasks, items)
    requires forall j :: j in jobs <==> exists id :: id in tasks && j == Check(execute(tasks[id]))
    ensures AllPassed(jobs) <==> Runs(items, execute)
  {
    if AllPassed(jobs) {
      forall i | 0 <= i < |items| ensures execute(items[i].job).passed {
        assert items[i].JobOk?;
        assert Check(execute(tasks[items[i].job.id])) in jobs;
      }
    }
    if Runs(items, execute) {
      forall k | 0 <= k < |jobs| ensures jobs[k].Check? && jobs[k].output.passed {
        assert jobs[k] in jobs;
        var id :| id in tasks && jobs[k] == Check(execute(tasks[id]));
        var i :| 0 <= i < |items| && items[i].JobOk? && items[i].job.id == id;
      }
    }
  }
}
