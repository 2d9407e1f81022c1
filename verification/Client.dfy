/** The remote client: submit, wait, fetch the jobs back over channels, report. */
module Client {
  import opened Common
  import opened ConfigIndex
  import opened Generators
  import opened Converter
  import opened Options

  /** A Go channel that only its creator knows yet: nobody can receive from it. */
  class PrivateChannel<T> {
    const capacity: nat
    var buffer: seq<T>
    var closed: bool

    constructor (capacity: nat)
      ensures buffer == [] && !closed && this.capacity == capacity
    {
      this.capacity := capacity;
      buffer, closed := [], false;
    }

    /** A send goes into the buffer or, without room there, waits for a receiver that cannot come. */
    method Send(x: T) returns (blocked: bool)
      requires !closed
      modifies this`buffer
      ensures blocked <==> |old(buffer)| >= capacity
      ensures buffer == if blocked then old(buffer) else old(buffer) + [x]
    {
      if |buffer| >= capacity {
        return true;
      }
      buffer := buffer + [x];
      return false;
    }

    method Close()
      requires !closed
      modifies this`closed
      ensures closed
    {
      closed := true;
    }
  }

  /** What the k-th FetchJob returns for an id: a job, or an error next to a nil job. */
  type Fetch = (nat, string) -> Option<QueuedJob>

  /** The id that SubmitJob returns for the job of the k-th item, or an error. */
  type Submit = (nat, Job) -> Option<string>

  datatype Fetched =
    | Returned(jobs: PrivateChannel<Option<QueuedJob>>, errs: PrivateChannel<string>)
    | BlockedOnJobs
    | BlockedOnErrs

  predicate AllFetched(fetch: Fetch, ids: seq<string>) {
    forall i :: 0 <= i < |ids| ==> fetch(i, ids[i]).Some?
  }

  /**
    Returns exactly when no fetch failed, and then both channels are closed, the job channel holding one
    job per id in order.  The job sends never block; after any failed fetch the error send always does.
   */
  method GetJobFromIds(fetch: Fetch, ids: seq<string>) returns (r: Fetched)
    ensures r.Returned? <==> AllFetched(fetch, ids)
    ensures r.Returned? <==> forall i :: 0 <= i < |ids| ==> fetch(i, ids[i]).Some?
    ensures !r.BlockedOnJobs?
    ensures r.Returned? ==>
      && fresh(r.jobs) && fresh(r.errs)
      && r.jobs.closed && r.errs.closed && r.errs.buffer == []
      && r.jobs.buffer == seq(|ids|, i requires 0 <= i < |ids| => fetch(i, ids[i]))
  {
    var errs := new PrivateChannel<string>(0);
    var jobs := new PrivateChannel<Option<QueuedJob>>(|ids|);
    var caught := 0;
    for i := 0 to |ids|
      invariant !jobs.closed && !errs.closed && errs.buffer == []
      invariant jobs.buffer == seq(i, k requires 0 <= k < i => fetch(k, ids[k]))
      invariant caught == 0 <==> AllFetched(fetch, ids[..i])
    {
      var j := fetch(i, ids[i]);
      if j.None? {
        caught := caught + 1;
      }
      assert ids[..i + 1] == ids[..i] + [ids[i]];
      var blocked := jobs.Send(j);
      if blocked {
        return BlockedOnJobs;
      }
    }
    assert ids[..|ids|] == ids;
    jobs.Close();
    if caught > 0 {
      var blocked := errs.Send("problem fetching jobs");
      if blocked {
        return BlockedOnErrs;
      }
    }
    errs.Close();
    return Returned(jobs, errs);
  }

  datatype ClientRun = Done(ok: bool) | NeverReturns

  ghost predicate Submitted(items: seq<JobWithError>, submit: Submit) {
    forall i :: 0 <= i < |items| ==> items[i].JobOk? && submit(i, items[i].job).Some?
  }

  ghost function SubmittedIds(items: seq<JobWithError>, submit: Submit): seq<string>
    requires Submitted(items, submit)
  {
    seq(|items|, i requires 0 <= i < |items| => submit(i, items[i].job).value)
  }

  /** The jobs that come back for some ids. */
  ghost function FetchedJobs(fetch: Fetch, ids: seq<string>): seq<QueuedJob>
    requires AllFetched(fetch, ids)
  {
    seq(|ids|, i requires 0 <= i < |ids| => fetch(i, ids[i]).value)
  }

  /** The k-th fetch is for the id that the k-th submission returned. */
  lemma FetchedById(items: seq<JobWithError>, submit: Submit, fetch: Fetch)
    requires Submitted(items, submit)
    ensures var ids := SubmittedIds(items, submit);
            && (AllFetched(fetch, ids) <==>
                  forall i :: 0 <= i < |items| ==> fetch(i, submit(i, items[i].job).value).Some?)
            && (AllFetched(fetch, ids) ==>
                  |FetchedJobs(fetch, ids)| == |items|
                  && forall i :: 0 <= i < |items| ==>
                       FetchedJobs(fetch, ids)[i] == fetch(i, submit(i, items[i].job).value).value)
  {
    var ids := SubmittedIds(items, submit);
    assert forall i :: 0 <= i < |items| ==> ids[i] == submit(i, items[i].job).value;
  }

  /**
    GreenbayClient.Run.  It never returns exactly when everything was submitted and waited for but some
    job could not be fetched; otherwise it reports no error exactly when all went well and all passed.
   */
  method Run(items: seq<JobWithError>, submit: Submit, waited: bool, fetch: Fetch,
             output: Options, io: IO, rt: Runtime)
    returns (r: ClientRun)
    ensures r.NeverReturns? <==>
      Submitted(items, submit) && waited && !AllFetched(fetch, SubmittedIds(items, submit))
    ensures r == Done(true) <==>
      && Submitted(items, submit) && waited
      && AllFetched(fetch, SubmittedIds(items, submit))
      && Succeeds(output, FetchedJobs(fetch, SubmittedIds(items, submit)), io)
    ensures r.NeverReturns? <==>
      && (forall i :: 0 <= i < |items| ==> items[i].JobOk? && submit(i, items[i].job).Some?) && waited
      && exists i :: 0 <= i < |items| && items[i].JobOk? && submit(i, items[i].job).Some?
           && fetch(i, submit(i, items[i].job).value).None?
    ensures r == Done(true) <==>
      && waited
      && (forall i :: 0 <= i < |items| ==>
            && items[i].JobOk? && submit(i, items[i].job).Some?
            && var job := fetch(i, submit(i, items[i].job).value);
               job.Some? && job.value.Check? && job.value.output.passed)
      && output.format in {"gotest", "result", "log", "json", "report"}
      && (output.format == "gotest" || io.printWorks) && (output.writeFile ==> io.fileWorks)
  {
    var errors, ids := 0, [];
    for i := 0 to |items|
      invariant errors == 0 <==> Submitted(items[..i], submit)
      invariant errors == 0 ==> ids == SubmittedIds(items[..i], submit)
    {
      assert items[..i + 1] == items[..i] + [items[i]];
      if !items[i].JobOk? {
        errors := errors + 1;
        continue;
      }
      var id := submit(i, items[i].job);
      if id.None? {
        errors := errors + 1;
        continue;
      }
      ids := ids + [id.value];
    }
    assert items[..|items|] == items;
    if errors == 0 {
      FetchedById(items, submit, fetch);
    }
    if errors != 0 || !waited {
      return Done(false);
    }
    var fetched := GetJobFromIds(fetch, ids);
    if !fetched.Returned? {
      return NeverReturns;
    }
    var received := fetched.jobs.buffer;
    var jobs := seq(|received|, i requires 0 <= i < |received| && received[i].Some? => received[i].value);
    assert jobs == FetchedJobs(fetch, ids);
    var ok := CollectResults(output, jobs, io, rt);
    return Done(ok && fetched.errs.buffer == []);
  }
}
