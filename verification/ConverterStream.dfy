/**
  jobsToCheck as a transition system: a source that fills a channel of any capacity, the converter
  goroutine with its unbuffered output channel, and a consumer that keeps receiving.
 */
module ConverterStream {
  import opened Converter

  datatype Setting = Setting(jobs: seq<QueuedJob>, skipPassing: bool, capacity: nat)

  datatype Loop = Receiving | Sending(unit: WorkUnit) | Stopped

  /** sent jobs left the source, of which the first taken reached the converter; the rest is buffered. */
  datatype State = State(
    sent: nat, buffer: seq<QueuedJob>, sourceClosed: bool, taken: nat,
    loop: Loop, outCloses: nat, panicked: bool, received: seq<WorkUnit>)

  const INIT := State(0, [], false, 0, Receiving, 0, false, [])

  datatype Action = Feed | HandOver | CloseSource | Take | Deliver | Stop

  predicate Enabled(c: Setting, s: State, a: Action) {
    match a
    case Feed => s.sent < |c.jobs| && |s.buffer| < c.capacity
    case HandOver => s.sent < |c.jobs| && s.buffer == [] && s.loop.Receiving?
    case CloseSource => s.sent == |c.jobs| && !s.sourceClosed
    case Take => s.buffer != [] && s.loop.Receiving?
    case Deliver => s.loop.Sending?
    case Stop => s.loop.Receiving? && s.buffer == [] && s.sourceClosed
  }

  /** The converter has received j. */
  function Got(c: Setting, s: State, j: QueuedJob): State {
    s.(taken := s.taken + 1, loop := if Skipped(c.skipPassing, j) then Receiving else Sending(Unit(j)))
  }

  function Do(c: Setting, s: State, a: Action): State
    requires Enabled(c, s, a)
  {
    match a
    case Feed => s.(sent := s.sent + 1, buffer := s.buffer + [c.jobs[s.sent]], panicked := s.panicked || s.sourceClosed)
    case HandOver => Got(c, s.(sent := s.sent + 1, panicked := s.panicked || s.sourceClosed), c.jobs[s.sent])
    case CloseSource => s.(sourceClosed := true)
    case Take => Got(c, s.(buffer := s.buffer[1..]), s.buffer[0])
    case Deliver =>
      s.(loop := Receiving, received := s.received + [s.loop.unit], panicked := s.panicked || s.outCloses > 0)
    case Stop => s.(loop := Stopped, outCloses := s.outCloses + 1, panicked := s.panicked || s.outCloses > 0)
  }

  function Pending(s: State): seq<WorkUnit> {
    if s.loop.Sending? then [s.loop.unit] else []
  }

  ghost predicate Inv(c: Setting, s: State) {
    && s.taken <= s.sent <= |c.jobs|
    && s.buffer == c.jobs[s.taken..s.sent]
    && (s.sourceClosed ==> s.sent == |c.jobs|)
    && s.received + Pending(s) == Units(c.skipPassing, c.jobs[..s.taken])
    && s.outCloses == (if s.loop.Stopped? then 1 else 0)
    && (s.loop.Stopped? ==> s.taken == |c.jobs| && s.sourceClosed)
    && !s.panicked
  }

  lemma GotInv(c: Setting, s: State)
    requires s.loop.Receiving? && s.taken < |c.jobs|
    requires s.received == Units(c.skipPassing, c.jobs[..s.taken])
    ensures var t := Got(c, s, c.jobs[s.taken]);
            t.received + Pending(t) == Units(c.skipPassing, c.jobs[..t.taken])
  {
    var next := c.jobs[..s.taken + 1];
    assert next[..|next| - 1] == c.jobs[..s.taken];
  }

  lemma StepInv(c: Setting, s: State, a: Action)
    requires Inv(c, s) && Enabled(c, s, a)
    ensures Inv(c, Do(c, s, a))
  {
    if a.Take? || a.HandOver? {
      assert s.received + [] == s.received;
      assert a.Take? ==> s.buffer[0] == c.jobs[s.taken];
      GotInv(c, s);
    }
  }

  ghost predicate Runs(c: Setting, s: State, actions: seq<Action>, t: State)
    decreases |actions|
  {
    if actions == [] then s == t
    else Enabled(c, s, actions[0]) && Runs(c, Do(c, s, actions[0]), actions[1..], t)
  }

  lemma {:induction false} RunsInv(c: Setting, s: State, actions: seq<Action>, t: State)
    requires Inv(c, s) && Runs(c, s, actions, t)
    ensures Inv(c, t)
    decreases |actions|
  {
    if actions == [] {
    } else {
      StepInv(c, s, actions[0]);
      RunsInv(c, Do(c, s, actions[0]), actions[1..], t);
    }
  }

  function Work(c: Setting, s: State): int {
    4 * (|c.jobs| - s.sent) + 3 * |s.buffer| + (if s.sourceClosed then 0 else 1)
    + (match s.loop case Receiving => 1 case Sending(_) => 2 case Stopped => 0)
  }

  /** Every step lowers the work that is left, which is never negative. */
  lemma WorkDrops(c: Setting, s: State, a: Action)
    requires Inv(c, s) && Enabled(c, s, a)
    ensures 0 <= Work(c, Do(c, s, a)) < Work(c, s)
  {
  }

  /** Until the output channel is closed some step is possible, whatever the capacity of the source. */
  lemma Progress(c: Setting, s: State) returns (a: Action)
    requires Inv(c, s) && !s.loop.Stopped?
    ensures Enabled(c, s, a)
  {
    a := if s.loop.Sending? then Deliver
         else if s.buffer != [] then Take
         else if s.sent < |c.jobs| then HandOver
         else if !s.sourceClosed then CloseSource
         else Stop;
  }

  /**
    On every interleaving the consumer has received a prefix of the units of all jobs; at the close it
    has received all of them, and every job became a unit or was skipped because it passed.
   */
  lemma FilterMap(c: Setting, actions: seq<Action>, t: State)
    requires Runs(c, INIT, actions, t)
    ensures t.received <= Units(c.skipPassing, c.jobs)
    ensures t.outCloses > 0 ==>
      && t.received == Units(c.skipPassing, c.jobs)
      && |t.received| + SkippedCount(c.skipPassing, c.jobs) == |c.jobs|
      && Errors(t.received) == Errors(Units(false, c.jobs))
    ensures !t.panicked && t.outCloses <= 1
  {
    assert Inv(c, INIT);
    RunsInv(c, INIT, actions, t);
    assert c.jobs == c.jobs[..t.taken] + c.jobs[t.taken..];
    UnitsConcat(c.skipPassing, c.jobs[..t.taken], c.jobs[t.taken..]);
    UnitsAccount(c.skipPassing, c.jobs);
    QuietUnits(c.jobs);
    assert t.received <= t.received + Pending(t);
    if t.loop.Stopped? {
      assert t.received + [] == t.received && c.jobs[..t.taken] == c.jobs;
    }
  }
}
