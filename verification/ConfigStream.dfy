/**
  GetAllTests as a transition system: the outer goroutine, the two producers it starts, a consumer that
  keeps receiving, and any number of Reload calls, over unbuffered channels and one RWMutex.  As in Go,
  a writer that waits for the lock keeps new readers out.
 */
module ConfigStream {
  import opened Common
  import opened ConfigIndex
  import opened Generators
  import opened ConfigProperties

  /** What is asked for, the index at the call, and what each Reload will read from the file. */
  datatype Setting = Setting(reg: Registry, start: Index, tests: seq<string>, suites: seq<string>, reloads: seq<Load>)

  datatype Outer =
    | CallByName
    | RecvFirst
    | SendFirst(held: JobWithError)
    | CallForSuites
    | RecvSecond
    | SendSecond(held: JobWithError)
    | Closing
    | OuterDone

  /** The goroutine of TestsByName; sending offers the item for name i. */
  datatype First =
    | FirstUnborn
    | FirstLocking
    | FirstAt(i: nat)
    | FirstSending(i: nat, item: JobWithError)
    | FirstUnlocking
    | FirstDone

  /** The goroutine of TestsForSuites; sending offers the item in front of the cursor. */
  datatype Second =
    | SecondUnborn
    | SecondLocking
    | SecondAt(i: nat, j: nat, seen: set<string>)
    | SecondSending(i: nat, j: nat, seen: set<string>, item: JobWithError)
    | SecondUnlocking
    | SecondDone

  datatype Writer = Idle | Announced | Writing(k: nat) | Finished

  /**
    cfg is the index in memory; readers and owner are the RWMutex (owner is the writer that holds it or
    waits for its readers); the chan fields count how often each channel was closed.  The rest is history:
    what each producer handed on, which loads were committed, and how many of them each producer found
    when it took the read lock.
   */
  datatype State = State(
    cfg: Index, readers: nat, owner: Option<nat>,
    outer: Outer, first: First, second: Second, writers: seq<Writer>,
    chanFirst: nat, chanSecond: nat, chanOut: nat, panicked: bool,
    received: seq<JobWithError>,
    fromFirst: seq<JobWithError>, fromSecond: seq<JobWithError>,
    committed: seq<Load>, foundFirst: nat, foundSecond: nat)

  function Init(c: Setting): State {
    State(c.start, 0, None, CallByName, FirstUnborn, SecondUnborn, seq(|c.reloads|, _ => Idle),
          0, 0, 0, false, [], [], [], [], 0, 0)
  }

  datatype Action = StepOuter | Deliver | StepFirst | HandFirst | StepSecond | HandSecond | StepWriter(w: nat)

  predicate Enabled(c: Setting, s: State, a: Action) {
    match a
    case StepOuter =>
      (match s.outer
       case CallByName => true
       case RecvFirst => s.chanFirst > 0
       case CallForSuites => true
       case RecvSecond => s.chanSecond > 0
       case Closing => true
       case _ => false)
    case Deliver => s.outer.SendFirst? || s.outer.SendSecond?
    case StepFirst =>
      (match s.first
       case FirstLocking => s.owner.None?
       case FirstAt(_) => true
       case FirstUnlocking => true
       case _ => false)
    case HandFirst => s.first.FirstSending? && s.outer.RecvFirst?
    case StepSecond =>
      (match s.second
       case SecondLocking => s.owner.None?
       case SecondAt(_, _, _) => true
       case SecondUnlocking => true
       case _ => false)
    case HandSecond => s.second.SecondSending? && s.outer.RecvSecond?
    case StepWriter(w) =>
      w < |s.writers| && w < |c.reloads| &&
      (match s.writers[w]
       case Idle => s.owner.None?
       case Announced => s.readers == 0
       case Writing(_) => true
       case Finished => false)
  }

  function DoOuter(s: State): State {
    match s.outer
    case CallByName => s.(outer := RecvFirst, first := FirstLocking)
    case RecvFirst => s.(outer := CallForSuites)
    case CallForSuites => s.(outer := RecvSecond, second := SecondLocking)
    case RecvSecond => s.(outer := Closing)
    case Closing => s.(outer := OuterDone, chanOut := s.chanOut + 1, panicked := s.panicked || s.chanOut > 0)
    case _ => s
  }

  function DoDeliver(s: State): State
    requires s.outer.SendFirst? || s.outer.SendSecond?
  {
    s.(outer := if s.outer.SendFirst? then RecvFirst else RecvSecond,
       received := s.received + [s.outer.held],
       panicked := s.panicked || s.chanOut > 0)
  }

  function RUnlock(s: State): State {
    if s.readers == 0 then s.(panicked := true) else s.(readers := s.readers - 1)
  }

  function DoFirst(c: Setting, s: State): State {
    match s.first
    case FirstLocking => s.(first := FirstAt(0), readers := s.readers + 1, foundFirst := |s.committed|)
    case FirstAt(i) =>
      if i < |c.tests| then s.(first := FirstSending(i, ItemByName(s.cfg, c.tests[i])))
      else s.(first := FirstUnlocking, chanFirst := s.chanFirst + 1, panicked := s.panicked || s.chanFirst > 0)
    case FirstUnlocking => RUnlock(s).(first := FirstDone)
    case _ => s
  }

  function DoHandFirst(s: State): State
    requires s.first.FirstSending?
  {
    s.(first := FirstAt(s.first.i + 1), outer := SendFirst(s.first.item),
       fromFirst := s.fromFirst + [s.first.item], panicked := s.panicked || s.chanFirst > 0)
  }

  /** One look of the suite walk, before its end, at an index. */
  function Walk(ix: Index, names: seq<string>, i: nat, j: nat, seen: set<string>): Second
    requires i < |names|
  {
    if names[i] !in ix.suites then SecondSending(i + 1, 0, seen, NoSuiteNamed(names[i]))
    else
      var listed := ix.suites[names[i]];
      if j >= |listed| then SecondAt(i + 1, 0, seen)
      else if listed[j] in seen then SecondAt(i, j + 1, seen)
      else SecondSending(i, j + 1, seen + {listed[j]}, Item(ix, Listing(listed[j], names[i])))
  }

  /** The walk looks at the configuration as it is in memory now. */
  function DoWalk(c: Setting, s: State, i: nat, j: nat, seen: set<string>): State {
    if i < |c.suites| then s.(second := Walk(s.cfg, c.suites, i, j, seen))
    else s.(second := SecondUnlocking, chanSecond := s.chanSecond + 1, panicked := s.panicked || s.chanSecond > 0)
  }

  function DoSecond(c: Setting, s: State): State {
    match s.second
    case SecondLocking => s.(second := SecondAt(0, 0, {}), readers := s.readers + 1, foundSecond := |s.committed|)
    case SecondAt(i, j, seen) => DoWalk(c, s, i, j, seen)
    case SecondUnlocking => RUnlock(s).(second := SecondDone)
    case _ => s
  }

  function DoHandSecond(s: State): State
    requires s.second.SecondSending?
  {
    s.(second := SecondAt(s.second.i, s.second.j, s.second.seen), outer := SendSecond(s.second.item),
       fromSecond := s.fromSecond + [s.second.item], panicked := s.panicked || s.chanSecond > 0)
  }

  /** A Reload takes the lock, parses its raw tests one by one, and lets go. */
  function DoWriter(c: Setting, s: State, w: nat): State
    requires w < |s.writers| && w < |c.reloads|
  {
    match s.writers[w]
    case Idle => s.(writers := s.writers[w := Announced], owner := Some(w))
    case Announced => s.(writers := s.writers[w := Writing(0)])
    case Writing(k) =>
      var raws := Parsed(c.reloads[w]);
      if k < |raws| then s.(writers := s.writers[w := Writing(k + 1)], cfg := After(c.reg, s.cfg, [raws[k]]))
      else s.(writers := s.writers[w := Finished], owner := None, committed := s.committed + [c.reloads[w]])
    case Finished => s
  }

  function Do(c: Setting, s: State, a: Action): State
    requires Enabled(c, s, a)
  {
    match a
    case StepOuter => DoOuter(s)
    case Deliver => DoDeliver(s)
    case StepFirst => DoFirst(c, s)
    case HandFirst => DoHandFirst(s)
    case StepSecond => DoSecond(c, s)
    case HandSecond => DoHandSecond(s)
    case StepWriter(w) => DoWriter(c, s, w)
  }

  // ----- what holds in every reachable state -----

  predicate FirstHolds(s: State) {
    s.first.FirstAt? || s.first.FirstSending? || s.first.FirstUnlocking?
  }

  predicate SecondHolds(s: State) {
    s.second.SecondAt? || s.second.SecondSending? || s.second.SecondUnlocking?
  }

  predicate SomeoneWrites(s: State) {
    s.owner.Some? && s.owner.value < |s.writers| && s.writers[s.owner.value].Writing?
  }

  ghost predicate LockOk(c: Setting, s: State) {
    && s.readers == (if FirstHolds(s) then 1 else 0) + (if SecondHolds(s) then 1 else 0)
    && |s.writers| == |c.reloads|
    && (s.owner.Some? ==> s.owner.value < |s.writers|)
    && (forall w :: 0 <= w < |s.writers| ==>
          ((s.writers[w].Announced? || s.writers[w].Writing?) <==> s.owner == Some(w)))
    && (SomeoneWrites(s) ==> s.readers == 0)
  }

  /** cfg is what the first k of the raw tests make of last. */
  ghost predicate PartlyParsed(reg: Registry, last: Index, raws: seq<RawTest>, k: nat, cfg: Index) {
    k <= |raws| && cfg == After(reg, last, raws[..k])
  }

  /** Only the writer in the lock can be between two complete loads. */
  ghost predicate ConfigOk(c: Setting, s: State)
    requires LockOk(c, s)
  {
    var last := Replay(c.reg, c.start, s.committed);
    if SomeoneWrites(s) then
      PartlyParsed(c.reg, last, Parsed(c.reloads[s.owner.value]), s.writers[s.owner.value].k, s.cfg)
    else s.cfg == last
  }

  ghost predicate PhaseOk(s: State) {
    && !s.panicked
    && s.chanFirst == (if s.first.FirstUnlocking? || s.first.FirstDone? then 1 else 0)
    && s.chanSecond == (if s.second.SecondUnlocking? || s.second.SecondDone? then 1 else 0)
    && s.chanOut == (if s.outer.OuterDone? then 1 else 0)
    && (s.outer.CallByName? <==> s.first.FirstUnborn?)
    && (s.second.SecondUnborn? <==>
          s.outer.CallByName? || s.outer.RecvFirst? || s.outer.SendFirst? || s.outer.CallForSuites?)
    && (s.outer.CallByName? || s.outer.RecvFirst? || s.outer.SendFirst? || s.chanFirst == 1)
    && (s.outer.Closing? || s.outer.OuterDone? ==> s.chanSecond == 1)
  }

  ghost predicate FoundOk(s: State) {
    && s.foundFirst <= |s.committed| && s.foundSecond <= |s.committed|
    && (FirstHolds(s) ==> s.foundFirst == |s.committed|)
    && (SecondHolds(s) ==> s.foundSecond == |s.committed|)
    && (SecondHolds(s) || s.second.SecondDone? ==> s.foundFirst <= s.foundSecond)
  }

  /** The index after the first few of the committed loads. */
  ghost function FoundIndex(c: Setting, committed: seq<Load>, found: nat): Index
    requires found <= |committed|
  {
    Replay(c.reg, c.start, committed[..found])
  }

  function Held(s: State): seq<JobWithError> {
    if s.outer.SendFirst? || s.outer.SendSecond? then [s.outer.held] else []
  }

  /** What the first producer has handed on, given the index it found. */
  ghost predicate FirstFlow(ix: Index, names: seq<string>, first: First, sent: seq<JobWithError>) {
    match first
    case FirstUnborn => sent == []
    case FirstLocking => sent == []
    case FirstAt(i) => i <= |names| && sent == ByName(ix, names[..i])
    case FirstSending(i, item) => i < |names| && sent + [item] == ByName(ix, names[..i + 1])
    case _ => sent == ByName(ix, names)
  }

  /** What the second producer has handed on, given the index it found. */
  ghost predicate SecondFlow(ix: Index, names: seq<string>, second: Second, sent: seq<JobWithError>) {
    match second
    case SecondUnborn => sent == []
    case SecondLocking => sent == []
    case SecondAt(i, j, seen) => Walked(ix, names, i, j, seen, sent)
    case SecondSending(i, j, seen, item) => Walked(ix, names, i, j, seen, sent + [item])
    case _ => sent == ForSuites(ix, names)
  }

  ghost predicate FlowOk(c: Setting, s: State)
    requires FoundOk(s)
  {
    && s.received + Held(s) == s.fromFirst + s.fromSecond
    && FirstFlow(FoundIndex(c, s.committed, s.foundFirst), c.tests, s.first, s.fromFirst)
    && SecondFlow(FoundIndex(c, s.committed, s.foundSecond), c.suites, s.second, s.fromSecond)
  }

  ghost predicate Inv(c: Setting, s: State) {
    LockOk(c, s) && ConfigOk(c, s) && PhaseOk(s) && FoundOk(s) && FlowOk(c, s)
  }

  lemma InitInv(c: Setting)
    ensures Inv(c, Init(c))
  {
  }

  /** Under a read lock the index in memory is the one the producer found. */
  lemma HeldIndex(c: Setting, s: State)
    requires Inv(c, s)
    ensures FirstHolds(s) ==> s.cfg == FoundIndex(c, s.committed, s.foundFirst)
    ensures SecondHolds(s) ==> s.cfg == FoundIndex(c, s.committed, s.foundSecond)
  {
    assert s.committed[..|s.committed|] == s.committed;
  }

  lemma SpawnInv(c: Setting, s: State)
    requires Inv(c, s) && (s.outer.CallByName? || s.outer.CallForSuites?)
    ensures Inv(c, DoOuter(s))
  {
  }

  lemma OuterInv(c: Setting, s: State)
    requires Inv(c, s) && Enabled(c, s, StepOuter)
    ensures Inv(c, DoOuter(s))
  {
    if s.outer.CallByName? || s.outer.CallForSuites? {
      SpawnInv(c, s);
    }
  }

  lemma DeliverInv(c: Setting, s: State)
    requires Inv(c, s) && Enabled(c, s, Deliver)
    ensures Inv(c, DoDeliver(s))
  {
    assert (s.received + [s.outer.held]) + [] == s.received + [s.outer.held];
  }

  lemma ByNameSnoc(ix: Index, names: seq<string>, i: nat)
    requires i < |names|
    ensures ByName(ix, names[..i + 1]) == ByName(ix, names[..i]) + [ItemByName(ix, names[i])]
  {
  }

  lemma FirstLocksInv(c: Setting, s: State)
    requires Inv(c, s) && Enabled(c, s, StepFirst) && s.first.FirstLocking?
    ensures Inv(c, DoFirst(c, s))
  {
    assert s.committed[..|s.committed|] == s.committed && c.tests[..0] == [];
  }

  lemma FirstLooksInv(c: Setting, s: State)
    requires Inv(c, s) && s.first.FirstAt?
    ensures Inv(c, DoFirst(c, s))
  {
    HeldIndex(c, s);
    var i := s.first.i;
    if i < |c.tests| {
      ByNameSnoc(s.cfg, c.tests, i);
    } else {
      assert c.tests[..i] == c.tests;
    }
  }

  lemma FirstInv(c: Setting, s: State)
    requires Inv(c, s) && Enabled(c, s, StepFirst)
    ensures Inv(c, DoFirst(c, s))
  {
    match s.first
    case FirstLocking => FirstLocksInv(c, s);
    case FirstAt(_) => FirstLooksInv(c, s);
    case FirstUnlocking =>
  }

  lemma HandFirstInv(c: Setting, s: State)
    requires Inv(c, s) && Enabled(c, s, HandFirst)
    ensures Inv(c, DoHandFirst(s))
  {
    assert Held(s) == [] && s.fromSecond == [];
    assert s.received == s.received + [] && s.fromFirst == s.fromFirst + [];
    assert s.fromFirst + [s.first.item] == (s.fromFirst + [s.first.item]) + [];
  }

  /** A step of the second producer that only moves its cursor, or picks its next item, keeps the rest. */
  lemma SecondMoves(c: Setting, s: State, next: Second)
    requires Inv(c, s) && s.second.SecondAt? && (next.SecondAt? || next.SecondSending?)
    requires SecondFlow(s.cfg, c.suites, next, s.fromSecond)
    ensures Inv(c, s.(second := next))
  {
    HeldIndex(c, s);
  }

  lemma SecondCloses(c: Setting, s: State)
    requires Inv(c, s) && s.second.SecondAt? && s.second.i >= |c.suites|
    ensures Inv(c, DoSecond(c, s))
  {
    HeldIndex(c, s);
    WalkEnd(s.cfg, c.suites, s.second.seen, s.fromSecond);
  }

  lemma WalkFlow(ix: Index, names: seq<string>, i: nat, j: nat, seen: set<string>, sent: seq<JobWithError>)
    requires i < |names| && Walked(ix, names, i, j, seen, sent)
    ensures var next := Walk(ix, names, i, j, seen);
            (next.SecondAt? || next.SecondSending?) && SecondFlow(ix, names, next, sent)
  {
    if names[i] !in ix.suites {
      WalkUnknownSuite(ix, names, i, seen, sent);
    } else if j >= |ix.suites[names[i]]| {
      WalkSuiteDone(ix, names, i, seen, sent);
    } else {
      WalkListing(ix, names, i, j, seen, sent);
    }
  }

  lemma SecondLocksInv(c: Setting, s: State)
    requires Inv(c, s) && Enabled(c, s, StepSecond) && s.second.SecondLocking?
    ensures Inv(c, DoSecond(c, s))
  {
    assert s.committed[..|s.committed|] == s.committed;
    WalkStart(s.cfg, c.suites);
  }

  lemma SecondInv(c: Setting, s: State)
    requires Inv(c, s) && Enabled(c, s, StepSecond)
    ensures Inv(c, DoSecond(c, s))
  {
    match s.second
    case SecondLocking =>
      SecondLocksInv(c, s);
    case SecondAt(i, j, seen) =>
      if i < |c.suites| {
        HeldIndex(c, s);
        WalkFlow(s.cfg, c.suites, i, j, seen, s.fromSecond);
        SecondMoves(c, s, DoSecond(c, s).second);
      } else {
        SecondCloses(c, s);
      }
    case SecondUnlocking =>
  }

  lemma HandSecondInv(c: Setting, s: State)
    requires Inv(c, s) && Enabled(c, s, HandSecond)
    ensures Inv(c, DoHandSecond(s))
  {
    assert Held(s) == [] && s.received == s.received + [];
    ConcatAssoc(s.fromFirst, s.fromSecond, [s.second.item]);
  }

  lemma TakeLockInv(c: Setting, s: State, w: nat)
    requires Inv(c, s) && Enabled(c, s, StepWriter(w)) && (s.writers[w].Idle? || s.writers[w].Announced?)
    ensures Inv(c, DoWriter(c, s, w))
  {
    AfterNothing(c.reg, Replay(c.reg, c.start, s.committed));
  }

  lemma ParseOne(reg: Registry, last: Index, raws: seq<RawTest>, k: nat, cfg: Index)
    requires k < |raws| && PartlyParsed(reg, last, raws, k, cfg)
    ensures PartlyParsed(reg, last, raws, k + 1, After(reg, cfg, [raws[k]]))
  {
    assert raws[..k + 1] == raws[..k] + [raws[k]];
    AfterConcat(reg, last, raws[..k], [raws[k]]);
  }

  lemma WriterStaysInLock(c: Setting, s: State, w: nat, cfg: Index, k: nat)
    requires LockOk(c, s) && w < |s.writers| && s.writers[w].Writing?
    ensures var t := s.(writers := s.writers[w := Writing(k)], cfg := cfg);
            && s.owner == Some(w) && SomeoneWrites(t) && t.writers[w] == Writing(k)
            && LockOk(c, t)
  {
    assert s.owner == Some(w);
  }

  /** While a writer is in the lock no producer holds it, so only the writer depends on the index. */
  lemma WriterAlone(c: Setting, s: State, w: nat, cfg: Index, k: nat)
    requires Inv(c, s) && w < |s.writers| && s.writers[w].Writing?
    requires PartlyParsed(c.reg, Replay(c.reg, c.start, s.committed), Parsed(c.reloads[w]), k, cfg)
    ensures Inv(c, s.(writers := s.writers[w := Writing(k)], cfg := cfg))
  {
    WriterStaysInLock(c, s, w, cfg, k);
  }

  lemma ReplayMore(reg: Registry, start: Index, loads: seq<Load>, load: Load)
    ensures Replay(reg, start, loads + [load]) == After(reg, Replay(reg, start, loads), Parsed(load))
  {
    var more := loads + [load];
    assert more[..|more| - 1] == loads;
  }

  lemma AllParsed(reg: Registry, start: Index, loads: seq<Load>, load: Load, k: nat, cfg: Index)
    requires k >= |Parsed(load)| && PartlyParsed(reg, Replay(reg, start, loads), Parsed(load), k, cfg)
    ensures cfg == Replay(reg, start, loads + [load])
  {
    assert Parsed(load)[..k] == Parsed(load);
    ReplayMore(reg, start, loads, load);
  }

  lemma CommitInv(c: Setting, s: State, w: nat, t: State)
    requires Inv(c, s) && w < |s.writers| && s.writers[w].Writing?
    requires t == s.(writers := s.writers[w := Finished], owner := None, committed := s.committed + [c.reloads[w]])
    requires s.cfg == Replay(c.reg, c.start, t.committed)
    ensures Inv(c, t)
  {
    assert s.owner == Some(w);
    assert t.committed[..s.foundFirst] == s.committed[..s.foundFirst];
    assert t.committed[..s.foundSecond] == s.committed[..s.foundSecond];
  }

  lemma WriterInv(c: Setting, s: State, w: nat)
    requires Inv(c, s) && Enabled(c, s, StepWriter(w))
    ensures Inv(c, DoWriter(c, s, w))
  {
    var last := Replay(c.reg, c.start, s.committed);
    match s.writers[w]
    case Writing(k) =>
      var raws := Parsed(c.reloads[w]);
      assert s.owner == Some(w);
      assert PartlyParsed(c.reg, last, raws, k, s.cfg);
      if k < |raws| {
        ParseOne(c.reg, last, raws, k, s.cfg);
        WriterAlone(c, s, w, After(c.reg, s.cfg, [raws[k]]), k + 1);
      } else {
        AllParsed(c.reg, c.start, s.committed, c.reloads[w], k, s.cfg);
        CommitInv(c, s, w, DoWriter(c, s, w));
      }
    case _ =>
      TakeLockInv(c, s, w);
  }

  lemma StepInv(c: Setting, s: State, a: Action)
    requires Inv(c, s) && Enabled(c, s, a)
    ensures Inv(c, Do(c, s, a))
  {
    match a
    case StepOuter => OuterInv(c, s);
    case Deliver => DeliverInv(c, s);
    case StepFirst => FirstInv(c, s);
    case HandFirst => HandFirstInv(c, s);
    case StepSecond => SecondInv(c, s);
    case HandSecond => HandSecondInv(c, s);
    case StepWriter(w) => WriterInv(c, s, w);
  }

  // ----- safety: every interleaving sends what the generators send from two consecutive snapshots -----

  /** The actions lead from s to t. */
  ghost predicate Runs(c: Setting, s: State, actions: seq<Action>, t: State)
    decreases |actions|
  {
    if actions == [] then s == t
    else Enabled(c, s, actions[0]) && Runs(c, Do(c, s, actions[0]), actions[1..], t)
  }

  lemma {:induction false} RunsInv(c: Setting, s: State, actions: seq<Action>, t: State)
    requires Inv(c, s) && Runs(c, s, actions, t)
    ensures Inv(c, t)
    decreases |actions|
  {
    if actions == [] {
    } else {
      StepInv(c, s, actions[0]);
      RunsInv(c, Do(c, s, actions[0]), actions[1..], t);
    }
  }

  lemma ByNamePrefix(ix: Index, names: seq<string>, i: nat)
    requires i <= |names|
    ensures ByName(ix, names[..i]) <= ByName(ix, names)
  {
  }

  lemma {:induction false} EntriesPrefix(suites: map<string, seq<string>>, names: seq<string>, i: nat)
    requires i <= |names|
    ensures Entries(suites, names[..i]) <= Entries(suites, names)
  {
    if i == |names| {
      assert names[..i] == names;
    } else {
      var init := names[..|names| - 1];
      EntriesPrefix(suites, init, i);
      assert init[..i] == names[..i];
    }
  }

  lemma BeforePrefix(ix: Index, names: seq<string>, i: nat, j: nat)
    requires AtCursor(ix, names, i, j)
    ensures Before(ix, names, i, j) <= Entries(ix.suites, names)
  {
    if j == 0 {
      EntriesPrefix(ix.suites, names, i);
    } else {
      EntriesPrefix(ix.suites, names, i + 1);
      assert names[..i + 1][..i] == names[..i];
    }
  }

  lemma WalkedPrefix(ix: Index, names: seq<string>, i: nat, j: nat, seen: set<string>, sent: seq<JobWithError>)
    requires Walked(ix, names, i, j, seen, sent)
    ensures sent <= ForSuites(ix, names)
  {
    var es, all := Before(ix, names, i, j), Entries(ix.suites, names);
    BeforePrefix(ix, names, i, j);
    assert all == es + all[|es|..];
    FirstListingsConcat(es, all[|es|..]);
  }

  lemma FirstFlowPrefix(ix: Index, names: seq<string>, first: First, sent: seq<JobWithError>)
    requires FirstFlow(ix, names, first, sent)
    ensures sent <= ByName(ix, names)
  {
    match first
    case FirstAt(i) => ByNamePrefix(ix, names, i);
    case FirstSending(i, _) => ByNamePrefix(ix, names, i + 1);
    case _ =>
  }

  lemma SecondFlowPrefix(ix: Index, names: seq<string>, second: Second, sent: seq<JobWithError>)
    requires SecondFlow(ix, names, second, sent)
    ensures sent <= ForSuites(ix, names)
  {
    match second
    case SecondAt(i, j, seen) => WalkedPrefix(ix, names, i, j, seen, sent);
    case SecondSending(i, j, seen, item) => WalkedPrefix(ix, names, i, j, seen, sent + [item]);
    case _ =>
  }

  lemma FlowPrefixes(c: Setting, s: State)
    requires Inv(c, s)
    ensures s.fromFirst <= ByName(FoundIndex(c, s.committed, s.foundFirst), c.tests)
    ensures s.fromSecond <= ForSuites(FoundIndex(c, s.committed, s.foundSecond), c.suites)
    ensures s.fromSecond != [] ==> s.fromFirst == ByName(FoundIndex(c, s.committed, s.foundFirst), c.tests)
  {
    FirstFlowPrefix(FoundIndex(c, s.committed, s.foundFirst), c.tests, s.first, s.fromFirst);
    SecondFlowPrefix(FoundIndex(c, s.committed, s.foundSecond), c.suites, s.second, s.fromSecond);
  }

  /**
    On every interleaving the consumer has received a prefix of what TestsByName sends from one complete
    index followed by what TestsForSuites sends from another, no older one, and all of it once the outer
    channel is closed.  A producer that holds the read lock sees the index it found, and no Reload writes.
   */
  lemma Linearised(c: Setting, actions: seq<Action>, t: State)
    requires Runs(c, Init(c), actions, t)
    ensures t.foundFirst <= |t.committed| && t.foundSecond <= |t.committed|
    ensures var first := FoundIndex(c, t.committed, t.foundFirst);
            var second := FoundIndex(c, t.committed, t.foundSecond);
            && t.received <= ByName(first, c.tests) + ForSuites(second, c.suites)
            && (t.chanOut > 0 ==>
                  t.received == ByName(first, c.tests) + ForSuites(second, c.suites) && t.foundFirst <= t.foundSecond)
            && (FirstHolds(t) ==> t.cfg == first && !SomeoneWrites(t))
            && (SecondHolds(t) ==> t.cfg == second && !SomeoneWrites(t))
            && (SecondHolds(t) || t.second.SecondDone? ==> t.foundFirst <= t.foundSecond)
  {
    InitInv(c);
    RunsInv(c, Init(c), actions, t);
    HeldIndex(c, t);
    FlowPrefixes(c, t);
    var first, second := FoundIndex(c, t.committed, t.foundFirst), FoundIndex(c, t.committed, t.foundSecond);
    PrefixOfPair(t.fromFirst, t.fromSecond, ByName(first, c.tests), ForSuites(second, c.suites));
    assert t.received <= t.received + Held(t);
  }

  lemma PrefixOfPair<T>(a: seq<T>, b: seq<T>, x: seq<T>, y: seq<T>)
    requires a <= x && b <= y && (b != [] ==> a == x)
    ensures a + b <= x + y
  {
  }

  // ----- progress -----

  predicate Finishing(s: State) {
    s.outer.OuterDone? && s.readers == 0
  }

  /** As long as the stream is not over some step is possible, without waiting for a new Reload. */
  lemma Progress(c: Setting, s: State) returns (a: Action)
    requires Inv(c, s) && !Finishing(s)
    ensures Enabled(c, s, a)
    ensures a.StepWriter? ==> !s.writers[a.w].Idle?
  {
    var lockBusy := if s.owner.Some? then StepWriter(s.owner.value) else StepOuter;
    match s.outer
    case SendFirst(_) => a := Deliver;
    case SendSecond(_) => a := Deliver;
    case RecvFirst =>
      if s.chanFirst > 0 {
        a := StepOuter;
      } else if s.first.FirstSending? {
        a := HandFirst;
      } else if s.first.FirstLocking? && s.owner.Some? {
        a := lockBusy;
      } else {
        a := StepFirst;
      }
    case RecvSecond =>
      if s.chanSecond > 0 {
        a := StepOuter;
      } else if s.second.SecondSending? {
        a := HandSecond;
      } else if s.second.SecondLocking? && s.owner.Some? {
        a := if s.first.FirstUnlocking? then StepFirst else lockBusy;
      } else {
        a := StepSecond;
      }
    case OuterDone =>
      a := if s.first.FirstUnlocking? then StepFirst else StepSecond;
    case _ => a := StepOuter;
  }

  // ----- termination: a lexicographic measure drops at every step -----

  function WriterLeft(c: Setting, writers: seq<Writer>, w: nat): nat
    requires w < |writers| && w < |c.reloads|
  {
    var n := |Parsed(c.reloads[w])|;
    match writers[w]
    case Idle => n + 3
    case Announced => n + 2
    case Writing(k) => if k <= n then n - k + 1 else 1
    case Finished => 0
  }

  function WriterWork(c: Setting, writers: seq<Writer>, upTo: nat): nat
    requires upTo <= |writers| && upTo <= |c.reloads|
  {
    if upTo == 0 then 0 else WriterWork(c, writers, upTo - 1) + WriterLeft(c, writers, upTo - 1)
  }

  /** Steps that the suite walk still needs from the start of suite i. */
  function SuiteWork(ix: Index, names: seq<string>, i: nat): nat
    decreases |names| - i
  {
    if i >= |names| then 0
    else (if names[i] in ix.suites then 3 * |ix.suites[names[i]]| + 1 else 3) + SuiteWork(ix, names, i + 1)
  }

  function WalkWork(ix: Index, names: seq<string>, i: nat, j: nat): nat {
    if i < |names| && names[i] in ix.suites && j <= |ix.suites[names[i]]| then SuiteWork(ix, names, i) - 3 * j
    else SuiteWork(ix, names, i)
  }

  function OuterWork(outer: Outer): nat {
    match outer
    case CallByName => 8
    case RecvFirst => 6
    case SendFirst(_) => 7
    case CallForSuites => 5
    case RecvSecond => 3
    case SendSecond(_) => 4
    case Closing => 2
    case OuterDone => 0
  }

  function FirstWork(names: seq<string>, first: First): nat {
    match first
    case FirstUnborn => 3 * |names| + 3
    case FirstLocking => 3 * |names| + 3
    case FirstAt(i) => if i <= |names| then 3 * (|names| - i) + 2 else 2
    case FirstSending(i, _) => if i < |names| then 3 * (|names| - i) + 1 else 1
    case FirstUnlocking => 1
    case FirstDone => 0
  }

  function SecondWork(ix: Index, names: seq<string>, second: Second): nat {
    match second
    case SecondUnborn => WalkWork(ix, names, 0, 0) + 3
    case SecondLocking => WalkWork(ix, names, 0, 0) + 3
    case SecondAt(i, j, _) => WalkWork(ix, names, i, j) + 2
    case SecondSending(i, j, _, _) => WalkWork(ix, names, i, j) + 4
    case SecondUnlocking => 1
    case SecondDone => 0
  }

  function StreamWork(c: Setting, s: State): nat {
    OuterWork(s.outer) + FirstWork(c.tests, s.first) + SecondWork(s.cfg, c.suites, s.second)
  }

  lemma WalkWorkSteps(ix: Index, names: seq<string>, i: nat, j: nat)
    requires i < |names| && AtCursor(ix, names, i, j)
    ensures if names[i] !in ix.suites then WalkWork(ix, names, i, j) == WalkWork(ix, names, i + 1, 0) + 3
            else if j == |ix.suites[names[i]]| then WalkWork(ix, names, i, j) == WalkWork(ix, names, i + 1, 0) + 1
            else WalkWork(ix, names, i, j) == WalkWork(ix, names, i, j + 1) + 3
  {
  }

  lemma {:induction false} WriterWorkDrops(c: Setting, writers: seq<Writer>, next: seq<Writer>, w: nat, upTo: nat)
    requires w < |writers| == |next| == |c.reloads| && upTo <= |writers|
    requires forall v :: 0 <= v < |writers| && v != w ==> next[v] == writers[v]
    requires WriterLeft(c, next, w) < WriterLeft(c, writers, w)
    ensures WriterWork(c, next, upTo) <= WriterWork(c, writers, upTo)
    ensures w < upTo ==> WriterWork(c, next, upTo) < WriterWork(c, writers, upTo)
  {
    if upTo == 0 {
    } else {
      WriterWorkDrops(c, writers, next, w, upTo - 1);
    }
  }

  lemma WriterDrops(c: Setting, s: State, w: nat)
    requires LockOk(c, s) && ConfigOk(c, s) && Enabled(c, s, StepWriter(w))
    ensures |DoWriter(c, s, w).writers| == |s.writers|
    ensures WriterWork(c, DoWriter(c, s, w).writers, |c.reloads|) < WriterWork(c, s.writers, |c.reloads|)
  {
    WriterWorkDrops(c, s.writers, DoWriter(c, s, w).writers, w, |c.reloads|);
  }

  lemma SecondDrops(c: Setting, s: State)
    requires Enabled(c, s, StepSecond)
    requires s.second.SecondAt? ==> AtCursor(s.cfg, c.suites, s.second.i, s.second.j)
    ensures SecondWork(s.cfg, c.suites, DoSecond(c, s).second) < SecondWork(s.cfg, c.suites, s.second)
    ensures DoSecond(c, s).cfg == s.cfg && DoSecond(c, s).outer == s.outer && DoSecond(c, s).first == s.first
  {
    if s.second.SecondAt? && s.second.i < |c.suites| {
      WalkWorkSteps(s.cfg, c.suites, s.second.i, s.second.j);
    }
  }

  lemma OthersDrop(c: Setting, s: State, a: Action)
    requires Enabled(c, s, a) && !a.StepWriter? && !a.StepSecond? && PhaseOk(s)
    requires s.first.FirstSending? ==> s.first.i < |c.tests|
    ensures StreamWork(c, Do(c, s, a)) < StreamWork(c, s)
  {
  }

  ghost predicate Lowers(c: Setting, s: State, t: State) {
    && |t.writers| == |s.writers| == |c.reloads|
    && var before, after := WriterWork(c, s.writers, |c.reloads|), WriterWork(c, t.writers, |c.reloads|);
       after < before || (after == before && StreamWork(c, t) < StreamWork(c, s))
  }

  lemma SecondLowers(c: Setting, s: State)
    requires Inv(c, s) && Enabled(c, s, StepSecond)
    ensures Lowers(c, s, DoSecond(c, s))
  {
    HeldIndex(c, s);
    SecondDrops(c, s);
  }

  /**
    Every step lowers the pair of the work left to the Reloads and the work left to the stream, in
    lexicographic order; so no run is infinite.
   */
  lemma MeasureDrops(c: Setting, s: State, a: Action)
    requires Inv(c, s) && Enabled(c, s, a)
    ensures Lowers(c, s, Do(c, s, a))
  {
    if a.StepWriter? {
      WriterDrops(c, s, a.w);
    } else if a.StepSecond? {
      SecondLowers(c, s);
    } else {
      OthersDrop(c, s, a);
    }
  }

  lemma WriterCanMove(c: Setting, s: State, w: nat)
    requires LockOk(c, s) && s.readers == 0 && w < |s.writers| && !s.writers[w].Finished?
    ensures Enabled(c, s, StepWriter(if s.owner.Some? then s.owner.value else w))
  {
  }

  /**
    A run that cannot go on has received everything, closed each channel exactly once without a send or
    close after it, and left the lock free with every Reload finished.
   */
  lemma MaximalRun(c: Setting, actions: seq<Action>, t: State)
    requires Runs(c, Init(c), actions, t) && forall a :: !Enabled(c, t, a)
    ensures t.chanFirst == t.chanSecond == t.chanOut == 1 && !t.panicked
    ensures t.readers == 0 && t.owner == None && forall w :: 0 <= w < |t.writers| ==> t.writers[w].Finished?
    ensures t.foundFirst <= t.foundSecond <= |t.committed|
    ensures t.received == ByName(FoundIndex(c, t.committed, t.foundFirst), c.tests)
                        + ForSuites(FoundIndex(c, t.committed, t.foundSecond), c.suites)
  {
    Linearised(c, actions, t);
    InitInv(c);
    RunsInv(c, Init(c), actions, t);
    if !Finishing(t) {
      var a := Progress(c, t);
      assert false;
    }
    forall w | 0 <= w < |t.writers| ensures t.writers[w].Finished? {
      if !t.writers[w].Finished? {
        WriterCanMove(c, t, w);
        assert false;
      }
    }
  }
}
