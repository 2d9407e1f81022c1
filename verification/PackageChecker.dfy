/** The closures that look up one package, and the argument slices they share. */
module PackageChecker {
  import opened CheckBase
  import opened Checks

  // ----- slices -----

  /** A Go slice: the first len elements of an array of which it may use cap. */
  datatype Slice = Slice(data: array<string>, len: nat, cap: nat)

  ghost predicate Valid(s: Slice) {
    s.len <= s.cap <= s.data.Length
  }

  ghost function Contents(s: Slice): seq<string>
    requires Valid(s)
    reads s.data
  {
    s.data[..s.len]
  }

  /** A slice literal has no room to grow. */
  method Literal(xs: seq<string>) returns (s: Slice)
    ensures Valid(s) && s.len == s.cap && fresh(s.data) && Contents(s) == xs
  {
    var data := new string[|xs|](i requires 0 <= i < |xs| => xs[i]);
    s := Slice(data, |xs|, |xs|);
  }

  /** Writes in place when there is room, and otherwise copies to an array with some more room. */
  method Append(s: Slice, x: string, more: nat) returns (r: Slice)
    requires Valid(s)
    modifies s.data
    ensures Valid(r) && r.len == s.len + 1 && Contents(r) == old(Contents(s)) + [x]
    ensures s.len < s.cap ==> r == s.(len := s.len + 1) && s.data[..] == old(s.data[..])[s.len := x]
    ensures s.len == s.cap ==> fresh(r.data) && s.data[..] == old(s.data[..])
  {
    if s.len < s.cap {
      s.data[s.len] := x;
      r := Slice(s.data, s.len + 1, s.cap);
    } else {
      var xs := s.data[..s.len] + [x];
      var data := new string[s.len + 1 + more](i => if 0 <= i <= s.len then xs[i] else "");
      r := Slice(data, s.len + 1, s.len + 1 + more);
      assert data[..s.len + 1] == xs;
    }
  }

  // ----- one call -----

  function LookupOf(args: seq<string>, name: string, x: Execution): Lookup
    requires args != []
  {
    var output := Trim(x.output);
    match x.err
    case None => Lookup(true, output)
    case Some(e) =>
      Lookup(false, args[0] + " package '" + name + "' is not installed (" + e + ") (" + output + "): "
                    + Join(args, " "))
  }

  /** A call that nothing interrupts; what the command does is given by exec. */
  method Call(args: Slice, name: string, exec: seq<string> -> Execution, more: nat) returns (r: Lookup)
    requires Valid(args)
    modifies args.data
    ensures var all := old(Contents(args)) + [name]; r == LookupOf(all, name, exec(all))
    ensures var all := old(Contents(args)) + [name];
            && (r.installed <==> exec(all).err.None?)
            && (exec(all).err.None? ==> r.message == Trim(exec(all).output))
            && (exec(all).err.Some? ==>
                  r.message == all[0] + " package '" + name + "' is not installed (" + exec(all).err.value + ") ("
                               + Trim(exec(all).output) + "): " + Join(all, " "))
    ensures Contents(args) == old(Contents(args))
  {
    var localArgs := Append(args, name, more);
    var all := localArgs.data[..localArgs.len];
    r := LookupOf(all, name, exec(all));
  }

  // ----- calls that overlap -----

  /** A call has built its arguments, or reads them. */
  datatype Event = Appended(call: nat) | Read(call: nat)

  /** Each of n calls builds its arguments once, and reads them only after that, at any time. */
  ghost predicate Schedule(n: nat, events: seq<Event>) {
    forall k :: 0 <= k < |events| ==>
      && events[k].call < n
      && (events[k].Appended? ==> events[k] !in events[..k])
      && (events[k].Read? ==> Appended(events[k].call) in events[..k])
  }

  /** The name that was appended last. */
  function LastName(names: seq<string>, events: seq<Event>): string {
    if events == [] then ""
    else
      match events[|events| - 1]
      case Appended(c) => if c < |names| then names[c] else ""
      case Read(_) => LastName(names, events[..|events| - 1])
  }

  /** The name that a call finds at the end of its arguments, given whether the captured slice has room. */
  function NameRead(room: bool, names: seq<string>, before: seq<Event>, call: nat): string
    requires call < |names|
  {
    if room then LastName(names, before) else names[call]
  }

  /** What holds of the arguments of the calls that have built them. */
  ghost predicate LocalsOk(args: Slice, was: seq<string>, names: seq<string>, events: seq<Event>, locals: seq<Slice>)
    reads args.data, set i | 0 <= i < |locals| :: locals[i].data
  {
    && Valid(args) && |locals| == |names| && Contents(args) == was
    && forall i {:trigger locals[i]} {:trigger Appended(i)} :: 0 <= i < |names| && Appended(i) in events ==>
         && Valid(locals[i]) && locals[i].len == args.len + 1
         && Contents(locals[i]) == was + [NameRead(args.len < args.cap, names, events, i)]
         && (args.len < args.cap ==> locals[i].data == args.data)
         && (args.len == args.cap ==> locals[i].data != args.data)
  }

  /** One call builds its arguments while others may already hold theirs. */
  method Build(args: Slice, names: seq<string>, ghost events: seq<Event>, call: nat, locals: seq<Slice>, more: nat)
    returns (now: seq<Slice>)
    requires Valid(args) && call < |names|
    requires LocalsOk(args, Contents(args), names, events, locals)
    modifies args.data
    ensures LocalsOk(args, old(Contents(args)), names, events + [Appended(call)], now)
  {
    var local := Append(args, names[call], more);
    now := locals[call := local];
    ghost var all := events + [Appended(call)];
    assert all[..|all| - 1] == events;
    assert Contents(args) == old(Contents(args));
  }

  lemma StillBuilt(args: Slice, was: seq<string>, names: seq<string>, events: seq<Event>, call: nat, locals: seq<Slice>)
    requires LocalsOk(args, was, names, events, locals)
    ensures LocalsOk(args, was, names, events + [Read(call)], locals)
  {
    var all := events + [Read(call)];
    assert all[..|all| - 1] == events;
  }

  /** What the calls read is what NameRead says. */
  ghost predicate SeenOk(was: seq<string>, room: bool, names: seq<string>, events: seq<Event>, seen: seq<seq<string>>)
    requires Schedule(|names|, events) && |seen| <= |events|
  {
    forall k :: 0 <= k < |seen| && events[k].Read? ==>
      seen[k] == was + [NameRead(room, names, events[..k], events[k].call)]
  }

  lemma SeenSnoc(was: seq<string>, room: bool, names: seq<string>, events: seq<Event>, seen: seq<seq<string>>,
                 next: seq<string>)
    requires Schedule(|names|, events) && |seen| < |events| && SeenOk(was, room, names, events, seen)
    requires var e := events[|seen|];
             e.Read? ==> next == was + [NameRead(room, names, events[..|seen|], e.call)]
    ensures SeenOk(was, room, names, events, seen + [next])
  {
  }

  method OverlappingCalls(args: Slice, names: seq<string>, events: seq<Event>, more: nat)
    returns (seen: seq<seq<string>>)
    requires Valid(args) && Schedule(|names|, events)
    modifies args.data
    ensures |seen| == |events| && Contents(args) == old(Contents(args))
    ensures SeenOk(old(Contents(args)), args.len < args.cap, names, events, seen)
  {
    seen := [];
    ghost var was := Contents(args);
    var locals := seq(|names|, _ => args);
    for k := 0 to |events|
      invariant |seen| == k
      invariant LocalsOk(args, was, names, events[..k], locals)
      invariant SeenOk(was, args.len < args.cap, names, events, seen)
    {
      assert events[..k + 1] == events[..k] + [events[k]];
      var next: seq<string> := [];
      match events[k] {
        case Appended(c) =>
          locals := Build(args, names, events[..k], c, locals, more);
        case Read(c) =>
          StillBuilt(args, was, names, events[..k], c, locals);
          next := locals[c].data[..locals[c].len];
      }
      SeenSnoc(was, args.len < args.cap, names, events, seen, next);
      seen := seen + [next];
    }
  }

  /** Every call that reads its arguments finds the name it was made for. */
  ghost predicate ReadsOwnNames(room: bool, names: seq<string>, events: seq<Event>)
    requires Schedule(|names|, events)
  {
    forall k :: 0 <= k < |events| && events[k].Read? ==>
      NameRead(room, names, events[..k], events[k].call) == names[events[k].call]
  }

  /**
    Calls for these packages never see each other's arguments, whatever the schedule, iff the captured
    slice has no room or there is nothing to tell the names apart.
   */
  lemma CallsAreIndependent(room: bool, names: seq<string>)
    ensures (forall events: seq<Event> :: Schedule(|names|, events) ==> ReadsOwnNames(room, names, events))
       <==> (!room || forall i, j :: 0 <= i < |names| && 0 <= j < |names| ==> names[i] == names[j])
  {
    if room {
      if i: nat, j: nat :| i < |names| && j < |names| && names[i] != names[j] {
        var events := [Appended(i), Appended(j), Read(i)];
        assert events[..2] == [Appended(i), Appended(j)];
        assert Appended(i) == events[..2][0];
        assert Schedule(|names|, events);
        assert events[2].Read? && NameRead(room, names, events[..2], i) == names[j];
      } else {
        forall events: seq<Event> | Schedule(|names|, events) ensures ReadsOwnNames(room, names, events) {
          forall k | 0 <= k < |events| && events[k].Read?
            ensures NameRead(room, names, events[..k], events[k].call) == names[events[k].call]
          {
            LastNameIsOneOf(names, events[..k], events[k].call);
          }
        }
      }
    }
  }

  lemma {:induction false} LastNameIsOneOf(names: seq<string>, events: seq<Event>, call: nat)
    requires forall k :: 0 <= k < |events| ==> events[k].call < |names|
    requires Appended(call) in events
    ensures exists i :: 0 <= i < |names| && LastName(names, events) == names[i]
  {
    var last := events[|events| - 1];
    assert last.call < |names|;
    if last.Appended? {
      assert LastName(names, events) == names[last.call];
    } else {
      assert events == events[..|events| - 1] + [last];
      LastNameIsOneOf(names, events[..|events| - 1], call);
    }
  }

  /** The registered checkers capture literals, so that overlapping calls always run their own commands. */
  method RegisteredChecker(command: seq<string>, names: seq<string>, events: seq<Event>, more: nat)
    returns (seen: seq<seq<string>>)
    requires Schedule(|names|, events)
    ensures |seen| == |events|
    ensures forall k :: 0 <= k < |events| && events[k].Read? ==> seen[k] == command + [names[events[k].call]]
  {
    var args := Literal(command);
    seen := OverlappingCalls(args, names, events, more);
  }
}
