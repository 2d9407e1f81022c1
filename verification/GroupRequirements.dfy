/** What is required of the parts of a group check, by counting and by quantifying. */
module GroupRequirements {
  import opened Common

  datatype GroupRequirements = GroupRequirements(any: bool, one: bool, none: bool, all: bool, name: string)

  /** The verdict for some numbers of passed and failed parts, next to an error if nothing is required. */
  function GetResults(gr: GroupRequirements, passes: nat, failures: nat): (bool, Option<string>) {
    if gr.all then (failures == 0, None)
    else if gr.one then (passes == 1, None)
    else if gr.any then (passes != 0, None)
    else if gr.none then (passes == 0, None)
    else (false, Some("incorrectly configured group check for " + gr.name))
  }

  /** A named requirement of exactly one kind. */
  predicate ValidRequirements(gr: GroupRequirements) {
    && gr.name != ""
    && (gr.all || gr.any || gr.one || gr.none)
    && !(gr.all && gr.any) && !(gr.all && gr.one) && !(gr.all && gr.none)
    && !(gr.any && gr.one) && !(gr.any && gr.none) && !(gr.one && gr.none)
  }

  function Flag(b: bool): string {
    if b then "true" else "false"
  }

  /** What is wrong with requirements that are not valid. */
  function ValidationError(gr: GroupRequirements): string {
    if gr.name == "" then "no name specified for group requirements specification"
    else
      "specified incorrect number of options for a '" + gr.name + "' check: [all=" + Flag(gr.all) + ", one="
      + Flag(gr.one) + ", any=" + Flag(gr.any) + ", none=" + Flag(gr.none) + "]"
  }

  /** A flag as a number. */
  function One(b: bool): nat {
    if b then 1 else 0
  }

  lemma ValidMeans(gr: GroupRequirements)
    ensures ValidRequirements(gr) <==>
      gr.name != "" && One(gr.all) + One(gr.any) + One(gr.one) + One(gr.none) == 1
    ensures gr.name == "" ==> ValidationError(gr) == "no name specified for group requirements specification"
    ensures gr.name != "" ==>
      ValidationError(gr)
      == "specified incorrect number of options for a '" + gr.name + "' check: [all="
         + (if gr.all then "true" else "false") + ", one=" + (if gr.one then "true" else "false")
         + ", any=" + (if gr.any then "true" else "false") + ", none=" + (if gr.none then "true" else "false") + "]"
  {
  }

  method Validate(gr: GroupRequirements) returns (err: Option<string>)
    ensures err == if ValidRequirements(gr) then None else Some(ValidationError(gr))
  {
    if gr.name == "" {
      return Some(ValidationError(gr));
    }
    var opts := [gr.all, gr.any, gr.one, gr.none];
    var active := 0;
    for i := 0 to |opts|
      invariant active == (if i > 0 && opts[0] then 1 else 0) + (if i > 1 && opts[1] then 1 else 0)
                        + (if i > 2 && opts[2] then 1 else 0) + (if i > 3 && opts[3] then 1 else 0)
    {
      if opts[i] {
        active := active + 1;
      }
    }
    if active != 1 {
      return Some(ValidationError(gr));
    }
    return None;
  }

  /** The items whose flag is v, in order. */
  function Select<T>(items: seq<T>, flags: seq<bool>, v: bool): seq<T>
    requires |items| == |flags|
  {
    if items == [] then []
    else
      var n := |items| - 1;
      Select(items[..n], flags[..n], v) + (if flags[n] == v then [items[n]] else [])
  }

  lemma SelectSnoc<T>(items: seq<T>, flags: seq<bool>, item: T, flag: bool, v: bool)
    requires |items| == |flags|
    ensures Select(items + [item], flags + [flag], v) == Select(items, flags, v) + (if flag == v then [item] else [])
  {
    assert (items + [item])[..|items|] == items && (flags + [flag])[..|items|] == flags;
  }

  /** The selected items stand at increasing positions, and those are all positions with that flag. */
  lemma {:induction false} SelectPositions<T>(items: seq<T>, flags: seq<bool>, v: bool) returns (at: seq<nat>)
    requires |items| == |flags|
    ensures |at| == |Select(items, flags, v)|
    ensures forall k :: 0 <= k < |at| ==>
      at[k] < |items| && flags[at[k]] == v && Select(items, flags, v)[k] == items[at[k]]
    ensures forall j, k :: 0 <= j < k < |at| ==> at[j] < at[k]
    ensures forall i :: 0 <= i < |items| && flags[i] == v ==> i in at
  {
    if items == [] {
      at := [];
    } else {
      var n := |items| - 1;
      at := SelectPositions(items[..n], flags[..n], v);
      ghost var before := at;
      if flags[n] == v {
        at := before + [n];
      }
      forall i | 0 <= i < |items| && flags[i] == v ensures i in at {
        if i < n {
          assert flags[..n][i] == v && i in before;
        }
      }
    }
  }

  /** Every item is selected by exactly one of the two flags. */
  lemma {:induction false} SelectPartitions<T>(items: seq<T>, flags: seq<bool>)
    requires |items| == |flags|
    ensures |Select(items, flags, true)| + |Select(items, flags, false)| == |items|
    ensures |Select(items, flags, false)| == 0 <==> forall i :: 0 <= i < |flags| ==> flags[i]
    ensures |Select(items, flags, true)| == 0 <==> forall i :: 0 <= i < |flags| ==> !flags[i]
  {
    if items == [] {
    } else {
      SelectPartitions(items[..|items| - 1], flags[..|items| - 1]);
    }
  }

  ghost predicate OnlyAt(flags: seq<bool>, i: int) {
    0 <= i < |flags| && flags[i] && forall j :: 0 <= j < |flags| && flags[j] ==> j == i
  }

  ghost predicate ExactlyOne(flags: seq<bool>) {
    exists i :: OnlyAt(flags, i)
  }

  lemma ExactlyOneSnoc(init: seq<bool>, last: bool)
    ensures ExactlyOne(init + [last]) <==> if last then forall i :: 0 <= i < |init| ==> !init[i] else ExactlyOne(init)
  {
    var flags, n := init + [last], |init|;
    assert flags[n] == last && forall i :: 0 <= i < n ==> flags[i] == init[i];
    if ExactlyOne(flags) {
      var i :| OnlyAt(flags, i);
      if !last {
        assert OnlyAt(init, i);
      }
    }
    if last {
      if forall i :: 0 <= i < |init| ==> !init[i] {
        assert OnlyAt(flags, n);
      }
    } else if ExactlyOne(init) {
      var i :| OnlyAt(init, i);
      assert OnlyAt(flags, i);
    }
  }

  lemma {:induction false} SelectOne<T>(items: seq<T>, flags: seq<bool>)
    requires |items| == |flags|
    ensures |Select(items, flags, true)| == 1 <==> ExactlyOne(flags)
  {
    if items == [] {
    } else {
      var n := |items| - 1;
      SelectOne(items[..n], flags[..n]);
      SelectPartitions(items[..n], flags[..n]);
      ExactlyOneSnoc(flags[..n], flags[n]);
      assert flags == flags[..n] + [flags[n]];
    }
  }

  /** What a requirement asks of the parts. */
  ghost predicate Satisfied(gr: GroupRequirements, flags: seq<bool>) {
    && (gr.all ==> forall i :: 0 <= i < |flags| ==> flags[i])
    && (gr.any ==> exists i :: 0 <= i < |flags| && flags[i])
    && (gr.one ==> ExactlyOne(flags))
    && (gr.none ==> forall i :: 0 <= i < |flags| ==> !flags[i])
  }

  /** Counting the two halves of the partition decides what the requirement asks. */
  lemma CountingDecides<T>(gr: GroupRequirements, items: seq<T>, flags: seq<bool>)
    requires ValidRequirements(gr) && |items| == |flags|
    ensures GetResults(gr, |Select(items, flags, true)|, |Select(items, flags, false)|) == (Satisfied(gr, flags), None)
  {
    SelectPartitions(items, flags);
    SelectOne(items, flags);
  }

  /** The verdict of a group check. */
  ghost predicate GroupPasses(gr: GroupRequirements, flags: seq<bool>) {
    ValidRequirements(gr) && flags != [] && Satisfied(gr, flags)
  }

  /** The errors that a group check adds, given those for an empty group and for an unmet requirement. */
  ghost function GroupErrors(gr: GroupRequirements, flags: seq<bool>, empty: string, unmet: string): seq<string> {
    if !ValidRequirements(gr) then [ValidationError(gr)]
    else if flags == [] then [empty]
    else if Satisfied(gr, flags) then []
    else [unmet]
  }

  /** When a group passes, for the four kinds of requirement and for requirements that are none of them. */
  lemma GroupPassesMeans(gr: GroupRequirements, flags: seq<bool>)
    ensures gr.name != "" && gr == GroupRequirements(false, false, false, true, gr.name) ==>
      (GroupPasses(gr, flags) <==> flags != [] && forall i :: 0 <= i < |flags| ==> flags[i])
    ensures gr.name != "" && gr == GroupRequirements(true, false, false, false, gr.name) ==>
      (GroupPasses(gr, flags) <==> exists i :: 0 <= i < |flags| && flags[i])
    ensures gr.name != "" && gr == GroupRequirements(false, true, false, false, gr.name) ==>
      (GroupPasses(gr, flags) <==>
       exists i :: 0 <= i < |flags| && flags[i] && forall j :: 0 <= j < |flags| && flags[j] ==> j == i)
    ensures gr.name != "" && gr == GroupRequirements(false, false, true, false, gr.name) ==>
      (GroupPasses(gr, flags) <==> flags != [] && forall i :: 0 <= i < |flags| ==> !flags[i])
    ensures GroupPasses(gr, flags) ==>
      gr.name != "" && One(gr.all) + One(gr.any) + One(gr.one) + One(gr.none) == 1
  {
    assert ExactlyOne(flags) <==>
      exists i :: 0 <= i < |flags| && flags[i] && forall j :: 0 <= j < |flags| && flags[j] ==> j == i
    by {
      if i :| 0 <= i < |flags| && flags[i] && forall j :: 0 <= j < |flags| && flags[j] ==> j == i {
        assert OnlyAt(flags, i);
      }
      if ExactlyOne(flags) {
        var i :| OnlyAt(flags, i);
        assert flags[i];
      }
    }
  }

  /** An item is selected iff its flag is the one asked for; the others keep their order. */
  lemma SelectItemByItem<T>(items: seq<T>, flags: seq<bool>, item: T, flag: bool, v: bool)
    requires |items| == |flags|
    ensures Select<T>([], [], v) == []
    ensures flag == v ==> Select(items + [item], flags + [flag], v) == Select(items, flags, v) + [item]
    ensures flag != v ==> Select(items + [item], flags + [flag], v) == Select(items, flags, v)
  {
    SelectSnoc(items, flags, item, flag, v);
  }
}
