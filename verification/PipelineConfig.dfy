/**
 The pipeline editor's flat-index edits over nested groups, and the grouping of a run's
 steps back into stages.  Every edit is specified by what it does to the flat step list.
 */
module PipelineConfig {
  import opened Options

  datatype Step = Step(id: string, action: string)

  datatype Group = Group(id: string, name: string, transition: string, steps: seq<Step>)

  function Flatten(groups: seq<Group>): seq<Step> {
    if groups == [] then [] else groups[0].steps + Flatten(groups[1..])
  }

  // ----- List edits -----

  function DeleteAt<T>(s: seq<T>, i: int): seq<T> {
    if 0 <= i < |s| then s[..i] + s[i + 1..] else s
  }

  lemma DeletedIsOneLess<T>(s: seq<T>, i: int)
    ensures !(0 <= i < |s|) ==> DeleteAt(s, i) == s
    ensures 0 <= i < |s| ==>
      && |DeleteAt(s, i)| == |s| - 1
      && forall k :: 0 <= k < |s| - 1 ==> DeleteAt(s, i)[k] == if k < i then s[k] else s[k + 1]
  {
  }

  function ReplaceAt<T>(s: seq<T>, i: int, x: T): seq<T> {
    if 0 <= i < |s| then s[i := x] else s
  }

  /** How Array.prototype.splice reads its first argument. */
  function SpliceIndex(i: int, length: nat): (k: nat)
    ensures k <= length
  {
    if i < 0 then (if length + i < 0 then 0 else length + i) else if i > length then length else i
  }

  /** splice(from, 1), then splice(to, 0, moved); nothing to move leaves the list alone. */
  function Move<T>(s: seq<T>, from: int, to: int): seq<T> {
    var f := SpliceIndex(from, |s|);
    if f == |s| then s
    else
      var rest := DeleteAt(s, f);
      var t := SpliceIndex(to, |rest|);
      rest[..t] + [s[f]] + rest[t..]
  }

  /** Between valid indices the element lands at `to`, and the others keep their order. */
  lemma MoveLands<T>(s: seq<T>, from: nat, to: nat)
    requires from < |s| && to < |s|
    ensures |Move(s, from, to)| == |s| && Move(s, from, to)[to] == s[from]
    ensures DeleteAt(Move(s, from, to), to) == DeleteAt(s, from)
  {
    var rest := DeleteAt(s, from);
    assert Move(s, from, to)[..to] == rest[..to] && Move(s, from, to)[to + 1..] == rest[to..];
    assert rest == rest[..to] + rest[to..];
  }

  /** Other indices count from the end or stop at an end: in the list for `from`, in the rest of it for `to`. */
  lemma MoveFromElsewhere<T>(s: seq<T>, from: int, to: int)
    ensures from >= |s| ==> Move(s, from, to) == s
    ensures -|s| <= from < 0 ==> Move(s, from, to) == Move(s, from + |s|, to)
    ensures from < -|s| ==> Move(s, from, to) == Move(s, 0, to)
    ensures from < |s| && to >= |s| ==> Move(s, from, to) == Move(s, from, |s| - 1)
    ensures from < |s| && -|s| < to < 0 ==> Move(s, from, to) == Move(s, from, to + |s| - 1)
    ensures from < |s| && to <= -|s| ==> Move(s, from, to) == Move(s, from, 0)
  {
  }

  lemma MoveIsPermutation<T>(s: seq<T>, from: int, to: int)
    ensures |Move(s, from, to)| == |s| && multiset(Move(s, from, to)) == multiset(s)
  {
    var f := SpliceIndex(from, |s|);
    if f < |s| {
      var rest := DeleteAt(s, f);
      var t := SpliceIndex(to, |rest|);
      assert s == s[..f] + [s[f]] + s[f + 1..];
      assert rest == s[..f] + s[f + 1..];
      assert multiset(s) == multiset(rest) + multiset([s[f]]);
      assert rest == rest[..t] + rest[t..];
      assert multiset(rest) == multiset(rest[..t]) + multiset(rest[t..]);
    }
  }

  // ----- Which group owns a flat position -----

  /** The group and the position inside it of flat index `i`. */
  function Locate(groups: seq<Group>, i: int): (r: Option<(nat, nat)>)
    ensures r.Some? ==> r.value.0 < |groups| && r.value.1 < |groups[r.value.0].steps|
  {
    if groups == [] || i < 0 then None
    else if i < |groups[0].steps| then Some((0, i))
    else
      match Locate(groups[1..], i - |groups[0].steps|)
      case None => None
      case Some(r) => Some((r.0 + 1, r.1))
  }

  lemma {:induction false} LocateFindsAll(groups: seq<Group>, i: int)
    ensures Locate(groups, i).Some? <==> 0 <= i < |Flatten(groups)|
    ensures Locate(groups, i).Some? ==>
      var (g, k) := Locate(groups, i).value;
      Flatten(groups)[i] == groups[g].steps[k]
  {
    if groups != [] && i >= |groups[0].steps| {
      LocateFindsAll(groups[1..], i - |groups[0].steps|);
    }
  }

  /** `groups` with the steps of one group replaced. */
  function WithSteps(groups: seq<Group>, g: nat, steps: seq<Step>): seq<Group>
    requires g < |groups|
  {
    groups[g := groups[g].(steps := steps)]
  }

  /** removeStep on values: only the owning group changes. */
  function Removed(groups: seq<Group>, i: int): seq<Group> {
    match Locate(groups, i)
    case None => groups
    case Some((g, k)) => WithSteps(groups, g, DeleteAt(groups[g].steps, k))
  }

  function Updated(groups: seq<Group>, i: int, step: Step): seq<Group> {
    match Locate(groups, i)
    case None => groups
    case Some((g, k)) => WithSteps(groups, g, groups[g].steps[k := step])
  }

  function EditAt(s: seq<Step>, i: int, replacement: Option<Step>): seq<Step> {
    if replacement.Some? then ReplaceAt(s, i, replacement.value) else DeleteAt(s, i)
  }

  function Edited(groups: seq<Group>, i: int, replacement: Option<Step>): seq<Group> {
    if replacement.Some? then Updated(groups, i, replacement.value) else Removed(groups, i)
  }

  /** The flat list dealt out again over groups of the old sizes. */
  function Redistributed(groups: seq<Group>, flat: seq<Step>): seq<Group>
    requires |flat| == |Flatten(groups)|
  {
    if groups == [] then []
    else
      var n := |groups[0].steps|;
      [groups[0].(steps := flat[..n])] + Redistributed(groups[1..], flat[n..])
  }

  /**
   Removing by flat index deletes that position of the flat list; any other index, negative ones
   included, changes nothing.
   */
  lemma DeleteInOne<T>(a: seq<T>, b: seq<T>, i: nat)
    ensures DeleteAt(a + b, i) == if i < |a| then DeleteAt(a, i) + b else a + DeleteAt(b, i - |a|)
  {
  }

  lemma {:induction false} RemoveCommutes(groups: seq<Group>, i: int)
    ensures Flatten(Removed(groups, i)) == DeleteAt(Flatten(groups), i)
  {
    LocateFindsAll(groups, i);
    if Locate(groups, i).Some? {
      var n, rest := |groups[0].steps|, groups[1..];
      hide DeleteAt;
      DeleteInOne(groups[0].steps, Flatten(rest), i);
      if i < n {
        assert WithSteps(groups, 0, DeleteAt(groups[0].steps, i))[1..] == rest;
      } else {
        RemoveCommutes(rest, i - n);
        LaterGroupOnly(groups, Removed(groups, i), Removed(rest, i - n));
      }
    }
  }

  lemma LaterGroupOnly(groups: seq<Group>, changed: seq<Group>, changedRest: seq<Group>)
    requires groups != [] && changed != [] && changed[0] == groups[0] && changed[1..] == changedRest
    ensures Flatten(changed) == groups[0].steps + Flatten(changedRest)
  {
  }

  lemma {:induction false} UpdateCommutes(groups: seq<Group>, i: int, step: Step)
    ensures Flatten(Updated(groups, i, step)) == ReplaceAt(Flatten(groups), i, step)
  {
    LocateFindsAll(groups, i);
    if Locate(groups, i).Some? {
      var n, rest := |groups[0].steps|, groups[1..];
      if i < n {
        assert WithSteps(groups, 0, groups[0].steps[i := step])[1..] == rest;
        assert groups[0].steps[i := step] + Flatten(rest) == (groups[0].steps + Flatten(rest))[i := step];
      } else {
        UpdateCommutes(rest, i - n, step);
        LaterGroupOnly(groups, Updated(groups, i, step), Updated(rest, i - n, step));
        assert groups[0].steps + ReplaceAt(Flatten(rest), i - n, step)
          == ReplaceAt(groups[0].steps + Flatten(rest), i, step);
      }
    }
  }

  /** The same groups in the same order, each with as many steps as before. */
  ghost predicate SameShape(was: seq<Group>, now: seq<Group>) {
    && |now| == |was|
    && forall g :: 0 <= g < |was| ==> |now[g].steps| == |was[g].steps| && now[g] == was[g].(steps := now[g].steps)
  }

  /** Dealing a flat list out loses nothing, keeps its order, and keeps every group's size and identity. */
  lemma {:induction false} RedistributeCommutes(groups: seq<Group>, flat: seq<Step>)
    requires |flat| == |Flatten(groups)|
    ensures Flatten(Redistributed(groups, flat)) == flat && SameShape(groups, Redistributed(groups, flat))
  {
    if groups != [] {
      var n := |groups[0].steps|;
      RedistributeCommutes(groups[1..], flat[n..]);
      assert flat[..n] + flat[n..] == flat;
    }
  }

  lemma FlattenCons(groups: seq<Group>, first: Group, rest: seq<Group>)
    requires groups == [first] + rest
    ensures Flatten(groups) == first.steps + Flatten(rest)
  {
    assert groups[1..] == rest;
  }

  lemma AppendIsAssociative<T>(a: seq<T>, b: seq<T>, c: seq<T>)
    ensures a + b + c == a + (b + c)
  {
  }

  lemma {:induction false} FlattenAppend(a: seq<Group>, b: seq<Group>)
    ensures Flatten(a + b) == Flatten(a) + Flatten(b)
  {
    if a == [] {
      assert a + b == b;
    } else {
      FlattenAppend(a[1..], b);
      FlattenCons(a, a[0], a[1..]);
      FlattenCons(a + b, a[0], a[1..] + b);
      AppendIsAssociative(a[0].steps, Flatten(a[1..]), Flatten(b));
      hide Flatten;
    }
  }

  lemma FlattenOneMore(groups: seq<Group>, g: nat)
    requires g < |groups|
    ensures Flatten(groups[..g + 1]) == Flatten(groups[..g]) + groups[g].steps
  {
    assert groups[..g + 1] == groups[..g] + [groups[g]];
    FlattenAppend(groups[..g], [groups[g]]);
    assert Flatten([groups[g]]) == groups[g].steps + [];
  }

  lemma ReplacedInPlace(groups: seq<Group>, g: nat, x: Group)
    requires g < |groups|
    ensures groups[..g] + [x] + groups[g + 1..] == groups[g := x]
  {
  }

  lemma OneGroupOn(done: seq<Group>, groups: seq<Group>, g: nat)
    requires g < |groups|
    ensures done + [groups[g]] + groups[g + 1..] == done + groups[g..]
    ensures groups[..g] + [groups[g]] == groups[..g + 1]
  {
  }

  // ----- The loops' state -----

  function Shift(found: Option<(nat, nat)>, g: nat): Option<(nat, nat)> {
    if found.None? then None else Some((found.value.0 + g, found.value.1))
  }

  lemma LocateCons(groups: seq<Group>, i: int)
    requires groups != [] && i >= |groups[0].steps|
    ensures Locate(groups, i) == Shift(Locate(groups[1..], i - |groups[0].steps|), 1)
  {
  }

  lemma PrefixCons(groups: seq<Group>, g: nat)
    requires 0 < g <= |groups|
    ensures |Flatten(groups[..g])| == |groups[0].steps| + |Flatten(groups[1..][..g - 1])|
    ensures groups[1..][g - 1..] == groups[g..]
  {
    FlattenCons(groups[..g], groups[0], groups[1..][..g - 1]);
  }

  lemma {:induction false} LocateSkips(groups: seq<Group>, g: nat, i: int)
    requires g <= |groups| && i >= |Flatten(groups[..g])|
    ensures Locate(groups, i) == Shift(Locate(groups[g..], i - |Flatten(groups[..g])|), g)
  {
    if g > 0 {
      PrefixCons(groups, g);
      LocateCons(groups, i);
      hide Flatten, Locate;
      LocateSkips(groups[1..], g - 1, i - |groups[0].steps|);
    } else {
      assert groups[g..] == groups && groups[..g] == [];
    }
  }

  class PipelineConfigStore {
    var config: Option<seq<Group>>
    var isDirty: bool

    constructor ()
      ensures config == None && !isDirty
    {
      config, isDirty := None, false;
    }

    /** removeStep */
    method RemoveStep(index: int)
      modifies this
      ensures old(config).None? ==> config.None? && isDirty == old(isDirty)
      ensures old(config).Some? ==> isDirty && config == Some(Removed(old(config).value, index))
      ensures old(config).Some? ==> Flatten(config.value) == DeleteAt(Flatten(old(config).value), index)
    {
      if config.None? {
        return;
      }
      RemoveCommutes(config.value, index);
      var newGroups := EditOwner(config.value, index, None);
      config, isDirty := Some(newGroups), true;
    }

    /** updateStep */
    method UpdateStep(index: int, step: Step)
      modifies this
      ensures old(config).None? ==> config.None? && isDirty == old(isDirty)
      ensures old(config).Some? ==> isDirty && config == Some(Updated(old(config).value, index, step))
      ensures old(config).Some? ==> Flatten(config.value) == ReplaceAt(Flatten(old(config).value), index, step)
    {
      if config.None? {
        return;
      }
      UpdateCommutes(config.value, index, step);
      var newGroups := EditOwner(config.value, index, Some(step));
      config, isDirty := Some(newGroups), true;
    }

    /**
     The pass both edits make over the groups, with a counter that shrinks by each group's
     size and turns negative once the step is found; no replacement means removal.
     */
    method EditOwner(groups: seq<Group>, index: int, replacement: Option<Step>) returns (newGroups: seq<Group>)
      ensures newGroups == Edited(groups, index, replacement)
    {
      hide Flatten, Locate;
      var remaining := index;
      newGroups := [];
      assert groups[..0] == [] && groups[0..] == groups;
      NegativeIsNowhere(groups, index);
      EmptyFlatten();
      for g := 0 to |groups|
        invariant |newGroups| == g
        invariant remaining >= 0 ==> remaining == index - |Flatten(groups[..g])| && newGroups == groups[..g]
        invariant remaining < 0 ==> newGroups + groups[g..] == Edited(groups, index, replacement)
      {
        FlattenOneMore(groups, g);
        OneGroupOn(newGroups, groups, g);
        if remaining >= |groups[g].steps| {
          remaining := remaining - |groups[g].steps|;
          newGroups := newGroups + [groups[g]];
        } else {
          var newGroup := groups[g].(steps := EditAt(groups[g].steps, remaining, replacement));
          if remaining >= 0 {
            OwnerFound(groups, g, index, remaining);
            ReplacedInPlace(groups, g, newGroup);
          }
          newGroups := newGroups + [newGroup];
          remaining := -1;
        }
      }
      assert groups[..|groups|] == groups && newGroups + groups[|groups|..] == newGroups;
      PastTheEnd(groups, index);
    }

    lemma NegativeIsNowhere(groups: seq<Group>, index: int)
      ensures index < 0 ==> Locate(groups, index) == None
    {
    }

    lemma PastTheEnd(groups: seq<Group>, index: int)
      ensures index >= |Flatten(groups)| ==> Locate(groups, index) == None
    {
      LocateFindsAll(groups, index);
    }

    lemma EmptyFlatten()
      ensures Flatten([]) == []
    {
    }

    lemma OwnerFound(groups: seq<Group>, g: nat, index: int, remaining: nat)
      requires g < |groups| && remaining == index - |Flatten(groups[..g])| && remaining < |groups[g].steps|
      ensures Locate(groups, index) == Some((g, remaining))
    {
      LocateSkips(groups, g, index);
    }

    /** Moves within the flat list and deals the result out again: every group keeps its size. */
    method ReorderSteps(fromIndex: int, toIndex: int)
      modifies this
      ensures old(config).None? ==> config.None? && isDirty == old(isDirty)
      ensures old(config).Some? ==>
        var groups := old(config).value;
        && config.Some? && Flatten(config.value) == Move(Flatten(groups), fromIndex, toIndex)
        && SameShape(groups, config.value)
        && (isDirty <==> old(isDirty) || SpliceIndex(fromIndex, |Flatten(groups)|) < |Flatten(groups)|)
    {
      if config.None? {
        return;
      }
      var groups := config.value;
      var flat := Flatten(groups);
      if SpliceIndex(fromIndex, |flat|) == |flat| {
        assert SameShape(groups, groups);
        return;
      }
      var allSteps := Move(flat, fromIndex, toIndex);
      MoveIsPermutation(flat, fromIndex, toIndex);
      RedistributeCommutes(groups, allSteps);
      var newGroups := Redistribute(groups, allSteps);
      config, isDirty := Some(newGroups), true;
    }

    method Redistribute(groups: seq<Group>, allSteps: seq<Step>) returns (newGroups: seq<Group>)
      requires |allSteps| == |Flatten(groups)|
      ensures newGroups == Redistributed(groups, allSteps)
    {
      hide Flatten, Redistributed;
      newGroups := [];
      var offset: nat := 0;
      assert groups[0..] == groups && allSteps[0..] == allSteps;
      for g := 0 to |groups|
        invariant offset <= |allSteps| && |allSteps[offset..]| == |Flatten(groups[g..])|
        invariant newGroups + Redistributed(groups[g..], allSteps[offset..]) == Redistributed(groups, allSteps)
      {
        var n := |groups[g].steps|;
        DealOne(groups, g, allSteps, offset);
        newGroups := newGroups + [groups[g].(steps := allSteps[offset..offset + n])];
        offset := offset + n;
      }
      NothingToDeal(groups, allSteps, offset);
      assert newGroups + [] == newGroups;
    }

    lemma DealOne(groups: seq<Group>, g: nat, flat: seq<Step>, offset: nat)
      requires g < |groups| && offset <= |flat| && |flat[offset..]| == |Flatten(groups[g..])|
      ensures
        var n := |groups[g].steps|;
        && offset + n <= |flat| && |flat[offset + n..]| == |Flatten(groups[g + 1..])|
        && Redistributed(groups[g..], flat[offset..])
           == [groups[g].(steps := flat[offset..offset + n])] + Redistributed(groups[g + 1..], flat[offset + n..])
    {
      var n := |groups[g].steps|;
      assert groups[g..][1..] == groups[g + 1..];
      assert flat[offset..][n..] == flat[offset + n..] && flat[offset..][..n] == flat[offset..offset + n];
    }

    lemma NothingToDeal(groups: seq<Group>, flat: seq<Step>, offset: nat)
      requires offset <= |flat| && |flat[offset..]| == |Flatten(groups[|groups|..])|
      ensures Redistributed(groups[|groups|..], flat[offset..]) == []
    {
    }

    /** Appends to the last group, or to a fresh default group when there is none. */
    method AddStep(step: Step)
      modifies this
      ensures old(config).None? ==> config.None? && isDirty == old(isDirty)
      ensures old(config).Some? ==>
        var groups := old(config).value;
        && isDirty && config.Some? && Flatten(config.value) == Flatten(groups) + [step]
        && config.value == (if groups == [] then [Group("default", "Default", "auto", [step])]
                            else WithSteps(groups, |groups| - 1, groups[|groups| - 1].steps + [step]))
    {
      if config.None? {
        return;
      }
      var groups := config.value;
      if |groups| == 0 {
        groups := [Group("default", "Default", "auto", [])];
        assert Flatten(groups) == Flatten([]) && [] + [step] == [step];
      }
      AppendToLast(groups, step);
      var last := |groups| - 1;
      groups := groups[last := groups[last].(steps := groups[last].steps + [step])];
      config, isDirty := Some(groups), true;
    }

    lemma AppendToLast(groups: seq<Group>, step: Step)
      requires groups != []
      ensures Flatten(WithSteps(groups, |groups| - 1, groups[|groups| - 1].steps + [step])) == Flatten(groups) + [step]
    {
      var last := |groups| - 1;
      var longer := WithSteps(groups, last, groups[last].steps + [step]);
      assert longer[..last] == groups[..last] && longer[..last + 1] == longer && groups[..last + 1] == groups;
      FlattenOneMore(groups, last);
      FlattenOneMore(longer, last);
    }

    method ReorderGroups(fromIndex: int, toIndex: int)
      modifies this
      ensures old(config).None? ==> config.None? && isDirty == old(isDirty)
      ensures old(config).Some? ==>
        && config == Some(Move(old(config).value, fromIndex, toIndex))
        && (isDirty <==> old(isDirty) || SpliceIndex(fromIndex, |old(config).value|) < |old(config).value|)
        && multiset(config.value) == multiset(old(config).value)
    {
      if config.None? {
        return;
      }
      var groups := config.value;
      MoveIsPermutation(groups, fromIndex, toIndex);
      if SpliceIndex(fromIndex, |groups|) == |groups| {
        return;
      }
      config, isDirty := Some(Move(groups, fromIndex, toIndex)), true;
    }

    /** Every group of that id is reordered on its own; all others are left alone. */
    method ReorderStepsInGroup(groupId: string, fromIndex: int, toIndex: int)
      modifies this
      ensures old(config).None? ==> config.None? && isDirty == old(isDirty)
      ensures old(config).Some? ==>
        var groups := old(config).value;
        && isDirty && config.Some? && |config.value| == |groups|
        && forall g :: 0 <= g < |groups| ==>
             config.value[g] == if groups[g].id == groupId then groups[g].(steps := Move(groups[g].steps, fromIndex,
               toIndex))
                                else groups[g]
    {
      if config.None? {
        return;
      }
      var groups := config.value;
      var newGroups := [];
      for g := 0 to |groups|
        invariant |newGroups| == g
        invariant forall j :: 0 <= j < g ==>
          newGroups[j] == if groups[j].id == groupId then groups[j].(steps := Move(groups[j].steps, fromIndex,
            toIndex)) else groups[j]
      {
        if groups[g].id != groupId {
          newGroups := newGroups + [groups[g]];
          continue;
        }
        newGroups := newGroups + [groups[g].(steps := Move(groups[g].steps, fromIndex, toIndex))];
      }
      config, isDirty := Some(newGroups), true;
    }
  }

  // ----- Stages -----

  datatype RunStep = RunStep(id: string, stepOrder: int)

  function InRange(steps: seq<RunStep>, lo: int, hi: int): (r: seq<RunStep>)
    ensures forall s :: s in r <==> s in steps && lo <= s.stepOrder < hi
  {
    if steps == [] then []
    else (if lo <= steps[0].stepOrder < hi then [steps[0]] else []) + InRange(steps[1..], lo, hi)
  }

  function Offset(groups: seq<Group>, g: nat): nat
    requires g <= |groups|
  {
    |Flatten(groups[..g])|
  }

  /** The steps whose order falls on a flat position of group `g`, in the order given. */
  function StageAt(groups: seq<Group>, steps: seq<RunStep>, g: nat): seq<RunStep>
    requires g < |groups|
  {
    InRange(steps, Offset(groups, g), Offset(groups, g) + |groups[g].steps|)
  }

  /** The last of the first `n` groups that carries `id`: Map.set lets it overwrite earlier ones. */
  function LastWithId(groups: seq<Group>, n: nat, id: string): (r: Option<nat>)
    requires n <= |groups|
    ensures r.None? ==> forall j :: 0 <= j < n ==> groups[j].id != id
    ensures r.Some? ==> r.value < n && groups[r.value].id == id && forall j :: r.value < j < n ==> groups[j].id != id
  {
    if n == 0 then None else if groups[n - 1].id == id then Some(n - 1) else LastWithId(groups, n - 1, id)
  }

  /** One stage per group id; without groups, a single default stage with everything. */
  method GroupStepsByStage(groups: Option<seq<Group>>, steps: seq<RunStep>) returns (stages: map<string, seq<RunStep>>)
    ensures groups.None? || groups.value == [] ==> stages == map["default" := steps]
    ensures groups.Some? && groups.value != [] ==>
      forall id ::
        && (id in stages <==> LastWithId(groups.value, |groups.value|, id).Some?)
        && (id in stages ==> stages[id] == StageAt(groups.value, steps,
          LastWithId(groups.value, |groups.value|, id).value))
  {
    if groups.None? || |groups.value| == 0 {
      return map["default" := steps];
    }
    hide Offset, InRange;
    var gs := groups.value;
    stages := map[];
    var offset := 0;
    OffsetStart(gs);
    for g := 0 to |gs|
      invariant offset == Offset(gs, g)
      invariant forall id :: id in stages <==> LastWithId(gs, g, id).Some?
      invariant forall id :: id in stages ==> stages[id] == StageAt(gs, steps, LastWithId(gs, g, id).value)
    {
      OffsetStep(gs, g);
      stages := stages[gs[g].id := InRange(steps, offset, offset + |gs[g].steps|)];
      offset := offset + |gs[g].steps|;
    }
  }

  lemma OffsetStart(groups: seq<Group>)
    ensures Offset(groups, 0) == 0
  {
    assert groups[..0] == [];
  }

  lemma OffsetStep(groups: seq<Group>, g: nat)
    requires g < |groups|
    ensures Offset(groups, g + 1) == Offset(groups, g) + |groups[g].steps|
  {
    FlattenOneMore(groups, g);
  }

  /** Group `g` spans exactly the flat positions that Locate gives to it. */
  lemma GroupSpan(groups: seq<Group>, g: nat, i: int)
    requires g < |groups|
    ensures Offset(groups, g) <= i < Offset(groups, g) + |groups[g].steps|
       <==> Locate(groups, i).Some? && Locate(groups, i).value.0 == g
  {
    if i >= Offset(groups, g) {
      LocateSkips(groups, g, i);
      LocateFindsAll(groups[g..], i - Offset(groups, g));
    } else if i >= 0 {
      EarlierGroup(groups, g, i);
    }
  }

  lemma {:induction false} EarlierGroup(groups: seq<Group>, g: nat, i: int)
    requires g <= |groups| && 0 <= i < Offset(groups, g)
    ensures Locate(groups, i).Some? && Locate(groups, i).value.0 < g
  {
    assert groups[..g][0] == groups[0] && groups[..g][1..] == groups[1..][..g - 1];
    if i >= |groups[0].steps| {
      EarlierGroup(groups[1..], g - 1, i - |groups[0].steps|);
    }
  }

  /**
   A step appears under a stage exactly when its order is a flat position owned by the
   group of that id - the last one, should ids repeat.  So with distinct ids every step
   whose order lies in [0, total) is in exactly one stage, and the others are in none.
   */
  lemma StageOwnsStep(groups: seq<Group>, steps: seq<RunStep>, g: nat, s: RunStep)
    requires g < |groups| && s in steps
    ensures s in StageAt(groups, steps, g)
       <==> Locate(groups, s.stepOrder).Some? && Locate(groups, s.stepOrder).value.0 == g
    ensures Locate(groups, s.stepOrder).Some? <==> 0 <= s.stepOrder < |Flatten(groups)|
  {
    GroupSpan(groups, g, s.stepOrder);
    LocateFindsAll(groups, s.stepOrder);
  }

  /** With distinct group ids, a step whose order lies in range is in exactly one stage. */
  lemma ExactlyOneStage(groups: seq<Group>, steps: seq<RunStep>, stages: map<string, seq<RunStep>>, s: RunStep)
    requires forall i, j :: 0 <= i < j < |groups| ==> groups[i].id != groups[j].id
    requires forall id :: id in stages <==> LastWithId(groups, |groups|, id).Some?
    requires forall id :: id in stages ==> stages[id] == StageAt(groups, steps, LastWithId(groups, |groups|, id).value)
    requires s in steps
    ensures (exists id :: id in stages && s in stages[id]) <==> 0 <= s.stepOrder < |Flatten(groups)|
    ensures forall a, b :: a in stages && b in stages && s in stages[a] && s in stages[b] ==> a == b
  {
    hide Flatten, Locate, StageAt;
    forall id | id in stages
      ensures s in stages[id] <==>
        Locate(groups, s.stepOrder).Some? && Locate(groups, s.stepOrder).value.0
          == LastWithId(groups, |groups|, id).value
    {
      StageOwnsStep(groups, steps, LastWithId(groups, |groups|, id).value, s);
    }
    LocateFindsAll(groups, s.stepOrder);
    if 0 <= s.stepOrder < |Flatten(groups)| {
      var g := Locate(groups, s.stepOrder).value.0;
      assert LastWithId(groups, |groups|, groups[g].id) == Some(g);
      assert groups[g].id in stages && s in stages[groups[g].id];
    }
  }
}
