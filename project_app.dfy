/** The second dashboard (project/src/App.tsx), written as pure state
    transitions: a poll merges the snapshot, copying each entry verbatim and
    keeping only the manually added machines the feed does not list; add
    creates a `manual-<time>` machine locally; remove filters it out. */
module ProjectApp {
  import opened Wrappers
  import opened Seqs
  import opened Telemetry

  /** One history entry: `{ timestamp, ...features }`, where a missing
      `features` leaves only the timestamp. */
  datatype Sample = Sample(timestamp: int, features: Option<AxisFeatures>)

  type ProjectMachine = Machine<Sample>

  /** Number of samples a machine's history keeps (`slice(-50)`). */
  const HistoryCap := 50

  /** Prefix of the ids of machines added on this dashboard. */
  const ManualPrefix := "manual-"

  /** `machine.id.startsWith('manual-')` */
  predicate IsManual(id: string) {
    ManualPrefix <= id
  }

  function PreviousHistory(prev: seq<ProjectMachine>, id: string): seq<Sample> {
    match Find(prev, id)
    case None => []
    case Some(m) => m.history
  }

  /** The merged record for one snapshot entry: the entry itself is the new
      status and its features the new sample. */
  function UpdateMachine(prev: seq<ProjectMachine>, id: string, entry: MachineData, now: int, today: string)
    : (r: ProjectMachine)
    ensures r.id == id && r.data == entry && 0 < |r.history| <= HistoryCap
    ensures id !in Ids(prev) ==>
      r.info == Info("Machine " + id, DefaultType, DefaultLocation, today)
      && r.history == [Sample(now, entry.features)]
  {
    var existing := Find(prev, id);
    Machine(id,
            CarriedInfo(if existing.Some? then Some(existing.value.info) else None, id, today),
            entry,
            TakeLast(PreviousHistory(prev, id) + [Sample(now, entry.features)], HistoryCap))
  }

  /** A previous machine kept after the fed ones: not listed by the feed and
      added on this dashboard. */
  function RetainedBy(snap: Snapshot): ProjectMachine -> bool {
    (m: ProjectMachine) => m.id !in FeedIds(snap) && IsManual(m.id)
  }

  function Fed(prev: seq<ProjectMachine>, snap: Snapshot, now: int, today: string)
    : (r: seq<ProjectMachine>)
    ensures |r| == |snap|
    ensures forall i :: 0 <= i < |snap| ==> r[i].id == snap[i].0
  {
    seq(|snap|, i requires 0 <= i < |snap| => UpdateMachine(prev, snap[i].0, snap[i].1, now, today))
  }

  /** The `setMachines` updater of a poll. */
  function Merge(prev: seq<ProjectMachine>, snap: Snapshot, now: int, today: string)
    : (r: seq<ProjectMachine>)
    ensures |r| == |snap| + |Filter(prev, RetainedBy(snap))|
    ensures forall i :: 0 <= i < |snap| ==> r[i].id == snap[i].0
  {
    Fed(prev, snap, now, today) + Filter(prev, RetainedBy(snap))
  }

  /** A fed machine's history is the last 50 of its previous history plus
      the new sample, which is stamped `now` and carries the entry's
      `features` as they are, with no zero-defaulting. */
  lemma MergedHistory(prev: seq<ProjectMachine>, snap: Snapshot, now: int, today: string, i: int)
    requires 0 <= i < |snap|
    ensures var h := Merge(prev, snap, now, today)[i].history;
      var before := PreviousHistory(prev, snap[i].0);
      var s := Sample(now, snap[i].1.features);
      && |h| <= HistoryCap && |h| > 0
      && h[|h| - 1] == s && h[|h| - 1].features == snap[i].1.features
      && (|before| < HistoryCap ==> h == before + [s])
      && (|before| >= HistoryCap ==> h == before[|before| - HistoryCap + 1..] + [s])
      && (|before| == HistoryCap ==> h == before[1..] + [s])
  {
    var before := PreviousHistory(prev, snap[i].0);
    AppendTakeLast(before, Sample(now, snap[i].1.features), HistoryCap);
  }

  /** A fed machine's status is the snapshot entry unchanged; in particular
      an entry without `predicted_fault` is not treated as normal, so its
      card is red or amber, never emerald. */
  lemma MergedStatus(prev: seq<ProjectMachine>, snap: Snapshot, now: int, today: string, i: int)
    requires 0 <= i < |snap|
    ensures Merge(prev, snap, now, today)[i].data == snap[i].1
    ensures snap[i].1.predictedFault.None? ==> StatusColor(Merge(prev, snap, now, today)[i].data) != Emerald
  {
  }

  /** A fed machine matching a previous one keeps that machine's non-empty
      user fields; an unknown id gets the defaults. */
  lemma MergedUserFields(prev: seq<ProjectMachine>, snap: Snapshot, now: int, today: string, i: int)
    requires 0 <= i < |snap|
    ensures var m := Merge(prev, snap, now, today)[i];
      match FindIndex(prev, snap[i].0)
      case Some(j) =>
        && m.info == CarriedInfo(Some(prev[j].info), snap[i].0, today)
        && (prev[j].info.name != "" ==> m.info.name == prev[j].info.name)
        && (prev[j].info.machineType != "" ==> m.info.machineType == prev[j].info.machineType)
      case None =>
        m.info == Info("Machine " + snap[i].0, "Conveyor", "Floor 1", today)
  {
  }

  /** The merged list's ids are the snapshot's ids followed by those of the
      retained machines. */
  lemma MergeIds(prev: seq<ProjectMachine>, snap: Snapshot, now: int, today: string)
    ensures Ids(Merge(prev, snap, now, today)) == FeedIds(snap) + Ids(Filter(prev, RetainedBy(snap)))
  {
    var fed := Fed(prev, snap, now, today);
    var kept := Filter(prev, RetainedBy(snap));
    assert Ids(fed) == FeedIds(snap);
    assert Ids(fed + kept) == Ids(fed) + Ids(kept);
  }

  /** After the fed machines come exactly the previous `manual-` machines the
      snapshot does not list, unchanged and in their previous order. */
  lemma MergeRetainsManual(prev: seq<ProjectMachine>, snap: Snapshot, now: int, today: string)
    ensures var r := Merge(prev, snap, now, today);
      EmbeddedAt(r[|snap|..], prev, FilterIndices(prev, RetainedBy(snap)))
    ensures forall j :: 0 <= j < |prev| ==>
      (j in FilterIndices(prev, RetainedBy(snap)) <==> prev[j].id !in FeedIds(snap) && IsManual(prev[j].id))
  {
    var r := Merge(prev, snap, now, today);
    assert r[|snap|..] == Filter(prev, RetainedBy(snap));
    FilterIsSubsequence(prev, RetainedBy(snap));
  }

  /** A previous machine's id is still listed after a merge exactly when the
      snapshot lists it or it was added on this dashboard; any other machine
      the snapshot omits is dropped. */
  lemma MergeKeepsManualIds(prev: seq<ProjectMachine>, snap: Snapshot, now: int, today: string, j: int)
    requires 0 <= j < |prev|
    ensures prev[j].id in Ids(Merge(prev, snap, now, today)) <==> prev[j].id in FeedIds(snap) || IsManual(prev[j].id)
  {
    var keep := RetainedBy(snap);
    var kept := Filter(prev, keep);
    MergeIds(prev, snap, now, today);
    if keep(prev[j]) {
      FilterKeepsSatisfying(prev, keep, j);
      var k :| 0 <= k < |kept| && kept[k] == prev[j];
      assert Ids(kept)[k] == prev[j].id;
    }
  }

  /** A merge keeps machine ids unique. */
  lemma MergeKeepsIdsDistinct(prev: seq<ProjectMachine>, snap: Snapshot, now: int, today: string)
    requires Distinct(Ids(prev)) && Distinct(FeedIds(snap))
    ensures Distinct(Ids(Merge(prev, snap, now, today)))
  {
    var r := Merge(prev, snap, now, today);
    var keep := RetainedBy(snap);
    FilterIsSubsequence(prev, keep);
    var idx := FilterIndices(prev, keep);
    assert r[|snap|..] == Filter(prev, keep);
    forall a, b | 0 <= a < b < |r|
      ensures Ids(r)[a] != Ids(r)[b]
    {
      if b < |snap| {
        assert FeedIds(snap)[a] != FeedIds(snap)[b];
      } else if a < |snap| {
        assert keep(r[b]);
        assert FeedIds(snap)[a] == r[a].id;
      } else {
        assert r[a] == prev[idx[a - |snap|]] && r[b] == prev[idx[b - |snap|]];
        assert Ids(prev)[idx[a - |snap|]] != Ids(prev)[idx[b - |snap|]];
      }
    }
  }

  /** The decimal digits of `n` (`${n}` for a non-negative integer). */
  function DecimalString(n: nat): (r: string)
    ensures |r| > 0
    ensures n < 10 <==> |r| == 1
    decreases n
  {
    if n < 10 then [(48 + n) as char] else DecimalString(n / 10) + [(48 + n % 10) as char]
  }

  /** Different numbers have different decimal strings. */
  lemma {:induction false} DecimalStringInjective(a: nat, b: nat)
    requires DecimalString(a) == DecimalString(b)
    ensures a == b
    decreases a
  {
    var s := DecimalString(a);
    if a >= 10 {
      assert b >= 10;
      assert s[..|s| - 1] == DecimalString(a / 10) && s[..|s| - 1] == DecimalString(b / 10);
      DecimalStringInjective(a / 10, b / 10);
      assert a % 10 == b % 10 by {
        assert s[|s| - 1] == (48 + a % 10) as char == (48 + b % 10) as char;
      }
    }
  }

  /** `manual-${Date.now()}` */
  function ManualId(now: nat): (id: string)
    ensures IsManual(id)
  {
    ManualPrefix + DecimalString(now)
  }

  /** Two additions at different times never share an id. */
  lemma ManualIdsDiffer(t1: nat, t2: nat)
    requires t1 != t2
    ensures ManualId(t1) != ManualId(t2)
  {
    if ManualId(t1) == ManualId(t2) {
      assert DecimalString(t1) == ManualId(t1)[|ManualPrefix|..];
      assert DecimalString(t2) == ManualId(t2)[|ManualPrefix|..];
      DecimalStringInjective(t1, t2);
    }
  }

  /** The machine `handleAddMachine` creates: the form's fields, a
      normal/high status with zeroed features on all three axes and an empty
      history. */
  function NewMachine(id: string, draft: Draft, today: string): (m: ProjectMachine)
    ensures m.id == id && m.info == Info(draft.name, draft.machineType, draft.location, today)
    ensures m.data.confidence == "high" && m.data.models == Models("normal", "normal", "normal")
    ensures StatusColor(m.data) == Emerald && m.history == []
    ensures m.data.features.Some? && forall a: Axis, k: nat | k < FeatureCount ::
      Component(m.data.features.value.Get(a), k) == 0.0
  {
    Machine(id, Info(draft.name, draft.machineType, draft.location, today),
            MachineData("high", Models("normal", "normal", "normal"), Some("normal"),
                        Some(AxisFeatures(ZeroFeatures, ZeroFeatures, ZeroFeatures)), None),
            [])
  }

  /** The component's state. */
  datatype ViewState = ViewState(machines: seq<ProjectMachine>, selected: Option<ProjectMachine>,
                                 draft: Draft, adding: bool)

  const InitialState := ViewState([], None, DefaultDraft, false)

  /** One poll: `response` is the fetched snapshot, or None when the fetch
      failed. Only the list changes; the selected machine is not refreshed. */
  function Poll(s: ViewState, response: Option<Snapshot>, now: int, today: string): (r: ViewState)
    ensures r.selected == s.selected && r.draft == s.draft && r.adding == s.adding
    ensures response.None? ==> r == s
    ensures response.Some? ==> r.machines == Merge(s.machines, response.value, now, today)
  {
    if response.None? then s else s.(machines := Merge(s.machines, response.value, now, today))
  }

  /** A state transition with the machine count it posts, if any. */
  datatype Step = Step(state: ViewState, posted: Option<nat>)

  /** `handleAddMachine`: nothing without a name; otherwise the machine
      `manual-<now>` is appended, the new length is posted, the form closes
      and resets. */
  function AddMachine(s: ViewState, now: nat, today: string): (r: Step)
    ensures s.draft.name == "" ==> r == Step(s, None)
    ensures s.draft.name != "" ==>
      && |r.state.machines| == |s.machines| + 1
      && r.state.machines[..|s.machines|] == s.machines
      && r.state.machines[|s.machines|] == NewMachine(ManualId(now), s.draft, today)
      && r.posted == Some(|r.state.machines|)
      && r.state.selected == s.selected && r.state.draft == DefaultDraft && !r.state.adding
  {
    if s.draft.name == "" then Step(s, None)
    else
      var ms := s.machines + [NewMachine(ManualId(now), s.draft, today)];
      Step(s.(machines := ms, draft := DefaultDraft, adding := false), Some(|ms|))
  }

  /** `machine => machine.id !== machineId` */
  function OtherThan(id: string): ProjectMachine -> bool {
    (m: ProjectMachine) => m.id != id
  }

  /** `handleRemoveMachine`: filters the id out, posts the new length and
      clears the selection if the removed machine was selected. */
  function RemoveMachine(s: ViewState, id: string): (r: Step)
    ensures id !in Ids(r.state.machines)
    ensures r.posted == Some(|r.state.machines|)
    ensures r.state.selected == if s.selected.Some? && s.selected.value.id == id then None else s.selected
    ensures r.state.machines == Filter(s.machines, OtherThan(id))
    ensures r.state.draft == s.draft && r.state.adding == s.adding
  {
    var ms := Filter(s.machines, OtherThan(id));
    assert forall k :: 0 <= k < |ms| ==> Ids(ms)[k] != id;
    var sel := if s.selected.Some? && s.selected.value.id == id then None else s.selected;
    Step(s.(machines := ms, selected := sel), Some(|ms|))
  }

  /** Removing keeps every machine with another id, unchanged and in order. */
  lemma RemoveKeepsOthers(s: ViewState, id: string)
    ensures EmbeddedAt(RemoveMachine(s, id).state.machines, s.machines, FilterIndices(s.machines, OtherThan(id)))
    ensures forall j :: 0 <= j < |s.machines| ==>
      (j in FilterIndices(s.machines, OtherThan(id)) <==> s.machines[j].id != id)
  {
    FilterIsSubsequence(s.machines, OtherThan(id));
  }

  /** Adding keeps the ids distinct when `manual-<now>` is not listed yet. */
  lemma AddMachineKeepsIdsDistinct(s: ViewState, now: nat, today: string)
    requires Distinct(Ids(s.machines)) && ManualId(now) !in Ids(s.machines)
    ensures Distinct(Ids(AddMachine(s, now, today).state.machines))
  {
    AppendKeepsIdsDistinct(s.machines, NewMachine(ManualId(now), s.draft, today));
  }

  /** Removing never creates a repeated id. */
  lemma RemoveMachineKeepsIdsDistinct(s: ViewState, id: string)
    requires Distinct(Ids(s.machines))
    ensures Distinct(Ids(RemoveMachine(s, id).state.machines))
  {
    FilterKeepsIdsDistinct(s.machines, OtherThan(id));
  }

  /** Adding at time `now` and then removing `manual-<now>` gives back the
      machine list as it was, when no machine had that id before. */
  lemma AddThenRemove(s: ViewState, now: nat, today: string)
    requires s.draft.name != "" && ManualId(now) !in Ids(s.machines)
    ensures RemoveMachine(AddMachine(s, now, today).state, ManualId(now)).state.machines == s.machines
  {
    var id := ManualId(now);
    var nm := NewMachine(id, s.draft, today);
    var keep := OtherThan(id);
    assert AddMachine(s, now, today).state.machines == s.machines + [nm];
    FilterAppend(s.machines, [nm], keep);
    assert Filter([nm], keep) == [];
    forall k | 0 <= k < |s.machines| ensures keep(s.machines[k]) {
      assert Ids(s.machines)[k] == s.machines[k].id;
    }
    FilterAllKept(s.machines, keep);
  }

  /** A machine added here survives every later poll whose snapshot does not
      list its id, unchanged and last. */
  lemma AddedMachineSurvivesMerge(s: ViewState, now: nat, today: string, snap: Snapshot, t: int)
    requires s.draft.name != "" && ManualId(now) !in FeedIds(snap)
    ensures var r := Merge(AddMachine(s, now, today).state.machines, snap, t, today);
      |r| > 0 && r[|r| - 1] == NewMachine(ManualId(now), s.draft, today)
  {
    var nm := NewMachine(ManualId(now), s.draft, today);
    assert AddMachine(s, now, today).state.machines == s.machines + [nm];
    FilterAppend(s.machines, [nm], RetainedBy(snap));
    assert Filter([nm], RetainedBy(snap)) == Filter([], RetainedBy(snap)) + [nm];
  }
}
