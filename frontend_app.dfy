/** The frontend dashboard (frontend/src/App.tsx): every poll folds the feed
    snapshot into the ordered machine list, keeping user fields and a history
    capped at 50 samples; machines are added through a registration call and
    removed locally; the selected machine is re-synchronised after a merge. */
module FrontendApp {
  import opened Wrappers
  import opened Seqs
  import opened Telemetry

  /** One history entry: the poll time and the three axes' features. */
  datatype Sample = Sample(timestamp: int, axes: AxisFeatures)

  type FrontendMachine = Machine<Sample>

  /** Number of samples a machine's history keeps (`slice(-50)`). */
  const HistoryCap := 50

  /** `value ?? 0` */
  function OrZero(v: Option<real>): real {
    if v.Some? then v.value else 0.0
  }

  /** Field `k` of a partial feature group, in series order. */
  function PartialComponent(p: PartialFeatures, k: nat): Option<real>
    requires k < FeatureCount
  {
    match k
    case 0 => p.rms
    case 1 => p.kurtosis
    case 2 => p.pp
    case _ => p.crestf
  }

  /** `graph_value?.<axis>?.<field>` */
  function GraphField(g: Option<GraphValue>, a: Axis, k: nat): Option<real>
    requires k < FeatureCount
  {
    if g.None? then None
    else
      var part := match a case X => g.value.x case Y => g.value.y case Z => g.value.z;
      if part.None? then None else PartialComponent(part.value, k)
  }

  function Defaulted(p: Option<PartialFeatures>): Features {
    if p.None? then ZeroFeatures
    else Features(OrZero(p.value.rms), OrZero(p.value.kurtosis), OrZero(p.value.pp), OrZero(p.value.crestf))
  }

  /** The sample a poll appends: stamped `now`, each feature read from
      `graph_value` and 0 wherever the axis or the field is missing. */
  function SampleOf(g: Option<GraphValue>, now: int): (r: Sample)
    ensures r.timestamp == now
    ensures forall a: Axis, k: nat | k < FeatureCount :: Component(r.axes.Get(a), k) == OrZero(GraphField(g, a, k))
  {
    if g.None? then Sample(now, AxisFeatures(ZeroFeatures, ZeroFeatures, ZeroFeatures))
    else Sample(now, AxisFeatures(Defaulted(g.value.x), Defaulted(g.value.y), Defaulted(g.value.z)))
  }

  /** `predicted_fault || 'normal'` */
  function FaultOrNormal(p: Option<string>): string {
    if p.Some? && p.value != "" then p.value else "normal"
  }

  /** History of the first previous machine with this id, or none. */
  function PreviousHistory(prev: seq<FrontendMachine>, id: string): seq<Sample> {
    match Find(prev, id)
    case None => []
    case Some(m) => m.history
  }

  /** The merged record for one snapshot entry. */
  function UpdateMachine(prev: seq<FrontendMachine>, id: string, entry: MachineData, now: int, today: string)
    : (r: FrontendMachine)
    ensures r.id == id && 0 < |r.history| <= HistoryCap
    ensures r.data.confidence == entry.confidence && r.data.models == entry.models
      && r.data.graphValue == entry.graphValue
    ensures r.data.predictedFault.Some? && r.data.predictedFault.value != ""
    ensures entry.predictedFault.Some? && entry.predictedFault.value != "" ==> r.data.predictedFault == entry.predictedFault
    ensures id !in Ids(prev) ==>
      r.info == Info("Machine " + id, DefaultType, DefaultLocation, today)
      && r.history == [SampleOf(entry.graphValue, now)]
  {
    var existing := Find(prev, id);
    Machine(id,
            CarriedInfo(if existing.Some? then Some(existing.value.info) else None, id, today),
            entry.(predictedFault := Some(FaultOrNormal(entry.predictedFault))),
            TakeLast(PreviousHistory(prev, id) + [SampleOf(entry.graphValue, now)], HistoryCap))
  }

  /** `m.id && !data[m.id]`: a previous machine kept after the fed ones. */
  function RetainedBy(snap: Snapshot): FrontendMachine -> bool {
    (m: FrontendMachine) => m.id != "" && m.id !in FeedIds(snap)
  }

  /** `Object.entries(data).map(...)`: one merged machine per entry. */
  function Fed(prev: seq<FrontendMachine>, snap: Snapshot, now: int, today: string)
    : (r: seq<FrontendMachine>)
    ensures |r| == |snap|
    ensures forall i :: 0 <= i < |snap| ==> r[i].id == snap[i].0
  {
    seq(|snap|, i requires 0 <= i < |snap| => UpdateMachine(prev, snap[i].0, snap[i].1, now, today))
  }

  /** The `setMachines` updater of a poll: the fed machines in snapshot
      order, then the previous machines the snapshot does not mention. */
  function Merge(prev: seq<FrontendMachine>, snap: Snapshot, now: int, today: string)
    : (r: seq<FrontendMachine>)
    ensures |r| == |snap| + |Filter(prev, RetainedBy(snap))|
    ensures forall i :: 0 <= i < |snap| ==> r[i].id == snap[i].0
  {
    Fed(prev, snap, now, today) + Filter(prev, RetainedBy(snap))
  }

  /** A fed machine's history is its previous history plus the new sample,
      cut to the last 50: never longer than 50, ending with the new sample
      stamped `now`, and losing exactly its oldest sample when it was full. */
  lemma MergedHistory(prev: seq<FrontendMachine>, snap: Snapshot, now: int, today: string, i: int)
    requires 0 <= i < |snap|
    ensures var h := Merge(prev, snap, now, today)[i].history;
      var before := PreviousHistory(prev, snap[i].0);
      var s := SampleOf(snap[i].1.graphValue, now);
      && |h| <= HistoryCap && |h| > 0
      && h[|h| - 1] == s && h[|h| - 1].timestamp == now
      && (|before| < HistoryCap ==> h == before + [s])
      && (|before| >= HistoryCap ==> h == before[|before| - HistoryCap + 1..] + [s])
      && (|before| == HistoryCap ==> h == before[1..] + [s] && h[0] == before[1])
  {
    var before := PreviousHistory(prev, snap[i].0);
    AppendTakeLast(before, SampleOf(snap[i].1.graphValue, now), HistoryCap);
  }

  /** Every feature of the appended sample is the snapshot's `graph_value`
      field for that axis, or 0 when the axis or the field is missing. */
  lemma MergedSampleDefaults(prev: seq<FrontendMachine>, snap: Snapshot, now: int, today: string,
                             i: int, a: Axis, k: nat)
    requires 0 <= i < |snap| && k < FeatureCount
    ensures var h := Merge(prev, snap, now, today)[i].history;
      |h| > 0 &&
      Component(h[|h| - 1].axes.Get(a), k)
        == (match GraphField(snap[i].1.graphValue, a, k) case Some(v) => v case None => 0.0)
  {
    MergedHistory(prev, snap, now, today, i);
  }

  /** A fed machine's status is the snapshot entry with a missing or empty
      `predicted_fault` replaced by 'normal' (so its card is emerald) and
      every other field copied unchanged. */
  lemma MergedStatus(prev: seq<FrontendMachine>, snap: Snapshot, now: int, today: string, i: int)
    requires 0 <= i < |snap|
    ensures var d := Merge(prev, snap, now, today)[i].data;
      var e := snap[i].1;
      && d.confidence == e.confidence && d.models == e.models
      && d.features == e.features && d.graphValue == e.graphValue
      && (e.predictedFault.None? || e.predictedFault == Some("") ==> d.predictedFault == Some("normal"))
      && (e.predictedFault.None? || e.predictedFault == Some("") ==> StatusColor(d) == Emerald)
      && (e.predictedFault.Some? && e.predictedFault.value != "" ==> d.predictedFault == e.predictedFault)
  {
  }

  /** A fed machine that matches a previous machine (the first with its id)
      keeps that machine's non-empty user fields and extends its history;
      an unknown id gets `Machine <id>`, `Conveyor`, `Floor 1`, today's date
      and a one-sample history. */
  lemma MergedUserFields(prev: seq<FrontendMachine>, snap: Snapshot, now: int, today: string, i: int)
    requires 0 <= i < |snap|
    ensures var m := Merge(prev, snap, now, today)[i];
      var s := SampleOf(snap[i].1.graphValue, now);
      match FindIndex(prev, snap[i].0)
      case Some(j) =>
        && m.info == CarriedInfo(Some(prev[j].info), snap[i].0, today)
        && (prev[j].info.name != "" ==> m.info.name == prev[j].info.name)
        && (prev[j].info.location != "" ==> m.info.location == prev[j].info.location)
        && m.history == TakeLast(prev[j].history + [s], HistoryCap)
      case None =>
        && m.info == Info("Machine " + snap[i].0, "Conveyor", "Floor 1", today)
        && m.history == [s]
  {
  }

  /** After the fed machines come exactly the previous machines with a
      non-empty id that the snapshot does not mention, unchanged and in
      their previous order; a previous machine's id is still listed exactly
      when the snapshot mentions it or it is non-empty. */
  lemma MergeRetainsAbsent(prev: seq<FrontendMachine>, snap: Snapshot, now: int, today: string)
    ensures var r := Merge(prev, snap, now, today);
      EmbeddedAt(r[|snap|..], prev, FilterIndices(prev, RetainedBy(snap)))
    ensures forall j :: 0 <= j < |prev| ==>
      (j in FilterIndices(prev, RetainedBy(snap)) <==> prev[j].id != "" && prev[j].id !in FeedIds(snap))
    ensures forall j :: 0 <= j < |prev| ==>
      (prev[j].id in Ids(Merge(prev, snap, now, today)) <==> prev[j].id in FeedIds(snap) || prev[j].id != "")
  {
    var keep := RetainedBy(snap);
    var r := Merge(prev, snap, now, today);
    assert r[|snap|..] == Filter(prev, keep);
    FilterIsSubsequence(prev, keep);
    MergeIds(prev, snap, now, today);
    forall j | 0 <= j < |prev|
      ensures prev[j].id in Ids(r) <==> prev[j].id in FeedIds(snap) || prev[j].id != ""
    {
      RetainedIdListed(prev, snap, j);
    }
  }

  /** A previous machine's id is among the retained ids exactly when the
      machine itself is retained. */
  lemma RetainedIdListed(prev: seq<FrontendMachine>, snap: Snapshot, j: int)
    requires 0 <= j < |prev|
    ensures prev[j].id in Ids(Filter(prev, RetainedBy(snap))) <==> RetainedBy(snap)(prev[j])
  {
    var keep := RetainedBy(snap);
    var kept := Filter(prev, keep);
    if keep(prev[j]) {
      FilterKeepsSatisfying(prev, keep, j);
      var k :| 0 <= k < |kept| && kept[k] == prev[j];
      assert Ids(kept)[k] == prev[j].id;
    }
  }

  /** The merged list's ids are the snapshot's ids followed by those of the
      retained machines. */
  lemma MergeIds(prev: seq<FrontendMachine>, snap: Snapshot, now: int, today: string)
    ensures Ids(Merge(prev, snap, now, today)) == FeedIds(snap) + Ids(Filter(prev, RetainedBy(snap)))
  {
    var fed := Fed(prev, snap, now, today);
    var kept := Filter(prev, RetainedBy(snap));
    assert Ids(fed) == FeedIds(snap);
    assert Ids(fed + kept) == Ids(fed) + Ids(kept);
  }

  /** A merge keeps machine ids unique: distinct previous ids and a
      snapshot (whose keys are distinct) give distinct merged ids. */
  lemma MergeKeepsIdsDistinct(prev: seq<FrontendMachine>, snap: Snapshot, now: int, today: string)
    requires Distinct(Ids(prev)) && Distinct(FeedIds(snap))
    ensures Distinct(Ids(Merge(prev, snap, now, today)))
  {
    var r := Merge(prev, snap, now, today);
    var keep := RetainedBy(snap);
    FilterIsSubsequence(prev, keep);
    var idx := FilterIndices(prev, keep);
    assert r[|snap|..] == Filter(prev, keep);
    forall a, b | 0 <= a < b < |r|
      ensures Ids(r)[a] != Ids(r)[b]
    {
      if b < |snap| {
        assert FeedIds(snap)[a] != FeedIds(snap)[b];
      } else if a < |snap| {
        assert keep(r[b]);
        assert FeedIds(snap)[a] == r[a].id;
      } else {
        assert r[a] == prev[idx[a - |snap|]] && r[b] == prev[idx[b - |snap|]];
        assert Ids(prev)[idx[a - |snap|]] != Ids(prev)[idx[b - |snap|]];
      }
    }
  }

  /** The first half of the selection sync of a poll: a selected machine the
      snapshot mentions takes the raw snapshot entry as its status. */
  function SyncSelectedFromFeed(sel: Option<FrontendMachine>, snap: Snapshot): (r: Option<FrontendMachine>)
    ensures sel.None? || sel.value.id !in FeedIds(snap) ==> r == sel
    ensures sel.Some? && sel.value.id in FeedIds(snap) ==>
      r == Some(sel.value.(data := Lookup(snap, sel.value.id).value))
  {
    if sel.None? then sel
    else match Lookup(snap, sel.value.id)
      case None => sel
      case Some(e) => Some(sel.value.(data := e))
  }

  /** The effect that runs after the list changes: a selected machine whose
      id is listed is replaced by the listed machine. */
  function ResyncSelected(sel: Option<FrontendMachine>, machines: seq<FrontendMachine>)
    : (r: Option<FrontendMachine>)
    ensures sel.None? || sel.value.id !in Ids(machines) ==> r == sel
    ensures sel.Some? && sel.value.id in Ids(machines) ==>
      r.Some? && r.value.id == sel.value.id && r.value == machines[FindIndex(machines, sel.value.id).value]
  {
    if sel.None? then sel
    else match Find(machines, sel.value.id)
      case None => sel
      case Some(m) => Some(m)
  }

  /** After a poll, a selected machine that the snapshot mentions is the
      merged machine itself: new status, new sample, capped history. */
  lemma SelectionRefresh(prev: seq<FrontendMachine>, sel: Option<FrontendMachine>, snap: Snapshot,
                         now: int, today: string, i: int)
    requires Distinct(FeedIds(snap)) && 0 <= i < |snap|
    requires sel.Some? && sel.value.id == snap[i].0
    ensures var r := Merge(prev, snap, now, today);
      ResyncSelected(SyncSelectedFromFeed(sel, snap), r) == Some(r[i])
  {
    var r := Merge(prev, snap, now, today);
    var id := snap[i].0;
    LookupDistinct(snap, i);
    assert Ids(r)[i] == id && r[i].id == id;
    forall j | 0 <= j < i ensures r[j].id != id {
      assert r[j].id == FeedIds(snap)[j];
      assert FeedIds(snap)[j] != FeedIds(snap)[i];
    }
    FindIndexAt(r, id, i);
  }

  /** The local machine a registration creates: the assigned id, the form's
      fields, a normal/high status with all-zero features and an empty
      history. */
  function NewMachine(id: string, draft: Draft, today: string): (m: FrontendMachine)
    ensures m.id == id && m.info == Info(draft.name, draft.machineType, draft.location, today)
    ensures m.data.confidence == "high" && m.data.models == Models("normal", "normal", "normal")
    ensures StatusColor(m.data) == Emerald && m.history == []
    ensures m.data.graphValue.Some? &&
      forall a: Axis, k: nat | k < FeatureCount :: OrZero(GraphField(m.data.graphValue, a, k)) == 0.0
  {
    var zero := PartialFeatures(Some(0.0), Some(0.0), Some(0.0), Some(0.0));
    Machine(id, Info(draft.name, draft.machineType, draft.location, today),
            MachineData("high", Models("normal", "normal", "normal"), Some("normal"), None,
                        Some(GraphValue(Some(zero), Some(zero), Some(zero)))),
            [])
  }

  /** What the registration POST came back with. */
  datatype PostOutcome = PostFailed | PostAnswered(machineId: Option<string>)

  /** The response carries a truthy `machine_id`. */
  predicate Registered(outcome: PostOutcome) {
    outcome.PostAnswered? && outcome.machineId.Some? && outcome.machineId.value != ""
  }

  /** `machine => machine.id !== machineId` */
  function OtherThan(id: string): FrontendMachine -> bool {
    (m: FrontendMachine) => m.id != id
  }

  /** `prev.filter(machine => machine.id !== machineId)` */
  function RemoveById(ms: seq<FrontendMachine>, id: string): (r: seq<FrontendMachine>)
    ensures id !in Ids(r)
    ensures |r| <= |ms|
  {
    var r := Filter(ms, OtherThan(id));
    assert forall k :: 0 <= k < |r| ==> Ids(r)[k] != id;
    r
  }

  /** Removing deletes exactly the machines with that id and keeps every
      other machine, unchanged and in order. */
  lemma RemoveKeepsOthers(ms: seq<FrontendMachine>, id: string)
    ensures EmbeddedAt(RemoveById(ms, id), ms, FilterIndices(ms, OtherThan(id)))
    ensures forall j :: 0 <= j < |ms| ==> (j in FilterIndices(ms, OtherThan(id)) <==> ms[j].id != id)
  {
    FilterIsSubsequence(ms, OtherThan(id));
  }

  /** Adding a machine under a fresh id and then removing that id gives back
      the list as it was. */
  lemma AddThenRemove(ms: seq<FrontendMachine>, id: string, draft: Draft, today: string)
    requires id !in Ids(ms)
    ensures RemoveById(ms + [NewMachine(id, draft, today)], id) == ms
  {
    var keep := OtherThan(id);
    FilterAppend(ms, [NewMachine(id, draft, today)], keep);
    assert Filter([NewMachine(id, draft, today)], keep) == [];
    forall k | 0 <= k < |ms| ensures keep(ms[k]) {
      assert Ids(ms)[k] == ms[k].id;
    }
    FilterAllKept(ms, keep);
  }

  /** Removing machines never creates a repeated id. */
  lemma RemoveKeepsIdsDistinct(ms: seq<FrontendMachine>, id: string)
    requires Distinct(Ids(ms))
    ensures Distinct(Ids(RemoveById(ms, id)))
  {
    FilterKeepsIdsDistinct(ms, OtherThan(id));
  }

  /** Registering a machine keeps the ids distinct exactly when the id the
      backend answered with is not listed yet; the dashboard does not check
      this itself. */
  lemma AddKeepsIdsDistinct(ms: seq<FrontendMachine>, id: string, draft: Draft, today: string)
    requires Distinct(Ids(ms))
    ensures Distinct(Ids(ms + [NewMachine(id, draft, today)])) <==> id !in Ids(ms)
  {
    AppendKeepsIdsDistinct(ms, NewMachine(id, draft, today));
  }

  /** With distinct ids, the `[machines]` effect leaves a selected machine
      that is listed as it is. */
  lemma ResyncKeepsListedSelection(sel: FrontendMachine, machines: seq<FrontendMachine>)
    requires Distinct(Ids(machines)) && sel in machines
    ensures ResyncSelected(Some(sel), machines) == Some(sel)
  {
    var i :| 0 <= i < |machines| && machines[i] == sel;
    assert Ids(machines)[i] == sel.id;
    var j := FindIndex(machines, sel.id).value;
    assert Ids(machines)[j] == sel.id;
  }

  /** A registered machine that the feed does not know yet survives the
      next poll unchanged, as the last machine of the list. */
  lemma AddedMachineSurvivesMerge(ms: seq<FrontendMachine>, id: string, draft: Draft, today: string,
                                  snap: Snapshot, now: int)
    requires id != "" && id !in FeedIds(snap)
    ensures var r := Merge(ms + [NewMachine(id, draft, today)], snap, now, today);
      |r| > 0 && r[|r| - 1] == NewMachine(id, draft, today)
  {
    var nm := NewMachine(id, draft, today);
    FilterAppend(ms, [nm], RetainedBy(snap));
    assert Filter([nm], RetainedBy(snap)) == Filter([], RetainedBy(snap)) + [nm];
  }

  /** The dashboard's state as the component holds it: the machine list, the
      selected machine, the add-machine form and whether it is open. */
  class Dashboard {
    var machines: seq<FrontendMachine>
    var selected: Option<FrontendMachine>
    var draft: Draft
    var adding: bool

    constructor ()
      ensures machines == [] && selected == None && draft == DefaultDraft && !adding
    {
      machines := [];
      selected := None;
      draft := DefaultDraft;
      adding := false;
    }

    /** One poll: `response` is the fetched snapshot, or None when the fetch
        failed (the error is logged and nothing changes). On success the list
        is merged, then the selection is synchronised twice, first from the
        raw snapshot, then from the merged list. */
    method Poll(response: Option<Snapshot>, now: int, today: string)
      modifies this
      ensures response.None? ==> machines == old(machines) && selected == old(selected)
      ensures response.Some? ==> machines == Merge(old(machines), response.value, now, today)
      ensures response.Some? ==>
        selected == ResyncSelected(SyncSelectedFromFeed(old(selected), response.value), machines)
      ensures draft == old(draft) && adding == old(adding)
    {
      if response.Some? {
        var snap := response.value;
        machines := Merge(machines, snap, now, today);
        selected := SyncSelectedFromFeed(selected, snap);
        selected := ResyncSelected(selected, machines);
      }
    }

    /** A click on the card of the `i`-th listed machine selects it. */
    method Select(i: nat)
      requires i < |machines|
      modifies this
      ensures machines == old(machines) && draft == old(draft) && adding == old(adding)
      ensures selected == Some(machines[i])
    {
      selected := Some(machines[i]);
    }

    /** "Back to Dashboard": the selection is cleared. */
    method Deselect()
      modifies this
      ensures selected == None
      ensures machines == old(machines) && draft == old(draft) && adding == old(adding)
    {
      selected := None;
    }

    /** `handleAddMachine`: nothing happens without a name; otherwise the new
        count is posted, and only a response with a `machine_id` appends the
        machine and resets the form, after which the `[machines]` effect
        resynchronises the selection with the new list. A failed POST only
        closes the form. Returns the count posted, if any. */
    method AddMachine(outcome: PostOutcome, today: string) returns (posted: Option<nat>)
      modifies this
      ensures old(draft.name) == "" ==> posted == None
      ensures old(draft.name) != "" ==> posted == Some(|old(machines)| + 1)
      ensures machines == if old(draft.name) != "" && Registered(outcome)
        then old(machines) + [NewMachine(outcome.machineId.value, old(draft), today)]
        else old(machines)
      ensures draft == if old(draft.name) != "" && Registered(outcome) then DefaultDraft else old(draft)
      ensures adding == if old(draft.name) != "" && (Registered(outcome) || outcome.PostFailed?)
        then false else old(adding)
      ensures selected == if old(draft.name) != "" && Registered(outcome)
        then ResyncSelected(old(selected), machines) else old(selected)
    {
      if draft.name == "" {
        return None;
      }
      posted := Some(|machines| + 1);
      if outcome.PostFailed? {
        adding := false;
      } else if Registered(outcome) {
        machines := machines + [NewMachine(outcome.machineId.value, draft, today)];
        selected := ResyncSelected(selected, machines);
        draft := DefaultDraft;
        adding := false;
      }
    }

    /** `handleRemoveMachine`: filters the id out, posts the new count and
        clears the selection if the removed machine was selected; any other
        selection is resynchronised with the new list by the `[machines]`
        effect. */
    method RemoveMachine(id: string) returns (posted: nat)
      modifies this
      ensures machines == RemoveById(old(machines), id) && posted == |machines|
      ensures id !in Ids(machines)
      ensures selected == if old(selected).Some? && old(selected).value.id == id then None
        else ResyncSelected(old(selected), machines)
      ensures draft == old(draft) && adding == old(adding)
    {
      machines := RemoveById(machines, id);
      posted := |machines|;
      if selected.Some? && selected.value.id == id {
        selected := None;
      } else {
        selected := ResyncSelected(selected, machines);
      }
    }
  }
}
