/** The replay simulator (simulator.py): a loaded table of readings is
    served one row per machine per call, each machine cycling through its
    own rows with a cursor that advances by one on every call. Reading the
    CSV file is not modelled: the table is the constructor's argument. */
module Simulator {
  import opened Wrappers
  import opened Seqs

  /** One row of the table. `faultType` is None when the table has no
      `fault_type` column. */
  datatype Row<Id> = Row(machineId: Id, time: real, x: real, y: real, z: real, faultType: Option<string>)

  /** What one call reports for a machine. */
  datatype Reading = Reading(time: real, x: real, y: real, z: real, faultType: string)

  /** The `machine_id` column. */
  function MachineIds<Id>(data: seq<Row<Id>>): (r: seq<Id>)
    ensures |r| == |data| && forall i :: 0 <= i < |data| ==> r[i] == data[i].machineId
  {
    seq(|data|, i requires 0 <= i < |data| => data[i].machineId)
  }

  /** `self.data['machine_id'] == machine` */
  function BelongsTo<Id(==)>(m: Id): Row<Id> -> bool {
    (r: Row<Id>) => r.machineId == m
  }

  /** The rows of machine `m`, in table order. */
  function OwnRows<Id(==)>(data: seq<Row<Id>>, m: Id): seq<Row<Id>> {
    Filter(data, BelongsTo(m))
  }

  /** A machine listed in the table has at least one row of its own. */
  lemma ListedHasRows<Id>(data: seq<Row<Id>>, m: Id)
    requires m in MachineIds(data)
    ensures |OwnRows(data, m)| > 0
  {
    var i :| 0 <= i < |data| && MachineIds(data)[i] == m;
    FilterKeepsSatisfying(data, BelongsTo(m), i);
  }

  /** The reading a row gives; `row.get('fault_type', 'normal')`. */
  function ReadingOf<Id>(row: Row<Id>): (r: Reading)
    ensures r.faultType == if row.faultType.Some? then row.faultType.value else "normal"
    ensures (r.time, r.x, r.y, r.z) == (row.time, row.x, row.y, row.z)
  {
    Reading(row.time, row.x, row.y, row.z, if row.faultType.Some? then row.faultType.value else "normal")
  }

  /** The reading served for machine `m` when its cursor is `k`: its own
      row number `k mod (number of own rows)`. */
  function ReadingAt<Id(==)>(data: seq<Row<Id>>, m: Id, k: nat): (r: Reading)
    requires |OwnRows(data, m)| > 0
    ensures exists row :: row in OwnRows(data, m) && row.machineId == m && r == ReadingOf(row)
  {
    var own := OwnRows(data, m);
    assert BelongsTo(m)(own[k % |own|]);
    ReadingOf(own[k % |own|])
  }

  /** The served reading comes from one of `m`'s own rows, the one at
      position `k mod n` among them. */
  lemma ReadingFromOwnRow<Id>(data: seq<Row<Id>>, m: Id, k: nat)
    requires m in MachineIds(data)
    ensures |OwnRows(data, m)| > 0
    ensures |FilterIndices(data, BelongsTo(m))| == |OwnRows(data, m)|
    ensures var idx := FilterIndices(data, BelongsTo(m));
      var j := idx[k % |OwnRows(data, m)|];
      && 0 <= j < |data| && data[j].machineId == m
      && ReadingAt(data, m, k) == ReadingOf(data[j])
      && forall i :: 0 <= i < |data| ==> (i in idx <==> data[i].machineId == m)
  {
    ListedHasRows(data, m);
    FilterIsSubsequence(data, BelongsTo(m));
    var own := OwnRows(data, m);
    assert BelongsTo(m)(own[k % |own|]);
  }

  /** The served readings cycle: a cursor `n` steps further, where `n` is
      the machine's number of rows, serves the same reading. */
  lemma ReadingPeriodic<Id>(data: seq<Row<Id>>, m: Id, k: nat)
    requires m in MachineIds(data)
    ensures |OwnRows(data, m)| > 0
    ensures ReadingAt(data, m, k + |OwnRows(data, m)|) == ReadingAt(data, m, k)
  {
    ListedHasRows(data, m);
    ModShift(k, |OwnRows(data, m)|);
  }

  /** A positive multiple of `n` is at least `n`. */
  lemma {:induction false} MulAtLeast(d: int, n: int)
    requires d >= 1 && n > 0
    ensures d * n >= n && (-d) * n <= -n
    decreases d
  {
    if d > 1 {
      MulAtLeast(d - 1, n);
      assert d * n == (d - 1) * n + n;
    }
  }

  /** The only multiple of `n` strictly between `-n` and `n` is 0. */
  lemma ZeroMultiple(d: int, n: int)
    requires n > 0 && -n < d * n < n
    ensures d == 0
  {
    if d > 0 {
      MulAtLeast(d, n);
    } else if d < 0 {
      MulAtLeast(-d, n);
    }
  }

  /** Shifting by the modulus leaves the remainder unchanged. */
  lemma ModShift(k: nat, n: nat)
    requires n > 0
    ensures (k + n) % n == k % n
  {
    var q, r := k / n, k % n;
    var q2, r2 := (k + n) / n, (k + n) % n;
    assert k == q * n + r && k + n == q2 * n + r2;
    assert (q2 - q - 1) * n == r - r2;
    ZeroMultiple(q2 - q - 1, n);
  }

  /** Rows of other machines never influence what a machine is served. */
  lemma OtherRowsIrrelevant<Id>(data: seq<Row<Id>>, extra: seq<Row<Id>>, m: Id, k: nat)
    requires m in MachineIds(data)
    requires forall i :: 0 <= i < |extra| ==> extra[i].machineId != m
    ensures |OwnRows(data, m)| > 0 && OwnRows(data + extra, m) == OwnRows(data, m)
    ensures ReadingAt(data + extra, m, k) == ReadingAt(data, m, k)
  {
    ListedHasRows(data, m);
    FilterAppend(data, extra, BelongsTo(m));
    assert forall i :: 0 <= i < |extra| ==> !BelongsTo(m)(extra[i]);
    NoneKept(extra, BelongsTo(m));
  }

  lemma {:induction false} NoneKept<Id>(s: seq<Row<Id>>, keep: Row<Id> -> bool)
    requires forall i :: 0 <= i < |s| ==> !keep(s[i])
    ensures Filter(s, keep) == []
    decreases |s|
  {
    if s != [] {
      NoneKept(s[..|s| - 1], keep);
    }
  }

  /** The readings of one call for the first `n` machines of `ms` at
      cursors `p`, one entry per machine, filled in the order of `ms`. */
  function Served<Id(==)>(data: seq<Row<Id>>, ms: seq<Id>, n: nat, p: map<Id, nat>): map<Id, Reading>
    requires n <= |ms| && forall j :: 0 <= j < |ms| ==> |OwnRows(data, ms[j])| > 0 && ms[j] in p
    decreases n
  {
    if n == 0 then map[]
    else Served(data, ms, n - 1, p)[ms[n - 1] := ReadingAt(data, ms[n - 1], p[ms[n - 1]])]
  }

  /** One call serves exactly the listed machines. */
  lemma {:induction false} ServedKeys<Id>(data: seq<Row<Id>>, ms: seq<Id>, n: nat, p: map<Id, nat>)
    requires n <= |ms| && forall j :: 0 <= j < |ms| ==> |OwnRows(data, ms[j])| > 0 && ms[j] in p
    ensures forall m :: m in Served(data, ms, n, p) <==> m in ms[..n]
    decreases n
  {
    if n > 0 {
      ServedKeys(data, ms, n - 1, p);
      assert ms[..n] == ms[..n - 1] + [ms[n - 1]];
    }
  }

  /** Each served machine gets its reading at its own cursor. */
  lemma {:induction false} ServedReading<Id>(data: seq<Row<Id>>, ms: seq<Id>, n: nat, p: map<Id, nat>, m: Id)
    requires n <= |ms| && forall j :: 0 <= j < |ms| ==> |OwnRows(data, ms[j])| > 0 && ms[j] in p
    requires m in Served(data, ms, n, p)
    ensures |OwnRows(data, m)| > 0 && m in p && Served(data, ms, n, p)[m] == ReadingAt(data, m, p[m])
    decreases n
  {
    var prev, m' := Served(data, ms, n - 1, p), ms[n - 1];
    if m != m' {
      ServedReading(data, ms, n - 1, p, m);
    }
  }

  /** The cursors after the first `n` machines of `ms` have each moved
      on by one. */
  function Advanced<Id(==)>(p: map<Id, nat>, ms: seq<Id>, n: nat): (r: map<Id, nat>)
    requires n <= |ms| && forall j :: 0 <= j < |ms| ==> ms[j] in p
    ensures forall j :: 0 <= j < |ms| ==> ms[j] in r
    decreases n
  {
    if n == 0 then p
    else
      var q := Advanced(p, ms, n - 1);
      q[ms[n - 1] := q[ms[n - 1]] + 1]
  }

  /** With no machine listed twice, advancing the first `n` machines moves
      each of them on by exactly one and leaves every other cursor alone. */
  lemma {:induction false} AdvancedSpec<Id>(p: map<Id, nat>, ms: seq<Id>, n: nat)
    requires Distinct(ms)
    requires n <= |ms| && forall j :: 0 <= j < |ms| ==> ms[j] in p
    ensures Advanced(p, ms, n).Keys == p.Keys
    ensures forall j :: 0 <= j < |ms| ==> Advanced(p, ms, n)[ms[j]] == p[ms[j]] + if j < n then 1 else 0
    ensures forall m :: m in p && m !in ms ==> Advanced(p, ms, n)[m] == p[m]
    decreases n
  {
    if n > 0 {
      AdvancedSpec(p, ms, n - 1);
      var q, m' := Advanced(p, ms, n - 1), ms[n - 1];
      assert Advanced(p, ms, n) == q[m' := q[m'] + 1];
      forall j | 0 <= j < |ms|
        ensures Advanced(p, ms, n)[ms[j]] == p[ms[j]] + if j < n then 1 else 0
      {
        if j != n - 1 {
          assert ms[j] != m';
        }
      }
    }
  }

  /** A machine's cursor has not moved before its own turn. */
  lemma NotYetAdvanced<Id>(p: map<Id, nat>, ms: seq<Id>, n: nat)
    requires Distinct(ms)
    requires n < |ms| && forall j :: 0 <= j < |ms| ==> ms[j] in p
    ensures Advanced(p, ms, n)[ms[n]] == p[ms[n]]
  {
    AdvancedSpec(p, ms, n);
  }

  /** The loop of `get_all_machines_data` over the machines `ids`: each
      machine in turn is served its reading at its cursor, and its cursor
      moves on by one. */
  method ServeAll<Id(==)>(table: seq<Row<Id>>, ids: seq<Id>, start: map<Id, nat>)
    returns (results: map<Id, Reading>, cursors: map<Id, nat>)
    requires Distinct(ids)
    requires forall j :: 0 <= j < |ids| ==> |OwnRows(table, ids[j])| > 0 && ids[j] in start
    ensures cursors == Advanced(start, ids, |ids|)
    ensures results == Served(table, ids, |ids|, start)
  {
    cursors := start;
    results := map[];
    var i := 0;
    while i < |ids|
      invariant 0 <= i <= |ids|
      invariant cursors == Advanced(start, ids, i)
      invariant results == Served(table, ids, i, start)
    {
      var machine := ids[i];
      NotYetAdvanced(start, ids, i);
      var reading := ReadingAt(table, machine, cursors[machine]);
      cursors := cursors[machine := cursors[machine] + 1];
      results := results[machine := reading];
      assert Served(table, ids, i + 1, start) == Served(table, ids, i, start)[machine := reading];
      assert Advanced(start, ids, i + 1) == Advanced(start, ids, i)[machine := start[machine] + 1];
      i := i + 1;
    }
  }

  class MachineDataSimulator<Id(==, !new)> {
    /** The loaded table. */
    var data: seq<Row<Id>>
    /** `data['machine_id'].unique()` */
    var machines: seq<Id>
    /** Each machine's replay cursor. */
    var pointers: map<Id, nat>

    /** `machines` lists each machine id of the table once, and exactly
        the listed machines have a cursor. */
    ghost predicate Valid()
      reads this
    {
      && Distinct(machines)
      && (forall j :: 0 <= j < |machines| ==> |OwnRows(data, machines[j])| > 0)
      && (forall i :: 0 <= i < |data| ==> data[i].machineId in machines)
      && (forall m :: m in pointers <==> m in machines)
    }

    /** `__init__` with the table already read: every machine's cursor
        starts at 0. */
    constructor (table: seq<Row<Id>>)
      ensures Valid()
      ensures data == table && machines == Dedup(MachineIds(table))
      ensures forall m :: m in machines ==> m in pointers && pointers[m] == 0
    {
      var ids := Dedup(MachineIds(table));
      forall j | 0 <= j < |ids|
        ensures |OwnRows(table, ids[j])| > 0
      {
        ListedHasRows(table, ids[j]);
      }
      data := table;
      machines := ids;
      pointers := map m | m in ids :: 0;
    }

    /** `get_all_machines_data`: one reading per distinct machine, taken at
        its cursor, and every cursor advanced by exactly one. */
    method GetAllMachinesData() returns (results: map<Id, Reading>)
      requires Valid()
      modifies this
      ensures Valid() && data == old(data) && machines == old(machines)
      ensures pointers.Keys == old(pointers).Keys
      ensures forall m :: m in pointers ==> pointers[m] == old(pointers)[m] + 1
      ensures results == Served(data, machines, |machines|, old(pointers))
    {
      var cursors;
      results, cursors := ServeAll(data, machines, pointers);
      AdvancedSpec(pointers, machines, |machines|);
      pointers := cursors;
    }
  }
}
