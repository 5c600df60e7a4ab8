/**
 * Aggregation of flow records: a group-by over a tuple of record attributes,
 * keeping per group the packet and byte totals, the earliest start and the
 * latest end.
 */
module Aggregation {
  import opened Wrappers
  import opened DateTimes
  import opened FlowRecords

  /** KEY_FIELDS, the default grouping. */
  const KEY_FIELDS: seq<Slot> := [SrcIp, DestIp, SrcPort, DestPort, Protocol]
  /** VALUE_FIELDS, the statistics after the key in every row. */
  const VALUE_FIELDS: seq<string> := ["packets_sent", "bytes_sent", "start_time", "end_time"]

  /** The values a _FlowStats holds. */
  datatype Stats = Stats(packetsSent: int, bytesSent: int, startTime: DateTime, endTime: DateTime)

  /** A fresh _FlowStats: no packets, no bytes, start at datetime.max and end at datetime.min. */
  const FRESH: Stats := Stats(0, 0, DateTimeMax, DateTimeMin)

  /** _FlowStats.update: the earlier start, the later end, and the counters added. */
  function Step(st: Stats, r: FlowRecord): Stats
  {
    Stats(st.packetsSent + r.packetsSent, st.bytesSent + r.bytesSent,
          if Before(r.startTime, st.startTime) then r.startTime else st.startTime,
          if Before(st.endTime, r.endTime) then r.endTime else st.endTime)
  }

  /** The statistics after updating a fresh _FlowStats with each record in turn. */
  function Fold(rs: seq<FlowRecord>): Stats
  {
    if rs == [] then FRESH else Step(Fold(rs[..|rs| - 1]), rs[|rs| - 1])
  }

  function PacketTotal(rs: seq<FlowRecord>): int
  {
    if rs == [] then 0 else PacketTotal(rs[..|rs| - 1]) + rs[|rs| - 1].packetsSent
  }

  function ByteTotal(rs: seq<FlowRecord>): int
  {
    if rs == [] then 0 else ByteTotal(rs[..|rs| - 1]) + rs[|rs| - 1].bytesSent
  }

  /** An update keeps every earlier record within the group's start and end. */
  lemma StepKeepsBounds(st: Stats, r: FlowRecord, t: FlowRecord)
    requires !Before(t.startTime, st.startTime) && !Before(st.endTime, t.endTime)
    ensures !Before(t.startTime, Step(st, r).startTime) && !Before(Step(st, r).endTime, t.endTime)
  {
    BeforeOrder(t.startTime, st.startTime, r.startTime);
    BeforeOrder(t.startTime, r.startTime, st.startTime);
    BeforeOrder(st.endTime, r.endTime, t.endTime);
    BeforeOrder(r.endTime, st.endTime, t.endTime);
  }

  /** An update puts the new record within the group's start and end. */
  lemma StepBoundsNew(st: Stats, r: FlowRecord)
    ensures !Before(r.startTime, Step(st, r).startTime) && !Before(Step(st, r).endTime, r.endTime)
  {
    BeforeOrder(r.startTime, st.startTime, r.startTime);
    BeforeOrder(st.endTime, r.endTime, st.endTime);
  }

  /**
   * After folding, the counters are the totals over the records, the start
   * is the earliest start among them and the end the latest end; with no
   * records the statistics are those of a fresh _FlowStats.
   */
  lemma {:induction false} FoldSpec(rs: seq<FlowRecord>)
    ensures Fold(rs).packetsSent == PacketTotal(rs) && Fold(rs).bytesSent == ByteTotal(rs)
    ensures rs == [] ==> Fold(rs) == FRESH
    ensures rs != [] ==>
      && (exists i :: 0 <= i < |rs| && Fold(rs).startTime == rs[i].startTime)
      && (exists i :: 0 <= i < |rs| && Fold(rs).endTime == rs[i].endTime)
    ensures forall i :: 0 <= i < |rs| ==> !Before(rs[i].startTime, Fold(rs).startTime) && !Before(Fold(rs).endTime, rs[i].endTime)
    decreases |rs|
  {
    if rs != [] {
      var n := |rs| - 1;
      var prev := Fold(rs[..n]);
      FoldSpec(rs[..n]);
      forall i | 0 <= i < |rs|
        ensures !Before(rs[i].startTime, Fold(rs).startTime) && !Before(Fold(rs).endTime, rs[i].endTime)
      {
        if i < n {
          assert rs[..n][i] == rs[i];
          StepKeepsBounds(prev, rs[n], rs[i]);
        } else {
          StepBoundsNew(prev, rs[n]);
        }
      }
      if n == 0 {
        Bounds(rs[0].startTime);
        Bounds(rs[0].endTime);
        BeforeOrder(rs[0].startTime, DateTimeMax, rs[0].startTime);
        BeforeOrder(DateTimeMin, rs[0].endTime, rs[0].endTime);
      } else {
        var j :| 0 <= j < n && prev.startTime == rs[..n][j].startTime;
        var k :| 0 <= k < n && prev.endTime == rs[..n][k].endTime;
        assert rs[..n][j] == rs[j] && rs[..n][k] == rs[k];
      }
    }
  }

  /** A group with a single record carries that record's own counters and times. */
  lemma SingleRecord(r: FlowRecord)
    ensures Fold([r]) == Stats(r.packetsSent, r.bytesSent, r.startTime, r.endTime)
  {
    assert [r][..0] == [];
    Bounds(r.startTime);
    Bounds(r.endTime);
    BeforeOrder(r.startTime, DateTimeMax, r.startTime);
    BeforeOrder(DateTimeMin, r.endTime, r.endTime);
  }

  /** Updating with two records in either order gives the same statistics. */
  lemma StepCommutes(st: Stats, a: FlowRecord, b: FlowRecord)
    ensures Step(Step(st, a), b) == Step(Step(st, b), a)
  {
    BeforeOrder(a.startTime, b.startTime, st.startTime);
    BeforeOrder(b.startTime, a.startTime, st.startTime);
    BeforeOrder(st.startTime, a.startTime, b.startTime);
    BeforeOrder(a.startTime, st.startTime, b.startTime);
    BeforeOrder(a.endTime, b.endTime, st.endTime);
    BeforeOrder(b.endTime, a.endTime, st.endTime);
    BeforeOrder(st.endTime, a.endTime, b.endTime);
    BeforeOrder(st.endTime, b.endTime, a.endTime);
  }

  /** Folding is the same as folding everything but one record and then that record. */
  lemma {:induction false} FoldRemove(rs: seq<FlowRecord>, i: nat)
    requires i < |rs|
    ensures Fold(rs) == Step(Fold(rs[..i] + rs[i + 1..]), rs[i])
    decreases |rs|
  {
    var n := |rs| - 1;
    if i == n {
      assert rs[..i] + rs[i + 1..] == rs[..n];
    } else {
      FoldRemove(rs[..n], i);
      var rest := rs[..n][..i] + rs[..n][i + 1..];
      assert rs[..i] + rs[i + 1..] == rest + [rs[n]];
      assert (rest + [rs[n]])[..|rest|] == rest;
      StepCommutes(Fold(rest), rs[i], rs[n]);
    }
  }

  lemma MultisetRemove<T>(s: seq<T>, i: nat)
    requires i < |s|
    ensures multiset(s[..i] + s[i + 1..]) == multiset(s) - multiset{s[i]}
  {
    assert s == s[..i] + [s[i]] + s[i + 1..];
  }

  /** The last record of a permutation occurs in the original, and removing it there leaves a permutation of the rest. */
  lemma PickLast(rs: seq<FlowRecord>, ps: seq<FlowRecord>) returns (i: nat)
    requires multiset(rs) == multiset(ps) && ps != []
    ensures i < |rs| && rs[i] == ps[|ps| - 1]
    ensures multiset(rs[..i] + rs[i + 1..]) == multiset(ps[..|ps| - 1])
  {
    var n := |ps| - 1;
    assert ps[n] in multiset(rs);
    i :| 0 <= i < |rs| && rs[i] == ps[n];
    MultisetRemove(rs, i);
    MultisetRemove(ps, n);
    assert ps[..n] + ps[n + 1..] == ps[..n];
  }

  /** The statistics do not depend on the order of the records. */
  lemma {:induction false} FoldPermutation(rs: seq<FlowRecord>, ps: seq<FlowRecord>)
    requires multiset(rs) == multiset(ps)
    ensures Fold(rs) == Fold(ps)
    decreases |ps|
  {
    if ps == [] {
      assert |rs| == |multiset(rs)| == 0;
    } else {
      var i := PickLast(rs, ps);
      FoldPermutation(rs[..i] + rs[i + 1..], ps[..|ps| - 1]);
      FoldRemove(rs, i);
    }
  }

  // ---------------------------------------------------------------- grouping

  /** The tuple of the key attributes of a record. */
  function KeyOf(r: FlowRecord, keyFields: seq<Slot>): (key: seq<Value>)
    ensures |key| == |keyFields|
  {
    seq(|keyFields|, i requires 0 <= i < |keyFields| => Attr(r, keyFields[i]))
  }

  /** The distinct keys in order of first appearance (the table's insertion order). */
  function FirstKeys(rs: seq<FlowRecord>, keyFields: seq<Slot>): seq<seq<Value>>
  {
    if rs == [] then []
    else
      var prev := FirstKeys(rs[..|rs| - 1], keyFields);
      var key := KeyOf(rs[|rs| - 1], keyFields);
      if key in prev then prev else prev + [key]
  }

  /** The records of one group, in input order. */
  function Members(rs: seq<FlowRecord>, keyFields: seq<Slot>, key: seq<Value>): seq<FlowRecord>
  {
    if rs == [] then []
    else
      var prev := Members(rs[..|rs| - 1], keyFields, key);
      if KeyOf(rs[|rs| - 1], keyFields) == key then prev + [rs[|rs| - 1]] else prev
  }

  /** Every key seen gets exactly one place, and no key is invented. */
  lemma {:induction false} FirstKeysSpec(rs: seq<FlowRecord>, keyFields: seq<Slot>)
    ensures forall i, j :: 0 <= i < j < |FirstKeys(rs, keyFields)| ==> FirstKeys(rs, keyFields)[i] != FirstKeys(rs, keyFields)[j]
    ensures forall key :: key in FirstKeys(rs, keyFields) <==> exists i :: 0 <= i < |rs| && KeyOf(rs[i], keyFields) == key
    decreases |rs|
  {
    if rs != [] {
      var n := |rs| - 1;
      FirstKeysSpec(rs[..n], keyFields);
      forall key
        ensures key in FirstKeys(rs, keyFields) <==> exists i :: 0 <= i < |rs| && KeyOf(rs[i], keyFields) == key
      {
        if key in FirstKeys(rs[..n], keyFields) {
          var i :| 0 <= i < n && KeyOf(rs[..n][i], keyFields) == key;
          assert rs[..n][i] == rs[i];
        }
        if exists i :: 0 <= i < |rs| && KeyOf(rs[i], keyFields) == key {
          var i :| 0 <= i < |rs| && KeyOf(rs[i], keyFields) == key;
          if i < n {
            assert rs[..n][i] == rs[i];
          }
        }
      }
    }
  }

  /** A key that was never seen has no records. */
  lemma {:induction false} MembersOfUnseen(rs: seq<FlowRecord>, keyFields: seq<Slot>, key: seq<Value>)
    requires key !in FirstKeys(rs, keyFields)
    ensures Members(rs, keyFields, key) == []
    decreases |rs|
  {
    if rs != [] {
      MembersOfUnseen(rs[..|rs| - 1], keyFields, key);
    }
  }

  /** How often a record occurs in its group is how often it occurs in the input. */
  lemma {:induction false} MembersMultiset(rs: seq<FlowRecord>, keyFields: seq<Slot>, key: seq<Value>, x: FlowRecord)
    ensures multiset(Members(rs, keyFields, key))[x] == if KeyOf(x, keyFields) == key then multiset(rs)[x] else 0
    decreases |rs|
  {
    if rs != [] {
      var n := |rs| - 1;
      MembersMultiset(rs[..n], keyFields, key, x);
      assert rs == rs[..n] + [rs[n]];
    }
  }

  /** The records' statistics for each key do not depend on the order of the input. */
  lemma GroupOrderIndependent(rs: seq<FlowRecord>, qs: seq<FlowRecord>, keyFields: seq<Slot>, key: seq<Value>)
    requires multiset(rs) == multiset(qs)
    ensures Fold(Members(rs, keyFields, key)) == Fold(Members(qs, keyFields, key))
    ensures key in FirstKeys(rs, keyFields) <==> key in FirstKeys(qs, keyFields)
  {
    forall x
      ensures multiset(Members(rs, keyFields, key))[x] == multiset(Members(qs, keyFields, key))[x]
    {
      MembersMultiset(rs, keyFields, key, x);
      MembersMultiset(qs, keyFields, key, x);
    }
    assert multiset(Members(rs, keyFields, key)) == multiset(Members(qs, keyFields, key));
    FoldPermutation(Members(rs, keyFields, key), Members(qs, keyFields, key));
    FirstKeysSpec(rs, keyFields);
    FirstKeysSpec(qs, keyFields);
    if key in FirstKeys(rs, keyFields) {
      var i :| 0 <= i < |rs| && KeyOf(rs[i], keyFields) == key;
      assert rs[i] in multiset(qs);
    }
    if key in FirstKeys(qs, keyFields) {
      var i :| 0 <= i < |qs| && KeyOf(qs[i], keyFields) == key;
      assert qs[i] in multiset(rs);
    }
  }

  // ---------------------------------------------------------------- rows

  /** A StatRecord: the key values, then packets_sent, bytes_sent, start_time and end_time. */
  function MakeRow(key: seq<Value>, st: Stats): seq<Value>
  {
    key + [VInt(st.packetsSent), VInt(st.bytesSent), VTime(st.startTime), VTime(st.endTime)]
  }

  /** The field names of StatRecord. */
  function StatFieldNames(keyFields: seq<Slot>): seq<string>
  {
    seq(|keyFields|, i requires 0 <= i < |keyFields| => SlotName(keyFields[i])) + VALUE_FIELDS
  }

  predicate HasDuplicates(names: seq<string>)
  {
    exists i, j :: 0 <= i < j < |names| && names[i] == names[j]
  }

  /** namedtuple() refuses a repeated field name with ValueError. */
  datatype AggError = DuplicateFieldName

  /** aggregated_records(records, key_fields), consumed to the end. */
  function Aggregate(rs: seq<FlowRecord>, keyFields: seq<Slot>): Result<seq<seq<Value>>, AggError>
  {
    if HasDuplicates(StatFieldNames(keyFields)) then Failure(DuplicateFieldName)
    else
      var keys := FirstKeys(rs, keyFields);
      Success(seq(|keys|, i requires 0 <= i < |keys| => MakeRow(keys[i], Fold(Members(rs, keyFields, keys[i])))))
  }

  /** Row i of the result starts with the i-th distinct key. */
  lemma RowKeys(rs: seq<FlowRecord>, keyFields: seq<Slot>)
    requires Aggregate(rs, keyFields).Success?
    ensures |Aggregate(rs, keyFields).value| == |FirstKeys(rs, keyFields)|
    ensures forall i :: 0 <= i < |Aggregate(rs, keyFields).value| ==>
      |Aggregate(rs, keyFields).value[i]| == |keyFields| + 4 &&
      Aggregate(rs, keyFields).value[i][..|keyFields|] == FirstKeys(rs, keyFields)[i]
  {
    var rows := Aggregate(rs, keyFields).value;
    var keys := FirstKeys(rs, keyFields);
    FirstKeysSpec(rs, keyFields);
    forall i | 0 <= i < |rows|
      ensures |rows[i]| == |keyFields| + 4 && rows[i][..|keyFields|] == keys[i]
    {
      assert keys[i] in keys;
      var w :| 0 <= w < |rs| && KeyOf(rs[w], keyFields) == keys[i];
    }
  }

  /** Each record's key heads some row. */
  lemma RowForEveryRecord(rs: seq<FlowRecord>, keyFields: seq<Slot>, r: FlowRecord)
    requires Aggregate(rs, keyFields).Success? && r in rs
    ensures exists i :: (0 <= i < |Aggregate(rs, keyFields).value| && |keyFields| <= |Aggregate(rs, keyFields).value[i]| &&
                         Aggregate(rs, keyFields).value[i][..|keyFields|] == KeyOf(r, keyFields))
  {
    var keys := FirstKeys(rs, keyFields);
    RowKeys(rs, keyFields);
    FirstKeysSpec(rs, keyFields);
    var w :| 0 <= w < |rs| && rs[w] == r;
    assert KeyOf(r, keyFields) in keys;
    var i :| 0 <= i < |keys| && keys[i] == KeyOf(r, keyFields);
    assert Aggregate(rs, keyFields).value[i][..|keyFields|] == keys[i];
  }

  /** Each row's key is the key of some record. */
  lemma RecordForEveryRow(rs: seq<FlowRecord>, keyFields: seq<Slot>, i: nat)
    requires Aggregate(rs, keyFields).Success? && i < |Aggregate(rs, keyFields).value|
    ensures |Aggregate(rs, keyFields).value[i]| == |keyFields| + 4
    ensures exists r :: r in rs && Aggregate(rs, keyFields).value[i][..|keyFields|] == KeyOf(r, keyFields)
  {
    var keys := FirstKeys(rs, keyFields);
    RowKeys(rs, keyFields);
    FirstKeysSpec(rs, keyFields);
    assert keys[i] in keys;
    var w :| 0 <= w < |rs| && KeyOf(rs[w], keyFields) == keys[i];
    assert rs[w] in rs;
  }

  /**
   * One row per distinct key, in first-appearance order, each the key
   * followed by its group's statistics; no rows for no records.
   */
  lemma AggregateRows(rs: seq<FlowRecord>, keyFields: seq<Slot>)
    requires Aggregate(rs, keyFields).Success?
    ensures var rows := Aggregate(rs, keyFields).value;
      && (rs == [] ==> rows == [])
      && (forall i :: 0 <= i < |rows| ==> |rows[i]| == |keyFields| + 4)
      && (forall i, j :: 0 <= i < j < |rows| ==> rows[i][..|keyFields|] != rows[j][..|keyFields|])
      && (forall r :: r in rs ==> exists i :: 0 <= i < |rows| && rows[i][..|keyFields|] == KeyOf(r, keyFields))
      && (forall i :: 0 <= i < |rows| ==> exists r :: r in rs && rows[i][..|keyFields|] == KeyOf(r, keyFields))
  {
    RowKeys(rs, keyFields);
    FirstKeysSpec(rs, keyFields);
    forall r | r in rs
      ensures exists i :: 0 <= i < |Aggregate(rs, keyFields).value| && Aggregate(rs, keyFields).value[i][..|keyFields|] == KeyOf(r, keyFields)
    {
      RowForEveryRecord(rs, keyFields, r);
    }
    forall i | 0 <= i < |Aggregate(rs, keyFields).value|
      ensures exists r :: r in rs && Aggregate(rs, keyFields).value[i][..|keyFields|] == KeyOf(r, keyFields)
    {
      RecordForEveryRow(rs, keyFields, i);
    }
  }

  // ---------------------------------------------------------------- _FlowStats

  /** The running statistics of one group, updated in place. */
  class FlowStats {
    var startTime: DateTime
    var endTime: DateTime
    var packetsSent: int
    var bytesSent: int

    function Snapshot(): Stats
      reads this
    {
      Stats(packetsSent, bytesSent, startTime, endTime)
    }

    /** A fresh group: no packets, no bytes, datetime.max and datetime.min. */
    constructor ()
      ensures Snapshot() == FRESH
    {
      startTime := DateTimeMax;
      endTime := DateTimeMin;
      packetsSent := 0;
      bytesSent := 0;
    }

    /** Takes one record into the group. */
    method Update(r: FlowRecord)
      modifies this
      ensures Snapshot() == Step(old(Snapshot()), r)
    {
      if Before(r.startTime, startTime) {
        startTime := r.startTime;
      }
      if Before(endTime, r.endTime) {
        endTime := r.endTime;
      }
      packetsSent := packetsSent + r.packetsSent;
      bytesSent := bytesSent + r.bytesSent;
    }

    /** The four statistics keyed by their field names. */
    function ToDict(): (d: map<string, Value>)
      reads this
      ensures d.Keys == set name | name in VALUE_FIELDS
      ensures forall i :: 0 <= i < 4 ==> d[VALUE_FIELDS[i]] == MakeRow([], Snapshot())[i]
    {
      map["packets_sent" := VInt(packetsSent), "bytes_sent" := VInt(bytesSent),
          "start_time" := VTime(startTime), "end_time" := VTime(endTime)]
    }
  }

  /** Taking one more record into account changes only that record's group. */
  lemma GroupStep(rs: seq<FlowRecord>, keyFields: seq<Slot>, i: nat, key: seq<Value>)
    requires i < |rs|
    ensures Fold(Members(rs[..i + 1], keyFields, key)) ==
      if KeyOf(rs[i], keyFields) == key then Step(Fold(Members(rs[..i], keyFields, key)), rs[i])
      else Fold(Members(rs[..i], keyFields, key))
    ensures FirstKeys(rs[..i + 1], keyFields) ==
      if KeyOf(rs[i], keyFields) in FirstKeys(rs[..i], keyFields) then FirstKeys(rs[..i], keyFields)
      else FirstKeys(rs[..i], keyFields) + [KeyOf(rs[i], keyFields)]
  {
    assert rs[..i + 1][..i] == rs[..i];
    var m := Members(rs[..i], keyFields, key);
    assert (m + [rs[i]])[..|m|] == m;
  }

  /** Different keys hold different _FlowStats objects. */
  predicate DistinctStats(table: map<seq<Value>, FlowStats>)
  {
    forall k1, k2 :: k1 in table && k2 in table && k1 != k2 ==> table[k1] != table[k2]
  }

  /** The first loop of aggregated_records: the table of groups, in insertion order. */
  method FillTable(records: seq<FlowRecord>, keyFields: seq<Slot>)
    returns (table: map<seq<Value>, FlowStats>, order: seq<seq<Value>>)
    ensures order == FirstKeys(records, keyFields)
    ensures forall key :: key in table <==> key in order
    ensures forall key :: key in table ==> fresh(table[key])
    ensures DistinctStats(table)
    ensures forall key :: key in table ==> table[key].Snapshot() == Fold(Members(records, keyFields, key))
  {
    table := map[];
    order := [];
    for i := 0 to |records|
      invariant order == FirstKeys(records[..i], keyFields)
      invariant forall key :: key in table <==> key in order
      invariant forall key :: key in table ==> fresh(table[key])
      invariant DistinctStats(table)
      invariant forall key :: key in table ==> table[key].Snapshot() == Fold(Members(records[..i], keyFields, key))
    {
      var key := KeyOf(records[i], keyFields);
      if key !in table {
        MembersOfUnseen(records[..i], keyFields, key);
        var stats := new FlowStats();
        table := table[key := stats];
        order := order + [key];
      }
      table[key].Update(records[i]);
      forall k | k in table
        ensures table[k].Snapshot() == Fold(Members(records[..i + 1], keyFields, k))
      {
        GroupStep(records, keyFields, i, k);
      }
      GroupStep(records, keyFields, i, key);
    }
    assert records[..|records|] == records;
  }

  /** aggregated_records: one pass filling the table, one pass producing the rows. */
  method AggregatedRecords(records: seq<FlowRecord>, keyFields: seq<Slot>)
    returns (result: Result<seq<seq<Value>>, AggError>)
    ensures result == Aggregate(records, keyFields)
  {
    if HasDuplicates(StatFieldNames(keyFields)) {
      return Failure(DuplicateFieldName);
    }
    var table, order := FillTable(records, keyFields);
    var rows := EmitRows(table, order);
    assert rows == Aggregate(records, keyFields).value;
    result := Success(rows);
  }

  /** The second loop: for each key in table order, the key followed by its stats' to_dict(). */
  method EmitRows(table: map<seq<Value>, FlowStats>, order: seq<seq<Value>>) returns (rows: seq<seq<Value>>)
    requires forall key :: key in order ==> key in table
    ensures |rows| == |order|
    ensures forall k :: 0 <= k < |order| ==> rows[k] == MakeRow(order[k], table[order[k]].Snapshot())
  {
    rows := [];
    for j := 0 to |order|
      invariant |rows| == j
      invariant forall k :: 0 <= k < j ==> rows[k] == MakeRow(order[k], table[order[k]].Snapshot())
    {
      var d := table[order[j]].ToDict();
      rows := rows + [order[j] + [d["packets_sent"], d["bytes_sent"], d["start_time"], d["end_time"]]];
    }
  }
}
