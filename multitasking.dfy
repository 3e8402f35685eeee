/*
 * The multitasking adjustment of src/simod/multitasking/multitasking.py:
 * for every resource, the events it works on at the same time have their end
 * timestamps moved so that each event is credited only its equal share of the
 * time it overlapped with others.
 *
 * The event log is an array of rows whose index is the event id (the data
 * frame's RangeIndex). Timestamps are seconds, as exact reals.
 */
module Multitasking {
  import opened Python
  import opened Sorting
  import opened MultitaskingSweep

  /** One row of the event log: start timestamp, end timestamp, resource, and two of the columns the adjustment leaves alone. */
  datatype Event = Event(start: real, end: real, resource: string, caseId: string, activity: string)

  predicate Increasing(rows: seq<nat>) {
    forall a, b :: 0 <= a < b < |rows| ==> rows[a] < rows[b]
  }

  predicate RowsOf(log: seq<Event>, rows: seq<nat>) {
    forall k :: 0 <= k < |rows| ==> rows[k] < |log|
  }

  /** `log[log[resource] == resource]`: the ids of the resource's rows, in log order. */
  function ResourceRows(log: seq<Event>, resource: string): (rows: seq<nat>)
    ensures Increasing(rows) && RowsOf(log, rows)
    ensures forall k :: 0 <= k < |rows| ==> log[rows[k]].resource == resource
    ensures forall i :: 0 <= i < |log| && log[i].resource == resource ==> i in rows
  {
    if log == [] then []
    else
      var last := |log| - 1;
      var front := ResourceRows(log[..last], resource);
      assert forall k :: 0 <= k < |front| ==> log[..last][front[k]] == log[front[k]];
      front + if log[last].resource == resource then [last] else []
  }

  function StartRecord(log: seq<Event>, i: nat): CustomRecord
    requires i < |log|
  {
    CustomRecord(i, log[i].start, Start, log[i].resource)
  }

  function EndRecord(log: seq<Event>, i: nat): CustomRecord
    requires i < |log|
  {
    CustomRecord(i, log[i].end, End, log[i].resource)
  }

  predicate Instant(log: seq<Event>, i: nat)
    requires i < |log|
  {
    log[i].start == log[i].end
  }

  /** The records _make_custom_records emits for the given rows: a START and an END for every row that is not instant. */
  function CustomRecords(log: seq<Event>, rows: seq<nat>): seq<CustomRecord>
    requires RowsOf(log, rows)
  {
    if rows == [] then []
    else
      var i := rows[|rows| - 1];
      CustomRecords(log, rows[..|rows| - 1]) +
        if Instant(log, i) then [] else [StartRecord(log, i), EndRecord(log, i)]
  }

  /** _make_custom_records */
  method MakeCustomRecords(log: array<Event>, rows: seq<nat>) returns (data: seq<CustomRecord>)
    requires RowsOf(log[..], rows)
    ensures data == CustomRecords(log[..], rows)
  {
    data := [];
    for k := 0 to |rows|
      invariant data == CustomRecords(log[..], rows[..k])
    {
      assert rows[..k + 1][..k] == rows[..k];
      var i := rows[k];
      var event := log[i];
      if event.start == event.end {
        continue;
      }
      var startItem := CustomRecord(i, event.start, Start, event.resource);
      var endItem := CustomRecord(i, event.end, End, event.resource);
      data := data + [startItem, endItem];
    }
    assert rows[..|rows|] == rows;
  }

  // -------------------------------------------- the shape of the records

  /** `x` is the START or the END record of a row that is not instant. */
  predicate RecordOf(log: seq<Event>, x: CustomRecord) {
    && x.eventId < |log|
    && !Instant(log, x.eventId)
    && x == if x.lifecycle == Start then StartRecord(log, x.eventId) else EndRecord(log, x.eventId)
  }

  /** The rows that are not instant. */
  function NonInstant(log: seq<Event>, rows: seq<nat>): set<nat>
    requires RowsOf(log, rows)
  {
    set k | 0 <= k < |rows| && !Instant(log, rows[k]) :: rows[k]
  }

  /** Every record is the START or the END of one of the rows, and that row is not instant. */
  lemma {:induction false} CustomRecordsSound(log: seq<Event>, rows: seq<nat>)
    requires RowsOf(log, rows)
    ensures forall x :: x in CustomRecords(log, rows) ==> RecordOf(log, x) && x.eventId in rows
  {
    if rows != [] {
      var front := rows[..|rows| - 1];
      CustomRecordsSound(log, front);
      forall x | x in CustomRecords(log, rows)
        ensures RecordOf(log, x) && x.eventId in rows
      {
        if x in CustomRecords(log, front) {
          var k :| 0 <= k < |front| && front[k] == x.eventId;
          assert rows[k] == x.eventId;
        }
      }
    }
  }

  /** Every row that is not instant contributes both its START and its END. */
  lemma {:induction false} CustomRecordsComplete(log: seq<Event>, rows: seq<nat>, k: nat)
    requires RowsOf(log, rows) && k < |rows| && !Instant(log, rows[k])
    ensures StartRecord(log, rows[k]) in CustomRecords(log, rows)
    ensures EndRecord(log, rows[k]) in CustomRecords(log, rows)
  {
    if k < |rows| - 1 {
      var front := rows[..|rows| - 1];
      CustomRecordsComplete(log, front, k);
    }
  }

  /** Two records of the same event sit next to each other, its START first. */
  predicate Adjacent(rs: seq<CustomRecord>) {
    forall j, l :: 0 <= j < l < |rs| && rs[j].eventId == rs[l].eventId ==>
      l == j + 1 && rs[j].lifecycle == Start && rs[l].lifecycle == End
  }

  lemma {:induction false} CustomRecordsAdjacent(log: seq<Event>, rows: seq<nat>)
    requires RowsOf(log, rows) && Increasing(rows)
    ensures Adjacent(CustomRecords(log, rows))
  {
    if rows != [] {
      var i := rows[|rows| - 1];
      var front := rows[..|rows| - 1];
      var fs := CustomRecords(log, front);
      var rs := CustomRecords(log, rows);
      CustomRecordsAdjacent(log, front);
      CustomRecordsSound(log, front);
      forall j, l | 0 <= j < l < |rs| && rs[j].eventId == rs[l].eventId
        ensures l == j + 1 && rs[j].lifecycle == Start && rs[l].lifecycle == End
      {
        if l < |fs| {
          assert rs[j] == fs[j] && rs[l] == fs[l];
        } else {
          assert !Instant(log, i) && |rs| == |fs| + 2;
          assert rs[|fs|] == StartRecord(log, i) && rs[|fs| + 1] == EndRecord(log, i);
          if j < |fs| {
            assert false;
          }
        }
      }
    }
  }

  /** The non-instant rows of a longer list: those of the shorter one, and the last row if it is not instant. */
  lemma NonInstantSnoc(log: seq<Event>, rows: seq<nat>)
    requires RowsOf(log, rows) && rows != []
    ensures var i := rows[|rows| - 1];
      NonInstant(log, rows) == NonInstant(log, rows[..|rows| - 1]) + if Instant(log, i) then {} else {i}
  {
    var i := rows[|rows| - 1];
    var front := rows[..|rows| - 1];
    forall x ensures x in NonInstant(log, rows) <==> x in NonInstant(log, front) + if Instant(log, i) then {} else {i} {
      if x in NonInstant(log, rows) {
        var k :| 0 <= k < |rows| && !Instant(log, rows[k]) && rows[k] == x;
        if k < |front| {
          assert front[k] == x;
        }
      }
      if x in NonInstant(log, front) {
        var k :| 0 <= k < |front| && !Instant(log, front[k]) && front[k] == x;
        assert rows[k] == x;
      }
    }
  }

  /** The last of increasing rows is none of the rows before it. */
  lemma LastIsNew(log: seq<Event>, rows: seq<nat>)
    requires RowsOf(log, rows) && Increasing(rows) && rows != []
    ensures rows[|rows| - 1] !in NonInstant(log, rows[..|rows| - 1])
  {
  }

  /** The records are two per row that is not instant. */
  lemma {:induction false} CustomRecordsCount(log: seq<Event>, rows: seq<nat>)
    requires RowsOf(log, rows) && Increasing(rows)
    ensures |CustomRecords(log, rows)| == 2 * |NonInstant(log, rows)|
  {
    if rows != [] {
      var front := rows[..|rows| - 1];
      assert Increasing(front);
      CustomRecordsCount(log, front);
      NonInstantSnoc(log, rows);
      LastIsNew(log, rows);
    }
  }

  // ------------------------------------- the sorted records of one resource

  /** The records of the resource's rows in the order the sweep visits them. */
  function SweptRecords(log: seq<Event>, resource: string): seq<CustomRecord> {
    SweepOrder(CustomRecords(log, ResourceRows(log, resource)))
  }

  /** No row of the resource ends before it starts. */
  predicate StartsBeforeEnds(log: seq<Event>, resource: string) {
    forall i :: 0 <= i < |log| && log[i].resource == resource ==> log[i].start <= log[i].end
  }

  ghost predicate NoDuplicates<T>(s: seq<T>) {
    forall j, l :: 0 <= j < l < |s| ==> s[j] != s[l]
  }

  lemma {:induction false} NoDuplicatesCount<T>(s: seq<T>, x: T)
    requires NoDuplicates(s)
    ensures multiset(s)[x] <= 1
  {
    if s != [] {
      assert s == [s[0]] + s[1..];
      assert NoDuplicates(s[1..]) by {
        forall j, l | 0 <= j < l < |s[1..]| ensures s[1..][j] != s[1..][l] {
          assert s[1..][j] == s[j + 1] && s[1..][l] == s[l + 1];
        }
      }
      NoDuplicatesCount(s[1..], x);
      if s[0] == x {
        forall k | 0 <= k < |s[1..]| ensures s[1..][k] != x {
          assert s[1..][k] == s[k + 1];
        }
      }
    }
  }

  lemma DuplicateCount<T>(s: seq<T>, j: nat, l: nat)
    requires j < l < |s| && s[j] == s[l]
    ensures multiset(s)[s[j]] >= 2
  {
    assert s == s[..l] + s[l..];
    assert s[j] in s[..l];
    assert s[l] in s[l..];
  }

  /** A permutation of a sequence without duplicates has none either. */
  lemma PermutationNoDuplicates<T>(a: seq<T>, b: seq<T>)
    requires multiset(a) == multiset(b) && NoDuplicates(a)
    ensures NoDuplicates(b)
  {
    forall j, l | 0 <= j < l < |b| ensures b[j] != b[l] {
      if b[j] == b[l] {
        DuplicateCount(b, j, l);
        NoDuplicatesCount(a, b[j]);
      }
    }
  }

  lemma CustomRecordsNoDuplicates(log: seq<Event>, rows: seq<nat>)
    requires RowsOf(log, rows) && Increasing(rows)
    ensures NoDuplicates(CustomRecords(log, rows))
  {
    CustomRecordsAdjacent(log, rows);
  }

  /**
   * `ss` holds, sorted by timestamp and without repetition, exactly the START
   * and END records of the non-instant rows of the resource.
   */
  ghost predicate Shaped(log: seq<Event>, resource: string, ss: seq<CustomRecord>) {
    SortedBy(ss, TimestampKey) && NoDuplicates(ss) && SweptSound(log, resource, ss) && SweptComplete(log, resource, ss)
  }

  /** Every record is the START or the END of a non-instant row of the resource. */
  ghost predicate SweptSound(log: seq<Event>, resource: string, ss: seq<CustomRecord>) {
    forall x :: x in ss ==> RecordOf(log, x) && log[x.eventId].resource == resource
  }

  /** The START and the END of every non-instant row of the resource are there. */
  ghost predicate SweptComplete(log: seq<Event>, resource: string, ss: seq<CustomRecord>) {
    forall i :: 0 <= i < |log| && log[i].resource == resource && !Instant(log, i) ==>
      StartRecord(log, i) in ss && EndRecord(log, i) in ss
  }

  lemma SweptRecordsShape(log: seq<Event>, resource: string)
    ensures Shaped(log, resource, SweptRecords(log, resource))
  {
    var rows := ResourceRows(log, resource);
    var rs := CustomRecords(log, rows);
    var ss := SweptRecords(log, resource);
    CustomRecordsNoDuplicates(log, rows);
    PermutationNoDuplicates(rs, ss);
    CustomRecordsSound(log, rows);
    forall x | x in ss ensures RecordOf(log, x) && log[x.eventId].resource == resource {
      SortedMembers(rs, TimestampKey, x);
      var k :| 0 <= k < |rows| && rows[k] == x.eventId;
    }
    forall i | 0 <= i < |log| && log[i].resource == resource && !Instant(log, i)
      ensures StartRecord(log, i) in ss && EndRecord(log, i) in ss
    {
      var k :| 0 <= k < |rows| && rows[k] == i;
      CustomRecordsComplete(log, rows, k);
      SortedMembers(rs, TimestampKey, StartRecord(log, i));
      SortedMembers(rs, TimestampKey, EndRecord(log, i));
    }
  }

  /** When no row of the resource ends before it starts, records shaped like the swept ones are paired. */
  lemma ShapedPaired(log: seq<Event>, resource: string, ss: seq<CustomRecord>)
    requires Shaped(log, resource, ss) && StartsBeforeEnds(log, resource)
    ensures Paired(ss)
  {
    forall j, l | 0 <= j < l < |ss| && ss[j].eventId == ss[l].eventId
      ensures ss[j].lifecycle == Start && ss[l].lifecycle == End
    {
      assert ss[j] in ss && ss[l] in ss;
      assert ss[j] != ss[l];
    }
    forall j | 0 <= j < |ss| ensures HasPartner(ss, j) {
      var x := ss[j];
      assert x in ss;
      var i := x.eventId;
      var other := if x.lifecycle == Start then EndRecord(log, i) else StartRecord(log, i);
      var m :| 0 <= m < |ss| && ss[m] == other;
      assert m != j;
    }
  }

  /** When no row of the resource ends before it starts, its swept records are paired. */
  lemma SweptRecordsPaired(log: seq<Event>, resource: string)
    requires StartsBeforeEnds(log, resource)
    ensures Paired(SweptRecords(log, resource))
  {
    SweptRecordsShape(log, resource);
    ShapedPaired(log, resource, SweptRecords(log, resource));
  }

  /** Where the START and the END of a non-instant row of the resource sit among paired shaped records. */
  lemma ShapedPositions(log: seq<Event>, resource: string, ss: seq<CustomRecord>, i: nat) returns (p: nat, q: nat)
    requires SweptComplete(log, resource, ss) && Paired(ss)
    requires i < |log| && log[i].resource == resource && !Instant(log, i)
    ensures p < q < |ss| && ss[p] == StartRecord(log, i) && ss[q] == EndRecord(log, i)
  {
    p :| 0 <= p < |ss| && ss[p] == StartRecord(log, i);
    q :| 0 <= q < |ss| && ss[q] == EndRecord(log, i);
    PairedOrder(ss, p, q);
  }

  /** Where the START and the END of a non-instant row of the resource sit among the swept records. */
  lemma RowPositions(log: seq<Event>, resource: string, i: nat) returns (p: nat, q: nat)
    requires StartsBeforeEnds(log, resource)
    requires i < |log| && log[i].resource == resource && !Instant(log, i)
    ensures p < q < |SweptRecords(log, resource)|
    ensures SweptRecords(log, resource)[p] == StartRecord(log, i)
    ensures SweptRecords(log, resource)[q] == EndRecord(log, i)
  {
    SweptRecordsShape(log, resource);
    SweptRecordsPaired(log, resource);
    p, q := ShapedPositions(log, resource, SweptRecords(log, resource), i);
  }

  /** In paired records, an event's START comes before its END. */
  lemma PairedOrder(rs: seq<CustomRecord>, p: nat, q: nat)
    requires Paired(rs) && p < |rs| && q < |rs|
    requires rs[p].eventId == rs[q].eventId && rs[p].lifecycle == Start && rs[q].lifecycle == End
    ensures p < q
  {
  }

  /**
   * The sweep of a resource fails (with KeyError) exactly when one of the
   * resource's rows ends before it starts: its END is then visited before its
   * START, while the event is not open.
   */
  lemma SweepSucceedsIff(log: seq<Event>, resource: string)
    ensures NoOrphanEnd(SweptRecords(log, resource)) <==> StartsBeforeEnds(log, resource)
  {
    var ss := SweptRecords(log, resource);
    SweptRecordsShape(log, resource);
    if StartsBeforeEnds(log, resource) {
      ShapedPaired(log, resource, ss);
      PairedNoOrphanEnd(ss);
    } else {
      var i :| 0 <= i < |log| && log[i].resource == resource && log[i].start > log[i].end;
      ReversedRowOrphan(log, resource, ss, i);
    }
  }

  /** The END of a row that ends before it starts is visited while its event is not open. */
  lemma ReversedRowOrphan(log: seq<Event>, resource: string, ss: seq<CustomRecord>, i: nat)
    requires Shaped(log, resource, ss)
    requires i < |log| && log[i].resource == resource && log[i].start > log[i].end
    ensures !NoOrphanEnd(ss)
  {
    var a :| 0 <= a < |ss| && ss[a] == StartRecord(log, i);
    var b :| 0 <= b < |ss| && ss[b] == EndRecord(log, i);
    assert b < a;
    forall j | 0 <= j < |ss| && ss[j].eventId == i ensures j == a || j == b {
      assert ss[j] in ss;
    }
    EndBeforeStart(ss, a, b);
  }

  /** An END visited before its event's only START finds the event not open. */
  lemma EndBeforeStart(rs: seq<CustomRecord>, a: nat, b: nat)
    requires b < a < |rs| && rs[b].eventId == rs[a].eventId && rs[b].lifecycle == End
    requires forall j :: 0 <= j < |rs| && rs[j].eventId == rs[b].eventId ==> j == a || j == b
    ensures !NoOrphanEnd(rs)
  {
    if IsOpen(rs, b, rs[b].eventId) {
      OpenHasRecord(rs, b, rs[b].eventId);
    }
  }

  // ------------------------------------------- what one resource's adjustment does

  /**
   * The log after the adjustment of one resource: every row the sweep ever
   * saw open ends at its start plus the time the sweep credited to it; every
   * other row is as it was.
   */
  function AdjustedLog(log: seq<Event>, resource: string): (r: seq<Event>)
    ensures |r| == |log|
  {
    Credited(log, SweptRecords(log, resource))
  }

  /** `log` with every event ever open in `ss` ending at its start plus the time credited to it in `ss`. */
  function Credited(log: seq<Event>, ss: seq<CustomRecord>): (r: seq<Event>)
    ensures |r| == |log|
  {
    seq(|log|, i requires 0 <= i < |log| =>
      if EverOpen(ss, |ss|, i) then log[i].(end := log[i].start + Accrued(ss, i, |ss|)) else log[i])
  }

  /** Only the end timestamp of a row can change, and only for non-instant rows of the resource. */
  lemma AdjustedLogFrame(log: seq<Event>, resource: string, i: nat)
    requires i < |log|
    ensures AdjustedLog(log, resource)[i] == log[i].(end := AdjustedLog(log, resource)[i].end)
    ensures log[i].resource != resource || Instant(log, i) ==> AdjustedLog(log, resource)[i] == log[i]
  {
    if log[i].resource != resource || Instant(log, i) {
      SweptRecordsShape(log, resource);
      CreditedFrame(log, resource, SweptRecords(log, resource), i);
    }
  }

  /** Records of the resource's non-instant rows credit no other row. */
  lemma CreditedFrame(log: seq<Event>, resource: string, ss: seq<CustomRecord>, i: nat)
    requires SweptSound(log, resource, ss)
    requires i < |log| && (log[i].resource != resource || Instant(log, i))
    ensures Credited(log, ss)[i] == log[i]
  {
    forall j | 0 <= j < |ss| ensures ss[j].eventId != i {
      assert ss[j] in ss;
    }
    NeverOpen(ss, |ss|, i);
  }

  /** A non-instant row of the resource keeps at least none and at most all of its duration. */
  lemma AdjustedLogBounds(log: seq<Event>, resource: string, i: nat)
    requires StartsBeforeEnds(log, resource)
    requires i < |log| && log[i].resource == resource && !Instant(log, i)
    ensures log[i].start <= AdjustedLog(log, resource)[i].end <= log[i].end
  {
    var ss := SweptRecords(log, resource);
    SweptRecordsShape(log, resource);
    SweptRecordsPaired(log, resource);
    ShapedRowBounds(log, resource, ss, i);
  }

  lemma ShapedRowBounds(log: seq<Event>, resource: string, ss: seq<CustomRecord>, i: nat)
    requires Shaped(log, resource, ss) && Paired(ss)
    requires i < |log| && log[i].resource == resource && !Instant(log, i)
    ensures EverOpen(ss, |ss|, i)
    ensures 0.0 <= Accrued(ss, i, |ss|) <= log[i].end - log[i].start
  {
    var p, q := ShapedPositions(log, resource, ss, i);
    PairedEverOpen(ss, i);
    AccruedBounds(ss, p, q);
  }

  /** No other non-instant row of the resource overlaps row `i`. */
  predicate Isolated(log: seq<Event>, resource: string, i: nat)
    requires i < |log|
  {
    forall o :: 0 <= o < |log| && o != i && log[o].resource == resource && !Instant(log, o) ==>
      log[o].end <= log[i].start || log[i].end <= log[o].start
  }

  /** A row the resource did not work on at the same time as any other keeps its whole duration. */
  lemma AdjustedLogIsolated(log: seq<Event>, resource: string, i: nat)
    requires StartsBeforeEnds(log, resource)
    requires i < |log| && log[i].resource == resource && Isolated(log, resource, i)
    ensures AdjustedLog(log, resource)[i] == log[i]
  {
    if !Instant(log, i) {
      var ss := SweptRecords(log, resource);
      SweptRecordsShape(log, resource);
      SweptRecordsPaired(log, resource);
      ShapedRowIsolated(log, resource, ss, i);
    } else {
      AdjustedLogFrame(log, resource, i);
    }
  }

  lemma ShapedRowIsolated(log: seq<Event>, resource: string, ss: seq<CustomRecord>, i: nat)
    requires Shaped(log, resource, ss) && Paired(ss)
    requires i < |log| && log[i].resource == resource && !Instant(log, i) && Isolated(log, resource, i)
    ensures EverOpen(ss, |ss|, i)
    ensures Accrued(ss, i, |ss|) == log[i].end - log[i].start
  {
    var p, q := ShapedPositions(log, resource, ss, i);
    ShapedIsolated(log, resource, ss, p, q, i);
    PairedEverOpen(ss, i);
    AccruedIsolated(ss, p, q);
  }

  lemma ShapedIsolated(log: seq<Event>, resource: string, ss: seq<CustomRecord>, p: nat, q: nat, i: nat)
    requires SweptSound(log, resource, ss) && Paired(ss)
    requires i < |log| && log[i].resource == resource && Isolated(log, resource, i)
    requires p < q < |ss| && ss[p] == StartRecord(log, i) && ss[q] == EndRecord(log, i)
    ensures IsolatedIn(ss, p, q)
  {
    forall j, l | 0 <= j < l < |ss| && ss[j].eventId == ss[l].eventId && ss[j].eventId != ss[p].eventId
      ensures ss[l].timestamp <= ss[p].timestamp || ss[q].timestamp <= ss[j].timestamp
    {
      assert ss[j] in ss && ss[l] in ss;
    }
  }

  // ------------------------------------------------- _update_end_timestamps

  /**
   * The log after the aux records are applied: every row with aux records
   * ends at its start plus the shares credited to it; the other rows are as
   * they were. Aux records for ids beyond the log change no row.
   */
  function UpdatedLog(log: seq<Event>, aux: seq<AuxRecord>): (r: seq<Event>)
    ensures |r| == |log|
  {
    seq(|log|, i requires 0 <= i < |log| =>
      if i in AuxIds(aux) then log[i].(end := log[i].start + ShareOf(aux, i)) else log[i])
  }

  function EventIdKey(a: AuxRecord): real {
    a.eventId as real
  }

  lemma AuxIdsBelow(aux: seq<AuxRecord>, bound: nat)
    requires forall j :: 0 <= j < |aux| ==> aux[j].eventId < bound
    ensures forall id :: id in AuxIds(aux) ==> id < bound
  {
    forall id | id in AuxIds(aux) ensures id < bound {
      var a :| a in aux && a.eventId == id;
      var j :| 0 <= j < |aux| && aux[j] == a;
    }
  }

  lemma AuxIdsAbove(aux: seq<AuxRecord>, bound: nat)
    requires forall j :: 0 <= j < |aux| ==> aux[j].eventId >= bound
    ensures forall id :: id in AuxIds(aux) ==> id >= bound
  {
    forall id | id in AuxIds(aux) ensures id >= bound {
      var a :| a in aux && a.eventId == id;
      var j :| 0 <= j < |aux| && aux[j] == a;
    }
  }

  /** Reordering the aux records changes nobody's share. */
  lemma {:induction false} ShareOfPermutation(a: seq<AuxRecord>, b: seq<AuxRecord>, id: nat)
    requires multiset(a) == multiset(b)
    ensures ShareOf(a, id) == ShareOf(b, id)
    decreases |a|
  {
    if a == [] {
      assert |multiset(b)| == 0;
    } else {
      assert a[0] in multiset(b);
      var m :| 0 <= m < |b| && b[m] == a[0];
      MultisetRemove(a, b, m);
      ShareOfPermutation(a[1..], b[..m] + b[m + 1..], id);
      ShareOfRemove(b, m, id);
    }
  }

  lemma MultisetRemove<T>(a: seq<T>, b: seq<T>, m: nat)
    requires multiset(a) == multiset(b) && a != [] && m < |b| && b[m] == a[0]
    ensures multiset(a[1..]) == multiset(b[..m] + b[m + 1..])
  {
    var rest := b[..m] + b[m + 1..];
    assert a == [a[0]] + a[1..];
    assert b == b[..m] + [b[m]] + b[m + 1..];
    assert multiset(b) == multiset(rest) + multiset{b[m]};
    assert multiset(a) == multiset(a[1..]) + multiset{a[0]};
    forall y ensures multiset(a[1..])[y] == multiset(rest)[y] {
      assert multiset(a)[y] == multiset(b)[y];
    }
  }

  lemma ShareOfRemove(b: seq<AuxRecord>, m: nat, id: nat)
    requires m < |b|
    ensures ShareOf(b, id) == ShareOf([b[m]], id) + ShareOf(b[..m] + b[m + 1..], id)
  {
    assert b == b[..m] + [b[m]] + b[m + 1..];
    ShareOfAppend(b[..m] + [b[m]], b[m + 1..], id);
    ShareOfAppend(b[..m], [b[m]], id);
    ShareOfAppend(b[..m], b[m + 1..], id);
  }

  lemma AuxIdsPermutation(a: seq<AuxRecord>, b: seq<AuxRecord>)
    requires multiset(a) == multiset(b)
    ensures AuxIds(a) == AuxIds(b)
  {
    forall x ensures x in a <==> x in b {
      assert x in a <==> x in multiset(a);
      assert x in b <==> x in multiset(b);
    }
  }

  /** Reordering the aux records does not change the updated log. */
  lemma UpdatedLogPermutation(log: seq<Event>, a: seq<AuxRecord>, b: seq<AuxRecord>)
    requires multiset(a) == multiset(b)
    ensures UpdatedLog(log, a) == UpdatedLog(log, b)
  {
    AuxIdsPermutation(a, b);
    forall i | 0 <= i < |log| ensures UpdatedLog(log, a)[i] == UpdatedLog(log, b)[i] {
      ShareOfPermutation(a, b, i);
    }
  }

  /** Aux records for ids beyond the log change no row. */
  lemma UpdatedLogBeyond(log: seq<Event>, a: seq<AuxRecord>, b: seq<AuxRecord>)
    requires forall j :: 0 <= j < |b| ==> b[j].eventId >= |log|
    ensures UpdatedLog(log, a + b) == UpdatedLog(log, a)
  {
    AuxIdsAbove(b, |log|);
    AuxIdsAppend(a, b);
    forall i | 0 <= i < |log| ensures UpdatedLog(log, a + b)[i] == UpdatedLog(log, a)[i] {
      ShareOfAppend(a, b, i);
      ShareOfAbsent(b, i);
    }
  }

  /** Applying one more group of records, all for the fresh id `e`, sets the end of row `e` alone. */
  lemma UpdatedLogGroup(log: seq<Event>, a: seq<AuxRecord>, g: seq<AuxRecord>, e: nat)
    requires e < |log| && e !in AuxIds(a) && g != []
    requires forall j :: 0 <= j < |g| ==> g[j].eventId == e
    ensures UpdatedLog(log, a + g) == UpdatedLog(log, a)[e := log[e].(end := log[e].start + ShareOf(g, e))]
  {
    AuxIdsAppend(a, g);
    assert g[0] in g;
    forall i | 0 <= i < |log|
      ensures UpdatedLog(log, a + g)[i] == UpdatedLog(log, a)[e := log[e].(end := log[e].start + ShareOf(g, e))][i]
    {
      ShareOfAppend(a, g, i);
      if i == e {
        ShareOfAbsent(a, e);
      } else {
        ShareOfAbsent(g, i);
      }
    }
  }

  /**
   * One group of `groupby` and its `sum`: the run of records from `k` on
   * that share the id of record `k`, and the total of their shares.
   */
  method SumGroup(records: seq<AuxRecord>, k: nat) returns (l: nat, duration: real)
    requires k < |records|
    ensures k < l <= |records|
    ensures forall j :: k <= j < l ==> records[j].eventId == records[k].eventId
    ensures l < |records| ==> records[l].eventId != records[k].eventId
    ensures duration == ShareOf(records[k..l], records[k].eventId)
  {
    var eventId := records[k].eventId;
    duration := 0.0;
    l := k;
    while l < |records| && records[l].eventId == eventId
      invariant k <= l <= |records|
      invariant forall j :: k <= j < l ==> records[j].eventId == eventId
      invariant duration == ShareOf(records[k..l], eventId)
    {
      assert records[k..l + 1] == records[k..l] + [records[l]];
      ShareOfAppend(records[k..l], [records[l]], eventId);
      duration := duration + records[l].adjusted;
      l := l + 1;
    }
  }

  /** A group of records for id `e`, applied after records with smaller ids only, sets the end of row `e`. */
  lemma GroupLog(log: seq<Event>, a: seq<AuxRecord>, g: seq<AuxRecord>, e: nat)
    requires e < |log| && g != []
    requires forall j :: 0 <= j < |a| ==> a[j].eventId < e
    requires forall j :: 0 <= j < |g| ==> g[j].eventId == e
    ensures UpdatedLog(log, a)[e] == log[e]
    ensures UpdatedLog(log, a + g) == UpdatedLog(log, a)[e := log[e].(end := log[e].start + ShareOf(g, e))]
  {
    AuxIdsBelow(a, e);
    UpdatedLogGroup(log, a, g, e);
  }

  /** After a group, the next group's id is larger than every id before it. */
  lemma GroupOrder(sorted: seq<AuxRecord>, k: nat, l: nat)
    requires SortedBy(sorted, EventIdKey) && k < l < |sorted|
    requires forall j :: 0 <= j < k ==> sorted[j].eventId < sorted[k].eventId
    requires forall j :: k <= j < l ==> sorted[j].eventId == sorted[k].eventId
    requires sorted[l].eventId != sorted[k].eventId
    ensures forall j :: 0 <= j < l ==> sorted[j].eventId < sorted[l].eventId
  {
    assert EventIdKey(sorted[l - 1]) <= EventIdKey(sorted[l]);
  }

  /** Once a group's id is not a row of the log, neither is any later one. */
  lemma GroupBeyond(log: seq<Event>, sorted: seq<AuxRecord>, k: nat)
    requires SortedBy(sorted, EventIdKey) && k < |sorted| && sorted[k].eventId >= |log|
    ensures UpdatedLog(log, sorted[..k]) == UpdatedLog(log, sorted)
  {
    forall j | 0 <= j < |sorted[k..]| ensures sorted[k..][j].eventId >= |log| {
      assert EventIdKey(sorted[k]) <= EventIdKey(sorted[k + j]);
    }
    assert sorted == sorted[..k] + sorted[k..];
    UpdatedLogBeyond(log, sorted[..k], sorted[k..]);
  }

  /** Applies one group: sets the end of the group's row to its start plus the group's total share. */
  method ApplyGroup(sorted: seq<AuxRecord>, k: nat, log: array<Event>) returns (l: nat, duration: real)
    requires k < |sorted| && sorted[k].eventId < log.Length
    modifies log
    ensures k < l <= |sorted|
    ensures forall j :: k <= j < l ==> sorted[j].eventId == sorted[k].eventId
    ensures l < |sorted| ==> sorted[l].eventId != sorted[k].eventId
    ensures duration == ShareOf(sorted[k..l], sorted[k].eventId)
    ensures var e := sorted[k].eventId;
      log[..] == old(log[..])[e := old(log[..])[e].(end := old(log[..])[e].start + ShareOf(sorted[k..l], e))]
  {
    var eventId := sorted[k].eventId;
    l, duration := SumGroup(sorted, k);
    var event := log[eventId];
    log[eventId] := event.(end := event.start + duration);
  }

  /**
   * The state of _update_end_timestamps after the groups before position `k`
   * of the sorted records: `cur` is the log with exactly those applied.
   */
  ghost predicate Grouped(log: seq<Event>, sorted: seq<AuxRecord>, k: nat, cur: seq<Event>) {
    && SortedBy(sorted, EventIdKey)
    && k <= |sorted|
    && cur == UpdatedLog(log, sorted[..k])
    && (k < |sorted| ==> forall j :: 0 <= j < k ==> sorted[j].eventId < sorted[k].eventId)
    && (forall j :: 0 <= j < k ==> sorted[j].eventId < |log|)
  }

  lemma GroupedStart(log: seq<Event>, sorted: seq<AuxRecord>)
    requires SortedBy(sorted, EventIdKey)
    ensures Grouped(log, sorted, 0, log)
  {
    assert sorted[..0] == [];
    assert AuxIds([]) == {};
  }

  lemma GroupedAdvance(log: seq<Event>, sorted: seq<AuxRecord>, k: nat, l: nat, before: seq<Event>, after: seq<Event>)
    requires Grouped(log, sorted, k, before)
    requires k < l <= |sorted| && sorted[k].eventId < |log|
    requires forall j :: k <= j < l ==> sorted[j].eventId == sorted[k].eventId
    requires l < |sorted| ==> sorted[l].eventId != sorted[k].eventId
    requires var e := sorted[k].eventId;
      after == before[e := before[e].(end := before[e].start + ShareOf(sorted[k..l], e))]
    ensures Grouped(log, sorted, l, after)
  {
    assert sorted[..l] == sorted[..k] + sorted[k..l];
    GroupLog(log, sorted[..k], sorted[k..l], sorted[k].eventId);
    if l < |sorted| {
      GroupOrder(sorted, k, l);
    }
  }

  /** A group whose id is not a row of the log: KeyError, with every row it could have changed already as it ends. */
  lemma GroupedMissing(log: seq<Event>, sorted: seq<AuxRecord>, k: nat, cur: seq<Event>)
    requires Grouped(log, sorted, k, cur) && k < |sorted| && sorted[k].eventId >= |log|
    ensures cur == UpdatedLog(log, sorted)
  {
    GroupBeyond(log, sorted, k);
  }

  lemma GroupedAll(log: seq<Event>, sorted: seq<AuxRecord>, cur: seq<Event>)
    requires Grouped(log, sorted, |sorted|, cur)
    ensures cur == UpdatedLog(log, sorted)
    ensures forall j :: 0 <= j < |sorted| ==> sorted[j].eventId < |log|
  {
    assert sorted[..|sorted|] == sorted;
  }

  /** The groups of records sorted by event id applied one after another, up to the first id that is not a row. */
  method ApplyGroups(sorted: seq<AuxRecord>, log: array<Event>) returns (r: Result<()>)
    requires SortedBy(sorted, EventIdKey)
    modifies log
    ensures r.Ok? <==> forall j :: 0 <= j < |sorted| ==> sorted[j].eventId < log.Length
    ensures r.Err? ==> r.error == KeyError
    ensures log[..] == UpdatedLog(old(log[..]), sorted)
  {
    ghost var log0 := log[..];
    GroupedStart(log0, sorted);
    var k := 0;
    while k < |sorted|
      invariant Grouped(log0, sorted, k, log[..])
    {
      if sorted[k].eventId >= log.Length {
        GroupedMissing(log0, sorted, k, log[..]);
        return Err(KeyError);
      }
      ghost var before := log[..];
      var l, duration := ApplyGroup(sorted, k, log);
      GroupedAdvance(log0, sorted, k, l, before, log[..]);
      k := l;
    }
    GroupedAll(log0, sorted, log[..]);
    return Ok(());
  }

  /** `sorted(records, key=lambda record: record.event_id)`: the same records, ordered by event id. */
  method SortByEventId(records: seq<AuxRecord>) returns (sorted: seq<AuxRecord>)
    ensures multiset(sorted) == multiset(records)
    ensures SortedBy(sorted, EventIdKey)
  {
    sorted := Sort(records, EventIdKey);
  }

  /** Reordering the aux records changes neither the result of applying them nor whether every id is a row. */
  lemma SortedLikeRecords(log: seq<Event>, records: seq<AuxRecord>, sorted: seq<AuxRecord>)
    requires multiset(sorted) == multiset(records)
    ensures UpdatedLog(log, sorted) == UpdatedLog(log, records)
    ensures (forall j :: 0 <= j < |sorted| ==> sorted[j].eventId < |log|) <==>
            (forall j :: 0 <= j < |records| ==> records[j].eventId < |log|)
  {
    UpdatedLogPermutation(log, sorted, records);
    forall j | 0 <= j < |records| ensures records[j] in multiset(sorted) {
      assert records[j] in multiset(records);
    }
    forall j | 0 <= j < |sorted| ensures sorted[j] in multiset(records) {
      assert sorted[j] in multiset(sorted);
    }
  }

  /**
   * _update_end_timestamps: sorts the aux records by event id, sums the
   * shares of every run of equal ids and sets that row's end to its start
   * plus the sum. A run whose id is not a row of the log raises KeyError
   * after the runs before it have been applied.
   */
  method UpdateEndTimestamps(records: seq<AuxRecord>, log: array<Event>) returns (r: Result<()>)
    modifies log
    ensures r.Ok? <==> forall j :: 0 <= j < |records| ==> records[j].eventId < log.Length
    ensures r.Err? ==> r.error == KeyError
    ensures log[..] == UpdatedLog(old(log[..]), records)
  {
    var sorted := SortByEventId(records);
    SortedLikeRecords(log[..], records, sorted);
    r := ApplyGroups(sorted, log);
  }

  // ------------------------------------------- one resource, end to end

  /** An event the sweep ever saw open has a record among the first `n`. */
  lemma {:induction false} EverOpenHasRecord(rs: seq<CustomRecord>, n: nat, id: nat) returns (j: nat)
    requires n <= |rs| && EverOpen(rs, n, id)
    ensures j < n && rs[j].eventId == id
  {
    if EverOpen(rs, n - 1, id) {
      j := EverOpenHasRecord(rs, n - 1, id);
    } else {
      OpenHasRecord(rs, n - 1, id);
      j :| 0 <= j < n - 1 && rs[j].eventId == id;
    }
  }

  /**
   * The aux log of a resource, applied to the log, gives the adjusted log;
   * and every id in it is a row of that resource.
   */
  lemma AuxLogAdjusts(log: seq<Event>, resource: string, aux: seq<AuxRecord>)
    requires var ss := SweptRecords(log, resource);
      && (forall id :: ShareOf(aux, id) == Accrued(ss, id, |ss|))
      && (forall id :: id in AuxIds(aux) <==> EverOpen(ss, |ss|, id))
    ensures UpdatedLog(log, aux) == AdjustedLog(log, resource)
    ensures forall j :: 0 <= j < |aux| ==> aux[j].eventId < |log| && log[aux[j].eventId].resource == resource
  {
    SweptRecordsShape(log, resource);
    AuxLogCredits(log, resource, SweptRecords(log, resource), aux);
  }

  lemma AuxLogCredits(log: seq<Event>, resource: string, ss: seq<CustomRecord>, aux: seq<AuxRecord>)
    requires SweptSound(log, resource, ss)
    requires forall id :: ShareOf(aux, id) == Accrued(ss, id, |ss|)
    requires forall id :: id in AuxIds(aux) <==> EverOpen(ss, |ss|, id)
    ensures UpdatedLog(log, aux) == Credited(log, ss)
    ensures forall j :: 0 <= j < |aux| ==> aux[j].eventId < |log| && log[aux[j].eventId].resource == resource
  {
    forall j | 0 <= j < |aux| ensures aux[j].eventId < |log| && log[aux[j].eventId].resource == resource {
      assert aux[j] in aux;
      var m := EverOpenHasRecord(ss, |ss|, aux[j].eventId);
      assert ss[m] in ss;
    }
    forall i | 0 <= i < |log| ensures UpdatedLog(log, aux)[i] == Credited(log, ss)[i] {
      assert i in AuxIds(aux) <==> EverOpen(ss, |ss|, i);
      assert ShareOf(aux, i) == Accrued(ss, i, |ss|);
    }
  }

  /**
   * _make_aux_log: the aux log of one resource, computed from the log as it
   * is; KeyError exactly when a row of the resource ends before it starts.
   */
  method MakeAuxLog(log: array<Event>, resource: string) returns (r: Result<seq<AuxRecord>>)
    ensures r.Ok? <==> StartsBeforeEnds(log[..], resource)
    ensures r.Err? ==> r.error == KeyError
    ensures r.Ok? ==> UpdatedLog(log[..], r.value) == AdjustedLog(log[..], resource)
    ensures r.Ok? ==> forall j :: 0 <= j < |r.value| ==>
      r.value[j].eventId < log.Length && log[r.value[j].eventId].resource == resource
  {
    var resourceEvents := ResourceRows(log[..], resource);
    var data := MakeCustomRecords(log, resourceEvents);
    SweepSucceedsIff(log[..], resource);
    r := MakeAuxiliaryLog(data);
    if r.Ok? {
      AuxLogAdjusts(log[..], resource, r.value);
    }
  }

  /**
   * _adjust_duration_for_resource: the resource's aux log applied to the log
   * in place. When a row of the resource ends before it starts the sweep
   * raises KeyError and the log is left as it was.
   */
  method AdjustDurationForResource(log: array<Event>, resource: string) returns (r: Result<()>)
    modifies log
    ensures r.Ok? <==> StartsBeforeEnds(old(log[..]), resource)
    ensures r.Err? ==> r.error == KeyError && log[..] == old(log[..])
    ensures r.Ok? ==> log[..] == AdjustedLog(old(log[..]), resource)
  {
    var resourceEvents := ResourceRows(log[..], resource);
    var data := MakeCustomRecords(log, resourceEvents);
    SweepSucceedsIff(log[..], resource);
    var auxLog :- MakeAuxiliaryLog(data);
    AuxLogAdjusts(log[..], resource, auxLog);
    r := UpdateEndTimestamps(auxLog, log);
  }

  // ------------------------------------------------------- adjust_durations

  /** The resources the rows of the log name. */
  function Resources(log: seq<Event>): set<string> {
    set i | 0 <= i < |log| :: log[i].resource
  }

  /** `log[resource].unique()`: every resource of the log once, in order of first appearance. */
  function UniqueResources(log: seq<Event>): (r: seq<string>)
    ensures forall a, b :: 0 <= a < b < |r| ==> r[a] != r[b]
    ensures forall i :: 0 <= i < |log| ==> log[i].resource in r
    ensures forall k :: 0 <= k < |r| ==> r[k] in Resources(log)
  {
    if log == [] then []
    else
      var last := |log| - 1;
      var front := UniqueResources(log[..last]);
      assert forall i :: 0 <= i < last ==> log[..last][i] == log[i];
      if log[last].resource in front then front else front + [log[last].resource]
  }

  /**
   * UniqueResources keeps the order of first appearance: every row of a
   * resource listed later is preceded by a row of each resource listed earlier.
   */
  lemma {:induction false} UniqueResourcesOrder(log: seq<Event>, a: nat, b: nat, i: nat) returns (j: nat)
    requires a < b < |UniqueResources(log)|
    requires i < |log| && log[i].resource == UniqueResources(log)[b]
    ensures j < i && log[j].resource == UniqueResources(log)[a]
  {
    var last := |log| - 1;
    var prefix := log[..last];
    var front := UniqueResources(prefix);
    assert front[a] in Resources(prefix);
    var k :| 0 <= k < last && prefix[k].resource == front[a];
    if b < |front| {
      if i < last {
        assert prefix[i] == log[i];
        j := UniqueResourcesOrder(prefix, a, b, i);
        assert prefix[j] == log[j];
      } else {
        assert front[b] in Resources(prefix);
        var m :| 0 <= m < last && prefix[m].resource == front[b];
        j := UniqueResourcesOrder(prefix, a, b, m);
        assert prefix[j] == log[j];
      }
    } else {
      assert forall m :: 0 <= m < last ==> prefix[m] == log[m];
      j := k;
      assert prefix[k] == log[k];
    }
  }

  /** No row of the log ends before it starts. */
  predicate NoneEndsBeforeStart(log: seq<Event>) {
    forall i :: 0 <= i < |log| ==> log[i].start <= log[i].end
  }

  /** The log after adjust_durations: every row adjusted as its own resource's sweep says. */
  function FullyAdjusted(log: seq<Event>): (r: seq<Event>)
    ensures |r| == |log|
  {
    seq(|log|, i requires 0 <= i < |log| => AdjustedLog(log, log[i].resource)[i])
  }

  /** The log with the resources in `done` adjusted and the others as they were. */
  function PartlyAdjusted(log: seq<Event>, done: set<string>): (r: seq<Event>)
    ensures |r| == |log|
  {
    seq(|log|, i requires 0 <= i < |log| => if log[i].resource in done then AdjustedLog(log, log[i].resource)[i] else log[i])
  }

  /** `a` and `b` have the same resources row by row, and the same rows of `resource`. */
  predicate SameOn(a: seq<Event>, b: seq<Event>, resource: string) {
    && |a| == |b|
    && (forall i :: 0 <= i < |a| ==> a[i].resource == b[i].resource)
    && (forall i :: 0 <= i < |a| && a[i].resource == resource ==> a[i] == b[i])
  }

  lemma {:induction false} ResourceRowsSame(a: seq<Event>, b: seq<Event>, resource: string)
    requires |a| == |b| && forall i :: 0 <= i < |a| ==> a[i].resource == b[i].resource
    ensures ResourceRows(a, resource) == ResourceRows(b, resource)
  {
    if a != [] {
      var last := |a| - 1;
      ResourceRowsSame(a[..last], b[..last], resource);
    }
  }

  lemma {:induction false} CustomRecordsSame(a: seq<Event>, b: seq<Event>, rows: seq<nat>)
    requires |a| == |b| && RowsOf(a, rows)
    requires forall k :: 0 <= k < |rows| ==> a[rows[k]] == b[rows[k]]
    ensures CustomRecords(a, rows) == CustomRecords(b, rows)
  {
    if rows != [] {
      CustomRecordsSame(a, b, rows[..|rows| - 1]);
    }
  }

  /** A resource's sweep reads nothing but the resource's own rows. */
  lemma SweptRecordsSame(a: seq<Event>, b: seq<Event>, resource: string)
    requires SameOn(a, b, resource)
    ensures SweptRecords(a, resource) == SweptRecords(b, resource)
    ensures StartsBeforeEnds(a, resource) <==> StartsBeforeEnds(b, resource)
  {
    ResourceRowsSame(a, b, resource);
    CustomRecordsSame(a, b, ResourceRows(a, resource));
  }

  /** Adjusting a resource on a log that agrees on the resource's rows changes those rows alike and no others. */
  lemma AdjustedLogSame(a: seq<Event>, b: seq<Event>, resource: string, i: nat)
    requires SameOn(a, b, resource) && i < |a|
    ensures AdjustedLog(b, resource)[i] == if a[i].resource == resource then AdjustedLog(a, resource)[i] else b[i]
  {
    var ss := SweptRecords(a, resource);
    SweptRecordsSame(a, b, resource);
    SweptRecordsShape(b, resource);
    CreditedSame(a, b, resource, ss, i);
  }

  lemma CreditedSame(a: seq<Event>, b: seq<Event>, resource: string, ss: seq<CustomRecord>, i: nat)
    requires SameOn(a, b, resource) && SweptSound(b, resource, ss) && i < |a|
    ensures Credited(b, ss)[i] == if a[i].resource == resource then Credited(a, ss)[i] else b[i]
  {
    if a[i].resource != resource {
      CreditedFrame(b, resource, ss, i);
    }
  }

  lemma PartlySame(log: seq<Event>, done: set<string>, resource: string)
    requires resource !in done
    ensures SameOn(log, PartlyAdjusted(log, done), resource)
  {
    forall i | 0 <= i < |log| ensures PartlyAdjusted(log, done)[i].resource == log[i].resource {
      AdjustedLogFrame(log, log[i].resource, i);
    }
  }

  /** Adjusting one more resource on the partly adjusted log is adjusting it on the original. */
  lemma PartlyStep(log: seq<Event>, done: set<string>, resource: string)
    requires resource !in done
    ensures AdjustedLog(PartlyAdjusted(log, done), resource) == PartlyAdjusted(log, done + {resource})
    ensures StartsBeforeEnds(PartlyAdjusted(log, done), resource) <==> StartsBeforeEnds(log, resource)
  {
    var cur := PartlyAdjusted(log, done);
    PartlySame(log, done, resource);
    SweptRecordsSame(log, cur, resource);
    forall i | 0 <= i < |log| ensures AdjustedLog(cur, resource)[i] == PartlyAdjusted(log, done + {resource})[i] {
      PartlyStepAt(log, done, resource, i);
    }
  }

  lemma PartlyStepAt(log: seq<Event>, done: set<string>, resource: string, i: nat)
    requires resource !in done && i < |log|
    requires SameOn(log, PartlyAdjusted(log, done), resource)
    ensures AdjustedLog(PartlyAdjusted(log, done), resource)[i] == PartlyAdjusted(log, done + {resource})[i]
  {
    AdjustedLogSame(log, PartlyAdjusted(log, done), resource, i);
  }

  lemma PartlyAll(log: seq<Event>, done: set<string>)
    requires forall i :: 0 <= i < |log| ==> log[i].resource in done
    ensures PartlyAdjusted(log, done) == FullyAdjusted(log)
  {
  }

  /**
   * The sequential run stopped at resources[t]: the resources before it
   * were swept without error and stay adjusted, resources[t] raised, and
   * the later ones were never visited.
   */
  predicate StoppedAt(log0: seq<Event>, log: seq<Event>, resources: seq<string>, t: int) {
    && 0 <= t < |resources|
    && (forall u :: 0 <= u < t ==> StartsBeforeEnds(log0, resources[u]))
    && !StartsBeforeEnds(log0, resources[t])
    && log == PartlyAdjusted(log0, set u | 0 <= u < t :: resources[u])
  }

  /** The sequential branch of adjust_durations: one resource after another, in place. */
  method AdjustSequentially(log: array<Event>, resources: seq<string>) returns (r: Result<()>)
    requires forall a, b :: 0 <= a < b < |resources| ==> resources[a] != resources[b]
    requires forall i :: 0 <= i < log.Length ==> log[i].resource in resources
    modifies log
    ensures r.Ok? <==> NoneEndsBeforeStart(old(log[..]))
    ensures r.Err? ==> r.error == KeyError
    ensures r.Err? ==> exists t :: StoppedAt(old(log[..]), log[..], resources, t)
    ensures r.Ok? ==> log[..] == FullyAdjusted(old(log[..]))
  {
    ghost var log0 := log[..];
    ghost var done: set<string> := {};
    for t := 0 to |resources|
      invariant done == set u | 0 <= u < t :: resources[u]
      invariant log[..] == PartlyAdjusted(log0, done)
      invariant forall u :: 0 <= u < t ==> StartsBeforeEnds(log0, resources[u])
    {
      var resource := resources[t];
      PartlyStep(log0, done, resource);
      var step := AdjustDurationForResource(log, resource);
      if step.Err? {
        assert StoppedAt(log0, log[..], resources, t);
        return Err(KeyError);
      }
      done := done + {resource};
    }
    PartlyAll(log0, done);
    return Ok(());
  }

  lemma AuxIdRecord(aux: seq<AuxRecord>, id: nat) returns (j: nat)
    requires id in AuxIds(aux)
    ensures j < |aux| && aux[j].eventId == id
  {
    var a :| a in aux && a.eventId == id;
    j :| 0 <= j < |aux| && aux[j] == a;
  }

  /**
   * Every aux record collected so far is for a row of a finished resource,
   * and applying them gives the log with those resources adjusted.
   */
  ghost predicate Collected(log: seq<Event>, done: set<string>, aux: seq<AuxRecord>) {
    && (forall j :: 0 <= j < |aux| ==> aux[j].eventId < |log| && log[aux[j].eventId].resource in done)
    && UpdatedLog(log, aux) == PartlyAdjusted(log, done)
  }

  /** Appending one more resource's aux log to those of other resources. */
  lemma CollectedStep(log: seq<Event>, done: set<string>, aux: seq<AuxRecord>, resource: string, more: seq<AuxRecord>)
    requires Collected(log, done, aux) && resource !in done
    requires forall j :: 0 <= j < |more| ==> more[j].eventId < |log| && log[more[j].eventId].resource == resource
    requires UpdatedLog(log, more) == AdjustedLog(log, resource)
    ensures Collected(log, done + {resource}, aux + more)
  {
    AuxIdsAppend(aux, more);
    forall i | 0 <= i < |log| ensures UpdatedLog(log, aux + more)[i] == PartlyAdjusted(log, done + {resource})[i] {
      CollectedAt(log, done, aux, resource, more, i);
    }
  }

  lemma CollectedAt(log: seq<Event>, done: set<string>, aux: seq<AuxRecord>, resource: string, more: seq<AuxRecord>, i: nat)
    requires Collected(log, done, aux) && resource !in done && i < |log|
    requires forall j :: 0 <= j < |more| ==> more[j].eventId < |log| && log[more[j].eventId].resource == resource
    requires UpdatedLog(log, more) == AdjustedLog(log, resource)
    requires AuxIds(aux + more) == AuxIds(aux) + AuxIds(more)
    ensures UpdatedLog(log, aux + more)[i] == PartlyAdjusted(log, done + {resource})[i]
  {
    ShareOfAppend(aux, more, i);
    if log[i].resource == resource {
      if i in AuxIds(aux) {
        var j := AuxIdRecord(aux, i);
      }
      ShareOfAbsent(aux, i);
      assert UpdatedLog(log, more)[i] == AdjustedLog(log, resource)[i];
    } else {
      if i in AuxIds(more) {
        var j := AuxIdRecord(more, i);
      }
      ShareOfAbsent(more, i);
      assert UpdatedLog(log, aux)[i] == PartlyAdjusted(log, done)[i];
    }
  }

  /** The aux logs of the given resources, each computed from the log as it is, one after another. */
  method CollectAuxLogs(log: array<Event>, resources: seq<string>) returns (r: Result<seq<AuxRecord>>)
    requires forall a, b :: 0 <= a < b < |resources| ==> resources[a] != resources[b]
    ensures r.Ok? <==> forall u :: 0 <= u < |resources| ==> StartsBeforeEnds(log[..], resources[u])
    ensures r.Err? ==> r.error == KeyError
    ensures r.Ok? ==> Collected(log[..], set u | 0 <= u < |resources| :: resources[u], r.value)
  {
    ghost var done: set<string> := {};
    var auxLog: seq<AuxRecord> := [];
    assert UpdatedLog(log[..], []) == PartlyAdjusted(log[..], {});
    for t := 0 to |resources|
      invariant done == set u | 0 <= u < t :: resources[u]
      invariant Collected(log[..], done, auxLog)
      invariant forall u :: 0 <= u < t ==> StartsBeforeEnds(log[..], resources[u])
    {
      var auxRecords :- MakeAuxLog(log, resources[t]);
      CollectedStep(log[..], done, auxLog, resources[t], auxRecords);
      auxLog := auxLog + auxRecords;
      done := done + {resources[t]};
    }
    return Ok(auxLog);
  }

  /** With every resource's aux log collected, applying them all adjusts the whole log. */
  lemma CollectedAll(log: seq<Event>, resources: seq<string>, aux: seq<AuxRecord>)
    requires forall i :: 0 <= i < |log| ==> log[i].resource in resources
    requires Collected(log, set u | 0 <= u < |resources| :: resources[u], aux)
    ensures forall j :: 0 <= j < |aux| ==> aux[j].eventId < |log|
    ensures UpdatedLog(log, aux) == FullyAdjusted(log)
  {
    PartlyAll(log, set u | 0 <= u < |resources| :: resources[u]);
  }

  /**
   * The concurrent branch of adjust_durations: the aux logs of all resources
   * are computed from the log as it is, then applied together. A resource
   * whose sweep raises KeyError leaves the log as it was.
   */
  method AdjustConcurrently(log: array<Event>, resources: seq<string>) returns (r: Result<()>)
    requires forall a, b :: 0 <= a < b < |resources| ==> resources[a] != resources[b]
    requires forall i :: 0 <= i < log.Length ==> log[i].resource in resources
    modifies log
    ensures r.Ok? <==> NoneEndsBeforeStart(old(log[..]))
    ensures r.Err? ==> r.error == KeyError && log[..] == old(log[..])
    ensures r.Ok? ==> log[..] == FullyAdjusted(old(log[..]))
  {
    var auxLog :- CollectAuxLogs(log, resources);
    CollectedAll(log[..], resources, auxLog);
    r := UpdateEndTimestamps(auxLog, log);
  }

  /**
   * adjust_durations: every resource of the log, one after another or
   * concurrently, gets its events' end timestamps adjusted; both ways give
   * the same log. KeyError exactly when some row ends before it starts.
   */
  method AdjustDurations(log: array<Event>, isConcurrent: bool) returns (r: Result<()>)
    modifies log
    ensures r.Ok? <==> NoneEndsBeforeStart(old(log[..]))
    ensures r.Err? ==> r.error == KeyError
    ensures r.Err? && isConcurrent ==> log[..] == old(log[..])
    ensures r.Err? && !isConcurrent ==> exists t :: StoppedAt(old(log[..]), log[..], UniqueResources(old(log[..])), t)
    ensures r.Ok? ==> log[..] == FullyAdjusted(old(log[..]))
  {
    var resources := UniqueResources(log[..]);
    if !isConcurrent {
      r := AdjustSequentially(log, resources);
    } else {
      r := AdjustConcurrently(log, resources);
    }
  }
}
