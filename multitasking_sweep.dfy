/*
 * The sweep line of src/simod/multitasking/multitasking.py (_make_auxiliary_log):
 * the START/END records of one resource are visited in time order, and every
 * elapsed slice of time is split equally among the events open during it.
 *
 * Beside the method that does the sweep, this module gives a declarative
 * account of what the sweep computes: which events are open after the first
 * k records (IsOpen, OpenIds), what each event accrues (Accrued) and how long
 * the resource is busy (Busy). The method is proved to produce exactly that,
 * and the lemmas at the end prove what the adjustment promises about it.
 */
module MultitaskingSweep {
  import opened Python
  import opened Sorting

  datatype Lifecycle = Start | End

  /** _CustomLogRecord: one end point of an event, keyed by the event's row id. */
  datatype CustomRecord = CustomRecord(eventId: nat, timestamp: real, lifecycle: Lifecycle, resource: string)

  /** _AuxiliaryLogRecord: one share of elapsed time credited to an event. */
  datatype AuxRecord = AuxRecord(eventId: nat, timestamp: real, adjusted: real)

  function TimestampKey(r: CustomRecord): real {
    r.timestamp
  }

  // --------------------------------------------------------- declarative view

  /** Whether event `id` is open after the first k records: its last record among them is a START. */
  predicate IsOpen(rs: seq<CustomRecord>, k: nat, id: nat)
    requires k <= |rs|
  {
    k > 0 && if rs[k - 1].eventId == id then rs[k - 1].lifecycle == Start else IsOpen(rs, k - 1, id)
  }

  lemma {:induction false} OpenHasRecord(rs: seq<CustomRecord>, k: nat, id: nat)
    requires k <= |rs| && IsOpen(rs, k, id)
    ensures exists j :: 0 <= j < k && rs[j].eventId == id
  {
    if rs[k - 1].eventId != id {
      OpenHasRecord(rs, k - 1, id);
    }
  }

  /** The events open after the first k records. */
  function OpenIds(rs: seq<CustomRecord>, k: nat): set<nat>
    requires k <= |rs|
  {
    set j | 0 <= j < k && IsOpen(rs, k, rs[j].eventId) :: rs[j].eventId
  }

  lemma OpenIdsMembers(rs: seq<CustomRecord>, k: nat, id: nat)
    requires k <= |rs|
    ensures id in OpenIds(rs, k) <==> IsOpen(rs, k, id)
  {
    if IsOpen(rs, k, id) {
      OpenHasRecord(rs, k, id);
      var j :| 0 <= j < k && rs[j].eventId == id;
      assert rs[j].eventId in OpenIds(rs, k);
    }
  }

  /** Time elapsed when the sweep reaches record k (the sweep starts from time 0). */
  function Gap(rs: seq<CustomRecord>, k: nat): real
    requires k < |rs|
  {
    rs[k].timestamp - if k == 0 then 0.0 else rs[k - 1].timestamp
  }

  /** The time credited to event `id` by the first n steps: each step's elapsed time split equally among the open events. */
  function Accrued(rs: seq<CustomRecord>, id: nat, n: nat): real
    requires n <= |rs|
  {
    if n == 0 then 0.0 else Accrued(rs, id, n - 1) + Share(rs, n - 1, id)
  }

  /** What step k credits to event `id`: an equal part of the elapsed time if the event is open, else nothing. */
  function Share(rs: seq<CustomRecord>, k: nat, id: nat): real
    requires k < |rs|
  {
    if IsOpen(rs, k, id) then OpenIdsMembers(rs, k, id); Gap(rs, k) / (|OpenIds(rs, k)| as real) else 0.0
  }

  /** The time, within the first n steps, during which at least one event is open. */
  function Busy(rs: seq<CustomRecord>, n: nat): real
    requires n <= |rs|
  {
    if n == 0 then 0.0
    else Busy(rs, n - 1) + if OpenIds(rs, n - 1) != {} then Gap(rs, n - 1) else 0.0
  }

  /** Whether event `id` was open before some of the first n steps (and so was credited a share there). */
  predicate EverOpen(rs: seq<CustomRecord>, n: nat, id: nat)
    requires n <= |rs|
  {
    n > 0 && (EverOpen(rs, n - 1, id) || IsOpen(rs, n - 1, id))
  }

  /** Every END record closes an open event (otherwise `del active_set[...]` raises KeyError). */
  predicate NoOrphanEnd(rs: seq<CustomRecord>) {
    forall k :: 0 <= k < |rs| && rs[k].lifecycle == End ==> IsOpen(rs, k, rs[k].eventId)
  }

  // ------------------------------------------------ the active set (a dict)

  predicate DistinctIds(active: seq<CustomRecord>) {
    forall i, j :: 0 <= i < j < |active| ==> active[i].eventId != active[j].eventId
  }

  function Ids(active: seq<CustomRecord>): set<nat> {
    set a | a in active :: a.eventId
  }

  lemma IdsCons(a: CustomRecord, s: seq<CustomRecord>)
    ensures Ids([a] + s) == {a.eventId} + Ids(s)
  {
    assert forall x :: x in [a] + s <==> x == a || x in s;
  }

  /** A dict with a new first entry has distinct keys exactly when the key is new and the rest are distinct. */
  lemma DistinctCons(a: CustomRecord, s: seq<CustomRecord>)
    ensures DistinctIds([a] + s) <==> a.eventId !in Ids(s) && DistinctIds(s)
  {
    var t := [a] + s;
    assert forall i :: 0 <= i < |s| ==> t[i + 1] == s[i];
    if a.eventId in Ids(s) {
      var b :| b in s && b.eventId == a.eventId;
      var i :| 0 <= i < |s| && s[i] == b;
      assert t[0].eventId == t[i + 1].eventId;
    }
    if DistinctIds(t) {
      forall i, j | 0 <= i < j < |s| ensures s[i].eventId != s[j].eventId {
        assert t[i + 1].eventId != t[j + 1].eventId;
      }
    }
    if a.eventId !in Ids(s) && DistinctIds(s) {
      forall i, j | 0 <= i < j < |t| ensures t[i].eventId != t[j].eventId {
        if i == 0 {
          assert t[j] == s[j - 1] && s[j - 1] in s;
        } else {
          assert t[i] == s[i - 1] && t[j] == s[j - 1];
        }
      }
    }
  }

  /** `active_set[x.eventId] = x`: an existing entry is overwritten where it stands, a new one goes last. */
  function Put(active: seq<CustomRecord>, x: CustomRecord): (r: seq<CustomRecord>)
    ensures Ids(r) == Ids(active) + {x.eventId}
    ensures DistinctIds(active) ==> DistinctIds(r)
  {
    if active == [] then
      IdsCons(x, []);
      [x]
    else
      var head, tail := active[0], active[1..];
      assert active == [head] + tail;
      IdsCons(head, tail);
      DistinctCons(head, tail);
      if head.eventId == x.eventId then
        IdsCons(x, tail);
        DistinctCons(x, tail);
        [x] + tail
      else
        var rest := Put(tail, x);
        IdsCons(head, rest);
        DistinctCons(head, rest);
        [head] + rest
  }

  /** `del active_set[id]` on an id that is present. */
  function Delete(active: seq<CustomRecord>, id: nat): (r: seq<CustomRecord>)
    requires DistinctIds(active)
    ensures Ids(r) == Ids(active) - {id}
    ensures DistinctIds(r)
  {
    if active == [] then []
    else
      var head, tail := active[0], active[1..];
      assert active == [head] + tail;
      IdsCons(head, tail);
      DistinctCons(head, tail);
      if head.eventId == id then tail
      else
        var rest := Delete(tail, id);
        IdsCons(head, rest);
        DistinctCons(head, rest);
        [head] + rest
  }

  lemma {:induction false} DistinctCard(active: seq<CustomRecord>)
    requires DistinctIds(active)
    ensures |Ids(active)| == |active|
  {
    if active != [] {
      IdsCons(active[0], active[1..]);
      DistinctCons(active[0], active[1..]);
      assert active == [active[0]] + active[1..];
      DistinctCard(active[1..]);
    }
  }

  // ----------------------------------------------------------- the aux log

  /** The aux records one step emits: one per open event, in the dict's order, each with the same share. */
  function Emissions(active: seq<CustomRecord>, share: real): (r: seq<AuxRecord>)
    ensures |r| == |active|
    ensures forall i :: 0 <= i < |r| ==> r[i] == AuxRecord(active[i].eventId, active[i].timestamp, share)
  {
    if active == [] then []
    else [AuxRecord(active[0].eventId, active[0].timestamp, share)] + Emissions(active[1..], share)
  }

  /** The total time credited to `id` by the aux records. */
  function ShareOf(aux: seq<AuxRecord>, id: nat): real {
    if aux == [] then 0.0
    else (if aux[0].eventId == id then aux[0].adjusted else 0.0) + ShareOf(aux[1..], id)
  }

  function Total(aux: seq<AuxRecord>): real {
    if aux == [] then 0.0 else aux[0].adjusted + Total(aux[1..])
  }

  function AuxIds(aux: seq<AuxRecord>): set<nat> {
    set a | a in aux :: a.eventId
  }

  lemma {:induction false} ShareOfAppend(a: seq<AuxRecord>, b: seq<AuxRecord>, id: nat)
    ensures ShareOf(a + b, id) == ShareOf(a, id) + ShareOf(b, id)
  {
    if a != [] {
      assert (a + b)[0] == a[0];
      assert (a + b)[1..] == a[1..] + b;
      ShareOfAppend(a[1..], b, id);
    } else {
      assert a + b == b;
    }
  }

  lemma {:induction false} TotalAppend(a: seq<AuxRecord>, b: seq<AuxRecord>)
    ensures Total(a + b) == Total(a) + Total(b)
  {
    if a != [] {
      assert (a + b)[0] == a[0];
      assert (a + b)[1..] == a[1..] + b;
      TotalAppend(a[1..], b);
    } else {
      assert a + b == b;
    }
  }

  /** An event credited nothing by the aux records has no record there. */
  lemma {:induction false} ShareOfAbsent(aux: seq<AuxRecord>, id: nat)
    requires id !in AuxIds(aux)
    ensures ShareOf(aux, id) == 0.0
  {
    if aux != [] {
      assert aux[0] in aux;
      assert AuxIds(aux[1..]) <= AuxIds(aux) by {
        forall x | x in AuxIds(aux[1..]) ensures x in AuxIds(aux) {
          var a :| a in aux[1..] && a.eventId == x;
          assert a in aux;
        }
      }
      ShareOfAbsent(aux[1..], id);
    }
  }

  /** With distinct ids, a step credits its share exactly once to every open event and nothing to the others. */
  lemma {:induction false} EmissionsShareOf(active: seq<CustomRecord>, share: real, id: nat)
    requires DistinctIds(active)
    ensures ShareOf(Emissions(active, share), id) == if id in Ids(active) then share else 0.0
  {
    if active != [] {
      var e := Emissions(active, share);
      assert e[1..] == Emissions(active[1..], share);
      IdsCons(active[0], active[1..]);
      DistinctCons(active[0], active[1..]);
      assert active == [active[0]] + active[1..];
      EmissionsShareOf(active[1..], share, id);
    }
  }

  lemma {:induction false} EmissionsTotal(active: seq<CustomRecord>, share: real)
    ensures Total(Emissions(active, share)) == |active| as real * share
  {
    if active != [] {
      assert Emissions(active, share)[1..] == Emissions(active[1..], share);
      EmissionsTotal(active[1..], share);
    }
  }

  lemma EmissionsIds(active: seq<CustomRecord>, share: real)
    ensures AuxIds(Emissions(active, share)) == Ids(active)
  {
    var e := Emissions(active, share);
    forall x ensures x in AuxIds(e) <==> x in Ids(active) {
      if x in AuxIds(e) {
        var a :| a in e && a.eventId == x;
        var i :| 0 <= i < |e| && e[i] == a;
        assert active[i] in active;
      }
      if x in Ids(active) {
        var a :| a in active && a.eventId == x;
        var i :| 0 <= i < |active| && active[i] == a;
        assert e[i] in e;
      }
    }
  }

  lemma AuxIdsAppend(a: seq<AuxRecord>, b: seq<AuxRecord>)
    ensures AuxIds(a + b) == AuxIds(a) + AuxIds(b)
  {
    assert forall x :: x in a + b <==> x in a || x in b;
  }

  /** The shares one step emits add up to the time elapsed in that step, whenever some event is open. */
  lemma StepSharesSumToGap(active: seq<CustomRecord>, gap: real)
    requires |active| > 0
    ensures Total(Emissions(active, gap / (|active| as real))) == gap
  {
    var n := |active| as real;
    EmissionsTotal(active, gap / n);
    assert n * (gap / n) == gap;
  }

  // ------------------------------------------------------------- the sweep

  /** The order in which the sweep visits the records: sorted by timestamp, ties kept in input order. */
  function SweepOrder(data: seq<CustomRecord>): (r: seq<CustomRecord>)
    ensures |r| == |data|
  {
    SortedLength(data, TimestampKey);
    Sort(data, TimestampKey)
  }

  /** The share each open event gets in one step: nothing when no event is open, else the elapsed time divided by their number. */
  function StepShare(active: seq<CustomRecord>, currentTime: real, previousTime: real): real {
    if |active| > 0 then (currentTime - previousTime) / (|active| as real) else 0.0
  }

  lemma EmissionsNonNegative(active: seq<CustomRecord>, share: real)
    requires share >= 0.0
    ensures forall a :: a in Emissions(active, share) ==> a.adjusted >= 0.0
  {
  }

  /** The active set after recording rs[k]: a START is put in, an END deleted. */
  function NextActive(active: seq<CustomRecord>, record: CustomRecord): seq<CustomRecord>
    requires DistinctIds(active)
  {
    if record.lifecycle == Start then Put(active, record) else Delete(active, record.eventId)
  }

  /** The active set holds exactly the events open after the first k records, each once. */
  ghost predicate ActiveMatches(rs: seq<CustomRecord>, k: nat, active: seq<CustomRecord>)
    requires k <= |rs|
  {
    DistinctIds(active) && forall id :: id in Ids(active) <==> IsOpen(rs, k, id)
  }

  /** The aux log credits every event what it accrued in the first k steps, in total the busy time, to exactly the events ever open. */
  ghost predicate AuxMatches(rs: seq<CustomRecord>, k: nat, aux: seq<AuxRecord>)
    requires k <= |rs|
  {
    && (forall id :: ShareOf(aux, id) == Accrued(rs, id, k))
    && Total(aux) == Busy(rs, k)
    && (forall id :: id in AuxIds(aux) <==> EverOpen(rs, k, id))
  }

  predicate NonNegative(aux: seq<AuxRecord>) {
    forall a :: a in aux ==> a.adjusted >= 0.0
  }

  /** No END among the first k records found its event closed. */
  ghost predicate EndsClosed(rs: seq<CustomRecord>, k: nat)
    requires k <= |rs|
  {
    forall j :: 0 <= j < k && rs[j].lifecycle == End ==> IsOpen(rs, j, rs[j].eventId)
  }

  /** The state of the sweep after the first k records, as the declarative account describes it. */
  ghost predicate Swept(rs: seq<CustomRecord>, k: nat, active: seq<CustomRecord>, aux: seq<AuxRecord>, previousTime: real) {
    && k <= |rs|
    && ActiveMatches(rs, k, active)
    && AuxMatches(rs, k, aux)
    && NonNegative(aux)
    && EndsClosed(rs, k)
    && previousTime == (if k == 0 then 0.0 else rs[k - 1].timestamp)
  }

  /** The active set's keys are the open events, as many as its entries. */
  lemma ActiveIsOpenIds(rs: seq<CustomRecord>, k: nat, active: seq<CustomRecord>)
    requires k <= |rs| && ActiveMatches(rs, k, active)
    ensures Ids(active) == OpenIds(rs, k)
    ensures |active| == |OpenIds(rs, k)|
  {
    forall id ensures id in Ids(active) <==> id in OpenIds(rs, k) {
      OpenIdsMembers(rs, k, id);
    }
    DistinctCard(active);
  }

  /** What a step emits for an event is that event's share of the step. */
  lemma EmittedShare(rs: seq<CustomRecord>, k: nat, active: seq<CustomRecord>, previousTime: real, id: nat)
    requires k < |rs| && ActiveMatches(rs, k, active)
    requires previousTime == if k == 0 then 0.0 else rs[k - 1].timestamp
    ensures ShareOf(Emissions(active, StepShare(active, rs[k].timestamp, previousTime)), id) == Share(rs, k, id)
  {
    ActiveIsOpenIds(rs, k, active);
    EmissionsShareOf(active, StepShare(active, rs[k].timestamp, previousTime), id);
    OpenIdsMembers(rs, k, id);
  }

  /** What a step emits in total is the busy time it adds. */
  lemma EmittedTotal(rs: seq<CustomRecord>, k: nat, active: seq<CustomRecord>, previousTime: real)
    requires k < |rs| && ActiveMatches(rs, k, active)
    requires previousTime == if k == 0 then 0.0 else rs[k - 1].timestamp
    ensures Total(Emissions(active, StepShare(active, rs[k].timestamp, previousTime))) == Busy(rs, k + 1) - Busy(rs, k)
  {
    ActiveIsOpenIds(rs, k, active);
    assert Busy(rs, k + 1) == Busy(rs, k) + if OpenIds(rs, k) != {} then Gap(rs, k) else 0.0;
    if |active| > 0 {
      assert StepShare(active, rs[k].timestamp, previousTime) == Gap(rs, k) / (|active| as real);
      assert OpenIds(rs, k) != {};
      StepSharesSumToGap(active, Gap(rs, k));
    } else {
      assert OpenIds(rs, k) == {};
      assert Emissions(active, StepShare(active, rs[k].timestamp, previousTime)) == [];
    }
  }

  lemma AuxAdvance(rs: seq<CustomRecord>, k: nat, active: seq<CustomRecord>, aux: seq<AuxRecord>, previousTime: real)
    requires k < |rs| && ActiveMatches(rs, k, active) && AuxMatches(rs, k, aux)
    requires previousTime == if k == 0 then 0.0 else rs[k - 1].timestamp
    ensures AuxMatches(rs, k + 1, aux + Emissions(active, StepShare(active, rs[k].timestamp, previousTime)))
  {
    var e := Emissions(active, StepShare(active, rs[k].timestamp, previousTime));
    forall id ensures ShareOf(aux + e, id) == Accrued(rs, id, k + 1) {
      ShareOfAppend(aux, e, id);
      EmittedShare(rs, k, active, previousTime, id);
    }
    TotalAppend(aux, e);
    EmittedTotal(rs, k, active, previousTime);
    AuxIdsAppend(aux, e);
    EmissionsIds(active, StepShare(active, rs[k].timestamp, previousTime));
  }

  lemma NonNegativeAdvance(rs: seq<CustomRecord>, k: nat, active: seq<CustomRecord>, aux: seq<AuxRecord>, previousTime: real)
    requires SortedBy(rs, TimestampKey)
    requires k < |rs| && ActiveMatches(rs, k, active) && NonNegative(aux)
    requires previousTime == if k == 0 then 0.0 else rs[k - 1].timestamp
    ensures NonNegative(aux + Emissions(active, StepShare(active, rs[k].timestamp, previousTime)))
  {
    var share := StepShare(active, rs[k].timestamp, previousTime);
    if |active| > 0 {
      assert active[0] in active;
      assert active[0].eventId in Ids(active);
      assert k > 0;
      assert TimestampKey(rs[k - 1]) <= TimestampKey(rs[k]);
      DivBounds(rs[k].timestamp - previousTime, |active| as real);
    }
    EmissionsNonNegative(active, share);
    var emitted := Emissions(active, share);
    assert forall a :: a in aux + emitted ==> a in aux || a in emitted;
  }

  /** Recording a START puts its event in the active set and an END takes it out, as IsOpen says. */
  lemma ActiveAdvance(rs: seq<CustomRecord>, k: nat, active: seq<CustomRecord>)
    requires k < |rs| && ActiveMatches(rs, k, active)
    ensures ActiveMatches(rs, k + 1, NextActive(active, rs[k]))
  {
  }

  lemma EndsClosedAdvance(rs: seq<CustomRecord>, k: nat, active: seq<CustomRecord>)
    requires k < |rs| && ActiveMatches(rs, k, active) && EndsClosed(rs, k)
    requires rs[k].lifecycle == End ==> rs[k].eventId in Ids(active)
    ensures EndsClosed(rs, k + 1)
  {
  }

  /** A step of the sweep over sorted records that finds its END's event open keeps the state as described. */
  lemma SweepStart(rs: seq<CustomRecord>)
    ensures Swept(rs, 0, [], [], 0.0)
  {
  }

  lemma SweepAdvance(rs: seq<CustomRecord>, k: nat, active: seq<CustomRecord>, aux: seq<AuxRecord>, previousTime: real)
    requires SortedBy(rs, TimestampKey)
    requires Swept(rs, k, active, aux, previousTime) && k < |rs|
    requires rs[k].lifecycle == End ==> rs[k].eventId in Ids(active)
    ensures Swept(rs, k + 1, NextActive(active, rs[k]),
                  aux + Emissions(active, StepShare(active, rs[k].timestamp, previousTime)), rs[k].timestamp)
  {
    AuxAdvance(rs, k, active, aux, previousTime);
    NonNegativeAdvance(rs, k, active, aux, previousTime);
    ActiveAdvance(rs, k, active);
    EndsClosedAdvance(rs, k, active);
  }

  /** After the last record, the state described is the one the sweep promises. */
  lemma SweptAll(rs: seq<CustomRecord>, active: seq<CustomRecord>, aux: seq<AuxRecord>, previousTime: real)
    requires Swept(rs, |rs|, active, aux, previousTime)
    ensures NoOrphanEnd(rs)
    ensures forall id :: ShareOf(aux, id) == Accrued(rs, id, |rs|)
    ensures Total(aux) == Busy(rs, |rs|)
    ensures forall id :: id in AuxIds(aux) <==> EverOpen(rs, |rs|, id)
    ensures forall a :: a in aux ==> a.adjusted >= 0.0
  {
  }

  lemma OrphanEnd(rs: seq<CustomRecord>, k: nat)
    requires k < |rs| && rs[k].lifecycle == End && !IsOpen(rs, k, rs[k].eventId)
    ensures !NoOrphanEnd(rs)
  {
  }

  lemma SweepAdvanceTo(rs: seq<CustomRecord>, k: nat, active: seq<CustomRecord>, aux: seq<AuxRecord>, previousTime: real,
                       active': seq<CustomRecord>, aux': seq<AuxRecord>, previousTime': real)
    requires SortedBy(rs, TimestampKey)
    requires Swept(rs, k, active, aux, previousTime) && k < |rs|
    requires rs[k].lifecycle == End ==> rs[k].eventId in Ids(active)
    requires active' == NextActive(active, rs[k])
    requires aux' == aux + Emissions(active, StepShare(active, rs[k].timestamp, previousTime))
    requires previousTime' == rs[k].timestamp
    ensures Swept(rs, k + 1, active', aux', previousTime')
  {
    SweepAdvance(rs, k, active, aux, previousTime);
  }

  /**
   * _make_auxiliary_log. It fails with KeyError exactly when some END record
   * finds its event not open; otherwise every event is credited exactly what
   * the declarative account says, the credits add up to the resource's busy
   * time, the credited events are those that were ever open, and no credit is
   * negative.
   */
  method MakeAuxiliaryLog(data: seq<CustomRecord>) returns (r: Result<seq<AuxRecord>>)
    ensures r.Ok? <==> NoOrphanEnd(SweepOrder(data))
    ensures r.Err? ==> r.error == KeyError
    ensures r.Ok? ==> forall id :: ShareOf(r.value, id) == Accrued(SweepOrder(data), id, |data|)
    ensures r.Ok? ==> Total(r.value) == Busy(SweepOrder(data), |data|)
    ensures r.Ok? ==> forall id :: id in AuxIds(r.value) <==> EverOpen(SweepOrder(data), |data|, id)
    ensures r.Ok? ==> forall a :: a in r.value ==> a.adjusted >= 0.0
  {
    var activeSet: seq<CustomRecord> := [];
    var previousTime := 0.0;
    var auxLog: seq<AuxRecord> := [];
    var rs := SweepOrder(data);
    SweepStart(rs);
    for k := 0 to |rs|
      invariant Swept(rs, k, activeSet, auxLog, previousTime)
    {
      ghost var active0, aux0, previous0 := activeSet, auxLog, previousTime;
      var record := rs[k];
      var currentTime := record.timestamp;
      var adjustedDuration := StepShare(activeSet, currentTime, previousTime);
      auxLog := auxLog + Emissions(activeSet, adjustedDuration);
      previousTime := record.timestamp;
      if record.lifecycle == Start {
        activeSet := Put(activeSet, record);
      } else {
        if record.eventId !in Ids(activeSet) {
          OrphanEnd(rs, k);
          return Err(KeyError);
        }
        activeSet := Delete(activeSet, record.eventId);
      }
      SweepAdvanceTo(rs, k, active0, aux0, previous0, activeSet, auxLog, previousTime);
    }
    SweptAll(rs, activeSet, auxLog, previousTime);
    return Ok(auxLog);
  }

  // ------------------------------------- what the sweep promises, when paired

  /** Every record has a partner with the same event id, and of two records of one event the earlier is its START and the later its END. */
  predicate Paired(rs: seq<CustomRecord>) {
    && (forall j, k :: 0 <= j < k < |rs| && rs[j].eventId == rs[k].eventId ==> rs[j].lifecycle == Start && rs[k].lifecycle == End)
    && (forall j :: 0 <= j < |rs| ==> HasPartner(rs, j))
  }

  predicate HasPartner(rs: seq<CustomRecord>, j: nat)
    requires j < |rs|
  {
    exists k :: 0 <= k < |rs| && k != j && rs[k].eventId == rs[j].eventId
  }

  /** In a paired sequence an event has no record besides its START and its END. */
  lemma OnlyTwo(rs: seq<CustomRecord>, p: nat, q: nat, j: nat)
    requires Paired(rs) && p < q < |rs| && rs[p].eventId == rs[q].eventId
    requires j < |rs| && rs[j].eventId == rs[p].eventId
    ensures j == p || j == q
  {
  }

  /** The START and END positions of the event of record j. */
  lemma Partner(rs: seq<CustomRecord>, j: nat) returns (p: nat, q: nat)
    requires Paired(rs) && j < |rs|
    ensures p < q < |rs|
    ensures rs[p].eventId == rs[q].eventId == rs[j].eventId
    ensures j == p || j == q
    ensures rs[p].lifecycle == Start && rs[q].lifecycle == End
  {
    assert HasPartner(rs, j);
    var k :| 0 <= k < |rs| && k != j && rs[k].eventId == rs[j].eventId;
    if j < k {
      p, q := j, k;
    } else {
      p, q := k, j;
    }
  }

  /** An event with START at p and END at q is open exactly after the records p+1 .. q. */
  lemma {:induction false} PairedOpen(rs: seq<CustomRecord>, p: nat, q: nat, k: nat)
    requires Paired(rs) && p < q < |rs| && rs[p].eventId == rs[q].eventId
    requires k <= |rs|
    ensures IsOpen(rs, k, rs[p].eventId) <==> p < k <= q
  {
    if k > 0 {
      if rs[k - 1].eventId == rs[p].eventId {
        OnlyTwo(rs, p, q, k - 1);
      } else {
        PairedOpen(rs, p, q, k - 1);
      }
    }
  }

  /** In a paired sequence no END finds its event closed, so the sweep does not fail. */
  lemma PairedNoOrphanEnd(rs: seq<CustomRecord>)
    requires Paired(rs)
    ensures NoOrphanEnd(rs)
  {
    forall k | 0 <= k < |rs| && rs[k].lifecycle == End
      ensures IsOpen(rs, k, rs[k].eventId)
    {
      var p, q := Partner(rs, k);
      PairedOpen(rs, p, q, k);
    }
  }

  /** In a paired sequence every event is closed again by the end. */
  lemma PairedAllClosed(rs: seq<CustomRecord>)
    requires Paired(rs)
    ensures OpenIds(rs, |rs|) == {}
  {
    if id :| id in OpenIds(rs, |rs|) {
      OpenIdsMembers(rs, |rs|, id);
      OpenHasRecord(rs, |rs|, id);
      var j :| 0 <= j < |rs| && rs[j].eventId == id;
      var p, q := Partner(rs, j);
      PairedOpen(rs, p, q, |rs|);
      assert false;
    }
  }

  lemma {:induction false} EverOpenAfter(rs: seq<CustomRecord>, k: nat, n: nat, id: nat)
    requires k < n <= |rs| && IsOpen(rs, k, id)
    ensures EverOpen(rs, n, id)
  {
    if k < n - 1 {
      EverOpenAfter(rs, k, n - 1, id);
    }
  }

  lemma {:induction false} NeverOpen(rs: seq<CustomRecord>, n: nat, id: nat)
    requires n <= |rs|
    requires forall j :: 0 <= j < |rs| ==> rs[j].eventId != id
    ensures !EverOpen(rs, n, id)
  {
    if n > 0 {
      NeverOpen(rs, n - 1, id);
      if IsOpen(rs, n - 1, id) {
        OpenHasRecord(rs, n - 1, id);
      }
    }
  }

  /** In a paired sequence the events ever open are exactly the events that have records. */
  lemma PairedEverOpen(rs: seq<CustomRecord>, id: nat)
    requires Paired(rs)
    ensures EverOpen(rs, |rs|, id) <==> exists j :: 0 <= j < |rs| && rs[j].eventId == id
  {
    if j :| 0 <= j < |rs| && rs[j].eventId == id {
      var p, q := Partner(rs, j);
      PairedOpen(rs, p, q, p + 1);
      EverOpenAfter(rs, p + 1, |rs|, id);
    } else {
      NeverOpen(rs, |rs|, id);
    }
  }

  lemma SortedAt(rs: seq<CustomRecord>, i: nat, j: nat)
    requires SortedBy(rs, TimestampKey) && i <= j < |rs|
    ensures rs[i].timestamp <= rs[j].timestamp
  {
    if i < j {
      assert TimestampKey(rs[i]) <= TimestampKey(rs[j]);
    }
  }

  lemma DivBounds(g: real, c: real)
    requires g >= 0.0 && c >= 1.0
    ensures 0.0 <= g / c <= g
  {
    assert g / c * c == g;
  }

  /** The part of the event's own span [start, end] that the first n steps have swept over. */
  function Covered(rs: seq<CustomRecord>, p: nat, q: nat, n: nat): real
    requires p < q < |rs| && n <= |rs|
  {
    if n <= p then 0.0 else rs[if n - 1 < q then n - 1 else q].timestamp - rs[p].timestamp
  }

  lemma CoveredStep(rs: seq<CustomRecord>, p: nat, q: nat, k: nat)
    requires p < q < |rs| && k < |rs|
    ensures Covered(rs, p, q, k + 1) - Covered(rs, p, q, k) == if p < k <= q then Gap(rs, k) else 0.0
  {
  }

  /** A step credits an event at most the time it sweeps over the event's span. */
  lemma ShareCovered(rs: seq<CustomRecord>, p: nat, q: nat, k: nat)
    requires SortedBy(rs, TimestampKey) && Paired(rs)
    requires p < q < |rs| && rs[p].eventId == rs[q].eventId && k < |rs|
    ensures 0.0 <= Share(rs, k, rs[p].eventId) <= Covered(rs, p, q, k + 1) - Covered(rs, p, q, k)
  {
    var id := rs[p].eventId;
    PairedOpen(rs, p, q, k);
    CoveredStep(rs, p, q, k);
    if IsOpen(rs, k, id) {
      OpenIdsMembers(rs, k, id);
      SortedAt(rs, k - 1, k);
      DivBounds(Gap(rs, k), |OpenIds(rs, k)| as real);
    }
  }

  lemma {:induction false} AccruedCovered(rs: seq<CustomRecord>, p: nat, q: nat, n: nat)
    requires SortedBy(rs, TimestampKey) && Paired(rs)
    requires p < q < |rs| && rs[p].eventId == rs[q].eventId && n <= |rs|
    ensures 0.0 <= Accrued(rs, rs[p].eventId, n) <= Covered(rs, p, q, n)
  {
    if n > 0 {
      AccruedCovered(rs, p, q, n - 1);
      ShareCovered(rs, p, q, n - 1);
    }
  }

  /**
   * An event is never credited more than its own duration, nor less than
   * nothing: the adjusted end stays between the start and the original end.
   */
  lemma AccruedBounds(rs: seq<CustomRecord>, p: nat, q: nat)
    requires SortedBy(rs, TimestampKey) && Paired(rs)
    requires p < q < |rs| && rs[p].eventId == rs[q].eventId
    ensures 0.0 <= Accrued(rs, rs[p].eventId, |rs|) <= rs[q].timestamp - rs[p].timestamp
  {
    AccruedCovered(rs, p, q, |rs|);
  }

  /** No other event's span overlaps the span of the event with START at p and END at q. */
  predicate IsolatedIn(rs: seq<CustomRecord>, p: nat, q: nat)
    requires p < q < |rs|
  {
    forall j, l :: 0 <= j < l < |rs| && rs[j].eventId == rs[l].eventId && rs[j].eventId != rs[p].eventId ==>
      rs[l].timestamp <= rs[p].timestamp || rs[q].timestamp <= rs[j].timestamp
  }

  /** While an isolated event is open and time passes, it is the only open event. */
  lemma AloneWhileOpen(rs: seq<CustomRecord>, p: nat, q: nat, k: nat)
    requires SortedBy(rs, TimestampKey) && Paired(rs)
    requires p < q < |rs| && rs[p].eventId == rs[q].eventId && IsolatedIn(rs, p, q)
    requires p < k <= q && Gap(rs, k) > 0.0
    ensures OpenIds(rs, k) == {rs[p].eventId}
  {
    var id := rs[p].eventId;
    PairedOpen(rs, p, q, k);
    OpenIdsMembers(rs, k, id);
    forall o | o in OpenIds(rs, k) ensures o == id {
      OpenIdsMembers(rs, k, o);
      OpenHasRecord(rs, k, o);
      var j :| 0 <= j < k && rs[j].eventId == o;
      var p', q' := Partner(rs, j);
      PairedOpen(rs, p', q', k);
      if o != id {
        SortedAt(rs, p', k - 1);
        SortedAt(rs, k, q');
        SortedAt(rs, p, k - 1);
        SortedAt(rs, k, q);
        assert false;
      }
    }
  }

  /** A step credits an isolated event exactly the time it sweeps over the event's span. */
  lemma ShareIsolated(rs: seq<CustomRecord>, p: nat, q: nat, k: nat)
    requires SortedBy(rs, TimestampKey) && Paired(rs)
    requires p < q < |rs| && rs[p].eventId == rs[q].eventId && IsolatedIn(rs, p, q) && k < |rs|
    ensures Share(rs, k, rs[p].eventId) == Covered(rs, p, q, k + 1) - Covered(rs, p, q, k)
  {
    var id := rs[p].eventId;
    PairedOpen(rs, p, q, k);
    CoveredStep(rs, p, q, k);
    if IsOpen(rs, k, id) && Gap(rs, k) > 0.0 {
      AloneWhileOpen(rs, p, q, k);
      assert |OpenIds(rs, k)| == 1;
    } else if IsOpen(rs, k, id) {
      OpenIdsMembers(rs, k, id);
      SortedAt(rs, k - 1, k);
    }
  }

  lemma {:induction false} AccruedIsolatedCovered(rs: seq<CustomRecord>, p: nat, q: nat, n: nat)
    requires SortedBy(rs, TimestampKey) && Paired(rs)
    requires p < q < |rs| && rs[p].eventId == rs[q].eventId && IsolatedIn(rs, p, q) && n <= |rs|
    ensures Accrued(rs, rs[p].eventId, n) == Covered(rs, p, q, n)
  {
    if n > 0 {
      AccruedIsolatedCovered(rs, p, q, n - 1);
      ShareIsolated(rs, p, q, n - 1);
    }
  }

  /** An event that overlaps no other event keeps its whole duration. */
  lemma AccruedIsolated(rs: seq<CustomRecord>, p: nat, q: nat)
    requires SortedBy(rs, TimestampKey) && Paired(rs)
    requires p < q < |rs| && rs[p].eventId == rs[q].eventId && IsolatedIn(rs, p, q)
    ensures Accrued(rs, rs[p].eventId, |rs|) == rs[q].timestamp - rs[p].timestamp
  {
    AccruedIsolatedCovered(rs, p, q, |rs|);
  }
}
