/** The records a reconciliation takes: the two listings of the engine, each deadline judged by its own reading of the
    clock (src/execution/engine.py `_is_overdue`, `list_overdue_reconciliation_targets`, `list_reconciliation_targets`,
    the head of `reconcile`). */
module Listings {
  import opened ExecutionTypes
  import opened MemoryStore

  const TARGET_LIMIT: nat := 200
  const OVERDUE_LIMIT: nat := 5000

  predicate Wanted(s: ExecutionStatus) {
    s in {Submitted, FailedUncertain, Reconciling, FailedDispatched}
  }

  predicate OverdueAt(r: ExecutionRecord, t: real, timeout: real) {
    r.status == Submitted && r.times.submittedAt.Some? && t - r.times.submittedAt.value > timeout
  }

  // ----- ids -----

  ghost function Ids(rs: seq<ExecutionRecord>): set<string> {
    set i | 0 <= i < |rs| :: rs[i].id.executionId
  }

  lemma IdsGrow(rs: seq<ExecutionRecord>, r: ExecutionRecord)
    ensures Ids(rs + [r]) == Ids(rs) + {r.id.executionId}
  {
    var more := rs + [r];
    assert more[|rs|] == r;
    assert forall i :: 0 <= i < |rs| ==> more[i] == rs[i];
  }

  lemma {:induction false} DistinctCount(rs: seq<ExecutionRecord>)
    requires Distinct(rs)
    ensures |Ids(rs)| == |rs|
  {
    if rs != [] {
      var n := |rs| - 1;
      DistinctCount(rs[..n]);
      assert Ids(rs) == Ids(rs[..n]) + {rs[n].id.executionId};
    } else {
      assert Ids(rs) == {};
    }
  }

  lemma SubsetCount<T>(a: set<T>, b: set<T>)
    requires a <= b
    ensures |a| <= |b|
    ensures |a| == |b| ==> a == b
  {
    assert b == a + (b - a);
    assert |b - a| == 0 ==> b == a;
  }

  lemma MembersHaveIds(rs: seq<ExecutionRecord>, r: ExecutionRecord)
    ensures r in rs ==> r.id.executionId in Ids(rs)
  {
    if r in rs {
      var i :| 0 <= i < |rs| && rs[i] == r;
      assert rs[i].id.executionId in Ids(rs);
    }
  }

  /** Among the records of a listing an id is enough to be found by. */
  lemma IdIdentifies(records: seq<ExecutionRecord>, rs: seq<ExecutionRecord>, r: ExecutionRecord)
    requires Distinct(records) && r in records && r.id.executionId in Ids(rs)
    requires forall q :: q in rs ==> q in records
    ensures r in rs
  {
    var i :| 0 <= i < |rs| && rs[i].id.executionId == r.id.executionId;
    assert rs[i] in rs;
    var m :| 0 <= m < |records| && records[m] == rs[i];
    var n :| 0 <= n < |records| && records[n] == r;
    assert m == n;
  }

  // ----- readings of the clock -----

  /** Readings of a clock that does not run backwards, between these two instants. */
  ghost predicate Timeline(at: seq<real>, start: real, end: real) {
    && start <= end && (forall i :: 0 <= i < |at| ==> start <= at[i] <= end)
    && (forall i, j :: 0 <= i <= j < |at| ==> at[i] <= at[j])
  }

  lemma TimelinesJoin(a: seq<real>, b: seq<real>, start: real, middle: real, end: real)
    requires Timeline(a, start, middle) && Timeline(b, middle, end)
    ensures Timeline(a + b, start, end)
  {
  }

  lemma TimelineGrows(at: seq<real>, start: real, end: real, next: real)
    requires Timeline(at, start, end) && end <= next
    ensures Timeline(at + [next], start, next)
  {
  }

  // ----- the listings -----

  /** The elements whose flag is set, in order. */
  function Picked<T>(xs: seq<T>, keep: seq<bool>): seq<T>
    requires |keep| == |xs|
  {
    if xs == [] then []
    else
      var n := |xs| - 1;
      Picked(xs[..n], keep[..n]) + if keep[n] then [xs[n]] else []
  }

  function OverdueFlags(records: seq<ExecutionRecord>, at: seq<real>, timeout: real): (keep: seq<bool>)
    requires |at| == |records|
    ensures |keep| == |records|
  {
    seq(|records|, i requires 0 <= i < |records| => OverdueAt(records[i], at[i], timeout))
  }

  function OtherFlags(records: seq<ExecutionRecord>, at: seq<real>, timeout: real): (keep: seq<bool>)
    requires |at| == |records|
    ensures |keep| == |records|
  {
    seq(|records|, i requires 0 <= i < |records| => Wanted(records[i].status) && !OverdueAt(records[i], at[i], timeout))
  }

  /** The records found overdue, the i-th by the i-th reading. */
  function OverduePart(records: seq<ExecutionRecord>, at: seq<real>, timeout: real): seq<ExecutionRecord>
    requires |at| == |records|
  {
    Picked(records, OverdueFlags(records, at, timeout))
  }

  /** The other records that are wanted. */
  function OthersPart(records: seq<ExecutionRecord>, at: seq<real>, timeout: real): seq<ExecutionRecord>
    requires |at| == |records|
  {
    Picked(records, OtherFlags(records, at, timeout))
  }

  function Cut<T>(xs: seq<T>, limit: nat): seq<T> {
    if |xs| <= limit then xs else xs[..limit]
  }

  lemma PickedOneMore<T>(xs: seq<T>, x: T, keep: seq<bool>, more: bool)
    requires |keep| == |xs|
    ensures Picked(xs + [x], keep + [more]) == Picked(xs, keep) + if more then [x] else []
  {
    assert (xs + [x])[..|xs|] == xs && (keep + [more])[..|xs|] == keep;
  }

  lemma OverduePartGrows(records: seq<ExecutionRecord>, at: seq<real>, i: nat, t: real, timeout: real)
    requires |at| == i < |records|
    ensures OverduePart(records[..i + 1], at + [t], timeout)
         == OverduePart(records[..i], at, timeout) + if OverdueAt(records[i], t, timeout) then [records[i]] else []
  {
    var more := OverdueAt(records[i], t, timeout);
    assert records[..i + 1] == records[..i] + [records[i]];
    assert OverdueFlags(records[..i + 1], at + [t], timeout) == OverdueFlags(records[..i], at, timeout) + [more];
    PickedOneMore(records[..i], records[i], OverdueFlags(records[..i], at, timeout), more);
  }

  lemma OthersPartGrows(records: seq<ExecutionRecord>, at: seq<real>, i: nat, t: real, timeout: real)
    requires |at| == i < |records|
    ensures OthersPart(records[..i + 1], at + [t], timeout)
         == OthersPart(records[..i], at, timeout)
            + if Wanted(records[i].status) && !OverdueAt(records[i], t, timeout) then [records[i]] else []
  {
    var more := Wanted(records[i].status) && !OverdueAt(records[i], t, timeout);
    assert records[..i + 1] == records[..i] + [records[i]];
    assert OtherFlags(records[..i + 1], at + [t], timeout) == OtherFlags(records[..i], at, timeout) + [more];
    PickedOneMore(records[..i], records[i], OtherFlags(records[..i], at, timeout), more);
  }

  /** What is picked stays in order. */
  lemma {:induction false} PickedInOrder<T>(xs: seq<T>, keep: seq<bool>, i: nat) returns (p: nat)
    requires |keep| == |xs| && i < |Picked(xs, keep)|
    ensures p < |xs| && keep[p] && xs[p] == Picked(xs, keep)[i] && |Picked(xs[..p], keep[..p])| == i
  {
    var n := |xs| - 1;
    if i < |Picked(xs[..n], keep[..n])| {
      p := PickedInOrder(xs[..n], keep[..n], i);
      assert xs[..n][..p] == xs[..p] && keep[..n][..p] == keep[..p];
    } else {
      p := n;
    }
  }

  lemma {:induction false} PickedFrom(records: seq<ExecutionRecord>, keep: seq<bool>)
    requires Distinct(records) && |keep| == |records|
    ensures Distinct(Picked(records, keep)) && forall r :: r in Picked(records, keep) ==> r in records
  {
    if records != [] {
      var n := |records| - 1;
      var rest := Picked(records[..n], keep[..n]);
      PickedFrom(records[..n], keep[..n]);
      forall k | 0 <= k < |rest|
        ensures rest[k].id.executionId != records[n].id.executionId
      {
        assert rest[k] in records[..n];
      }
    }
  }

  /** Of distinct records exactly those flagged are picked. */
  lemma {:induction false} PickedExactly(records: seq<ExecutionRecord>, keep: seq<bool>, i: nat)
    requires Distinct(records) && |keep| == |records| && i < |records|
    ensures records[i] in Picked(records, keep) <==> keep[i]
  {
    var n := |records| - 1;
    PickedFrom(records[..n], keep[..n]);
    if i < n {
      PickedExactly(records[..n], keep[..n], i);
      assert records[i] != records[n];
    } else {
      assert records[n] !in records[..n];
    }
  }

  /** Picking from distinct records: distinct again, and exactly those flagged. */
  lemma PickedExact(records: seq<ExecutionRecord>, keep: seq<bool>)
    requires Distinct(records) && |keep| == |records|
    ensures Distinct(Picked(records, keep))
    ensures forall r :: r in Picked(records, keep) ==> r in records
    ensures forall i :: 0 <= i < |records| ==> (records[i] in Picked(records, keep) <==> keep[i])
  {
    PickedFrom(records, keep);
    forall i | 0 <= i < |records|
      ensures records[i] in Picked(records, keep) <==> keep[i]
    {
      PickedExactly(records, keep, i);
    }
  }

  lemma OverduePartExact(records: seq<ExecutionRecord>, at: seq<real>, timeout: real)
    requires Distinct(records) && |at| == |records|
    ensures var part := OverduePart(records, at, timeout);
            && Distinct(part) && (forall r :: r in part ==> r in records && r.status == Submitted)
            && (forall i :: 0 <= i < |records| ==> (records[i] in part <==> OverdueAt(records[i], at[i], timeout)))
  {
    PickedExact(records, OverdueFlags(records, at, timeout));
  }

  lemma OthersPartExact(records: seq<ExecutionRecord>, at: seq<real>, timeout: real)
    requires Distinct(records) && |at| == |records|
    ensures var part := OthersPart(records, at, timeout);
            && Distinct(part) && (forall r :: r in part ==> r in records && Wanted(r.status))
            && (forall i :: 0 <= i < |records| ==>
                  (records[i] in part <==> Wanted(records[i].status) && !OverdueAt(records[i], at[i], timeout)))
  {
    PickedExact(records, OtherFlags(records, at, timeout));
  }

  /** Overdue records first, by a first reading each; then the others, by a second. */
  function OverdueFirst(records: seq<ExecutionRecord>, first: seq<real>, second: seq<real>, timeout: real)
    : seq<ExecutionRecord>
    requires |first| == |second| == |records|
  {
    OverduePart(records, first, timeout) + OthersPart(records, second, timeout)
  }

  /** Nobody is listed twice: whoever is overdue at the first reading is overdue at the second. */
  lemma OverdueFirstIsDistinct(records: seq<ExecutionRecord>, first: seq<real>, second: seq<real>, timeout: real)
    requires Distinct(records) && |first| == |second| == |records|
    requires forall i :: 0 <= i < |records| ==> first[i] <= second[i]
    ensures Distinct(OverdueFirst(records, first, second, timeout))
    ensures forall r :: r in OverdueFirst(records, first, second, timeout) ==> r in records && Wanted(r.status)
  {
    OverduePartExact(records, first, timeout);
    OthersPartExact(records, second, timeout);
    var a, b := OverduePart(records, first, timeout), OthersPart(records, second, timeout);
    forall i, j | 0 <= i < |a| && 0 <= j < |b|
      ensures a[i].id.executionId != b[j].id.executionId
    {
      assert a[i] in a && b[j] in b;
      var m :| 0 <= m < |records| && records[m] == a[i];
      var n :| 0 <= n < |records| && records[n] == b[j];
      assert m != n;
    }
  }

  lemma CutMembers(xs: seq<ExecutionRecord>, limit: nat)
    requires Distinct(xs)
    ensures Distinct(Cut(xs, limit)) && |Cut(xs, limit)| <= limit && Ids(Cut(xs, limit)) <= Ids(xs)
    ensures forall r :: r in Cut(xs, limit) ==> r in xs
    ensures |xs| <= limit || |Cut(xs, limit)| == limit
  {
    assert forall i :: 0 <= i < |Cut(xs, limit)| ==> Cut(xs, limit)[i] == xs[i];
  }

  /** Cutting overdue-then-others at the limit keeps every overdue record exactly when these alone fit the limit. */
  lemma LimitDropsOverdueExactly(a: seq<ExecutionRecord>, b: seq<ExecutionRecord>, limit: nat)
    requires Distinct(a + b)
    ensures (forall r :: r in a ==> r in Cut(a + b, limit)) <==> |a| <= limit
  {
    var cut := Cut(a + b, limit);
    assert forall i :: 0 <= i < |cut| ==> cut[i] == (a + b)[i];
    if |a| <= limit {
      assert forall i :: 0 <= i < |a| ==> cut[i] == a[i];
    } else {
      assert a[limit] in a && (a + b)[limit] == a[limit];
      forall i | 0 <= i < |cut|
        ensures cut[i] != a[limit]
      {
        assert (a + b)[i].id.executionId != (a + b)[limit].id.executionId;
      }
    }
  }

  // ----- the targets of a sweep -----

  /** The records whose ids are not there yet, appended one by one. */
  ghost function AddAll(targets: seq<ExecutionRecord>, rs: seq<ExecutionRecord>): seq<ExecutionRecord> {
    if rs == [] then targets
    else
      var n := |rs| - 1;
      var before := AddAll(targets, rs[..n]);
      if rs[n].id.executionId in Ids(before) then before else before + [rs[n]]
  }

  lemma {:induction false} AddAllExact(targets: seq<ExecutionRecord>, rs: seq<ExecutionRecord>)
    requires Distinct(targets)
    ensures Distinct(AddAll(targets, rs)) && Ids(AddAll(targets, rs)) == Ids(targets) + Ids(rs)
    ensures forall r :: r in AddAll(targets, rs) ==> r in targets || r in rs
  {
    if rs == [] {
      assert Ids(rs) == {};
    } else {
      var n := |rs| - 1;
      var before := AddAll(targets, rs[..n]);
      AddAllExact(targets, rs[..n]);
      assert rs[..n] + [rs[n]] == rs;
      IdsGrow(rs[..n], rs[n]);
      IdsGrow(before, rs[n]);
      if rs[n].id.executionId !in Ids(before) {
        assert forall k :: 0 <= k < |before| ==> before[k].id.executionId in Ids(before);
      }
    }
  }

  /** The readings behind a sweep's targets: two passes of the general listing and one of the overdue listing. */
  datatype Readings = Readings(first: seq<real>, second: seq<real>, third: seq<real>)

  /** Each pass read the clock once a record, one pass after the other. */
  ghost predicate ReadInOrder(records: seq<ExecutionRecord>, at: Readings, start: real, end: real) {
    && |at.first| == |at.second| == |at.third| == |records|
    && Timeline(at.first + at.second + at.third, start, end)
  }

  ghost function TargetsAt(records: seq<ExecutionRecord>, at: Readings, timeout: real): seq<ExecutionRecord>
    requires |at.first| == |at.second| == |at.third| == |records|
  {
    AddAll(AddAll([], Cut(OverdueFirst(records, at.first, at.second, timeout), TARGET_LIMIT)),
           Cut(OverduePart(records, at.third, timeout), OVERDUE_LIMIT))
  }

  /** The record was overdue at one of its own readings. */
  predicate FoundOverdue(records: seq<ExecutionRecord>, at: Readings, timeout: real, i: nat)
    requires |at.first| == |at.second| == |at.third| == |records| && i < |records|
  {
    || OverdueAt(records[i], at.first[i], timeout) || OverdueAt(records[i], at.second[i], timeout)
    || OverdueAt(records[i], at.third[i], timeout)
  }

  /** Every record found overdue, at whichever reading, is taken. */
  ghost predicate OverdueTaken(records: seq<ExecutionRecord>, at: Readings, timeout: real,
                               targets: seq<ExecutionRecord>)
    requires |at.first| == |at.second| == |at.third| == |records|
  {
    forall i :: 0 <= i < |records| && FoundOverdue(records, at, timeout, i) ==> records[i] in targets
  }

  /** The readings of one record, in order. */
  lemma ReadingsRise(records: seq<ExecutionRecord>, at: Readings, start: real, end: real, i: nat)
    requires ReadInOrder(records, at, start, end) && i < |records|
    ensures at.first[i] <= at.second[i] <= at.third[i]
  {
    var all, n := at.first + at.second + at.third, |records|;
    assert all[i] == at.first[i] && all[n + i] == at.second[i] && all[2 * n + i] == at.third[i];
  }

  /** The targets are distinct and open; they are what the two listings hold. */
  lemma TargetsExact(records: seq<ExecutionRecord>, at: Readings, timeout: real, start: real, end: real)
    requires Distinct(records) && ReadInOrder(records, at, start, end)
    ensures var targets := TargetsAt(records, at, timeout);
            && Distinct(targets) && (forall r :: r in targets ==> r in records && Wanted(r.status))
            && (forall r :: r in targets
                       <==> r in Cut(OverdueFirst(records, at.first, at.second, timeout), TARGET_LIMIT)
                            || r in Cut(OverduePart(records, at.third, timeout), OVERDUE_LIMIT))
            && |targets| >= |Cut(OverdueFirst(records, at.first, at.second, timeout), TARGET_LIMIT)|
            && |targets| >= |Cut(OverduePart(records, at.third, timeout), OVERDUE_LIMIT)|
  {
    forall i | 0 <= i < |records|
      ensures at.first[i] <= at.second[i]
    {
      ReadingsRise(records, at, start, end, i);
    }
    OverdueFirstIsDistinct(records, at.first, at.second, timeout);
    OverduePartExact(records, at.third, timeout);
    MergedExact(records, OverdueFirst(records, at.first, at.second, timeout), OverduePart(records, at.third, timeout));
  }

  lemma MergedExact(records: seq<ExecutionRecord>, general: seq<ExecutionRecord>, overdue: seq<ExecutionRecord>)
    requires Distinct(records) && Distinct(general) && Distinct(overdue)
    requires forall r :: r in general || r in overdue ==> r in records && Wanted(r.status)
    ensures var a, b := Cut(general, TARGET_LIMIT), Cut(overdue, OVERDUE_LIMIT);
            var targets := AddAll(AddAll([], a), b);
            && Distinct(targets) && (forall r :: r in targets ==> r in records && Wanted(r.status))
            && (forall r :: r in a || r in b <==> r in targets) && |targets| >= |a| && |targets| >= |b|
  {
    var a, b := Cut(general, TARGET_LIMIT), Cut(overdue, OVERDUE_LIMIT);
    CutMembers(general, TARGET_LIMIT);
    CutMembers(overdue, OVERDUE_LIMIT);
    AddAllExact([], a);
    AddAllExact(AddAll([], a), b);
    var targets := AddAll(AddAll([], a), b);
    forall r | r in a || r in b
      ensures r in targets
    {
      MembersHaveIds(a, r);
      MembersHaveIds(b, r);
      IdIdentifies(records, targets, r);
    }
    DistinctCount(a);
    DistinctCount(b);
    DistinctCount(targets);
    SubsetCount(Ids(a), Ids(targets));
    SubsetCount(Ids(b), Ids(targets));
  }

  /** The targets are 200 of the open records or more, or all of them, also those whose deadline passes while the
      listings are made. */
  lemma TargetsCover(records: seq<ExecutionRecord>, at: Readings, timeout: real, start: real, end: real)
    requires Distinct(records) && ReadInOrder(records, at, start, end)
    ensures var targets := TargetsAt(records, at, timeout);
            |targets| >= 200
            || forall r :: r in records && r.status in {Submitted, FailedUncertain, Reconciling, FailedDispatched} ==>
                 r in targets
  {
    TargetsExact(records, at, timeout, start, end);
    OverduePartExact(records, at.first, timeout);
    OthersPartExact(records, at.second, timeout);
    OverduePartExact(records, at.third, timeout);
    var targets := TargetsAt(records, at, timeout);
    if |targets| < TARGET_LIMIT {
      forall r | r in records && Wanted(r.status)
        ensures r in targets
      {
        var i :| 0 <= i < |records| && records[i] == r;
        ReadingsRise(records, at, start, end, i);
        assert OverdueAt(r, at.second[i], timeout) ==> OverdueAt(r, at.third[i], timeout);
      }
    }
  }

  /** Whoever is found overdue at any reading is found overdue by the last pass. So all of them are taken exactly when
      the general listing has those that the last pass cuts off; in particular when that pass finds at most 5000. */
  lemma OverdueAreTaken(records: seq<ExecutionRecord>, at: Readings, timeout: real, start: real, end: real)
    requires Distinct(records) && ReadInOrder(records, at, start, end)
    ensures OverdueTaken(records, at, timeout, TargetsAt(records, at, timeout))
       <==> forall r :: (r in OverduePart(records, at.third, timeout)
                         && r !in Cut(OverduePart(records, at.third, timeout), OVERDUE_LIMIT)) ==>
              r in Cut(OverdueFirst(records, at.first, at.second, timeout), TARGET_LIMIT)
    ensures |OverduePart(records, at.third, timeout)| <= 5000
            ==> OverdueTaken(records, at, timeout, TargetsAt(records, at, timeout))
    ensures OverdueTaken(records, at, timeout, TargetsAt(records, at, timeout))
            ==> forall i :: 0 <= i < |records| && records[i].status == Submitted
                            && records[i].times.submittedAt.Some?
                            && at.third[i] - records[i].times.submittedAt.value > timeout ==>
                  records[i] in TargetsAt(records, at, timeout)
  {
    TargetsExact(records, at, timeout, start, end);
    OverduePartExact(records, at.third, timeout);
    forall i | 0 <= i < |records| && FoundOverdue(records, at, timeout, i)
      ensures records[i] in OverduePart(records, at.third, timeout)
    {
      ReadingsRise(records, at, start, end, i);
    }
    forall r | r in OverduePart(records, at.third, timeout)
      ensures exists i :: 0 <= i < |records| && records[i] == r && FoundOverdue(records, at, timeout, i)
    {
      var i :| 0 <= i < |records| && records[i] == r;
      assert FoundOverdue(records, at, timeout, i);
    }
  }
}
