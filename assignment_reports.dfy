/** GET /assignments/reports: the query that selects the counted assignments
    and the `reduce` that folds them into one summary per housekeeper. */
module AssignmentReports {
  import opened Common
  import opened AssignmentSchema

  /** Query-string parameters; "" and None stand for a parameter not given. */
  datatype ReportQuery = ReportQuery(housekeeperId: Id, startDate: Option<int>, endDate: Option<int>)

  /** The Mongo query built from the parameters: only "Clean" rows (so
      "Inspected" work is not counted), the housekeeper only when one is
      given, and an inclusive `createdAt` window only when both bounds are. */
  predicate Counted(a: Assignment, q: ReportQuery) {
    && a.status == Clean
    && (q.housekeeperId != "" ==> a.housekeeperId == q.housekeeperId)
    && (q.startDate.Some? && q.endDate.Some? ==>
          q.startDate.value <= a.createdAt <= q.endDate.value)
  }

  /** One entry of the reply; `housekeeper` is reduced to its id. */
  datatype Summary = Summary(housekeeperId: Id, totalRooms: nat, totalTime: int, averageTime: int)

  /** The reducer's accumulator object, with its keys in insertion order
      (the order in which Object.values lists them). */
  datatype Tally = Tally(entries: map<Id, Summary>, order: seq<Id>)

  /** Keys listed once each, exactly the keys of the map, each entry under its own id. */
  ghost predicate Coherent(t: Tally) {
    && (forall i, j :: 0 <= i < j < |t.order| ==> t.order[i] != t.order[j])
    && (forall h :: h in t.order <==> h in t.entries)
    && (forall h :: h in t.entries ==> t.entries[h].housekeeperId == h)
  }

  /** One call of the reducer on the accumulator and the current assignment. */
  function Step(t: Tally, a: Assignment): Tally {
    var h := a.housekeeperId;
    var isNew := h !in t.entries;
    var s := if isNew then Summary(h, 0, 0, 0) else t.entries[h];
    var rooms := s.totalRooms + 1;
    var time := s.totalTime + a.totalMinutes;
    Tally(t.entries[h := s.(totalRooms := rooms, totalTime := time, averageTime := RoundDiv(time, rooms))],
          if isNew then t.order + [h] else t.order)
  }

  /** The reduction of `rows`, left to right, from the empty object. */
  function Accumulate(rows: seq<Assignment>): Tally {
    if rows == [] then Tally(map[], [])
    else Step(Accumulate(rows[..|rows| - 1]), rows[|rows| - 1])
  }

  /** A reducer call keeps the key list and the object in step. */
  lemma StepKeepsCoherent(t: Tally, a: Assignment)
    requires Coherent(t)
    ensures Coherent(Step(t, a))
  {
  }

  /** The accumulator lists each housekeeper once, in first-seen order. */
  lemma {:induction false} AccumulateCoherent(rows: seq<Assignment>)
    ensures Coherent(Accumulate(rows))
  {
    if rows != [] {
      AccumulateCoherent(rows[..|rows| - 1]);
      StepKeepsCoherent(Accumulate(rows[..|rows| - 1]), rows[|rows| - 1]);
    }
  }

  /** Object.values of the accumulator: its entries in key order (a listed key
      missing from the object, which Coherent rules out, would give an empty entry). */
  function Values(t: Tally): (report: seq<Summary>)
    ensures |report| == |t.order|
    ensures forall k :: 0 <= k < |report| && t.order[k] in t.entries ==>
      report[k] == t.entries[t.order[k]]
  {
    seq(|t.order|, k requires 0 <= k < |t.order| =>
      if t.order[k] in t.entries then t.entries[t.order[k]] else Summary(t.order[k], 0, 0, 0))
  }

  /** Reference count: how many of `rows` belong to housekeeper h. */
  function Count(rows: seq<Assignment>, h: Id): nat {
    if rows == [] then 0
    else Count(rows[..|rows| - 1], h) + (if rows[|rows| - 1].housekeeperId == h then 1 else 0)
  }

  /** Reference sum: the minutes of the rows of housekeeper h. */
  function Minutes(rows: seq<Assignment>, h: Id): int {
    if rows == [] then 0
    else Minutes(rows[..|rows| - 1], h) + (if rows[|rows| - 1].housekeeperId == h then rows[|rows| - 1].totalMinutes else 0)
  }

  /** A housekeeper has an entry iff at least one row is theirs, and the entry
      holds their row count, their minute total and the rounded mean of the two;
      the divisor is that count, so it is never zero. */
  lemma {:induction false} AccumulateMatchesCounts(rows: seq<Assignment>, h: Id)
    ensures h in Accumulate(rows).entries <==> Count(rows, h) > 0
    ensures Count(rows, h) == 0 ==> Minutes(rows, h) == 0
    ensures h in Accumulate(rows).entries ==>
      Accumulate(rows).entries[h] == Summary(h, Count(rows, h), Minutes(rows, h),
                                             RoundDiv(Minutes(rows, h), Count(rows, h)))
  {
    if rows != [] {
      var init, last := rows[..|rows| - 1], rows[|rows| - 1];
      AccumulateMatchesCounts(init, h);
      var t := Accumulate(init);
      assert Accumulate(rows) == Step(t, last);
      AccumulateCoherent(init);
      StepOnKey(t, last, h);
      if last.housekeeperId == h {
        assert Count(rows, h) == Count(init, h) + 1;
        assert Minutes(rows, h) == Minutes(init, h) + last.totalMinutes;
      } else {
        assert Count(rows, h) == Count(init, h) && Minutes(rows, h) == Minutes(init, h);
      }
    }
  }

  /** What one reducer call does to the entry of housekeeper h. */
  lemma StepOnKey(t: Tally, a: Assignment, h: Id)
    requires Coherent(t)
    ensures h in Step(t, a).entries <==> h in t.entries || h == a.housekeeperId
    ensures h != a.housekeeperId && h in t.entries ==> Step(t, a).entries[h] == t.entries[h]
    ensures h == a.housekeeperId && h in t.entries ==>
      var s := t.entries[h];
      Step(t, a).entries[h] == Summary(h, s.totalRooms + 1, s.totalTime + a.totalMinutes,
                                       RoundDiv(s.totalTime + a.totalMinutes, s.totalRooms + 1))
    ensures h == a.housekeeperId && h !in t.entries ==>
      Step(t, a).entries[h] == Summary(h, 1, a.totalMinutes, RoundDiv(a.totalMinutes, 1))
  {
  }

  /** Every housekeeper owning one of `rows` has an entry. */
  lemma OwnerHasEntry(rows: seq<Assignment>, a: Assignment)
    requires a in rows
    ensures a.housekeeperId in Accumulate(rows).entries
  {
    var k :| 0 <= k < |rows| && rows[k] == a;
    CountPositive(rows, k);
    AccumulateMatchesCounts(rows, a.housekeeperId);
  }

  lemma {:induction false} CountPositive(rows: seq<Assignment>, k: nat)
    requires k < |rows|
    ensures Count(rows, rows[k].housekeeperId) > 0
  {
    if k < |rows| - 1 {
      assert rows[..|rows| - 1][k] == rows[k];
      CountPositive(rows[..|rows| - 1], k);
    }
  }

  /** The listed summaries are exactly the per-housekeeper counts, once each,
      and every owner of a row is listed. */
  lemma ValuesMatchCounts(rows: seq<Assignment>)
    ensures var report := Values(Accumulate(rows));
      && (forall i, j :: 0 <= i < j < |report| ==> report[i].housekeeperId != report[j].housekeeperId)
      && (forall k :: 0 <= k < |report| ==>
            && report[k].totalRooms == Count(rows, report[k].housekeeperId) >= 1
            && report[k].totalTime == Minutes(rows, report[k].housekeeperId)
            && report[k].averageTime == RoundDiv(Minutes(rows, report[k].housekeeperId),
                                                 Count(rows, report[k].housekeeperId)))
      && (forall a :: a in rows ==>
            exists k :: 0 <= k < |report| && report[k].housekeeperId == a.housekeeperId)
  {
    AccumulateCoherent(rows);
    var t := Accumulate(rows);
    var report := Values(t);
    forall k | 0 <= k < |report|
      ensures report[k].totalRooms == Count(rows, report[k].housekeeperId) >= 1
      ensures report[k].totalTime == Minutes(rows, report[k].housekeeperId)
      ensures report[k].averageTime == RoundDiv(Minutes(rows, report[k].housekeeperId),
                                                Count(rows, report[k].housekeeperId))
    {
      AccumulateMatchesCounts(rows, t.order[k]);
    }
    forall a | a in rows
      ensures exists k :: 0 <= k < |report| && report[k].housekeeperId == a.housekeeperId
    {
      OwnerHasEntry(rows, a);
      var k :| 0 <= k < |t.order| && t.order[k] == a.housekeeperId;
      assert report[k].housekeeperId == a.housekeeperId;
    }
  }

  /** The reducer as the route runs it: the accumulator object is updated in
      place, one field at a time. */
  method Reduce(rows: seq<Assignment>) returns (acc: map<Id, Summary>, order: seq<Id>)
    ensures Tally(acc, order) == Accumulate(rows)
  {
    acc, order := map[], [];
    var i := 0;
    while i < |rows|
      invariant 0 <= i <= |rows|
      invariant Tally(acc, order) == Accumulate(rows[..i])
    {
      ghost var before := Tally(acc, order);
      var h := rows[i].housekeeperId;
      if h !in acc {
        acc := acc[h := Summary(h, 0, 0, 0)];
        order := order + [h];
      }
      var entry := acc[h];
      entry := entry.(totalRooms := entry.totalRooms + 1);
      entry := entry.(totalTime := entry.totalTime + rows[i].totalMinutes);
      entry := entry.(averageTime := RoundDiv(entry.totalTime, entry.totalRooms));
      acc := acc[h := entry];
      ghost var after := Step(before, rows[i]);
      assert acc == after.entries;
      assert order == after.order;
      assert rows[..i + 1][..i] == rows[..i];
      assert Accumulate(rows[..i + 1]) == after;
      i := i + 1;
    }
    assert rows[..i] == rows;
  }

  /** The reply of the route: Object.values of the reduced accumulator, one
      summary per housekeeper owning a row, with that housekeeper's count,
      minute total and rounded mean. */
  method Aggregate(rows: seq<Assignment>) returns (report: seq<Summary>)
    ensures report == Values(Accumulate(rows))
    ensures forall i, j :: 0 <= i < j < |report| ==> report[i].housekeeperId != report[j].housekeeperId
    ensures forall k :: 0 <= k < |report| ==>
      && report[k].totalRooms == Count(rows, report[k].housekeeperId) >= 1
      && report[k].totalTime == Minutes(rows, report[k].housekeeperId)
      && report[k].averageTime == RoundDiv(Minutes(rows, report[k].housekeeperId),
                                           Count(rows, report[k].housekeeperId))
    ensures forall a :: a in rows ==>
      exists k :: 0 <= k < |report| && report[k].housekeeperId == a.housekeeperId
  {
    var acc, order := Reduce(rows);
    report := Values(Tally(acc, order));
    ValuesMatchCounts(rows);
  }
}
