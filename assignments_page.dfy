/** The client's assignment board: the list of assignments, the map of cards
    whose cleaning is running, and a running time report per housekeeper,
    changed by the Start and Finish buttons. */
module AssignmentsPage {
  import opened Common
  import opened AssignmentSchema
  import opened Durations
  import opened AssignmentRoutes

  /** `assignments.map` of handleStartCleaning: each entry with the id gets
      status "In Progress" and start time now; nothing else changes. */
  function MarkStarted(list: seq<Assignment>, id: Id, now: int): (r: seq<Assignment>)
    ensures |r| == |list|
    ensures forall k :: 0 <= k < |list| ==> r[k].id == list[k].id
    ensures forall k :: 0 <= k < |list| && list[k].id != id ==> r[k] == list[k]
    ensures forall k :: 0 <= k < |list| && list[k].id == id ==>
      && r[k].status == InProgress && r[k].startTime == Some(now)
      && r[k].(status := list[k].status, startTime := list[k].startTime) == list[k]
  {
    seq(|list|, k requires 0 <= k < |list| =>
      if list[k].id == id then list[k].(status := InProgress, startTime := Some(now)) else list[k])
  }

  /** `assignments.map` of handleFinishCleaning: each entry with the id gets
      status "Clean", end time now and the given minutes; nothing else changes. */
  function MarkFinished(list: seq<Assignment>, id: Id, now: int, minutes: int): (r: seq<Assignment>)
    ensures |r| == |list|
    ensures forall k :: 0 <= k < |list| ==> r[k].id == list[k].id
    ensures forall k :: 0 <= k < |list| && list[k].id != id ==> r[k] == list[k]
    ensures forall k :: 0 <= k < |list| && list[k].id == id ==>
      && r[k].status == Clean && r[k].endTime == Some(now) && r[k].totalMinutes == minutes
      && r[k].(status := list[k].status, endTime := list[k].endTime,
               totalMinutes := list[k].totalMinutes) == list[k]
  {
    seq(|list|, k requires 0 <= k < |list| =>
      if list[k].id == id then list[k].(status := Clean, endTime := Some(now), totalMinutes := minutes)
      else list[k])
  }

  /** A housekeeper's running report. The page divides `totalTime` by a count
      as a float; the quotient is kept here as its numerator and denominator. */
  datatype TimeReport = TimeReport(totalTime: int, averageNumerator: int, averageDenominator: int)

  /** The entries of housekeeper hk that already carry minutes. */
  function Timed(list: seq<Assignment>, hk: Id): (r: seq<Assignment>)
    ensures forall a :: a in r <==> a in list && a.housekeeperId == hk && a.totalMinutes > 0
    ensures forall a :: multiset(r)[a]
                          == if a.housekeeperId == hk && a.totalMinutes > 0 then multiset(list)[a] else 0
  {
    FilterMultiplicities(list, (a: Assignment) => a.housekeeperId == hk && a.totalMinutes > 0);
    Filter(list, (a: Assignment) => a.housekeeperId == hk && a.totalMinutes > 0)
  }

  /** The `setReports` updater of handleFinishCleaning: housekeeper hk's total
      grows by `minutes` (from 0 when there is no entry yet), the average
      divides by the number of hk's entries already carrying minutes plus
      one, and every other housekeeper's entry is left alone. */
  function ReportAfterFinish(reports: map<Id, TimeReport>, hk: Id, minutes: int,
                             list: seq<Assignment>): (r: map<Id, TimeReport>)
    ensures r.Keys == reports.Keys + {hk}
    ensures forall h :: h in reports && h != hk ==> r[h] == reports[h]
    ensures r[hk].totalTime == (if hk in reports then reports[hk].totalTime else 0) + minutes
    ensures r[hk].averageNumerator == r[hk].totalTime
    ensures r[hk].averageDenominator == |Timed(list, hk)| + 1 >= 1
  {
    var previous := if hk in reports then reports[hk] else TimeReport(0, 0, 0);
    var total := previous.totalTime + minutes;
    reports[hk := TimeReport(total, total, |Timed(list, hk)| + 1)]
  }

  /** `activeAssignments[id]`: an id never set reads as undefined, i.e. false. */
  predicate IsActive(active: map<Id, bool>, id: Id) {
    id in active && active[id]
  }

  /** Which of the three buttons a card shows. */
  datatype Buttons = Buttons(start: bool, finish: bool, completed: bool)

  /** The card's button conditions: Start while not clean and not running,
      Finish while running, Completed once clean. Start and Finish never
      show together. */
  function ButtonsFor(a: Assignment, active: map<Id, bool>): (b: Buttons)
    ensures b.start <==> a.status != Clean && !IsActive(active, a.id)
    ensures b.finish <==> IsActive(active, a.id)
    ensures b.completed <==> a.status == Clean
    ensures !(b.start && b.finish)
  {
    Buttons(a.status != Clean && !IsActive(active, a.id), IsActive(active, a.id), a.status == Clean)
  }

  /** The page's three state fields. */
  class AssignmentsBoard {
    var assignments: seq<Assignment>
    var active: map<Id, bool>
    var reports: map<Id, TimeReport>

    constructor(fetched: seq<Assignment>)
      ensures assignments == fetched && active == map[] && reports == map[]
    {
      assignments := fetched;
      active := map[];
      reports := map[];
    }

    /** handleStartCleaning. */
    method StartCleaning(id: Id, now: int)
      modifies this
      ensures assignments == MarkStarted(old(assignments), id, now)
      ensures active == old(active)[id := true]
      ensures reports == old(reports)
    {
      assignments := MarkStarted(assignments, id, now);
      active := active[id := true];
    }

    /** handleFinishCleaning: nothing at all happens when the id is not in
        the list or its first entry has no start time. */
    method FinishCleaning(id: Id, now: int)
      modifies this
      ensures FinishTarget(old(assignments), id).None? ==>
        assignments == old(assignments) && active == old(active) && reports == old(reports)
      ensures FinishTarget(old(assignments), id).Some? ==>
        var a := FinishTarget(old(assignments), id).value;
        var minutes := WholeMinutes(now, a.startTime.value);
        && assignments == MarkFinished(old(assignments), id, now, minutes)
        && reports == ReportAfterFinish(old(reports), a.housekeeperId, minutes, old(assignments))
        && active == old(active)[id := false]
    {
      var target := FinishTarget(assignments, id);
      if target.Some? {
        var endTime := now;
        var totalMinutes := WholeMinutes(endTime, target.value.startTime.value);
        assignments, reports, active :=
          MarkFinished(assignments, id, endTime, totalMinutes),
          ReportAfterFinish(reports, target.value.housekeeperId, totalMinutes, assignments),
          active[id := false];
      }
    }
  }

  /** The entry handleFinishCleaning works on: the first with the id, when it
      has been started; None when there is no such entry or it has no start
      time. */
  function FinishTarget(list: seq<Assignment>, id: Id): (r: Option<Assignment>)
    ensures r.Some? <==> IndexOf(list, id).Some? && list[IndexOf(list, id).value].startTime.Some?
    ensures r.Some? ==> r.value == list[IndexOf(list, id).value] && r.value.id == id
    ensures r.Some? ==> r.value.startTime.Some?
  {
    var found := IndexOf(list, id);
    if found.Some? && list[found.value].startTime.Some? then Some(list[found.value]) else None
  }

  /** Starting a card hides its Start button and shows Finish; finishing it
      afterwards shows only Completed. */
  lemma StartThenFinishButtons(list: seq<Assignment>, active: map<Id, bool>, k: nat,
                               t0: int, t1: int, minutes: int)
    requires k < |list|
    ensures var id := list[k].id;
      var started := MarkStarted(list, id, t0);
      var finished := MarkFinished(started, id, t1, minutes);
      && ButtonsFor(started[k], active[id := true]) == Buttons(false, true, false)
      && ButtonsFor(finished[k], active[id := true][id := false]) == Buttons(false, false, true)
  {
  }

  /** Finishing a card on the page and completing the assignment on the
      server give the same record except for the minutes: the page drops
      the fraction, the server rounds it, so the server's figure is one
      higher exactly when at least half a minute is left over. */
  lemma FinishVersusServerComplete(list: seq<Assignment>, k: nat, now: int)
    requires k < |list| && list[k].startTime.Some? && now >= list[k].startTime.value
    ensures var span := now - list[k].startTime.value;
      var page := MarkFinished(list, list[k].id, now, WholeMinutes(now, list[k].startTime.value))[k];
      var server := Completed(list[k], now);
      && page == server.(totalMinutes := page.totalMinutes)
      && server.totalMinutes - page.totalMinutes == (if span % MinuteMs >= MinuteMs / 2 then 1 else 0)
  {
    RoundedVersusWhole(now, list[k].startTime.value);
  }
}
