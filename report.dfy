/**
 * `ReportViewModel` (CVX-QLSX.App/ViewModels/ReportViewModel.cs): the plan report over a range of
 * days. The database holds plans as values; the query, the summary counts and the export guard
 * are modelled, the Excel workbook is not.
 *
 * A `DateTime` is its tick count (100 ns units); `Date` is the midnight that starts its day.
 */
module Report {
  import opened Wrappers
  import opened Int32s
  import opened Plans

  const TicksPerDay: int := 864_000_000_000

  /** The day a timestamp falls in. */
  function Day(t: Timestamp): int {
    t / TicksPerDay
  }

  /** `DateTime.Date`: the midnight that starts the day. */
  function StartOfDay(t: Timestamp): Timestamp {
    Day(t) * TicksPerDay
  }

  /** The query's window: from midnight of `fromDate` up to, not including, midnight of the day
      after `toDate`. */
  predicate InWindow(createdAt: Timestamp, fromDate: Timestamp, toDate: Timestamp) {
    StartOfDay(fromDate) <= createdAt < StartOfDay(toDate) + TicksPerDay
  }

  /** A plan is in the window exactly when it was created on a day from `fromDate`'s to `toDate`'s,
      both included. */
  lemma InWindowIffDays(createdAt: Timestamp, fromDate: Timestamp, toDate: Timestamp)
    ensures InWindow(createdAt, fromDate, toDate) <==> Day(fromDate) <= Day(createdAt) <= Day(toDate)
  {
    var c, f, t := Day(createdAt), Day(fromDate), Day(toDate);
    assert c * TicksPerDay <= createdAt < c * TicksPerDay + TicksPerDay;
    if f <= c {
      assert f * TicksPerDay <= c * TicksPerDay;
    }
    if c <= t {
      assert c * TicksPerDay + TicksPerDay <= t * TicksPerDay + TicksPerDay;
    }
    if f * TicksPerDay <= createdAt {
      assert f < c + 1;
    }
    if createdAt < t * TicksPerDay + TicksPerDay {
      assert c * TicksPerDay < (t + 1) * TicksPerDay;
      assert c < t + 1;
    }
  }

  /** The `Where` clause: the plans in the window, in database order. */
  function Window(db: seq<PlanValue>, fromDate: Timestamp, toDate: Timestamp): seq<PlanValue> {
    if db == [] then []
    else (if InWindow(db[0].createdAt, fromDate, toDate) then [db[0]] else []) + Window(db[1..], fromDate, toDate)
  }

  lemma {:induction false} WindowMembers(db: seq<PlanValue>, fromDate: Timestamp, toDate: Timestamp, p: PlanValue)
    ensures p in Window(db, fromDate, toDate) <==> p in db && InWindow(p.createdAt, fromDate, toDate)
  {
    if db != [] {
      WindowMembers(db[1..], fromDate, toDate, p);
      assert db == [db[0]] + db[1..];
    }
  }

  lemma {:induction false} WindowLength(db: seq<PlanValue>, fromDate: Timestamp, toDate: Timestamp)
    ensures |Window(db, fromDate, toDate)| <= |db|
  {
    if db != [] {
      WindowLength(db[1..], fromDate, toDate);
    }
  }

  /** Newest first: `CreatedAt` never increases along the list. */
  predicate NewestFirst(ps: seq<PlanValue>) {
    forall i, j :: 0 <= i < j < |ps| ==> ps[i].createdAt >= ps[j].createdAt
  }

  /** Places a plan before the first one that is not newer. */
  function Insert(p: PlanValue, ps: seq<PlanValue>): seq<PlanValue> {
    if ps == [] || p.createdAt >= ps[0].createdAt then [p] + ps else [ps[0]] + Insert(p, ps[1..])
  }

  /** `OrderByDescending(p => p.CreatedAt)`, as an insertion sort. */
  function SortNewestFirst(ps: seq<PlanValue>): seq<PlanValue> {
    if ps == [] then [] else Insert(ps[0], SortNewestFirst(ps[1..]))
  }

  /** No plan of `ps` is newer than `t`. */
  predicate NoneNewer(t: Timestamp, ps: seq<PlanValue>) {
    forall q :: q in ps ==> q.createdAt <= t
  }

  lemma ConsNewestFirst(p: PlanValue, ps: seq<PlanValue>)
    requires NoneNewer(p.createdAt, ps) && NewestFirst(ps)
    ensures NewestFirst([p] + ps)
  {
    var r := [p] + ps;
    forall i, j | 0 <= i < j < |r| ensures r[i].createdAt >= r[j].createdAt {
      assert r[j] == ps[j - 1];
      if i > 0 {
        assert r[i] == ps[i - 1];
      } else {
        assert r[j] in ps;
      }
    }
  }

  lemma TailNewestFirst(ps: seq<PlanValue>)
    requires NewestFirst(ps) && ps != []
    ensures NewestFirst(ps[1..]) && NoneNewer(ps[0].createdAt, ps[1..])
  {
    var rest := ps[1..];
    forall i, j | 0 <= i < j < |rest| ensures rest[i].createdAt >= rest[j].createdAt {
      assert rest[i] == ps[i + 1] && rest[j] == ps[j + 1];
    }
    forall q | q in rest ensures q.createdAt <= ps[0].createdAt {
      var k :| 0 <= k < |rest| && rest[k] == q;
      assert rest[k] == ps[k + 1];
    }
  }

  lemma {:induction false} InsertSpec(p: PlanValue, ps: seq<PlanValue>)
    requires NewestFirst(ps)
    ensures NewestFirst(Insert(p, ps))
    ensures multiset(Insert(p, ps)) == multiset{p} + multiset(ps)
  {
    if ps == [] || p.createdAt >= ps[0].createdAt {
      if ps != [] {
        TailNewestFirst(ps);
        assert ps == [ps[0]] + ps[1..];
      }
      ConsNewestFirst(p, ps);
    } else {
      var rest := ps[1..];
      TailNewestFirst(ps);
      InsertSpec(p, rest);
      var tail := Insert(p, rest);
      assert ps == [ps[0]] + rest;
      assert NoneNewer(ps[0].createdAt, tail) by {
        forall q | q in tail ensures q.createdAt <= ps[0].createdAt {
          assert q in multiset(tail);
        }
      }
      ConsNewestFirst(ps[0], tail);
    }
  }

  /** The sort yields the same plans, newest first. */
  lemma {:induction false} SortSpec(ps: seq<PlanValue>)
    ensures NewestFirst(SortNewestFirst(ps))
    ensures multiset(SortNewestFirst(ps)) == multiset(ps)
  {
    if ps != [] {
      SortSpec(ps[1..]);
      InsertSpec(ps[0], SortNewestFirst(ps[1..]));
      assert ps == [ps[0]] + ps[1..];
    }
  }

  /** The plans the report lists. */
  function Query(db: seq<PlanValue>, fromDate: Timestamp, toDate: Timestamp): seq<PlanValue> {
    SortNewestFirst(Window(db, fromDate, toDate))
  }

  /** A plan is listed exactly when it is in the database and in the window; the list is newest
      first and holds each plan as often as the window does, so no more plans than the database. */
  lemma QuerySpec(db: seq<PlanValue>, fromDate: Timestamp, toDate: Timestamp, p: PlanValue)
    ensures p in Query(db, fromDate, toDate) <==> p in db && InWindow(p.createdAt, fromDate, toDate)
    ensures NewestFirst(Query(db, fromDate, toDate))
    ensures multiset(Query(db, fromDate, toDate)) == multiset(Window(db, fromDate, toDate))
    ensures |Query(db, fromDate, toDate)| <= |db|
  {
    var w := Window(db, fromDate, toDate);
    SortSpec(w);
    WindowMembers(db, fromDate, toDate, p);
    QueryLength(db, fromDate, toDate);
    assert p in Query(db, fromDate, toDate) <==> p in multiset(Query(db, fromDate, toDate));
    assert p in w <==> p in multiset(w);
  }

  lemma QueryLength(db: seq<PlanValue>, fromDate: Timestamp, toDate: Timestamp)
    ensures |Query(db, fromDate, toDate)| <= |db|
  {
    var w := Window(db, fromDate, toDate);
    SortSpec(w);
    WindowLength(db, fromDate, toDate);
    assert |Query(db, fromDate, toDate)| == |multiset(Query(db, fromDate, toDate))| == |multiset(w)| == |w|;
  }

  /** `Count(p => p.Status == status)`. */
  function CountStatus(ps: seq<PlanValue>, status: PlanStatus): nat {
    if ps == [] then 0 else (if ps[0].status == status then 1 else 0) + CountStatus(ps[1..], status)
  }

  /** Different statuses are counted on different plans, so Completed + Cancelled <= Total. */
  lemma {:induction false} CompletedAndCancelledWithinTotal(ps: seq<PlanValue>)
    ensures CountStatus(ps, Completed) + CountStatus(ps, Cancelled) <= |ps|
  {
    if ps != [] {
      CompletedAndCancelledWithinTotal(ps[1..]);
    }
  }

  /** The mathematical sum of `CurrentQuantity`. */
  function Sum(ps: seq<PlanValue>): int {
    if ps == [] then 0 else ps[0].currentQuantity + Sum(ps[1..])
  }

  /** `Sum(p => p.CurrentQuantity)` on `int`, which is checked: it throws `OverflowException`
      (`None`) as soon as a running total leaves the Int32 range. */
  function CheckedSum(acc: Int32, ps: seq<PlanValue>): Option<Int32>
    decreases |ps|
  {
    if ps == [] then Some(acc)
    else
      var next := acc as int + ps[0].currentQuantity;
      if !InRange(next) then None else CheckedSum(next, ps[1..])
  }

  /** A checked sum that does not throw is the exact sum. */
  lemma {:induction false} CheckedSumExact(acc: Int32, ps: seq<PlanValue>)
    ensures CheckedSum(acc, ps).Some? ==> CheckedSum(acc, ps).value == acc + Sum(ps)
    decreases |ps|
  {
    if ps != [] {
      var next := acc as int + ps[0].currentQuantity;
      if InRange(next) {
        CheckedSumExact(next, ps[1..]);
      }
    }
  }

  /** Non-negative quantities whose total fits never overflow. */
  lemma {:induction false} CheckedSumSucceeds(acc: Int32, ps: seq<PlanValue>)
    requires 0 <= acc
    requires forall p :: p in ps ==> p.currentQuantity >= 0
    requires acc + Sum(ps) <= MaxInt32
    ensures CheckedSum(acc, ps) == Some(acc + Sum(ps))
    decreases |ps|
  {
    if ps != [] {
      assert ps[0] in ps;
      NonNegativeSum(ps[1..]);
      CheckedSumSucceeds(acc + ps[0].currentQuantity, ps[1..]);
    }
  }

  lemma {:induction false} NonNegativeSum(ps: seq<PlanValue>)
    requires forall p :: p in ps ==> p.currentQuantity >= 0
    ensures Sum(ps) >= 0
  {
    if ps != [] {
      assert ps[0] in ps;
      NonNegativeSum(ps[1..]);
    }
  }

  /** `GetStatusText`: the label of a status in the report. */
  function GetStatusText(status: PlanStatus): string {
    match status
    case Waiting => "Chờ"
    case Running => "Đang chạy"
    case Completed => "Hoàn thành"
    case Cancelled => "Đã hủy"
  }

  /** Every status has its own label. */
  lemma StatusTextDistinct(a: PlanStatus, b: PlanStatus)
    ensures GetStatusText(a) == GetStatusText(b) <==> a == b
  {
  }

  const NoDataMessage := "Không có dữ liệu để xuất!"
  const ExportedPrefix := "✓ Đã xuất file: "
  const ErrorPrefix := "✗ Lỗi: "

  /** The view model's state as one value. */
  datatype ReportState = ReportState(
    fromDate: Timestamp,
    toDate: Timestamp,
    plans: seq<PlanValue>,
    totalPlans: Int32,
    completedPlans: Int32,
    cancelledPlans: Int32,
    totalActualQuantity: Int32,
    exportStatus: string,
    isBusy: bool)

  class ReportViewModel {
    var fromDate: Timestamp
    var toDate: Timestamp
    /** The `Plans` collection. */
    var plans: seq<PlanValue>
    var totalPlans: Int32
    var completedPlans: Int32
    var cancelledPlans: Int32
    var totalActualQuantity: Int32
    var exportStatus: string
    var isBusy: bool

    function State(): ReportState
      reads this
    {
      ReportState(fromDate, toDate, plans, totalPlans, completedPlans, cancelledPlans,
        totalActualQuantity, exportStatus, isBusy)
    }

    /** The summary the fields show after a load of `plans` that did not throw. */
    predicate Summarises(db: seq<PlanValue>)
      reads this
    {
      && plans == Query(db, fromDate, toDate)
      && totalPlans == |plans|
      && completedPlans == CountStatus(plans, Completed)
      && cancelledPlans == CountStatus(plans, Cancelled)
      && CheckedSum(0, plans) == Some(totalActualQuantity)
    }

    /** The constructor: the last 30 days up to `today` (a midnight), then the first load. */
    constructor(today: Timestamp, db: seq<PlanValue>)
      requires |db| <= MaxInt32
      ensures fromDate == today - 30 * TicksPerDay && toDate == today
      ensures plans == Query(db, fromDate, toDate)
      ensures totalPlans == |plans|
      ensures completedPlans == CountStatus(plans, Completed)
      ensures cancelledPlans == CountStatus(plans, Cancelled)
      ensures CheckedSum(0, plans).Some? ==> Summarises(db)
      ensures CheckedSum(0, plans).None? ==> totalActualQuantity == 0
      ensures exportStatus == "" && !isBusy
    {
      fromDate := today - 30 * TicksPerDay;
      toDate := today;
      plans := [];
      totalPlans, completedPlans, cancelledPlans, totalActualQuantity := 0, 0, 0, 0;
      exportStatus := "";
      isBusy := false;
      new;
      var _ := LoadReport(db);
    }

    /** `LoadReportAsync` against the database `db`: clears `Plans`, refills it with the query
        result and sets the summary. `overflowed` is true where the checked sum throws: the
        counts are then set but `TotalActualQuantity` is not. */
    method LoadReport(db: seq<PlanValue>) returns (overflowed: bool)
      requires |db| <= MaxInt32
      modifies this
      ensures plans == Query(db, fromDate, toDate)
      ensures totalPlans == |plans|
      ensures completedPlans == CountStatus(plans, Completed)
      ensures cancelledPlans == CountStatus(plans, Cancelled)
      ensures overflowed <==> CheckedSum(0, plans).None?
      ensures !overflowed ==> Some(totalActualQuantity) == CheckedSum(0, plans)
      ensures overflowed ==> totalActualQuantity == old(totalActualQuantity)
      ensures !overflowed ==> Summarises(db)
      ensures fromDate == old(fromDate) && toDate == old(toDate)
      ensures exportStatus == old(exportStatus) && !isBusy
    {
      isBusy := true;
      var result := Query(db, fromDate, toDate);
      QueryLength(db, fromDate, toDate);
      ReplacePlans(result);
      totalPlans := |result|;
      CompletedAndCancelledWithinTotal(result);
      completedPlans := CountStatus(result, Completed);
      cancelledPlans := CountStatus(result, Cancelled);
      var sum := CheckedSum(0, result);
      overflowed := sum.None?;
      if !overflowed {
        totalActualQuantity := sum.value;
      }
      isBusy := false;
    }

    /** `Plans.Clear()` followed by one `Plans.Add` per plan of `result`. */
    method ReplacePlans(result: seq<PlanValue>)
      modifies this
      ensures State() == old(State()).(plans := result)
    {
      plans := [];
      var i := 0;
      while i < |result|
        invariant 0 <= i <= |result|
        invariant State() == old(State()).(plans := result[..i])
      {
        plans := plans + [result[i]];
        i := i + 1;
      }
    }

    /** Setting `FromDate` reloads the report when the date changes. */
    method SetFromDate(value: Timestamp, db: seq<PlanValue>) returns (overflowed: bool)
      requires |db| <= MaxInt32
      modifies this
      ensures value == old(fromDate) ==> State() == old(State()) && !overflowed
      ensures value != old(fromDate) ==> (fromDate == value && plans == Query(db, value, toDate)
        && totalPlans == |plans|
        && completedPlans == CountStatus(plans, Completed)
        && cancelledPlans == CountStatus(plans, Cancelled)
        && (overflowed <==> CheckedSum(0, plans).None?)
        && (!overflowed ==> Summarises(db))
        && (overflowed ==> totalActualQuantity == old(totalActualQuantity))
        && exportStatus == old(exportStatus) && !isBusy)
      ensures toDate == old(toDate)
    {
      overflowed := false;
      if value != fromDate {
        fromDate := value;
        overflowed := LoadReport(db);
      }
    }

    /** Setting `ToDate` reloads the report when the date changes. */
    method SetToDate(value: Timestamp, db: seq<PlanValue>) returns (overflowed: bool)
      requires |db| <= MaxInt32
      modifies this
      ensures value == old(toDate) ==> State() == old(State()) && !overflowed
      ensures value != old(toDate) ==> (toDate == value && plans == Query(db, fromDate, value)
        && totalPlans == |plans|
        && completedPlans == CountStatus(plans, Completed)
        && cancelledPlans == CountStatus(plans, Cancelled)
        && (overflowed <==> CheckedSum(0, plans).None?)
        && (!overflowed ==> Summarises(db))
        && (overflowed ==> totalActualQuantity == old(totalActualQuantity))
        && exportStatus == old(exportStatus) && !isBusy)
      ensures fromDate == old(fromDate)
    {
      overflowed := false;
      if value != toDate {
        toDate := value;
        overflowed := LoadReport(db);
      }
    }

    /** `ExportToExcel`: with no plans only the "no data" message is set. Otherwise `fileName` is
        the save dialog's choice (`None`: cancelled, nothing happens) and `failure` the message of
        the exception the workbook save throws, if any. */
    method ExportToExcel(fileName: Option<string>, failure: Option<string>)
      modifies this
      ensures |old(plans)| == 0 ==> State() == old(State()).(exportStatus := NoDataMessage)
      ensures |old(plans)| > 0 && fileName.None? ==> State() == old(State())
      ensures |old(plans)| > 0 && fileName.Some? ==> State() == old(State()).(exportStatus :=
        if failure.Some? then ErrorPrefix + failure.value else ExportedPrefix + fileName.value)
    {
      if |plans| == 0 {
        exportStatus := NoDataMessage;
        return;
      }
      if fileName.None? {
        return;
      }
      if failure.Some? {
        exportStatus := ErrorPrefix + failure.value;
      } else {
        exportStatus := ExportedPrefix + fileName.value;
      }
    }
  }

  /** The export guard fires exactly for a report with no plans, which is one whose window holds
      no plan of the database. */
  lemma EmptyReportIffNoPlanInWindow(db: seq<PlanValue>, fromDate: Timestamp, toDate: Timestamp)
    ensures |Query(db, fromDate, toDate)| == 0 <==>
      forall p :: p in db ==> !InWindow(p.createdAt, fromDate, toDate)
  {
    var q := Query(db, fromDate, toDate);
    if |q| > 0 {
      QuerySpec(db, fromDate, toDate, q[0]);
    } else {
      forall p | p in db ensures !InWindow(p.createdAt, fromDate, toDate) {
        QuerySpec(db, fromDate, toDate, p);
      }
    }
  }
}
