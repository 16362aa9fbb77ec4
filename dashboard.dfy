/**
 * The plan queue of `DashboardViewModel` (CVX-QLSX.App/ViewModels/DashboardViewModel.cs).
 *
 * The dashboard owns a newest-first list of plans and a reference to the plan being produced. It feeds
 * decoded camera records to the `CounterService` and reacts to the counter's notifications: each
 * notification becomes the current plan's quantity, and a plan that reaches its target is completed
 * and the first Waiting plan of the list is started. Every handler runs to completion before the
 * next one starts (the UI dispatcher), and the counter's `CountsUpdated` notification is delivered
 * to `OnCountsUpdated` at the moment the counter raises it. Database saves are appended to `store`.
 */
module Dashboard {
  import opened Wrappers
  import opened Int32s
  import opened Text
  import opened Dates
  import PacketParser
  import opened ProductionDataModule
  import opened Counter
  import opened Plans

  /** `ProductionRecord`: what a finished plan leaves for the reports. */
  datatype ProductionRecord = ProductionRecord(
    timestamp: Timestamp,
    productId: string,
    total: Int32,
    ok: Int32,
    ng: Int32,
    mfgDate: string,
    expDate: string)

  /** One entity written by a `SaveChangesAsync`. */
  datatype StoreWrite = SavedPlan(plan: PlanValue) | SavedRecord(record: ProductionRecord)

  /** `FormatDate`: a six-character valid ddMMyy text is shown as dd/MM/yyyy; any other text is
      shown as it came. */
  function FormatDate(rawDate: string): (r: string)
    ensures r == rawDate <==> PacketParser.ParseDate(rawDate).None?
    ensures PacketParser.ParseDate(rawDate).Some? ==> r == FormatDisplay(PacketParser.ParseDate(rawDate).value)
  {
    if IsBlank(rawDate) || |rawDate| != 6 then rawDate
    else
      match ParseDdMMyy(rawDate)
      case Some(d) => FormatDisplay(d)
      case None => rawDate
  }

  /** What is shown for a received date agrees with `PacketParser.FormatDateDisplay` of the parsed
      date whenever the text is a date. */
  lemma FormatDateAgreesWithPacketParser(rawDate: string)
    requires PacketParser.ParseDate(rawDate).Some?
    ensures FormatDate(rawDate) == PacketParser.FormatDateDisplay(PacketParser.ParseDate(rawDate))
  {
  }

  /** The "Đang SX: {name}" caption of the plan being produced. */
  function RunningCaption(productName: string): string {
    "\U{0110}ang SX: " + productName
  }

  /** `Math.Max(0, target - current)`: what is still to be produced. */
  function Remaining(current: Int32, target: Int32): (r: Int32)
    ensures r >= 0
    ensures 0 <= current <= target ==> r == target - current
    ensures 0 <= target <= current ==> r == 0
  {
    var d := Wrap(target - current);
    if d < 0 then 0 else d
  }

  predicate Distinct(ps: seq<ProductionPlan>) {
    forall i, j :: 0 <= i < j < |ps| ==> ps[i] != ps[j]
  }

  /** The position of the first plan at or after `k` with status `st`. */
  function FirstFrom(ps: seq<ProductionPlan>, st: PlanStatus, k: nat): (r: Option<nat>)
    requires k <= |ps|
    reads ps
    ensures r.Some? ==> k <= r.value < |ps| && ps[r.value].status == st
    ensures r.Some? ==> forall i :: k <= i < r.value ==> ps[i].status != st
    ensures r.None? ==> forall i :: k <= i < |ps| ==> ps[i].status != st
    decreases |ps| - k
  {
    if k == |ps| then None
    else if ps[k].status == st then Some(k)
    else FirstFrom(ps, st, k + 1)
  }

  /** `ps.FirstOrDefault(p => p.Status == st)`. */
  function FirstOrDefault(ps: seq<ProductionPlan>, st: PlanStatus): (r: ProductionPlan?)
    reads ps
    ensures r == null <==> NoneWith(ps, st)
    ensures r != null ==> r in ps && r.status == st
    ensures r != null ==> exists i :: 0 <= i < |ps| && ps[i] == r && forall j :: 0 <= j < i ==> ps[j].status != st
  {
    match FirstFrom(ps, st, 0)
    case None => null
    case Some(i) => ps[i]
  }

  predicate NoneWith(ps: seq<ProductionPlan>, st: PlanStatus)
    reads ps
  {
    forall p :: p in ps ==> p.status != st
  }

  /** The new-plan form passes the guard of line 450. */
  predicate FormAccepted(name: string, quantity: Int32) {
    !IsBlank(name) && quantity > 0
  }

  /** The plan `AddPlanAsync` creates: Waiting, for the form's product and quantity, numbered one
      past the highest listed `QueueOrder`. */
  function QueuedPlanValue(name: string, quantity: Int32, maxOrder: Int32, now: Timestamp): PlanValue {
    NewPlanValue(now).(productName := name, targetQuantity := quantity, queueOrder := Wrap(maxOrder as int + 1))
  }

  /** No two listed plans are Running. */
  predicate AtMostOneRunning(ps: seq<ProductionPlan>)
    reads ps
  {
    forall i, j :: 0 <= i < |ps| && 0 <= j < |ps| && ps[i].status == Running && ps[j].status == Running ==> i == j
  }

  /** The counts of a received record, as the `CameraPacket` built from it carries them. */
  function DataCounts(data: ProductionData): Counts {
    Counts(data.totalCount, data.okCount, data.ngCount)
  }

  /** `ps.Max(p => p.QueueOrder)`, and 0 for an empty list. */
  function MaxQueueOrder(ps: seq<ProductionPlan>): (m: Int32)
    reads ps
    ensures forall i :: 0 <= i < |ps| ==> ps[i].queueOrder <= m
    ensures |ps| > 0 ==> exists i :: 0 <= i < |ps| && ps[i].queueOrder == m
    ensures |ps| == 0 ==> m == 0
    decreases |ps|
  {
    if |ps| == 0 then 0
    else if |ps| == 1 then ps[0].queueOrder
    else
      var rest := MaxQueueOrder(ps[1..]);
      assert forall i :: 1 <= i < |ps| ==> ps[i] == ps[1..][i - 1];
      if ps[0].queueOrder >= rest then ps[0].queueOrder else rest
  }

  class DashboardViewModel {
    const counter: CounterService
    var allPlans: seq<ProductionPlan>
    var currentPlan: ProductionPlan?
    var hasCurrentPlan: bool
    var currentPlanStatusText: string
    var targetQuantity: Int32
    var totalCount: Int32
    var okCount: Int32
    var ngCount: Int32
    var productId: string
    var mfgDateDisplay: string
    var expDateDisplay: string
    var newPlanProduct: string
    var newPlanQuantity: Int32
    /** Every entity saved so far, in order. */
    var store: seq<StoreWrite>

    /** The list and the current plan fit together: no plan is listed twice, and the current plan is one
        of the listed plans. */
    predicate Structural()
      reads this
    {
      Distinct(allPlans) && (currentPlan != null ==> currentPlan in allPlans)
    }

    /** Between handlers: the current plan is Running, and without a current plan nothing waits. */
    predicate Wellformed()
      reads this, allPlans
    {
      && Structural()
      && (currentPlan != null ==> currentPlan.status == Running)
      && (currentPlan == null ==> NoneWith(allPlans, Waiting))
    }

    /** `HasCurrentPlan` tells whether there is a current plan. */
    predicate Synced()
      reads this
    {
      hasCurrentPlan == (currentPlan != null)
    }

    predicate Valid()
      reads this, allPlans
    {
      Wellformed() && Synced()
    }

    /** At most one plan is Running, and it is the current plan. */
    predicate QueueInvariant()
      reads this, allPlans
    {
      forall p :: p in allPlans && p.status == Running ==> p == currentPlan
    }

    /** The plans the queue may still start or complete: it shrinks on every completion, which is
        what ends the chain of completions a notification can set off. */
    function Pending(): set<ProductionPlan>
      reads this, allPlans
    {
      set p | p in allPlans && (p.status == Waiting || p == currentPlan)
    }

    /** The counts and texts on screen. */
    function Shown(): (Int32, Int32, Int32, string, string, string)
      reads this
    {
      (totalCount, okCount, ngCount, productId, mfgDateDisplay, expDateDisplay)
    }

    constructor(counter: CounterService)
      ensures this.counter == counter
      ensures allPlans == [] && currentPlan == null && !hasCurrentPlan && store == []
      ensures Shown() == (0, 0, 0, "-", "-", "-")
      ensures newPlanProduct == "" && newPlanQuantity == 1000
      ensures Valid() && QueueInvariant()
    {
      this.counter := counter;
      allPlans := [];
      currentPlan := null;
      hasCurrentPlan := false;
      currentPlanStatusText := "";
      targetQuantity := 0;
      totalCount, okCount, ngCount := 0, 0, 0;
      productId, mfgDateDisplay, expDateDisplay := "-", "-", "-";
      newPlanProduct := "";
      newPlanQuantity := 1000;
      store := [];
    }

    /** `UpdateCurrentPlanStatus`. */
    method UpdateCurrentPlanStatus()
      modifies this
      ensures Synced()
      ensures currentPlan != null ==>
        currentPlanStatusText == RunningCaption(currentPlan.productName) && targetQuantity == currentPlan.targetQuantity
      ensures currentPlan == null ==> currentPlanStatusText == "" && targetQuantity == 0
      ensures allPlans == old(allPlans) && currentPlan == old(currentPlan) && store == old(store)
      ensures Shown() == old(Shown())
      ensures newPlanProduct == old(newPlanProduct) && newPlanQuantity == old(newPlanQuantity)
    {
      hasCurrentPlan := currentPlan != null;
      if currentPlan != null {
        currentPlanStatusText := RunningCaption(currentPlan.productName);
        targetQuantity := currentPlan.targetQuantity;
      } else {
        currentPlanStatusText := "";
        targetQuantity := 0;
      }
    }

    /** `OnCountsUpdated`: a counter notification is shown, becomes the current plan's quantity,
        which is saved, and a plan that reached its target is completed. */
    method OnCountsUpdated(e: Counts, now: Timestamp)
      requires Wellformed()
      modifies this, counter, allPlans
      decreases Pending(), 3
      ensures allPlans == old(allPlans) && Wellformed()
      ensures old(Synced()) ==> Synced()
      ensures old(QueueInvariant()) ==> QueueInvariant()
      ensures old(store) <= store && old(counter.updates) <= counter.updates
      ensures newPlanProduct == old(newPlanProduct) && newPlanQuantity == old(newPlanQuantity)
      ensures forall p :: p in allPlans && p != old(currentPlan) && old(p.status) != Waiting ==> p.Value() == old(p.Value())
      ensures old(currentPlan) == null ==>
        && currentPlan == null && store == old(store) && unchanged(counter)
        && Shown() == (e.total, e.ok, e.ng, old(productId), old(mfgDateDisplay), old(expDateDisplay))
      ensures old(currentPlan) != null && e.total < old(currentPlan.targetQuantity) ==>
        && currentPlan == old(currentPlan)
        && currentPlan.Value() == old(currentPlan.Value()).(currentQuantity := e.total)
        && store == old(store) + [SavedPlan(currentPlan.Value())]
        && (forall p :: p in allPlans && p != currentPlan ==> p.Value() == old(p.Value()))
        && unchanged(counter)
        && Shown() == (e.total, e.ok, e.ng, old(productId), old(mfgDateDisplay), old(expDateDisplay))
      ensures old(currentPlan) != null && e.total >= old(currentPlan.targetQuantity) ==>
        && old(currentPlan).Value() == old(currentPlan.Value()).(currentQuantity := e.total, status := Completed, completedAt := Some(now))
        && old(store) + [SavedPlan(old(currentPlan.Value()).(currentQuantity := e.total))]
             + [SavedRecord(ProductionRecord(now, old(currentPlan.productName), e.total, e.ok, e.ng,
                  old(mfgDateDisplay), old(expDateDisplay))), SavedPlan(old(currentPlan).Value())] <= store
        && currentPlan != old(currentPlan) && Synced() && counter.State() == Initial
      ensures var next := old(FirstOrDefault(allPlans, Waiting));
        && (old(currentPlan) != null && e.total >= old(currentPlan.targetQuantity) && next == null ==> currentPlan == null)
        && (old(currentPlan) != null && e.total >= old(currentPlan.targetQuantity) && next != null && old(next.targetQuantity) > 0 ==>
              currentPlan == next && next.Value() == old(next.Value()).(status := Running, startedAt := Some(now), currentQuantity := 0))
        && (old(currentPlan) != null && e.total >= old(currentPlan.targetQuantity) && (next == null || old(next.targetQuantity) > 0) ==>
              Shown() == (0, 0, 0, old(productId), old(mfgDateDisplay), old(expDateDisplay)))
    {
      ShowCounts(e);
      if currentPlan != null {
        TrackCurrentPlan(e.total, now);
      }
    }

    /** Lines 327-329: the notified counts are shown. */
    method ShowCounts(e: Counts)
      modifies this`totalCount, this`okCount, this`ngCount
      ensures (totalCount, okCount, ngCount) == (e.total, e.ok, e.ng)
    {
      totalCount, okCount, ngCount := e.total, e.ok, e.ng;
    }

    /** Lines 336-343: the current plan takes the notified total as its quantity and is saved; if
        that reaches its target it is completed. */
    method TrackCurrentPlan(total: Int32, now: Timestamp)
      requires Wellformed() && currentPlan != null
      modifies this, counter, allPlans
      decreases Pending(), 2
      ensures allPlans == old(allPlans) && Wellformed()
      ensures old(Synced()) ==> Synced()
      ensures old(QueueInvariant()) ==> QueueInvariant()
      ensures old(store) <= store && old(counter.updates) <= counter.updates
      ensures newPlanProduct == old(newPlanProduct) && newPlanQuantity == old(newPlanQuantity)
      ensures forall p :: p in allPlans && p != old(currentPlan) && old(p.status) != Waiting ==> p.Value() == old(p.Value())
      ensures total < old(currentPlan.targetQuantity) ==>
        && currentPlan == old(currentPlan)
        && currentPlan.Value() == old(currentPlan.Value()).(currentQuantity := total)
        && store == old(store) + [SavedPlan(currentPlan.Value())]
        && (forall p :: p in allPlans && p != currentPlan ==> p.Value() == old(p.Value()))
        && unchanged(counter) && Shown() == old(Shown())
      ensures total >= old(currentPlan.targetQuantity) ==>
        && old(currentPlan).Value() == old(currentPlan.Value()).(currentQuantity := total, status := Completed, completedAt := Some(now))
        && old(store) + [SavedPlan(old(currentPlan.Value()).(currentQuantity := total))]
             + [SavedRecord(ProductionRecord(now, old(currentPlan.productName), total, old(okCount), old(ngCount),
                  old(mfgDateDisplay), old(expDateDisplay))), SavedPlan(old(currentPlan).Value())] <= store
        && currentPlan != old(currentPlan) && Synced() && counter.State() == Initial
      ensures var next := old(FirstOrDefault(allPlans, Waiting));
        && (total >= old(currentPlan.targetQuantity) && next == null ==> currentPlan == null)
        && (total >= old(currentPlan.targetQuantity) && next != null && old(next.targetQuantity) > 0 ==>
              currentPlan == next && next.Value() == old(next.Value()).(status := Running, startedAt := Some(now), currentQuantity := 0))
        && (total >= old(currentPlan.targetQuantity) && (next == null || old(next.targetQuantity) > 0) ==>
              Shown() == (0, 0, 0, old(productId), old(mfgDateDisplay), old(expDateDisplay)))
    {
      SaveProgress(total);
      if currentPlan.currentQuantity >= currentPlan.targetQuantity {
        CompletePlanAndMoveNext(now);
      }
    }

    /** Lines 338-340: the current plan takes the total as its quantity and is saved; no status
        changes, so the queue is as it was. */
    method SaveProgress(total: Int32)
      requires Wellformed() && currentPlan != null
      modifies currentPlan, this`store
      ensures currentPlan.Value() == old(currentPlan.Value()).(currentQuantity := total)
      ensures store == old(store) + [SavedPlan(currentPlan.Value())]
      ensures Wellformed() && Pending() == old(Pending())
      ensures old(QueueInvariant()) ==> QueueInvariant()
      ensures FirstOrDefault(allPlans, Waiting) == old(FirstOrDefault(allPlans, Waiting))
      ensures forall p :: p in allPlans && p != currentPlan ==> p.Value() == old(p.Value())
    {
      currentPlan.SetCurrentQuantity(total);
      store := store + [SavedPlan(currentPlan.Value())];
      assert forall i :: 0 <= i < |allPlans| ==> allPlans[i].status == old(allPlans[i].status);
    }

    /** `CompletePlanAndMoveNextAsync`: the current plan is completed and recorded, then the next
        plan is started. */
    method CompletePlanAndMoveNext(now: Timestamp)
      requires Wellformed()
      modifies this, counter, allPlans
      decreases Pending(), 1
      ensures allPlans == old(allPlans) && Wellformed()
      ensures old(QueueInvariant()) ==> QueueInvariant()
      ensures old(store) <= store && old(counter.updates) <= counter.updates
      ensures newPlanProduct == old(newPlanProduct) && newPlanQuantity == old(newPlanQuantity)
      ensures old(currentPlan) == null ==> unchanged(this, counter, allPlans)
      ensures forall p :: p in allPlans && p != old(currentPlan) && old(p.status) != Waiting ==> p.Value() == old(p.Value())
      ensures old(currentPlan) != null ==>
        && old(currentPlan).Value() == old(currentPlan.Value()).(status := Completed, completedAt := Some(now))
        && old(store) + [SavedRecord(ProductionRecord(now, old(currentPlan.productName), old(currentPlan.currentQuantity),
            old(okCount), old(ngCount), old(mfgDateDisplay), old(expDateDisplay))), SavedPlan(old(currentPlan).Value())] <= store
        && currentPlan != old(currentPlan) && Synced() && counter.State() == Initial
      ensures var next := old(FirstOrDefault(allPlans, Waiting));
        && (old(currentPlan) != null && next == null ==> currentPlan == null)
        && (old(currentPlan) != null && next != null && old(next.targetQuantity) > 0 ==>
              currentPlan == next && next.Value() == old(next.Value()).(status := Running, startedAt := Some(now), currentQuantity := 0))
        && (old(currentPlan) != null && (next == null || old(next.targetQuantity) > 0) ==>
              Shown() == (0, 0, 0, old(productId), old(mfgDateDisplay), old(expDateDisplay)))
    {
      if currentPlan == null {
        return;
      }
      RecordCompletion(currentPlan, now);
      MoveToNextPlan(now);
    }

    /** The plan is set Completed and saved together with its production record: the plan's own
        quantity as the total, and the OK and NG counts last shown. */
    method RecordCompletion(plan: ProductionPlan, now: Timestamp)
      requires Wellformed() && plan in allPlans && plan.status == Running
      modifies this, plan
      ensures allPlans == old(allPlans) && currentPlan == old(currentPlan) && Structural()
      ensures hasCurrentPlan == old(hasCurrentPlan) && Shown() == old(Shown())
      ensures newPlanProduct == old(newPlanProduct) && newPlanQuantity == old(newPlanQuantity)
      ensures plan.Value() == old(plan.Value()).(status := Completed, completedAt := Some(now))
      ensures store == old(store) + [SavedRecord(ProductionRecord(now, plan.productName, plan.currentQuantity,
        okCount, ngCount, mfgDateDisplay, expDateDisplay)), SavedPlan(plan.Value())]
      ensures old(QueueInvariant()) && plan == currentPlan ==> NoneWith(allPlans, Running)
      ensures FirstOrDefault(allPlans, Waiting) == old(FirstOrDefault(allPlans, Waiting))
      ensures plan == currentPlan ==> Pending() == old(Pending())
    {
      var record := ProductionRecord(now, plan.productName, plan.currentQuantity,
        okCount, ngCount, mfgDateDisplay, expDateDisplay);
      plan.SetStatus(Completed);
      plan.completedAt := Some(now);
      store := store + [SavedRecord(record), SavedPlan(plan.Value())];
      assert forall i :: 0 <= i < |allPlans| && allPlans[i] != plan ==> allPlans[i].status == old(allPlans[i].status);
    }

    /** Lines 397-408 and 522-534 of the view model, which are the same: the first Waiting plan of
        the list becomes the current plan and is started, and only then is the counter reset, so the
        reset's notification reaches the new plan and not the one just finished. */
    method MoveToNextPlan(now: Timestamp)
      requires Structural() && currentPlan != null && currentPlan.status == Completed
      modifies this, counter, allPlans
      decreases Pending(), 0
      ensures allPlans == old(allPlans) && Wellformed() && Synced()
      ensures old(QueueInvariant()) ==> QueueInvariant()
      ensures old(store) <= store && old(counter.updates) <= counter.updates
      ensures newPlanProduct == old(newPlanProduct) && newPlanQuantity == old(newPlanQuantity)
      ensures counter.State() == Initial && currentPlan != old(currentPlan)
      ensures forall p :: p in allPlans && old(p.status) != Waiting ==> p.Value() == old(p.Value())
      ensures var next := old(FirstOrDefault(allPlans, Waiting));
        && (next == null ==> currentPlan == null)
        && (next != null && old(next.targetQuantity) > 0 ==>
              currentPlan == next && next.Value() == old(next.Value()).(status := Running, startedAt := Some(now), currentQuantity := 0))
        && (next == null || old(next.targetQuantity) > 0 ==>
              Shown() == (0, 0, 0, old(productId), old(mfgDateDisplay), old(expDateDisplay)))
    {
      StartFirstWaiting(now);
      ghost var next := currentPlan;
      assert next != null ==> next.targetQuantity == old(next.targetQuantity);
      ResetCounter(now);
      UpdateCurrentPlanStatus();
    }

    /** `_counterService.ResetForNewShift()` with its notification handled by `OnCountsUpdated`. */
    method ResetCounter(now: Timestamp)
      requires Wellformed()
      modifies this, counter, allPlans
      decreases Pending(), 4
      ensures allPlans == old(allPlans) && Wellformed()
      ensures old(QueueInvariant()) ==> QueueInvariant()
      ensures old(store) <= store && old(counter.updates) <= counter.updates
      ensures newPlanProduct == old(newPlanProduct) && newPlanQuantity == old(newPlanQuantity)
      ensures counter.State() == Initial
      ensures forall p :: p in allPlans && p != old(currentPlan) && old(p.status) != Waiting ==> p.Value() == old(p.Value())
      ensures old(currentPlan) == null ==> currentPlan == null && store == old(store)
      ensures old(currentPlan) != null && old(currentPlan.targetQuantity) > 0 ==>
        && currentPlan == old(currentPlan)
        && currentPlan.Value() == old(currentPlan.Value()).(currentQuantity := 0)
        && store == old(store) + [SavedPlan(currentPlan.Value())]
      ensures old(currentPlan) == null || old(currentPlan.targetQuantity) > 0 ==>
        Shown() == (0, 0, 0, old(productId), old(mfgDateDisplay), old(expDateDisplay))
    {
      counter.ResetForNewShift();
      OnCountsUpdated(counter.Snapshot(), now);
    }

    /** The first Waiting plan of the list, if any, becomes the current plan, Running from `now`,
        and is saved. */
    method StartFirstWaiting(now: Timestamp)
      requires Structural() && currentPlan != null && currentPlan.status == Completed
      modifies this, allPlans
      ensures allPlans == old(allPlans) && Wellformed()
      ensures currentPlan == old(FirstOrDefault(allPlans, Waiting))
      ensures hasCurrentPlan == old(hasCurrentPlan) && Shown() == old(Shown())
      ensures newPlanProduct == old(newPlanProduct) && newPlanQuantity == old(newPlanQuantity)
      ensures currentPlan == null ==> store == old(store)
      ensures currentPlan != null ==>
        var next := currentPlan;
        && next.Value() == old(next.Value()).(status := Running, startedAt := Some(now))
        && store == old(store) + [SavedPlan(next.Value())]
      ensures forall p :: p in allPlans && p != currentPlan ==> p.Value() == old(p.Value())
      ensures old(QueueInvariant()) ==> QueueInvariant()
      ensures Pending() < old(Pending())
    {
      var completed := currentPlan;
      currentPlan := FirstOrDefault(allPlans, Waiting);
      if currentPlan != null {
        currentPlan.SetStatus(Running);
        currentPlan.startedAt := Some(now);
        store := store + [SavedPlan(currentPlan.Value())];
      }
      assert completed in old(Pending()) && completed !in Pending();
    }

    /** `OnDataReceived`: with no current plan the record is dropped; otherwise its counts go to the
        counter (whose notification updates the plan) and its product and dates are shown. */
    method OnDataReceived(data: ProductionData, now: Timestamp)
      requires Valid()
      modifies this, counter, allPlans
      ensures allPlans == old(allPlans) && Valid()
      ensures old(QueueInvariant()) ==> QueueInvariant()
      ensures !old(hasCurrentPlan) ==> unchanged(this, counter, allPlans)
      ensures old(hasCurrentPlan) ==>
        && |counter.updates| > |old(counter.updates)|
        && counter.updates[|old(counter.updates)|] == Process(old(counter.State()), DataCounts(data)).app
        && productId == data.productId
        && mfgDateDisplay == FormatDate(data.mfgDate) && expDateDisplay == FormatDate(data.expDate)
      ensures newPlanProduct == old(newPlanProduct) && newPlanQuantity == old(newPlanQuantity)
      ensures forall p :: p in allPlans && p != old(currentPlan) && old(p.status) != Waiting ==> p.Value() == old(p.Value())
      ensures var after := Process(old(counter.State()), DataCounts(data));
        old(hasCurrentPlan) && after.app.total < old(currentPlan.targetQuantity) ==>
        && counter.State() == after && currentPlan == old(currentPlan)
        && currentPlan.Value() == old(currentPlan.Value()).(currentQuantity := after.app.total)
        && store == old(store) + [SavedPlan(currentPlan.Value())]
        && (forall p :: p in allPlans && p != currentPlan ==> p.Value() == old(p.Value()))
        && (totalCount, okCount, ngCount) == (after.app.total, after.app.ok, after.app.ng)
      ensures var after := Process(old(counter.State()), DataCounts(data));
        old(hasCurrentPlan) && after.app.total >= old(currentPlan.targetQuantity) ==>
        && old(currentPlan).Value() == old(currentPlan.Value()).(currentQuantity := after.app.total, status := Completed, completedAt := Some(now))
        && old(store) + [SavedPlan(old(currentPlan.Value()).(currentQuantity := after.app.total))]
             + [SavedRecord(ProductionRecord(now, old(currentPlan.productName), after.app.total, after.app.ok, after.app.ng,
                  old(mfgDateDisplay), old(expDateDisplay))), SavedPlan(old(currentPlan).Value())] <= store
        && currentPlan != old(currentPlan) && counter.State() == Initial
      ensures var after, next := Process(old(counter.State()), DataCounts(data)), old(FirstOrDefault(allPlans, Waiting));
        && (old(hasCurrentPlan) && after.app.total >= old(currentPlan.targetQuantity) && next == null ==> currentPlan == null)
        && (old(hasCurrentPlan) && after.app.total >= old(currentPlan.targetQuantity) && next != null && old(next.targetQuantity) > 0 ==>
              currentPlan == next && next.Value() == old(next.Value()).(status := Running, startedAt := Some(now), currentQuantity := 0))
        && (old(hasCurrentPlan) && after.app.total >= old(currentPlan.targetQuantity) && (next == null || old(next.targetQuantity) > 0) ==>
              (totalCount, okCount, ngCount) == (0, 0, 0))
    {
      if !hasCurrentPlan {
        return;
      }
      CountReceived(data, now);
      ShowReceived(data);
    }

    /** Lines 306-308: the record's product and dates are shown. */
    method ShowReceived(data: ProductionData)
      modifies this`productId, this`mfgDateDisplay, this`expDateDisplay
      ensures Valid() == old(Valid()) && QueueInvariant() == old(QueueInvariant())
      ensures productId == data.productId
      ensures mfgDateDisplay == FormatDate(data.mfgDate) && expDateDisplay == FormatDate(data.expDate)
    {
      productId := data.productId;
      mfgDateDisplay := FormatDate(data.mfgDate);
      expDateDisplay := FormatDate(data.expDate);
    }

    /** Line 304 with the notification it raises: the record's counts go to the counter, and
        `OnCountsUpdated` handles its update. */
    method CountReceived(data: ProductionData, now: Timestamp)
      requires Valid() && hasCurrentPlan
      modifies this, counter, allPlans
      ensures allPlans == old(allPlans) && Valid()
      ensures old(QueueInvariant()) ==> QueueInvariant()
      ensures |counter.updates| > |old(counter.updates)|
      ensures counter.updates[|old(counter.updates)|] == Process(old(counter.State()), DataCounts(data)).app
      ensures newPlanProduct == old(newPlanProduct) && newPlanQuantity == old(newPlanQuantity)
      ensures forall p :: p in allPlans && p != old(currentPlan) && old(p.status) != Waiting ==> p.Value() == old(p.Value())
      ensures var after := Process(old(counter.State()), DataCounts(data));
        after.app.total < old(currentPlan.targetQuantity) ==>
        && counter.State() == after && currentPlan == old(currentPlan)
        && currentPlan.Value() == old(currentPlan.Value()).(currentQuantity := after.app.total)
        && store == old(store) + [SavedPlan(currentPlan.Value())]
        && (forall p :: p in allPlans && p != currentPlan ==> p.Value() == old(p.Value()))
        && (totalCount, okCount, ngCount) == (after.app.total, after.app.ok, after.app.ng)
      ensures var after := Process(old(counter.State()), DataCounts(data));
        after.app.total >= old(currentPlan.targetQuantity) ==>
        && old(currentPlan).Value() == old(currentPlan.Value()).(currentQuantity := after.app.total, status := Completed, completedAt := Some(now))
        && old(store) + [SavedPlan(old(currentPlan.Value()).(currentQuantity := after.app.total))]
             + [SavedRecord(ProductionRecord(now, old(currentPlan.productName), after.app.total, after.app.ok, after.app.ng,
                  old(mfgDateDisplay), old(expDateDisplay))), SavedPlan(old(currentPlan).Value())] <= store
        && currentPlan != old(currentPlan) && counter.State() == Initial
      ensures var after, next := Process(old(counter.State()), DataCounts(data)), old(FirstOrDefault(allPlans, Waiting));
        && (after.app.total >= old(currentPlan.targetQuantity) && next == null ==> currentPlan == null)
        && (after.app.total >= old(currentPlan.targetQuantity) && next != null && old(next.targetQuantity) > 0 ==>
              currentPlan == next && next.Value() == old(next.Value()).(status := Running, startedAt := Some(now), currentQuantity := 0))
        && (after.app.total >= old(currentPlan.targetQuantity) && (next == null || old(next.targetQuantity) > 0) ==>
              (totalCount, okCount, ngCount) == (0, 0, 0))
    {
      var packet := PacketParser.CameraPacket(data.totalCount, data.okCount, data.ngCount, data.productId,
        None, None, data.mfgDate, data.expDate);
      counter.ProcessPacket(packet);
      OnCountsUpdated(counter.Snapshot(), now);
    }

    /** `AddPlanAsync`: a plan for the form's product and quantity goes to the top of the list,
        numbered after every listed plan; with no current plan it is started at once. A blank product
        name or a quantity that is not positive changes nothing. */
    method AddPlan(now: Timestamp)
      requires Valid()
      modifies this
      ensures Valid()
      ensures old(QueueInvariant()) ==> QueueInvariant()
      ensures !FormAccepted(old(newPlanProduct), old(newPlanQuantity)) ==> unchanged(this)
      ensures Shown() == old(Shown())
      ensures FormAccepted(old(newPlanProduct), old(newPlanQuantity)) ==>
        && |allPlans| == |old(allPlans)| + 1 && allPlans[1..] == old(allPlans) && fresh(allPlans[0])
        && newPlanProduct == "" && newPlanQuantity == 1000
      ensures var waiting := QueuedPlanValue(old(newPlanProduct), old(newPlanQuantity), old(MaxQueueOrder(allPlans)), now);
        FormAccepted(old(newPlanProduct), old(newPlanQuantity)) && old(currentPlan) == null ==>
        && currentPlan == allPlans[0]
        && allPlans[0].Value() == waiting.(status := Running, startedAt := Some(now))
        && store == old(store) + [SavedPlan(waiting), SavedPlan(allPlans[0].Value())]
      ensures var waiting := QueuedPlanValue(old(newPlanProduct), old(newPlanQuantity), old(MaxQueueOrder(allPlans)), now);
        FormAccepted(old(newPlanProduct), old(newPlanQuantity)) && old(currentPlan) != null ==>
        && currentPlan == old(currentPlan) && allPlans[0].Value() == waiting
        && store == old(store) + [SavedPlan(waiting)]
    {
      if !FormAccepted(newPlanProduct, newPlanQuantity) {
        return;
      }
      Enqueue(newPlanProduct, newPlanQuantity, now);
      newPlanProduct := "";
      newPlanQuantity := 1000;
    }

    /** Lines 453-474: the new plan is created, saved and listed first; with no current plan it is
        started. */
    method Enqueue(name: string, quantity: Int32, now: Timestamp)
      requires Valid()
      modifies this
      ensures Valid() && |allPlans| == |old(allPlans)| + 1 && allPlans[1..] == old(allPlans) && fresh(allPlans[0])
      ensures old(QueueInvariant()) ==> QueueInvariant()
      ensures newPlanProduct == old(newPlanProduct) && newPlanQuantity == old(newPlanQuantity)
      ensures Shown() == old(Shown())
      ensures var waiting := QueuedPlanValue(name, quantity, old(MaxQueueOrder(allPlans)), now);
        old(currentPlan) == null ==>
        && currentPlan == allPlans[0]
        && allPlans[0].Value() == waiting.(status := Running, startedAt := Some(now))
        && store == old(store) + [SavedPlan(waiting), SavedPlan(allPlans[0].Value())]
      ensures var waiting := QueuedPlanValue(name, quantity, old(MaxQueueOrder(allPlans)), now);
        old(currentPlan) != null ==>
        && currentPlan == old(currentPlan) && allPlans[0].Value() == waiting
        && store == old(store) + [SavedPlan(waiting)]
    {
      var maxOrder := MaxQueueOrder(allPlans);
      var plan := CreatePlan(name, quantity, maxOrder, now);
      assert forall p :: p in allPlans ==> p.status == old(p.status);
      assert old(QueueInvariant()) ==> QueueInvariant();
      Insert(plan, now);
    }

    /** Lines 463-474: the new plan is saved and listed first; with no current plan it is started. */
    method Insert(plan: ProductionPlan, now: Timestamp)
      requires Valid() && plan !in allPlans && plan.status == Waiting
      modifies this, plan
      ensures Valid() && allPlans == [plan] + old(allPlans)
      ensures old(QueueInvariant()) ==> QueueInvariant()
      ensures newPlanProduct == old(newPlanProduct) && newPlanQuantity == old(newPlanQuantity)
      ensures Shown() == old(Shown())
      ensures old(currentPlan) == null ==>
        && currentPlan == plan
        && plan.Value() == old(plan.Value()).(status := Running, startedAt := Some(now))
        && store == old(store) + [SavedPlan(old(plan.Value())), SavedPlan(plan.Value())]
      ensures old(currentPlan) != null ==>
        && currentPlan == old(currentPlan) && plan.Value() == old(plan.Value())
        && store == old(store) + [SavedPlan(plan.Value())]
    {
      store := store + [SavedPlan(plan.Value())];
      InsertAtTop(plan);
      if currentPlan == null {
        StartNewPlan(plan, now);
      }
    }

    /** `AllPlans.Insert(0, plan)` for a plan that is not listed yet. */
    method InsertAtTop(plan: ProductionPlan)
      requires Valid() && plan !in allPlans && plan.status == Waiting
      modifies this`allPlans
      ensures allPlans == [plan] + old(allPlans) && Structural()
      ensures currentPlan != null ==> Valid()
      ensures currentPlan == null ==> NoneWith(allPlans[1..], Waiting) && Synced()
      ensures old(QueueInvariant()) ==> QueueInvariant()
      ensures old(QueueInvariant()) && currentPlan == null ==> NoneWith(allPlans[1..], Running)
    {
      allPlans := [plan] + allPlans;
      assert allPlans[1..] == old(allPlans);
    }

    /** The object initializer of lines 455-461. */
    static method CreatePlan(name: string, quantity: Int32, maxOrder: Int32, now: Timestamp) returns (plan: ProductionPlan)
      ensures fresh(plan)
      ensures plan.Value() == QueuedPlanValue(name, quantity, maxOrder, now)
    {
      plan := new ProductionPlan(now);
      plan.productName := name;
      plan.SetTargetQuantity(quantity);
      plan.queueOrder := Wrap(maxOrder as int + 1);
      plan.SetStatus(Waiting);
    }

    /** Lines 469-474: with no current plan the new plan is made current, started and saved. */
    method StartNewPlan(plan: ProductionPlan, now: Timestamp)
      requires currentPlan == null && |allPlans| > 0 && allPlans[0] == plan && plan.status == Waiting
      requires Distinct(allPlans) && NoneWith(allPlans[1..], Waiting)
      modifies this, plan
      ensures Valid()
      ensures old(NoneWith(allPlans[1..], Running)) ==> QueueInvariant()
      ensures allPlans == old(allPlans) && currentPlan == plan
      ensures plan.Value() == old(plan.Value()).(status := Running, startedAt := Some(now))
      ensures store == old(store) + [SavedPlan(plan.Value())]
      ensures newPlanProduct == old(newPlanProduct) && newPlanQuantity == old(newPlanQuantity)
      ensures Shown() == old(Shown())
    {
      currentPlan := plan;
      plan.SetStatus(Running);
      plan.startedAt := Some(now);
      store := store + [SavedPlan(plan.Value())];
      UpdateCurrentPlanStatus();
      assert forall i :: 1 <= i < |allPlans| ==> allPlans[i] == allPlans[1..][i - 1];
    }

    /** `StopPlanAsync`: a Waiting plan is cancelled; a Running plan is completed and recorded, and if
        it was the current plan the next plan is started; finished plans are left alone. */
    method StopPlan(plan: ProductionPlan?, now: Timestamp)
      requires Valid() && (plan == null || plan in allPlans)
      modifies this, counter, allPlans
      ensures allPlans == old(allPlans) && Valid()
      ensures old(QueueInvariant()) ==> QueueInvariant()
      ensures plan == null || old(plan.status) == Completed || old(plan.status) == Cancelled ==>
        unchanged(this, counter, allPlans)
      ensures plan != null && old(plan.status) == Waiting ==>
        && plan.Value() == old(plan.Value()).(status := Cancelled, cancelledAt := Some(now))
        && store == old(store) + [SavedPlan(plan.Value())]
        && currentPlan == old(currentPlan) && unchanged(counter)
        && forall p :: p in allPlans && p != plan ==> p.Value() == old(p.Value())
      ensures plan != null && old(plan.status) == Running ==>
        && plan.Value() == old(plan.Value()).(status := Completed, completedAt := Some(now))
        && old(store) + [SavedRecord(ProductionRecord(now, old(plan.productName), old(plan.currentQuantity),
             old(okCount), old(ngCount), old(mfgDateDisplay), old(expDateDisplay))), SavedPlan(plan.Value())] <= store
      ensures plan != null && old(plan.status) == Running && plan != old(currentPlan) ==>
        currentPlan == old(currentPlan) && unchanged(counter)
      ensures var next := old(FirstOrDefault(allPlans, Waiting));
        plan != null && old(plan.status) == Running && plan == old(currentPlan) ==>
        && counter.State() == Initial
        && (next == null ==> currentPlan == null)
        && (next != null && old(next.targetQuantity) > 0 ==>
              currentPlan == next && next.Value() == old(next.Value()).(status := Running, startedAt := Some(now), currentQuantity := 0))
        && (next == null || old(next.targetQuantity) > 0 ==>
              Shown() == (0, 0, 0, old(productId), old(mfgDateDisplay), old(expDateDisplay)))
    {
      if plan == null {
        return;
      }
      if plan.status == Completed || plan.status == Cancelled {
        return;
      }
      var wasCurrentPlan := plan == currentPlan;
      if plan.status == Running {
        RecordCompletion(plan, now);
      } else {
        plan.SetStatus(Cancelled);
        plan.cancelledAt := Some(now);
        store := store + [SavedPlan(plan.Value())];
      }
      if wasCurrentPlan {
        MoveToNextPlan(now);
      }
    }

    /** `LoadPlansAsync`, given the query's result (newest first): the first Running plan becomes the
        current plan, or else the first Waiting plan is started; the counter then restores the
        current plan's quantity. `faulted` is the `NullReferenceException` at line 205 when the
        restore's notification completes the plan and nothing is left to start. */
    method LoadPlans(loaded: seq<ProductionPlan>, now: Timestamp) returns (faulted: bool)
      requires Distinct(loaded)
      modifies this, counter, loaded
      ensures allPlans == loaded && Valid()
      ensures old(AtMostOneRunning(loaded)) ==> QueueInvariant()
      ensures faulted ==> currentPlan == null
      ensures var running, waiting := old(FirstOrDefault(loaded, Running)), old(FirstOrDefault(loaded, Waiting));
        && (running != null && old(running.currentQuantity < running.targetQuantity) ==>
              && !faulted && currentPlan == running
              && (forall p :: p in loaded ==> p.Value() == old(p.Value()))
              && store == old(store) + [SavedPlan(running.Value())]
              && counter.State() == Restore(old(counter.State()), Counts(old(running.currentQuantity), old(running.currentQuantity), 0))
              && (totalCount, okCount, ngCount) == (old(running.currentQuantity), old(running.currentQuantity), 0))
        && (running == null && waiting != null && old(waiting.currentQuantity < waiting.targetQuantity) ==>
              && !faulted && currentPlan == waiting
              && waiting.Value() == old(waiting.Value()).(status := Running, startedAt := Some(now))
              && (forall p :: p in loaded && p != waiting ==> p.Value() == old(p.Value()))
              && store == old(store) + [SavedPlan(waiting.Value()), SavedPlan(waiting.Value())]
              && counter.State() == Restore(old(counter.State()), Counts(old(waiting.currentQuantity), old(waiting.currentQuantity), 0))
              && (totalCount, okCount, ngCount) == (old(waiting.currentQuantity), old(waiting.currentQuantity), 0))
        && (running == null && waiting == null ==>
             !faulted && currentPlan == null && unchanged(counter) && store == old(store))
    {
      ChooseCurrentPlan(loaded, now);
      faulted := RestoreChosenPlan(now);
    }

    /** Lines 201-210: the counter restores the current plan's quantity, if there is a current plan,
        and the status line follows unless the restore's notification faulted. */
    method RestoreChosenPlan(now: Timestamp) returns (faulted: bool)
      requires Wellformed()
      modifies this, counter, allPlans
      ensures allPlans == old(allPlans) && Valid()
      ensures old(QueueInvariant()) ==> QueueInvariant()
      ensures faulted ==> currentPlan == null
      ensures old(currentPlan) == null ==>
        !faulted && currentPlan == null && unchanged(counter) && store == old(store)
      ensures old(currentPlan) != null && old(currentPlan.currentQuantity < currentPlan.targetQuantity) ==>
        && !faulted && currentPlan == old(currentPlan)
        && (forall p :: p in allPlans ==> p.Value() == old(p.Value()))
        && store == old(store) + [SavedPlan(currentPlan.Value())]
        && counter.State() == Restore(old(counter.State()), Counts(old(currentPlan.currentQuantity), old(currentPlan.currentQuantity), 0))
        && (totalCount, okCount, ngCount) == (old(currentPlan.currentQuantity), old(currentPlan.currentQuantity), 0)
    {
      faulted := false;
      if currentPlan != null {
        faulted := RestoreCounter(now);
      }
      if !faulted {
        UpdateCurrentPlanStatus();
      }
    }

    /** Lines 174-199: the list is replaced by the loaded plans; the first Running plan becomes the
        current plan, or else the first Waiting plan is started and saved. */
    method ChooseCurrentPlan(loaded: seq<ProductionPlan>, now: Timestamp)
      requires Distinct(loaded)
      modifies this, loaded
      ensures allPlans == loaded && Wellformed()
      ensures old(AtMostOneRunning(loaded)) ==> QueueInvariant()
      ensures Shown() == old(Shown()) && unchanged(counter)
      ensures var running, waiting := old(FirstOrDefault(loaded, Running)), old(FirstOrDefault(loaded, Waiting));
        && (running != null ==> currentPlan == running && unchanged(loaded) && store == old(store))
        && (running == null && waiting != null ==>
              && currentPlan == waiting
              && waiting.Value() == old(waiting.Value()).(status := Running, startedAt := Some(now))
              && store == old(store) + [SavedPlan(waiting.Value())]
              && forall p :: p in loaded && p != waiting ==> p.Value() == old(p.Value()))
        && (running == null && waiting == null ==> currentPlan == null && unchanged(loaded) && store == old(store))
    {
      allPlans := loaded;
      currentPlan := FirstOrDefault(allPlans, Running);
      if currentPlan == null {
        var waitingPlan := FirstOrDefault(allPlans, Waiting);
        if waitingPlan != null {
          Promote(waitingPlan, now);
          currentPlan := waitingPlan;
        }
      }
    }

    /** A Waiting plan is set Running from `now` and saved. */
    method Promote(plan: ProductionPlan, now: Timestamp)
      requires plan.status == Waiting
      modifies this`store, plan
      ensures plan.Value() == old(plan.Value()).(status := Running, startedAt := Some(now))
      ensures store == old(store) + [SavedPlan(plan.Value())]
    {
      plan.SetStatus(Running);
      plan.startedAt := Some(now);
      store := store + [SavedPlan(plan.Value())];
    }

    /** Lines 202-208: the counter restores the current plan's quantity as its total and OK count,
        and the same numbers are shown. The restore's notification may complete the plan; if nothing
        is left to start, line 205 then dereferences a null `CurrentPlan` (`faulted`). */
    method RestoreCounter(now: Timestamp) returns (faulted: bool)
      requires Wellformed() && currentPlan != null
      modifies this, counter, allPlans
      ensures allPlans == old(allPlans) && Wellformed() && Synced()
      ensures old(QueueInvariant()) ==> QueueInvariant()
      ensures faulted ==> currentPlan == null
      ensures var quantity := old(currentPlan.currentQuantity);
        quantity < old(currentPlan.targetQuantity) ==>
        && !faulted && currentPlan == old(currentPlan) && currentPlan.Value() == old(currentPlan.Value())
        && store == old(store) + [SavedPlan(currentPlan.Value())]
        && (forall p :: p in allPlans ==> p.Value() == old(p.Value()))
        && counter.State() == Restore(old(counter.State()), Counts(quantity, quantity, 0))
        && (totalCount, okCount, ngCount) == (quantity, quantity, 0)
    {
      NotifyRestored(now);
      if currentPlan == null {
        return true;
      }
      totalCount := currentPlan.currentQuantity;
      okCount := currentPlan.currentQuantity;
      ngCount := 0;
      UpdateCurrentPlanStatus();
      return false;
    }

    /** Line 202: the counter restores (quantity, quantity, 0) of the current plan, and
        `OnCountsUpdated` handles the update it raises. */
    method NotifyRestored(now: Timestamp)
      requires Wellformed() && currentPlan != null
      modifies this, counter, allPlans
      ensures allPlans == old(allPlans) && Wellformed()
      ensures currentPlan == null ==> Synced()
      ensures old(QueueInvariant()) ==> QueueInvariant()
      ensures var quantity := old(currentPlan.currentQuantity);
        quantity < old(currentPlan.targetQuantity) ==>
        && currentPlan == old(currentPlan) && currentPlan.Value() == old(currentPlan.Value())
        && store == old(store) + [SavedPlan(currentPlan.Value())]
        && (forall p :: p in allPlans ==> p.Value() == old(p.Value()))
        && counter.State() == Restore(old(counter.State()), Counts(quantity, quantity, 0))
        && (totalCount, okCount, ngCount) == (quantity, quantity, 0)
    {
      var quantity := currentPlan.currentQuantity;
      counter.RestoreState(quantity, quantity, 0);
      OnCountsUpdated(counter.Snapshot(), now);
    }
  }
}
