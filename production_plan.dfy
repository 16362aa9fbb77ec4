/**
 * `ProductionPlan` and `PlanStatus` (CVX-QLSX.App/Models/ProductionPlan.cs): a plan in the
 * production queue. Its quantity and status properties notify their observers on every set; the
 * other properties are plain fields. `DateTime` values are opaque caller-supplied timestamps.
 */
module Plans {
  import opened Wrappers
  import opened Int32s

  /** A `DateTime` taken from the clock; only its identity and order matter here. */
  type Timestamp = int

  datatype PlanStatus = Waiting | Running | Completed | Cancelled

  /** Every field of a plan, as one value (what a save writes to the database). */
  datatype PlanValue = PlanValue(
    productName: string,
    targetQuantity: Int32,
    currentQuantity: Int32,
    queueOrder: Int32,
    status: PlanStatus,
    createdAt: Timestamp,
    startedAt: Option<Timestamp>,
    completedAt: Option<Timestamp>,
    cancelledAt: Option<Timestamp>)

  /** A plan as `new ProductionPlan()` leaves it at time `now`. */
  function NewPlanValue(now: Timestamp): (v: PlanValue)
    ensures v.status == Waiting && v.createdAt == now
    ensures v.startedAt.None? && v.completedAt.None? && v.cancelledAt.None?
  {
    PlanValue("", 0, 0, 0, Waiting, now, None, None, None)
  }

  class ProductionPlan {
    var productName: string
    var targetQuantity: Int32
    var currentQuantity: Int32
    var queueOrder: Int32
    var status: PlanStatus
    var createdAt: Timestamp
    var startedAt: Option<Timestamp>
    var completedAt: Option<Timestamp>
    var cancelledAt: Option<Timestamp>
    /** The property names of the `PropertyChanged` notifications raised so far. */
    var notifications: seq<string>

    function Value(): PlanValue
      reads this
    {
      PlanValue(productName, targetQuantity, currentQuantity, queueOrder, status,
        createdAt, startedAt, completedAt, cancelledAt)
    }

    constructor(now: Timestamp)
      ensures Value() == NewPlanValue(now) && notifications == []
    {
      productName := "";
      targetQuantity, currentQuantity, queueOrder := 0, 0, 0;
      status := Waiting;
      createdAt := now;
      startedAt, completedAt, cancelledAt := None, None, None;
      notifications := [];
    }

    method SetTargetQuantity(value: Int32)
      modifies this
      ensures Value() == old(Value()).(targetQuantity := value)
      ensures notifications == old(notifications) + ["TargetQuantity"]
    {
      targetQuantity := value;
      notifications := notifications + ["TargetQuantity"];
    }

    method SetCurrentQuantity(value: Int32)
      modifies this
      ensures Value() == old(Value()).(currentQuantity := value)
      ensures notifications == old(notifications) + ["CurrentQuantity"]
    {
      currentQuantity := value;
      notifications := notifications + ["CurrentQuantity"];
    }

    method SetStatus(value: PlanStatus)
      modifies this
      ensures Value() == old(Value()).(status := value)
      ensures notifications == old(notifications) + ["Status"]
    {
      status := value;
      notifications := notifications + ["Status"];
    }
  }
}
