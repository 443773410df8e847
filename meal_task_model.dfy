/** The MealTask collection: one meal (patient x meal type) moving through a
    preparation track and a delivery track. */
module MealTaskModel {
  import opened Common

  datatype MealType = Morning | Evening | Night

  function MealTypeName(m: MealType): (name: string)
    ensures ParseMealType(name) == Some(m)
  {
    match m
    case Morning => "Morning"
    case Evening => "Evening"
    case Night => "Night"
  }

  function ParseMealType(s: string): (m: Option<MealType>)
    ensures m.Some? <==> s == "Morning" || s == "Evening" || s == "Night"
  {
    if s == "Morning" then Some(Morning)
    else if s == "Evening" then Some(Evening)
    else if s == "Night" then Some(Night)
    else None
  }

  lemma ParsedMealTypeNamesItself(s: string)
    requires ParseMealType(s).Some?
    ensures MealTypeName(ParseMealType(s).value) == s
  {
  }

  datatype PreparationStatus = Pending | InProgress | Prepared

  function PreparationStatusName(p: PreparationStatus): (name: string)
    ensures ParsePreparationStatus(name) == Some(p)
  {
    match p
    case Pending => "Pending"
    case InProgress => "In Progress"
    case Prepared => "Prepared"
  }

  function ParsePreparationStatus(s: string): (p: Option<PreparationStatus>)
    ensures p.Some? <==> s == "Pending" || s == "In Progress" || s == "Prepared"
  {
    if s == "Pending" then Some(Pending)
    else if s == "In Progress" then Some(InProgress)
    else if s == "Prepared" then Some(Prepared)
    else None
  }

  lemma ParsedPreparationStatusNamesItself(s: string)
    requires ParsePreparationStatus(s).Some?
    ensures PreparationStatusName(ParsePreparationStatus(s).value) == s
  {
  }

  /** The delivery track. The schema's enum lists only "Pending" and
      "Delivered", but dispatch stores "Out for Delivery" without running the
      enum validator, so the field takes three values. */
  datatype DeliveryStatus = DeliveryPending | OutForDelivery | Delivered

  function DeliveryStatusName(d: DeliveryStatus): string
  {
    match d
    case DeliveryPending => "Pending"
    case OutForDelivery => "Out for Delivery"
    case Delivered => "Delivered"
  }

  /** Position on the delivery track, for stating which moves go forward. */
  function DeliveryRank(d: DeliveryStatus): nat
  {
    match d
    case DeliveryPending => 0
    case OutForDelivery => 1
    case Delivered => 2
  }

  datatype MealTask = MealTask(
    patientId: Id, dietChart: Id, assignedTo: Id,
    deliveryAssignedTo: Option<Id>,
    mealType: MealType,
    preparationStatus: PreparationStatus,
    deliveryStatus: DeliveryStatus,
    deliveryNotes: Option<string>,
    assignedAt: Time, preparedAt: Option<Time>, deliveredAt: Option<Time>)

  /** What every stored task satisfies: the fields no handler writes are
      still absent, and a delivered task carries its delivery time. */
  predicate WellFormed(t: MealTask)
  {
    t.preparedAt.None? && t.deliveryNotes.None?
    && (t.deliveryStatus == Delivered ==> t.deliveredAt.Some?)
  }

  /** A task created by the find-or-create upsert: the key and the two
      assigned references, with the schema defaults for everything else. */
  function NewMealTask(patientId: Id, dietChart: Id, assignedTo: Id, mealType: MealType, now: Time): (t: MealTask)
    ensures WellFormed(t)
    ensures t.patientId == patientId && t.mealType == mealType
    ensures t.dietChart == dietChart && t.assignedTo == assignedTo
    ensures t.preparationStatus == Pending && t.deliveryStatus == DeliveryPending
    ensures PreparationStatusName(t.preparationStatus) == "Pending" && DeliveryStatusName(t.deliveryStatus) == "Pending"
    ensures t.deliveryAssignedTo.None? && t.assignedAt == now && t.deliveredAt.None?
  {
    MealTask(patientId, dietChart, assignedTo, None, mealType, Pending, DeliveryPending, None, now, None, None)
  }

  /** The upsert's update of an existing task: new staff and chart, the key
      and both status tracks untouched. */
  function Reassign(t: MealTask, dietChart: Id, assignedTo: Id): (u: MealTask)
    ensures WellFormed(t) ==> WellFormed(u)
    ensures u.patientId == t.patientId && u.mealType == t.mealType
    ensures u.preparationStatus == t.preparationStatus && u.deliveryStatus == t.deliveryStatus
    ensures u == t.(dietChart := dietChart, assignedTo := assignedTo)
  {
    t.(dietChart := dietChart, assignedTo := assignedTo)
  }

  /** Pantry staff setting the preparation status: accepted from any prior
      status, and touching nothing else. */
  function SetPreparation(t: MealTask, status: PreparationStatus): (u: MealTask)
    ensures WellFormed(t) ==> WellFormed(u)
    ensures u.preparationStatus == status
    ensures u == t.(preparationStatus := status)
  {
    t.(preparationStatus := status)
  }

  /** Dispatch for delivery: refused (None) unless preparation is complete;
      the current delivery status is not consulted. */
  function Dispatch(t: MealTask, courier: Id): (r: Option<MealTask>)
    ensures r.Some? <==> t.preparationStatus == Prepared
    ensures r.Some? ==> r.value == t.(deliveryAssignedTo := Some(courier), deliveryStatus := OutForDelivery)
    ensures r.Some? ==> DeliveryStatusName(r.value.deliveryStatus) == "Out for Delivery"
    ensures r.Some? && WellFormed(t) ==> WellFormed(r.value)
  {
    if t.preparationStatus != Prepared then None
    else Some(t.(deliveryAssignedTo := Some(courier), deliveryStatus := OutForDelivery))
  }

  /** Completion of a delivery: refused (None) unless the task is out for
      delivery; stamps the delivery time. */
  function Deliver(t: MealTask, now: Time): (r: Option<MealTask>)
    ensures r.Some? <==> t.deliveryStatus == OutForDelivery
    ensures r.Some? ==> r.value == t.(deliveryStatus := Delivered, deliveredAt := Some(now))
    ensures r.Some? ==> DeliveryStatusName(r.value.deliveryStatus) == "Delivered"
    ensures r.Some? && WellFormed(t) ==> WellFormed(r.value)
    ensures r.Some? ==> DeliveryRank(r.value.deliveryStatus) == DeliveryRank(t.deliveryStatus) + 1
  {
    if t.deliveryStatus != OutForDelivery then None
    else Some(t.(deliveryStatus := Delivered, deliveredAt := Some(now)))
  }

  /** A delivered task cannot be delivered again. */
  lemma DeliverAtMostOnce(t: MealTask, now: Time, later: Time)
    requires Deliver(t, now).Some?
    ensures Deliver(Deliver(t, now).value, later).None?
  {
  }

  /** A task whose preparation is not complete cannot be dispatched, whatever
      its delivery status. */
  lemma DispatchNeedsPrepared(t: MealTask, courier: Id)
    requires t.preparationStatus != Prepared
    ensures Dispatch(t, courier).None?
  {
  }

  /** The delivery track is not forward-only: a delivered, prepared task can
      be dispatched again (moving back to "Out for Delivery") and then
      delivered a second time. */
  lemma DeliveredTaskCanBeRedispatched(t: MealTask, courier: Id, later: Time)
    requires t.deliveryStatus == Delivered && t.preparationStatus == Prepared
    ensures Dispatch(t, courier).Some?
    ensures DeliveryRank(Dispatch(t, courier).value.deliveryStatus) < DeliveryRank(t.deliveryStatus)
    ensures Deliver(Dispatch(t, courier).value, later).Some?
  {
  }

  /** The preparation track is not forward-only either: a dispatched task
      can be set back to Pending, and is then no longer dispatchable. */
  lemma PreparationCanBeReset(t: MealTask, courier: Id)
    requires t.preparationStatus == Prepared
    ensures Dispatch(t, courier).Some?
    ensures Dispatch(SetPreparation(Dispatch(t, courier).value, Pending), courier).None?
    ensures SetPreparation(Dispatch(t, courier).value, Pending).deliveryStatus == OutForDelivery
  {
  }

  /** The whole lifecycle of a fresh task: created Pending, marked Prepared,
      dispatched, delivered once, and refused a second delivery. */
  lemma Lifecycle(patientId: Id, chart: Id, staff: Id, courier: Id, m: MealType, t0: Time, t1: Time, t2: Time)
    ensures var created := NewMealTask(patientId, chart, staff, m, t0);
            && Dispatch(created, courier).None?
            && var prepared := SetPreparation(created, Prepared);
               Dispatch(prepared, courier).Some?
               && var out := Dispatch(prepared, courier).value;
                  out.deliveryStatus == OutForDelivery
                  && Deliver(out, t1).Some?
                  && Deliver(out, t1).value.deliveryStatus == Delivered
                  && Deliver(out, t1).value.deliveredAt == Some(t1)
                  && Deliver(Deliver(out, t1).value, t2).None?
  {
  }
}
