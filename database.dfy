/** The document store: the six collections the route handlers read and
    change, the small personnel and diet-chart records, and the shape of the
    answers the handlers send. */
module Database {
  import opened Common
  import opened UserModel
  import opened PatientModel
  import opened MealTaskModel

  /** A diet chart; every meal field is optional. */
  datatype DietChart = DietChart(
    patientId: Id,
    morningMeal: Option<string>, eveningMeal: Option<string>, nightMeal: Option<string>,
    ingredients: Option<string>, instructions: Option<string>)

  /** A PantryStaff document. */
  datatype StaffMember = StaffMember(name: string, contactInfo: string, location: string)

  datatype DeliveryPerson = DeliveryPerson(name: string, contactInfo: string, otherDetails: Option<string>)

  /** PantryStaff.create: all three fields are required. */
  function NewPantryStaff(name: string, contactInfo: string, location: string): (r: Option<StaffMember>)
    ensures r.Some? <==> name != "" && contactInfo != "" && location != ""
    ensures r.Some? ==> r.value == StaffMember(name, contactInfo, location)
  {
    if name == "" || contactInfo == "" || location == "" then None
    else Some(StaffMember(name, contactInfo, location))
  }

  /** Saving a new DeliveryPerson: name and contact are required. */
  function NewDeliveryPerson(name: string, contactInfo: string, otherDetails: Option<string>): (r: Option<DeliveryPerson>)
    ensures r.Some? <==> name != "" && contactInfo != ""
    ensures r.Some? ==> r.value == DeliveryPerson(name, contactInfo, otherDetails)
  {
    if name == "" || contactInfo == "" then None
    else Some(DeliveryPerson(name, contactInfo, otherDetails))
  }

  /** The JSON bodies the handlers send. */
  datatype Body =
    | Failure(success: Option<bool>, error: string)            // { success?, error }
    | Notice(success: Option<bool>, message: string)           // { success?, message }
    | Invalid(success: Option<bool>, errors: seq<FieldError>)  // { success?, errors }
    | ServerError(text: string)                                // plain-text 500
    | PatientSaved(patientId: Id, patient: Patient, message: string)
    | ChartSaved(chartId: Id, chart: DietChart, message: string)
    | StaffSaved(staffId: Id, staff: StaffMember, message: string)
    | TaskSaved(taskId: Id, task: MealTask)                    // { success: true, task }
    | TaskDocument(taskId: Id, task: MealTask)                 // the task itself
    | TaskDelivered(message: string, taskId: Id, task: MealTask)
    | CourierDocument(personId: Id, person: DeliveryPerson)    // the new person itself
    | CourierList(persons: map<Id, DeliveryPerson>)            // { success: true, deliveryPersons }
    | TokenIssued(authToken: string, role: Option<string>)     // { success: true, authToken, role? }

  datatype Reply = Reply(status: int, body: Body)

  const InternalError := "Internal Server Error"

  predicate KeysBelow<T>(m: map<Id, T>, bound: nat)
  {
    forall k :: k in m ==> k < bound
  }

  /** The upsert on patientId never leaves two charts for one patient. */
  predicate OneChartPerPatient(charts: map<Id, DietChart>)
  {
    forall a, b :: a in charts && b in charts && charts[a].patientId == charts[b].patientId ==> a == b
  }

  /** The upsert on (patientId, mealType) never leaves two tasks for one slot. */
  predicate OneTaskPerSlot(tasks: map<Id, MealTask>)
  {
    forall a, b ::
      a in tasks && b in tasks && tasks[a].patientId == tasks[b].patientId && tasks[a].mealType == tasks[b].mealType
      ==> a == b
  }

  predicate UniqueEmails(users: map<Id, User>)
  {
    forall a, b :: a in users && b in users && users[a].email == users[b].email ==> a == b
  }

  predicate ChartsOwned(charts: map<Id, DietChart>, patients: map<Id, Patient>)
  {
    forall k :: k in charts ==> charts[k].patientId in patients
  }

  predicate TasksOwned(tasks: map<Id, MealTask>, patients: map<Id, Patient>)
  {
    forall k :: k in tasks ==> tasks[k].patientId in patients
  }

  predicate TasksWellFormed(tasks: map<Id, MealTask>)
  {
    forall k :: k in tasks ==> WellFormed(tasks[k])
  }

  function ChartOwner(c: DietChart): Id
  {
    c.patientId
  }

  function TaskOwner(t: MealTask): Id
  {
    t.patientId
  }

  /** deleteMany({ patientId }) on a collection whose documents name their
      patient through `owner`: exactly the documents of other patients
      remain, each unchanged. */
  function NotOf<T>(m: map<Id, T>, owner: T -> Id, patientId: Id): (r: map<Id, T>)
    ensures forall k :: k in r <==> k in m && owner(m[k]) != patientId
    ensures forall k :: k in r ==> r[k] == m[k]
  {
    map k | k in m && owner(m[k]) != patientId :: m[k]
  }

  /** Deleting a patient together with its charts and tasks keeps every
      remaining chart and task attached to a remaining patient. */
  lemma CascadeKeepsOwnership(patients: map<Id, Patient>, charts: map<Id, DietChart>,
                              tasks: map<Id, MealTask>, patientId: Id)
    requires ChartsOwned(charts, patients) && TasksOwned(tasks, patients)
    ensures ChartsOwned(NotOf(charts, ChartOwner, patientId), patients - {patientId})
    ensures TasksOwned(NotOf(tasks, TaskOwner, patientId), patients - {patientId})
  {
  }

  /** Deleting only the patient (without the two deleteMany calls) would
      leave its chart dangling. */
  lemma PatientDeleteAloneLeavesOrphans(patients: map<Id, Patient>, charts: map<Id, DietChart>, chartId: Id)
    requires chartId in charts && charts[chartId].patientId in patients
    ensures !ChartsOwned(charts, patients - {charts[chartId].patientId})
  {
  }

  class Store {
    var patients: map<Id, Patient>
    var dietCharts: map<Id, DietChart>
    var pantryStaff: map<Id, StaffMember>
    var deliveryPersons: map<Id, DeliveryPerson>
    var mealTasks: map<Id, MealTask>
    var users: map<Id, User>
    /** The next identifier to hand out; every stored id is below it. */
    var nextId: nat

    ghost predicate Valid()
      reads this
    {
      && KeysBelow(patients, nextId) && KeysBelow(dietCharts, nextId)
      && KeysBelow(pantryStaff, nextId) && KeysBelow(deliveryPersons, nextId)
      && KeysBelow(mealTasks, nextId) && KeysBelow(users, nextId)
      && UniqueEmails(users)
      && OneChartPerPatient(dietCharts)
      && OneTaskPerSlot(mealTasks)
      && ChartsOwned(dietCharts, patients)
      && TasksOwned(mealTasks, patients)
      && TasksWellFormed(mealTasks)
    }

    constructor ()
      ensures Valid()
      ensures patients == map[] && dietCharts == map[] && pantryStaff == map[]
      ensures deliveryPersons == map[] && mealTasks == map[] && users == map[]
    {
      patients, dietCharts, pantryStaff := map[], map[], map[];
      deliveryPersons, mealTasks, users := map[], map[], map[];
      nextId := 0;
    }

    /** A new identifier, unused in every collection. */
    method FreshId() returns (id: Id)
      requires Valid()
      modifies this`nextId
      ensures Valid()
      ensures id == old(nextId) && nextId == id + 1
      ensures id !in patients && id !in dietCharts && id !in pantryStaff
      ensures id !in deliveryPersons && id !in mealTasks && id !in users
    {
      id := nextId;
      nextId := nextId + 1;
    }
  }
}
