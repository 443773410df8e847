/** The manager's router: patients, diet charts, pantry staff and the
    assignment of preparation tasks. Every handler runs behind
    fetchUser and a check that the caller's stored role is Manager. */
module ManagerRoute {
  import opened Common
  import opened UserModel
  import opened PatientModel
  import opened MealTaskModel
  import opened Database
  import opened FetchUser
  import opened Access

  const Denial := "Access denied. Only managers are allowed."

  /** The router's middleware, as seen by every handler below. */
  function ManagerAccess(users: map<Id, User>, header: Option<string>, verify: Verifier): (r: Outcome)
    ensures r.Next? <==>
      Authenticate(header, verify).Next?
      && Authenticate(header, verify).user.id in users
      && users[Authenticate(header, verify).user.id].role == Manager
    ensures Authenticate(header, verify).Halt? ==> r == Authenticate(header, verify)
    ensures Authenticate(header, verify).Next? && r.Halt? ==> r.reply == Reply(403, Failure(None, Denial))
  {
    Admit(users, header, verify, Manager, Denial)
  }

  // ----- addPatient -----

  const BedTaken := "Bed is occupied or you are trying to add same patient again."

  /** The addPatient validators, in declaration order. */
  function AddPatientErrors(f: PatientForm, isInt: string -> bool, isMobilePhone: string -> bool): (errs: seq<FieldError>)
    ensures errs == [] <==>
      f.name != "" && isInt(f.age) && isMobilePhone(f.contactInfo)
      && f.roomNumber != "" && f.bedNumber != "" && f.floorNumber != "" && f.gender != ""
    ensures f.bedNumber == "" ==> FieldError("bedNumber", "Bed is required") in errs
  {
    Check(f.name != "", "name", "Name is required")
    + Check(isInt(f.age), "age", "Age must be a number")
    + Check(isMobilePhone(f.contactInfo), "contactInfo", "Invalid contact information")
    + Check(f.roomNumber != "", "roomNumber", "Room is required")
    + Check(f.bedNumber != "", "bedNumber", "Bed is required")
    + Check(f.floorNumber != "", "floorNumber", "Floor is required")
    + Check(f.gender != "", "gender", "Gender is required")
  }

  /** Patient.findOne({ bedNumber }): some patient has that bed number, on
      whatever room or floor. */
  predicate BedOccupied(patients: map<Id, Patient>, bed: string)
  {
    exists k :: k in patients && patients[k].bedNumber == bed
  }

  /** No two patients share a bed number. */
  predicate BedsDistinct(patients: map<Id, Patient>)
  {
    forall a, b :: a in patients && b in patients && patients[a].bedNumber == patients[b].bedNumber ==> a == b
  }

  /** POST /addPatient. */
  method AddPatient(s: Store, header: Option<string>, verify: Verifier, f: PatientForm,
                    isInt: string -> bool, isMobilePhone: string -> bool) returns (r: Reply)
    requires s.Valid()
    modifies s`patients, s`nextId
    ensures s.Valid()
    ensures
      var access := ManagerAccess(s.users, header, verify);
      var errs := AddPatientErrors(f, isInt, isMobilePhone);
      if access.Halt? then r == access.reply && unchanged(s)
      else if errs != [] then r == Reply(400, Invalid(None, errs)) && unchanged(s)
      else if BedOccupied(old(s.patients), f.bedNumber) then r == Reply(400, Failure(None, BedTaken)) && unchanged(s)
      else match NewPatient(f)
        case None => r == Reply(500, ServerError(InternalError)) && unchanged(s)
        case Some(p) =>
          && s.patients == old(s.patients)[old(s.nextId) := p]
          && r == Reply(200, PatientSaved(old(s.nextId), p, "Patient added successfully."))
    ensures BedsDistinct(old(s.patients)) ==> BedsDistinct(s.patients)
  {
    var access := ManagerAccess(s.users, header, verify);
    if access.Halt? {
      return access.reply;
    }
    var errs := AddPatientErrors(f, isInt, isMobilePhone);
    if errs != [] {
      return Reply(400, Invalid(None, errs));
    }
    if exists k :: k in s.patients && s.patients[k].bedNumber == f.bedNumber {
      return Reply(400, Failure(None, BedTaken));
    }
    var created := NewPatient(f);
    if created.None? {
      return Reply(500, ServerError(InternalError));
    }
    var id := s.FreshId();
    s.patients := s.patients[id := created.value];
    r := Reply(200, PatientSaved(id, created.value, "Patient added successfully."));
  }

  // ----- updatePatient -----

  /** PUT /updatePatient/:id. The update is applied as sent: no validation
      and no bed-occupancy check. */
  method UpdatePatient(s: Store, header: Option<string>, verify: Verifier, id: Id, patch: PatientPatch)
    returns (r: Reply)
    requires s.Valid()
    modifies s`patients
    ensures s.Valid()
    ensures
      var access := ManagerAccess(s.users, header, verify);
      if access.Halt? then r == access.reply && unchanged(s)
      else if id !in old(s.patients) then r == Reply(404, Failure(None, "Patient not found")) && unchanged(s)
      else
        && s.patients == old(s.patients)[id := ApplyPatch(old(s.patients)[id], patch)]
        && r == Reply(200, PatientSaved(id, s.patients[id], "Patient updated successfully."))
  {
    var access := ManagerAccess(s.users, header, verify);
    if access.Halt? {
      return access.reply;
    }
    if id !in s.patients {
      return Reply(404, Failure(None, "Patient not found"));
    }
    var updated := ApplyPatch(s.patients[id], patch);
    s.patients := s.patients[id := updated];
    r := Reply(200, PatientSaved(id, updated, "Patient updated successfully."));
  }

  /** Because the update skips the occupancy check, it can put two patients
      in one bed, which addPatient alone never does. */
  lemma UpdateCanDoubleBookBed(patients: map<Id, Patient>, a: Id, b: Id)
    requires a in patients && b in patients && a != b
    ensures !BedsDistinct(patients[a := ApplyPatch(patients[a],
      EmptyPatch.(bedNumber := Some(patients[b].bedNumber)))])
  {
    var moved := patients[a := ApplyPatch(patients[a], EmptyPatch.(bedNumber := Some(patients[b].bedNumber)))];
    assert moved[a].bedNumber == moved[b].bedNumber;
  }

  // ----- deletePatient -----

  /** DELETE /deletePatient/:id: the patient, then every chart and every
      task that refers to it. */
  method DeletePatient(s: Store, header: Option<string>, verify: Verifier, id: Id) returns (r: Reply)
    requires s.Valid()
    modifies s`patients, s`dietCharts, s`mealTasks
    ensures s.Valid()
    ensures
      var access := ManagerAccess(s.users, header, verify);
      if access.Halt? then r == access.reply && unchanged(s)
      else if id !in old(s.patients) then r == Reply(404, Notice(None, "Patient not found")) && unchanged(s)
      else
        && s.patients == old(s.patients) - {id}
        && s.dietCharts == NotOf(old(s.dietCharts), ChartOwner, id)
        && s.mealTasks == NotOf(old(s.mealTasks), TaskOwner, id)
        && r == Reply(200, Notice(Some(true), "Patient and related records deleted successfully."))
    ensures r.status == 200 ==>
      && (forall k :: k in s.dietCharts ==> s.dietCharts[k].patientId != id)
      && (forall k :: k in s.mealTasks ==> s.mealTasks[k].patientId != id)
  {
    var access := ManagerAccess(s.users, header, verify);
    if access.Halt? {
      return access.reply;
    }
    if id !in s.patients {
      return Reply(404, Notice(None, "Patient not found"));
    }
    CascadeKeepsOwnership(s.patients, s.dietCharts, s.mealTasks, id);
    s.patients := s.patients - {id};
    s.dietCharts := NotOf(s.dietCharts, ChartOwner, id);
    s.mealTasks := NotOf(s.mealTasks, TaskOwner, id);
    r := Reply(200, Notice(Some(true), "Patient and related records deleted successfully."));
  }

  // ----- setDiet -----

  /** The chart fields of a setDiet request; an absent field is None. */
  datatype DietFields = DietFields(
    morningMeal: Option<string>, eveningMeal: Option<string>, nightMeal: Option<string>,
    ingredients: Option<string>, instructions: Option<string>)

  function Override(field: Option<string>, current: Option<string>): Option<string>
  {
    if field.Some? then field else current
  }

  /** The upsert's update of an existing chart: the fields sent replace the
      stored ones, the patient stays the same. */
  function ReviseChart(c: DietChart, d: DietFields): (u: DietChart)
    ensures u.patientId == c.patientId
    ensures d.morningMeal.None? ==> u.morningMeal == c.morningMeal
    ensures d.morningMeal.Some? ==> u.morningMeal == d.morningMeal
    ensures d.eveningMeal.None? ==> u.eveningMeal == c.eveningMeal
    ensures d.eveningMeal.Some? ==> u.eveningMeal == d.eveningMeal
    ensures d.nightMeal.None? ==> u.nightMeal == c.nightMeal
    ensures d.nightMeal.Some? ==> u.nightMeal == d.nightMeal
    ensures d.ingredients.None? ==> u.ingredients == c.ingredients
    ensures d.ingredients.Some? ==> u.ingredients == d.ingredients
    ensures d.instructions.None? ==> u.instructions == c.instructions
    ensures d.instructions.Some? ==> u.instructions == d.instructions
  {
    DietChart(c.patientId,
      Override(d.morningMeal, c.morningMeal), Override(d.eveningMeal, c.eveningMeal),
      Override(d.nightMeal, c.nightMeal), Override(d.ingredients, c.ingredients),
      Override(d.instructions, c.instructions))
  }

  /** The upsert's insert: the patient key plus the fields sent. */
  function NewChart(patientId: Id, d: DietFields): (c: DietChart)
    ensures c.patientId == patientId
    ensures c.morningMeal == d.morningMeal && c.eveningMeal == d.eveningMeal && c.nightMeal == d.nightMeal
    ensures c.ingredients == d.ingredients && c.instructions == d.instructions
  {
    DietChart(patientId, d.morningMeal, d.eveningMeal, d.nightMeal, d.ingredients, d.instructions)
  }

  /** Upserting twice with the same fields is the same as upserting once,
      whether the chart existed before or not. */
  lemma ReviseChartIdempotent(c: DietChart, d: DietFields)
    ensures ReviseChart(ReviseChart(c, d), d) == ReviseChart(c, d)
    ensures ReviseChart(NewChart(c.patientId, d), d) == NewChart(c.patientId, d)
  {
  }

  /** POST /setDiet/:patientId. */
  method SetDiet(s: Store, header: Option<string>, verify: Verifier, patientId: Id, d: DietFields)
    returns (r: Reply)
    requires s.Valid()
    modifies s`dietCharts, s`nextId
    ensures s.Valid()
    ensures
      var access := ManagerAccess(s.users, header, verify);
      if access.Halt? then r == access.reply && unchanged(s)
      else if patientId !in s.patients then
        r == Reply(404, Notice(Some(false), "Patient does not exist. Cannot create or update Diet Chart."))
        && unchanged(s)
      else
        && r.status == 200
        && (forall k :: k in old(s.dietCharts) && old(s.dietCharts)[k].patientId == patientId ==>
              && s.dietCharts == old(s.dietCharts)[k := ReviseChart(old(s.dietCharts)[k], d)]
              && r == Reply(200, ChartSaved(k, s.dietCharts[k], "Diet Chart set successfully.")))
        && ((forall k :: k in old(s.dietCharts) ==> old(s.dietCharts)[k].patientId != patientId) ==>
              && s.dietCharts == old(s.dietCharts)[old(s.nextId) := NewChart(patientId, d)]
              && r == Reply(200, ChartSaved(old(s.nextId), NewChart(patientId, d), "Diet Chart set successfully.")))
    ensures r.status == 200 ==> exists k :: k in s.dietCharts && s.dietCharts[k].patientId == patientId
  {
    var access := ManagerAccess(s.users, header, verify);
    if access.Halt? {
      return access.reply;
    }
    if patientId !in s.patients {
      return Reply(404, Notice(Some(false), "Patient does not exist. Cannot create or update Diet Chart."));
    }
    if exists k :: k in s.dietCharts && s.dietCharts[k].patientId == patientId {
      var k :| k in s.dietCharts && s.dietCharts[k].patientId == patientId;
      var chart := ReviseChart(s.dietCharts[k], d);
      s.dietCharts := s.dietCharts[k := chart];
      assert s.dietCharts[k].patientId == patientId;
      r := Reply(200, ChartSaved(k, chart, "Diet Chart set successfully."));
    } else {
      var id := s.FreshId();
      var chart := NewChart(patientId, d);
      s.dietCharts := s.dietCharts[id := chart];
      assert s.dietCharts[id].patientId == patientId;
      r := Reply(200, ChartSaved(id, chart, "Diet Chart set successfully."));
    }
  }

  // ----- addPantryStaff -----

  /** POST /addPantryStaff. */
  method AddPantryStaff(s: Store, header: Option<string>, verify: Verifier,
                        name: string, contactInfo: string, location: string) returns (r: Reply)
    requires s.Valid()
    modifies s`pantryStaff, s`nextId
    ensures s.Valid()
    ensures
      var access := ManagerAccess(s.users, header, verify);
      if access.Halt? then r == access.reply && unchanged(s)
      else match NewPantryStaff(name, contactInfo, location)
        case None => r == Reply(500, ServerError(InternalError)) && unchanged(s)
        case Some(member) =>
          && s.pantryStaff == old(s.pantryStaff)[old(s.nextId) := member]
          && r == Reply(200, StaffSaved(old(s.nextId), member, "Pantry Staff details added successfully."))
  {
    var access := ManagerAccess(s.users, header, verify);
    if access.Halt? {
      return access.reply;
    }
    var created := NewPantryStaff(name, contactInfo, location);
    if created.None? {
      return Reply(500, ServerError(InternalError));
    }
    var id := s.FreshId();
    s.pantryStaff := s.pantryStaff[id := created.value];
    r := Reply(200, StaffSaved(id, created.value, "Pantry Staff details added successfully."));
  }

  // ----- assignPreparationTask -----

  /** The body of an assignPreparationTask request: an id that is empty or
      missing is None. */
  datatype TaskForm = TaskForm(patientId: Option<Id>, dietChartId: Option<Id>, pantryStaffId: Option<Id>, mealType: string)

  function AssignTaskErrors(f: TaskForm): (errs: seq<FieldError>)
    ensures errs == [] <==>
      f.patientId.Some? && f.dietChartId.Some? && f.pantryStaffId.Some? && ParseMealType(f.mealType).Some?
    ensures ParseMealType(f.mealType).None? ==> FieldError("mealType", "Meal Type is required") in errs
  {
    Check(f.patientId.Some?, "patientId", "Patient ID is required")
    + Check(f.dietChartId.Some?, "dietChartId", "Diet Chart ID is required")
    + Check(f.pantryStaffId.Some?, "pantryStaffId", "Pantry Staff ID is required")
    + Check(ParseMealType(f.mealType).Some?, "mealType", "Meal Type is required")
  }

  /** Inserting a task whose slot is free, or updating a task in place
      without changing its key, keeps one task per slot. */
  lemma UpsertKeepsOneTaskPerSlot(tasks: map<Id, MealTask>, k: Id, t: MealTask)
    requires OneTaskPerSlot(tasks)
    requires k in tasks ==> tasks[k].patientId == t.patientId && tasks[k].mealType == t.mealType
    requires forall j :: j in tasks && j != k ==> tasks[j].patientId != t.patientId || tasks[j].mealType != t.mealType
    ensures OneTaskPerSlot(tasks[k := t])
  {
  }

  /** POST /assignPreparationTask: find the task of (patient, meal type) and
      give it the new staff member and chart, or create it. */
  method AssignPreparationTask(s: Store, header: Option<string>, verify: Verifier, f: TaskForm, now: Time)
    returns (r: Reply)
    requires s.Valid()
    modifies s`mealTasks, s`nextId
    ensures s.Valid()
    ensures
      var access := ManagerAccess(s.users, header, verify);
      var errs := AssignTaskErrors(f);
      if access.Halt? then r == access.reply && unchanged(s)
      else if errs != [] then r == Reply(400, Invalid(None, errs)) && unchanged(s)
      else if f.patientId.value !in s.patients then
        r == Reply(404, Notice(Some(false), "Patient does not exist.")) && unchanged(s)
      else
        var pid, m := f.patientId.value, ParseMealType(f.mealType).value;
        && r.status == 200
        && (forall k :: k in old(s.mealTasks) && old(s.mealTasks)[k].patientId == pid && old(s.mealTasks)[k].mealType == m ==>
              && s.mealTasks == old(s.mealTasks)[k := Reassign(old(s.mealTasks)[k], f.dietChartId.value, f.pantryStaffId.value)]
              && r == Reply(200, TaskSaved(k, s.mealTasks[k])))
        && ((forall k :: k in old(s.mealTasks) ==> old(s.mealTasks)[k].patientId != pid || old(s.mealTasks)[k].mealType != m) ==>
              var t := NewMealTask(pid, f.dietChartId.value, f.pantryStaffId.value, m, now);
              && s.mealTasks == old(s.mealTasks)[old(s.nextId) := t]
              && r == Reply(200, TaskSaved(old(s.nextId), t)))
  {
    var access := ManagerAccess(s.users, header, verify);
    if access.Halt? {
      return access.reply;
    }
    var errs := AssignTaskErrors(f);
    if errs != [] {
      return Reply(400, Invalid(None, errs));
    }
    var pid, m := f.patientId.value, ParseMealType(f.mealType).value;
    if pid !in s.patients {
      return Reply(404, Notice(Some(false), "Patient does not exist."));
    }
    if exists k :: k in s.mealTasks && s.mealTasks[k].patientId == pid && s.mealTasks[k].mealType == m {
      var k :| k in s.mealTasks && s.mealTasks[k].patientId == pid && s.mealTasks[k].mealType == m;
      var task := Reassign(s.mealTasks[k], f.dietChartId.value, f.pantryStaffId.value);
      UpsertKeepsOneTaskPerSlot(s.mealTasks, k, task);
      s.mealTasks := s.mealTasks[k := task];
      r := Reply(200, TaskSaved(k, task));
    } else {
      var id := s.FreshId();
      var task := NewMealTask(pid, f.dietChartId.value, f.pantryStaffId.value, m, now);
      UpsertKeepsOneTaskPerSlot(s.mealTasks, id, task);
      s.mealTasks := s.mealTasks[id := task];
      r := Reply(200, TaskSaved(id, task));
    }
  }
}
