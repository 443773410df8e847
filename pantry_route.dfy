/** The pantry staff's router: preparation status, delivery personnel and
    dispatch. Every handler runs behind fetchUser and a check that the
    caller's stored role is PantryStaff. */
module PantryRoute {
  import opened Common
  import opened UserModel
  import opened MealTaskModel
  import opened Database
  import opened FetchUser
  import opened Access

  const Denial := "Access denied. Only PantryStaff can access these routes."
  const TaskNotFound := Reply(404, Failure(None, "Task not found"))

  function PantryAccess(users: map<Id, User>, header: Option<string>, verify: Verifier): (r: Outcome)
    ensures r.Next? <==>
      Authenticate(header, verify).Next?
      && Authenticate(header, verify).user.id in users
      && users[Authenticate(header, verify).user.id].role == PantryStaff
    ensures Authenticate(header, verify).Halt? ==> r == Authenticate(header, verify)
    ensures Authenticate(header, verify).Next? && r.Halt? ==> r.reply == Reply(403, Failure(None, Denial))
  {
    Admit(users, header, verify, PantryStaff, Denial)
  }

  const BadPreparationStatus :=
    FieldError("preparationStatus", "Preparation Status must be Pending, In Progress or Prepared")

  /** PATCH /task/:taskId: any of the three statuses, from any prior status.
      The status is checked before the store is consulted. */
  method UpdatePreparationStatus(s: Store, header: Option<string>, verify: Verifier, taskId: Id, status: string)
    returns (r: Reply)
    requires s.Valid()
    modifies s`mealTasks
    ensures s.Valid()
    ensures
      var access := PantryAccess(s.users, header, verify);
      if access.Halt? then r == access.reply && unchanged(s)
      else if ParsePreparationStatus(status).None? then
        r == Reply(400, Invalid(None, [BadPreparationStatus])) && unchanged(s)
      else if taskId !in old(s.mealTasks) then r == TaskNotFound && unchanged(s)
      else
        var t := SetPreparation(old(s.mealTasks)[taskId], ParsePreparationStatus(status).value);
        && s.mealTasks == old(s.mealTasks)[taskId := t]
        && r == Reply(200, TaskDocument(taskId, t))
    ensures r.status == 200 ==> PreparationStatusName(s.mealTasks[taskId].preparationStatus) == status
  {
    var access := PantryAccess(s.users, header, verify);
    if access.Halt? {
      return access.reply;
    }
    var parsed := ParsePreparationStatus(status);
    if parsed.None? {
      return Reply(400, Invalid(None, [BadPreparationStatus]));
    }
    if taskId !in s.mealTasks {
      return TaskNotFound;
    }
    var task := SetPreparation(s.mealTasks[taskId], parsed.value);
    s.mealTasks := s.mealTasks[taskId := task];
    ParsedPreparationStatusNamesItself(status);
    r := Reply(200, TaskDocument(taskId, task));
  }

  /** POST /addDeliveryPersonnel: one new record, answered with 201. */
  method AddDeliveryPersonnel(s: Store, header: Option<string>, verify: Verifier,
                              name: string, contactInfo: string, otherDetails: Option<string>) returns (r: Reply)
    requires s.Valid()
    modifies s`deliveryPersons, s`nextId
    ensures s.Valid()
    ensures
      var access := PantryAccess(s.users, header, verify);
      if access.Halt? then r == access.reply && unchanged(s)
      else match NewDeliveryPerson(name, contactInfo, otherDetails)
        case None => r == Reply(500, ServerError(InternalError)) && unchanged(s)
        case Some(person) =>
          && s.deliveryPersons == old(s.deliveryPersons)[old(s.nextId) := person]
          && |s.deliveryPersons| == |old(s.deliveryPersons)| + 1
          && r == Reply(201, CourierDocument(old(s.nextId), person))
  {
    var access := PantryAccess(s.users, header, verify);
    if access.Halt? {
      return access.reply;
    }
    var created := NewDeliveryPerson(name, contactInfo, otherDetails);
    if created.None? {
      return Reply(500, ServerError(InternalError));
    }
    var id := s.FreshId();
    s.deliveryPersons := s.deliveryPersons[id := created.value];
    r := Reply(201, CourierDocument(id, created.value));
  }

  /** GET /getDeliveryPersonnel: the whole table, or 404 when it is empty. */
  method GetDeliveryPersonnel(s: Store, header: Option<string>, verify: Verifier) returns (r: Reply)
    ensures PantryAccess(s.users, header, verify).Halt? ==> r == PantryAccess(s.users, header, verify).reply
    ensures PantryAccess(s.users, header, verify).Next? && |s.deliveryPersons| == 0 ==>
      r == Reply(404, Notice(None, "No delivery personnel found"))
    ensures PantryAccess(s.users, header, verify).Next? && |s.deliveryPersons| > 0 ==>
      r == Reply(200, CourierList(s.deliveryPersons))
  {
    var access := PantryAccess(s.users, header, verify);
    if access.Halt? {
      return access.reply;
    }
    if |s.deliveryPersons| == 0 {
      return Reply(404, Notice(None, "No delivery personnel found"));
    }
    r := Reply(200, CourierList(s.deliveryPersons));
  }

  const NotPrepared := Reply(400, Failure(None, "Task cannot be assigned for delivery. Preparation is not completed."))

  /** PATCH /assignDelivery/:taskId: only a Prepared task is dispatched; its
      current delivery status is not consulted and the delivery person is
      not looked up. */
  method AssignDelivery(s: Store, header: Option<string>, verify: Verifier, taskId: Id, deliveryPersonId: Id)
    returns (r: Reply)
    requires s.Valid()
    modifies s`mealTasks
    ensures s.Valid()
    ensures
      var access := PantryAccess(s.users, header, verify);
      if access.Halt? then r == access.reply && unchanged(s)
      else if taskId !in old(s.mealTasks) then r == TaskNotFound && unchanged(s)
      else if old(s.mealTasks)[taskId].preparationStatus != Prepared then r == NotPrepared && unchanged(s)
      else
        var t := Dispatch(old(s.mealTasks)[taskId], deliveryPersonId).value;
        && s.mealTasks == old(s.mealTasks)[taskId := t]
        && r == Reply(200, TaskDocument(taskId, t))
    ensures r.status == 200 ==>
      && s.mealTasks[taskId].deliveryStatus == OutForDelivery
      && s.mealTasks[taskId].deliveryAssignedTo == Some(deliveryPersonId)
  {
    var access := PantryAccess(s.users, header, verify);
    if access.Halt? {
      return access.reply;
    }
    if taskId !in s.mealTasks {
      return TaskNotFound;
    }
    var dispatched := Dispatch(s.mealTasks[taskId], deliveryPersonId);
    if dispatched.None? {
      return NotPrepared;
    }
    s.mealTasks := s.mealTasks[taskId := dispatched.value];
    r := Reply(200, TaskDocument(taskId, dispatched.value));
  }
}
