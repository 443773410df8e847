/** The delivery personnel's router: marking a dispatched meal delivered.
    The handler runs behind fetchUser and a check that the caller's stored
    role is DeliveryPersonnel. */
module DeliveryRoute {
  import opened Common
  import opened UserModel
  import opened MealTaskModel
  import opened Database
  import opened FetchUser
  import opened Access

  const Denial := "Access denied. Only DeliveryPersonnel can access these routes."
  const NotOutForDelivery :=
    Reply(400, Failure(None, "Delivery status is not 'Out for Delivery'. Cannot update to 'Delivered'."))

  function DeliveryAccess(users: map<Id, User>, header: Option<string>, verify: Verifier): (r: Outcome)
    ensures r.Next? <==>
      Authenticate(header, verify).Next?
      && Authenticate(header, verify).user.id in users
      && users[Authenticate(header, verify).user.id].role == DeliveryPersonnel
    ensures Authenticate(header, verify).Halt? ==> r == Authenticate(header, verify)
    ensures Authenticate(header, verify).Next? && r.Halt? ==> r.reply == Reply(403, Failure(None, Denial))
  {
    Admit(users, header, verify, DeliveryPersonnel, Denial)
  }

  /** PATCH /updateDeliveryStatus/:taskId. */
  method UpdateDeliveryStatus(s: Store, header: Option<string>, verify: Verifier, taskId: Id, now: Time)
    returns (r: Reply)
    requires s.Valid()
    modifies s`mealTasks
    ensures s.Valid()
    ensures
      var access := DeliveryAccess(s.users, header, verify);
      if access.Halt? then r == access.reply && unchanged(s)
      else if taskId !in old(s.mealTasks) then r == Reply(404, Failure(None, "Task not found")) && unchanged(s)
      else if old(s.mealTasks)[taskId].deliveryStatus != OutForDelivery then r == NotOutForDelivery && unchanged(s)
      else
        var t := Deliver(old(s.mealTasks)[taskId], now).value;
        && s.mealTasks == old(s.mealTasks)[taskId := t]
        && r == Reply(200, TaskDelivered("Delivery status updated successfully.", taskId, t))
    ensures r.status == 200 ==>
      && s.mealTasks[taskId].deliveryStatus == Delivered
      && s.mealTasks[taskId].deliveredAt == Some(now)
  {
    var access := DeliveryAccess(s.users, header, verify);
    if access.Halt? {
      return access.reply;
    }
    if taskId !in s.mealTasks {
      return Reply(404, Failure(None, "Task not found"));
    }
    var delivered := Deliver(s.mealTasks[taskId], now);
    if delivered.None? {
      return NotOutForDelivery;
    }
    s.mealTasks := s.mealTasks[taskId := delivered.value];
    r := Reply(200, TaskDelivered("Delivery status updated successfully.", taskId, delivered.value));
  }

  /** The same task marked delivered twice: the first call succeeds, the
      second is refused with 400 and changes nothing. */
  method DeliverTwice(s: Store, header: Option<string>, verify: Verifier, taskId: Id, now: Time, later: Time)
    returns (first: Reply, second: Reply)
    requires s.Valid()
    modifies s`mealTasks
    ensures s.Valid()
    ensures first.status == 200 ==> second == NotOutForDelivery
    ensures first.status == 200 ==> taskId in s.mealTasks && s.mealTasks[taskId].deliveredAt == Some(now)
  {
    first := UpdateDeliveryStatus(s, header, verify, taskId, now);
    second := UpdateDeliveryStatus(s, header, verify, taskId, later);
  }
}
