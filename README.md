# Hospital food management backend: a Dafny model

This project models the core of an Express/Mongoose backend that a hospital
uses to run patient meals. The parts modelled are:

- Managers register patients, set each patient's diet chart, and assign
  preparation tasks to pantry staff.
- Pantry staff move a task through its preparation track and dispatch
  prepared meals to delivery personnel.
- Delivery personnel mark a dispatched meal as delivered.
- Users register and log in, and receive a signed token. The `fetchUser`
  middleware reads that token from the `Authorization` header. Each router
  then re-reads the caller's role from the user table.

The six Mongoose collections are the map-valued fields of one class,
`Database.Store`:

- patients;
- diet charts;
- pantry staff;
- delivery personnel;
- meal tasks;
- users.

A counter hands out identifiers. Every route handler is a method of its
router's module that takes the store as a parameter. The method's `modifies` clause names exactly the collections the
handler writes, and its `ensures` gives the reply and the new contents of
each of those collections on every path:

- the 401 answers of `fetchUser`;
- the 403 answer of the role gate;
- the validation 400s;
- the 404s for unknown records;
- the guard 400s of the two status tracks;
- the 500 that a failing required-field validator in the schema causes;
- success.

The store invariant `Store.Valid()` is kept by every handler. It says:

- every stored id is below the counter;
- e-mails are unique;
- there is at most one diet chart per patient (the setDiet upsert);
- there is at most one meal task per (patient, meal type) (the
  assignPreparationTask upsert);
- every chart and task refers to an existing patient (the cascade delete);
- every task is well formed: `preparedAt` and `deliveryNotes` are never
  written, and a delivered task carries `deliveredAt`.

A meal task has two tracks, and the code guards only two moves:

- dispatch requires `preparationStatus == "Prepared"`;
- delivery requires `deliveryStatus == "Out for Delivery"`.

Preparation status can be set to any value at any time. Dispatch does not
look at the delivery status, so a delivered task can be dispatched again.
The model keeps both behaviours and proves them
(`MealTaskModel.DeliveredTaskCanBeRedispatched`,
`MealTaskModel.PreparationCanBeReset`).

The schema's enum for `deliveryStatus` lists only "Pending" and
"Delivered". Dispatch writes "Out for Delivery" through an update that does
not run validators, so the model's delivery status has three values and the
enum is not a store invariant.

Some collaborators are parameters of the handlers:

- bcrypt's `hash` and `compare`;
- jwt's `sign` and `verify`;
- express-validator's `isEmail`, `isInt` and `isMobilePhone`;
- the clock.

The model fixes what is hashed, signed, checked and stamped, not how.

Two behaviours of the code may be unexpected; the model follows the code:

- One might expect both tracks to move forward only. The code allows
  preparation to be reset and a delivered task to be re-dispatched.
- One might expect managers to be able to assign deliveries too. In this
  code assignDelivery sits behind the PantryStaff gate only.

Modules, in dependency order:

- `Common`: ids, times, `Option`, token claims, validation errors.
- `UserModel`, `PatientModel`, `MealTaskModel`: the three schemas the core
  depends on, with their defaults and required fields.
- `Database`: the smaller records, the reply bodies, the invariants and the
  `Store` class.
- `FetchUser`: the header split and the 401 outcomes.
- `Access`: `router.use(fetchUser, gate)`.
- `Authentication`: register and login.
- `VerifyRole`: the role-to-dashboard mapping.
- `ManagerRoute`, `PantryRoute`, `DeliveryRoute`: the three routers.

## Model

| member | source | states |
|---|---|---|
| UserModel.RoleName | models/User.js:17-21 | the stored string of each role parses back to that role |
| UserModel.ParseRole | models/User.js:17-21 | a string is a role exactly when it is "Manager", "PantryStaff" or "DeliveryPersonnel" |
| UserModel.ParsedRoleNamesItself | models/User.js:17-21 | a parsed role is named by exactly the string parsed (no other spelling is accepted) |
| UserModel.DefaultName | models/User.js:7-13 | the default name is "Hospital Manager" for Manager, "Pantry Staff" for PantryStaff, "Delivery Personnel" for every other role string |
| UserModel.DefaultNamesDistinct | models/User.js:7-13 | the three roles get three different default names |
| UserModel.NewUser | models/User.js:3-23 | a user is created exactly when email and password are non-empty; the name defaults to the role's default name and contactInfo to "Not Provided"; given values are kept |
| PatientModel.NewPatient | models/Patient.js:3-15 | a patient is created exactly when all seven required fields are present; given values are kept; diseases, allergies and emergencyContact default to "Unknown", remarks to "Not Given" |
| PatientModel.ApplyPatch | routes/managerRoute.js:66-67 | each field sent in the update replaces the stored value; each field not sent keeps it |
| PatientModel.EmptyPatchKeepsPatient | routes/managerRoute.js:66-67 | an update with no keys leaves the patient unchanged |
| PatientModel.PatchIdempotent | routes/managerRoute.js:66-67 | applying the same update twice equals applying it once |
| MealTaskModel.MealTypeName | models/MealTask.js:8 | each meal type's string parses back to it |
| MealTaskModel.ParseMealType | models/MealTask.js:8 | a meal type is exactly one of "Morning", "Evening", "Night" |
| MealTaskModel.ParsedMealTypeNamesItself | models/MealTask.js:8 | a parsed meal type is named by the string parsed |
| MealTaskModel.PreparationStatusName | models/MealTask.js:9 | each preparation status's string parses back to it |
| MealTaskModel.ParsePreparationStatus | models/MealTask.js:9 | a preparation status is exactly one of "Pending", "In Progress", "Prepared" |
| MealTaskModel.ParsedPreparationStatusNamesItself | models/MealTask.js:9 | a parsed preparation status is named by the string parsed |
| MealTaskModel.NewMealTask | models/MealTask.js:3-14 | a created task has its key, chart and staff as given, preparation and delivery both stored as "Pending", no delivery assignee, assignedAt = now, no delivery time, and is well formed |
| MealTaskModel.Reassign | routes/managerRoute.js:166-170 | re-assigning changes only chart and staff: key, both statuses and well-formedness are kept |
| MealTaskModel.SetPreparation | routes/pantryRoute.js:40-44 | the preparation status becomes the given one from any prior value, nothing else changes, well-formedness is kept |
| MealTaskModel.Dispatch | routes/pantryRoute.js:109-122 | dispatch succeeds exactly when preparation is Prepared, whatever the delivery status; it sets the courier and the stored status "Out for Delivery", and nothing else |
| MealTaskModel.Deliver | routes/deliveryRoute.js:26-32 | delivery succeeds exactly when the task is out for delivery; it sets the stored status "Delivered" and deliveredAt = now, nothing else, and moves one step forward on the delivery track |
| MealTaskModel.DeliverAtMostOnce | routes/deliveryRoute.js:26-31 | a task just delivered is refused a second delivery |
| MealTaskModel.DispatchNeedsPrepared | routes/pantryRoute.js:109-113 | a task not Prepared is never dispatched |
| MealTaskModel.DeliveredTaskCanBeRedispatched | routes/pantryRoute.js:109-122 | a delivered, prepared task can be dispatched again, moving its delivery status backwards, and then delivered again |
| MealTaskModel.PreparationCanBeReset | routes/pantryRoute.js:40-44 | a dispatched task can be set back to Pending, which makes it undispatchable while it stays out for delivery |
| MealTaskModel.Lifecycle | routes/pantryRoute.js:40-122 | a fresh task is not dispatchable; once Prepared it is dispatched, delivered with the given time, and refused a second delivery |
| Database.NewPantryStaff | models/PantryStaff.js:3-7 | a staff record is created exactly when name, contact and location are non-empty |
| Database.NewDeliveryPerson | models/DeliveryPerson.js:3-7 | a delivery person is created exactly when name and contact are non-empty; otherDetails is optional |
| Database.NotOf | routes/managerRoute.js:88-89 | after deleteMany by patient, exactly the charts (or tasks) of other patients remain, each unchanged |
| Database.CascadeKeepsOwnership | routes/managerRoute.js:84-89 | after the patient and its charts and tasks are deleted, every remaining chart and task refers to a remaining patient |
| Database.PatientDeleteAloneLeavesOrphans | routes/managerRoute.js:84-89 | deleting the patient without the two deleteMany calls would leave a dangling chart |
| FetchUser.Split | middleware/fetchUser.js:5 | splitting gives at least one piece and no piece holds the separator |
| FetchUser.JoinSplit | middleware/fetchUser.js:5 | joining the pieces with the separator gives back the header |
| FetchUser.SplitWithoutSeparator | middleware/fetchUser.js:5 | a string without the separator is a single piece |
| FetchUser.SplitAfterPrefix | middleware/fetchUser.js:5 | a separator-free prefix followed by the separator is the first piece |
| FetchUser.TokenOf | middleware/fetchUser.js:5-8 | a token found is non-empty and holds no space |
| FetchUser.BearerToken | middleware/fetchUser.js:5 | "scheme token" yields the token when neither holds a space |
| FetchUser.NoSpaceNoToken | middleware/fetchUser.js:5-8 | a header without a space has no token |
| FetchUser.EmptyCredentialNoToken | middleware/fetchUser.js:5-8 | "scheme " with nothing after the space has no token |
| FetchUser.TokenIsSecondWord | middleware/fetchUser.js:5 | whenever a token is found, the header is a space-free word, a space, the token, then nothing or a space-led tail |
| FetchUser.Authenticate | middleware/fetchUser.js:4-16 | no token gives 401 "No token provided"; a failed verification gives 401 "Invalid token."; otherwise the handler proceeds with the payload's user object, and only then |
| FetchUser.MissingHeaderRefused | middleware/fetchUser.js:5-8 | an absent or empty header gives 401 before verification |
| Access.RoleGate | routes/managerRoute.js:13-19 | the request passes exactly when the caller's id has a user record whose stored role is the router's role; otherwise 403 with the router's message |
| Access.Admit | routes/pantryRoute.js:9-15 | fetchUser's refusal is passed on; otherwise the request proceeds, with the same claims, exactly when the stored role matches; a mismatch gives 403 |
| Access.GateIgnoresClaimedRole | routes/deliveryRoute.js:8-14 | the gate's verdict does not depend on the role claimed in the token |
| Access.StoredRoleDecides | routes/managerRoute.js:13-19 | a token claiming the right role is still refused when the user record is gone or its role has changed |
| VerifyRole.Dashboard | routes/verifyRole.js:6-27 | the answer is 200 exactly when the claim is one of the three roles, each with its own welcome message; anything else, including no claim, gives 403 |
| VerifyRole.WelcomesDistinct | routes/verifyRole.js:9-21 | the three roles get three different answers |
| VerifyRole.RegisterTokenForbidden | routes/verifyRole.js:7-25 | a registration token carries no role and is always answered 403 |
| VerifyRole.LoginTokenWelcomed | routes/verifyRole.js:7-21 | a login token reaches the dashboard of the user's stored role |
| Authentication.RegisterErrors | routes/authenticationRoute.js:11-16 | no error exactly when name has at least 3 characters, the e-mail is valid, the password has at least 8, the role is one of the three, and contactInfo has exactly 10 |
| Authentication.LoginErrors | routes/authenticationRoute.js:58-59 | no error exactly when the e-mail is valid and a password is present |
| Authentication.RegisterPayload | routes/authenticationRoute.js:42-46 | the registration payload holds the new id and no role |
| Authentication.LoginPayload | routes/authenticationRoute.js:78-83 | the login payload holds the id and the stored role's name, which parses back to that role |
| Authentication.Register | routes/authenticationRoute.js:10-54 | invalid input gives 400 and no change; a taken e-mail gives 400 and no change; otherwise one user is added with hash(password), the given e-mail and role, and a token for a role-less payload is returned |
| Authentication.Login | routes/authenticationRoute.js:57-91 | invalid input gives 400; an unknown e-mail and a wrong password give the same 400; a matching password gives a token for the id and stored role, and echoes the role |
| Authentication.LoginTokenAuthenticates | routes/authenticationRoute.js:78-86 | a login token sent as "Bearer token" passes fetchUser with the user's id and role |
| Authentication.RegisterTokenAuthenticates | routes/authenticationRoute.js:42-49 | a registration token sent as "Bearer token" passes fetchUser with the id and no role |
| ManagerRoute.ManagerAccess | routes/managerRoute.js:13-19 | manager handlers run exactly when the token verifies and the caller's stored role is Manager; a refusal by fetchUser (401) is passed on unchanged, and an authenticated caller with another stored role gets 403 with the router's message |
| ManagerRoute.AddPatientErrors | routes/managerRoute.js:22-29 | no error exactly when name, room, bed, floor and gender are non-empty, age is an integer and contact is a mobile number |
| ManagerRoute.AddPatient | routes/managerRoute.js:22-61 | 400 with no change on invalid input or when any patient already has that bed number; otherwise exactly one patient is added; beds stay distinct |
| ManagerRoute.UpdatePatient | routes/managerRoute.js:64-78 | 404 with no change on an unknown id; otherwise only that patient changes, by the keys sent, with no bed check |
| ManagerRoute.UpdateCanDoubleBookBed | routes/managerRoute.js:64-67 | an update can give a patient another patient's bed number |
| ManagerRoute.DeletePatient | routes/managerRoute.js:81-96 | 404 with no change on an unknown id; otherwise the patient and exactly its charts and tasks are removed and everything else is kept |
| ManagerRoute.ReviseChart | routes/managerRoute.js:112-116 | the chart keeps its patient; for each of the five meal fields, a value sent replaces the stored one and an absent one keeps it |
| ManagerRoute.NewChart | routes/managerRoute.js:112-116 | a chart created by the upsert belongs to the patient and carries exactly the meal fields sent |
| ManagerRoute.ReviseChartIdempotent | routes/managerRoute.js:112-116 | upserting the same fields twice is the same as once, on an existing chart and on a new one |
| ManagerRoute.SetDiet | routes/managerRoute.js:99-123 | 404 with no change on an unknown patient; otherwise the patient's chart is updated, or created if it has none, and the patient then has a chart; one chart per patient is kept |
| ManagerRoute.AddPantryStaff | routes/managerRoute.js:126-141 | exactly one staff record is added, or 500 with no change when a required field is missing |
| ManagerRoute.AssignTaskErrors | routes/managerRoute.js:144-148 | no error exactly when the three ids are present and the meal type is Morning, Evening or Night |
| ManagerRoute.UpsertKeepsOneTaskPerSlot | routes/managerRoute.js:166-170 | updating a task in place or inserting into a free (patient, meal type) slot keeps one task per slot |
| ManagerRoute.AssignPreparationTask | routes/managerRoute.js:144-177 | 400 on invalid input and 404 on an unknown patient, both with no change; otherwise the task of (patient, meal type) gets the new staff and chart, or is created, keeping one task per slot |
| PantryRoute.PantryAccess | routes/pantryRoute.js:9-15 | pantry handlers run exactly when the token verifies and the caller's stored role is PantryStaff; a refusal by fetchUser (401) is passed on unchanged, and an authenticated caller with another stored role gets 403 with the router's message |
| PantryRoute.UpdatePreparationStatus | routes/pantryRoute.js:32-55 | an unknown status gives 400 before the store is read; an unknown task gives 404; otherwise only that task's preparation status changes, to the status sent |
| PantryRoute.AddDeliveryPersonnel | routes/pantryRoute.js:60-77 | exactly one delivery person is added and 201 is returned, or 500 with no change |
| PantryRoute.GetDeliveryPersonnel | routes/pantryRoute.js:80-96 | 404 when there are no delivery personnel, otherwise the whole collection |
| PantryRoute.AssignDelivery | routes/pantryRoute.js:99-128 | 404 on an unknown task; 400 with no change unless the task is Prepared; otherwise only that task changes, to the given courier and "Out for Delivery" |
| DeliveryRoute.DeliveryAccess | routes/deliveryRoute.js:8-14 | delivery handlers run exactly when the token verifies and the caller's stored role is DeliveryPersonnel; a refusal by fetchUser (401) is passed on unchanged, and an authenticated caller with another stored role gets 403 with the router's message |
| DeliveryRoute.UpdateDeliveryStatus | routes/deliveryRoute.js:17-41 | 404 on an unknown task; 400 with no change unless it is out for delivery; otherwise only that task changes, to Delivered with deliveredAt = now |
| DeliveryRoute.DeliverTwice | routes/deliveryRoute.js:26-34 | when a delivery succeeds, a second one on the same task is refused with 400 and the first delivery time stays |

## Left out

- Process bootstrap (`index.js`) and the database connection (`db.js`) are I/O plumbing. CORS, JSON parsing and the HTTP listener are not modelled.
- The read-only listing routes (`/preparationStatus`, `/deliveryStatus`, the pantry's `/tasks`) only join collections for display and make no decision, so they are not modelled.
- bcrypt and jwt are function parameters. Salt generation and the secret are not modelled, and neither is the exception a malformed token raises (it is the `None` of `verify`).
- Authentication.Register: does not prove that the stored password differs from the plaintext. With `hash` abstract, only "the stored value is `hash(password)`" can be stated.
- express-validator's `isEmail`, `isInt` and `isMobilePhone` are abstract predicates.
- Authentication.RegisterErrors: counts string length as the number of characters. express-validator's `isLength` does not count the variation selectors U+FE0E and U+FE0F, so a name or contact number containing them can pass here and fail in the source.
- Mongoose ObjectId generation is a counter. Identifier casting (a malformed id gives 500) is not modelled: ids are naturals.
- Numeric fields of Patient (room, bed, floor, age) are kept as the submitted strings. The Number cast is not modelled, so "7" and "07" count as different beds here, though they may be the same bed in the store.
- `createdAt`/`updatedAt` timestamps are not modelled. `assignedAt` and `deliveredAt` take the time as a parameter.
- The 500 answers caused by store exceptions are not modelled: lost connections, cast errors, or `bcrypt.compare` on a non-string password. Only the 500 caused by a missing required field on create is modelled.
- Requests are atomic: concurrent handlers interleaving between a find and an update are not modelled. Such interleaving could break the bed check, the e-mail check and the upserts.
- PantryRoute.AssignDelivery: the delivery person's id is a required parameter. A body without `deliveryPersonId` is not modelled.
- PantryRoute.GetDeliveryPersonnel: returns the collection as a map. The order of the documents is not modelled.
- Authentication.Register: the `mobile` field sent to `User.create` is not in the schema and is dropped. The model has no such field.
- ManagerRoute.UpdatePatient: an update is a set of optional fields. Setting a field to `null`, unknown keys, and Mongoose's handling of update operators are not modelled.
- Authentication.Login: requires unique e-mails, which the store invariant keeps, so `findOne` by e-mail finds at most one user.
- The verifyRole router is modelled as a function of the role claim. Where it is mounted is not modelled.
