# Calorie tracker API: role-based authorization, in Dafny

This project models the core of a calorie-tracking REST API (NestJS over
MongoDB) and proves properties of it. Users register, log in and keep a
list of meals. Users with the USER_MANAGER or ADMIN level may also act on
other users.

The model covers:

- **The access levels** (`roles.dfy`, module `UserLevel`). These are USER,
  USER_MANAGER and ADMIN. The SELF marker may appear in a handler's
  declared list but is never a principal's level.
- **The authorization guard** (`guard.dfy`). `UserLevelGuard.canActivate`
  is a pure function of three inputs: the declared list read under
  `'roles'`, the principal attached by the JWT strategy, and the `:id`
  route parameter. With no declaration it allows. Otherwise it allows
  when the caller's level is listed, or when SELF is listed and the route
  id is exactly the caller's `_id`.
- **The role decorators** (`decorator.dfy`). `@Roles(...)` attaches the
  list under the metadata key `'roles'` and the reflector reads it back.
  `UserLevelValidation` returns the request when the caller's level is
  exactly the given one, and throws 403 `Insufficient Rights` otherwise.
- **Route-parameter validation** (`parameters.dfy`). `id` and `mealId`
  are each checked only when truthy. A checked value must be a MongoDB
  ObjectId string.
- **The two guarded controllers** (`user_controller.dfy`,
  `meals_controller.dfy`). Each has a `@Roles` table per handler and
  passes its parameters to a service. `updateUser` sends a USER caller to
  `update` and any other caller to `updateWithPrivileges`.
- **The request pipeline** (`pipeline.dfy`). The steps run in the
  framework's order: authentication (401), then the guard (403), then
  parameter validation (400), then the handler. The 400 step is the
  global `ValidationPipe` that every e2e setup installs
  (`test/meals-put.e2e-spec.ts:40`); `src/main.ts` installs none. Its
  lemmas give the end-to-end access facts that the e2e tests check.
- **The services over one `User` collection** (`store.dfy`,
  `user_service.dfy`, `meals_service.dfy`). The collection is a class
  holding `map<UserId, UserRecord>`, and each record embeds its
  `seq<Meal>`. The MongoDB operators have their documented effect:
  - `$push` appends.
  - `$slice: -1` projects a window of one meal at the end of the list.
  - The positional `$set` updates the first matching meal.
  - `$pull` removes every matching meal.
  - The unique indexes on `_id` and `email` refuse duplicates.
- **The wiring** (`server.dfy`). A `Server` runs a request through the
  pipeline and the services. For each admitted call it states the exact
  new collection and the exact answer, and it proves facts about the
  whole collection:
  - A USER changes nothing but their own document, and never its level
    or email.
  - A USER_MANAGER creates and deletes no one, and changes no other
    user's profile.
- **Service scenarios** (`scenarios.dfy`). These are call sequences from
  the e2e tests, such as create then find, delete then find, and add a
  meal then list.

Behaviour of the code worth knowing:

- A present but empty declared list `[]` is truthy in JavaScript. It does
  not take the "no restriction" branch of `src/helpers/userLevel.guard.ts:11`,
  so it denies every caller (`UserLevelGuard.EmptyDeclarationDenies`).
- Once a list is declared, the guard reads `user._id` and `user.authLevel`
  before it tests `user`. A missing principal would throw rather than deny,
  so `CanActivate` requires a principal whenever roles are declared.
  `AuthGuard('jwt')` runs first and guarantees one.
- A USER_MANAGER passes `PUT api/users/:id` only on their own id (the
  declaration is `[SELF, ADMIN]`). The caller is then sent to
  `updateWithPrivileges`, whose `$set` includes `authLevel`. So a
  USER_MANAGER can set their own level (`RequestPipeline.ManagerSelfUpdateSetsLevel`).
- `findUser` queries without a projection. The document it returns
  includes the password (`UserServices.UserService.FindUser`).

Assumptions about code that is not part of this model:

- `userLevel.constants` is not part of this model. Its four values are
  modelled as `AuthLevel` and `RoleTag.Self`.
- The `Roles` decorator that both controllers import is not defined in
  `src/helpers/userLevel.decorator.ts`. It is modelled as attaching its
  arguments under `'roles'`, which is the key the guard reads.
- class-validator's `IsMongoId` is not part of this model. It is taken to
  accept exactly 24 hexadecimal digits, in either case.

## Model

| member | source | states |
|---|---|---|
| UserLevelGuard.Includes | src/helpers/userLevel.guard.ts:17-19 | `roles.includes(tag)` is true exactly when the tag occurs in the declared list |
| UserLevelGuard.CanActivate | src/helpers/userLevel.guard.ts:9-22 | no declaration allows; otherwise allow iff the caller's level is declared, or SELF is declared and the route id equals the caller's id; a principal is needed once roles are declared |
| UserLevelGuard.NoDeclarationAllows | src/helpers/userLevel.guard.ts:10-13 | with no declaration every caller and every route id is allowed |
| UserLevelGuard.RoleMembershipAllows | src/helpers/userLevel.guard.ts:19-21 | a declared level allows its holder whatever the route id |
| UserLevelGuard.SelfMatchAllows | src/helpers/userLevel.guard.ts:17-21 | with SELF declared, acting on one's own id is allowed at any level |
| UserLevelGuard.OtherwiseDenies | src/helpers/userLevel.guard.spec.ts:111-148 | level not declared and (SELF absent or id different) is denied |
| UserLevelGuard.NoRouteIdNoSelf | src/helpers/userLevel.guard.ts:17 | without an `:id` parameter only level membership allows |
| UserLevelGuard.EmptyDeclarationDenies | src/helpers/userLevel.guard.ts:11-21 | an empty declared list denies every caller |
| UserLevelGuard.OrderIrrelevant | src/helpers/userLevel.guard.ts:17-19 | the decision depends on which tags are declared, not on their order or repetition |
| UserLevelGuard.DeclarationMonotone | src/helpers/userLevel.guard.ts:17-21 | declaring more tags never takes access away |
| UserLevelDecorator.Roles | src/helpers/userLevel.guard.ts:10 | `@Roles(...)` records exactly the given list, under the key 'roles' only |
| UserLevelDecorator.ReflectorGet | src/helpers/userLevel.guard.ts:10 | the reflector returns what was attached under the key, or undefined when nothing was |
| UserLevelDecorator.RolesRoundTrip | src/helpers/userLevel.guard.spec.ts:27-47 | reading under 'roles' returns the declared list; any other key finds nothing |
| UserLevelDecorator.UserLevelValidation | src/helpers/userLevel.decorator.ts:3-8 | returns the request unchanged iff the caller's level equals `level`, otherwise fails with 403 'Insufficient Rights' |
| UserLevelDecorator.ValidationIsExact | src/helpers/userLevel.decorator.ts:4 | no hierarchy: ADMIN fails a USER check, and a SELF check fails for everyone |
| UserLevelDecorator.ValidationDependsOnLevelOnly | src/helpers/userLevel.decorator.ts:3-4 | requests whose callers share a level get the same verdict |
| Parameters.ValidateParameters | src/helpers/parameters.models.ts:3-11 | `id` (resp. `mealId`) is reported iff it is truthy and not an ObjectId; only those two names, in declaration order |
| Parameters.FalsyIdNotChecked | src/helpers/parameters.models.ts:5 | an absent or empty `id` is never reported |
| Parameters.ShortIdRejected | test/meals-put.e2e-spec.ts:249-269 | `'123'` is reported under `id` or `mealId` alone, whichever carries it |
| Parameters.HexIdsAccepted | test/static.ts:5-7 | the 24-hex-digit fixture ids pass, so the request reaches its handler |
| Parameters.IndependentVerdicts | src/helpers/parameters.models.ts:4-10 | each property's verdict ignores the other property |
| Store.FirstMealIndex | src/meals/meals.service.ts:33-40 | the meal that the positional operator designates: the first with that `_id`, or none when no meal has it |
| Store.PullMeals | src/meals/meals.service.ts:58 | `$pull` keeps exactly the meals with another `_id`, and changes nothing when none has that id |
| Store.InsertKeepsUnique | src/users/user.schema.ts:6 | inserting under a fresh `_id` keeps the unique email index exactly when the email is not taken yet |
| Store.UserCollection.constructor | src/users/user.schema.ts:6 | a new collection is empty and its unique email index holds (`Valid`, `EmailsUnique`) |
| Store.PullMealsAppend | src/meals/meals.service.ts:58 | `$pull` acts element by element, so the kept meals keep their order |
| UserServices.StripAuthLevel | src/users/user.service.ts:57-60 | the body without `authLevel`, other fields as given |
| UserServices.NewRecord | src/users/user.schema.ts:3-10 | a new document takes the body's fields and the default level USER when none is given |
| UserServices.StripPassword | src/users/user.service.ts:66-69 | every stored field except the password |
| UserServices.Listed | src/users/user.service.ts:23 | the projection `{ meals: 0, password: 0 }` |
| UserServices.SetProfile | src/users/user.service.ts:27-33 | `update` sets names and target calories; email, level, password and meals unchanged |
| UserServices.SetProfileAndLevel | src/users/user.service.ts:37-44 | `updateWithPrivileges` also sets the level, never the email |
| UserServices.SameEmailKeepsUnique | src/users/user.schema.ts:6 | replacing a document by one with the same email keeps the email index unique |
| UserServices.UserService.Save | src/users/user.service.ts:18-19 | inserts a document unless its `_id` or email is taken (duplicate key); returns it without password |
| UserServices.UserService.CreateNewUser | src/users/user.service.ts:12-15 | self-registration stores level USER whatever the body asks; returns the new user without password |
| UserServices.UserService.CreateNewUserWithPrivileges | src/users/user.service.ts:17-20 | stores the supplied level as given |
| UserServices.UserService.FindAll | src/users/user.service.ts:22-24 | every stored user, with meals and password omitted |
| UserServices.UserService.Update | src/users/user.service.ts:26-34 | sets only names and target calories of the matched user; unknown id matches nothing |
| UserServices.UserService.UpdateWithPrivileges | src/users/user.service.ts:36-45 | sets names, target calories and level; email never changes |
| UserServices.UserService.Delete | src/users/user.service.ts:47-49 | removes the document with that id and nothing else; reports how many went |
| UserServices.UserService.FindUser | src/users/user.service.ts:51-54 | the stored document with that id, or undefined when there is none |
| MealServices.NewMeal | src/meals/meals.service.ts:17-19 | the pushed subdocument carries the body's fields and the generated id |
| MealServices.Overwrite | src/meals/meals.service.ts:34-39 | the positional `$set` replaces title, description, time and calories and keeps `_id` |
| MealServices.SliceLast | src/meals/meals.service.ts:20 | the projection `$slice: -1` is a suffix of the list holding one meal, or none for an empty list |
| MealServices.SliceAfterPush | src/meals/meals.service.ts:16-26 | after `$push`, the projected window is exactly the pushed meal, so `meals[0]` returns it |
| MealServices.MealsChangeKeepsUnique | src/users/user.schema.ts:6 | changing a document's meals keeps the email index unique |
| MealServices.MealsService.AddMeal | src/meals/meals.service.ts:15-27 | appends the meal to the user's list and returns it; unknown user: NotFound USER_NOT_FOUND and nothing changes |
| MealServices.MealsService.UpdateMeal | src/meals/meals.service.ts:29-47 | overwrites the first meal with `mealId`, all else unchanged; NotFound iff no such user holds such a meal |
| MealServices.MealsService.GetMeals | src/meals/meals.service.ts:49-55 | the user's id and meal list, or NotFound when the user is absent |
| MealServices.MealsService.DeleteMeal | src/meals/meals.service.ts:57-63 | removes every meal with `mealId` from that user only; NotFound only for an absent user |
| MealServices.PositionalUpdateTouchesOneMeal | src/meals/meals.service.ts:33-40 | the update keeps the list length, changes only the first matching meal and keeps its id |
| UserController.DeclaredRoles | src/users/user.controller.ts:27-74 | every user handler admits ADMIN and never lists USER; USER_MANAGER only on the two GETs; SELF only on PUT |
| UserController.Forward | src/users/user.controller.ts:28-77 | each handler's exact service call: POST `createNewUserWithPrivileges(body)`, GET `findAll()`, DELETE `delete(id)`, GET `findUser(id)`, PUT `update(id, body)` iff the caller is USER and `updateWithPrivileges(id, body)` otherwise |
| MealsController.DeclaredRoles | src/meals/meals.controller.ts:26-66 | every meal handler lists SELF, USER_MANAGER and ADMIN, and not USER |
| MealsController.Forward | src/meals/meals.controller.ts:29-68 | each handler's exact service call: `addMeal(id, body)`, `updateMeal(id, mealId, body)`, `getMeals(id)`, `deleteMeal(id, mealId)` |
| RequestPipeline.HandlerMetadata | src/helpers/userLevel.guard.ts:10 | the reflector finds each handler's own `@Roles` list under 'roles' |
| RequestPipeline.Handle | src/meals/meals.controller.ts:13 | 401 without a principal, then 403 iff the guard denies, then 400 naming the bad parameters, otherwise the handler's service call |
| RequestPipeline.GuardReadsDeclaredRoles | src/helpers/userLevel.guard.ts:10 | the guard decides on exactly the handler's `@Roles` list |
| RequestPipeline.CreateUserAdminOnly | src/users/user.controller.ts:27 | POST api/users is refused with 403 iff the caller is not ADMIN |
| RequestPipeline.ListingAndLookupPrivileged | src/users/user.controller.ts:35-74 | GET api/users and GET api/users/:id are refused iff the caller is USER, even on their own id |
| RequestPipeline.DeleteUserAdminOnly | src/users/user.controller.ts:47 | DELETE api/users/:id is refused iff the caller is not ADMIN |
| RequestPipeline.UpdateUserSelfOrAdmin | src/users/user.controller.ts:58 | PUT api/users/:id passes the guard iff the caller is ADMIN or acts on their own id |
| RequestPipeline.MealsSelfOrPrivileged | src/meals/meals.controller.ts:26-66 | meal routes pass the guard iff the caller is USER_MANAGER or ADMIN, or acts on their own id |
| RequestPipeline.ForbiddenBeforeBadRequest | test/user-put.e2e-spec.ts:137-153 | a refused caller gets 403 even for the malformed id 'userIdHere' |
| RequestPipeline.UpdateUserDispatch | src/users/user.controller.ts:61-65 | an admitted PUT goes to `update` for a USER and to `updateWithPrivileges` otherwise |
| RequestPipeline.ManagerSelfUpdateSetsLevel | src/users/user.controller.ts:58-65 | a USER_MANAGER's own PUT reaches the privileged path, which sets the body's level |
| Application.Server.Serve | src/users/user.controller.ts:14-78 | rejections answer 401/403/400 and change nothing; an admitted call leaves exactly the collection and answer its service gives; emails never change; a USER changes only their own document and never its level; a USER_MANAGER creates, deletes and re-profiles no one else |
| Application.Server.Dispatch | src/meals/meals.controller.ts:13-68 | the invoked call's exact new collection and answer, with the caller's confinement |
| Application.Server.ServeUsers | src/users/user.controller.ts:28-77 | per user call, the exact new collection and answer: creation or DuplicateKey, the listing, `n`/`nModified` of an update, `n` of a delete, the found document or nothing |
| Application.Server.ServeMeals | src/meals/meals.controller.ts:29-68 | per meal call, the exact new collection and answer: the pushed meal, the positional update, the pull, the listing, or NotFound with nothing changed |
| Application.EffectKeepsEmails | src/users/user.service.ts:26-45 | no invocable call changes a stored email |
| Application.UserConfinedToOwnDocument | src/users/user.controller.ts:58-65 | an admitted USER call keeps the set of users, leaves every other document as it was and keeps the caller's level |
| Application.ManagerKeepsOthersProfiles | src/users/user.controller.ts:27-74 | an admitted USER_MANAGER call keeps the set of users and changes no other user's profile |
| ServiceScenarios.RegisterThenFind | test/guest-post.e2e-spec.ts:69-100 | a self-registered user is found with level USER whatever level the body asked for |
| ServiceScenarios.DeleteThenFind | test/user-delete.e2e-spec.ts:80-84 | after `delete`, `findUser` returns undefined |
| ServiceScenarios.UpdateThenFind | test/user-put.e2e-spec.ts:61-93 | after `update`, names are the body's, email and level the old ones |
| ServiceScenarios.AddThenGetMeals | src/meals/meals.service.spec.ts:73-80 | an added meal is the last one listed, after the previous meals |
| ServiceScenarios.DeleteMealThenGet | test/meals-delete.e2e-spec.ts:81-87 | after `deleteMeal`, no listed meal carries that id and every other meal remains |

## Left out

- Authentication (`src/auth/*`): JWT signing and verification, and the
  login query. The principal is an input. None stands for "no valid bearer
  token", which yields 401.
- MongoDB mechanics:
  - the query language, cursors and `ObjectId` casting (a cast failure
    would be a 500);
  - the result counts beyond `n`/`nModified` (and `n` for a delete);
  - the order in which `find` returns documents, so `FindAll` returns a set.
- Generated ObjectIds: the `_id` of a new user or meal is a parameter.
  Collisions are refused as duplicate keys for users. For meals, a
  generator that repeats an id is not excluded.
- Body DTO validation (class-validator annotations on request bodies) and
  the schema's `required` checks. Bodies are typed records whose fields
  are all present. `authLevel` values outside the enum, such as
  `'SUPER-MEGA-ADMIN'`, cannot be written. Setting an update field to
  `undefined` (stored as null) is not modelled.
- The registration DTO's `calories` field. The model carries
  `targetCalories`, the field that `User` and the schema use.
- The `UserSchema` shown declares no `meals` path, so strict mode would
  drop the array; the model keeps an embedded meal list, as the services
  and e2e tests use one.
- `src/superuser/*`: it is not wired into the application module. Also
  left out: the guest controller, module wiring, `main.ts`, configuration
  and the message constants (only `USER_NOT_FOUND` and the 403 message are
  used).
- `src/meals/models/meal-id.parameter.ts` and
  `src/meals/models/user-id.parameter.ts`: no route uses them.
- Purity of the guard (identical inputs give identical results): it holds
  because `CanActivate` is a Dafny function, so no lemma states it.
- Asynchrony, concurrency, HTTP transport and Swagger annotations.
- The parameter check assumes the global `ValidationPipe` of the e2e
  setups. `src/main.ts:10-18` and the application module install none;
  without it a malformed id is not answered 400 but reaches Mongoose's
  ObjectId cast, which this model does not cover.
- ObjectIds are compared as strings. The driver would treat ids that
  differ only in the case of their hex digits as the same `_id`.
- `time`, `calories` and `targetCalories` are JavaScript numbers. They
  are modelled as unbounded integers: fractions, NaN and precision
  limits are not.
