/** `MealsController` (`api/users/:id/meals`): every handler declares
    `[SELF, USER_MANAGER, ADMIN]` and forwards its route parameters to
    `MealsService`. */
module MealsController {
  import opened Wrappers
  import opened UserLevel
  import opened Parameters
  import opened Store

  /** The handlers, each with the body it receives. */
  datatype Endpoint =
    | AddMeal(meal: MealBody)      // POST   api/users/:id/meals
    | UpdateMeal(meal: MealBody)   // PUT    api/users/:id/meals/:mealId
    | GetMeals                     // GET    api/users/:id/meals
    | DeleteMeal                   // DELETE api/users/:id/meals/:mealId

  /** The service call a handler makes. */
  datatype Call =
    | AddMealCall(userId: UserId, meal: MealBody)
    | UpdateMealCall(userId: UserId, mealId: MealId, meal: MealBody)
    | GetMealsCall(userId: UserId)
    | DeleteMealCall(userId: UserId, mealId: MealId)

  /** The `@Roles(...)` list, the same on all four handlers: SELF,
      USER_MANAGER and ADMIN, but not USER. */
  function DeclaredRoles(e: Endpoint): (roles: seq<RoleTag>)
    ensures Self in roles && Level(UserManager) in roles && Level(Admin) in roles
    ensures Level(User) !in roles
  {
    [Self, Level(UserManager), Level(Admin)]
  }

  /** The handler's route has a `:mealId` segment (all have `:id`). */
  predicate HasMealIdSegment(e: Endpoint) {
    e.UpdateMeal? || e.DeleteMeal?
  }

  /** The service call: `parameters.id` first, then `parameters.mealId`,
      then the body, each passed on unchanged. */
  function Forward(e: Endpoint, params: Params): (call: Call)
    requires params.id.Some? && (HasMealIdSegment(e) ==> params.mealId.Some?)
    ensures call.userId == params.id.value
    ensures HasMealIdSegment(e) <==> (call.UpdateMealCall? || call.DeleteMealCall?)
    ensures HasMealIdSegment(e) ==> call.mealId == params.mealId.value
    ensures e.AddMeal? ==> call == AddMealCall(params.id.value, e.meal)
    ensures e.UpdateMeal? ==> call == UpdateMealCall(params.id.value, params.mealId.value, e.meal)
    ensures e.GetMeals? ==> call == GetMealsCall(params.id.value)
    ensures e.DeleteMeal? ==> call == DeleteMealCall(params.id.value, params.mealId.value)
  {
    match e
    case AddMeal(meal) => AddMealCall(params.id.value, meal)
    case UpdateMeal(meal) => UpdateMealCall(params.id.value, params.mealId.value, meal)
    case GetMeals => GetMealsCall(params.id.value)
    case DeleteMeal => DeleteMealCall(params.id.value, params.mealId.value)
  }
}
