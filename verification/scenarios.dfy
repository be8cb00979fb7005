/** Sequences of service calls, as the end-to-end tests make them, with
    what the services' contracts guarantee about their combined effect. */
module ServiceScenarios {
  import opened Wrappers
  import opened UserLevel
  import opened Store
  import opened UserServices
  import opened MealServices

  /** Self-registration asking for ADMIN stores a USER, which `findUser`
      then returns. */
  method RegisterThenFind(s: UserService, body: Registration, newId: UserId) returns (found: Option<StoredUser>)
    requires s.model.Valid() && newId !in s.model.records && !EmailTaken(s.model.records, body.email)
    modifies s.model
    ensures found.Some? && found.value.id == newId
    ensures found.value.record.authLevel == User && found.value.record.email == body.email
    ensures found.value.record.meals == []
  {
    var created := s.CreateNewUser(body, newId);
    found := s.FindUser(newId);
  }

  /** After `delete`, `findUser` on that id returns undefined. */
  method DeleteThenFind(s: UserService, id: UserId) returns (found: Option<StoredUser>)
    requires s.model.Valid()
    modifies s.model
    ensures found == None
  {
    var deleted := s.Delete(id);
    found := s.FindUser(id);
  }

  /** `update` by a USER leaves email and level as they were, whatever the
      body says. */
  method UpdateThenFind(s: UserService, id: UserId, body: UserBody) returns (found: Option<StoredUser>)
    requires s.model.Valid() && id in s.model.records
    modifies s.model
    ensures found.Some?
    ensures found.value.record.email == old(s.model.records[id].email)
    ensures found.value.record.authLevel == old(s.model.records[id].authLevel)
    ensures found.value.record.firstName == body.firstName && found.value.record.lastName == body.lastName
  {
    var written := s.Update(id, body);
    found := s.FindUser(id);
  }

  /** A meal added to an existing user is the last one `getMeals` lists. */
  method AddThenGetMeals(m: MealsService, userId: UserId, body: MealBody, newMealId: MealId) returns (listed: Result<UserMeals, ServiceError>)
    requires m.model.Valid() && userId in m.model.records
    modifies m.model
    ensures listed.Success? && listed.value.id == userId
    ensures listed.value.meals == old(m.model.records[userId].meals) + [NewMeal(newMealId, body)]
  {
    var added := m.AddMeal(userId, body, newMealId);
    listed := m.GetMeals(userId);
  }

  /** After `deleteMeal`, no meal of that user carries the id. */
  method DeleteMealThenGet(m: MealsService, userId: UserId, mealId: MealId) returns (listed: Result<UserMeals, ServiceError>)
    requires m.model.Valid() && userId in m.model.records
    modifies m.model
    ensures listed.Success?
    ensures forall meal :: meal in listed.value.meals ==> meal.id != mealId
    ensures forall meal :: meal in old(m.model.records[userId].meals) && meal.id != mealId ==> meal in listed.value.meals
  {
    var deleted := m.DeleteMeal(userId, mealId);
    listed := m.GetMeals(userId);
  }
}
