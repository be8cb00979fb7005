/** `MealsService`: the per-user meal list, changed in place through the
    user documents (`$push`, positional `$set`, `$pull`), with NotFound when
    the write matched no document. */
module MealServices {
  import opened Wrappers
  import opened UserLevel
  import opened Store

  /** The answer of `getMeals`: the document's `_id` and its meals only. */
  datatype UserMeals = UserMeals(id: UserId, meals: seq<Meal>)

  /** The new subdocument `$push` stores for a body. */
  function NewMeal(mealId: MealId, body: MealBody): (m: Meal)
    ensures m.id == mealId && m.title == body.title && m.description == body.description
    ensures m.time == body.time && m.calories == body.calories
  {
    Meal(mealId, body.title, body.description, body.time, body.calories)
  }

  /** The positional `$set`: the four body fields replace the meal's, its
      `_id` stays. */
  function Overwrite(m: Meal, body: MealBody): (m': Meal)
    ensures m'.id == m.id && m' == NewMeal(m.id, body)
  {
    m.(title := body.title, description := body.description, time := body.time, calories := body.calories)
  }

  /** The projection `{ meals: { $slice: -1 } }`: a window of at most one
      element at the end of the list, empty only for an empty list. */
  function SliceLast(meals: seq<Meal>): (window: seq<Meal>)
    ensures |window| == if meals == [] then 0 else 1
    ensures meals == meals[..|meals| - |window|] + window
  {
    if meals == [] then [] else meals[|meals| - 1..]
  }

  /** The window of a list that just had `m` appended holds exactly `m`, so
      `meals[0]` of the projected document is the meal pushed. */
  lemma SliceAfterPush(meals: seq<Meal>, m: Meal)
    ensures SliceLast(meals + [m]) == [m]
  {
  }

  /** A user document matching `{ _id: userId, 'meals._id': mealId }`. */
  predicate HoldsMeal(records: map<UserId, UserRecord>, userId: UserId, mealId: MealId) {
    userId in records && exists i :: 0 <= i < |records[userId].meals| && records[userId].meals[i].id == mealId
  }

  /** Changing only the meals of one document keeps the emails unique. */
  lemma {:induction false} MealsChangeKeepsUnique(records: map<UserId, UserRecord>, id: UserId, meals: seq<Meal>)
    requires EmailsUnique(records) && id in records
    ensures EmailsUnique(records[id := records[id].(meals := meals)])
  {
    var r := records[id := records[id].(meals := meals)];
    forall a, b | a in r && b in r && a != b
      ensures r[a].email != r[b].email
    {
      assert r[a].email == records[a].email && r[b].email == records[b].email;
    }
  }

  class MealsService {
    const model: UserCollection

    constructor (model: UserCollection)
      ensures this.model == model
    {
      this.model := model;
    }

    /** `findOneAndUpdate` with `$push`: appends the meal to the user's list
        and returns the last element of the updated list, the meal just
        added. */
    method AddMeal(userId: UserId, meal: MealBody, newMealId: MealId) returns (r: Result<Meal, ServiceError>)
      requires model.Valid()
      modifies model
      ensures model.Valid()
      ensures userId !in old(model.records) ==> r == Failure(NotFound) && model.records == old(model.records)
      ensures userId in old(model.records) ==>
                && r == Success(NewMeal(newMealId, meal))
                && model.records == old(model.records)[userId :=
                     old(model.records)[userId].(meals := old(model.records)[userId].meals + [r.value])]
    {
      if userId !in model.records {
        return Failure(NotFound);
      }
      var rec := model.records[userId];
      MealsChangeKeepsUnique(model.records, userId, rec.meals + [NewMeal(newMealId, meal)]);
      model.records := model.records[userId := rec.(meals := rec.meals + [NewMeal(newMealId, meal)])];
      var projected := SliceLast(model.records[userId].meals);
      SliceAfterPush(rec.meals, NewMeal(newMealId, meal));
      r := Success(projected[0]);
    }

    /** `updateOne` on `{ _id: userId, 'meals._id': mealId }` with a
        positional `$set`: the first meal with that id gets the body's
        fields; no match throws NotFound. */
    method UpdateMeal(userId: UserId, mealId: MealId, meal: MealBody) returns (r: Result<DbResponse, ServiceError>)
      requires model.Valid()
      modifies model
      ensures model.Valid()
      ensures r.Failure? <==> !HoldsMeal(old(model.records), userId, mealId)
      ensures r.Failure? ==> r.error == NotFound && model.records == old(model.records)
      ensures r.Success? ==>
                var meals := old(model.records)[userId].meals;
                var k := FirstMealIndex(meals, mealId).value;
                && model.records == old(model.records)[userId :=
                     old(model.records)[userId].(meals := meals[k := Overwrite(meals[k], meal)])]
                && r.value == UpdateResponse(1, if Overwrite(meals[k], meal) == meals[k] then 0 else 1)
    {
      if userId !in model.records {
        return Failure(NotFound);
      }
      var rec := model.records[userId];
      var found := FirstMealIndex(rec.meals, mealId);
      if found.None? {
        return Failure(NotFound);
      }
      var k := found.value;
      var updated := Overwrite(rec.meals[k], meal);
      MealsChangeKeepsUnique(model.records, userId, rec.meals[k := updated]);
      model.records := model.records[userId := rec.(meals := rec.meals[k := updated])];
      r := Success(UpdateResponse(1, if updated == rec.meals[k] then 0 else 1));
    }

    /** `findOne({ _id: userId }, { meals: 1 })`: the id and the meals, or
        NotFound. */
    method GetMeals(userId: UserId) returns (r: Result<UserMeals, ServiceError>)
      ensures r.Failure? <==> userId !in model.records
      ensures r.Failure? ==> r.error == NotFound
      ensures r.Success? ==> r.value == UserMeals(userId, model.records[userId].meals)
    {
      if userId !in model.records {
        return Failure(NotFound);
      }
      r := Success(UserMeals(userId, model.records[userId].meals));
    }

    /** `update({ _id: userId }, { $pull: ... })`: removes every meal with
        that id; NotFound only when the user is absent, while an unknown meal
        id leaves the list as it is. */
    method DeleteMeal(userId: UserId, mealId: MealId) returns (r: Result<DbResponse, ServiceError>)
      requires model.Valid()
      modifies model
      ensures model.Valid()
      ensures r.Failure? <==> userId !in old(model.records)
      ensures r.Failure? ==> r.error == NotFound && model.records == old(model.records)
      ensures r.Success? ==>
                var meals := old(model.records)[userId].meals;
                && model.records == old(model.records)[userId :=
                     old(model.records)[userId].(meals := PullMeals(meals, mealId))]
                && r.value == UpdateResponse(1, if PullMeals(meals, mealId) == meals then 0 else 1)
    {
      if userId !in model.records {
        return Failure(NotFound);
      }
      var rec := model.records[userId];
      var kept := PullMeals(rec.meals, mealId);
      MealsChangeKeepsUnique(model.records, userId, kept);
      model.records := model.records[userId := rec.(meals := kept)];
      r := Success(UpdateResponse(1, if kept == rec.meals then 0 else 1));
    }
  }

  /** The positional update touches the first matching meal only: the list
      keeps its length, every other meal is unchanged, and the touched one
      keeps its `_id` and takes the body's fields. */
  lemma PositionalUpdateTouchesOneMeal(meals: seq<Meal>, mealId: MealId, body: MealBody)
    requires FirstMealIndex(meals, mealId).Some?
    ensures var k := FirstMealIndex(meals, mealId).value;
            var meals' := meals[k := Overwrite(meals[k], body)];
            && |meals'| == |meals|
            && meals'[k] == NewMeal(mealId, body)
            && forall i :: 0 <= i < |meals| && i != k ==> meals'[i] == meals[i]
  {
  }
}
