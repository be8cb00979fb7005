/** The 'User' collection as both services see it: documents keyed by
    `_id`, each carrying its embedded list of meals. Only the abstract effect
    of the MongoDB operators is modelled. */
module Store {
  import opened Wrappers
  import opened UserLevel

  type MealId = string

  const USER_NOT_FOUND: string := "User could not be found"

  /** An embedded meal subdocument. */
  datatype Meal = Meal(id: MealId, title: string, description: Option<string>, time: int, calories: int)

  /** The meal fields a request body supplies (the subdocument `_id` is
      generated by the driver). */
  datatype MealBody = MealBody(title: string, description: Option<string>, time: int, calories: int)

  /** A stored user document, without its `_id` (the key). */
  datatype UserRecord = UserRecord(
    firstName: string, lastName: string, email: string,
    targetCalories: Option<int>, authLevel: AuthLevel, password: string,
    meals: seq<Meal>)

  /** The write result the services return: `n` documents matched and
      `nModified` changed (for an update), or `n` removed (for a delete). */
  datatype DbResponse = UpdateResponse(n: nat, nModified: nat) | DeleteResponse(n: nat)

  /** Why a call failed: an HTTP exception thrown by the service, or the
      driver's duplicate-key error on the unique `_id`/`email` indexes. */
  datatype ServiceError = Thrown(exception: HttpException) | DuplicateKey

  const NotFound: ServiceError := Thrown(HttpException(NOT_FOUND, USER_NOT_FOUND))

  /** Some stored user already uses `email`. */
  predicate EmailTaken(records: map<UserId, UserRecord>, email: string) {
    exists id :: id in records && records[id].email == email
  }

  /** The unique index on `email`: no two documents share one. */
  ghost predicate EmailsUnique(records: map<UserId, UserRecord>) {
    forall id, id' :: id in records && id' in records && id != id' ==> records[id].email != records[id'].email
  }

  /** An insert under a fresh `_id` keeps the unique email index exactly
      when the new email is not taken yet; otherwise the index refuses it. */
  lemma {:induction false} InsertKeepsUnique(records: map<UserId, UserRecord>, id: UserId, rec: UserRecord)
    requires EmailsUnique(records) && id !in records
    ensures EmailsUnique(records[id := rec]) <==> !EmailTaken(records, rec.email)
  {
    var r := records[id := rec];
    if EmailTaken(records, rec.email) {
      var other :| other in records && records[other].email == rec.email;
      assert other in r && id in r && other != id && r[other].email == r[id].email;
    } else {
      forall a, b | a in r && b in r && a != b
        ensures r[a].email != r[b].email
      {
        if a == id {
          assert records[b].email == r[b].email;
        } else if b == id {
          assert records[a].email == r[a].email;
        } else {
          assert r[a].email == records[a].email && r[b].email == records[b].email;
        }
      }
    }
  }

  /** The index of the first meal whose `_id` is `mealId`, which is the
      element the positional operator `meals.$` designates. */
  function FirstMealIndex(meals: seq<Meal>, mealId: MealId): (k: Option<nat>)
    ensures k.None? <==> forall i :: 0 <= i < |meals| ==> meals[i].id != mealId
    ensures k.Some? ==> k.value < |meals| && meals[k.value].id == mealId
                        && forall i :: 0 <= i < k.value ==> meals[i].id != mealId
  {
    if meals == [] then None
    else if meals[0].id == mealId then Some(0)
    else
      match FirstMealIndex(meals[1..], mealId)
      case None => None
      case Some(k) => Some(k + 1)
  }

  /** `$pull: { meals: { _id: mealId } }`: every meal with that id goes,
      the others stay in order. */
  function PullMeals(meals: seq<Meal>, mealId: MealId): (kept: seq<Meal>)
    ensures forall m :: m in kept <==> m in meals && m.id != mealId
    ensures |kept| <= |meals|
    ensures (forall i :: 0 <= i < |meals| ==> meals[i].id != mealId) <==> kept == meals
  {
    if meals == [] then []
    else if meals[0].id == mealId then PullMeals(meals[1..], mealId)
    else [meals[0]] + PullMeals(meals[1..], mealId)
  }

  /** `$pull` works element by element: pulling from a concatenation is
      concatenating the pulls, so the kept meals stay in their order. */
  lemma {:induction false} PullMealsAppend(a: seq<Meal>, b: seq<Meal>, mealId: MealId)
    ensures PullMeals(a + b, mealId) == PullMeals(a, mealId) + PullMeals(b, mealId)
  {
    if a != [] {
      assert (a + b)[0] == a[0] && (a + b)[1..] == a[1..] + b;
      PullMealsAppend(a[1..], b, mealId);
    } else {
      assert a + b == b;
    }
  }

  /** The documents of the collection, shared by the user and meal services. */
  class UserCollection {
    var records: map<UserId, UserRecord>

    /** The collection's unique indexes hold. */
    ghost predicate Valid()
      reads this
    {
      EmailsUnique(records)
    }

    constructor ()
      ensures Valid() && records == map[]
    {
      records := map[];
    }
  }
}
