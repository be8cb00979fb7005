/** The two guarded controllers wired to their services over one shared
    'User' collection: a request is run through the pipeline and, when the
    pipeline invokes a service, the service changes the collection. */
module Application {
  import opened Wrappers
  import opened UserLevel
  import opened Parameters
  import opened Store
  import opened UserServices
  import opened MealServices
  import opened RequestPipeline
  import UC = UserController
  import MC = MealsController

  /** The answer a request gets. */
  datatype Response =
    | Refused(exception: HttpException)
    | BadRequest(properties: seq<string>)
    | Failed(failure: ServiceError)
    | CreatedUser(view: UserView)
    | UserList(users: set<UserView>)
    | Written(result: DbResponse)
    | FoundUser(found: Option<StoredUser>)
    | AddedMeal(meal: Meal)
    | MealList(userMeals: UserMeals)

  /** The collection after a `UserService` call, as the called method
      leaves it. */
  function UserCallEffect(uc: UC.Call, records: map<UserId, UserRecord>, newId: UserId): map<UserId, UserRecord> {
    match uc
    case CreateNewUserWithPrivileges(user) =>
      if newId !in records && !EmailTaken(records, user.email) then records[newId := NewRecord(user)] else records
    case FindAll => records
    case Delete(id) => records - {id}
    case Update(id, body) =>
      if id in records then records[id := SetProfile(records[id], body)] else records
    case UpdateWithPrivileges(id, body) =>
      if id in records then records[id := SetProfileAndLevel(records[id], body)] else records
    case FindUser(_) => records
  }

  /** The answer to a `UserService` call, as the called method returns it:
      a duplicate key for a taken `_id` or email, `n` and `nModified` of the
      write, and the document or nothing for a lookup. */
  function UserCallResponse(uc: UC.Call, records: map<UserId, UserRecord>, newId: UserId): Response {
    match uc
    case CreateNewUserWithPrivileges(user) =>
      if newId !in records && !EmailTaken(records, user.email) then CreatedUser(StripPassword(newId, NewRecord(user)))
      else Failed(DuplicateKey)
    case FindAll => UserList(set id | id in records :: Listed(id, records[id]))
    case Delete(id) => Written(DeleteResponse(if id in records then 1 else 0))
    case Update(id, body) =>
      Written(if id !in records then UpdateResponse(0, 0)
              else UpdateResponse(1, if SetProfile(records[id], body) == records[id] then 0 else 1))
    case UpdateWithPrivileges(id, body) =>
      Written(if id !in records then UpdateResponse(0, 0)
              else UpdateResponse(1, if SetProfileAndLevel(records[id], body) == records[id] then 0 else 1))
    case FindUser(id) => FoundUser(if id in records then Some(StoredUser(id, records[id])) else None)
  }

  /** The collection after a `MealsService` call: only the meals of the
      addressed user change, and nothing does when that user is absent or,
      for a positional update, holds no such meal. */
  function MealsCallEffect(mc: MC.Call, records: map<UserId, UserRecord>, newMealId: MealId): map<UserId, UserRecord> {
    if mc.userId !in records then records
    else
      var rec := records[mc.userId];
      match mc
      case AddMealCall(_, meal) => records[mc.userId := rec.(meals := rec.meals + [NewMeal(newMealId, meal)])]
      case UpdateMealCall(_, mealId, meal) =>
        (match FirstMealIndex(rec.meals, mealId)
         case None => records
         case Some(k) => records[mc.userId := rec.(meals := rec.meals[k := Overwrite(rec.meals[k], meal)])])
      case GetMealsCall(_) => records
      case DeleteMealCall(_, mealId) => records[mc.userId := rec.(meals := PullMeals(rec.meals, mealId))]
  }

  /** The answer to a `MealsService` call: NotFound for an absent user (and
      for an update of a meal the user does not hold), otherwise the meal
      added, the write result or the user's meals. */
  function MealsCallResponse(mc: MC.Call, records: map<UserId, UserRecord>, newMealId: MealId): Response {
    if mc.userId !in records then Failed(NotFound)
    else
      var meals := records[mc.userId].meals;
      match mc
      case AddMealCall(_, meal) => AddedMeal(NewMeal(newMealId, meal))
      case UpdateMealCall(_, mealId, meal) =>
        (match FirstMealIndex(meals, mealId)
         case None => Failed(NotFound)
         case Some(k) => Written(UpdateResponse(1, if Overwrite(meals[k], meal) == meals[k] then 0 else 1)))
      case GetMealsCall(userId) => MealList(UserMeals(userId, meals))
      case DeleteMealCall(_, mealId) => Written(UpdateResponse(1, if PullMeals(meals, mealId) == meals then 0 else 1))
  }

  /** The collection after the call the pipeline invokes. */
  function Effect(call: Call, records: map<UserId, UserRecord>, newId: UserId, newMealId: MealId): map<UserId, UserRecord> {
    match call
    case UserCall(uc) => UserCallEffect(uc, records, newId)
    case MealsCall(mc) => MealsCallEffect(mc, records, newMealId)
  }

  /** The answer to the call the pipeline invokes. */
  function CallResponse(call: Call, records: map<UserId, UserRecord>, newId: UserId, newMealId: MealId): Response {
    match call
    case UserCall(uc) => UserCallResponse(uc, records, newId)
    case MealsCall(mc) => MealsCallResponse(mc, records, newMealId)
  }

  /** Every document but `id` is exactly as before. */
  ghost predicate OthersUnchanged(before: map<UserId, UserRecord>, after: map<UserId, UserRecord>, id: UserId) {
    forall other :: other in before && other != id ==> other in after && after[other] == before[other]
  }

  /** Every document but `id` has the same fields as before except perhaps
      its meals. */
  ghost predicate OthersProfilesUnchanged(before: map<UserId, UserRecord>, after: map<UserId, UserRecord>, id: UserId) {
    forall other :: other in before && other != id ==>
      other in after && after[other] == before[other].(meals := after[other].meals)
  }

  /** No surviving document changed its email. */
  ghost predicate EmailsKept(before: map<UserId, UserRecord>, after: map<UserId, UserRecord>) {
    forall id :: id in before && id in after ==> after[id].email == before[id].email
  }

  /** No call the pipeline can invoke changes a stored email: the update
      paths never `$set` it and creation refuses a taken one. */
  lemma EffectKeepsEmails(call: Call, records: map<UserId, UserRecord>, newId: UserId, newMealId: MealId)
    ensures EmailsKept(records, Effect(call, records, newId, newMealId))
  {
  }

  /** A USER creates and deletes no one, and changes only their own
      document, never its access level. */
  lemma UserConfinedToOwnDocument(req: Request, records: map<UserId, UserRecord>, newId: UserId, newMealId: MealId)
    requires Routed(req) && Handle(req).Invoke? && req.user.value.authLevel == User
    ensures var me := req.user.value.id;
            var after := Effect(Handle(req).call, records, newId, newMealId);
            && after.Keys == records.Keys
            && OthersUnchanged(records, after, me)
            && (me in after ==> after[me].authLevel == records[me].authLevel)
  {
  }

  /** A USER_MANAGER creates and deletes no one, and changes no one else's
      profile (other users' meals, yes). */
  lemma ManagerKeepsOthersProfiles(req: Request, records: map<UserId, UserRecord>, newId: UserId, newMealId: MealId)
    requires Routed(req) && Handle(req).Invoke? && req.user.value.authLevel == UserManager
    ensures var after := Effect(Handle(req).call, records, newId, newMealId);
            && after.Keys == records.Keys
            && OthersProfilesUnchanged(records, after, req.user.value.id)
  {
  }

  class Server {
    const users: UserService
    const meals: MealsService

    constructor (model: UserCollection)
      ensures users.model == model && meals.model == model
    {
      users := new UserService(model);
      meals := new MealsService(model);
    }

    /** Serves one request. `newId` and `newMealId` stand for the ObjectIds
        the driver would generate for a new user or a new meal. */
    method Serve(req: Request, newId: UserId, newMealId: MealId) returns (resp: Response)
      requires Routed(req) && users.model == meals.model && users.model.Valid()
      modifies users.model
      ensures users.model.Valid()
      ensures Handle(req).Rejected? ==> resp == Refused(Handle(req).exception) && unchanged(users.model)
      ensures Handle(req).Invalid? ==> resp == BadRequest(Handle(req).properties) && unchanged(users.model)
      ensures Handle(req).Invoke? ==>
                && users.model.records == Effect(Handle(req).call, old(users.model.records), newId, newMealId)
                && resp == CallResponse(Handle(req).call, old(users.model.records), newId, newMealId)
      ensures EmailsKept(old(users.model.records), users.model.records)
      // A USER creates and deletes no one, and changes only their own
      // document, never its access level.
      ensures req.user.Some? && req.user.value.authLevel == User ==>
                var me := req.user.value.id;
                && users.model.records.Keys == old(users.model.records).Keys
                && OthersUnchanged(old(users.model.records), users.model.records, me)
                && (me in users.model.records ==>
                      users.model.records[me].authLevel == old(users.model.records)[me].authLevel)
      // A USER_MANAGER creates and deletes no one, and changes no one else's
      // profile (other users' meals, yes).
      ensures req.user.Some? && req.user.value.authLevel == UserManager ==>
                && users.model.records.Keys == old(users.model.records).Keys
                && OthersProfilesUnchanged(old(users.model.records), users.model.records, req.user.value.id)
    {
      var outcome := Handle(req);
      match outcome
      case Rejected(e) =>
        resp := Refused(e);
      case Invalid(props) =>
        resp := BadRequest(props);
      case Invoke(call) =>
        resp := Dispatch(req, call, newId, newMealId);
    }

    /** Runs the call the pipeline invoked for `req`. */
    method Dispatch(ghost req: Request, call: Call, newId: UserId, newMealId: MealId) returns (resp: Response)
      requires Routed(req) && Handle(req) == Invoke(call)
      requires users.model == meals.model && users.model.Valid()
      modifies users.model
      ensures users.model.Valid()
      ensures users.model.records == Effect(call, old(users.model.records), newId, newMealId)
      ensures resp == CallResponse(call, old(users.model.records), newId, newMealId)
      ensures EmailsKept(old(users.model.records), users.model.records)
      ensures req.user.value.authLevel == User ==>
                var me := req.user.value.id;
                && users.model.records.Keys == old(users.model.records).Keys
                && OthersUnchanged(old(users.model.records), users.model.records, me)
                && (me in users.model.records ==>
                      users.model.records[me].authLevel == old(users.model.records)[me].authLevel)
      ensures req.user.value.authLevel == UserManager ==>
                && users.model.records.Keys == old(users.model.records).Keys
                && OthersProfilesUnchanged(old(users.model.records), users.model.records, req.user.value.id)
    {
      EffectKeepsEmails(call, users.model.records, newId, newMealId);
      if req.user.value.authLevel == User {
        UserConfinedToOwnDocument(req, users.model.records, newId, newMealId);
      } else if req.user.value.authLevel == UserManager {
        ManagerKeepsOthersProfiles(req, users.model.records, newId, newMealId);
      }
      match call
      case UserCall(uc) =>
        resp := ServeUsers(uc, newId);
      case MealsCall(mc) =>
        resp := ServeMeals(mc, newMealId);
    }

    /** Runs a `UserService` call the pipeline decided on. */
    method ServeUsers(uc: UC.Call, newId: UserId) returns (resp: Response)
      requires users.model.Valid()
      modifies users.model
      ensures users.model.Valid()
      ensures users.model.records == UserCallEffect(uc, old(users.model.records), newId)
      ensures resp == UserCallResponse(uc, old(users.model.records), newId)
    {
      match uc
      case CreateNewUserWithPrivileges(user) =>
        var r := users.CreateNewUserWithPrivileges(user, newId);
        resp := if r.Success? then CreatedUser(r.value) else Failed(r.error);
      case FindAll =>
        var all := users.FindAll();
        assert all == set id | id in users.model.records :: Listed(id, users.model.records[id]);
        resp := UserList(all);
      case Delete(id) =>
        var r := users.Delete(id);
        resp := Written(r);
      case Update(id, body) =>
        var r := users.Update(id, body);
        resp := Written(r);
      case UpdateWithPrivileges(id, body) =>
        var r := users.UpdateWithPrivileges(id, body);
        resp := Written(r);
      case FindUser(id) =>
        var found := users.FindUser(id);
        resp := FoundUser(found);
    }

    /** Runs a `MealsService` call the pipeline decided on. */
    method ServeMeals(mc: MC.Call, newMealId: MealId) returns (resp: Response)
      requires users.model == meals.model && meals.model.Valid()
      modifies meals.model
      ensures meals.model.Valid()
      ensures meals.model.records == MealsCallEffect(mc, old(meals.model.records), newMealId)
      ensures resp == MealsCallResponse(mc, old(meals.model.records), newMealId)
    {
      match mc
      case AddMealCall(userId, meal) =>
        var r := meals.AddMeal(userId, meal, newMealId);
        resp := if r.Success? then AddedMeal(r.value) else Failed(r.error);
      case UpdateMealCall(userId, mealId, meal) =>
        var r := meals.UpdateMeal(userId, mealId, meal);
        resp := if r.Success? then Written(r.value) else Failed(r.error);
      case GetMealsCall(userId) =>
        var r := meals.GetMeals(userId);
        resp := if r.Success? then MealList(r.value) else Failed(r.error);
      case DeleteMealCall(userId, mealId) =>
        var r := meals.DeleteMeal(userId, mealId);
        resp := if r.Success? then Written(r.value) else Failed(r.error);
    }
  }
}
