/** `UserService`: registration, listing, updates, deletion and lookup of
    user documents, plus the two field-stripping helpers. */
module UserServices {
  import opened Wrappers
  import opened UserLevel
  import opened Store

  /** A registration body; `authLevel` is optional. */
  datatype Registration = Registration(
    firstName: string, lastName: string, email: string, password: string,
    targetCalories: Option<int>, authLevel: Option<AuthLevel>)

  /** An update body (the `User` model); its `_id` and `email` are ignored
      by both update paths. */
  datatype UserBody = UserBody(
    id: UserId, firstName: string, lastName: string, email: string,
    targetCalories: Option<int>, authLevel: AuthLevel)

  /** A user as returned to the client without `password`; `meals` is None
      when the query projected it out. */
  datatype UserView = UserView(
    id: UserId, firstName: string, lastName: string, email: string,
    targetCalories: Option<int>, authLevel: AuthLevel, meals: Option<seq<Meal>>)

  /** A whole stored document with its key, password included. */
  datatype StoredUser = StoredUser(id: UserId, record: UserRecord)

  /** `stripAuthLevel`: the body without its `authLevel`. */
  function StripAuthLevel(user: Registration): (body: Registration)
    ensures body.authLevel.None?
    ensures body == user.(authLevel := None)
  {
    Registration(user.firstName, user.lastName, user.email, user.password, user.targetCalories, None)
  }

  /** The document a registration body creates: the schema's default level
      USER when none is given, and no meals yet. */
  function NewRecord(user: Registration): (rec: UserRecord)
    ensures rec.authLevel == (if user.authLevel.Some? then user.authLevel.value else User)
    ensures rec.meals == [] && rec.email == user.email && rec.password == user.password
    ensures rec.firstName == user.firstName && rec.lastName == user.lastName
    ensures rec.targetCalories == user.targetCalories
  {
    UserRecord(user.firstName, user.lastName, user.email, user.targetCalories,
               match user.authLevel case Some(level) => level case None => User,
               user.password, [])
  }

  /** `stripPassword`: every field but `password`. */
  function StripPassword(id: UserId, rec: UserRecord): (view: UserView)
    ensures view.id == id && view.meals == Some(rec.meals) && view.authLevel == rec.authLevel
    ensures view.email == rec.email && view.firstName == rec.firstName
    ensures view.lastName == rec.lastName && view.targetCalories == rec.targetCalories
  {
    UserView(id, rec.firstName, rec.lastName, rec.email, rec.targetCalories, rec.authLevel, Some(rec.meals))
  }

  /** A document under the projection `{ meals: 0, password: 0 }`. */
  function Listed(id: UserId, rec: UserRecord): (view: UserView)
    ensures view.meals.None? && view == StripPassword(id, rec).(meals := None)
  {
    UserView(id, rec.firstName, rec.lastName, rec.email, rec.targetCalories, rec.authLevel, None)
  }

  /** The `$set` of `update`: names and target calories only. */
  function SetProfile(rec: UserRecord, body: UserBody): (rec': UserRecord)
    ensures rec'.firstName == body.firstName && rec'.lastName == body.lastName
    ensures rec'.targetCalories == body.targetCalories
    ensures rec'.email == rec.email && rec'.authLevel == rec.authLevel
    ensures rec'.password == rec.password && rec'.meals == rec.meals
  {
    rec.(firstName := body.firstName, lastName := body.lastName, targetCalories := body.targetCalories)
  }

  /** The `$set` of `updateWithPrivileges`: the same plus `authLevel`. */
  function SetProfileAndLevel(rec: UserRecord, body: UserBody): (rec': UserRecord)
    ensures rec' == SetProfile(rec, body).(authLevel := body.authLevel)
    ensures rec'.email == rec.email && rec'.authLevel == body.authLevel
  {
    rec.(firstName := body.firstName, lastName := body.lastName,
         targetCalories := body.targetCalories, authLevel := body.authLevel)
  }

  /** Replacing a document by one with the same email keeps the emails unique. */
  lemma {:induction false} SameEmailKeepsUnique(records: map<UserId, UserRecord>, id: UserId, rec: UserRecord)
    requires EmailsUnique(records) && id in records && rec.email == records[id].email
    ensures EmailsUnique(records[id := rec])
  {
    var r := records[id := rec];
    forall a, b | a in r && b in r && a != b
      ensures r[a].email != r[b].email
    {
      assert r[a].email == records[a].email && r[b].email == records[b].email;
    }
  }

  class UserService {
    const model: UserCollection

    constructor (model: UserCollection)
      ensures this.model == model
    {
      this.model := model;
    }

    /** `new this.userModel(doc).save()`: refused by a unique index when the
        key or the email is already used. */
    method Save(user: Registration, newId: UserId) returns (r: Result<UserView, ServiceError>)
      requires model.Valid()
      modifies model
      ensures model.Valid()
      ensures r.Success? <==> newId !in old(model.records) && !EmailTaken(old(model.records), user.email)
      ensures r.Failure? ==> r.error == DuplicateKey && model.records == old(model.records)
      ensures r.Success? ==> model.records == old(model.records)[newId := NewRecord(user)]
                             && r.value == StripPassword(newId, NewRecord(user))
    {
      if newId in model.records || EmailTaken(model.records, user.email) {
        return Failure(DuplicateKey);
      }
      var rec := NewRecord(user);
      InsertKeepsUnique(model.records, newId, rec);
      model.records := model.records[newId := rec];
      return Success(StripPassword(newId, rec));
    }

    /** Self-registration: the body's `authLevel` is discarded, so the new
        user is stored as USER. */
    method CreateNewUser(user: Registration, newId: UserId) returns (r: Result<UserView, ServiceError>)
      requires model.Valid()
      modifies model
      ensures model.Valid()
      ensures r.Success? <==> newId !in old(model.records) && !EmailTaken(old(model.records), user.email)
      ensures r.Failure? ==> r.error == DuplicateKey && model.records == old(model.records)
      ensures r.Success? ==> model.records == old(model.records)[newId := NewRecord(StripAuthLevel(user))]
                             && model.records[newId].authLevel == User
                             && r.value == StripPassword(newId, model.records[newId])
    {
      r := Save(StripAuthLevel(user), newId);
    }

    /** Creation by an administrator: the supplied `authLevel` is stored as
        given (USER when absent). */
    method CreateNewUserWithPrivileges(user: Registration, newId: UserId) returns (r: Result<UserView, ServiceError>)
      requires model.Valid()
      modifies model
      ensures model.Valid()
      ensures r.Success? <==> newId !in old(model.records) && !EmailTaken(old(model.records), user.email)
      ensures r.Failure? ==> r.error == DuplicateKey && model.records == old(model.records)
      ensures r.Success? ==> model.records == old(model.records)[newId := NewRecord(user)]
                             && (user.authLevel.Some? ==> model.records[newId].authLevel == user.authLevel.value)
                             && r.value == StripPassword(newId, model.records[newId])
    {
      r := Save(user, newId);
    }

    /** Every user, with `meals` and `password` projected out. */
    method FindAll() returns (users: set<UserView>)
      ensures forall v :: v in users <==> v.id in model.records && v == Listed(v.id, model.records[v.id])
      ensures forall v :: v in users ==> v.meals.None?
    {
      users := set id | id in model.records :: Listed(id, model.records[id]);
    }

    /** `updateOne` with `$set` of names and target calories; an unknown id
        matches nothing and is not an error. */
    method Update(id: UserId, user: UserBody) returns (r: DbResponse)
      requires model.Valid()
      modifies model
      ensures model.Valid()
      ensures id !in old(model.records) ==> model.records == old(model.records) && r == UpdateResponse(0, 0)
      ensures id in old(model.records) ==>
                model.records == old(model.records)[id := SetProfile(old(model.records)[id], user)]
                && r == UpdateResponse(1, if model.records[id] == old(model.records)[id] then 0 else 1)
    {
      if id !in model.records {
        return UpdateResponse(0, 0);
      }
      var before := model.records[id];
      var after := SetProfile(before, user);
      SameEmailKeepsUnique(model.records, id, after);
      model.records := model.records[id := after];
      r := UpdateResponse(1, if after == before then 0 else 1);
    }

    /** `updateOne` with `$set` of names, target calories and `authLevel`;
        `email` is never set. */
    method UpdateWithPrivileges(id: UserId, user: UserBody) returns (r: DbResponse)
      requires model.Valid()
      modifies model
      ensures model.Valid()
      ensures id !in old(model.records) ==> model.records == old(model.records) && r == UpdateResponse(0, 0)
      ensures id in old(model.records) ==>
                model.records == old(model.records)[id := SetProfileAndLevel(old(model.records)[id], user)]
                && r == UpdateResponse(1, if model.records[id] == old(model.records)[id] then 0 else 1)
    {
      if id !in model.records {
        return UpdateResponse(0, 0);
      }
      var before := model.records[id];
      var after := SetProfileAndLevel(before, user);
      SameEmailKeepsUnique(model.records, id, after);
      model.records := model.records[id := after];
      r := UpdateResponse(1, if after == before then 0 else 1);
    }

    /** `deleteOne({ _id: id })`. */
    method Delete(id: UserId) returns (r: DbResponse)
      requires model.Valid()
      modifies model
      ensures model.Valid()
      ensures model.records == old(model.records) - {id}
      ensures r == DeleteResponse(if id in old(model.records) then 1 else 0)
    {
      r := DeleteResponse(if id in model.records then 1 else 0);
      model.records := model.records - {id};
    }

    /** `find({ _id: id })[0]`: the whole document (password included), or
        undefined. */
    method FindUser(id: UserId) returns (r: Option<StoredUser>)
      ensures r.Some? <==> id in model.records
      ensures r.Some? ==> r.value == StoredUser(id, model.records[id])
    {
      if id in model.records {
        r := Some(StoredUser(id, model.records[id]));
      } else {
        r := None;
      }
    }
  }
}
