/** The `Parameters` route-parameter class: `id` and `mealId` are each
    validated only when truthy, and then must be MongoDB ObjectId strings.
    The ObjectId rule is class-validator's `IsMongoId`, whose code is not
    part of this model; it is taken to be "exactly 24 hexadecimal digits,
    either case". */
module Parameters {
  import opened Wrappers

  const ID: string := "id"
  const MEAL_ID: string := "mealId"

  /** The route parameters as strings; None stands for `undefined`. */
  datatype Params = Params(id: Option<string>, mealId: Option<string>)

  predicate IsHexDigit(c: char) {
    ('0' <= c <= '9') || ('a' <= c <= 'f') || ('A' <= c <= 'F')
  }

  /** The assumed `IsMongoId` rule. */
  predicate IsMongoId(s: string) {
    |s| == 24 && forall i :: 0 <= i < |s| ==> IsHexDigit(s[i])
  }

  /** JavaScript truthiness of an optional string: `!!value`. */
  predicate Truthy(value: Option<string>) {
    value.Some? && value.value != ""
  }

  /** The property fails validation: it is checked (truthy) and is not an
      ObjectId. */
  predicate Rejects(value: Option<string>) {
    Truthy(value) && !IsMongoId(value.value)
  }

  /** The names of the properties that fail validation, in declaration order;
      an empty result means the request reaches the handler. */
  function ValidateParameters(p: Params): (failed: seq<string>)
    ensures ID in failed <==> Rejects(p.id)
    ensures MEAL_ID in failed <==> Rejects(p.mealId)
    ensures forall k :: 0 <= k < |failed| ==> failed[k] == ID || failed[k] == MEAL_ID
    ensures |failed| <= 2 && (|failed| == 2 ==> failed == [ID, MEAL_ID])
  {
    (if Rejects(p.id) then [ID] else []) + (if Rejects(p.mealId) then [MEAL_ID] else [])
  }

  /** An absent or empty `id` is not checked at all. */
  lemma FalsyIdNotChecked(mealId: Option<string>)
    ensures ID !in ValidateParameters(Params(None, mealId))
    ensures ID !in ValidateParameters(Params(Some(""), mealId))
  {
  }

  /** `'123'` is not an ObjectId: as `id` it is reported under `id` alone,
      as `mealId` under `mealId` alone. */
  lemma ShortIdRejected()
    ensures ValidateParameters(Params(Some("123"), Some("507f1f77bcf86cd799439012"))) == [ID]
    ensures ValidateParameters(Params(Some("507f1f77bcf86cd799439011"), Some("123"))) == [MEAL_ID]
  {
    HexIdsAccepted();
  }

  /** The fixture ids are 24 hex digits and pass, so such a request reaches
      its handler. */
  lemma HexIdsAccepted()
    ensures IsMongoId("507f1f77bcf86cd799439011")
    ensures IsMongoId("507f1f77bcf86cd799439012")
    ensures ValidateParameters(Params(Some("507f1f77bcf86cd799439011"), Some("507f1f77bcf86cd799439012"))) == []
  {
  }

  /** Each property's verdict ignores the other property. */
  lemma IndependentVerdicts(p: Params, q: Params)
    ensures p.id == q.id ==> (ID in ValidateParameters(p) <==> ID in ValidateParameters(q))
    ensures p.mealId == q.mealId ==> (MEAL_ID in ValidateParameters(p) <==> MEAL_ID in ValidateParameters(q))
  {
  }
}
