/** The user payload schemas, shared by `POST /users`, `PATCH /users/:id` and `POST /sign-up`. */
module SignUpValidation {

  import opened Wrappers
  import opened Json
  import opened Zod
  import Email

  /** `zod.object({ username: string().min(6), email: zod.email(), password: string().min(6) })` */
  const SignUpSchema: ObjectSchema :=
    ObjectSchema([Field("username", Str(6), false), Field("email", EmailFormat, false), Field("password", Str(6), false)], false)

  /** `SignUpSchema.partial().strict()` */
  const UpdateUser: ObjectSchema := Strict(Partial(SignUpSchema))

  const UserKeys: set<string> := {"username", "email", "password"}

  predicate StringOfAtLeast(fields: Record, key: string, n: nat) {
    key in fields && fields[key].JString? && |fields[key].s| >= n
  }

  predicate EmailField(fields: Record, key: string) {
    key in fields && fields[key].JString? && Email.IsEmail(fields[key].s)
  }

  /** What `SignUpSchema` accepts. */
  predicate IsSignUpPayload(v: Json) {
    v.JObject? && StringOfAtLeast(v.fields, "username", 6) && EmailField(v.fields, "email") && StringOfAtLeast(v.fields, "password", 6)
  }

  /** What `UpdateUser` accepts: only user keys, each present one obeying its `SignUpSchema` rule. */
  predicate IsUserPatch(v: Json) {
    && v.JObject?
    && v.fields.Keys <= UserKeys
    && ("username" in v.fields ==> StringOfAtLeast(v.fields, "username", 6))
    && ("email" in v.fields ==> EmailField(v.fields, "email"))
    && ("password" in v.fields ==> StringOfAtLeast(v.fields, "password", 6))
  }

  lemma SignUpShape()
    ensures Keys(SignUpSchema.shape) == UserKeys
    ensures Keys(UpdateUser.shape) == UserKeys
  {
    assert SignUpSchema.shape[0].key == "username";
    assert SignUpSchema.shape[1].key == "email";
    assert SignUpSchema.shape[2].key == "password";
  }

  /** `SignUpSchema` accepts exactly the objects with a `username` and a `password` of length at least 6 and an email-shaped `email`. */
  lemma SignUpAccepts(v: Json)
    ensures SafeParse(Object(SignUpSchema), v).Success? <==> IsSignUpPayload(v)
  {
    var s := SignUpSchema.shape;
    assert s[0] == Field("username", Str(6), false) && s[1] == Field("email", EmailFormat, false) && s[2] == Field("password", Str(6), false);
    if v.JObject? && StringOfAtLeast(v.fields, "username", 6) && EmailField(v.fields, "email") && StringOfAtLeast(v.fields, "password", 6) {
      forall i | 0 <= i < |s|
        ensures FieldAccepts(s[i], v.fields)
      {
        assert i == 0 || i == 1 || i == 2;
      }
    }
    if v.JObject? && ObjectAccepts(SignUpSchema, v) {
      assert FieldAccepts(s[0], v.fields) && FieldAccepts(s[1], v.fields) && FieldAccepts(s[2], v.fields);
    }
  }

  /** On success `SignUpSchema` outputs the input restricted to `username`, `email` and `password`. */
  lemma SignUpOutput(v: Json)
    requires SafeParse(Object(SignUpSchema), v).Success?
    ensures SafeParse(Object(SignUpSchema), v).value == map k | k in v.fields && k in UserKeys :: v.fields[k]
  {
    SignUpShape();
  }

  /** A username of length 5 is too short. */
  lemma SignUpRejectsShortUsername(v: Json)
    requires v.JObject? && "username" in v.fields && v.fields["username"].JString? && |v.fields["username"].s| == 5
    ensures SafeParse(Object(SignUpSchema), v).Failure?
  {
    SignUpAccepts(v);
  }

  /** A password of length 5 is too short. */
  lemma SignUpRejectsShortPassword(v: Json)
    requires v.JObject? && "password" in v.fields && v.fields["password"].JString? && |v.fields["password"].s| == 5
    ensures SafeParse(Object(SignUpSchema), v).Failure?
  {
    SignUpAccepts(v);
  }

  /** `{foo: "bar"}` is rejected. */
  lemma SignUpRejectsFooBar()
    ensures SafeParse(Object(SignUpSchema), JObject(map["foo" := JString("bar")])).Failure?
  {
    SignUpAccepts(JObject(map["foo" := JString("bar")]));
  }

  /** `UpdateUser` accepts exactly the objects with only user keys whose present keys obey their `SignUpSchema` rule. */
  lemma UpdateUserAccepts(v: Json)
    ensures SafeParse(Object(UpdateUser), v).Success? <==> IsUserPatch(v)
  {
    SignUpShape();
    PartialStrictAccepts(SignUpSchema, v);
    var s := SignUpSchema.shape;
    assert s[0] == Field("username", Str(6), false) && s[1] == Field("email", EmailFormat, false) && s[2] == Field("password", Str(6), false);
    if && v.JObject? && v.fields.Keys <= UserKeys
       && ("username" in v.fields ==> StringOfAtLeast(v.fields, "username", 6))
       && ("email" in v.fields ==> EmailField(v.fields, "email"))
       && ("password" in v.fields ==> StringOfAtLeast(v.fields, "password", 6))
    {
      forall i | 0 <= i < |s| && s[i].key in v.fields
        ensures Satisfies(s[i].check, v.fields[s[i].key])
      {
        assert i == 0 || i == 1 || i == 2;
      }
    }
  }

  /** Being strict, `UpdateUser` strips nothing: on success its output is the input object itself. */
  lemma UpdateUserOutput(v: Json)
    requires SafeParse(Object(UpdateUser), v).Success?
    ensures SafeParse(Object(UpdateUser), v).value == v.fields
  {
    UpdateUserAccepts(v);
    SignUpShape();
  }

  /** Any key other than `username`, `email` and `password` makes `UpdateUser` fail. */
  lemma UpdateUserRejectsUnknownKey(v: Json, k: string)
    requires v.JObject? && k in v.fields && k !in UserKeys
    ensures SafeParse(Object(UpdateUser), v).Failure?
  {
    UpdateUserAccepts(v);
  }

  /** `{nonsense: true}` is rejected. */
  lemma UpdateUserRejectsNonsense()
    ensures SafeParse(Object(UpdateUser), JObject(map["nonsense" := JBool(true)])).Failure?
  {
    UpdateUserRejectsUnknownKey(JObject(map["nonsense" := JBool(true)]), "nonsense");
  }

  /** A patch of only an email-shaped `email` is accepted and passed on unchanged. */
  lemma UpdateUserAcceptsEmailOnly(e: string)
    requires Email.IsEmail(e)
    ensures SafeParse(Object(UpdateUser), JObject(map["email" := JString(e)])) == Success(map["email" := JString(e)])
  {
    var v := JObject(map["email" := JString(e)]);
    UpdateUserAccepts(v);
    SignUpShape();
    assert Known(UpdateUser.shape, v.fields) == map["email" := JString(e)];
  }
}
