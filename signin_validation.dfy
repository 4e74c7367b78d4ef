/** The payload schema of `POST /sign-in`. */
module SignInValidation {

  import opened Wrappers
  import opened Json
  import opened Zod
  import Email

  /** The single alternative: `zod.object({ email: zod.email(), password: string().min(6) })` */
  const Credentials: ObjectSchema :=
    ObjectSchema([Field("email", EmailFormat, false), Field("password", Str(6), false)], false)

  /** `zod.union([Credentials])` */
  const SignInSchema: Schema := Union([Credentials])

  /** What `SignInSchema` accepts. */
  predicate IsCredentials(v: Json) {
    && v.JObject?
    && "email" in v.fields && v.fields["email"].JString? && Email.IsEmail(v.fields["email"].s)
    && "password" in v.fields && v.fields["password"].JString? && |v.fields["password"].s| >= 6
  }

  /** `SignInSchema` accepts exactly the objects with an email-shaped `email` and a `password` of length at least 6. */
  lemma SignInAccepts(v: Json)
    ensures SafeParse(SignInSchema, v).Success? <==> IsCredentials(v)
  {
    SingleOptionUnion(Credentials, v);
    var s := Credentials.shape;
    assert s[0] == Field("email", EmailFormat, false) && s[1] == Field("password", Str(6), false);
    if ObjectAccepts(Credentials, v) {
      assert FieldAccepts(s[0], v.fields) && FieldAccepts(s[1], v.fields);
    }
    if && v.JObject?
       && "email" in v.fields && v.fields["email"].JString? && Email.IsEmail(v.fields["email"].s)
       && "password" in v.fields && v.fields["password"].JString? && |v.fields["password"].s| >= 6
    {
      forall i | 0 <= i < |s|
        ensures FieldAccepts(s[i], v.fields)
      {
        assert i == 0 || i == 1;
      }
    }
  }

  /** On success the output holds the submitted `email` and `password` and nothing else. */
  lemma SignInOutput(v: Json)
    requires SafeParse(SignInSchema, v).Success?
    ensures "email" in v.fields && "password" in v.fields
    ensures SafeParse(SignInSchema, v).value == map["email" := v.fields["email"], "password" := v.fields["password"]]
  {
    SignInAccepts(v);
    SingleOptionUnion(Credentials, v);
    assert Credentials.shape[0].key == "email" && Credentials.shape[1].key == "password";
    assert Keys(Credentials.shape) == {"email", "password"};
  }

  /** `username` is not required, and an extra one is stripped. */
  lemma SignInIgnoresUsername(v: Json, username: Json)
    requires SafeParse(SignInSchema, v).Success?
    ensures SafeParse(SignInSchema, JObject(v.fields["username" := username])).Success?
    ensures SafeParse(SignInSchema, JObject(v.fields["username" := username])).value == SafeParse(SignInSchema, v).value
  {
    SignInAccepts(v);
    var w := JObject(v.fields["username" := username]);
    SignInAccepts(w);
    SignInOutput(v);
    SignInOutput(w);
  }

  /** A missing password is rejected. */
  lemma SignInRejectsMissingPassword(v: Json)
    requires v.JObject? && "password" !in v.fields
    ensures SafeParse(SignInSchema, v).Failure?
  {
    SignInAccepts(v);
  }

  /** A password of length 5 is rejected. */
  lemma SignInRejectsShortPassword(v: Json)
    requires v.JObject? && "password" in v.fields && v.fields["password"].JString? && |v.fields["password"].s| == 5
    ensures SafeParse(SignInSchema, v).Failure?
  {
    SignInAccepts(v);
  }
}
