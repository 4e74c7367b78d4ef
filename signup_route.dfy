/**
 * `POST /sign-up` of `SignUp`: validate the payload, look the email up,
 * create the user when it is new. The handler body runs inside a `try`
 * whose `catch` only logs, so a collaborator that throws ends the request
 * with no further write.
 */
module SignUpRoute {

  import opened Wrappers
  import opened Json
  import opened Zod
  import opened Http
  import SignUpValidation

  /** The two user-DAO calls sign-up makes. */
  datatype SignUpDao = SignUpDao(
    findByEmail: string -> Answer<Option<User>>,
    create: Record -> Answer<seq<User>>)

  const UserExists: string := "User exists!"

  /**
   * A rejected payload sets only the body, to the zod error. An accepted one
   * is looked up by its email; a found user answers 409, and otherwise the
   * stripped payload is created once and answered 201.
   */
  function SignUpReply(body: Json, dao: SignUpDao): (r: Reply)
    ensures !SignUpValidation.IsSignUpPayload(body) ==>
              r.status == None && r.calls == [] && r.body.Some? && r.body.value.ValidationFailure?
    ensures SignUpValidation.IsSignUpPayload(body) ==>
              |r.calls| >= 1 && r.calls[0] == FindByEmail(body.fields["email"].s)
    ensures r.status == Some(409) <==>
              SignUpValidation.IsSignUpPayload(body) && dao.findByEmail(body.fields["email"].s).Returned? &&
              dao.findByEmail(body.fields["email"].s).value.Some?
    ensures r.status == Some(409) ==> r.body == Some(Error(UserExists)) && |r.calls| == 1
    ensures SignUpValidation.IsSignUpPayload(body) ==>
              (r.calls == [FindByEmail(body.fields["email"].s), Create(Known(SignUpValidation.SignUpSchema.shape, body.fields))] <==>
               dao.findByEmail(body.fields["email"].s) == Returned(None))
    ensures |r.calls| <= 2
    ensures r.status == Some(201) <==>
              SignUpValidation.IsSignUpPayload(body) && dao.findByEmail(body.fields["email"].s) == Returned(None) &&
              dao.create(Known(SignUpValidation.SignUpSchema.shape, body.fields)).Returned?
    ensures r.status == Some(201) ==> r.body == Some(Users(dao.create(Known(SignUpValidation.SignUpSchema.shape, body.fields)).value))
    ensures SignUpValidation.IsSignUpPayload(body) && dao.findByEmail(body.fields["email"].s).Threw? ==>
              r == Reply(None, None, [FindByEmail(body.fields["email"].s)])
    ensures SignUpValidation.IsSignUpPayload(body) && dao.findByEmail(body.fields["email"].s) == Returned(None) &&
            dao.create(Known(SignUpValidation.SignUpSchema.shape, body.fields)).Threw? ==>
              r.status == None && r.body == None
    ensures r.status == None && r.calls != [] ==> r.body == None
  {
    SignUpValidation.SignUpAccepts(body);
    var parsed := SafeParse(Object(SignUpValidation.SignUpSchema), body);
    if parsed.Failure? then Reply(None, Some(ValidationFailure(parsed.error)), [])
    else
      SignUpValidation.SignUpOutput(body);
      var user := parsed.value;
      var email := user["email"].s;
      var found := dao.findByEmail(email);
      if found.Threw? then Reply(None, None, [FindByEmail(email)])
      else if found.value.Some? then Reply(Some(409), Some(Error(UserExists)), [FindByEmail(email)])
      else
        var created := dao.create(user);
        if created.Threw? then Reply(None, None, [FindByEmail(email), Create(user)])
        else Reply(Some(201), Some(Users(created.value)), [FindByEmail(email), Create(user)])
  }

  method SignUp(ctx: Ctx, body: Json, dao: SignUpDao) returns (calls: seq<Call>)
    modifies ctx
    ensures ctx.Shows(old(ctx.status), old(ctx.body), SignUpReply(body, dao))
    ensures calls == SignUpReply(body, dao).calls
  {
    SignUpValidation.SignUpAccepts(body);
    var parsed := SafeParse(Object(SignUpValidation.SignUpSchema), body);
    if parsed.Failure? {
      ctx.body := ValidationFailure(parsed.error);
      return [];
    }
    SignUpValidation.SignUpOutput(body);
    var user := parsed.value;
    var email := user["email"].s;
    var found := dao.findByEmail(email);
    calls := [FindByEmail(email)];
    if found.Threw? {
      return;
    }
    if found.value.Some? {
      ctx.status := Some(409);
      ctx.body := Error(UserExists);
      return;
    }
    var created := dao.create(user);
    calls := calls + [Create(user)];
    if created.Threw? {
      return;
    }
    ctx.status := Some(201);
    ctx.body := Users(created.value);
  }

  /** The payload of the sign-up scenario. */
  const SamplePayload: Record :=
    map["email" := JString("user@example.com"), "username" := JString("validname"), "password" := JString("strongpass")]

  lemma SampleStored()
    ensures Known(SignUpValidation.SignUpSchema.shape, SamplePayload) == SamplePayload
  {
    SignUpValidation.SignUpShape();
    assert SamplePayload.Keys == SignUpValidation.UserKeys;
  }

  lemma SampleLengths()
    ensures SignUpValidation.StringOfAtLeast(SamplePayload, "username", 6)
    ensures SignUpValidation.StringOfAtLeast(SamplePayload, "password", 6)
  {
  }

  lemma SampleEmail()
    ensures SignUpValidation.EmailField(SamplePayload, "email")
  {
    assert SamplePayload["email"] == JString("user@example.com");
    Email.SampleAddress();
  }

  lemma SamplePayloadAccepted()
    ensures SignUpValidation.IsSignUpPayload(JObject(SamplePayload))
    ensures Known(SignUpValidation.SignUpSchema.shape, SamplePayload) == SamplePayload
  {
    SampleStored();
    SampleLengths();
    SampleEmail();
  }

  /** A free email is looked up, created once as sent, and answered 201. */
  lemma SampleCreated(dao: SignUpDao)
    requires dao.findByEmail("user@example.com") == Returned(None)
    requires dao.create(SamplePayload).Returned?
    ensures SignUpReply(JObject(SamplePayload), dao).status == Some(201)
    ensures SignUpReply(JObject(SamplePayload), dao).calls == [FindByEmail("user@example.com"), Create(SamplePayload)]
  {
    SamplePayloadAccepted();
  }

  /** A taken email answers 409 without calling `create`. */
  lemma SampleConflict(dao: SignUpDao, existing: User)
    requires dao.findByEmail("user@example.com") == Returned(Some(existing))
    ensures SignUpReply(JObject(SamplePayload), dao).status == Some(409)
    ensures SignUpReply(JObject(SamplePayload), dao).calls == [FindByEmail("user@example.com")]
  {
    SamplePayloadAccepted();
  }
}
