/**
 * `POST /sign-in` of `SignIn`: validate the credentials, look the email up,
 * compare passwords, and issue a token for the user's id. As in sign-up, a
 * collaborator that throws is caught and logged, and nothing more is written.
 */
module SignInRoute {

  import opened Wrappers
  import opened Json
  import opened Zod
  import opened Http
  import SignInValidation

  /** The lookup sign-in makes, and the token assigner it is given. */
  datatype SignInDeps = SignInDeps(
    findByEmail: string -> Answer<Option<User>>,
    tokenAssigner: string -> Answer<string>)

  const WrongPassword: string := "Wrong password!"

  // ------------------------------------------------------------ String(user.id)

  predicate IsDigit(c: char) {
    '0' <= c <= '9'
  }

  function DigitChar(d: nat): (c: char)
    requires d < 10
    ensures IsDigit(c) && DigitValue(c) == d
  {
    "0123456789"[d]
  }

  function DigitValue(c: char): (d: nat)
    requires IsDigit(c)
    ensures d < 10
  {
    c as int - '0' as int
  }

  /** The decimal digits of `n`, without leading zeros. */
  function Digits(n: nat): (s: string)
    ensures |s| >= 1 && forall i | 0 <= i < |s| :: IsDigit(s[i])
    ensures s[0] == '0' ==> n == 0
    decreases n
  {
    if n < 10 then [DigitChar(n)] else Digits(n / 10) + [DigitChar(n % 10)]
  }

  /** The number a string of digits denotes. */
  function Value(s: string): nat
    requires forall i | 0 <= i < |s| :: IsDigit(s[i])
  {
    if s == [] then 0 else 10 * Value(s[..|s| - 1]) + DigitValue(s[|s| - 1])
  }

  /** `String(n)` for an integer `n`. */
  function DecimalString(n: int): (s: string)
    ensures |s| >= 1 && (s[0] == '-' <==> n < 0)
    ensures forall i | 0 < i < |s| :: IsDigit(s[i])
  {
    if n < 0 then "-" + Digits(-n) else Digits(n)
  }

  /** The integer a `DecimalString` denotes. */
  function ParseDecimal(s: string): int
    requires |s| >= 1 && forall i | 0 < i < |s| :: IsDigit(s[i])
    requires s[0] == '-' || IsDigit(s[0])
  {
    if s[0] == '-' then -(Value(s[1..]) as int) else Value(s)
  }

  lemma {:induction false} DigitsRoundTrip(n: nat)
    ensures Value(Digits(n)) == n
  {
    if n >= 10 {
      var s := Digits(n);
      assert s[..|s| - 1] == Digits(n / 10);
      DigitsRoundTrip(n / 10);
    }
  }

  /** Reading back `String(n)` gives `n`. */
  lemma DecimalRoundTrip(n: int)
    ensures ParseDecimal(DecimalString(n)) == n
  {
    if n < 0 {
      var s := DecimalString(n);
      assert s == "-" + Digits(-n);
      assert s[1..] == Digits(-n);
      DigitsRoundTrip(-n);
    } else {
      var s := DecimalString(n);
      assert s == Digits(n);
      DigitsRoundTrip(n);
    }
  }

  /** Distinct ids give distinct token subjects. */
  lemma DecimalStringInjective(a: int, b: int)
    requires DecimalString(a) == DecimalString(b)
    ensures a == b
  {
    DecimalRoundTrip(a);
    DecimalRoundTrip(b);
  }

  // ------------------------------------------------------------------ sign-in

  function EmailOf(body: Json): string
    requires SignInValidation.IsCredentials(body)
  {
    body.fields["email"].s
  }

  function PasswordOf(body: Json): string
    requires SignInValidation.IsCredentials(body)
  {
    body.fields["password"].s
  }

  /** `user?.password == password`: a user was found and holds this password. */
  predicate Matches(found: Option<User>, password: string) {
    found.Some? && found.value.password == password
  }

  /**
   * Rejected credentials set only the body, to the zod error, and look
   * nothing up. Accepted ones are looked up by email; unless the found user's
   * password matches, the answer is 401. On a match the token assigner is
   * called once with the user's id, and the answer is 201 with the submitted
   * credentials and the token.
   */
  function SignInReply(body: Json, deps: SignInDeps): (r: Reply)
    ensures !SignInValidation.IsCredentials(body) ==>
              r.status == None && r.calls == [] && r.body.Some? && r.body.value.ValidationFailure?
    ensures SignInValidation.IsCredentials(body) ==> |r.calls| >= 1 && r.calls[0] == FindByEmail(EmailOf(body))
    ensures r.status == Some(401) <==>
              SignInValidation.IsCredentials(body) && deps.findByEmail(EmailOf(body)).Returned? &&
              !Matches(deps.findByEmail(EmailOf(body)).value, PasswordOf(body))
    ensures r.status == Some(401) ==> r.body == Some(Error(WrongPassword)) && r.calls == [FindByEmail(EmailOf(body))]
    ensures |r.calls| == 2 <==>
              SignInValidation.IsCredentials(body) && deps.findByEmail(EmailOf(body)).Returned? &&
              Matches(deps.findByEmail(EmailOf(body)).value, PasswordOf(body))
    ensures |r.calls| == 2 ==> r.calls[1] == AssignToken(DecimalString(deps.findByEmail(EmailOf(body)).value.value.id))
    ensures r.status == Some(201) <==>
              |r.calls| == 2 && deps.tokenAssigner(DecimalString(deps.findByEmail(EmailOf(body)).value.value.id)).Returned?
    ensures r.status == Some(201) ==>
              r.body == Some(Session(EmailOf(body), PasswordOf(body),
                                     deps.tokenAssigner(DecimalString(deps.findByEmail(EmailOf(body)).value.value.id)).value))
    ensures |r.calls| <= 2
    ensures SignInValidation.IsCredentials(body) && deps.findByEmail(EmailOf(body)).Threw? ==>
              r == Reply(None, None, [FindByEmail(EmailOf(body))])
    ensures |r.calls| == 2 && deps.tokenAssigner(DecimalString(deps.findByEmail(EmailOf(body)).value.value.id)).Threw? ==>
              r.status == None && r.body == None
    ensures r.status == None && r.calls != [] ==> r.body == None
  {
    SignInValidation.SignInAccepts(body);
    var parsed := SafeParse(SignInValidation.SignInSchema, body);
    if parsed.Failure? then Reply(None, Some(ValidationFailure(parsed.error)), [])
    else
      SignInValidation.SignInOutput(body);
      var email := parsed.value["email"].s;
      var password := parsed.value["password"].s;
      var user := deps.findByEmail(email);
      if user.Threw? then Reply(None, None, [FindByEmail(email)])
      else if !Matches(user.value, password) then
        Reply(Some(401), Some(Error(WrongPassword)), [FindByEmail(email)])
      else
        var subject := DecimalString(user.value.value.id);
        var token := deps.tokenAssigner(subject);
        if token.Threw? then Reply(None, None, [FindByEmail(email), AssignToken(subject)])
        else Reply(Some(201), Some(Session(email, password, token.value)), [FindByEmail(email), AssignToken(subject)])
  }

  method SignIn(ctx: Ctx, body: Json, deps: SignInDeps) returns (calls: seq<Call>)
    modifies ctx
    ensures ctx.Shows(old(ctx.status), old(ctx.body), SignInReply(body, deps))
    ensures calls == SignInReply(body, deps).calls
  {
    SignInValidation.SignInAccepts(body);
    var parsed := SafeParse(SignInValidation.SignInSchema, body);
    if parsed.Failure? {
      ctx.body := ValidationFailure(parsed.error);
      return [];
    }
    SignInValidation.SignInOutput(body);
    var email := parsed.value["email"].s;
    var password := parsed.value["password"].s;
    var user := deps.findByEmail(email);
    calls := [FindByEmail(email)];
    if user.Threw? {
      return;
    }
    var success := Matches(user.value, password);
    if !success {
      ctx.status := Some(401);
      ctx.body := Error(WrongPassword);
      return;
    }
    var subject := DecimalString(user.value.value.id);
    var token := deps.tokenAssigner(subject);
    calls := calls + [AssignToken(subject)];
    if token.Threw? {
      return;
    }
    ctx.status := Some(201);
    ctx.body := Session(email, password, token.value);
  }

  // --------------------------------------------------------------- properties

  /** An unknown email and a wrong password get the same reply, call for call. */
  lemma UnknownEmailLikeWrongPassword(body: Json, unknown: SignInDeps, wrong: SignInDeps, user: User)
    requires SignInValidation.IsCredentials(body)
    requires unknown.findByEmail(EmailOf(body)) == Returned(None)
    requires wrong.findByEmail(EmailOf(body)) == Returned(Some(user)) && user.password != PasswordOf(body)
    ensures SignInReply(body, unknown) == SignInReply(body, wrong)
  {
  }

  /** The credentials of the sign-in scenario. */
  const SamplePayload: Record := map["email" := JString("user@example.com"), "password" := JString("strongpass")]

  lemma SampleCredentials()
    ensures SignInValidation.IsCredentials(JObject(SamplePayload))
    ensures EmailOf(JObject(SamplePayload)) == "user@example.com" && PasswordOf(JObject(SamplePayload)) == "strongpass"
  {
    Email.SampleAddress();
  }

  lemma SampleSubject()
    ensures DecimalString(7) == "7"
  {
  }

  /** User 7 with the submitted password signs in: one lookup, one token for "7", and 201 echoing the credentials. */
  lemma SampleSignIn(deps: SignInDeps, token: string)
    requires deps.findByEmail("user@example.com") == Returned(Some(User(7, "user7", "user@example.com", "strongpass")))
    requires deps.tokenAssigner("7") == Returned(token)
    ensures SignInReply(JObject(SamplePayload), deps) ==
              Reply(Some(201), Some(Session("user@example.com", "strongpass", token)),
                    [FindByEmail("user@example.com"), AssignToken("7")])
  {
    SampleCredentials();
    SampleSubject();
    var body := JObject(SamplePayload);
    var r := SignInReply(body, deps);
    assert Matches(deps.findByEmail(EmailOf(body)).value, PasswordOf(body));
    assert |r.calls| == 2 && r.status == Some(201);
    assert r.calls == [r.calls[0], r.calls[1]];
  }
}
