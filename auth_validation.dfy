/**
 * `validateRegistrationInputField`: picks the validator chain for a field of
 * the registration form and adds the store-uniqueness checks; and the way a
 * route runs several such chains over one request body.
 */
module AuthValidation {
  import opened Wrappers
  import opened Exceptions
  import opened InputValidation
  import opened ValidationErrors

  const EmailExists: string := "E-mail already exists"

  /** The e-mail chain (always required) followed by the store lookup. */
  function RegistrationEmailChain(): Chain {
    Then(EmailChain(true), Test(EmailUnused, EmailExists))
  }

  /** The phone chain followed by a second store lookup with the same message. */
  function RegistrationPhoneChain(): Chain {
    Then(PhoneChain(true), Test(PhoneUnused, PhoneExists))
  }

  /**
   * The dispatch on the field name.  `required` only reaches the name
   * chains; any other name is refused when the route is built.
   */
  function RegistrationInputField(field: string, required: bool): (r: Result<Chain, HttpException>)
    ensures r.Err? <==> field !in {"email", "password", "phone", "firstName", "lastName"}
    ensures r.Err? ==> r.error == BadRequest("Unexpected field: " + field)
    ensures field == "firstName" || field == "lastName" ==> r == Ok(NameChain(required))
    ensures field == "password" ==> r == Ok(PasswordChain())
    ensures field == "email" ==> r == Ok(RegistrationEmailChain())
    ensures field == "phone" ==> r == Ok(RegistrationPhoneChain())
  {
    match field
    case "email" => Ok(RegistrationEmailChain())
    case "password" => Ok(PasswordChain())
    case "phone" => Ok(RegistrationPhoneChain())
    case "lastName" => Ok(NameChain(required))
    case "firstName" => Ok(NameChain(required))
    case _ => Err(BadRequest("Unexpected field: " + field))
  }

  /** `required` makes no difference for the e-mail, password and phone chains. */
  lemma {:induction false} RequiredOnlyForNames(field: string)
    requires field in {"email", "password", "phone"}
    ensures RegistrationInputField(field, true) == RegistrationInputField(field, false)
  {
  }

  /** Two checks at the end of a chain, with no `bail()` between them. */
  lemma {:induction false} TwoLastChecks(c1: Check, m1: string, c2: Check, m2: string, s: string, ctx: Context)
    ensures RunSteps([Test(c1, m1), Test(c2, m2)], s, ctx, []) ==
      (if Holds(c1, s, ctx) then [] else [m1]) + (if Holds(c2, s, ctx) then [] else [m2])
  {
    var steps := [Test(c1, m1), Test(c2, m2)];
    var first := if Holds(c1, s, ctx) then [] else [m1];
    assert steps[1..] == [Test(c2, m2)];
    assert [Test(c2, m2)][1..] == [];
    assert [] + [m1] == [m1];
    assert RunSteps(steps, s, ctx, []) == RunSteps([Test(c2, m2)], s, ctx, first);
    assert RunSteps([Test(c2, m2)], s, ctx, first) == if Holds(c2, s, ctx) then first else first + [m2];
  }

  /**
   * The registration e-mail field: the store is consulted only once the
   * address is non-empty and well formed.
   */
  lemma {:induction false} RegistrationEmailMessages(value: Option<string>, ctx: Context)
    ensures
      var s := value.GetOr("");
      Run(RegistrationEmailChain(), value, ctx) ==
        if s == "" then [EmailNull]
        else if !ctx.isEmail(s) then [EmailInvalid]
        else if s in ctx.emails then [EmailExists]
        else []
  {
    var s := value.GetOr("");
    var rest := [Test(IsEmail, EmailInvalid), Bail] + [Test(EmailUnused, EmailExists)];
    assert RegistrationEmailChain().steps == [Test(NotEmpty, EmailNull), Bail] + rest;
    CheckThenBail(NotEmpty, EmailNull, rest, s, ctx);
    CheckThenBail(IsEmail, EmailInvalid, [Test(EmailUnused, EmailExists)], s, ctx);
    LastCheck(EmailUnused, EmailExists, s, ctx);
  }

  /**
   * The registration phone field: a missing phone is never an error; a
   * well-formed phone already in the store fails both lookups, so its message
   * is recorded twice.
   */
  lemma {:induction false} RegistrationPhoneMessages(value: Option<string>, ctx: Context)
    ensures value.None? ==> Run(RegistrationPhoneChain(), value, ctx) == []
    ensures value.Some? ==>
      var s := value.value;
      Run(RegistrationPhoneChain(), value, ctx) ==
        if |s| != 10 then [PhoneLength]
        else if !Matches(Numeric, s) then [PhoneNotNumeric]
        else if !Matches(LeadingSixToNine, s) then [PhoneLeadingDigit]
        else if s in ctx.phones then [PhoneExists, PhoneExists]
        else []
  {
    if value.Some? {
      var s := value.value;
      var last := [Test(PhoneUnused, PhoneExists), Test(PhoneUnused, PhoneExists)];
      var third := [Test(MatchesPattern(LeadingSixToNine), PhoneLeadingDigit), Bail] + last;
      var second := [Test(MatchesPattern(Numeric), PhoneNotNumeric), Bail] + third;
      assert RegistrationPhoneChain().steps == [Test(IsLength(10, Some(10)), PhoneLength), Bail] + second;
      CheckThenBail(IsLength(10, Some(10)), PhoneLength, second, s, ctx);
      CheckThenBail(MatchesPattern(Numeric), PhoneNotNumeric, third, s, ctx);
      CheckThenBail(MatchesPattern(LeadingSixToNine), PhoneLeadingDigit, last, s, ctx);
      TwoLastChecks(PhoneUnused, PhoneExists, PhoneUnused, PhoneExists, s, ctx);
    }
  }

  /** The password chain never looks at the store. */
  lemma {:induction false} PasswordIgnoresStore(value: Option<string>, ctx1: Context, ctx2: Context)
    ensures Run(PasswordChain(), value, ctx1) == Run(PasswordChain(), value, ctx2)
  {
    PasswordMessages(value, ctx1);
    PasswordMessages(value, ctx2);
  }

  /** The value a chain sees for `field`: missing when the body has no such key. */
  function FieldValue(body: map<string, string>, field: string): Option<string> {
    if field in body then Some(body[field]) else None
  }

  /** The errors of one chain, tagged with its field. */
  function Tagged(field: string, messages: seq<string>): (errors: seq<FieldError>)
    ensures |errors| == |messages|
    ensures forall i :: 0 <= i < |errors| ==> errors[i] == FieldError(field, messages[i])
  {
    if messages == [] then [] else [FieldError(field, messages[0])] + Tagged(field, messages[1..])
  }

  /** The errors a route's validators record for a request, in declaration order. */
  function ValidateBody(validators: seq<(string, Chain)>, body: map<string, string>, ctx: Context): seq<FieldError>
    decreases |validators|
  {
    if validators == [] then []
    else
      var (field, chain) := validators[0];
      Tagged(field, Run(chain, FieldValue(body, field), ctx)) + ValidateBody(validators[1..], body, ctx)
  }

  /** The messages recorded under one path. */
  function MessagesFor(errors: seq<FieldError>, field: string): seq<string>
    decreases |errors|
  {
    if errors == [] then []
    else (if errors[0].path == field then [errors[0].msg] else []) + MessagesFor(errors[1..], field)
  }

  lemma {:induction false} MessagesForAppend(a: seq<FieldError>, b: seq<FieldError>, field: string)
    ensures MessagesFor(a + b, field) == MessagesFor(a, field) + MessagesFor(b, field)
    decreases |a|
  {
    if a == [] {
      assert a + b == b;
    } else {
      assert (a + b)[0] == a[0];
      assert (a + b)[1..] == a[1..] + b;
      MessagesForAppend(a[1..], b, field);
    }
  }

  lemma {:induction false} MessagesForTagged(f: string, messages: seq<string>, field: string)
    ensures MessagesFor(Tagged(f, messages), field) == if f == field then messages else []
    decreases |messages|
  {
    if messages != [] {
      assert Tagged(f, messages)[1..] == Tagged(f, messages[1..]);
      MessagesForTagged(f, messages[1..], field);
    }
  }

  /**
   * Fields fail independently: with one chain per field, the messages under
   * a field are exactly what that field's chain records for that field's
   * value, whatever the other fields hold.
   */
  lemma {:induction false} FieldsAreIndependent(validators: seq<(string, Chain)>, body: map<string, string>, ctx: Context, k: nat)
    requires k < |validators|
    requires forall i, j :: 0 <= i < j < |validators| ==> validators[i].0 != validators[j].0
    ensures MessagesFor(ValidateBody(validators, body, ctx), validators[k].0)
         == Run(validators[k].1, FieldValue(body, validators[k].0), ctx)
    decreases |validators|
  {
    var (field, chain) := validators[0];
    var target := validators[k].0;
    var head := Tagged(field, Run(chain, FieldValue(body, field), ctx));
    var rest := validators[1..];
    MessagesForAppend(head, ValidateBody(rest, body, ctx), target);
    MessagesForTagged(field, Run(chain, FieldValue(body, field), ctx), target);
    if k == 0 {
      NoMessagesForAbsentField(rest, body, ctx, target);
    } else {
      assert rest[k - 1] == validators[k];
      FieldsAreIndependent(rest, body, ctx, k - 1);
    }
  }

  lemma {:induction false} NoMessagesForAbsentField(validators: seq<(string, Chain)>, body: map<string, string>, ctx: Context, field: string)
    requires forall i :: 0 <= i < |validators| ==> validators[i].0 != field
    ensures MessagesFor(ValidateBody(validators, body, ctx), field) == []
    decreases |validators|
  {
    if validators != [] {
      var (f, chain) := validators[0];
      MessagesForAppend(Tagged(f, Run(chain, FieldValue(body, f), ctx)), ValidateBody(validators[1..], body, ctx), field);
      MessagesForTagged(f, Run(chain, FieldValue(body, f), ctx), field);
      NoMessagesForAbsentField(validators[1..], body, ctx, field);
    }
  }

  /**
   * The chains of the registration form.  The register route validates these
   * five fields (server/src/routes/v1/auth.route.ts:14-20), but with helpers
   * from a schema-validation module that is not part of this model; the
   * chains here are the ones `RegistrationInputField` dispatches.  The route
   * passes `true` as the second argument of its name helper, whose meaning
   * is unknown; the names are optional here because a body without names
   * draws no message for them
   * (server/src/__tests__/testAuth/userRegistration.test.ts:54-65).
   */
  function RegistrationValidators(): seq<(string, Chain)> {
    [("email", RegistrationEmailChain()),
     ("password", PasswordChain()),
     ("phone", RegistrationPhoneChain()),
     ("firstName", NameChain(false)),
     ("lastName", NameChain(false))]
  }

  /**
   * An e-mail already in the store and a null password are both reported,
   * each with its own message, and nothing else is.
   */
  lemma {:induction false} ExistingEmailAndNullPasswordBothReported(email: string, ctx: Context)
    requires email != "" && ctx.isEmail(email) && email in ctx.emails
    ensures Collect(ValidateBody(RegistrationValidators(), map["email" := email, "password" := ""], ctx))
         == map["email" := EmailExists, "password" := PasswordNull]
  {
    var body := map["email" := email, "password" := ""];
    var vs := RegistrationValidators();
    RegistrationEmailMessages(Some(email), ctx);
    PasswordMessages(Some(""), ctx);
    RegistrationPhoneMessages(None, ctx);
    NameMessages(None, false, ctx);
    assert FieldValue(body, "phone") == None;
    assert FieldValue(body, "firstName") == None && FieldValue(body, "lastName") == None;
    assert vs[1..][1..][1..][1..][1..] == [];
    var errors := ValidateBody(vs, body, ctx);
    assert ValidateBody(vs[1..][1..], body, ctx) == [] by {
      var tail := vs[1..][1..];
      assert tail[1..][1..][1..] == [];
      assert Run(tail[2].1, FieldValue(body, tail[2].0), ctx) == [];
      assert Run(tail[1].1, FieldValue(body, tail[1].0), ctx) == [];
      assert Run(tail[0].1, FieldValue(body, tail[0].0), ctx) == [];
    }
    assert ValidateBody(vs[1..], body, ctx) == [FieldError("password", PasswordNull)];
    assert errors == [FieldError("email", EmailExists), FieldError("password", PasswordNull)];
    assert errors[..1] == [FieldError("email", EmailExists)];
    assert errors[..1][..0] == [];
    assert Collect(errors[..1]) == map["email" := EmailExists];
    assert Collect(errors) == Collect(errors[..1])["password" := PasswordNull];
  }
}
