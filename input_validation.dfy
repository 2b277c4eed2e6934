/**
 * The field validators of the registration and login forms, built on
 * express-validator.  A validator is a chain of checks, each with its
 * message, interleaved with `bail` markers; the chain is data here and one
 * function, `Run`, gives it express-validator's meaning.
 *
 * Values: `None` is a field missing from the request (`undefined`).  Every
 * check sees a JSON `null` as the empty string, so a `null` field is
 * `Some("")`.  Regular expressions are read with JavaScript's default
 * (non-Unicode, single-line) semantics: `[a-z]`, `[A-Z]`, `[0-9]` and `\d`
 * are ASCII ranges and `.` matches anything except a line terminator.
 */
module InputValidation {
  import opened Wrappers

  const NameTooShort: string := "Must have at least 2 characters"
  const NameTooLong: string := "Must have a maximum of 32 characters"
  const NameNotAlphabetic: string := "Must contain only alphabetic characters"
  const EmailNull: string := "E-mail cannot be null"
  const EmailInvalid: string := "E-mail is not valid"
  const PhoneLength: string := "Must be 10 digits long"
  const PhoneNotNumeric: string := "Must contain only numeric characters"
  const PhoneLeadingDigit: string := "Must start with a digit between 6 and 9"
  const PhoneExists: string := "phone number already exists"
  const PasswordNull: string := "Password cannot be null"
  const PasswordWeak: string := "Password must have at least 1 uppercase, 1 lowercase, and 1 number character"
  const PasswordTooShort: string := "Password must be at least 6 characters"

  predicate IsLower(c: char) { 'a' <= c <= 'z' }
  predicate IsUpper(c: char) { 'A' <= c <= 'Z' }
  predicate IsDigit(c: char) { '0' <= c <= '9' }
  predicate IsNameChar(c: char) { IsLower(c) || IsUpper(c) || c == ' ' }

  /** The characters JavaScript's `.` does not match. */
  predicate IsLineTerminator(c: char) {
    c == '\n' || c == '\r' || c == '\U{2028}' || c == '\U{2029}'
  }

  /** The regular expressions the validators use. */
  datatype Pattern =
    | Alphabetic     // /^[a-zA-Z ]+$/
    | Numeric        // /^[0-9]+$/
    | LeadingSixToNine  // /^[6-9]/
    | StrongPassword // /^(?=.*[a-z])(?=.*[A-Z])(?=.*\d).+$/

  predicate Matches(p: Pattern, s: string) {
    match p
    case Alphabetic => |s| > 0 && forall i :: 0 <= i < |s| ==> IsNameChar(s[i])
    case Numeric => |s| > 0 && forall i :: 0 <= i < |s| ==> IsDigit(s[i])
    case LeadingSixToNine => |s| > 0 && '6' <= s[0] <= '9'
    case StrongPassword =>
      && |s| > 0
      && (forall i :: 0 <= i < |s| ==> !IsLineTerminator(s[i]))
      && (exists i :: 0 <= i < |s| && IsLower(s[i]))
      && (exists i :: 0 <= i < |s| && IsUpper(s[i]))
      && (exists i :: 0 <= i < |s| && IsDigit(s[i]))
  }

  /**
   * What a check may consult besides the value: express-validator's
   * `isEmail` (a library predicate, left abstract) and the e-mail addresses
   * and phone numbers already in the user store.
   */
  datatype Context = Context(isEmail: string -> bool, emails: set<string>, phones: set<string>)

  datatype Check =
    | IsLength(min: nat, max: Option<nat>)
    | NotEmpty
    | MatchesPattern(pattern: Pattern)
    | IsEmail
    | EmailUnused   // a `custom` step that looks the e-mail up in the store
    | PhoneUnused   // a `custom` step that looks the phone up in the store

  predicate Holds(check: Check, s: string, ctx: Context) {
    match check
    case IsLength(min, max) => min <= |s| && (max.None? || |s| <= max.value)
    case NotEmpty => |s| > 0
    case MatchesPattern(p) => Matches(p, s)
    case IsEmail => ctx.isEmail(s)
    case EmailUnused => s !in ctx.emails
    case PhoneUnused => s !in ctx.phones
  }

  /** One link of a chain: a check with the message it records, or `bail()`. */
  datatype Step = Test(check: Check, message: string) | Bail

  /** `optional` is set by `.optional()`, wherever in the chain it is called. */
  datatype Chain = Chain(optional: bool, steps: seq<Step>)

  /**
   * The steps run in order; a failing check records its message and the
   * chain goes on; `bail()` stops the chain once it has recorded anything.
   */
  function RunSteps(steps: seq<Step>, s: string, ctx: Context, recorded: seq<string>): seq<string>
    decreases |steps|
  {
    if steps == [] then recorded
    else match steps[0]
      case Bail => if recorded != [] then recorded else RunSteps(steps[1..], s, ctx, recorded)
      case Test(check, message) =>
        RunSteps(steps[1..], s, ctx, if Holds(check, s, ctx) then recorded else recorded + [message])
  }

  /** The messages a chain records for one field; an optional chain skips a missing field. */
  function Run(chain: Chain, value: Option<string>, ctx: Context): seq<string> {
    if chain.optional && value.None? then [] else RunSteps(chain.steps, value.GetOr(""), ctx, [])
  }

  /** Appends a step, as chaining one more call onto a returned validator does. */
  function Then(chain: Chain, step: Step): Chain {
    chain.(steps := chain.steps + [step])
  }

  function NameChain(required: bool): Chain {
    Chain(!required, [
      Test(IsLength(2, None), NameTooShort), Bail,
      Test(IsLength(0, Some(32)), NameTooLong), Bail,
      Test(MatchesPattern(Alphabetic), NameNotAlphabetic)])
  }

  function EmailChain(required: bool): Chain {
    Chain(!required, [
      Test(NotEmpty, EmailNull), Bail,
      Test(IsEmail, EmailInvalid), Bail])
  }

  /** `required` has no effect: the chain calls `.optional()` unconditionally. */
  function PhoneChain(required: bool): Chain {
    Chain(true, [
      Test(IsLength(10, Some(10)), PhoneLength), Bail,
      Test(MatchesPattern(Numeric), PhoneNotNumeric), Bail,
      Test(MatchesPattern(LeadingSixToNine), PhoneLeadingDigit), Bail,
      Test(PhoneUnused, PhoneExists)])
  }

  function PasswordChain(): Chain {
    Chain(false, [
      Test(NotEmpty, PasswordNull), Bail,
      Test(MatchesPattern(StrongPassword), PasswordWeak), Bail,
      Test(IsLength(6, None), PasswordTooShort)])
  }

  /** A check followed by `bail()` at the head of a chain that has recorded nothing yet. */
  lemma {:induction false} CheckThenBail(check: Check, message: string, rest: seq<Step>, s: string, ctx: Context)
    ensures RunSteps([Test(check, message), Bail] + rest, s, ctx, []) ==
      if Holds(check, s, ctx) then RunSteps(rest, s, ctx, []) else [message]
  {
    var steps := [Test(check, message), Bail] + rest;
    assert steps[1..] == [Bail] + rest;
    assert ([Bail] + rest)[1..] == rest;
  }

  /** The last check of a chain that has recorded nothing yet. */
  lemma {:induction false} LastCheck(check: Check, message: string, s: string, ctx: Context)
    ensures RunSteps([Test(check, message)], s, ctx, []) == if Holds(check, s, ctx) then [] else [message]
  {
    assert [Test(check, message)][1..] == [];
  }

  /**
   * The name chain records the first of: too short, too long, not
   * alphabetic; nothing at all for a missing optional name.
   */
  lemma {:induction false} NameMessages(value: Option<string>, required: bool, ctx: Context)
    ensures !required && value.None? ==> Run(NameChain(required), value, ctx) == []
    ensures required || value.Some? ==>
      var s := value.GetOr("");
      Run(NameChain(required), value, ctx) ==
        if |s| < 2 then [NameTooShort]
        else if |s| > 32 then [NameTooLong]
        else if !Matches(Alphabetic, s) then [NameNotAlphabetic]
        else []
  {
    var s := value.GetOr("");
    var last := [Test(MatchesPattern(Alphabetic), NameNotAlphabetic)];
    var middle := [Test(IsLength(0, Some(32)), NameTooLong), Bail] + last;
    assert NameChain(required).steps == [Test(IsLength(2, None), NameTooShort), Bail] + middle;
    CheckThenBail(IsLength(2, None), NameTooShort, middle, s, ctx);
    CheckThenBail(IsLength(0, Some(32)), NameTooLong, last, s, ctx);
    LastCheck(MatchesPattern(Alphabetic), NameNotAlphabetic, s, ctx);
  }

  /** A name is accepted exactly when it is missing and optional, or 2 to 32 ASCII letters and spaces. */
  lemma {:induction false} NameAccepted(value: Option<string>, required: bool, ctx: Context)
    ensures Run(NameChain(required), value, ctx) == [] <==>
      || (!required && value.None?)
      || (var s := value.GetOr(""); 2 <= |s| <= 32 && forall i :: 0 <= i < |s| ==> IsNameChar(s[i]))
  {
    NameMessages(value, required, ctx);
  }

  /**
   * The e-mail chain: an empty or missing address is "cannot be null", a
   * non-empty one that `isEmail` rejects is "not valid".
   */
  lemma {:induction false} EmailMessages(value: Option<string>, required: bool, ctx: Context)
    ensures !required && value.None? ==> Run(EmailChain(required), value, ctx) == []
    ensures required || value.Some? ==>
      var s := value.GetOr("");
      Run(EmailChain(required), value, ctx) ==
        if s == "" then [EmailNull]
        else if !ctx.isEmail(s) then [EmailInvalid]
        else []
  {
    var s := value.GetOr("");
    var rest := [Test(IsEmail, EmailInvalid), Bail] + [];
    assert EmailChain(required).steps == [Test(NotEmpty, EmailNull), Bail] + rest;
    CheckThenBail(NotEmpty, EmailNull, rest, s, ctx);
    CheckThenBail(IsEmail, EmailInvalid, [], s, ctx);
  }

  /**
   * The phone chain, whatever `required` says, skips a missing phone; a
   * present one is checked for length, then digits, then its first digit,
   * and only then looked up in the store.
   */
  lemma {:induction false} PhoneMessages(value: Option<string>, required: bool, ctx: Context)
    ensures value.None? ==> Run(PhoneChain(required), value, ctx) == []
    ensures value.Some? ==>
      var s := value.value;
      Run(PhoneChain(required), value, ctx) ==
        if |s| != 10 then [PhoneLength]
        else if !Matches(Numeric, s) then [PhoneNotNumeric]
        else if !Matches(LeadingSixToNine, s) then [PhoneLeadingDigit]
        else if s in ctx.phones then [PhoneExists]
        else []
  {
    if value.Some? {
      var s := value.value;
      var last := [Test(PhoneUnused, PhoneExists)];
      var third := [Test(MatchesPattern(LeadingSixToNine), PhoneLeadingDigit), Bail] + last;
      var second := [Test(MatchesPattern(Numeric), PhoneNotNumeric), Bail] + third;
      assert PhoneChain(required).steps == [Test(IsLength(10, Some(10)), PhoneLength), Bail] + second;
      CheckThenBail(IsLength(10, Some(10)), PhoneLength, second, s, ctx);
      CheckThenBail(MatchesPattern(Numeric), PhoneNotNumeric, third, s, ctx);
      CheckThenBail(MatchesPattern(LeadingSixToNine), PhoneLeadingDigit, last, s, ctx);
      LastCheck(PhoneUnused, PhoneExists, s, ctx);
    }
  }

  /**
   * The password chain: empty, then the character classes, then the length.
   * The password chain has no optional form, so a missing password is empty.
   */
  lemma {:induction false} PasswordMessages(value: Option<string>, ctx: Context)
    ensures
      var s := value.GetOr("");
      Run(PasswordChain(), value, ctx) ==
        if s == "" then [PasswordNull]
        else if !Matches(StrongPassword, s) then [PasswordWeak]
        else if |s| < 6 then [PasswordTooShort]
        else []
  {
    var s := value.GetOr("");
    var last := [Test(IsLength(6, None), PasswordTooShort)];
    var rest := [Test(MatchesPattern(StrongPassword), PasswordWeak), Bail] + last;
    assert PasswordChain().steps == [Test(NotEmpty, PasswordNull), Bail] + rest;
    CheckThenBail(NotEmpty, PasswordNull, rest, s, ctx);
    CheckThenBail(MatchesPattern(StrongPassword), PasswordWeak, last, s, ctx);
    LastCheck(IsLength(6, None), PasswordTooShort, s, ctx);
  }

  /**
   * A password is accepted exactly when it has at least 6 characters, no
   * line terminator, and at least one ASCII lower-case letter, upper-case
   * letter and digit.
   */
  lemma {:induction false} PasswordAccepted(value: Option<string>, ctx: Context)
    ensures Run(PasswordChain(), value, ctx) == [] <==>
      var s := value.GetOr("");
      && |s| >= 6
      && (forall i :: 0 <= i < |s| ==> !IsLineTerminator(s[i]))
      && (exists i :: 0 <= i < |s| && IsLower(s[i]))
      && (exists i :: 0 <= i < |s| && IsUpper(s[i]))
      && (exists i :: 0 <= i < |s| && IsDigit(s[i]))
  {
    PasswordMessages(value, ctx);
  }

  /** Every chain of this file records at most one message. */
  lemma {:induction false} AtMostOneMessage(value: Option<string>, required: bool, ctx: Context)
    ensures |Run(NameChain(required), value, ctx)| <= 1
    ensures |Run(EmailChain(required), value, ctx)| <= 1
    ensures |Run(PhoneChain(required), value, ctx)| <= 1
    ensures |Run(PasswordChain(), value, ctx)| <= 1
  {
    NameMessages(value, required, ctx);
    EmailMessages(value, required, ctx);
    PhoneMessages(value, required, ctx);
    PasswordMessages(value, ctx);
  }

  /** Password rows of the registration and login test tables. */
  lemma {:induction false} PasswordTableRows(ctx: Context)
    ensures Run(PasswordChain(), Some("Pass1"), ctx) == [PasswordTooShort]
    ensures Run(PasswordChain(), Some("lowerAndUPPER"), ctx) == [PasswordWeak]
    ensures Run(PasswordChain(), Some(""), ctx) == [PasswordNull]
  {
    PasswordMessages(Some("Pass1"), ctx);
    assert IsUpper("Pass1"[0]) && IsLower("Pass1"[1]) && IsDigit("Pass1"[4]);
    PasswordMessages(Some("lowerAndUPPER"), ctx);
    assert forall i :: 0 <= i < |"lowerAndUPPER"| ==> !IsDigit("lowerAndUPPER"[i]);
    PasswordMessages(Some(""), ctx);
  }

  /** Phone rows of the registration and login test tables. */
  lemma {:induction false} PhoneTableRows(ctx: Context)
    ensures Run(PhoneChain(true), Some("abcASD@123"), ctx) == [PhoneNotNumeric]
    ensures Run(PhoneChain(true), Some("2345764768"), ctx) == [PhoneLeadingDigit]
    ensures Run(PhoneChain(true), Some("1234"), ctx) == [PhoneLength]
  {
    PhoneMessages(Some("abcASD@123"), true, ctx);
    assert !IsDigit("abcASD@123"[0]);
    PhoneMessages(Some("2345764768"), true, ctx);
    assert forall i :: 0 <= i < |"2345764768"| ==> IsDigit("2345764768"[i]);
    PhoneMessages(Some("1234"), true, ctx);
  }

  /** Name and e-mail rows of the registration test table. */
  lemma {:induction false} NameAndEmailTableRows(ctx: Context)
    ensures Run(NameChain(true), Some("f"), ctx) == [NameTooShort]
    ensures Run(NameChain(true), Some("User@123"), ctx) == [NameNotAlphabetic]
    ensures Run(EmailChain(true), Some(""), ctx) == [EmailNull]
    ensures Run(EmailChain(true), None, ctx) == [EmailNull]
  {
    NameMessages(Some("f"), true, ctx);
    NameMessages(Some("User@123"), true, ctx);
    assert !IsNameChar("User@123"[4]);
    EmailMessages(Some(""), true, ctx);
    EmailMessages(None, true, ctx);
  }
}
