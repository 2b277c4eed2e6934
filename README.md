# Authentication core of the MERN e-commerce server, in Dafny

This project models the authentication part of the Express server of
`shubhamv387/MERN-Ecommerce-App`. It covers:

- the express-validator chains for names, e-mails, phones and passwords;
- the registration field switch;
- the fold of recorded validation errors into a `ValidationException`;
- the six controller actions: register, login, refresh-token, logout,
  send-reset-link and reset-password;
- the `asyncHandler` wrapper;
- the global error middleware;
- the HTTP exception taxonomy;
- the CORS origin callback.

Each module follows one source file:

| module | file | form |
|---|---|---|
| `Exceptions` | `exceptions/*.ts` | one datatype for `HttpException`, a constructor function per subclass |
| `ErrorMiddleware` | `middleware/error.middleware.ts` | a function from the exception to the status and JSON body |
| `AsyncHandler` | `utils/asyncHandler.ts` | how a settled controller promise becomes the calls made to `next` |
| `CorsOptions` | `config/cors/corsOptions.ts` | the origin callback's decision |
| `InputValidation` | `validations/Input.validation.ts` | validator chains as data, with `bail` and `optional` semantics |
| `AuthValidation` | `validations/auth.validation.ts` | the field switch, the two existence customs, a request-level run over the body |
| `ValidationErrors` | `utils/handleValidationError.ts` | the `forEach` loop as a `while` loop, specified by `Collect` |
| `UserTypes`, `Tokens` | `types/user.types.ts`, `services/auth.services.ts` | the user document, and JWT signing and bcrypt as parameters |
| `AuthController` | `controller/auth.controller.ts` | a `UserStore` class whose `users` map the writing actions update |
| `AuthFlows` | `controller/auth.controller.ts` with the middleware | end-to-end statements across modules |

Each controller action returns a `Settled` value. That value is either the
reply the action writes or the reason its promise rejects. A `Thrown`
reason is one of two kinds:

- an `HttpException` the action threw on purpose;
- a `Fault`: anything else. The TypeError from reading `userId` off `null`
  is one example.

`AsyncHandler.NextCalls` turns the rejection into what reaches `next`.
`ErrorMiddleware.Respond` then turns that into the HTTP reply.

Some parts are parameters rather than code:

- **Validation.** The recorded validation errors are an input to each
  controller action. They are produced by the route's validator chains.
  `AuthValidation.ValidateBody` runs a list of chains over a body, and
  `AuthValidation.RegistrationValidators` is a reconstruction of the
  register route's list (see "## Left out").
- **Tokens and passwords.** Token signing and verification are a
  `Tokens.Domain` per secret key, and bcrypt is a `Tokens.Hasher`.
- **Outside values.** The mail transport's outcome, `NODE_ENV`, the error's
  stack string and the list of allowed origins are also parameters.

Several behaviours follow the code as written, where a reader of the route
names might expect otherwise:

- **Bad refresh cookie.** A refresh cookie that does not verify yields
  neither a 401 nor a 403. `verifyRefreshToken` returns
  `null`, and the controller reads `userId` off it, which throws a
  TypeError. `asyncHandler` wraps that in
  `InternalException('Something went wrong!')`, so the client gets a 500
  (`AuthFlows.BadRefreshCookieIs500`).
- **Logout without a cookie.** It is not a silent success. The action
  throws a plain `HttpException('No Content', 204)`. The error middleware
  answers it with status 204. It computes an error body, but Express sends
  no body with a 204 reply.
- **Phone message recorded twice.** Registration's phone chain ends with
  two existence customs and no `bail` between them. So a phone that is
  already stored records "phone number already exists" twice.
- **Reset for a missing user.** `resetPassword` answers 200 even when the
  decoded user no longer exists; nothing is updated.
- **Login tokens carry no role.** Login reads the user with
  `.select(['password'])`, which keeps only `_id` and `password`. So the
  `role` put into the login's access and refresh tokens is undefined
  (`AuthController.LoginPayload`). The tokens from register and
  refresh-token do carry the role.
- **One user without a phone.** The unique index on `phone` is not sparse,
  so a missing phone is indexed as `null`. Only one user may lack a phone:
  a second registration without one is refused by `save`, and the client
  gets a 500.
- **Client-chosen role.** The registration body is spread into the new
  document, so a client may choose its own `role`.

## Model

| member | source | states |
|---|---|---|
| `Exceptions.NewHttpException` | server/src/exceptions/root.ts:6-11 | message, status code and errors are kept as given; the exception is operational unless `isOperational` is passed as `false` (the default is `true`) |
| `Exceptions.Root` | server/src/exceptions/root.ts:6-11 | a two-argument `HttpException` has `errors` undefined and is operational |
| `Exceptions.Internal` | server/src/exceptions/InternalException.ts:3-7 | status 500, `errors` null, not operational |
| `Exceptions.Validation` | server/src/exceptions/ValidationException.ts:3-7 | status and errors are the caller's; operational |
| `Exceptions.BadRequest` | server/src/exceptions/BadRequest.ts:3-7 | status 400, no errors, operational, message kept |
| `Exceptions.Unauthorized` | server/src/exceptions/UnauthorizedException.ts:3-7 | status 401, no errors, operational, message kept |
| `Exceptions.Forbidden` | server/src/exceptions/ForbiddenException.ts:3-7 | status 403, no errors, operational, message kept |
| `Exceptions.NotFound` | server/src/exceptions/NotFoundException.ts:3-7 | status 404, no errors, operational, message kept |
| `Exceptions.AlreadyExist` | server/src/exceptions/AlreadyExistException.ts:3-7 | status 409, no errors, operational, message kept |
| `Exceptions.TooManyRequests` | server/src/exceptions/TooManyRequestsException.ts:3-7 | status 429, no errors, operational, message kept |
| `ErrorMiddleware.Respond` | server/src/middleware/error.middleware.ts:12-29 | the status is the exception's, or 500 when that is falsy (0); `success` is false; the message passes through exactly when the exception is operational, otherwise it is "Something went wrong!"; a stack is attached if and only if `NODE_ENV` is "development" and the exception is operational; `errors` passes through only when truthy |
| `ErrorMiddleware.InternalNeverLeaks` | server/src/middleware/error.middleware.ts:17-26 | whatever its message and whatever the environment, an `InternalException` is answered 500 with the generic message, no errors and no stack |
| `ErrorMiddleware.SubclassReplies` | server/src/middleware/error.middleware.ts:17-21 | each 4xx subclass is answered with its own status and its message unchanged |
| `ErrorMiddleware.ValidationReply` | server/src/middleware/error.middleware.ts:17-22 | a validation exception is answered with its status, message and field map |
| `AsyncHandler.Normalize` | server/src/utils/asyncHandler.ts:9-11 | an `HttpException` passes through unchanged; anything else becomes `InternalException('Something went wrong!')` |
| `AsyncHandler.NextCalls` | server/src/utils/asyncHandler.ts:7-14 | a resolved controller calls `next` no times; a rejected one calls it exactly once, with the normalised exception |
| `AsyncHandler.FaultBecomesInternal` | server/src/utils/asyncHandler.ts:11 | a non-HTTP rejection reaches `next` as status 500, non-operational, with the generic message |
| `CorsOptions.Decide` | server/src/config/cors/corsOptions.ts:5-8 | an origin is allowed if and only if it is missing, empty or in the allowed list; the error is null exactly when allowed, and "Not allowed by CORS" otherwise |
| `CorsOptions.MissingOriginAlwaysAllowed` | server/src/config/cors/corsOptions.ts:6 | a missing or empty origin is allowed whatever the list holds |
| `CorsOptions.EmptyListAllowsOnlyMissingOrigin` | server/src/config/cors/corsOptions.ts:6 | with an empty list only missing origins pass |
| `InputValidation.NameMessages` | server/src/validations/Input.validation.ts:5-20 | an optional name that is absent records nothing; otherwise the first failing check records its message and `bail` stops the rest: shorter than 2, longer than 32, not letters and spaces |
| `InputValidation.NameAccepted` | server/src/validations/Input.validation.ts:12-20 | a name passes if and only if it is absent and optional, or has 2 to 32 characters, all ASCII letters or spaces |
| `InputValidation.EmailMessages` | server/src/validations/Input.validation.ts:23-36 | an empty or missing required e-mail records "E-mail cannot be null"; a non-empty one that is not an e-mail records "E-mail is not valid"; a valid one records nothing |
| `InputValidation.PhoneMessages` | server/src/validations/Input.validation.ts:39-60 | the chain is always optional, whatever `required` says; a present phone records the first failure of length 10, all digits, first digit 6-9, not already stored |
| `InputValidation.PasswordMessages` | server/src/validations/Input.validation.ts:63-72 | empty records "Password cannot be null"; missing a lowercase, uppercase or digit (or holding a line terminator) records the strength message; shorter than 6 records the length message |
| `InputValidation.PasswordAccepted` | server/src/validations/Input.validation.ts:63-72 | a password passes if and only if it has at least 6 characters, no line terminator, and at least one lowercase letter, one uppercase letter and one digit |
| `InputValidation.AtMostOneMessage` | server/src/validations/Input.validation.ts:12-72 | because of `bail`, each of the four base chains records at most one message |
| `InputValidation.PasswordTableRows` | server/src/__tests__/testAuth/userRegistration.test.ts:87-93 | "Pass1" is too short, "lowerAndUPPER" is weak, an empty password is null |
| `InputValidation.PhoneTableRows` | server/src/__tests__/testAuth/userRegistration.test.ts:101-104 | "1234" fails the length check, "abcASD@123" the numeric check, "2345764768" the leading-digit check |
| `InputValidation.NameAndEmailTableRows` | server/src/__tests__/testAuth/userRegistration.test.ts:82-97 | "f" is too short, "User@123" is not alphabetic, a null or empty e-mail is reported as null |
| `AuthValidation.RegistrationInputField` | server/src/validations/auth.validation.ts:15-41 | the five known fields give their chains: the names honour `required`; password gets the password chain; e-mail and phone get their base chains followed by the store lookup (twice for the phone); any other field throws `BadRequestException('Unexpected field: …')` |
| `AuthValidation.RequiredOnlyForNames` | server/src/validations/auth.validation.ts:17-30 | for e-mail, password and phone the `required` flag changes nothing |
| `AuthValidation.RegistrationEmailMessages` | server/src/validations/auth.validation.ts:18-21 | `bail` ends the chain on a null or invalid e-mail; a valid e-mail already stored records "E-mail already exists"; otherwise nothing |
| `AuthValidation.RegistrationPhoneMessages` | server/src/validations/auth.validation.ts:27-30 | an absent phone records nothing; a well-formed phone already stored records "phone number already exists" twice (no `bail` between the two customs); the format failures record one message |
| `AuthValidation.PasswordIgnoresStore` | server/src/validations/auth.validation.ts:23-24 | the password chain does not depend on the stored users |
| `AuthValidation.FieldsAreIndependent` | server/src/__tests__/testAuth/userRegistration.test.ts:67-78 | in a request-level run, the messages recorded under a field are exactly that field's own chain on that field's value |
| `AuthValidation.NoMessagesForAbsentField` | server/src/utils/handleValidationError.ts:9-11 | a field without a validator receives no message |
| `AuthValidation.ExistingEmailAndNullPasswordBothReported` | server/src/__tests__/testAuth/userRegistration.test.ts:135-147 | registering with a stored e-mail and an empty password reports exactly `{email: "E-mail already exists", password: "Password cannot be null"}` |
| `ValidationErrors.HandleValidationError` | server/src/utils/handleValidationError.ts:5-15 | throws if and only if errors were recorded; the exception is `ValidationException('validation errors', 400, {validationErrors})` with the path-to-message map built by the loop |
| `ValidationErrors.CollectKeys` | server/src/utils/handleValidationError.ts:8-11 | the map's keys are exactly the paths of the recorded errors |
| `ValidationErrors.CollectLastWins` | server/src/utils/handleValidationError.ts:10 | for a path, the map holds the message of its last recorded error |
| `ValidationErrors.CollectValuesFromErrors` | server/src/utils/handleValidationError.ts:9-11 | every map entry is one of the recorded errors |
| `ValidationErrors.ThrownMapNonEmpty` | server/src/utils/handleValidationError.ts:7-13 | the thrown map is never empty |
| `Tokens.GenerateTokens` | server/src/controller/auth.controller.ts:62 | a reconstruction, since no file shown defines `generateTokens`: the access token is signed with the access key for "1d", the refresh token with the refresh key for "30d", over the same payload |
| `AuthController.SecondPhonelessUserRejected` | server/src/models/User.model.ts:8 | the phone index is not sparse: once a user without a phone is stored, every further user without a phone is refused by the schema (so `Register` rejects it and the client gets 500) |
| `AuthController.SelectsAtMostOne` | server/src/models/User.model.ts:6-8 | with unique e-mails and phones, a login or reset contact selects at most one user |
| `AuthController.Logout` | server/src/controller/auth.controller.ts:121-127 | no truthy `jwt` cookie throws `HttpException('No Content', 204)`; otherwise the cookie is cleared and 200 "Logout successful" |
| `AuthController.UserStore.FindByContact` | server/src/controller/auth.controller.ts:82-84 | the lookup by e-mail when that is truthy, else by phone; it finds a user if and only if one is selected, and what it finds is selected |
| `AuthController.UserStore.Register` | server/src/controller/auth.controller.ts:37-69 | validation errors throw the validation exception and leave the store alone; a document the schema refuses (empty e-mail, or an e-mail or phone already stored, where a missing phone counts as a value) rejects the promise without saving; otherwise exactly one user (hashed password, role defaulting to customer) is added under a fresh id and the reply is 201 with the public user, the access token and a 7-day refresh cookie; uniqueness is preserved |
| `AuthController.UserStore.Login` | server/src/controller/auth.controller.ts:74-100 | validation errors first; an unknown contact and a wrong password throw the same `BadRequestException('Invalid credentials')`; a matching password gives 200, the access token and the refresh cookie for that user's id, with no role in the payload |
| `AuthController.UserStore.RefreshToken` | server/src/controller/auth.controller.ts:105-116 | no cookie: 403; a cookie that does not verify: a non-HTTP TypeError; an unknown user: 401; otherwise 200 with a new access token for the stored role and no cookie change |
| `AuthController.UserStore.SendResetPassLink` | server/src/controller/auth.controller.ts:132-165 | validation errors first; an unknown contact is a 400 "User does not exists" and no mail; otherwise the mail carries a 15-minute reset-token link addressed to the user's e-mail and first name, and the reply is 200, or an `InternalException` when the transport fails |
| `AuthController.UserStore.ResetPassword` | server/src/controller/auth.controller.ts:170-188 | validation errors first; a missing or unverifiable token is a 400 "Link expired! Request new link" and nothing changes; otherwise only the decoded user's password becomes the new hash (no change if that user is gone) and the reply is 200 |
| `AuthFlows.BadRefreshCookieIs500` | server/src/controller/auth.controller.ts:109-110 | the TypeError from a bad refresh cookie reaches the client as 500 with the generic message, no errors and no stack |
| `AuthFlows.LogoutWithoutCookieIs204` | server/src/controller/auth.controller.ts:124 | for logout without a cookie, the middleware computes status 204 and the message "No Content" (Express then drops the body of a 204) |
| `AuthFlows.RegisterThenRefresh` | server/src/controller/auth.controller.ts:62-65 | a registration that the schema accepts adds exactly the new user under the next id and answers with the 201 reply; presenting its refresh cookie then gives 200 with the access token for the new user's id and role |
| `AuthFlows.ResetThenLogin` | server/src/__tests__/testAuth/resetPassword.test.ts:148-154 | after a reset with a valid token, only that user's password has changed, to the new hash; login with the new password gives that user's 200 login reply; login with the old one is refused with "Invalid credentials" |

## Left out

- JWT signing, expiry and signature checking are abstract `Tokens.Domain` values; `Tokens.SignsAndVerifies` assumes only two things of a domain: a signed token is non-empty, and it verifies back to its payload.
- `Tokens.GenerateTokens`: a reconstruction. The controller imports `generateTokens` from the services file, but that file does not define it, and it does not export `generateToken`. The secrets file shown defines neither `JWT_SECRET_KEY` nor the access and refresh keys. The pair is modelled from the 1-day access and 30-day refresh helpers of the services file, and the reset token as a third, independent key domain.
- bcrypt's salt randomness and cost are folded into the `encrypt` function of `Tokens.Hasher`.
- The Brevo mail transport is left out. Its outcome is the `delivered` parameter of `SendResetPassLink`, and the mail itself is returned.
- Logging (`logEvents`, `console.log`) in the middleware and the token verifier is left out: it is I/O.
- `NODE_ENV` and the error's stack are parameters of `ErrorMiddleware.Respond`. The stack trace is not computed.
- The login rate limiters and the route wiring are not part of this model.
- The register route's chains come from a `schemaValidations` module that is not part of this model. The router shown wires only the register route, so where the login, reset-link and reset-password routes and their chains come from is not part of this model either. Every route's chains enter the model only as the errors each controller action takes as input.
- `AuthValidation.RegistrationValidators`: the register route's list of chains is a reconstruction. It has the route's five fields, with the chains `RegistrationInputField` dispatches. The route builds the name chains with `validateName('firstName', true)` and `validateName('lastName', true)`. What that unseen helper does with `true` is unknown. The names are made optional because the registration tests send a body without names and get an error only for the e-mail.
- `isEmail` from validator.js is an abstract predicate in `InputValidation.Context`.
- Validators read only from the request body. express-validator's `check` also looks in cookies, headers, params and query.
- String length counts code points, as validator.js's `isLength` does. Its discount of the variation selectors U+FE0E and U+FE0F is not modelled.
- Mongoose's `lowercase: true` on e-mails is not modelled: e-mails are compared exactly as given.
- Schema validation errors other than the unique indexes and the missing e-mail are not modelled: enum violations, `timestamps` and `__v`. Of the `select` projections, only dropping the password and login's password-only projection are modelled.
- `AuthController.UserStore.FindByContact`: which of several matching documents `findOne` returns is left open. Under the uniqueness invariant there is at most one.
- A login or reset-link request whose e-mail is falsy and whose phone is absent queries `{phone: undefined}`. The model treats it as matching no user.
- `AuthController.UserStore.Register`: concurrent requests are not modelled. The re-read after `save` always finds the new user, so the "Unable to register new user" branch is present but unreachable.
- Errors the store could raise while reading or updating in the other actions are not modelled.
- `ErrorMiddleware.Respond`: `errors` carries only the three shapes the core produces (undefined, null, a field map), so "truthy" means a field map.
