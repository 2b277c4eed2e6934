/**
 * The authentication controller: register, login, refresh-token, logout,
 * send-reset-link and reset-password.  The user collection is a class whose
 * `users` map the two writing operations update; the schema's unique
 * indexes on e-mail and phone are its invariant.  Each operation returns
 * how its promise settles, which `AsyncHandler` turns into what reaches
 * `next`.  The cookie the operation sets or clears is part of its reply.
 */
module AuthController {
  import opened Wrappers
  import opened Exceptions
  import opened UserTypes
  import opened Tokens
  import opened ValidationErrors
  import opened AsyncHandler

  const JwtCookie: string := "jwt"
  /** `maxAge` of the refresh cookie: seven days, in milliseconds. */
  const CookieMaxAgeMs: int := 7 * 24 * 60 * 60 * 1000

  const RegisterSucceeded: string := "User registration successful"
  const RegisterFailed: string := "Unable to register new user, please try again later"
  const InvalidCredentials: string := "Invalid credentials"
  const LoggedIn: string := "successfully logged in"
  const LogoutSucceeded: string := "Logout successful"
  const UnknownUser: string := "User does not exists"
  const ResetLinkSent: string := "Reset password link sent successfully on your email"
  const MailFailed: string := "Failed to send email"
  const LinkExpired: string := "Link expired! Request new link"
  const PasswordUpdated: string := "Password updated successfully"
  const ResetPage: string := "http://localhost:3500/reset-password?token="

  /** What reading `userId` off the `null` that a failed refresh-token verification returns throws. */
  const NullDereference: string := "TypeError: Cannot read properties of null (reading 'userId')"
  /**
   * What `save` rejects with when the new user misses a required field (a
   * validation error raised before any write) or collides with a unique
   * index (a duplicate-key error from the server).
   */
  const SaveRejectedByStore: string := "save rejected: schema validation or duplicate key"

  datatype Cookie = NoCookie | SetCookie(name: string, value: string, maxAgeMs: int) | ClearCookie(name: string)

  /** A user as the store returns it by default: the password is not selected. */
  datatype PublicUser = PublicUser(
    id: Id,
    email: string,
    phone: Option<string>,
    firstName: Option<string>,
    lastName: Option<string>,
    profileUrl: Option<string>,
    gender: Option<Gender>,
    role: Role)

  function PublicView(id: Id, u: User): PublicUser {
    PublicUser(id, u.email, u.phone, u.firstName, u.lastName, u.profileUrl, u.gender, u.role)
  }

  /** The JSON bodies of the successful replies, one constructor per field set. */
  datatype Body =
    | UserAndToken(success: bool, message: string, user: PublicUser, token: string)
    | MessageAndToken(success: bool, message: string, token: string)
    | TokenOnly(token: string)
    | SuccessMessage(success: bool, message: string)

  datatype Reply = Reply(status: int, body: Body, cookie: Cookie)

  /** The registration body, spread into the new document: any schema field it carries is kept. */
  datatype RegisterInput = RegisterInput(
    email: string,
    password: string,
    phone: Option<string>,
    firstName: Option<string>,
    lastName: Option<string>,
    profileUrl: Option<string>,
    gender: Option<Gender>,
    role: Option<Role>)

  /** The e-mail or phone a login or reset-link request names the user by. */
  datatype Contact = Contact(email: Option<string>, phone: Option<string>)

  /** The e-mail handed to the mail transport. */
  datatype Mail = Mail(subject: string, textContent: string, htmlContent: string, receiverName: string, receiverEmail: string)

  /** JavaScript truthiness of an optional string. */
  predicate Truthy(v: Option<string>) {
    v.Some? && v.value != ""
  }

  /** The users a contact selects: by e-mail when the e-mail is truthy, otherwise by phone. */
  predicate Selects(contact: Contact, u: User) {
    if Truthy(contact.email) then u.email == contact.email.value
    else contact.phone.Some? && u.phone == contact.phone
  }

  function ValidationFailure(validation: seq<FieldError>): HttpException {
    Validation(ValidationMessage, 400, FieldErrors(Collect(validation)))
  }

  /** The document `register` saves: the input with its password replaced by the hash. */
  function NewUser(input: RegisterInput, hash: string): User {
    User(input.email, hash, input.phone, input.firstName, input.lastName, input.profileUrl, input.gender,
         input.role.GetOr(Customer))
  }

  /**
   * The schema refuses an empty e-mail and any e-mail or phone already
   * stored.  The phone index is not sparse, so a missing phone is indexed
   * as `null` and collides with another missing phone.
   */
  predicate SaveRejected(users: map<Id, User>, u: User) {
    u.email == "" || exists id :: id in users && (users[id].email == u.email || users[id].phone == u.phone)
  }

  function SessionPayload(id: Id, u: User): Payload {
    Payload(id, Some(u.role))
  }

  function RegisterReply(keys: Keys, id: Id, u: User): Reply {
    var tokens := GenerateTokens(keys, SessionPayload(id, u));
    Reply(201, UserAndToken(true, RegisterSucceeded, PublicView(id, u), tokens.accessToken),
          SetCookie(JwtCookie, tokens.refreshToken, CookieMaxAgeMs))
  }

  /**
   * The login lookup projects the document onto `password` (and `_id`), so
   * the `role` read for the payload is undefined: the tokens carry no role.
   */
  function LoginPayload(id: Id): Payload {
    Payload(id, None)
  }

  function LoginReply(keys: Keys, id: Id): Reply {
    var tokens := GenerateTokens(keys, LoginPayload(id));
    Reply(200, MessageAndToken(true, LoggedIn, tokens.accessToken), SetCookie(JwtCookie, tokens.refreshToken, CookieMaxAgeMs))
  }

  /** The reset e-mail: a 15-minute reset token for `{userId}` embedded in the front-end link. */
  function ResetMail(keys: Keys, id: Id, u: User): Mail {
    var token := keys.reset.sign(Payload(id, None), ResetTtl);
    var link := ResetPage + token;
    Mail("Reset password link", "Click here to reset your password",
         "<p><b>Please click the link given below to reset your password</b></p><a href=\"" + link + "\">Reset Password</a>",
         if Truthy(u.firstName) then u.firstName.value else "",
         u.email)
  }

  ghost predicate UniqueEmails(users: map<Id, User>) {
    forall a, b :: a in users && b in users && users[a].email == users[b].email ==> a == b
  }

  /** Phones are unique with a missing phone counted as one value: at most one user has none. */
  ghost predicate UniquePhones(users: map<Id, User>) {
    forall a, b :: a in users && b in users && users[a].phone == users[b].phone ==> a == b
  }

  /**
   * Once one stored user has no phone, the schema refuses every further user
   * without a phone, whatever its e-mail.
   */
  lemma {:induction false} SecondPhonelessUserRejected(users: map<Id, User>, stored: Id, u: User)
    requires stored in users && users[stored].phone == None && u.phone == None
    ensures SaveRejected(users, u)
  {
    assert users[stored].phone == u.phone;
  }

  /** In a store with unique e-mails and phones a contact selects at most one user. */
  lemma {:induction false} SelectsAtMostOne(users: map<Id, User>, contact: Contact, a: Id, b: Id)
    requires UniqueEmails(users) && UniquePhones(users)
    requires a in users && b in users && Selects(contact, users[a]) && Selects(contact, users[b])
    ensures a == b
  {
    if !Truthy(contact.email) {
      assert users[a].phone.Some? && users[a].phone == users[b].phone;
    }
  }

  function Logout(jwt: Option<string>): (r: Settled<Reply>)
    ensures !Truthy(jwt) ==> r == Rejected(Raised(NewHttpException("No Content", 204, Undefined, None)))
    ensures Truthy(jwt) ==> r == Resolved(Reply(200, SuccessMessage(true, LogoutSucceeded), ClearCookie(JwtCookie)))
  {
    if !Truthy(jwt) then Rejected(Raised(Root("No Content", 204)))
    else Resolved(Reply(200, SuccessMessage(true, LogoutSucceeded), ClearCookie(JwtCookie)))
  }

  class UserStore {
    var users: map<Id, User>
    var nextId: Id

    /** Identifiers below `nextId`; e-mails and phones unique, as the schema's indexes make them. */
    ghost predicate Valid()
      reads this
    {
      && (forall id :: id in users ==> id < nextId)
      && UniqueEmails(users)
      && UniquePhones(users)
    }

    constructor ()
      ensures Valid() && users == map[] && nextId == 0
    {
      users := map[];
      nextId := 0;
    }

    /** `findOne` on the contact's key; the store's scan order is not modelled. */
    method FindByContact(contact: Contact) returns (found: Option<Id>)
      ensures found.Some? ==> found.value in users && Selects(contact, users[found.value])
      ensures found.None? <==> forall id :: id in users ==> !Selects(contact, users[id])
    {
      var remaining := users.Keys;
      while remaining != {}
        invariant remaining <= users.Keys
        invariant forall id :: id in users && id !in remaining ==> !Selects(contact, users[id])
        decreases remaining
      {
        var id :| id in remaining;
        if Selects(contact, users[id]) {
          return Some(id);
        }
        remaining := remaining - {id};
      }
      return None;
    }

    /**
     * Validation first; then the hashed user is saved, re-read and answered
     * with 201, its access token and the refresh cookie.
     */
    method Register(validation: seq<FieldError>, input: RegisterInput, hasher: Hasher, keys: Keys)
      returns (r: Settled<Reply>)
      requires Valid()
      modifies this
      ensures Valid()
      ensures validation != [] ==>
        r == Rejected(Raised(ValidationFailure(validation))) && users == old(users) && nextId == old(nextId)
      ensures validation == [] && SaveRejected(old(users), NewUser(input, hasher.encrypt(input.password))) ==>
        r == Rejected(Fault(SaveRejectedByStore)) && users == old(users) && nextId == old(nextId)
      ensures validation == [] && !SaveRejected(old(users), NewUser(input, hasher.encrypt(input.password))) ==>
        var u := NewUser(input, hasher.encrypt(input.password));
        && users == old(users)[old(nextId) := u]
        && nextId == old(nextId) + 1
        && r == Resolved(RegisterReply(keys, old(nextId), u))
    {
      var thrown := HandleValidationError(validation);
      if thrown.Some? {
        return Rejected(Raised(thrown.value));
      }
      var encryptedPass := hasher.encrypt(input.password);
      var user := NewUser(input, encryptedPass);
      if SaveRejected(users, user) {
        return Rejected(Fault(SaveRejectedByStore));
      }
      var id := nextId;
      users := users[id := user];
      nextId := nextId + 1;
      r := if id in users then Resolved(RegisterReply(keys, id, users[id]))
           else Rejected(Raised(Internal(RegisterFailed)));
    }

    /**
     * Validation first; an unknown user and a wrong password fail with the
     * same exception; success is 200 with the access token and the refresh cookie.
     */
    method Login(validation: seq<FieldError>, contact: Contact, password: string, hasher: Hasher, keys: Keys)
      returns (r: Settled<Reply>)
      requires Valid()
      ensures validation != [] ==> r == Rejected(Raised(ValidationFailure(validation)))
      ensures validation == [] && (forall id :: id in users ==> !Selects(contact, users[id])) ==>
        r == Rejected(Raised(BadRequest(InvalidCredentials)))
      ensures validation == [] ==> forall id :: id in users && Selects(contact, users[id]) ==>
        r == if hasher.compare(password, users[id].password) then Resolved(LoginReply(keys, id))
             else Rejected(Raised(BadRequest(InvalidCredentials)))
    {
      var thrown := HandleValidationError(validation);
      if thrown.Some? {
        return Rejected(Raised(thrown.value));
      }
      var found := FindByContact(contact);
      if found.None? {
        return Rejected(Raised(BadRequest(InvalidCredentials)));
      }
      var id := found.value;
      forall other | other in users && Selects(contact, users[other]) ensures other == id {
        SelectsAtMostOne(users, contact, other, id);
      }
      if !hasher.compare(password, users[id].password) {
        return Rejected(Raised(BadRequest(InvalidCredentials)));
      }
      return Resolved(LoginReply(keys, id));
    }

    /**
     * No cookie: 403.  A cookie that fails verification makes the controller
     * read `userId` off `null`: a TypeError, not one of the taxonomy.  An
     * unknown user: 401.  Otherwise a fresh access token and no cookie.
     */
    method RefreshToken(jwt: Option<string>, keys: Keys) returns (r: Settled<Reply>)
      ensures !Truthy(jwt) ==> r == Rejected(Raised(Forbidden("Forbidden")))
      ensures Truthy(jwt) && keys.refresh.verify(jwt.value).None? ==> r == Rejected(Fault(NullDereference))
      ensures Truthy(jwt) && keys.refresh.verify(jwt.value).Some? ==>
        var id := keys.refresh.verify(jwt.value).value.userId;
        r == if id in users then Resolved(Reply(200, TokenOnly(GenerateAccessToken(keys, SessionPayload(id, users[id]))), NoCookie))
             else Rejected(Raised(Unauthorized("Unauthorized")))
    {
      if !Truthy(jwt) {
        return Rejected(Raised(Forbidden("Forbidden")));
      }
      var decoded := keys.refresh.verify(jwt.value);
      if decoded.None? {
        return Rejected(Fault(NullDereference));
      }
      var id := decoded.value.userId;
      if id !in users {
        return Rejected(Raised(Unauthorized("Unauthorized")));
      }
      var accessToken := GenerateAccessToken(keys, SessionPayload(id, users[id]));
      return Resolved(Reply(200, TokenOnly(accessToken), NoCookie));
    }

    /**
     * Validation first; an unknown user is a 400; otherwise the reset mail is
     * handed to the transport (`mail`), and `delivered` says whether the
     * transport accepted it.
     */
    method SendResetPassLink(validation: seq<FieldError>, contact: Contact, keys: Keys, delivered: bool)
      returns (r: Settled<Reply>, mail: Option<Mail>)
      requires Valid()
      ensures validation != [] ==> r == Rejected(Raised(ValidationFailure(validation))) && mail == None
      ensures validation == [] && (forall id :: id in users ==> !Selects(contact, users[id])) ==>
        r == Rejected(Raised(BadRequest(UnknownUser))) && mail == None
      ensures validation == [] ==> forall id :: id in users && Selects(contact, users[id]) ==>
        && mail == Some(ResetMail(keys, id, users[id]))
        && r == if delivered then Resolved(Reply(200, SuccessMessage(true, ResetLinkSent), NoCookie))
                else Rejected(Raised(Internal(MailFailed)))
    {
      var thrown := HandleValidationError(validation);
      if thrown.Some? {
        return Rejected(Raised(thrown.value)), None;
      }
      var found := FindByContact(contact);
      if found.None? {
        return Rejected(Raised(BadRequest(UnknownUser))), None;
      }
      var id := found.value;
      forall other | other in users && Selects(contact, users[other]) ensures other == id {
        SelectsAtMostOne(users, contact, other, id);
      }
      mail := Some(ResetMail(keys, id, users[id]));
      if !delivered {
        return Rejected(Raised(Internal(MailFailed))), mail;
      }
      return Resolved(Reply(200, SuccessMessage(true, ResetLinkSent), NoCookie)), mail;
    }

    /**
     * Validation first; a missing or unverifiable token is a 400 that
     * does not say why; otherwise only the decoded user's password changes
     * (nothing changes if that user is gone) and the reply is 200.
     */
    method ResetPassword(validation: seq<FieldError>, password: string, token: Option<string>, hasher: Hasher, keys: Keys)
      returns (r: Settled<Reply>)
      requires Valid()
      modifies this
      ensures Valid() && nextId == old(nextId)
      ensures validation != [] ==> r == Rejected(Raised(ValidationFailure(validation))) && users == old(users)
      ensures validation == [] && (token.None? || keys.reset.verify(token.value).None?) ==>
        r == Rejected(Raised(BadRequest(LinkExpired))) && users == old(users)
      ensures validation == [] && token.Some? && keys.reset.verify(token.value).Some? ==>
        var id := keys.reset.verify(token.value).value.userId;
        && r == Resolved(Reply(200, SuccessMessage(true, PasswordUpdated), NoCookie))
        && users == if id in old(users) then old(users)[id := old(users)[id].(password := hasher.encrypt(password))]
                    else old(users)
    {
      var thrown := HandleValidationError(validation);
      if thrown.Some? {
        return Rejected(Raised(thrown.value));
      }
      var decode := if token.Some? then keys.reset.verify(token.value) else None;
      if decode.None? {
        return Rejected(Raised(BadRequest(LinkExpired)));
      }
      var hashedPassword := hasher.encrypt(password);
      var id := decode.value.userId;
      if id in users {
        users := users[id := users[id].(password := hashedPassword)];
      }
      return Resolved(Reply(200, SuccessMessage(true, PasswordUpdated), NoCookie));
    }
  }
}
