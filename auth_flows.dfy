/**
 * Requests in sequence against one store, and what a failing request
 * finally sends to the client once `asyncHandler` and the error middleware
 * have handled it.
 */
module AuthFlows {
  import opened Wrappers
  import opened Exceptions
  import opened UserTypes
  import opened Tokens
  import opened AsyncHandler
  import opened ErrorMiddleware
  import opened AuthController

  /**
   * A refresh cookie that fails verification ends as a 500 with the generic
   * message: never the 401 or 403 one might expect of a bad token.
   */
  lemma {:induction false} BadRefreshCookieIs500(nodeEnv: Option<string>, stack: string)
    ensures |NextCalls<Reply>(Rejected(Fault(NullDereference)))| == 1
    ensures Respond(NextCalls<Reply>(Rejected(Fault(NullDereference)))[0], nodeEnv, stack)
         == ErrorReply(500, ErrorBody(false, GenericMessage, Undefined, None))
  {
  }

  /** Logging out without a cookie ends as an operational 204 "No Content". */
  lemma {:induction false} LogoutWithoutCookieIs204(jwt: Option<string>, nodeEnv: Option<string>, stack: string)
    requires !AuthController.Truthy(jwt)
    ensures Logout(jwt).Rejected?
    ensures Respond(NextCalls(Logout(jwt))[0], nodeEnv, stack).status == 204
    ensures Respond(NextCalls(Logout(jwt))[0], nodeEnv, stack).body.message == "No Content"
  {
  }

  /**
   * Register, then exchange the refresh cookie it set: the new access token
   * is the one for the registered user's id and role.
   */
  method RegisterThenRefresh(store: UserStore, input: RegisterInput, hasher: Hasher, keys: Keys)
    returns (registered: Settled<Reply>, refreshed: Settled<Reply>)
    requires store.Valid() && SignsAndVerifies(keys.refresh)
    requires !SaveRejected(store.users, NewUser(input, hasher.encrypt(input.password)))
    modifies store
    ensures store.Valid()
    ensures store.users == old(store.users)[old(store.nextId) := NewUser(input, hasher.encrypt(input.password))]
    ensures store.nextId == old(store.nextId) + 1
    ensures registered == Resolved(RegisterReply(keys, old(store.nextId), NewUser(input, hasher.encrypt(input.password))))
    ensures refreshed == Resolved(Reply(200,
      TokenOnly(GenerateAccessToken(keys, Payload(old(store.nextId), Some(input.role.GetOr(Customer))))), NoCookie))
  {
    registered := store.Register([], input, hasher, keys);
    var id := old(store.nextId);
    var u := NewUser(input, hasher.encrypt(input.password));
    var cookie := registered.value.cookie.value;
    assert cookie == keys.refresh.sign(SessionPayload(id, u), RefreshTtl);
    refreshed := store.RefreshToken(Some(cookie), keys);
  }

  /**
   * Request a reset link, follow it with a new password, then log in: the
   * new password is accepted, and the old one is refused when the hash does
   * not accept it.
   */
  method ResetThenLogin(store: UserStore, contact: Contact, id: Id, oldPassword: string, newPassword: string,
                        hasher: Hasher, keys: Keys)
    returns (withNew: Settled<Reply>, withOld: Settled<Reply>)
    requires store.Valid() && SignsAndVerifies(keys.reset)
    requires id in store.users && Selects(contact, store.users[id])
    requires hasher.compare(newPassword, hasher.encrypt(newPassword))
    requires !hasher.compare(oldPassword, hasher.encrypt(newPassword))
    modifies store
    ensures store.Valid()
    ensures store.users == old(store.users)[id := old(store.users)[id].(password := hasher.encrypt(newPassword))]
    ensures store.nextId == old(store.nextId)
    ensures withNew == Resolved(LoginReply(keys, id))
    ensures withOld == Rejected(Raised(BadRequest(InvalidCredentials)))
  {
    var sent, mail := store.SendResetPassLink([], contact, keys, true);
    var token := keys.reset.sign(Payload(id, None), ResetTtl);
    assert mail == Some(ResetMail(keys, id, old(store.users)[id]));
    var reset := store.ResetPassword([], newPassword, Some(token), hasher, keys);
    assert store.users[id].password == hasher.encrypt(newPassword);
    assert Selects(contact, store.users[id]);
    withNew := store.Login([], contact, newPassword, hasher, keys);
    withOld := store.Login([], contact, oldPassword, hasher, keys);
  }
}
