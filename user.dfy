/**
 * The user handlers of src/routes/user.rs: login (get-or-create, then read the
 * summary), reading and replacing a user's prompt, and reading the summary.
 *
 * Each handler maps "no such user / no such summary" from the store to
 * NotFound and every store error to InternalServerError. A store call that
 * cannot reach the database is an injected fault: `storeFails` for handlers
 * that make one call, a `LoginFault` naming the failing call for login.
 */
module UserRoutes {
  import opened Wrappers
  import opened Models
  import Db

  /**
   * DEFAULT_PROMPT, the built-in persona. Its text is configuration, not logic:
   * the constant is left without a value, so nothing proved here depends on it.
   */
  const DefaultPrompt: string

  /** The HTTP status codes the handlers answer with when they do not succeed. */
  datatype Status = Unauthorized | NotFound | InternalServerError

  datatype LoginRequest = LoginRequest(username: string)
  datatype LoginResponse = LoginResponse(userId: int, summary: Option<string>)
  datatype PromptUpdateRequest = PromptUpdateRequest(newPrompt: string)
  datatype UpdatePromptResponse = UpdatePromptResponse(prompt: string)
  datatype SummaryResponse = SummaryResponse(summary: string)

  /** The store call of a login that cannot reach the database. */
  datatype LoginFault = ResolveUserFails | ReadSummaryFails

  /** An injected login fault is absent or names one of the two store calls. */
  lemma LoginFaultCases(fault: Option<LoginFault>)
    ensures fault.None? || fault == Some(ResolveUserFails) || fault == Some(ReadSummaryFails)
  {
    match fault
    case None =>
    case Some(f) => match f { case ResolveUserFails => case ReadSummaryFails => }
  }

  /**
   * POST /login. The user is resolved or created with `DefaultPrompt`; an
   * existing user, its prompt and every summary are left as they are. A summary
   * read that fails after a user was created leaves the new user in place.
   */
  method LoginHandler(store: Db.Store, payload: LoginRequest, fault: Option<LoginFault>)
    returns (r: Result<LoginResponse, Status>)
    requires store.Valid()
    modifies store
    ensures store.Valid()
    ensures r.Err? ==> r.error == InternalServerError
    ensures store.conversations == old(store.conversations)
    ensures fault.Some? ==> r == Err(InternalServerError)
    ensures fault == Some(ResolveUserFails) ==> unchanged(store)
    ensures old(store.GetUserByName(payload.username)).Some? ==> unchanged(store)
    ensures r.Ok? ==> && store.GetUserByName(payload.username).Some?
                      && r.value.userId == store.GetUserByName(payload.username).value.id
                      && r.value.summary == store.GetConversationSummary(r.value.userId)
    ensures fault.None? && old(store.GetUserByName(payload.username)).Some? ==>
      var user := old(store.GetUserByName(payload.username)).value;
      r == Ok(LoginResponse(user.id, old(store.GetConversationSummary(user.id))))
    ensures old(store.GetUserByName(payload.username)).None? && old(store.nextId) > Db.MaxSerial ==>
      r == Err(InternalServerError) && unchanged(store)
    ensures fault != Some(ResolveUserFails) && old(store.GetUserByName(payload.username)).None?
            && old(store.nextId) <= Db.MaxSerial ==>
      && store.GetUserByName(payload.username) == Some(User(old(store.nextId), payload.username, Some(DefaultPrompt)))
      && store.users == old(store.users)[old(store.nextId) := Db.UserRow(payload.username, Some(DefaultPrompt))]
      && store.nameIndex == old(store.nameIndex)[payload.username := old(store.nextId)]
      && store.nextId == old(store.nextId) + 1
      && r == (if fault == Some(ReadSummaryFails) then Err(InternalServerError)
               else Ok(LoginResponse(old(store.nextId), None)))
  {
    if fault == Some(ResolveUserFails) {
      return Err(InternalServerError);
    }
    var created := store.GetOrCreateUser(payload.username, DefaultPrompt);
    if created.Err? {
      return Err(InternalServerError);
    }
    var user := created.value;
    if fault == Some(ReadSummaryFails) {
      return Err(InternalServerError);
    }
    LoginFaultCases(fault);
    var summary := store.GetConversationSummary(user.id);
    r := Ok(LoginResponse(user.id, summary));
  }

  /**
   * GET /prompt/:user_id. The stored prompt, or "" when it is NULL: this handler
   * does not fall back to `DefaultPrompt`.
   */
  function GetPromptHandler(store: Db.Store, userId: I32, storeFails: bool): (r: Result<string, Status>)
    reads store
    ensures storeFails ==> r == Err(InternalServerError)
    ensures !storeFails ==> (r == Err(NotFound) <==> userId !in store.users)
    ensures !storeFails && userId in store.users ==> r == Ok(store.users[userId].prompt.GetOr(""))
    ensures r.Ok? ==> userId in store.users && r.value == store.users[userId].prompt.GetOr("")
    ensures r.Ok? && store.users[userId].prompt.None? ==> r.value == ""
  {
    if storeFails then Err(InternalServerError)
    else match store.GetUserById(userId)
      case Some(u) => Ok(u.prompt.GetOr(""))
      case None => Err(NotFound)
  }

  /**
   * POST /prompt/:user_id. Echoes the new prompt when a user was updated, and
   * answers NotFound, with nothing changed, when no user has the id.
   */
  method UpdatePromptHandler(store: Db.Store, userId: I32, payload: PromptUpdateRequest, storeFails: bool)
    returns (r: Result<UpdatePromptResponse, Status>)
    requires store.Valid()
    modifies store
    ensures store.Valid()
    ensures storeFails ==> r == Err(InternalServerError) && unchanged(store)
    ensures !storeFails && userId !in old(store.users) ==> r == Err(NotFound) && unchanged(store)
    ensures !storeFails && userId in old(store.users) ==>
      && r == Ok(UpdatePromptResponse(payload.newPrompt))
      && store.users == old(store.users)[userId := Db.UserRow(old(store.users)[userId].name, Some(payload.newPrompt))]
      && GetPromptHandler(store, userId, false) == Ok(payload.newPrompt)
    ensures store.nameIndex == old(store.nameIndex) && store.conversations == old(store.conversations)
    ensures store.nextId == old(store.nextId)
  {
    if storeFails {
      return Err(InternalServerError);
    }
    var updated := store.UpdateUserPrompt(userId, payload.newPrompt);
    if updated {
      r := Ok(UpdatePromptResponse(payload.newPrompt));
    } else {
      r := Err(NotFound);
    }
  }

  /**
   * GET /summary/:user_id. Exactly the stored summary; NotFound both when the
   * user has no conversation row and when its summary is NULL.
   */
  function GetSummaryHandler(store: Db.Store, userId: I32, storeFails: bool): (r: Result<SummaryResponse, Status>)
    reads store
    ensures storeFails ==> r == Err(InternalServerError)
    ensures !storeFails ==>
      (r == Err(NotFound) <==> userId !in store.conversations || store.conversations[userId].None?)
    ensures !storeFails && userId in store.conversations && store.conversations[userId].Some? ==>
      r == Ok(SummaryResponse(store.conversations[userId].value))
    ensures r.Ok? ==> userId in store.conversations && store.conversations[userId] == Some(r.value.summary)
  {
    if storeFails then Err(InternalServerError)
    else match store.GetConversationSummary(userId)
      case Some(summary) => Ok(SummaryResponse(summary))
      case None => Err(NotFound)
  }

  /**
   * Two logins with the same name, no fault: both answer the same user and the
   * same summary, and the second changes nothing (src/routes/user.rs:71-78).
   */
  method LoginTwice(store: Db.Store, name: string) returns (first: Result<LoginResponse, Status>, second: Result<LoginResponse, Status>)
    requires store.Valid()
    modifies store
    ensures store.Valid()
    ensures first.Ok? ==> second == first
    ensures first.Ok? && old(store.GetUserByName(name)).None? ==>
      store.GetUserByName(name) == Some(User(first.value.userId, name, Some(DefaultPrompt)))
  {
    first := LoginHandler(store, LoginRequest(name), None);
    ghost var resolved := store.GetUserByName(name);
    second := LoginHandler(store, LoginRequest(name), None);
    assert first.Ok? ==> store.GetUserByName(name) == resolved;
  }
}
