/**
 * The JSON account endpoints: login, activation, forgotten and reset passwords, and
 * registration. Each endpoint is a function from the account tables and the request
 * to the new tables, the response and the mails dispatched, and a method on the
 * store that performs the same steps in the source's order.
 */
module Api {
  import opened Web
  import opened Text
  import opened Tables
  import opened Activity
  import opened Accounts
  import opened Serializers

  /** A JSON response: the status and the body's keys with their texts in order, plus
      the user view a successful login adds. */
  datatype Response = Response(status: nat, body: seq<(string, string)>, user: Option<UserView>)

  function Detail(status: nat, text: string): Response
  {
    Response(status, [("detail", text)], None)
  }

  function Message(status: nat, text: string): Response
  {
    Response(status, [("message", text)], None)
  }

  /** The tables after a call, the response, and the mails sent in order. */
  datatype Outcome = Outcome(state: AccountState, response: Response, mails: seq<Email>)

  // ---------------------------------------------------------------------------
  // LoginAPI.post
  // ---------------------------------------------------------------------------

  /** `filter(email=identifier).first() or filter(username=identifier).first()`. */
  function LoginTarget(s: AccountState, identifier: Option<string>): (r: Option<UserId>)
    requires ValidState(s)
    ensures r.None? <==> forall k :: k in s.users.rows ==>
      Some(s.users.rows[k].email) != identifier && Some(s.users.rows[k].username) != identifier
    ensures r.Some? ==> (r.value in s.users.rows &&
      (Some(s.users.rows[r.value].email) == identifier || Some(s.users.rows[r.value].username) == identifier))
    ensures (exists k :: k in s.users.rows && Some(s.users.rows[k].email) == identifier) ==>
      r.Some? && Some(s.users.rows[r.value].email) == identifier
  {
    match First(s.users, EmailIs(identifier))
    case Some(id) => Some(id)
    case None => First(s.users, UsernameIs(identifier))
  }

  datatype LoginOutcome = UnknownIdentifier | Unverified(id: UserId) | WrongPassword(id: UserId) | LoggedIn(id: UserId)

  /** The decision of the login endpoint: existence, then verification, then password. */
  function LoginDecision(s: AccountState, identifier: Option<string>, password: Option<string>): (r: LoginOutcome)
    requires ValidState(s)
    ensures r.UnknownIdentifier? <==> LoginTarget(s, identifier).None?
    ensures !r.UnknownIdentifier? ==> LoginTarget(s, identifier) == Some(r.id) && r.id in s.profiles
    ensures r.Unverified? <==> LoginTarget(s, identifier).Some? && !s.profiles[LoginTarget(s, identifier).value].isEmailVerified
    ensures r.LoggedIn? <==> (LoginTarget(s, identifier).Some? &&
      s.profiles[LoginTarget(s, identifier).value].isEmailVerified &&
      Authenticates(s.users.rows[LoginTarget(s, identifier).value].password, password))
  {
    match LoginTarget(s, identifier)
    case None => UnknownIdentifier
    case Some(id) =>
      if !s.profiles[id].isEmailVerified then Unverified(id)
      else if !Authenticates(s.users.rows[id].password, password) then WrongPassword(id)
      else LoggedIn(id)
  }

  function LoginResponse(s: AccountState, o: LoginOutcome): Response
    requires ValidState(s) && (o.LoggedIn? ==> o.id in s.users.rows)
  {
    match o
    case UnknownIdentifier => Detail(400, "Invalid credentials")
    case Unverified(_) => Detail(403, "Email not verified")
    case WrongPassword(_) => Detail(400, "Invalid password")
    case LoggedIn(id) => Response(200, [("message", "Login successful")], Some(ViewOf(s.users.rows[id])))
  }

  /** `LoginAPI.post`. The account tables do not change; a successful login writes its
      activity row. */
  method LoginApi(store: AccountStore, log: ActivityLog, req: Request, identifier: Option<string>, password: Option<string>)
    returns (resp: Response)
    requires store.Valid()
    modifies log
    ensures resp == LoginResponse(store.State(), LoginDecision(store.State(), identifier, password))
    ensures var o := LoginDecision(store.State(), identifier, password);
      log.rows == if o.LoggedIn? then old(log.rows) + [LoginRow(req, o.id)] else old(log.rows)
  {
    var user := First(store.users, EmailIs(identifier));
    if user.None? {
      user := First(store.users, UsernameIs(identifier));
    }
    if user.None? {
      return Detail(400, "Invalid credentials");
    }
    var id := user.value;
    if !store.profiles[id].isEmailVerified {
      return Detail(403, "Email not verified");
    }
    if !Authenticates(store.users.rows[id].password, password) {
      return Detail(400, "Invalid password");
    }
    LogUserLogin(log, req, id);
    resp := Response(200, [("message", "Login successful")], Some(ViewOf(store.users.rows[id])));
  }

  /** An identifier that is one user's email and another user's username logs in the
      first of them. */
  lemma EmailBeforeUsername(s: AccountState, a: UserId, b: UserId, identifier: string)
    requires ValidState(s) && a in s.users.rows && b in s.users.rows
    requires s.users.rows[a].email == identifier && s.users.rows[b].username == identifier
    ensures LoginTarget(s, Some(identifier)) == Some(a)
  {
    var r := LoginTarget(s, Some(identifier));
    assert r.Some? && s.users.rows[r.value].email == identifier;
  }

  /** An unverified account answers 403 whatever password is sent. */
  lemma UnverifiedWhateverPassword(s: AccountState, identifier: Option<string>, p: Option<string>, q: Option<string>)
    requires ValidState(s) && LoginTarget(s, identifier).Some?
    requires !s.profiles[LoginTarget(s, identifier).value].isEmailVerified
    ensures LoginResponse(s, LoginDecision(s, identifier, p)) == LoginResponse(s, LoginDecision(s, identifier, q))
    ensures LoginResponse(s, LoginDecision(s, identifier, p)).status == 403
  {
  }

  /** On a one-user store with an unverified account, the serializer and the endpoint
      disagree about a wrong password: the serializer reports the password, the endpoint
      reports the missing verification. */
  lemma SerializerAndEndpointDisagree()
    ensures var s := AccountState(Table(map[0 := User("ann", "Ann", "Lee", "ann@shop.test", Secret("right"))], 1),
                                  map[0 := Profile(false, None)]);
      ValidState(s) &&
      LoginValidate(s.users, s.profiles, "ann@shop.test", "wrong") == LoginRejected(FieldError("password", IncorrectPassword)) &&
      LoginDecision(s, Some("ann@shop.test"), Some("wrong")) == Unverified(0)
  {
    var s := AccountState(Table(map[0 := User("ann", "Ann", "Lee", "ann@shop.test", Secret("right"))], 1),
                          map[0 := Profile(false, None)]);
    assert Lower("ann@shop.test") == "ann@shop.test";
    LoginValidateOrder(s, "ann@shop.test", "wrong", 0);
  }

  // ---------------------------------------------------------------------------
  // ActivateAccountAPI.get
  // ---------------------------------------------------------------------------

  const InvalidActivation := "Invalid or expired activation link"

  /** `ActivateAccountAPI.get`: the profile holding the token is marked verified and its
      token cleared; an unknown token changes nothing. */
  function Activate(s: AccountState, token: string): (r: Outcome)
    requires ValidState(s)
    ensures ValidState(r.state) && r.mails == [] && r.state.users == s.users
    ensures ProfileWithToken(s, token).None? <==> r.response == Detail(400, InvalidActivation)
    ensures ProfileWithToken(s, token).None? ==> r.state == s
    ensures ProfileWithToken(s, token).Some? ==>
      var id := ProfileWithToken(s, token).value;
      r.response == Message(200, "Account activated successfully!") &&
      r.state.profiles == s.profiles[id := s.profiles[id].(isEmailVerified := true, emailToken := None)]
  {
    match ProfileWithToken(s, token)
    case None => Outcome(s, Detail(400, InvalidActivation), [])
    case Some(id) =>
      Outcome(AccountState(s.users, s.profiles[id := s.profiles[id].(isEmailVerified := true, emailToken := None)]),
              Message(200, "Account activated successfully!"), [])
  }

  method ActivateApi(store: AccountStore, token: string) returns (resp: Response)
    requires store.Valid()
    modifies store
    ensures store.Valid()
    ensures Activate(old(store.State()), token) == Outcome(store.State(), resp, [])
  {
    var found := ProfileWithToken(store.State(), token);
    if found.None? {
      return Detail(400, InvalidActivation);
    }
    var id := found.value;
    var profile := store.profiles[id];
    profile := profile.(isEmailVerified := true);
    profile := profile.(emailToken := None);
    store.SaveProfile(id, profile);
    resp := Message(200, "Account activated successfully!");
  }

  /** Clearing the token of the one profile that held it leaves no profile with it. */
  lemma {:induction false} ClearedTokenIsGone(s: AccountState, id: UserId, t: string, p: Profile)
    requires ValidState(s) && id in s.profiles && s.profiles[id].emailToken == Some(t) && p.emailToken != Some(t)
    requires ValidState(AccountState(s.users, s.profiles[id := p]))
    ensures ProfileWithToken(AccountState(s.users, s.profiles[id := p]), t).None?
  {
    var s' := AccountState(s.users, s.profiles[id := p]);
    forall k | k in s'.profiles
      ensures s'.profiles[k].emailToken != Some(t)
    {
      if k != id {
        ProfileWithTokenUnique(s, t, k);
        ProfileWithTokenUnique(s, t, id);
      }
    }
  }

  /** An activation link works once: the second use of the same token is refused. */
  lemma {:induction false} ActivateOnce(s: AccountState, token: string)
    requires ValidState(s) && ProfileWithToken(s, token).Some?
    ensures Activate(s, token).response.status == 200
    ensures Activate(Activate(s, token).state, token).response == Detail(400, InvalidActivation)
  {
    var id := ProfileWithToken(s, token).value;
    ClearedTokenIsGone(s, id, token, s.profiles[id].(isEmailVerified := true, emailToken := None));
  }

  // ---------------------------------------------------------------------------
  // ForgotPasswordAPI.post
  // ---------------------------------------------------------------------------

  /** `ForgotPasswordAPI.post`: the user with this exact email gets the fresh token in
      place of whatever token the profile held, and the reset mail carries it. */
  function ForgotPassword(s: AccountState, email: Option<string>, token: string): (r: Outcome)
    requires ValidState(s) && TokenUnused(s.profiles, token)
    ensures ValidState(r.state) && r.state.users == s.users
    ensures First(s.users, EmailIs(email)).None? <==> r.response == Detail(404, "User not found")
    ensures First(s.users, EmailIs(email)).None? ==> r.state == s && r.mails == []
    ensures First(s.users, EmailIs(email)).Some? ==>
      var id := First(s.users, EmailIs(email)).value;
      email.Some? && s.users.rows[id].email == email.value &&
      r.response == Message(200, "Password reset link sent") &&
      r.state.profiles == s.profiles[id := s.profiles[id].(emailToken := Some(token))] &&
      r.mails == [PasswordReset(email.value, token)]
  {
    match First(s.users, EmailIs(email))
    case None => Outcome(s, Detail(404, "User not found"), [])
    case Some(id) =>
      var s' := AccountState(s.users, s.profiles[id := s.profiles[id].(emailToken := Some(token))]);
      assert ValidState(s');
      Outcome(s', Message(200, "Password reset link sent"), [PasswordReset(email.value, token)])
  }

  method ForgotPasswordApi(store: AccountStore, email: Option<string>, token: string) returns (resp: Response, mails: seq<Email>)
    requires store.Valid() && RandomToken(token) && TokenUnused(store.profiles, token)
    modifies store
    ensures store.Valid()
    ensures ForgotPassword(old(store.State()), email, token) == Outcome(store.State(), resp, mails)
  {
    var user := First(store.users, EmailIs(email));
    if user.None? {
      return Detail(404, "User not found"), [];
    }
    var id := user.value;
    store.SaveProfile(id, store.profiles[id].(emailToken := Some(token)));
    mails := [PasswordReset(email.value, token)];
    resp := Message(200, "Password reset link sent");
  }

  /** Reset links and activation links share the token: the token of a reset mail also
      activates the account. */
  lemma {:induction false} ResetTokenActivates(s: AccountState, email: string, token: string)
    requires ValidState(s) && TokenUnused(s.profiles, token) && First(s.users, EmailIs(Some(email))).Some?
    ensures var f := ForgotPassword(s, Some(email), token);
      var id := First(s.users, EmailIs(Some(email))).value;
      var a := Activate(f.state, token);
      a.response.status == 200 && a.state.profiles[id].isEmailVerified && a.state.profiles[id].emailToken.None?
  {
    var id := First(s.users, EmailIs(Some(email))).value;
    var f := ForgotPassword(s, Some(email), token);
    ProfileWithTokenUnique(f.state, token, id);
  }

  /** Asking for a reset link withdraws a pending activation link: the old token no
      longer activates anything. */
  lemma {:induction false} ForgotOverwritesActivation(s: AccountState, email: string, token: string, pending: string)
    requires ValidState(s) && TokenUnused(s.profiles, token) && First(s.users, EmailIs(Some(email))).Some?
    requires s.profiles[First(s.users, EmailIs(Some(email))).value].emailToken == Some(pending)
    ensures Activate(ForgotPassword(s, Some(email), token).state, pending).response == Detail(400, InvalidActivation)
  {
    var id := First(s.users, EmailIs(Some(email))).value;
    assert pending != token;
    ClearedTokenIsGone(s, id, pending, s.profiles[id].(emailToken := Some(token)));
  }

  // ---------------------------------------------------------------------------
  // ResetPasswordAPI.post
  // ---------------------------------------------------------------------------

  /** `ResetPasswordAPI.post`: the token is checked first, then the two passwords; on
      success the password is set (to an unusable one when both are missing) and the
      token is cleared. */
  function ResetPassword(s: AccountState, token: string, password: Option<string>, confirm: Option<string>): (r: Outcome)
    requires ValidState(s)
    ensures ValidState(r.state) && r.mails == []
    ensures ProfileWithToken(s, token).None? ==> r == Outcome(s, Detail(400, "Invalid token"), [])
    ensures ProfileWithToken(s, token).Some? && password != confirm ==> r == Outcome(s, Detail(400, "Passwords do not match"), [])
    ensures ProfileWithToken(s, token).Some? && password == confirm ==>
      var id := ProfileWithToken(s, token).value;
      r.response == Message(200, "Password updated successfully") &&
      r.state.users.rows == s.users.rows[id := s.users.rows[id].(password := PasswordFor(password))] &&
      r.state.users.next == s.users.next &&
      r.state.profiles == s.profiles[id := s.profiles[id].(emailToken := None)]
  {
    match ProfileWithToken(s, token)
    case None => Outcome(s, Detail(400, "Invalid token"), [])
    case Some(id) =>
      if password != confirm then Outcome(s, Detail(400, "Passwords do not match"), [])
      else
        var users := Put(s.users, id, s.users.rows[id].(password := PasswordFor(password)));
        Outcome(AccountState(users, s.profiles[id := s.profiles[id].(emailToken := None)]),
                Message(200, "Password updated successfully"), [])
  }

  method ResetPasswordApi(store: AccountStore, token: string, password: Option<string>, confirm: Option<string>)
    returns (resp: Response)
    requires store.Valid()
    modifies store
    ensures store.Valid()
    ensures ResetPassword(old(store.State()), token, password, confirm) == Outcome(store.State(), resp, [])
  {
    var found := ProfileWithToken(store.State(), token);
    if found.None? {
      return Detail(400, "Invalid token");
    }
    var id := found.value;
    if password != confirm {
      return Detail(400, "Passwords do not match");
    }
    store.SaveUser(id, store.users.rows[id].(password := PasswordFor(password)));
    store.SaveProfile(id, store.profiles[id].(emailToken := None));
    resp := Message(200, "Password updated successfully");
  }

  /** A reset token works once. */
  lemma {:induction false} ResetOnce(s: AccountState, token: string, p: Option<string>, q: Option<string>)
    requires ValidState(s) && ProfileWithToken(s, token).Some?
    ensures ResetPassword(s, token, p, p).response.status == 200
    ensures ResetPassword(ResetPassword(s, token, p, p).state, token, q, q).response == Detail(400, "Invalid token")
  {
    var id := ProfileWithToken(s, token).value;
    var r := ResetPassword(s, token, p, p);
    ClearedTokenIsGone(AccountState(r.state.users, s.profiles), id, token, s.profiles[id].(emailToken := None));
  }

  /** After a successful reset exactly the new password authenticates the user. */
  lemma ResetSetsPassword(s: AccountState, token: string, p: string, attempt: Option<string>)
    requires ValidState(s) && ProfileWithToken(s, token).Some?
    ensures var id := ProfileWithToken(s, token).value;
      Authenticates(ResetPassword(s, token, Some(p), Some(p)).state.users.rows[id].password, attempt) <==> attempt == Some(p)
  {
  }

  /** A mismatch keeps the token usable: the same link still reaches the same profile. */
  lemma ResetMismatchKeepsToken(s: AccountState, token: string, p: Option<string>, q: Option<string>)
    requires ValidState(s) && ProfileWithToken(s, token).Some? && p != q
    ensures ResetPassword(s, token, p, q).state == s
    ensures ProfileWithToken(ResetPassword(s, token, p, q).state, token) == ProfileWithToken(s, token)
  {
  }

  /** A reset request that carries neither password succeeds and leaves the account with
      an unusable password: no attempt authenticates afterwards. */
  lemma ResetWithoutPasswords(s: AccountState, token: string, attempt: Option<string>)
    requires ValidState(s) && ProfileWithToken(s, token).Some?
    ensures ResetPassword(s, token, None, None).response.status == 200
    ensures !Authenticates(ResetPassword(s, token, None, None).state.users.rows[ProfileWithToken(s, token).value].password, attempt)
  {
  }

  // ---------------------------------------------------------------------------
  // RegisterAPI.post
  // ---------------------------------------------------------------------------

  function ErrorBody(errors: seq<FieldError>): (r: seq<(string, string)>)
    ensures |r| == |errors|
    ensures forall i :: 0 <= i < |r| ==> r[i] == (errors[i].field, errors[i].message)
  {
    if errors == [] then [] else [(errors[0].field, errors[0].message)] + ErrorBody(errors[1..])
  }

  const Created := "Account created. Check email to activate."

  /** `RegisterAPI.post` as written: a new user with the lower-cased email and the given
      password, an unverified profile holding the fresh token, 201, and two activation
      mails. The first comes from `create` with the fresh token; the second is built from
      `user.profile`, the unsaved profile object the creation hook left on the user, whose
      token is still None. A rejected registration changes nothing. */
  function Register(s: AccountState, d: RegisterInput, token: string): (r: Outcome)
    requires ValidState(s) && RandomToken(token) && TokenUnused(s.profiles, token)
    ensures ValidState(r.state)
    ensures r.response.status == 201 <==> IsValid(s.users, d).Accepted?
    ensures r.response.status != 201 ==> r.state == s && r.mails == []
    ensures IsValid(s.users, d).MissingEmail? ==> r.response.status == 500
    ensures IsValid(s.users, d).FieldsInvalid? ==> r.response == Response(400, ErrorBody(IsValid(s.users, d).errors), None)
    ensures IsValid(s.users, d).Conflict? ==> r.response == Response(400, [(IsValid(s.users, d).error.field, IsValid(s.users, d).error.message)], None)
    ensures IsValid(s.users, d).Accepted? ==>
      var a := IsValid(s.users, d).data;
      var id := s.users.next;
      r.state.users.rows == s.users.rows[id := User(a.username, a.firstName, a.lastName, a.email.value, Secret(a.password))] &&
      r.state.profiles == s.profiles[id := Profile(false, Some(token))] &&
      r.response == Message(201, Created) &&
      r.mails == [Activation(a.email.value, Some(token)), Activation(a.email.value, None)]
  {
    match IsValid(s.users, d)
    case FieldsInvalid(errors) => Outcome(s, Response(400, ErrorBody(errors), None), [])
    case MissingEmail => Outcome(s, Response(500, [], None), [])
    case Conflict(e) => Outcome(s, Response(400, [(e.field, e.message)], None), [])
    case Accepted(a) =>
      AcceptedIsFresh(s.users, d);
      var id := s.users.next;
      var user := User(a.username, a.firstName, a.lastName, a.email.value, Secret(a.password));
      var s' := AccountState(Insert(s.users, user), s.profiles[id := Profile(false, Some(token))]);
      assert ValidState(s');
      Outcome(s', Message(201, Created), [Activation(a.email.value, Some(token)), Activation(a.email.value, None)])
  }

  method RegisterApi(store: AccountStore, d: RegisterInput, token: string) returns (resp: Response, mails: seq<Email>)
    requires store.Valid() && RandomToken(token) && TokenUnused(store.profiles, token)
    modifies store
    ensures store.Valid()
    ensures Register(old(store.State()), d, token) == Outcome(store.State(), resp, mails)
  {
    var verdict := IsValid(store.users, d);
    match verdict {
      case FieldsInvalid(errors) =>
        return Response(400, ErrorBody(errors), None), [];
      case MissingEmail =>
        return Response(500, [], None), [];
      case Conflict(e) =>
        return Response(400, [(e.field, e.message)], None), [];
      case Accepted(a) =>
        AcceptedIsFresh(store.users, d);
        var id, first := Create(store, a, token);
        // `user.profile` is the object the creation hook cached; its token is None.
        var cached := NewProfile;
        mails := [first, Activation(a.email.value, cached.emailToken)];
        resp := Message(201, Created);
    }
  }

  /** The second mail of a registration links to no token at all, so it cannot activate
      anything, while the first one does. */
  lemma {:induction false} SecondActivationMailIsDead(s: AccountState, d: RegisterInput, token: string)
    requires ValidState(s) && RandomToken(token) && TokenUnused(s.profiles, token)
    requires IsValid(s.users, d).Accepted?
    ensures var r := Register(s, d, token);
      |r.mails| == 2 && r.mails[1].Activation? && r.mails[1].token.None? &&
      r.mails[0].Activation? && r.mails[0].token == Some(token) &&
      Activate(r.state, token).response.status == 200
  {
    var r := Register(s, d, token);
    ProfileWithTokenUnique(r.state, token, s.users.next);
  }

  /** The corrected registration: both mails carry the token that was stored. */
  function RegisterStoredToken(s: AccountState, d: RegisterInput, token: string): (r: Outcome)
    requires ValidState(s) && RandomToken(token) && TokenUnused(s.profiles, token)
    ensures ValidState(r.state)
    ensures r.state == Register(s, d, token).state && r.response == Register(s, d, token).response
    ensures r.response.status != 201 ==> r.mails == []
  {
    var w := Register(s, d, token);
    if w.response.status == 201 then
      Outcome(w.state, w.response, [Activation(IsValid(s.users, d).data.email.value, Some(token)),
                                    Activation(IsValid(s.users, d).data.email.value, Some(token))])
    else w
  }

  /** With the correction every activation mail of a registration activates the new
      account. */
  lemma {:induction false} EveryActivationMailWorks(s: AccountState, d: RegisterInput, token: string, i: nat)
    requires ValidState(s) && RandomToken(token) && TokenUnused(s.profiles, token)
    requires i < |RegisterStoredToken(s, d, token).mails|
    ensures var r := RegisterStoredToken(s, d, token);
      r.mails[i].Activation? && r.mails[i].token.Some? &&
      Activate(r.state, r.mails[i].token.value).response.status == 200 &&
      Activate(r.state, r.mails[i].token.value).state.profiles[s.users.next].isEmailVerified
  {
    var r := RegisterStoredToken(s, d, token);
    ProfileWithTokenUnique(r.state, token, s.users.next);
  }

  /** A freshly registered account cannot log in before it is activated: logging in
      with its email answers 403 even with the right password. */
  lemma {:induction false} RegisteredNeedsActivation(s: AccountState, d: RegisterInput, token: string)
    requires ValidState(s) && RandomToken(token) && TokenUnused(s.profiles, token)
    requires IsValid(s.users, d).Accepted?
    ensures var r := Register(s, d, token);
      var a := IsValid(s.users, d).data;
      LoginTarget(r.state, a.email) == Some(s.users.next) &&
      LoginResponse(r.state, LoginDecision(r.state, a.email, d.password)).status == 403
  {
    var r := Register(s, d, token);
    var a := IsValid(s.users, d).data;
    var id := s.users.next;
    assert r.state.users.rows[id].email == a.email.value;
    var t := LoginTarget(r.state, a.email);
    assert t.Some? && r.state.users.rows[t.value].email == a.email.value;
    assert t.value == id;
  }
}
