/**
 * The form-based account views of accounts/views.py: `login_page`, `register_page`,
 * `activate_email_account` and `delete_account`. Each view is a function from the
 * tables and the form fields to the new tables and the view's outcome, and a method
 * that performs the source's ORM steps in order. Flash messages and redirect targets
 * are folded into the outcome.
 */
module AuthViews {
  import opened Web
  import opened Tables
  import opened Activity
  import opened Accounts
  import opened Serializers
  import opened Api
  import opened Shop

  // ---------------------------------------------------------------------------
  // login_page
  // ---------------------------------------------------------------------------

  /** The outcomes of `login_page`: the form is rendered (not a POST); no user with the
      username; the user is not verified; `authenticate` refused; the user is logged
      in. */
  datatype PageLogin = LoginForm | AccountNotFound | EmailNotVerified(id: UserId) | InvalidCredentials(id: UserId) | SignedIn(id: UserId)

  /** The decision of `login_page`: the user is looked up by username only; a missing
      user, then a missing verification, then a refused password stop it. */
  function LoginPage(s: AccountState, posted: bool, username: Option<string>, password: Option<string>): (r: PageLogin)
    requires ValidState(s)
    ensures r == LoginForm <==> !posted
    ensures r == AccountNotFound <==> posted && forall k :: k in s.users.rows ==> Some(s.users.rows[k].username) != username
    ensures !r.LoginForm? && !r.AccountNotFound? ==> r.id in s.users.rows && Some(s.users.rows[r.id].username) == username
    ensures r.EmailNotVerified? ==> !s.profiles[r.id].isEmailVerified
    ensures r.InvalidCredentials? ==> s.profiles[r.id].isEmailVerified && !Authenticates(s.users.rows[r.id].password, password)
    ensures r.SignedIn? ==> s.profiles[r.id].isEmailVerified && Authenticates(s.users.rows[r.id].password, password)
  {
    if !posted then LoginForm
    else
      match First(s.users, UsernameIs(username))
      case None => AccountNotFound
      case Some(id) =>
        if !s.profiles[id].isEmailVerified then EmailNotVerified(id)
        else if !Authenticates(s.users.rows[id].password, password) then InvalidCredentials(id)
        else SignedIn(id)
  }

  /** `login_page(request)`. `authenticate(username=..., password=...)` finds the same
      user by the same exact username, so it succeeds exactly when the password matches
      that user's credential. A successful login writes its activity row. */
  method LoginPageView(store: AccountStore, log: ActivityLog, req: Request, username: Option<string>, password: Option<string>)
    returns (outcome: PageLogin)
    requires store.Valid()
    modifies log
    ensures outcome == LoginPage(store.State(), req.verb == "POST", username, password)
    ensures log.rows == if outcome.SignedIn? then old(log.rows) + [LoginRow(req, outcome.id)] else old(log.rows)
  {
    if req.verb != "POST" {
      return LoginForm;
    }
    var user := First(store.users, UsernameIs(username));
    if user.None? {
      return AccountNotFound;
    }
    var id := user.value;
    if !store.profiles[id].isEmailVerified {
      return EmailNotVerified(id);
    }
    if !Authenticates(store.users.rows[id].password, password) {
      return InvalidCredentials(id);
    }
    LogUserLogin(log, req, id);
    outcome := SignedIn(id);
  }

  /** An unverified user is refused the same way whatever password is sent. */
  lemma UnverifiedPageLoginIgnoresPassword(s: AccountState, id: UserId, p: Option<string>, q: Option<string>)
    requires ValidState(s) && id in s.users.rows && !s.profiles[id].isEmailVerified
    ensures LoginPage(s, true, Some(s.users.rows[id].username), p) == EmailNotVerified(id)
    ensures LoginPage(s, true, Some(s.users.rows[id].username), q) == EmailNotVerified(id)
  {
    FirstByUsername(s.users, s.users.rows[id].username, id);
  }

  /** The login page knows users by username only: an email that no one uses as a
      username is an unknown account there, while the JSON login endpoint finds its
      owner. */
  lemma PageLoginIgnoresEmail(s: AccountState, id: UserId, p: Option<string>)
    requires ValidState(s) && id in s.users.rows
    requires forall k :: k in s.users.rows ==> s.users.rows[k].username != s.users.rows[id].email
    ensures LoginPage(s, true, Some(s.users.rows[id].email), p) == AccountNotFound
    ensures LoginTarget(s, Some(s.users.rows[id].email)) == Some(id)
  {
    var r := LoginTarget(s, Some(s.users.rows[id].email));
    assert r.Some? && s.users.rows[r.value].email == s.users.rows[id].email;
  }

  /** The outcome of the JSON login endpoint, named as the login page names it. */
  function AsPageLogin(o: LoginOutcome): PageLogin
  {
    match o
    case UnknownIdentifier => AccountNotFound
    case Unverified(id) => EmailNotVerified(id)
    case WrongPassword(id) => InvalidCredentials(id)
    case LoggedIn(id) => SignedIn(id)
  }

  /** For a username that is nobody's email, the login page and the JSON login endpoint
      decide alike. */
  lemma {:induction false} PageAndEndpointAgree(s: AccountState, name: string, p: Option<string>)
    requires ValidState(s)
    requires forall k :: k in s.users.rows ==> s.users.rows[k].email != name
    ensures AsPageLogin(LoginDecision(s, Some(name), p)) == LoginPage(s, true, Some(name), p)
  {
    assert First(s.users, EmailIs(Some(name))).None?;
    assert LoginTarget(s, Some(name)) == First(s.users, UsernameIs(Some(name)));
  }

  // ---------------------------------------------------------------------------
  // register_page
  // ---------------------------------------------------------------------------

  /** The POST fields of the registration form; `request.POST.get` gives None for a
      field that was not posted. */
  datatype RegisterForm = RegisterForm(username: Option<string>, firstName: Option<string>,
                                       lastName: Option<string>, email: Option<string>,
                                       password: Option<string>)

  /** Every column `User.objects.create` fills was posted. The four columns are NOT
      NULL, so a missing one makes the insert fail; a missing password is allowed
      (`set_password(None)`). */
  predicate Complete(f: RegisterForm)
  {
    f.username.Some? && f.firstName.Some? && f.lastName.Some? && f.email.Some?
  }

  /** The outcomes of `register_page`. `CreateFailed` is the IntegrityError that
      `User.objects.create` raises on a missing field: a server error, with no row
      written. */
  datatype PageRegister = RegisterFormShown | UsernameExists | EmailExists | CreateFailed | VerificationSent(id: UserId)

  datatype ViewStep<T> = ViewStep(state: AccountState, outcome: T, mails: seq<Email>)

  /** What `str(uuid.uuid4())` returns: 36 characters, lower-case hexadecimal digits in
      groups of 8-4-4-4-12 separated by hyphens, version digit 4, variant digit one of
      8, 9, a, b. */
  predicate UuidText(t: string)
  {
    |t| == 36 &&
    (forall i :: 0 <= i < 36 ==> if i == 8 || i == 13 || i == 18 || i == 23 then t[i] == '-'
                                  else ('0' <= t[i] <= '9' || 'a' <= t[i] <= 'f')) &&
    t[14] == '4' && (t[19] == '8' || t[19] == '9' || t[19] == 'a' || t[19] == 'b')
  }

  /** The form's tokens and the JSON endpoints' tokens never collide: a UUID holds
      hyphens, a 50-character random string does not. */
  lemma UuidIsNotRandomToken(t: string)
    requires UuidText(t)
    ensures !RandomToken(t)
  {
    assert t[8] == '-';
  }

  /** The user `register_page` creates from the form. */
  function FormUser(f: RegisterForm): User
    requires Complete(f)
  {
    User(f.username.value, f.firstName.value, f.lastName.value, f.email.value, PasswordFor(f.password))
  }

  /** `register_page`: a taken username is reported before a taken email, both matched
      exactly; either stops the view with no change. A field that was not posted
      matches no row (`filter(username=None)` is an IS NULL test on a NOT NULL column)
      and then makes the insert fail, again with no change. Otherwise one user with the
      form's fields is created, its profile (created by the signal) gets the token and
      stays unverified, and one activation mail carries that token. */
  function RegisterPage(s: AccountState, posted: bool, f: RegisterForm, token: string): (r: ViewStep<PageRegister>)
    requires ValidState(s) && TokenUnused(s.profiles, token)
    ensures ValidState(r.state)
    ensures !r.outcome.VerificationSent? ==> r.state == s && r.mails == []
    ensures r.outcome == RegisterFormShown <==> !posted
    ensures r.outcome == UsernameExists <==>
      posted && exists k :: k in s.users.rows && Some(s.users.rows[k].username) == f.username
    ensures r.outcome == EmailExists <==>
      (posted && (forall k :: k in s.users.rows ==> Some(s.users.rows[k].username) != f.username) &&
       exists k :: k in s.users.rows && Some(s.users.rows[k].email) == f.email)
    ensures r.outcome == CreateFailed <==>
      (posted && !Complete(f) &&
       forall k :: k in s.users.rows ==> Some(s.users.rows[k].username) != f.username && Some(s.users.rows[k].email) != f.email)
    ensures r.outcome.VerificationSent? ==>
      (Complete(f) && r.outcome.id == s.users.next && r.outcome.id !in s.users.rows &&
       r.state.users == Insert(s.users, FormUser(f)) &&
       r.state.profiles == s.profiles[r.outcome.id := Profile(false, Some(token))] &&
       r.mails == [Activation(f.email.value, Some(token))])
  {
    if !posted then ViewStep(s, RegisterFormShown, [])
    else if First(s.users, UsernameIs(f.username)).Some? then ViewStep(s, UsernameExists, [])
    else if First(s.users, EmailIs(f.email)).Some? then
      assert forall k :: k in s.users.rows ==> !UsernameIs(f.username)(s.users.rows[k]);
      ViewStep(s, EmailExists, [])
    else
      assert forall k :: k in s.users.rows ==> !UsernameIs(f.username)(s.users.rows[k]);
      assert forall k :: k in s.users.rows ==> !EmailIs(f.email)(s.users.rows[k]);
      if !Complete(f) then ViewStep(s, CreateFailed, [])
      else ViewStep(NewAccount(s, f, token), VerificationSent(s.users.next), [Activation(f.email.value, Some(token))])
  }

  /** The tables after `register_page` has created the account: one more user, holding
      the form's fields, and its unverified profile holding the token. */
  function NewAccount(s: AccountState, f: RegisterForm, token: string): (r: AccountState)
    requires ValidState(s) && TokenUnused(s.profiles, token) && Complete(f)
    requires forall k :: k in s.users.rows ==> Some(s.users.rows[k].username) != f.username && Some(s.users.rows[k].email) != f.email
    ensures ValidState(r)
    ensures r.users == Insert(s.users, FormUser(f)) && r.profiles == s.profiles[s.users.next := Profile(false, Some(token))]
  {
    var r := AccountState(Insert(s.users, FormUser(f)), s.profiles[s.users.next := Profile(false, Some(token))]);
    assert ValidState(r);
    r
  }

  /** `register_page(request)` with the token `uuid.uuid4()` produced. The user is
      created without a password (the signals add the profile), then `set_password`
      and `save` (the signal re-saves the profile unchanged), then the profile is
      fetched, given the token and saved, and the mail is sent. */
  method RegisterPageView(store: AccountStore, posted: bool, f: RegisterForm, token: string)
    returns (outcome: PageRegister, mails: seq<Email>)
    requires store.Valid() && UuidText(token) && TokenUnused(store.profiles, token)
    modifies store
    ensures store.Valid()
    ensures RegisterPage(old(store.State()), posted, f, token) == ViewStep(store.State(), outcome, mails)
  {
    if !posted {
      return RegisterFormShown, [];
    }
    if First(store.users, UsernameIs(f.username)).Some? {
      return UsernameExists, [];
    }
    if First(store.users, EmailIs(f.email)).Some? {
      return EmailExists, [];
    }
    if !Complete(f) {
      // the failed insert writes nothing and no signal fires
      return CreateFailed, [];
    }
    var id, sent := CreateAccount(store, f, token);
    mails := [Activation(f.email.value, sent)];
    outcome := VerificationSent(id);
  }

  /** The creation steps of `register_page`; `sent` is the token the mail carries. */
  method CreateAccount(store: AccountStore, f: RegisterForm, token: string) returns (id: UserId, sent: Option<string>)
    requires store.Valid() && TokenUnused(store.profiles, token) && Complete(f)
    requires forall k :: k in store.users.rows ==> Some(store.users.rows[k].username) != f.username && Some(store.users.rows[k].email) != f.email
    modifies store
    ensures store.Valid()
    ensures id == old(store.users.next) && sent == Some(token)
    ensures store.State() == NewAccount(old(store.State()), f, token)
  {
    ghost var rows0: map<nat, User> := store.users.rows;
    ghost var profiles0: map<UserId, Profile> := store.profiles;
    var bare := User(f.username.value, f.firstName.value, f.lastName.value, f.email.value, Unusable);
    id := store.CreateUser(bare);
    store.SaveUser(id, FormUser(f));
    assert store.users.rows == rows0[id := bare][id := FormUser(f)];
    UpdateTwice(rows0, id, bare, FormUser(f));
    var profile := store.profiles[id];
    profile := profile.(emailToken := Some(token));
    store.SaveProfile(id, profile);
    assert store.profiles == profiles0[id := NewProfile][id := Profile(false, Some(token))];
    UpdateTwice(profiles0, id, NewProfile, Profile(false, Some(token)));
    sent := profile.emailToken;
  }

  /** A username and an email both taken: the username is the one reported. */
  lemma {:induction false} UsernameReportedFirst(s: AccountState, f: RegisterForm, token: string, a: UserId, b: UserId)
    requires ValidState(s) && TokenUnused(s.profiles, token)
    requires a in s.users.rows && Some(s.users.rows[a].username) == f.username
    requires b in s.users.rows && Some(s.users.rows[b].email) == f.email
    ensures RegisterPage(s, true, f, token) == ViewStep(s, UsernameExists, [])
  {
    assert exists k :: k in s.users.rows && Some(s.users.rows[k].username) == f.username;
  }

  /** Emails are compared exactly: an address that differs from a stored one only in
      case registers a second account. */
  lemma {:induction false} EmailCaseMatters(s: AccountState, f: RegisterForm, token: string)
    requires ValidState(s) && TokenUnused(s.profiles, token) && Complete(f)
    requires forall k :: k in s.users.rows ==> Some(s.users.rows[k].username) != f.username && Some(s.users.rows[k].email) != f.email
    ensures RegisterPage(s, true, f, token).outcome == VerificationSent(s.users.next)
  {
  }

  /** A form posted without a username, whose email (if any) is free, gets past both
      duplicate checks and fails at the insert: a server error that changes nothing
      and sends no mail. */
  lemma {:induction false} MissingUsernameFails(s: AccountState, f: RegisterForm, token: string)
    requires ValidState(s) && TokenUnused(s.profiles, token)
    requires f.username.None?
    requires forall k :: k in s.users.rows ==> Some(s.users.rows[k].email) != f.email
    ensures RegisterPage(s, true, f, token) == ViewStep(s, CreateFailed, [])
  {
    assert forall k :: k in s.users.rows ==> Some(s.users.rows[k].username) != f.username;
  }

  /** Submitting the same form twice creates one account: the second time the username
      is taken. */
  lemma {:induction false} RegisterTwice(s: AccountState, f: RegisterForm, token: string, token2: string)
    requires ValidState(s) && TokenUnused(s.profiles, token)
    requires RegisterPage(s, true, f, token).outcome.VerificationSent?
    requires TokenUnused(RegisterPage(s, true, f, token).state.profiles, token2)
    ensures var r := RegisterPage(s, true, f, token);
      RegisterPage(r.state, true, f, token2) == ViewStep(r.state, UsernameExists, [])
  {
    var r := RegisterPage(s, true, f, token);
    assert Some(r.state.users.rows[s.users.next].username) == f.username;
  }

  // ---------------------------------------------------------------------------
  // activate_email_account
  // ---------------------------------------------------------------------------

  /** The outcomes of `activate_email_account`: no profile with the token; the profile
      was already verified; it is verified now; several profiles hold the token (the
      exception of `get`, which the view does not catch). */
  datatype PageActivation = InvalidLink | AlreadyVerified(id: UserId) | Verified(id: UserId) | TokenAmbiguous

  /** The Profile table as a table: profile keys are user keys. */
  function ProfileTable(s: AccountState): (t: Table<Profile>)
    requires ValidState(s)
    ensures Wf(t) && t.rows == s.profiles
  {
    Table(s.profiles, s.users.next)
  }

  /** With unique tokens, `Profile.objects.get(email_token=t)` never finds several. */
  lemma {:induction false} TokenLookupNeverAmbiguous(s: AccountState, token: string)
    requires ValidState(s)
    ensures Get(ProfileTable(s), TokenIs(token)) != MultipleObjectsReturned
  {
    var t := ProfileTable(s);
    if (exists k :: k in t.rows && TokenIs(token)(t.rows[k])) {
      var k :| k in t.rows && TokenIs(token)(t.rows[k]);
      assert forall j :: j in t.rows && TokenIs(token)(t.rows[j]) ==> j == k;
    }
  }

  /** `activate_email_account`: the profile holding the token is looked up with `get`;
      an unknown token changes nothing, an already verified profile is left as it is
      (token included), otherwise the profile is verified and its token cleared. */
  function ActivatePage(s: AccountState, token: string): (r: ViewStep<PageActivation>)
    requires ValidState(s)
    ensures ValidState(r.state) && r.mails == [] && r.state.users == s.users
    ensures r.outcome != TokenAmbiguous
    ensures r.outcome == InvalidLink <==> forall k :: k in s.profiles ==> s.profiles[k].emailToken != Some(token)
    ensures !r.outcome.Verified? ==> r.state == s
    ensures r.outcome.AlreadyVerified? || r.outcome.Verified? ==>
      (r.outcome.id in s.profiles && s.profiles[r.outcome.id].emailToken == Some(token) &&
       (r.outcome.Verified? <==> !s.profiles[r.outcome.id].isEmailVerified))
    ensures r.outcome.Verified? ==>
      r.state.profiles == s.profiles[r.outcome.id := Profile(true, None)]
  {
    TokenLookupNeverAmbiguous(s, token);
    match Get(ProfileTable(s), TokenIs(token))
    case DoesNotExist => ViewStep(s, InvalidLink, [])
    case MultipleObjectsReturned => ViewStep(s, TokenAmbiguous, [])
    case Found(id) =>
      if s.profiles[id].isEmailVerified then ViewStep(s, AlreadyVerified(id), [])
      else
        var s' := AccountState(s.users, s.profiles[id := s.profiles[id].(isEmailVerified := true, emailToken := None)]);
        assert ValidState(s');
        ViewStep(s', Verified(id), [])
  }

  /** `activate_email_account(request, email_token)`. */
  method ActivatePageView(store: AccountStore, token: string) returns (outcome: PageActivation)
    requires store.Valid()
    modifies store
    ensures store.Valid()
    ensures ActivatePage(old(store.State()), token) == ViewStep(store.State(), outcome, [])
  {
    var found := Get(ProfileTable(store.State()), TokenIs(token));
    if found.DoesNotExist? {
      return InvalidLink;
    }
    if found.MultipleObjectsReturned? {
      TokenLookupNeverAmbiguous(store.State(), token);
      return TokenAmbiguous;
    }
    var id := found.key;
    var profile := store.profiles[id];
    if profile.isEmailVerified {
      return AlreadyVerified(id);
    }
    profile := profile.(isEmailVerified := true);
    profile := profile.(emailToken := None);
    store.SaveProfile(id, profile);
    outcome := Verified(id);
  }

  /** An activation link works once: the second visit finds no profile with it. */
  lemma {:induction false} ActivatePageOnce(s: AccountState, token: string, id: UserId)
    requires ValidState(s) && id in s.profiles && s.profiles[id].emailToken == Some(token)
    requires !s.profiles[id].isEmailVerified
    ensures ActivatePage(s, token).outcome == Verified(id)
    ensures ActivatePage(ActivatePage(s, token).state, token).outcome == InvalidLink
  {
    var r := ActivatePage(s, token);
    ClearedTokenIsGone(s, r.outcome.id, token, Profile(true, None));
    ProfileWithTokenUnique(r.state, token, id);
  }

  /** Registration, activation and login in sequence: the new account cannot log in
      before its link is opened, and logs in with its password afterwards. */
  lemma {:induction false} RegisterActivateLogin(s: AccountState, f: RegisterForm, token: string)
    requires ValidState(s) && TokenUnused(s.profiles, token)
    requires RegisterPage(s, true, f, token).outcome.VerificationSent?
    ensures var r := RegisterPage(s, true, f, token);
      var id := r.outcome.id;
      LoginPage(r.state, true, f.username, f.password) == EmailNotVerified(id) &&
      ActivatePage(r.state, token).outcome == Verified(id) &&
      LoginPage(ActivatePage(r.state, token).state, true, f.username, f.password) ==
        (if f.password.Some? then SignedIn(id) else InvalidCredentials(id))
  {
    var r := RegisterPage(s, true, f, token);
    var id := r.outcome.id;
    FirstByUsername(r.state.users, f.username.value, id);
    ActivatePageOnce(r.state, token, id);
    var a := ActivatePage(r.state, token);
    FirstByUsername(a.state.users, f.username.value, id);
    PasswordForAuthenticates(f.password, f.password);
  }

  /** A verified user's reset link survives the activation page: the page leaves the
      token in place and the reset endpoint still accepts it. The JSON activation
      endpoint, by contrast, consumes it. */
  lemma {:induction false} ActivationPageKeepsResetToken(s: AccountState, email: string, token: string, p: string)
    requires ValidState(s) && TokenUnused(s.profiles, token)
    requires First(s.users, EmailIs(Some(email))).Some?
    requires s.profiles[First(s.users, EmailIs(Some(email))).value].isEmailVerified
    ensures var f := ForgotPassword(s, Some(email), token).state;
      ActivatePage(f, token).state == f &&
      ResetPassword(ActivatePage(f, token).state, token, Some(p), Some(p)).response.status == 200 &&
      ResetPassword(Activate(f, token).state, token, Some(p), Some(p)).response == Detail(400, "Invalid token")
  {
    var id := First(s.users, EmailIs(Some(email))).value;
    var f := ForgotPassword(s, Some(email), token).state;
    assert f.profiles[id].emailToken == Some(token);
    ProfileWithTokenUnique(f, token, id);
    var a := Activate(f, token);
    ClearedTokenIsGone(f, id, token, Profile(true, None));
  }

  // ---------------------------------------------------------------------------
  // delete_account
  // ---------------------------------------------------------------------------

  /** The outcomes of `delete_account`. */
  datatype PageDelete = NotPosted | AccountDeleted

  /** `delete_account` as a transition of both stores: on a POST the user, its profile
      and its carts, items and orders are deleted; otherwise nothing changes. */
  function DeleteAccount(a: AccountState, c: CartState, posted: bool, user: UserId): (r: (AccountState, CartState, PageDelete))
    requires ValidState(a) && ValidCarts(c)
    ensures ValidState(r.0) && ValidCarts(r.1)
    ensures !posted ==> r == (a, c, NotPosted)
    ensures posted ==> (r.2 == AccountDeleted && r.1 == DeleteUserRows(c, user) &&
      r.0.users == Remove(a.users, user) && r.0.profiles == a.profiles - {user})
  {
    if !posted then (a, c, NotPosted)
    else (AccountState(Remove(a.users, user), a.profiles - {user}), DeleteUserRows(c, user), AccountDeleted)
  }

  /** `delete_account(request)`: `logout` ends the session, then `user.delete()`
      cascades. */
  method DeleteAccountView(accounts: AccountStore, shop: CartStore, posted: bool, user: UserId) returns (outcome: PageDelete)
    requires accounts.Valid() && shop.Valid()
    modifies accounts, shop
    ensures accounts.Valid() && shop.Valid()
    ensures DeleteAccount(old(accounts.State()), old(shop.State()), posted, user) == (accounts.State(), shop.State(), outcome)
  {
    if !posted {
      return NotPosted;
    }
    accounts.DeleteUser(user);
    shop.DeleteRowsOf(user);
    outcome := AccountDeleted;
  }

  /** After a deletion the user is gone from every login path, holds no cart and no
      order, other users' rows are untouched, and the username and email can be
      registered again. */
  lemma {:induction false} DeletedAccountIsGone(a: AccountState, c: CartState, user: UserId, p: Option<string>,
                                                f: RegisterForm, token: string)
    requires ValidState(a) && ValidCarts(c) && user in a.users.rows
    requires Complete(f)
    requires f.username == Some(a.users.rows[user].username) && f.email == Some(a.users.rows[user].email)
    requires TokenUnused(a.profiles, token)
    ensures var r := DeleteAccount(a, c, true, user);
      LoginPage(r.0, true, Some(a.users.rows[user].username), p) == AccountNotFound &&
      LoginTarget(r.0, Some(a.users.rows[user].email)) != Some(user) &&
      (forall k :: k in r.1.carts.rows ==> r.1.carts.rows[k].user != user) &&
      (forall k :: k in r.1.orders.rows ==> r.1.orders.rows[k].user != user) &&
      (forall k :: k in a.users.rows && k != user ==> k in r.0.users.rows && r.0.users.rows[k] == a.users.rows[k]) &&
      RegisterPage(r.0, true, f, token).outcome.VerificationSent?
  {
    var r := DeleteAccount(a, c, true, user);
    forall k | k in r.0.users.rows
      ensures r.0.users.rows[k].username != a.users.rows[user].username
      ensures r.0.users.rows[k].email != a.users.rows[user].email
    {
      assert k != user;
    }
    assert TokenUnused(r.0.profiles, token);
  }
}
