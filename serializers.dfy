/**
 * The REST serializers of the accounts API: field checks and `validate` of
 * `RegisterSerializer`, its `create`, `LoginSerializer.validate`, and the public
 * projection `UserProfileSerializer` makes of a User.
 */
module Serializers {
  import opened Web
  import opened Text
  import opened Tables
  import opened Accounts

  /** One entry of a serializer's error dictionary. */
  datatype FieldError = FieldError(field: string, message: string)

  /** The request body of a registration; a key the client left out is None. */
  datatype RegisterInput = RegisterInput(
    username: Option<string>,
    firstName: Option<string>,
    lastName: Option<string>,
    email: Option<string>,
    password: Option<string>)

  /** The attributes handed to `validate` once every field check passed. Only `email`
      may still be missing: the model's email field is optional. */
  datatype RegisterData = RegisterData(
    username: string,
    firstName: string,
    lastName: string,
    email: Option<string>,
    password: string)

  const Required := "This field is required."
  const Blank := "This field may not be blank."
  const UsernameExists := "A user with that username already exists."
  const EmailRegistered := "This email is already registered."
  const UsernameTaken := "This username is already taken."

  /** Some stored user satisfies `p` (`filter(...).exists()`). */
  predicate AnyUser(users: Table<User>, p: User -> bool)
  {
    exists k :: k in users.rows && p(users.rows[k])
  }

  lemma NoneMatches(users: Table<User>, p: User -> bool, k: nat)
    requires !AnyUser(users, p) && k in users.rows
    ensures !p(users.rows[k])
  {
  }

  /** The checks of a required, non-blank text field. */
  function TextFieldErrors(name: string, v: Option<string>): (r: seq<FieldError>)
    ensures r == [] <==> Truthy(v)
    ensures r != [] ==> r == [FieldError(name, if v.None? then Required else Blank)]
  {
    match v
    case None => [FieldError(name, Required)]
    case Some(s) => if s == "" then [FieldError(name, Blank)] else []
  }

  /** The field-level checks `is_valid` runs before `validate`, fields in the order of
      `Meta.fields`: username is required, non-blank and (by the unique validator the
      model field brings) not yet used; first and last name are required and
      non-blank; email is optional and may be blank; the password is required and
      non-blank. */
  function FieldErrors(users: Table<User>, d: RegisterInput): (r: seq<FieldError>)
    ensures r == [] <==>
      Truthy(d.username) && Truthy(d.firstName) && Truthy(d.lastName) && Truthy(d.password) &&
      !AnyUser(users, UsernameIs(d.username))
    ensures forall i :: 0 <= i < |r| ==> r[i].field in {"username", "first_name", "last_name", "password"}
  {
    var u := if Truthy(d.username) && AnyUser(users, UsernameIs(d.username))
             then [FieldError("username", UsernameExists)]
             else TextFieldErrors("username", d.username);
    u + TextFieldErrors("first_name", d.firstName) + TextFieldErrors("last_name", d.lastName)
      + TextFieldErrors("password", d.password)
  }

  /** What `validate` (and so `is_valid`) concludes. `MissingEmail` is the KeyError that
      `data["email"]` raises when the optional key was left out. */
  datatype Verdict =
    | FieldsInvalid(errors: seq<FieldError>)
    | MissingEmail
    | Conflict(error: FieldError)
    | Accepted(data: RegisterData)

  /** `RegisterSerializer.validate`: the email is lower-cased, a stored user with that
      lower-cased email is a conflict, then a stored user with that username is, and
      otherwise the attributes come back with the email normalised. */
  function Validate(users: Table<User>, d: RegisterData): (r: Verdict)
    ensures r.FieldsInvalid? == false
    ensures r.MissingEmail? <==> d.email.None?
    ensures d.email.Some? && AnyUser(users, EmailIs(Some(Lower(d.email.value)))) ==>
      r == Conflict(FieldError("email", EmailRegistered))
    ensures r.Conflict? && r.error.field == "username" ==>
      d.email.Some? && !AnyUser(users, EmailIs(Some(Lower(d.email.value)))) && AnyUser(users, UsernameIs(Some(d.username)))
    ensures r.Accepted? <==>
      d.email.Some? && !AnyUser(users, EmailIs(Some(Lower(d.email.value)))) && !AnyUser(users, UsernameIs(Some(d.username)))
    ensures r.Accepted? ==> r.data == d.(email := Some(Lower(d.email.value)))
  {
    match d.email
    case None => MissingEmail
    case Some(e) =>
      var email := Lower(e);
      if AnyUser(users, EmailIs(Some(email))) then Conflict(FieldError("email", EmailRegistered))
      else if AnyUser(users, UsernameIs(Some(d.username))) then Conflict(FieldError("username", UsernameTaken))
      else Accepted(d.(email := Some(email)))
  }

  /** `serializer.is_valid()`: every failing field is reported; `validate` runs only when
      none fails. */
  function IsValid(users: Table<User>, d: RegisterInput): (r: Verdict)
    ensures r.FieldsInvalid? <==> FieldErrors(users, d) != []
    ensures r.FieldsInvalid? ==> r.errors == FieldErrors(users, d)
    ensures !r.FieldsInvalid? ==>
      r == Validate(users, RegisterData(d.username.value, d.firstName.value, d.lastName.value, d.email, d.password.value))
  {
    var errors := FieldErrors(users, d);
    if errors != [] then FieldsInvalid(errors)
    else Validate(users, RegisterData(d.username.value, d.firstName.value, d.lastName.value, d.email, d.password.value))
  }

  /** The username conflict of `validate` can never be reported through `is_valid`: the
      field's unique validator has already rejected the same username. */
  lemma UsernameTakenUnreachable(users: Table<User>, d: RegisterInput)
    ensures IsValid(users, d) != Conflict(FieldError("username", UsernameTaken))
  {
    if FieldErrors(users, d) == [] {
      assert d.username == Some(d.username.value);
    }
  }

  /** An email conflict is found on the lower-cased email, whatever its case in the
      request, and is reported even when the username is taken too. */
  lemma EmailConflictFirst(users: Table<User>, d: RegisterData, id: nat)
    requires d.email.Some? && id in users.rows && users.rows[id].email == Lower(d.email.value)
    ensures Validate(users, d) == Conflict(FieldError("email", EmailRegistered))
  {
    assert EmailIs(Some(Lower(d.email.value)))(users.rows[id]);
  }

  /** Registration data that passes `is_valid` names a username and a lower-cased email
      that no stored user holds. */
  lemma AcceptedIsFresh(users: Table<User>, d: RegisterInput)
    requires IsValid(users, d).Accepted?
    ensures var a := IsValid(users, d).data;
      a.email.Some? && a.email.value == Lower(d.email.value) &&
      (forall k :: k in users.rows ==> users.rows[k].username != a.username && users.rows[k].email != a.email.value)
  {
    var a := IsValid(users, d).data;
    forall k | k in users.rows
      ensures users.rows[k].username != a.username && users.rows[k].email != a.email.value
    {
      NoneMatches(users, UsernameIs(Some(a.username)), k);
      NoneMatches(users, EmailIs(a.email), k);
    }
  }

  /** A mail the accounts code dispatches: `send_account_activation_email(to, token)`,
      whose token may be None when the caller passes None, and
      `send_password_reset_email(to, token)`. */
  datatype Email = Activation(to: string, token: Option<string>) | PasswordReset(to: string, resetToken: string)

  /** What `get_random_string(50)` returns: 50 ASCII letters and digits. */
  predicate RandomToken(t: string)
  {
    |t| == 50 && forall i :: 0 <= i < |t| ==> ('a' <= t[i] <= 'z' || 'A' <= t[i] <= 'Z' || '0' <= t[i] <= '9')
  }

  /** `RegisterSerializer.create`: the password is popped from the attributes, the user is
      inserted without it (the signal adds the profile), the password is then set by
      `set_password` and saved; the profile found by `get_or_create` gets the fresh token
      and stays unverified; the activation mail carries that token. */
  method Create(store: AccountStore, a: RegisterData, token: string) returns (id: UserId, mail: Email)
    requires store.Valid() && a.email.Some?
    requires forall k :: k in store.users.rows ==> store.users.rows[k].username != a.username && store.users.rows[k].email != a.email.value
    requires RandomToken(token) && TokenUnused(store.profiles, token)
    modifies store
    ensures store.Valid()
    ensures id == old(store.users.next) && id !in old(store.users.rows)
    ensures store.users.rows == old(store.users.rows)[id := User(a.username, a.firstName, a.lastName, a.email.value, Secret(a.password))]
    ensures store.users.next == id + 1
    ensures store.profiles == old(store.profiles)[id := Profile(false, Some(token))]
    ensures mail == Activation(a.email.value, Some(token))
  {
    var password := a.password;
    ghost var rows0: map<nat, User> := store.users.rows;
    ghost var profiles0: map<UserId, Profile> := store.profiles;
    var bare := User(a.username, a.firstName, a.lastName, a.email.value, Unusable);
    var full := User(a.username, a.firstName, a.lastName, a.email.value, PasswordFor(Some(password)));
    id := store.CreateUser(bare);
    store.SaveUser(id, full);
    assert store.users.rows == rows0[id := bare][id := full];
    UpdateTwice(rows0, id, bare, full);
    store.SaveProfile(id, Profile(false, Some(token)));
    assert store.profiles == profiles0[id := NewProfile][id := Profile(false, Some(token))];
    UpdateTwice(profiles0, id, NewProfile, Profile(false, Some(token)));
    mail := Activation(a.email.value, Some(token));
  }

  // ---------------------------------------------------------------------------
  // LoginSerializer
  // ---------------------------------------------------------------------------

  /** What `LoginSerializer.validate` concludes. `Crash` stands for the exception `get`
      raises when several users share the email, or a user without a profile. */
  datatype LoginVerdict = LoginRejected(error: FieldError) | LoginCrash | LoginAccepted(user: UserId)

  const NoAccount := "No account found with this email."
  const IncorrectPassword := "Incorrect password."
  const VerifyFirst := "Please verify your email before logging in."

  /** `LoginSerializer.validate`: an unknown lower-cased email, then a wrong password,
      then an unverified email are rejected, in that order; otherwise the user is
      attached. */
  function LoginValidate(users: Table<User>, profiles: map<UserId, Profile>, email: string, password: string): (r: LoginVerdict)
    requires Wf(users)
    ensures !AnyUser(users, EmailIs(Some(Lower(email)))) <==> r == LoginRejected(FieldError("email", NoAccount))
    ensures r.LoginAccepted? ==>
      r.user in users.rows && users.rows[r.user].email == Lower(email) &&
      Authenticates(users.rows[r.user].password, Some(password)) &&
      r.user in profiles && profiles[r.user].isEmailVerified
    ensures r == LoginRejected(FieldError("detail", VerifyFirst)) ==>
      exists k :: k in users.rows && users.rows[k].email == Lower(email) && Authenticates(users.rows[k].password, Some(password))
  {
    var e := Some(Lower(email));
    if !AnyUser(users, EmailIs(e)) then LoginRejected(FieldError("email", NoAccount))
    else
      match Get(users, EmailIs(e))
      case Found(id) =>
        if !Authenticates(users.rows[id].password, Some(password)) then LoginRejected(FieldError("password", IncorrectPassword))
        else if id !in profiles then LoginCrash
        else if !profiles[id].isEmailVerified then LoginRejected(FieldError("detail", VerifyFirst))
        else LoginAccepted(id)
      case _ => LoginCrash
  }

  /** In a valid store the serializer's outcome for a known email depends only on that
      user: password first, verification second. */
  lemma LoginValidateOrder(s: AccountState, email: string, password: string, id: UserId)
    requires ValidState(s) && id in s.users.rows && s.users.rows[id].email == Lower(email)
    ensures var r := LoginValidate(s.users, s.profiles, email, password);
      var u := s.users.rows[id];
      (!Authenticates(u.password, Some(password)) ==> r == LoginRejected(FieldError("password", IncorrectPassword))) &&
      (Authenticates(u.password, Some(password)) && !s.profiles[id].isEmailVerified ==> r == LoginRejected(FieldError("detail", VerifyFirst))) &&
      (Authenticates(u.password, Some(password)) && s.profiles[id].isEmailVerified ==> r == LoginAccepted(id))
  {
    var e := Some(Lower(email));
    assert EmailIs(e)(s.users.rows[id]);
    assert forall j :: j in s.users.rows && EmailIs(e)(s.users.rows[j]) ==> j == id;
    assert Get(s.users, EmailIs(e)) == Found(id);
  }

  // ---------------------------------------------------------------------------
  // UserProfileSerializer
  // ---------------------------------------------------------------------------

  /** The four fields the profile serializer exposes. */
  datatype UserView = UserView(username: string, firstName: string, lastName: string, email: string)

  function ViewOf(u: User): UserView
  {
    UserView(u.username, u.firstName, u.lastName, u.email)
  }

  /** Two users look the same through the serializer exactly when they differ at most in
      their password: the view carries every field but the password. */
  lemma ViewHidesOnlyPassword(a: User, b: User)
    ensures ViewOf(a) == ViewOf(b) <==> a.(password := b.password) == b
  {
  }
}
