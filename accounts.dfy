/**
 * The account store: the User and Profile tables, the ORM operations the views use
 * on them, and the hooks of accounts/signals.py (a Profile is created together with
 * its User; re-saving a User adds none; each login writes an activity row).
 */
module Accounts {
  import opened Web
  import opened Tables
  import opened Activity

  /** The stored password. Hashing is opaque: a credential either is unusable (what
      `set_password(None)` or a bare `User.objects.create` leaves) or accepts exactly one
      password. */
  datatype Credential = Unusable | Secret(raw: string)

  /** `user.set_password(p)`. */
  function PasswordFor(p: Option<string>): (c: Credential)
    ensures c.Secret? <==> p.Some?
    ensures c.Secret? ==> c.raw == p.value
  {
    match p
    case None => Unusable
    case Some(s) => Secret(s)
  }

  /** `authenticate(...)` / `check_password(...)` for a user with this credential: a
      missing password never authenticates, an unusable credential accepts nothing. */
  predicate Authenticates(c: Credential, attempt: Option<string>)
  {
    c.Secret? && attempt == Some(c.raw)
  }

  /** After `set_password(p)` exactly the attempt `p` authenticates (and nothing does when
      `p` is None). */
  lemma PasswordForAuthenticates(p: Option<string>, attempt: Option<string>)
    ensures Authenticates(PasswordFor(p), attempt) <==> p.Some? && attempt == p
  {
  }

  datatype User = User(username: string, firstName: string, lastName: string, email: string,
                       password: Credential)

  /** `email_token` is shared by account activation and password reset. */
  datatype Profile = Profile(isEmailVerified: bool, emailToken: Option<string>)

  /** The Profile that `create_user_profile` inserts: unverified, no token. */
  const NewProfile := Profile(false, None)

  /** Row filters `username=n`, `email=e`, `email_token=t`; a None value matches nothing. */
  function UsernameIs(n: Option<string>): User -> bool
  {
    (u: User) => n == Some(u.username)
  }

  function EmailIs(e: Option<string>): User -> bool
  {
    (u: User) => e == Some(u.email)
  }

  function TokenIs(t: string): Profile -> bool
  {
    (p: Profile) => p.emailToken == Some(t)
  }

  ghost predicate UniqueUsernames(m: map<nat, User>)
  {
    forall a, b :: a in m && b in m && m[a].username == m[b].username ==> a == b
  }

  ghost predicate UniqueEmails(m: map<nat, User>)
  {
    forall a, b :: a in m && b in m && m[a].email == m[b].email ==> a == b
  }

  ghost predicate UniqueTokens(m: map<nat, Profile>)
  {
    forall a, b :: a in m && b in m && m[a].emailToken.Some? && m[a].emailToken == m[b].emailToken ==> a == b
  }

  /** No profile holds `t`; fresh random tokens are assumed to satisfy this. */
  predicate TokenUnused(m: map<nat, Profile>, t: string)
  {
    forall id :: id in m ==> m[id].emailToken != Some(t)
  }

  /** With unique usernames, `filter(username=n).first()` is the user named `n`. */
  lemma FirstByUsername(users: Table<User>, n: string, id: nat)
    requires Wf(users) && UniqueUsernames(users.rows)
    ensures First(users, UsernameIs(Some(n))) == Some(id) <==> id in users.rows && users.rows[id].username == n
  {
    assert AtMostOne(users.rows, UsernameIs(Some(n)));
    FirstOfUnique(users, UsernameIs(Some(n)), id);
  }

  /** With unique emails, `filter(email=e).first()` is the user whose email is `e`. */
  lemma FirstByEmail(users: Table<User>, e: string, id: nat)
    requires Wf(users) && UniqueEmails(users.rows)
    ensures First(users, EmailIs(Some(e))) == Some(id) <==> id in users.rows && users.rows[id].email == e
  {
    assert AtMostOne(users.rows, EmailIs(Some(e)));
    FirstOfUnique(users, EmailIs(Some(e)), id);
  }

  /** With unique tokens, the profile lookup by token finds the one profile holding it. */
  lemma FirstByToken(profiles: map<nat, Profile>, bound: nat, t: string, id: nat)
    requires UniqueTokens(profiles) && forall k :: k in profiles ==> k < bound
    ensures FirstBelow(profiles, TokenIs(t), bound) == Some(id) <==> id in profiles && profiles[id].emailToken == Some(t)
  {
    assert AtMostOne(profiles, TokenIs(t));
    FirstOfUnique(Table(profiles, bound), TokenIs(t), id);
  }

  /** The two account tables together. */
  datatype AccountState = AccountState(users: Table<User>, profiles: map<UserId, Profile>)

  /** Every user has exactly one profile; usernames, emails and pending tokens are
      unique. */
  ghost predicate ValidState(s: AccountState)
  {
    Wf(s.users) && s.profiles.Keys == s.users.rows.Keys &&
    UniqueUsernames(s.users.rows) && UniqueEmails(s.users.rows) && UniqueTokens(s.profiles)
  }

  /** `Profile.objects.filter(email_token=t).first()`. */
  function ProfileWithToken(s: AccountState, t: string): (r: Option<UserId>)
    requires ValidState(s)
    ensures r.Some? <==> exists k :: k in s.profiles && s.profiles[k].emailToken == Some(t)
    ensures r.Some? ==> r.value in s.profiles && s.profiles[r.value].emailToken == Some(t)
  {
    var r := FirstBelow(s.profiles, TokenIs(t), s.users.next);
    if r.None? then
      assert forall k :: k in s.profiles ==> !TokenIs(t)(s.profiles[k]);
      r
    else r
  }

  /** The profile holding `t` is the only one holding it. */
  lemma ProfileWithTokenUnique(s: AccountState, t: string, id: UserId)
    requires ValidState(s)
    ensures ProfileWithToken(s, t) == Some(id) <==> id in s.profiles && s.profiles[id].emailToken == Some(t)
  {
    FirstByToken(s.profiles, s.users.next, t, id);
  }

  class AccountStore {
    /** The User table. */
    var users: Table<User>
    /** The Profile table, keyed by the owning user's key (the relation is one-to-one and
        each profile is inserted right after its user, so profile order is user order). */
    var profiles: map<UserId, Profile>

    function State(): AccountState
      reads this
    {
      AccountState(users, profiles)
    }

    ghost predicate Valid()
      reads this
    {
      ValidState(State())
    }

    constructor()
      ensures Valid() && users == Table(map[], 0) && profiles == map[]
    {
      users := Table(map[], 0);
      profiles := map[];
    }

    /** `User.objects.create(...)` and the post_save hooks it fires with created=True:
        `create_user_profile` inserts one unverified Profile without a token and
        `save_user_profile` saves it unchanged. The callers check username and email
        first. */
    method CreateUser(u: User) returns (id: UserId)
      requires Valid()
      requires forall k :: k in users.rows ==> users.rows[k].username != u.username
      requires forall k :: k in users.rows ==> users.rows[k].email != u.email
      modifies this
      ensures Valid()
      ensures id == old(users.next) && id !in old(users.rows)
      ensures users == Insert(old(users), u)
      ensures profiles == old(profiles)[id := NewProfile]
    {
      id := users.next;
      users := Insert(users, u);
      profiles := profiles[id := NewProfile];
    }

    /** `user.save()` on an existing user: post_save fires with created=False, so
        `create_user_profile` adds nothing and `save_user_profile` re-saves the profile
        unchanged. */
    method SaveUser(id: UserId, u: User)
      requires Valid() && id in users.rows
      requires u.username == users.rows[id].username && u.email == users.rows[id].email
      modifies this
      ensures Valid()
      ensures users == Put(old(users), id, u)
      ensures profiles == old(profiles)
    {
      users := Put(users, id, u);
    }

    /** `profile.save()` after changing its fields. */
    method SaveProfile(id: UserId, p: Profile)
      requires Valid() && id in profiles
      requires p.emailToken.Some? ==> forall k :: k in profiles && k != id ==> profiles[k].emailToken != p.emailToken
      modifies this
      ensures Valid()
      ensures users == old(users)
      ensures profiles == old(profiles)[id := p]
    {
      profiles := profiles[id := p];
    }

    /** `user.delete()`: the profile goes with the user. */
    method DeleteUser(id: UserId)
      requires Valid()
      modifies this
      ensures Valid()
      ensures users == Remove(old(users), id)
      ensures profiles == old(profiles) - {id}
    {
      users := Remove(users, id);
      profiles := profiles - {id};
    }
  }

  // ---------------------------------------------------------------------------
  // log_user_login
  // ---------------------------------------------------------------------------

  /** The dictionary `log_user_login` passes on: action "Login", an empty input, score 0. */
  function LoginData(path: string): LogData
  {
    LogData(Present("Login"), Present(path), Present(Some("")), Present(0))
  }

  /** The row a login writes. Django's `login()` sets `request.user` to the user before
      it fires `user_logged_in`, so the row is attributed to that user. */
  function LoginRow(req: Request, id: UserId): ActivityRow
  {
    RowFor(req.(user := Some(id)), LoginData(req.path))
  }

  /** A login row has action "Login", score 0 and the logged-in user; because its input
      "" is falsy, its raw input is the text of the whole dictionary, never "". */
  lemma LoginRowShape(req: Request, id: UserId)
    ensures LoginRow(req, id).action == "Login" && LoginRow(req, id).threatScore == 0
    ensures LoginRow(req, id).user == Some(id) && LoginRow(req, id).pageUrl == Some(req.path)
    ensures LoginRow(req, id).rawInput == DictText(LoginData(req.path))
    ensures LoginRow(req, id).rawInput != ""
  {
  }

  /** `log_user_login`, the `user_logged_in` receiver: exactly one row is appended. */
  method LogUserLogin(log: ActivityLog, req: Request, id: UserId)
    modifies log
    ensures log.rows == old(log.rows) + [LoginRow(req, id)]
  {
    log.LogActivity(req.(user := Some(id)), LoginData(req.path));
  }
}
