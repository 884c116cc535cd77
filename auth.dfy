/** The session of src/contexts/AuthContext.tsx: the signed-in user, the
    loading flag, and the two browser-storage entries `user` (the user as
    JSON) and `token`. The storage is a map from keys to strings that
    survives a reload; `JSON.stringify` and `JSON.parse` are parameters
    (`encode`, and `parse` with `None` for a parse that throws). The
    network call of `login` is its outcome, passed in. */
module Auth {
  import opened Common

  /** The `User` of the context. `role` is whatever text the server sent:
      the cast at line 81 does not check it. */
  datatype User = User(
    id: string,
    firstName: string,
    lastName: string,
    email: string,
    role: string,
    avatar: Option<string>)

  /** `response.data` of a login response. */
  datatype AuthResponse = AuthResponse(
    id: string,
    firstName: string,
    lastName: string,
    email: string,
    role: string,
    avatar: Option<string>,
    token: string)

  /** What `authService.login` did: threw, or answered. */
  datatype LoginOutcome =
    | Threw
    | Responded(success: bool, data: Option<AuthResponse>)

  /** The fields of `signup`'s argument the new user is built from. */
  datatype SignupData = SignupData(firstName: string, lastName: string, email: string)

  /** A `Partial<User>`: `None` where the field is absent. */
  datatype UserPatch = UserPatch(
    id: Option<string>,
    firstName: Option<string>,
    lastName: Option<string>,
    email: Option<string>,
    role: Option<string>,
    avatar: Option<string>)

  type Storage = map<string, string>

  const UserKey := "user"
  const TokenKey := "token"
  /** The token a mock signup stores (line 120). */
  const MockToken := "mock-jwt-token"

  datatype AuthState = AuthState(user: Option<User>, isLoading: bool, storage: Storage)

  /** The provider as it mounts: no user, loading, and whatever the storage
      holds from earlier visits (lines 45-46). */
  function AppLoad(storage: Storage): (s: AuthState)
    ensures s.user.None? && s.isLoading && s.storage == storage
  {
    AuthState(None, true, storage)
  }

  /** `localStorage.getItem(k)`: `None` for `null`. */
  function Get(st: Storage, k: string): (v: Option<string>)
    ensures v.Some? <==> k in st
    ensures v.Some? ==> v.value == st[k]
  {
    if k in st then Some(st[k]) else None
  }

  /** A stored value is truthy when it is present and not empty. */
  predicate Truthy(v: Option<string>)
  {
    v.Some? && v.value != ""
  }

  /** `!!user`. */
  predicate IsAuthenticated(s: AuthState)
  {
    s.user.Some?
  }

  // ---------------------------------------------------------------------
  // Transitions

  /** `checkAuth` (lines 50-64). */
  function CheckAuthNext(s: AuthState, parse: string -> Option<User>): (r: AuthState)
    ensures !r.isLoading
  {
    var saved, token := Get(s.storage, UserKey), Get(s.storage, TokenKey);
    if Truthy(saved) && Truthy(token) then
      match parse(saved.value)
      case Some(u) => AuthState(Some(u), false, s.storage)
      case None => AuthState(s.user, false, s.storage - {UserKey, TokenKey})
    else AuthState(s.user, false, s.storage)
  }

  /** The user built from a login response (lines 76-83). */
  function UserOf(d: AuthResponse): (u: User)
    ensures u.id == d.id && u.firstName == d.firstName && u.lastName == d.lastName
    ensures u.email == d.email && u.role == d.role && u.avatar == d.avatar
  {
    User(d.id, d.firstName, d.lastName, d.email, d.role, d.avatar)
  }

  /** `login` (lines 69-99): the new state and the returned flag. */
  function LoginNext(s: AuthState, outcome: LoginOutcome, encode: User -> string): (r: (AuthState, bool))
    ensures !r.0.isLoading
  {
    if outcome.Responded? && outcome.success && outcome.data.Some? then
      var u := UserOf(outcome.data.value);
      (AuthState(Some(u), false, s.storage[UserKey := encode(u)][TokenKey := outcome.data.value.token]), true)
    else (AuthState(s.user, false, s.storage), false)
  }

  /** The user a mock signup creates; `id` is the clock reading the source
      takes (line 110). */
  function NewUser(data: SignupData, id: string): (u: User)
    ensures u.id == id && u.firstName == data.firstName && u.lastName == data.lastName
    ensures u.email == data.email && u.role == "user" && u.avatar.None?
  {
    User(id, data.firstName, data.lastName, data.email, "user", None)
  }

  /** `signup` (lines 101-128). Its `try` holds only a timer and object
      construction, neither of which throws, so the `catch` branch cannot
      run and the result is always true. */
  function SignupNext(s: AuthState, data: SignupData, id: string, encode: User -> string): (r: (AuthState, bool))
    ensures r.1 && !r.0.isLoading
  {
    var u := NewUser(data, id);
    (AuthState(Some(u), false, s.storage[UserKey := encode(u)][TokenKey := MockToken]), true)
  }

  /** `logout` (lines 130-134). */
  function LogoutNext(s: AuthState): (r: AuthState)
    ensures r.isLoading == s.isLoading
  {
    AuthState(None, s.isLoading, s.storage - {UserKey, TokenKey})
  }

  /** `{ ...user, ...patch }`: each field the patch has replaces the
      user's. */
  function Merge(u: User, p: UserPatch): (m: User)
  {
    User(
      if p.id.Some? then p.id.value else u.id,
      if p.firstName.Some? then p.firstName.value else u.firstName,
      if p.lastName.Some? then p.lastName.value else u.lastName,
      if p.email.Some? then p.email.value else u.email,
      if p.role.Some? then p.role.value else u.role,
      if p.avatar.Some? then p.avatar else u.avatar)
  }

  /** `updateProfile` (lines 136-142). */
  function UpdateProfileNext(s: AuthState, p: UserPatch, encode: User -> string): (r: AuthState)
    ensures r.isLoading == s.isLoading
  {
    if s.user.Some? then
      var m := Merge(s.user.value, p);
      AuthState(Some(m), s.isLoading, s.storage[UserKey := encode(m)])
    else s
  }

  // ---------------------------------------------------------------------
  // The provider, field by field

  class AuthProvider {
    var user: Option<User>
    var isLoading: bool
    var storage: Storage

    function State(): AuthState
      reads this
    {
      AuthState(user, isLoading, storage)
    }

    constructor (persisted: Storage)
      ensures State() == AppLoad(persisted)
    {
      user := None;
      isLoading := true;
      storage := persisted;
    }

    method CheckAuth(parse: string -> Option<User>)
      modifies this
      ensures State() == CheckAuthNext(old(State()), parse)
    {
      var savedUser := Get(storage, UserKey);
      var token := Get(storage, TokenKey);
      if Truthy(savedUser) && Truthy(token) {
        var parsed := parse(savedUser.value);
        if parsed.Some? {
          user := parsed;
        } else {
          storage := storage - {UserKey};
          storage := storage - {TokenKey};
          assert storage == old(storage) - {UserKey, TokenKey};
        }
      }
      isLoading := false;
    }

    method Login(outcome: LoginOutcome, encode: User -> string) returns (ok: bool)
      modifies this
      ensures (State(), ok) == LoginNext(old(State()), outcome, encode)
    {
      isLoading := true;
      if outcome.Threw? {
        isLoading := false;
        return false;
      }
      if outcome.success && outcome.data.Some? {
        var d := outcome.data.value;
        var u := User(d.id, d.firstName, d.lastName, d.email, d.role, d.avatar);
        user := Some(u);
        storage := storage[UserKey := encode(u)];
        storage := storage[TokenKey := d.token];
        isLoading := false;
        return true;
      } else {
        isLoading := false;
        return false;
      }
    }

    method Signup(data: SignupData, id: string, encode: User -> string) returns (ok: bool)
      modifies this
      ensures (State(), ok) == SignupNext(old(State()), data, id, encode)
    {
      isLoading := true;
      var u := User(id, data.firstName, data.lastName, data.email, "user", None);
      user := Some(u);
      storage := storage[UserKey := encode(u)];
      storage := storage[TokenKey := MockToken];
      isLoading := false;
      ok := true;
    }

    method Logout()
      modifies this
      ensures State() == LogoutNext(old(State()))
    {
      user := None;
      storage := storage - {UserKey};
      storage := storage - {TokenKey};
      assert storage == old(storage) - {UserKey, TokenKey};
    }

    method UpdateProfile(p: UserPatch, encode: User -> string)
      modifies this
      ensures State() == UpdateProfileNext(old(State()), p, encode)
    {
      if user.Some? {
        var updated := Merge(user.value, p);
        user := Some(updated);
        storage := storage[UserKey := encode(updated)];
      }
    }
  }

  // ---------------------------------------------------------------------
  // What the transitions promise

  /** Only the two session keys are ever touched: every other stored entry
      keeps its value through each transition. */
  ghost predicate OthersKept(before: Storage, after: Storage)
  {
    forall k :: k != UserKey && k != TokenKey ==>
      (k in after <==> k in before) && (k in after ==> after[k] == before[k])
  }

  /** `checkAuth` restores a user exactly when both keys hold non-empty text
      and the saved user parses; then the user is the parsed one. A saved
      user that does not parse removes both keys. Loading is over in every
      case. */
  lemma CheckAuthCases(s: AuthState, parse: string -> Option<User>)
    ensures var r := CheckAuthNext(s, parse);
      && !r.isLoading
      && OthersKept(s.storage, r.storage)
      && ((UserKey in s.storage && s.storage[UserKey] != "" && TokenKey in s.storage && s.storage[TokenKey] != ""
          && parse(s.storage[UserKey]).Some?) ==> r.user == parse(s.storage[UserKey]) && r.storage == s.storage)
      && ((UserKey in s.storage && s.storage[UserKey] != "" && TokenKey in s.storage && s.storage[TokenKey] != ""
          && parse(s.storage[UserKey]).None?) ==> r.user == s.user && UserKey !in r.storage && TokenKey !in r.storage)
      && (!(UserKey in s.storage && s.storage[UserKey] != "") || !(TokenKey in s.storage && s.storage[TokenKey] != "")
          ==> r.user == s.user && r.storage == s.storage)
  {
  }

  /** A successful login signs in the user the response describes, stores
      it and the token, and returns true. */
  lemma LoginSucceeds(s: AuthState, d: AuthResponse, encode: User -> string)
    ensures var r := LoginNext(s, Responded(true, Some(d)), encode);
      && r.1 && IsAuthenticated(r.0) && r.0.user == Some(UserOf(d)) && !r.0.isLoading
      && UserKey in r.0.storage && r.0.storage[UserKey] == encode(UserOf(d))
      && TokenKey in r.0.storage && r.0.storage[TokenKey] == d.token
      && OthersKept(s.storage, r.0.storage)
  {
  }

  /** A refused, empty or failed login returns false and changes nothing but
      the loading flag, which ends cleared. */
  lemma LoginFails(s: AuthState, outcome: LoginOutcome, encode: User -> string)
    requires outcome.Threw? || !outcome.success || outcome.data.None?
    ensures var r := LoginNext(s, outcome, encode);
      !r.1 && r.0.user == s.user && r.0.storage == s.storage && !r.0.isLoading
  {
  }

  /** Logging out signs the user out and removes exactly the two session
      keys. */
  lemma LogoutClears(s: AuthState)
    ensures var r := LogoutNext(s);
      && !IsAuthenticated(r) && UserKey !in r.storage && TokenKey !in r.storage
      && OthersKept(s.storage, r.storage)
  {
  }

  /** With no user, a profile update does nothing; with one, it merges the
      patch, rewrites the `user` entry and leaves the token as it was. */
  lemma UpdateProfileCases(s: AuthState, p: UserPatch, encode: User -> string)
    ensures s.user.None? ==> UpdateProfileNext(s, p, encode) == s
    ensures s.user.Some? ==> var r := UpdateProfileNext(s, p, encode);
      && r.user == Some(Merge(s.user.value, p))
      && UserKey in r.storage && r.storage[UserKey] == encode(Merge(s.user.value, p))
      && Get(r.storage, TokenKey) == Get(s.storage, TokenKey)
      && OthersKept(s.storage, r.storage)
  {
  }

  /** A merged field comes from the patch when the patch has it and from the
      user otherwise; merging the same patch again changes nothing, and the
      empty patch changes nothing at all. */
  lemma MergeFields(u: User, p: UserPatch)
    ensures var m := Merge(u, p);
      && (p.firstName.Some? ==> m.firstName == p.firstName.value)
      && (p.firstName.None? ==> m.firstName == u.firstName)
      && (p.avatar.Some? ==> m.avatar == p.avatar)
      && (p.avatar.None? ==> m.avatar == u.avatar)
      && Merge(m, p) == m
    ensures Merge(u, UserPatch(None, None, None, None, None, None)) == u
  {
  }

  /** A session is signed in exactly when it has a user: after a successful
      login or a signup, and never after a logout. */
  lemma AuthenticatedAfter(s: AuthState, d: AuthResponse, data: SignupData, id: string, encode: User -> string)
    ensures IsAuthenticated(LoginNext(s, Responded(true, Some(d)), encode).0)
    ensures IsAuthenticated(SignupNext(s, data, id, encode).0)
    ensures !IsAuthenticated(LogoutNext(s))
  {
  }

  // ---------------------------------------------------------------------
  // Across a reload

  /** A login survives a reload: when JSON reads back what it wrote and the
      token is not empty, `checkAuth` on the next visit restores the same
      user. */
  lemma LoginSurvivesReload(s: AuthState, d: AuthResponse, encode: User -> string, parse: string -> Option<User>)
    requires parse(encode(UserOf(d))) == Some(UserOf(d)) && encode(UserOf(d)) != ""
    requires d.token != ""
    ensures var after := LoginNext(s, Responded(true, Some(d)), encode).0;
      CheckAuthNext(AppLoad(after.storage), parse).user == Some(UserOf(d))
  {
    var after := LoginNext(s, Responded(true, Some(d)), encode).0;
    assert Get(after.storage, UserKey) == Some(encode(UserOf(d)));
    assert Get(after.storage, TokenKey) == Some(d.token);
  }

  /** An empty token is falsy: a login that received one is signed in now
      but not after a reload. */
  lemma EmptyTokenLostOnReload(s: AuthState, d: AuthResponse, encode: User -> string, parse: string -> Option<User>)
    requires d.token == ""
    ensures IsAuthenticated(LoginNext(s, Responded(true, Some(d)), encode).0)
    ensures var after := LoginNext(s, Responded(true, Some(d)), encode).0;
      !IsAuthenticated(CheckAuthNext(AppLoad(after.storage), parse))
  {
    var after := LoginNext(s, Responded(true, Some(d)), encode).0;
    assert Get(after.storage, TokenKey) == Some("");
  }

  /** A signup survives a reload too: its token is the non-empty mock
      token. */
  lemma SignupSurvivesReload(s: AuthState, data: SignupData, id: string, encode: User -> string, parse: string -> Option<User>)
    requires parse(encode(NewUser(data, id))) == Some(NewUser(data, id)) && encode(NewUser(data, id)) != ""
    ensures var after := SignupNext(s, data, id, encode).0;
      CheckAuthNext(AppLoad(after.storage), parse).user == Some(NewUser(data, id))
  {
    var after := SignupNext(s, data, id, encode).0;
    assert Get(after.storage, UserKey) == Some(encode(NewUser(data, id)));
    assert Get(after.storage, TokenKey) == Some(MockToken);
  }

  /** After a logout, a reload finds no session. */
  lemma LogoutSurvivesReload(s: AuthState, parse: string -> Option<User>)
    ensures !IsAuthenticated(CheckAuthNext(AppLoad(LogoutNext(s).storage), parse))
  {
    assert UserKey !in LogoutNext(s).storage;
  }
}
