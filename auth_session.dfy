/** The authentication context: the signed-in user, the start-up `loading`
    flag and the browser storage, updated by start-up, login, registration,
    logout and profile update. Every request goes through the gateway's
    interceptors (`AuthGateway.Dispatch`). */
module AuthSession {
  import opened Common
  import opened AuthGateway

  /** How an operation's promise settles: normally, or by throwing an
      `Error` with the given message. */
  datatype Completion = Done | Thrown(message: string)

  function RoleText(r: Role): string {
    match r
    case Admin => "ADMIN"
    case Mentor => "MENTOR"
    case Mentee => "MENTEE"
    case OtherRole(name) => name
  }

  function StatusText(s: AccountStatus): string {
    match s
    case Active => "ACTIVE"
    case Inactive => "INACTIVE"
    case PendingApproval => "PENDING_APPROVAL"
  }

  function Quoted(s: string): string {
    "\"" + s + "\""
  }

  /** `JSON.stringify` of a user record (without string escaping); of a
      missing record, the text "undefined" that `setItem` stores. */
  function UserText(u: Option<User>): string {
    match u
    case None => "undefined"
    case Some(v) =>
      "{\"id\":" + Quoted(v.id) + ",\"name\":" + Quoted(v.name) + ",\"email\":" + Quoted(v.email)
      + ",\"role\":" + Quoted(RoleText(v.role)) + ",\"status\":" + Quoted(StatusText(v.status))
      + (if v.avatar.Some? then ",\"avatar\":" + Quoted(v.avatar.value) else "")
      + ",\"verified\":" + (if v.verified then "true" else "false") + "}"
  }

  /** The `{ user, accessToken, refreshToken }` fields of a login or
      registration reply; fields a body of another shape lacks are `None`. */
  function CredentialFields(d: Data): (Option<User>, Option<string>, Option<string>) {
    match d
    case Credentials(u, a, r) => (Some(u), a, r)
    case Tokens(a, r) => (None, a, r)
    case Profile(_) => (None, None, None)
  }

  /** The user record of a `/auth/me` or profile reply. */
  function AccountOf(d: Data): Option<User> {
    if d.Profile? then Some(d.account) else None
  }

  /** Storage after a successful login: all three keys written. */
  function StoreCredentials(st: Storage, d: Data): (r: Storage)
    ensures UserKey in r && AccessKey in r && RefreshKey in r
    ensures r[UserKey] == UserText(CredentialFields(d).0)
    ensures r[AccessKey] == StoredText(CredentialFields(d).1)
    ensures r[RefreshKey] == StoredText(CredentialFields(d).2)
    ensures forall k :: k in st && !(k in {UserKey, AccessKey, RefreshKey}) ==> k in r && r[k] == st[k]
    ensures r.Keys == st.Keys + {UserKey, AccessKey, RefreshKey}
  {
    var f := CredentialFields(d);
    st[UserKey := UserText(f.0)][AccessKey := StoredText(f.1)][RefreshKey := StoredText(f.2)]
  }

  /** Registration signs the user in only for a role other than "MENTOR" and
      when both tokens are present (truthy). */
  predicate RegistrationSignsIn(role: string, d: Data) {
    role != "MENTOR" && Truthy(CredentialFields(d).1) && Truthy(CredentialFields(d).2)
  }

  /** The role sent when the caller gives none. */
  function RegistrationRole(role: Option<string>): (r: string)
    ensures role.None? ==> r == "MENTEE"
    ensures role.Some? ==> r == role.value
  {
    role.GetOr("MENTEE")
  }

  function LoginRequest(id: nat, email: string, password: string): Request {
    Request(id, "POST", "/auth/login", map["email" := email, "password" := password], map[], false)
  }

  function RegisterRequest(id: nat, name: string, email: string, password: string, role: string): Request {
    Request(id, "POST", "/auth/register",
            map["name" := name, "email" := email, "password" := password, "role" := role], map[], false)
  }

  function ProfileRequest(id: nat, userId: string, data: map<string, string>): Request {
    Request(id, "PUT", "/users/" + userId + "/profile", data, map[], false)
  }

  function MeRequest(id: nat): Request {
    Request(id, "GET", "/auth/me", map[], map[], false)
  }

  /** Logging out twice leaves what logging out once left. */
  lemma LogoutIdempotent(st: Storage)
    ensures Cleared(Cleared(st)) == Cleared(st)
  {
  }

  /** The message a failed operation throws: the server's, else the
      operation's own fallback. */
  lemma ThrownMessage(error: Reply, fallback: string)
    requires fallback != ""
    ensures ErrorText(ErrorMessage(error), fallback) != ""
    ensures error.HttpError? && error.message.Some? && error.message.value != "" ==>
              ErrorText(ErrorMessage(error), fallback) == error.message.value
    ensures !error.HttpError? ==> ErrorText(ErrorMessage(error), fallback) == fallback
  {
  }

  class Session {
    var storage: Storage
    var user: Option<User>
    var loading: bool
    /** The server's replies still to come, the requests sent so far, the
        next fresh request id and the forced navigation. */
    var pending: seq<Reply>
    var sent: seq<Request>
    var nextId: nat
    var location: Option<string>

    function Net(): Wire
      reads this
    {
      Wire(storage, pending, sent, nextId, location)
    }

    /** The provider's first render: no user, `loading` true. */
    constructor(st: Storage, replies: seq<Reply>)
      ensures storage == st && user.None? && loading
      ensures pending == replies && sent == [] && nextId == 0 && location.None?
    {
      storage := st;
      user := None;
      loading := true;
      pending := replies;
      sent := [];
      nextId := 0;
      location := None;
    }

    /** Send `c` through both interceptors; see `AuthGateway.Dispatch`. */
    method Send(c: Request) returns (res: Result)
      modifies this
      decreases |pending|, 0
      ensures (Net(), res) == Dispatch(old(Net()), c)
      ensures user == old(user) && loading == old(loading)
    {
      ghost var w := Net();
      var out := Intercept(c, storage);
      sent := sent + [out];
      if pending == [] {
        res := Rejected(NoResponse);
        return;
      }
      var reply := pending[0];
      pending := pending[1..];
      if reply.Ok? {
        res := Delivered(reply.data);
      } else if !(reply.HttpError? && reply.status == 401) || c.retry {
        res := Rejected(reply);
      } else {
        DispatchOn401(w, c);
        res := Recover(out.(retry := true), reply);
      }
    }

    /** The response interceptor's handling of a first 401; see
        `AuthGateway.Recover`. */
    method Recover(flagged: Request, error: Reply) returns (res: Result)
      modifies this
      decreases |pending|, 2
      ensures (Net(), res) == AuthGateway.Recover(old(Net()), flagged, error)
      ensures user == old(user) && loading == old(loading)
    {
      ghost var w := Net();
      var refreshToken := Stored(storage, RefreshKey);
      if !Truthy(refreshToken) {
        res := Rejected(error);
        return;
      }
      var rr := RefreshRequest(nextId, refreshToken.value);
      nextId := nextId + 1;
      var refreshed := Send(rr);
      assert (Net(), refreshed) == RefreshCall(w);
      if refreshed.Delivered? {
        var pair := RefreshedPair(refreshed.data);
        storage := storage[AccessKey := StoredText(pair.0)][RefreshKey := StoredText(pair.1)];
        RecoverAfterRefresh(w, flagged, error);
        res := Send(flagged);
      } else {
        storage := Cleared(storage);
        location := Some("/login");
        RecoverAfterFailedRefresh(w, flagged, error);
        res := Rejected(error);
      }
    }

    /** A request under the next fresh id. */
    method Call(verb: string, url: string, body: map<string, string>) returns (res: Result, c: Request)
      modifies this
      ensures c == Request(old(nextId), verb, url, body, map[], false)
      ensures (Net(), res) == Dispatch(old(Net()).(nextId := old(nextId) + 1), c)
      ensures user == old(user) && loading == old(loading)
    {
      c := Request(nextId, verb, url, body, map[], false);
      nextId := nextId + 1;
      res := Send(c);
    }

    /** `logout`: the three keys go, and so does the user. */
    method Logout()
      modifies this
      ensures storage == Cleared(old(storage)) && user.None?
      ensures loading == old(loading) && pending == old(pending) && sent == old(sent)
      ensures nextId == old(nextId) && location == old(location)
    {
      storage := Cleared(storage);
      user := None;
    }

    /** `login`: on success all three keys are written and the user is the
        returned record; on failure nothing is written and the server's
        message, or "Login failed", is thrown. */
    method Login(email: string, password: string) returns (outcome: Completion)
      modifies this
      ensures var d := Dispatch(old(Net()).(nextId := old(nextId) + 1), LoginRequest(old(nextId), email, password));
              pending == d.0.pending && sent == d.0.sent && nextId == d.0.nextId && location == d.0.location
              && loading == old(loading)
              && (d.1.Delivered? ==>
                    storage == StoreCredentials(d.0.storage, d.1.data)
                    && user == CredentialFields(d.1.data).0 && outcome == Done)
              && (d.1.Rejected? ==>
                    storage == d.0.storage && user == old(user)
                    && outcome == Thrown(ErrorText(ErrorMessage(d.1.error), "Login failed")))
    {
      var res, c := Call("POST", "/auth/login", map["email" := email, "password" := password]);
      if res.Delivered? {
        storage := StoreCredentials(storage, res.data);
        user := CredentialFields(res.data).0;
        outcome := Done;
      } else {
        outcome := Thrown(ErrorText(ErrorMessage(res.error), "Login failed"));
      }
    }

    /** `register`: the role defaults to "MENTEE"; the user is signed in only
        when `RegistrationSignsIn`, and otherwise nothing is written. */
    method Register(name: string, email: string, password: string, role: Option<string>)
      returns (outcome: Completion)
      modifies this
      ensures var d := Dispatch(old(Net()).(nextId := old(nextId) + 1),
                                RegisterRequest(old(nextId), name, email, password, RegistrationRole(role)));
              pending == d.0.pending && sent == d.0.sent && nextId == d.0.nextId && location == d.0.location
              && loading == old(loading)
              && (d.1.Delivered? && RegistrationSignsIn(RegistrationRole(role), d.1.data) ==>
                    storage == StoreCredentials(d.0.storage, d.1.data)
                    && user == CredentialFields(d.1.data).0 && outcome == Done)
              && (d.1.Delivered? && !RegistrationSignsIn(RegistrationRole(role), d.1.data) ==>
                    storage == d.0.storage && user == old(user) && outcome == Done)
              && (d.1.Rejected? ==>
                    storage == d.0.storage && user == old(user)
                    && outcome == Thrown(ErrorText(ErrorMessage(d.1.error), "Registration failed")))
    {
      var sentRole := RegistrationRole(role);
      var res, c := Call("POST", "/auth/register",
                         map["name" := name, "email" := email, "password" := password, "role" := sentRole]);
      if res.Delivered? {
        if RegistrationSignsIn(sentRole, res.data) {
          storage := StoreCredentials(storage, res.data);
          user := CredentialFields(res.data).0;
        }
        outcome := Done;
      } else {
        outcome := Thrown(ErrorText(ErrorMessage(res.error), "Registration failed"));
      }
    }

    /** `updateProfile`: nothing without a user; otherwise the cached user is
        replaced by the server's record (the partial `data` is not merged). */
    method UpdateProfile(data: map<string, string>) returns (outcome: Completion)
      modifies this
      ensures old(user).None? ==>
                outcome == Done && Net() == old(Net()) && user == old(user) && loading == old(loading)
      ensures old(user).Some? ==>
                var d := Dispatch(old(Net()).(nextId := old(nextId) + 1),
                                  ProfileRequest(old(nextId), old(user).value.id, data));
                pending == d.0.pending && sent == d.0.sent && nextId == d.0.nextId && location == d.0.location
                && loading == old(loading)
                && (d.1.Delivered? ==>
                      storage == d.0.storage[UserKey := UserText(AccountOf(d.1.data))]
                      && user == AccountOf(d.1.data) && outcome == Done)
                && (d.1.Rejected? ==>
                      storage == d.0.storage && user == old(user)
                      && outcome == Thrown(ErrorText(ErrorMessage(d.1.error), "Profile update failed")))
    {
      if user.None? {
        outcome := Done;
        return;
      }
      var res, c := Call("PUT", "/users/" + user.value.id + "/profile", data);
      if res.Delivered? {
        var updated := AccountOf(res.data);
        storage := storage[UserKey := UserText(updated)];
        user := updated;
        outcome := Done;
      } else {
        outcome := Thrown(ErrorText(ErrorMessage(res.error), "Profile update failed"));
      }
    }

    /** `initAuth`: with a stored access token the current user is fetched and
        cached, or everything is cleared when the fetch fails; without one
        only the cached user is removed. `loading` ends false on every path. */
    method InitAuth()
      modifies this
      ensures !loading
      ensures !Truthy(Stored(old(storage), AccessKey)) ==>
                storage == old(storage) - {UserKey} && user == old(user)
                && pending == old(pending) && sent == old(sent) && nextId == old(nextId)
                && location == old(location)
      ensures Truthy(Stored(old(storage), AccessKey)) ==>
                var d := Dispatch(old(Net()).(nextId := old(nextId) + 1), MeRequest(old(nextId)));
                pending == d.0.pending && sent == d.0.sent && nextId == d.0.nextId && location == d.0.location
                && (d.1.Delivered? ==>
                      storage == d.0.storage[UserKey := UserText(AccountOf(d.1.data))]
                      && user == AccountOf(d.1.data))
                && (d.1.Rejected? ==> storage == Cleared(d.0.storage) && user.None?)
    {
      var token := Stored(storage, AccessKey);
      if Truthy(token) {
        var res, c := Call("GET", "/auth/me", map[]);
        if res.Delivered? {
          var fetched := AccountOf(res.data);
          user := fetched;
          storage := storage[UserKey := UserText(fetched)];
        } else {
          Logout();
        }
      } else {
        storage := storage - {UserKey};
      }
      loading := false;
    }
  }
}
