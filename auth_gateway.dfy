/** The HTTP client of the authentication context: a request interceptor
    that attaches the stored access token as a bearer credential, and a
    response interceptor that answers a 401 by refreshing the token pair and
    re-sending the request once.

    The server is a queue of replies consumed one per request sent; the
    browser's local storage is a map from key to text. */
module AuthGateway {
  import opened Common

  /** A local-storage key: the three the client writes, and any other. */
  datatype Key = UserKey | AccessKey | RefreshKey | OtherKey(name: string)

  /** The text of each key; `OtherKey` stands for every other text. */
  function KeyName(k: Key): string {
    match k
    case UserKey => "user"
    case AccessKey => "accessToken"
    case RefreshKey => "refreshToken"
    case OtherKey(name) => name
  }

  type Storage = map<Key, string>

  /** The three keys the client writes. */
  function Cleared(st: Storage): (r: Storage)
    ensures UserKey !in r && AccessKey !in r && RefreshKey !in r
    ensures forall k :: k in st && k !in {UserKey, AccessKey, RefreshKey} ==> k in r && r[k] == st[k]
    ensures forall k :: k in r ==> k in st
  {
    st - {UserKey, AccessKey, RefreshKey}
  }

  /** `localStorage.getItem(key)`. */
  function Stored(st: Storage, key: Key): Option<string> {
    if key in st then Some(st[key]) else None
  }

  /** JavaScript truthiness of a nullable string. */
  predicate Truthy(v: Option<string>) {
    v.Some? && v.value != ""
  }

  /** `localStorage.setItem(key, v)` stores the text "undefined" for a
      missing value. */
  function StoredText(v: Option<string>): string {
    if v.Some? then v.value else "undefined"
  }

  /** A request configuration: `retry` is axios's `_retry` flag. */
  datatype Request = Request(id: nat, verb: string, url: string, body: map<string, string>,
                             headers: map<string, string>, retry: bool)

  /** The `data.data` field of a successful reply, in the shapes the client
      reads. */
  datatype Data = Tokens(accessToken: Option<string>, refreshToken: Option<string>)
                | Credentials(account: User, accessToken: Option<string>, refreshToken: Option<string>)
                | Profile(account: User)

  datatype Reply = Ok(data: Data) | HttpError(status: int, message: Option<string>) | NoResponse

  /** What the caller's promise settles to. */
  datatype Result = Delivered(data: Data) | Rejected(error: Reply)

  /** `error.response?.data?.message`. */
  function ErrorMessage(error: Reply): Option<string> {
    if error.HttpError? then error.message else None
  }

  /** The client's side of the network: storage, the replies still to come,
      the requests sent so far, the next fresh request id and the forced
      navigation, if any. */
  datatype Wire = Wire(storage: Storage, pending: seq<Reply>, sent: seq<Request>,
                       nextId: nat, location: Option<string>)

  // ---------------------------------------------------------------------
  // Bearer credentials, section 2.1 of RFC 6750

  /** A character of the b64token production. */
  predicate IsTokenChar(c: char) {
    ('A' <= c <= 'Z') || ('a' <= c <= 'z') || ('0' <= c <= '9')
    || c == '-' || c == '.' || c == '_' || c == '~' || c == '+' || c == '/'
  }

  /** b64token = 1*( ALPHA / DIGIT / "-" / "." / "_" / "~" / "+" / "/" ) *"=" */
  predicate IsB64Token(t: string) {
    exists n :: 1 <= n <= |t| && IsB64Split(t, n)
  }

  predicate IsB64Split(t: string, n: int)
    requires 0 <= n <= |t|
  {
    (forall i :: 0 <= i < n ==> IsTokenChar(t[i])) && (forall i :: n <= i < |t| ==> t[i] == '=')
  }

  function DropSpaces(s: string): (r: string)
    ensures |r| <= |s|
    ensures r == [] || r[0] != ' '
  {
    if s != [] && s[0] == ' ' then DropSpaces(s[1..]) else s
  }

  /** credentials = "Bearer" 1*SP b64token */
  predicate IsBearerCredentials(h: string) {
    |h| >= 7 && h[..6] == "Bearer" && h[6] == ' ' && IsB64Token(DropSpaces(h[6..]))
  }

  /** The token a resource server reads from a bearer credential. */
  function CredentialToken(h: string): string
    requires |h| >= 7
  {
    DropSpaces(h[6..])
  }

  /** "Bearer " followed by a b64token is a well-formed credential that
      carries exactly that token. */
  lemma BearerRoundTrip(t: string)
    requires IsB64Token(t)
    ensures IsBearerCredentials("Bearer " + t)
    ensures CredentialToken("Bearer " + t) == t
  {
    var h := "Bearer " + t;
    var n :| 1 <= n <= |t| && IsB64Split(t, n);
    assert IsTokenChar(t[0]);
    assert h[6..] == " " + t;
    assert (" " + t)[1..] == t;
    assert DropSpaces(h[6..]) == t;
    assert h[..6] == "Bearer";
  }

  // ---------------------------------------------------------------------
  // Interceptors

  /** The request interceptor: with a non-empty stored access token the
      request carries `Authorization: Bearer <token>`. */
  function Intercept(c: Request, st: Storage): (r: Request)
    ensures r.id == c.id && r.verb == c.verb && r.url == c.url && r.body == c.body && r.retry == c.retry
  {
    var token := Stored(st, AccessKey);
    if Truthy(token) then c.(headers := c.headers["Authorization" := "Bearer " + token.value]) else c
  }

  /** The interceptor adds a bearer credential exactly when a non-empty token is
      stored, and only touches that header. */
  lemma InterceptCarriesStoredToken(c: Request, st: Storage)
    ensures Truthy(Stored(st, AccessKey)) ==>
              "Authorization" in Intercept(c, st).headers
              && Intercept(c, st).headers["Authorization"] == "Bearer " + st[AccessKey]
              && Intercept(c, st).headers - {"Authorization"} == c.headers - {"Authorization"}
    ensures !Truthy(Stored(st, AccessKey)) ==> Intercept(c, st) == c
    ensures Truthy(Stored(st, AccessKey)) && IsB64Token(st[AccessKey]) ==>
              IsBearerCredentials(Intercept(c, st).headers["Authorization"])
              && CredentialToken(Intercept(c, st).headers["Authorization"]) == st[AccessKey]
  {
    if Truthy(Stored(st, AccessKey)) && IsB64Token(st[AccessKey]) {
      BearerRoundTrip(st[AccessKey]);
    }
  }

  /** The token pair a refresh reply carries (`undefined` fields are `None`). */
  function RefreshedPair(d: Data): (Option<string>, Option<string>) {
    match d
    case Tokens(a, r) => (a, r)
    case Credentials(_, a, r) => (a, r)
    case Profile(_) => (None, None)
  }

  function RefreshRequest(id: nat, refreshToken: string): Request {
    Request(id, "POST", "/auth/refresh", map["refreshToken" := refreshToken], map[], false)
  }

  /** Both tokens of a refresh reply written to storage. */
  function StorePair(w: Wire, pair: (Option<string>, Option<string>)): (r: Wire)
    ensures r.pending == w.pending && r.sent == w.sent && r.nextId == w.nextId
  {
    w.(storage := w.storage[AccessKey := StoredText(pair.0)][RefreshKey := StoredText(pair.1)])
  }

  /** Send `c` through both interceptors. A 401 on a request not yet flagged
      flags it and, if a refresh token is stored, posts a refresh as a fresh
      request (itself subject to this same rule). A delivered refresh stores
      the new pair and re-sends the flagged request, whose own outcome is
      the caller's; a failed one clears the three keys, forces /login and
      rejects with the original error. */
  function Dispatch(w: Wire, c: Request): (r: (Wire, Result))
    decreases |w.pending|, 0
    ensures |r.0.pending| <= |w.pending|
    ensures w.sent < r.0.sent
    ensures w.nextId <= r.0.nextId
  {
    var out := Intercept(c, w.storage);
    if w.pending == [] then (w.(sent := w.sent + [out]), Rejected(NoResponse))
    else
      var reply := w.pending[0];
      var w1 := w.(sent := w.sent + [out], pending := w.pending[1..]);
      if reply.Ok? then (w1, Delivered(reply.data))
      else if !(reply.HttpError? && reply.status == 401) || c.retry then (w1, Rejected(reply))
      else Recover(w1, out.(retry := true), reply)
  }

  /** The response interceptor's answer to a 401 once the request is flagged:
      refresh if a refresh token is stored, then re-send or log out. */
  function Recover(w: Wire, flagged: Request, error: Reply): (r: (Wire, Result))
    decreases |w.pending|, 2
    ensures |r.0.pending| <= |w.pending|
    ensures w.sent <= r.0.sent
    ensures w.nextId <= r.0.nextId
  {
    var refreshToken := Stored(w.storage, RefreshKey);
    if !Truthy(refreshToken) then (w, Rejected(error))
    else
      var d := RefreshCall(w);
      if d.1.Delivered? then Dispatch(StorePair(d.0, RefreshedPair(d.1.data)), flagged)
      else (d.0.(storage := Cleared(d.0.storage), location := Some("/login")), Rejected(error))
  }

  /** The refresh POST, sent with the stored refresh token under a fresh id. */
  function RefreshCall(w: Wire): (r: (Wire, Result))
    requires Truthy(Stored(w.storage, RefreshKey))
    decreases |w.pending|, 1
    ensures |r.0.pending| <= |w.pending|
    ensures w.sent < r.0.sent
    ensures w.nextId < r.0.nextId
  {
    Dispatch(w.(nextId := w.nextId + 1), RefreshRequest(w.nextId, w.storage[RefreshKey]))
  }

  // ---------------------------------------------------------------------
  // What the interceptors guarantee

  /** How many of `s` carry request id `id`. */
  function CountId(s: seq<Request>, id: nat): nat {
    if s == [] then 0 else (if s[0].id == id then 1 else 0) + CountId(s[1..], id)
  }

  lemma {:induction false} CountIdConcat(a: seq<Request>, b: seq<Request>, id: nat)
    ensures CountId(a + b, id) == CountId(a, id) + CountId(b, id)
  {
    if a == [] {
      assert a + b == b;
    } else {
      assert (a + b)[1..] == a[1..] + b;
      CountIdConcat(a[1..], b, id);
    }
  }

  lemma {:induction false} CountIdAbsent(s: seq<Request>, id: nat)
    requires forall i :: 0 <= i < |s| ==> s[i].id != id
    ensures CountId(s, id) == 0
  {
    if s != [] {
      CountIdAbsent(s[1..], id);
    }
  }

  // One step of the dispatch at a time

  /** A first 401 hands the flagged request to the recovery. */
  lemma DispatchOn401(w: Wire, c: Request)
    requires w.pending != [] && w.pending[0].HttpError? && w.pending[0].status == 401 && !c.retry
    ensures Dispatch(w, c) ==
              Recover(w.(sent := w.sent + [Intercept(c, w.storage)], pending := w.pending[1..]),
                      Intercept(c, w.storage).(retry := true), w.pending[0])
  {
  }

  /** A delivered refresh hands over to the re-sent flagged request. */
  lemma RecoverAfterRefresh(w: Wire, flagged: Request, error: Reply)
    requires Truthy(Stored(w.storage, RefreshKey)) && RefreshCall(w).1.Delivered?
    ensures Recover(w, flagged, error) ==
              Dispatch(StorePair(RefreshCall(w).0, RefreshedPair(RefreshCall(w).1.data)), flagged)
  {
  }

  /** A failed refresh logs out and rejects with the original error. */
  lemma RecoverAfterFailedRefresh(w: Wire, flagged: Request, error: Reply)
    requires Truthy(Stored(w.storage, RefreshKey)) && !RefreshCall(w).1.Delivered?
    ensures Recover(w, flagged, error) ==
              (RefreshCall(w).0.(storage := Cleared(RefreshCall(w).0.storage), location := Some("/login")),
               Rejected(error))
  {
  }

  /** The first request on the wire is `c` as the request interceptor
      leaves it. */
  lemma FirstSentIsIntercepted(w: Wire, c: Request)
    ensures Dispatch(w, c).0.sent[|w.sent|] == Intercept(c, w.storage)
  {
    if w.pending != [] && w.pending[0].HttpError? && w.pending[0].status == 401 && !c.retry {
      DispatchOn401(w, c);
    }
  }

  /** Every request sent while dispatching `c` is `c` itself or carries a
      fresh id, handed out during that dispatch. */
  lemma {:induction false} DispatchIds(w: Wire, c: Request)
    decreases |w.pending|, 0
    ensures forall i :: |w.sent| <= i < |Dispatch(w, c).0.sent| ==>
              Dispatch(w, c).0.sent[i].id == c.id
              || w.nextId <= Dispatch(w, c).0.sent[i].id < Dispatch(w, c).0.nextId
  {
    var out := Intercept(c, w.storage);
    var r := Dispatch(w, c).0;
    if w.pending != [] && w.pending[0].HttpError? && w.pending[0].status == 401 && !c.retry {
      var w1 := w.(sent := w.sent + [out], pending := w.pending[1..]);
      var flagged := out.(retry := true);
      DispatchOn401(w, c);
      FirstSentIsIntercepted(w, c);
      RecoverIds(w1, flagged, w.pending[0]);
      assert flagged.id == c.id;
    } else {
      assert |r.sent| == |w.sent| + 1;
    }
  }

  lemma {:induction false} RecoverIds(w: Wire, flagged: Request, error: Reply)
    decreases |w.pending|, 2
    ensures forall i :: |w.sent| <= i < |Recover(w, flagged, error).0.sent| ==>
              Recover(w, flagged, error).0.sent[i].id == flagged.id
              || w.nextId <= Recover(w, flagged, error).0.sent[i].id < Recover(w, flagged, error).0.nextId
  {
    if Truthy(Stored(w.storage, RefreshKey)) {
      DispatchIds(w.(nextId := w.nextId + 1), RefreshRequest(w.nextId, w.storage[RefreshKey]));
      var d := RefreshCall(w);
      if d.1.Delivered? {
        RecoverAfterRefresh(w, flagged, error);
        DispatchIds(StorePair(d.0, RefreshedPair(d.1.data)), flagged);
      } else {
        RecoverAfterFailedRefresh(w, flagged, error);
      }
    }
  }

  /** The refresh call sends nothing carrying an id handed out before it. */
  lemma RefreshAvoids(w: Wire, id: nat)
    requires Truthy(Stored(w.storage, RefreshKey)) && id < w.nextId
    ensures CountId(RefreshCall(w).0.sent[|w.sent|..], id) == 0
  {
    var wn := w.(nextId := w.nextId + 1);
    var rr := RefreshRequest(w.nextId, w.storage[RefreshKey]);
    DispatchIds(wn, rr);
    assert RefreshCall(w) == Dispatch(wn, rr);
    var w2 := RefreshCall(w).0;
    var seg := w2.sent[|w.sent|..];
    forall i | 0 <= i < |seg|
      ensures seg[i].id != id
    {
      assert seg[i] == w2.sent[|w.sent| + i];
    }
    CountIdAbsent(seg, id);
  }

  /** Each request is re-sent at most once: while dispatching `c`, its id
      goes out at most twice (once if it was already flagged). */
  lemma {:induction false} EachRequestRetriedAtMostOnce(w: Wire, c: Request)
    requires c.id < w.nextId
    decreases |w.pending|, 0
    ensures CountId(Dispatch(w, c).0.sent[|w.sent|..], c.id) <= if c.retry then 1 else 2
  {
    var r := Dispatch(w, c).0;
    var out := Intercept(c, w.storage);
    assert CountId([out], c.id) == 1 + CountId([], c.id);
    if w.pending != [] && w.pending[0].HttpError? && w.pending[0].status == 401 && !c.retry {
      var w1 := w.(sent := w.sent + [out], pending := w.pending[1..]);
      var flagged := out.(retry := true);
      DispatchOn401(w, c);
      FlaggedSentAtMostOnce(w1, flagged, w.pending[0]);
      var seg := r.sent[|w1.sent|..];
      assert r.sent[|w.sent|..] == [out] + seg;
      CountIdConcat([out], seg, c.id);
    } else {
      assert r.sent[|w.sent|..] == [out];
    }
  }

  /** While recovering, the flagged request goes out at most once more. */
  lemma {:induction false} FlaggedSentAtMostOnce(w: Wire, flagged: Request, error: Reply)
    requires flagged.retry && flagged.id < w.nextId
    decreases |w.pending|, 2
    ensures CountId(Recover(w, flagged, error).0.sent[|w.sent|..], flagged.id) <= 1
  {
    var r := Recover(w, flagged, error).0;
    if !Truthy(Stored(w.storage, RefreshKey)) {
      assert r.sent[|w.sent|..] == [];
    } else {
      var d := RefreshCall(w);
      RefreshAvoids(w, flagged.id);
      var seg2 := d.0.sent[|w.sent|..];
      if d.1.Delivered? {
        RecoverAfterRefresh(w, flagged, error);
        var w3 := StorePair(d.0, RefreshedPair(d.1.data));
        EachRequestRetriedAtMostOnce(w3, flagged);
        var seg3 := r.sent[|w3.sent|..];
        assert r.sent[|w.sent|..] == seg2 + seg3;
        CountIdConcat(seg2, seg3, flagged.id);
      } else {
        RecoverAfterFailedRefresh(w, flagged, error);
      }
    }
  }

  /** One 401 reply per message. */
  function Unauthorized(msgs: seq<Option<string>>): seq<Reply> {
    if msgs == [] then [] else [HttpError(401, msgs[0])] + Unauthorized(msgs[1..])
  }

  /** The bound is per request, not per chain: if every refresh answers 401
      as well, one original request sets off one refresh request per 401
      answer, however many there are. Only the outermost failure is seen by
      the caller, and the keys are cleared with a forced /login as soon as
      any refresh fails. */
  lemma {:induction false} RefreshChain(w: Wire, c: Request, msgs: seq<Option<string>>, last: Reply)
    requires !c.retry && Truthy(Stored(w.storage, RefreshKey))
    requires !last.Ok? && !(last.HttpError? && last.status == 401)
    requires w.pending == Unauthorized(msgs) + [last]
    decreases |msgs|
    ensures |Dispatch(w, c).0.sent| == |w.sent| + |msgs| + 1
    ensures forall i :: |w.sent| < i < |Dispatch(w, c).0.sent| ==>
              Dispatch(w, c).0.sent[i].url == "/auth/refresh" && !Dispatch(w, c).0.sent[i].retry
    ensures Dispatch(w, c).1 == Rejected(if msgs == [] then last else HttpError(401, msgs[0]))
    ensures msgs == [] ==> Dispatch(w, c).0.storage == w.storage && Dispatch(w, c).0.location == w.location
    ensures msgs != [] ==>
              Dispatch(w, c).0.storage == Cleared(w.storage) && Dispatch(w, c).0.location == Some("/login")
  {
    if msgs == [] {
      assert w.pending[0] == last;
      OtherRepliesPassThrough(w, c);
    } else {
      assert w.pending[0] == HttpError(401, msgs[0]);
      assert w.pending[1..] == Unauthorized(msgs[1..]) + [last];
      var out := Intercept(c, w.storage);
      var w1 := w.(sent := w.sent + [out], pending := w.pending[1..]);
      var flagged := out.(retry := true);
      DispatchOn401(w, c);
      var wn := w1.(nextId := w1.nextId + 1);
      var rr := RefreshRequest(w1.nextId, w1.storage[RefreshKey]);
      assert RefreshCall(w1) == Dispatch(wn, rr);
      RefreshChain(wn, rr, msgs[1..], last);
      RecoverAfterFailedRefresh(w1, flagged, HttpError(401, msgs[0]));
      var w2 := RefreshCall(w1).0;
      FirstSentIsIntercepted(wn, rr);
      assert Cleared(w2.storage) == Cleared(w.storage);
    }
  }

  /** A 401 on a request already flagged, or with no refresh token stored,
      is rejected as it is: one request sent, storage untouched. */
  lemma NoRefreshAttempt(w: Wire, c: Request)
    requires w.pending != [] && w.pending[0].HttpError? && w.pending[0].status == 401
    requires c.retry || !Truthy(Stored(w.storage, RefreshKey))
    ensures Dispatch(w, c).1 == Rejected(w.pending[0])
    ensures Dispatch(w, c).0 == w.(sent := w.sent + [Intercept(c, w.storage)], pending := w.pending[1..])
  {
    if !c.retry {
      DispatchOn401(w, c);
    }
  }

  /** Replies other than 401 reach the caller unchanged. */
  lemma OtherRepliesPassThrough(w: Wire, c: Request)
    requires w.pending != [] && !(w.pending[0].HttpError? && w.pending[0].status == 401)
    ensures Dispatch(w, c).1 == (if w.pending[0].Ok? then Delivered(w.pending[0].data)
                                 else Rejected(w.pending[0]))
    ensures Dispatch(w, c).0 == w.(sent := w.sent + [Intercept(c, w.storage)], pending := w.pending[1..])
  {
  }

  /** A 401 followed by a delivered refresh: the new pair is stored before the
      flagged request goes out again, carrying the new token, and the retry's
      reply is the caller's. */
  lemma RefreshThenRetry(w: Wire, c: Request, status: Option<string>, pair: Data, final: Reply,
                         rest: seq<Reply>)
    requires !c.retry && Truthy(Stored(w.storage, RefreshKey))
    requires pair.Tokens?
    requires w.pending == [HttpError(401, status), Ok(pair), final] + rest
    ensures Dispatch(w, c).0.storage ==
              w.storage[AccessKey := StoredText(pair.accessToken)][RefreshKey := StoredText(pair.refreshToken)]
    ensures Dispatch(w, c).0.pending == rest
    ensures |Dispatch(w, c).0.sent| == |w.sent| + 3
    ensures Dispatch(w, c).0.sent[|w.sent| + 1] ==
              Intercept(RefreshRequest(w.nextId, w.storage[RefreshKey]), w.storage)
    ensures Dispatch(w, c).0.sent[|w.sent| + 2].id == c.id && Dispatch(w, c).0.sent[|w.sent| + 2].retry
    ensures Truthy(pair.accessToken) ==>
              "Authorization" in Dispatch(w, c).0.sent[|w.sent| + 2].headers
              && Dispatch(w, c).0.sent[|w.sent| + 2].headers["Authorization"] == "Bearer " + pair.accessToken.value
    ensures Dispatch(w, c).1 == (if final.Ok? then Delivered(final.data) else Rejected(final))
  {
    var st := w.storage[AccessKey := StoredText(pair.accessToken)][RefreshKey := StoredText(pair.refreshToken)];
    var retried := Intercept(Intercept(c, w.storage).(retry := true), st);
    RefreshThenRetryWire(w, c, status, pair, final, rest);
    assert Dispatch(w, c).0.sent[|w.sent| + 2] == retried;
    InterceptCarriesStoredToken(Intercept(c, w.storage).(retry := true), st);
    if Truthy(pair.accessToken) {
      assert Stored(st, AccessKey) == pair.accessToken;
    }
  }

  /** The wire after a 401, a delivered refresh and the retry's reply: the
      three requests sent, in order, and the stored pair. */
  lemma RefreshThenRetryWire(w: Wire, c: Request, status: Option<string>, pair: Data, final: Reply,
                             rest: seq<Reply>)
    requires !c.retry && Truthy(Stored(w.storage, RefreshKey))
    requires pair.Tokens?
    requires w.pending == [HttpError(401, status), Ok(pair), final] + rest
    ensures Dispatch(w, c).0.storage ==
              w.storage[AccessKey := StoredText(pair.accessToken)][RefreshKey := StoredText(pair.refreshToken)]
    ensures Dispatch(w, c).0.pending == rest
    ensures Dispatch(w, c).0.sent ==
              w.sent + [Intercept(c, w.storage), Intercept(RefreshRequest(w.nextId, w.storage[RefreshKey]), w.storage),
                        Intercept(Intercept(c, w.storage).(retry := true), Dispatch(w, c).0.storage)]
    ensures Dispatch(w, c).1 == (if final.Ok? then Delivered(final.data) else Rejected(final))
  {
    var out := Intercept(c, w.storage);
    var w1 := w.(sent := w.sent + [out], pending := w.pending[1..]);
    var flagged := out.(retry := true);
    DispatchOn401(w, c);
    assert w1.pending == [Ok(pair), final] + rest;
    RefreshDelivered(w1, pair, [final] + rest);
    RecoverAfterRefresh(w1, flagged, HttpError(401, status));
    var w3 := StorePair(RefreshCall(w1).0, RefreshedPair(pair));
    assert w3.pending == [final] + rest;
    if final.HttpError? && final.status == 401 {
      NoRefreshAttempt(w3, flagged);
    } else {
      OtherRepliesPassThrough(w3, flagged);
    }
  }

  /** A refresh POST answered with a pair: it is sent under the next id and
      delivers the pair. */
  lemma RefreshDelivered(w: Wire, pair: Data, rest: seq<Reply>)
    requires Truthy(Stored(w.storage, RefreshKey))
    requires w.pending == [Ok(pair)] + rest
    ensures RefreshCall(w) ==
              (w.(nextId := w.nextId + 1,
                  sent := w.sent + [Intercept(RefreshRequest(w.nextId, w.storage[RefreshKey]), w.storage)],
                  pending := rest),
               Delivered(pair))
  {
    var wn := w.(nextId := w.nextId + 1);
    OtherRepliesPassThrough(wn, RefreshRequest(w.nextId, w.storage[RefreshKey]));
    assert wn.pending[1..] == rest;
  }

  /** A refresh that fails with anything but 401 removes all three keys,
      forces /login and rejects with the original 401. */
  lemma RefreshFailureLogsOut(w: Wire, c: Request, failure: Reply, status: Option<string>,
                              rest: seq<Reply>)
    requires !c.retry && Truthy(Stored(w.storage, RefreshKey))
    requires !failure.Ok? && !(failure.HttpError? && failure.status == 401)
    requires w.pending == [HttpError(401, status), failure] + rest
    ensures Dispatch(w, c).0.storage == Cleared(w.storage)
    ensures Dispatch(w, c).0.location == Some("/login")
    ensures Dispatch(w, c).1 == Rejected(HttpError(401, status))
  {
    var out := Intercept(c, w.storage);
    var w1 := w.(sent := w.sent + [out], pending := w.pending[1..]);
    DispatchOn401(w, c);
    var wn := w1.(nextId := w1.nextId + 1);
    var rr := RefreshRequest(w1.nextId, w1.storage[RefreshKey]);
    assert RefreshCall(w1) == Dispatch(wn, rr);
    assert wn.pending == [failure] + rest;
    OtherRepliesPassThrough(wn, rr);
    RecoverAfterFailedRefresh(w1, out.(retry := true), HttpError(401, status));
  }
}
