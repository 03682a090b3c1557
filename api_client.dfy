/** The request and response interceptors of src/shared/api/client.ts.

    The module-level `isRefreshing` flag and `failedQueue` array become the
    fields of an `Interceptor` object, and each Axios request config becomes a
    `RequestConfig` object whose headers and `_retry` flag are changed in
    place. The promise interleaving of one JavaScript thread is modelled as a
    sequence of calls: `OnRequest` when a request is dispatched,
    `OnResponseError` when a response fails, and `CompleteRefresh` when the
    refresh POST issued by a first 401 settles. That POST goes through the
    plain `axios` instance, so it never re-enters these interceptors; its
    result arrives as the parameter of `CompleteRefresh`. */
module ApiClient {
  import opened Common
  import opened TokenStorage

  const Authorization := "Authorization"
  const RefreshPath := "/auth/refresh"

  /** The credential of section 2.1 of RFC 6750: `Bearer <token>`. */
  function Bearer(token: string): string {
    "Bearer " + token
  }

  /** Two different tokens never give the same header value, so the header
      identifies the token it was built from. */
  lemma BearerInjective(a: string, b: string)
    ensures Bearer(a) == Bearer(b) <==> a == b
  {
    if Bearer(a) == Bearer(b) {
      assert a == Bearer(a)[7..] == Bearer(b)[7..] == b;
    }
  }

  /** The headers after the request interceptor: `Authorization` is set from a
      truthy in-memory access token, and left alone otherwise. */
  function WithBearer(headers: map<string, string>, access: Option<string>): (r: map<string, string>)
    ensures Truthy(access) ==> Authorization in r && r[Authorization] == Bearer(access.value)
    ensures !Truthy(access) ==> r == headers
    ensures r.Keys <= headers.Keys + {Authorization}
    ensures forall k :: k in headers && k != Authorization ==> k in r && r[k] == headers[k]
  {
    if Truthy(access) then headers[Authorization := Bearer(access.value)] else headers
  }

  /** `${tokenStorage.getAccessToken()}` in the refresh POST's header: a
      missing token is rendered as the text `null`. */
  function RefreshAuthorization(access: Option<string>): (h: string)
    ensures access.None? ==> h == "Bearer null"
  {
    Bearer(if access.Some? then access.value else "null")
  }

  datatype AuthTokens = AuthTokens(accessToken: string, refreshToken: string)

  /** An Axios error: `error.response?.status` is `None` when there was no response. */
  datatype ApiError = ApiError(status: Option<int>, message: string)

  /** The refresh POST: body `{ refreshToken }` and its own `Authorization` header. */
  datatype RefreshCall = RefreshCall(path: string, refreshToken: string, authorization: string)

  /** How the refresh POST settled. */
  datatype RefreshResult = Refreshed(pair: AuthTokens) | RefreshFailed(error: ApiError)

  /** What the response interceptor decides for a failed response. */
  datatype Decision =
    | PassThrough
    | Enqueue
    | NoRefreshToken
    | StartRefresh(refreshToken: string)

  /** The branches of the response interceptor, in source order. */
  function Decide(status: Option<int>, retry: bool, refreshing: bool, refreshToken: Option<string>): Decision {
    if status != Some(401) || retry then PassThrough
    else if refreshing then Enqueue
    else if !Truthy(refreshToken) then NoRefreshToken
    else StartRefresh(refreshToken.value)
  }

  /** Only a 401 on a request not yet marked `_retry` is handled; every other
      error, 403 included, passes through unchanged. */
  lemma HandledIffFresh401(status: Option<int>, retry: bool, refreshing: bool, refreshToken: Option<string>)
    ensures Decide(status, retry, refreshing, refreshToken) != PassThrough <==> status == Some(401) && !retry
    ensures Decide(Some(403), retry, refreshing, refreshToken) == PassThrough
  {
  }

  /** A refresh starts exactly when a fresh 401 arrives while none is in
      progress and a non-empty refresh token is stored. */
  lemma StartsRefreshIff(status: Option<int>, retry: bool, refreshing: bool, refreshToken: Option<string>, t: string)
    ensures Decide(status, retry, refreshing, refreshToken) == StartRefresh(t)
        <==> status == Some(401) && !retry && !refreshing && refreshToken == Some(t) && t != ""
  {
  }

  /** Whether a refresh is in progress after a decision. */
  function RefreshingAfter(refreshing: bool, d: Decision): bool {
    refreshing || d.StartRefresh?
  }

  /** The decisions for a run of failed responses during which no refresh
      settles; each failure is its status and its request's `_retry` flag. */
  function Decisions(refreshing: bool, failures: seq<(Option<int>, bool)>, refreshToken: Option<string>): seq<Decision>
    decreases |failures|
  {
    if failures == [] then []
    else
      var d := Decide(failures[0].0, failures[0].1, refreshing, refreshToken);
      [d] + Decisions(RefreshingAfter(refreshing, d), failures[1..], refreshToken)
  }

  function CountStarts(ds: seq<Decision>): nat {
    if ds == [] then 0 else (if ds[0].StartRefresh? then 1 else 0) + CountStarts(ds[1..])
  }

  /** However many responses fail while no refresh settles, at most one
      refresh is started, and none when one was already in progress. */
  lemma {:induction false} AtMostOneRefresh(refreshing: bool, failures: seq<(Option<int>, bool)>, refreshToken: Option<string>)
    ensures CountStarts(Decisions(refreshing, failures, refreshToken)) <= 1
    ensures refreshing ==> CountStarts(Decisions(refreshing, failures, refreshToken)) == 0
    decreases |failures|
  {
    if failures != [] {
      var d := Decide(failures[0].0, failures[0].1, refreshing, refreshToken);
      AtMostOneRefresh(RefreshingAfter(refreshing, d), failures[1..], refreshToken);
    }
  }

  /** N requests that all fail with 401 while no refresh is in progress and a
      refresh token is stored: the first starts the refresh and every other
      one waits in the queue for it. */
  lemma {:induction false} ConcurrentExpiry(failures: seq<(Option<int>, bool)>, t: string)
    requires |failures| >= 1 && t != ""
    requires forall i :: 0 <= i < |failures| ==> failures[i] == (Some(401), false)
    ensures var ds := Decisions(false, failures, Some(t));
      |ds| == |failures| && ds[0] == StartRefresh(t) && forall i :: 1 <= i < |ds| ==> ds[i] == Enqueue
  {
    var rest := failures[1..];
    EnqueuedWhileRefreshing(rest, t);
  }

  lemma {:induction false} EnqueuedWhileRefreshing(failures: seq<(Option<int>, bool)>, t: string)
    requires forall i :: 0 <= i < |failures| ==> failures[i] == (Some(401), false)
    ensures var ds := Decisions(true, failures, Some(t));
      |ds| == |failures| && forall i :: 0 <= i < |ds| ==> ds[i] == Enqueue
    decreases |failures|
  {
    if failures != [] {
      EnqueuedWhileRefreshing(failures[1..], t);
    }
  }

  /** How `processQueue` settles one waiter: rejected when an error is given,
      resolved when a non-empty token is given, otherwise left unsettled. */
  datatype Settlement = Resolve(token: string) | Reject(error: ApiError) | Unsettled

  function Settle(error: Option<ApiError>, token: Option<string>): (s: Settlement)
    ensures s.Reject? <==> error.Some?
    ensures s.Resolve? <==> error.None? && Truthy(token)
    ensures s.Reject? ==> s.error == error.value
    ensures s.Resolve? ==> Some(s.token) == token
  {
    if error.Some? then Reject(error.value)
    else if Truthy(token) then Resolve(token.value)
    else Unsettled
  }

  /** A waiter's headers once its `.then` continuation has run. */
  function AfterSettle(headers: map<string, string>, s: Settlement): map<string, string> {
    if s.Resolve? then headers[Authorization := Bearer(s.token)] else headers
  }

  /** A waiter resolved with the refreshed token is replayed carrying exactly
      that token: its `Authorization` header names `u` only when `u` is the
      token `processQueue` handed out. */
  lemma WaiterHeaderRecoversToken(headers: map<string, string>, t: string, u: string)
    requires t != ""
    ensures Authorization in AfterSettle(headers, Settle(None, Some(t)))
    ensures AfterSettle(headers, Settle(None, Some(t)))[Authorization] == Bearer(u) <==> u == t
  {
    BearerInjective(t, u);
  }

  /** An Axios request config: its headers and the `_retry` flag (`undefined` is `false`). */
  class RequestConfig {
    var headers: map<string, string>
    var retry: bool

    constructor (headers: map<string, string>)
      ensures this.headers == headers && !retry
    {
      this.headers := headers;
      retry := false;
    }
  }

  /** How an interceptor call, or a waiter in the queue, ends (or where it is suspended). */
  datatype Outcome =
    /** The returned promise rejects with this error. */
    | Rejected(error: ApiError)
    /** Suspended in `failedQueue` until the in-flight refresh settles. */
    | Queued
    /** Suspended on the refresh POST it issued. */
    | AwaitingRefresh(call: RefreshCall)
    /** Resolved by dispatching the request again through `apiClient`. */
    | Replayed(request: RequestConfig)
    /** A waiter that `processQueue` neither resolved nor rejected: it never settles. */
    | Hanging

  function Settled(r: RequestConfig, s: Settlement): Outcome {
    match s
    case Resolve(_) => Replayed(r)
    case Reject(e) => Rejected(e)
    case Unsettled => Hanging
  }

  class Interceptor {
    const store: TokenStore
    /** `isRefreshing`. */
    var isRefreshing: bool
    /** `failedQueue`: each waiter is the request whose interceptor call pushed it. */
    var failedQueue: seq<RequestConfig>
    /** The `originalRequest` of the interceptor call suspended on the refresh
        POST (the one that started the refresh), or null when none is. */
    var refreshOwner: RequestConfig?

    /** At most one refresh is in progress, and it belongs to a request that is
        already marked `_retry`; the queue is empty unless a refresh is in progress. */
    ghost predicate Valid()
      reads this, refreshOwner
    {
      && (isRefreshing <==> refreshOwner != null)
      && (!isRefreshing ==> failedQueue == [])
      && (refreshOwner != null ==> refreshOwner.retry && refreshOwner !in failedQueue)
    }

    constructor (store: TokenStore)
      ensures Valid() && this.store == store
      ensures !isRefreshing && failedQueue == [] && refreshOwner == null
    {
      this.store := store;
      isRefreshing := false;
      failedQueue := [];
      refreshOwner := null;
    }

    /** The request interceptor: attach the in-memory access token, never refresh. */
    method OnRequest(req: RequestConfig)
      requires Valid()
      modifies req
      ensures Valid()
      ensures req.headers == WithBearer(old(req.headers), store.accessTokenInMemory)
      ensures req.retry == old(req.retry)
    {
      var accessToken := store.GetAccessToken();
      if Truthy(accessToken) {
        req.headers := req.headers[Authorization := Bearer(accessToken.value)];
      }
    }

    /** The response interceptor's error handler, up to its first suspension. */
    method OnResponseError(req: RequestConfig, error: ApiError) returns (out: Outcome)
      requires Valid()
      modifies this, req, store
      ensures Valid()
      ensures req.headers == old(req.headers)
      ensures match Decide(error.status, old(req.retry), old(isRefreshing), old(store.RefreshToken()))
        case PassThrough =>
          && out == Rejected(error)
          && unchanged(this, req, store)
        case Enqueue =>
          && out == Queued
          && isRefreshing && refreshOwner == old(refreshOwner)
          && failedQueue == old(failedQueue) + [req]
          && unchanged(req, store)
        case NoRefreshToken =>
          && out == Rejected(error)
          && req.retry
          && !isRefreshing && refreshOwner == null && failedQueue == []
          && store.accessTokenInMemory == None
          && store.cookies == old(store.cookies) - {RefreshTokenKey}
        case StartRefresh(t) =>
          && out == AwaitingRefresh(RefreshCall(RefreshPath, t, RefreshAuthorization(old(store.accessTokenInMemory))))
          && req.retry
          && isRefreshing && refreshOwner == req && failedQueue == []
          && unchanged(store)
    {
      if error.status != Some(401) || req.retry {
        return Rejected(error);
      }
      if isRefreshing {
        failedQueue := failedQueue + [req];
        return Queued;
      }
      req.retry := true;
      isRefreshing := true;
      var refreshToken := store.GetRefreshToken();
      if !Truthy(refreshToken) {
        store.ClearTokens();
        isRefreshing := false;
        return Rejected(error);
      }
      refreshOwner := req;
      var access := store.GetAccessToken();
      out := AwaitingRefresh(RefreshCall(RefreshPath, refreshToken.value, RefreshAuthorization(access)));
    }

    /** `processQueue(error, token)`: settle every waiter and empty the queue. A
        resolved waiter's continuation puts the new token in its headers and
        replays it; a rejected one rejects with the given error. */
    method ProcessQueue(error: Option<ApiError>, token: Option<string>) returns (outs: seq<Outcome>)
      requires Valid()
      modifies this, set r | r in failedQueue
      ensures Valid()
      ensures failedQueue == []
      ensures isRefreshing == old(isRefreshing) && refreshOwner == old(refreshOwner)
      ensures |outs| == |old(failedQueue)|
      ensures forall i :: 0 <= i < |outs| ==> outs[i] == Settled(old(failedQueue)[i], Settle(error, token))
      ensures forall r :: r in old(failedQueue) ==>
        r.headers == AfterSettle(old(r.headers), Settle(error, token)) && r.retry == old(r.retry)
    {
      var queue := failedQueue;
      var s := Settle(error, token);
      outs := [];
      var i := 0;
      while i < |queue|
        invariant 0 <= i <= |queue|
        invariant failedQueue == queue
        invariant isRefreshing == old(isRefreshing) && refreshOwner == old(refreshOwner)
        invariant |outs| == i
        invariant forall j :: 0 <= j < i ==> outs[j] == Settled(queue[j], s)
        invariant forall r :: r in queue[..i] ==> r.headers == AfterSettle(old(r.headers), s)
        invariant forall r :: r in queue[i..] && r !in queue[..i] ==> r.headers == old(r.headers)
        invariant forall r :: r in queue ==> r.retry == old(r.retry)
      {
        var w := queue[i];
        match s {
          case Resolve(t) =>
            w.headers := w.headers[Authorization := Bearer(t)];
          case Reject(_) =>
          case Unsettled =>
        }
        outs := outs + [Settled(w, s)];
        assert queue[..i + 1] == queue[..i] + [w];
        i := i + 1;
      }
      failedQueue := [];
    }

    /** The in-flight refresh POST settles: the rest of the interceptor call
        that started it runs, including its `finally`. */
    method CompleteRefresh(result: RefreshResult) returns (owner: Outcome, waiters: seq<Outcome>)
      requires Valid() && isRefreshing
      modifies this, store, refreshOwner, set r | r in failedQueue
      ensures Valid()
      ensures !isRefreshing && refreshOwner == null && failedQueue == []
      ensures |waiters| == |old(failedQueue)|
      ensures old(refreshOwner).retry
      ensures forall r :: r in old(failedQueue) ==> r.retry == old(r.retry)
      ensures match result
        case Refreshed(pair) =>
          && store.accessTokenInMemory == Some(pair.accessToken)
          && store.cookies == old(store.cookies)[RefreshTokenKey := pair.refreshToken]
          && owner == Replayed(old(refreshOwner))
          && old(refreshOwner).headers == old(refreshOwner.headers)[Authorization := Bearer(pair.accessToken)]
          && (forall i :: 0 <= i < |waiters| ==>
                waiters[i] == if pair.accessToken != "" then Replayed(old(failedQueue)[i]) else Hanging)
          && (forall r :: r in old(failedQueue) ==>
                r.headers == if pair.accessToken != "" then old(r.headers)[Authorization := Bearer(pair.accessToken)] else old(r.headers))
        case RefreshFailed(e) =>
          && store.accessTokenInMemory == None
          && store.cookies == old(store.cookies) - {RefreshTokenKey}
          && owner == Rejected(e)
          && old(refreshOwner).headers == old(refreshOwner.headers)
          && (forall i :: 0 <= i < |waiters| ==> waiters[i] == Rejected(e))
          && (forall r :: r in old(failedQueue) ==> r.headers == old(r.headers))
    {
      var original := refreshOwner;
      match result {
        case Refreshed(pair) =>
          store.SetTokens(pair.accessToken, pair.refreshToken);
          waiters := ProcessQueue(None, Some(pair.accessToken));
          original.headers := original.headers[Authorization := Bearer(pair.accessToken)];
          owner := Replayed(original);
        case RefreshFailed(e) =>
          waiters := ProcessQueue(Some(e), None);
          store.ClearTokens();
          owner := Rejected(e);
      }
      isRefreshing := false;
      refreshOwner := null;
    }
  }

  /** Several requests fail with 401 while no refresh is in progress and a
      refresh token is stored, then the single refresh succeeds: exactly one
      refresh POST is issued, every request is replayed, and each carries the
      new access token. */
  method ConcurrentExpiry401(ic: Interceptor, reqs: seq<RequestConfig>, e: ApiError, pair: AuthTokens)
    returns (outs: seq<Outcome>, owner: Outcome, waiters: seq<Outcome>)
    requires ic.Valid() && !ic.isRefreshing
    requires e.status == Some(401) && pair.accessToken != ""
    requires |reqs| >= 1
    requires forall i, j :: 0 <= i < j < |reqs| ==> reqs[i] != reqs[j]
    requires forall r :: r in reqs ==> !r.retry
    requires HasTokensIn(ic.store.cookies)
    modifies ic, ic.store, set r | r in reqs
    ensures ic.Valid() && !ic.isRefreshing
    ensures |outs| == |reqs| && outs[0].AwaitingRefresh?
    ensures forall i :: 1 <= i < |outs| ==> outs[i] == Queued
    ensures owner == Replayed(reqs[0])
    ensures |waiters| == |reqs| - 1
    ensures forall i :: 0 <= i < |waiters| ==> waiters[i] == Replayed(reqs[i + 1])
    ensures forall r :: r in reqs ==> Authorization in r.headers && r.headers[Authorization] == Bearer(pair.accessToken)
    ensures ic.store.accessTokenInMemory == Some(pair.accessToken) && ic.store.RefreshToken() == Some(pair.refreshToken)
  {
    var first := ic.OnResponseError(reqs[0], e);
    outs := [first];
    var i := 1;
    while i < |reqs|
      invariant 1 <= i <= |reqs|
      invariant ic.Valid() && ic.isRefreshing && ic.refreshOwner == reqs[0]
      invariant ic.failedQueue == reqs[1..i]
      invariant |outs| == i && outs[0] == first && first.AwaitingRefresh?
      invariant forall j :: 1 <= j < i ==> outs[j] == Queued
      invariant forall r :: r in reqs[i..] ==> !r.retry
    {
      var o := ic.OnResponseError(reqs[i], e);
      outs := outs + [o];
      assert reqs[1..i + 1] == reqs[1..i] + [reqs[i]];
      i := i + 1;
    }
    owner, waiters := ic.CompleteRefresh(Refreshed(pair));
  }
}
