/**
 * The outbound token refresher (internal/external/client.go): a transport
 * that attaches a client-credentials bearer token to every outgoing request
 * and fetches a new one, with up to three attempts and exponential backoff,
 * when the current one is missing or about to expire. Time is whole
 * seconds; the auth server's answer to each attempt and the wrapped
 * transport are oracles; sleeping advances the clock and is logged.
 */
module External {
  import opened Wrappers

  /** How the token endpoint answered one POST. A 200 carries the decoded
      body (zero values when the body does not decode). */
  datatype Response = Failed(err: string) | Received(status: int, body: TokenBody)

  datatype TokenBody = TokenBody(accessToken: string, expiresIn: int)

  datatype Request = Request(verb: string, url: string, headers: map<string, string>)

  datatype Reply = Reply(status: int, body: string)

  const MaxAttempts: nat := 3

  /** Seconds a token must still be valid for to be used without a refresh. */
  const ExpiryMargin: int := 30

  /** The token must be fetched: there is none, or now + 30s is strictly
      after its expiry. A token used without a refresh is present and has
      at least 30 seconds left. */
  predicate NeedsRefresh(token: string, expiry: int, now: int)
    ensures !NeedsRefresh(token, expiry, now) ==> token != "" && expiry - now >= ExpiryMargin
  {
    token == "" || now + ExpiryMargin > expiry
  }

  /** The refresh margin: exactly 30 seconds before expiry the token is still
      used, one second later it is refreshed. */
  lemma RefreshMargin(token: string, expiry: int)
    requires token != ""
    ensures !NeedsRefresh(token, expiry, expiry - ExpiryMargin)
    ensures NeedsRefresh(token, expiry, expiry - ExpiryMargin + 1)
  {
  }

  /** Once a token needs a refresh it keeps needing one as time passes. */
  lemma NeedsRefreshMonotonic(token: string, expiry: int, now: int, later: int)
    requires now <= later && NeedsRefresh(token, expiry, now)
    ensures NeedsRefresh(token, expiry, later)
  {
  }

  /** Does this answer end the retry loop? */
  predicate Accepted(r: Response)
  {
    r.Received? && r.status == 200
  }

  /** The error a failed attempt leaves in lastErr: the transport error, or
      nil when the server answered with another status. */
  function AttemptError(r: Response): Option<string>
  {
    if r.Failed? then Some(r.err) else None
  }

  /** The sleep after failed attempt i: 1 << i seconds. Each sleep is one
      second longer than all the earlier ones together. */
  function Delay(i: nat): (d: nat)
    ensures d == Slept(i) + 1
    decreases i, 1
  {
    if i == 0 then 1 else 2 * Delay(i - 1)
  }

  /** The sleeps after the first n failed attempts, in order. */
  function Backoff(n: nat): seq<nat>
  {
    if n == 0 then [] else Backoff(n - 1) + [Delay(n - 1)]
  }

  /** Seconds slept in the first n failed attempts. */
  function Slept(n: nat): nat
    decreases n, 0
  {
    if n == 0 then 0 else Slept(n - 1) + Delay(n - 1)
  }

  lemma {:induction false} BackoffSchedule()
    ensures Backoff(MaxAttempts) == [1, 2, 4] && Slept(MaxAttempts) == 7
  {
    assert Backoff(1) == [1];
    assert Backoff(2) == [1, 2];
  }

  /** How one call of refresh ends: attempt k was accepted and the token and
      expiry it stores, or all attempts failed and the error returned. */
  datatype RefreshEnd = Refreshed(attempt: nat, token: string, expiry: int) | Exhausted(err: Option<string>)

  /** The retry loop from attempt i on, at clock time `clock`, with lastErr
      as the previous attempt left it. */
  function Run(server: nat -> Response, i: nat, clock: int, lastErr: Option<string>): (r: RefreshEnd)
    requires i <= MaxAttempts
    ensures r.Refreshed? ==> i <= r.attempt < MaxAttempts
    decreases MaxAttempts - i
  {
    if i == MaxAttempts then Exhausted(lastErr)
    else if Accepted(server(i)) then Refreshed(i, server(i).body.accessToken, clock + server(i).body.expiresIn)
    else Run(server, i + 1, clock + Delay(i), AttemptError(server(i)))
  }

  /** One call of refresh started at time `start`: it stores an accepted
      attempt's token, with its expiry counted from the time the answer came;
      otherwise it returns the third attempt's error. */
  function RefreshRun(server: nat -> Response, start: int): (r: RefreshEnd)
    ensures r.Refreshed? ==>
              && r.attempt < MaxAttempts && Accepted(server(r.attempt))
              && r.token == server(r.attempt).body.accessToken
              && r.expiry == start + Slept(r.attempt) + server(r.attempt).body.expiresIn
    ensures r.Exhausted? ==> r.err == AttemptError(server(MaxAttempts - 1))
  {
    RunCharacterised(server, 0, start, None);
    Run(server, 0, start, None)
  }

  /** The loop from attempt i on: it stops at the first accepted attempt,
      stores that attempt's token and its expiry counted from the time the
      answer came (after the sleeps so far), and otherwise ends with the
      error of the last attempt. */
  lemma {:induction false} RunCharacterised(server: nat -> Response, i: nat, clock: int, lastErr: Option<string>)
    requires i <= MaxAttempts
    ensures var r := Run(server, i, clock, lastErr);
            && (r.Refreshed? <==> exists k :: i <= k < MaxAttempts && Accepted(server(k)))
            && (r.Refreshed? ==>
                  && Accepted(server(r.attempt))
                  && (forall j :: i <= j < r.attempt ==> !Accepted(server(j)))
                  && r.token == server(r.attempt).body.accessToken
                  && r.expiry == clock + (Slept(r.attempt) - Slept(i)) + server(r.attempt).body.expiresIn)
            && (r.Exhausted? ==> r.err == if i == MaxAttempts then lastErr else AttemptError(server(MaxAttempts - 1)))
    decreases MaxAttempts - i
  {
    if i < MaxAttempts && !Accepted(server(i)) {
      RunCharacterised(server, i + 1, clock + Delay(i), AttemptError(server(i)));
    }
  }

  /** A refresh succeeds iff one of the three attempts is accepted; it takes
      the first such, and stores its token and now + expires_in; otherwise it
      returns the error of the third attempt. */
  lemma RefreshCharacterised(server: nat -> Response, start: int)
    ensures var r := RefreshRun(server, start);
            && (r.Refreshed? <==> exists k :: 0 <= k < MaxAttempts && Accepted(server(k)))
            && (r.Refreshed? ==>
                  && Accepted(server(r.attempt))
                  && (forall j :: 0 <= j < r.attempt ==> !Accepted(server(j)))
                  && r.token == server(r.attempt).body.accessToken
                  && r.expiry == start + Slept(r.attempt) + server(r.attempt).body.expiresIn)
            && (r.Exhausted? ==> r.err == AttemptError(server(MaxAttempts - 1)))
  {
    RunCharacterised(server, 0, start, None);
  }

  /** AS WRITTEN, a refresh whose three attempts all got a non-200 answer
      returns nil: the caller goes on as if the token had been fetched. */
  lemma StatusFailuresReturnNil(server: nat -> Response, start: int)
    requires forall k :: 0 <= k < MaxAttempts ==> server(k).Received? && server(k).status != 200
    ensures RefreshRun(server, start) == Exhausted(None)
  {
    RefreshCharacterised(server, start);
  }

  /** Why a corrected refresh fails: a transport error, or the status of a
      non-200 answer. */
  datatype RefreshError = TransportError(message: string) | StatusError(status: int)

  function StrictAttemptError(r: Response): RefreshError
  {
    if r.Failed? then TransportError(r.err) else StatusError(r.status)
  }

  /** The retry loop as evidently intended: a non-200 answer is an error too.
      It fails only when no remaining attempt was accepted, and then with an
      error as soon as one attempt has been made. */
  function StrictRun(server: nat -> Response, i: nat, clock: int, lastErr: Option<RefreshError>): (r: Result<(string, int), Option<RefreshError>>)
    requires i <= MaxAttempts
    ensures r.Failure? ==> forall k :: i <= k < MaxAttempts ==> !Accepted(server(k))
    ensures r.Failure? && (i < MaxAttempts || lastErr.Some?) ==> r.error.Some?
    decreases MaxAttempts - i
  {
    if i == MaxAttempts then Failure(lastErr)
    else if Accepted(server(i)) then Success((server(i).body.accessToken, clock + server(i).body.expiresIn))
    else StrictRun(server, i + 1, clock + Delay(i), Some(StrictAttemptError(server(i))))
  }

  /** With the correction, a refresh reports an error exactly when no attempt
      was accepted, and that error is the third attempt's. */
  lemma {:induction false} StrictRunReportsFailure(server: nat -> Response, i: nat, clock: int, lastErr: Option<RefreshError>)
    requires 0 < i <= MaxAttempts ==> lastErr.Some?
    requires i <= MaxAttempts
    ensures var r := StrictRun(server, i, clock, lastErr);
            && (r.Success? <==> exists k :: i <= k < MaxAttempts && Accepted(server(k)))
            && (r.Failure? ==> r.error.Some?)
            && (r.Failure? && i < MaxAttempts ==> r.error == Some(StrictAttemptError(server(MaxAttempts - 1))))
    decreases MaxAttempts - i
  {
    if i < MaxAttempts && !Accepted(server(i)) {
      StrictRunReportsFailure(server, i + 1, clock + Delay(i), Some(StrictAttemptError(server(i))));
    }
  }

  /** RoundTrip at time `now` gives up: a refresh was needed and it returned
      an error. */
  predicate RefreshFails(token: string, expiry: int, now: int, server: nat -> Response)
  {
    NeedsRefresh(token, expiry, now) && RefreshRun(server, now).Exhausted? && RefreshRun(server, now).err.Some?
  }

  /** The request handed on, with the bearer token attached: the
      Authorization header is replaced and nothing else changes. */
  function WithBearer(req: Request, token: string): (r: Request)
    ensures r.verb == req.verb && r.url == req.url
    ensures r.headers.Keys == req.headers.Keys + {"Authorization"}
    ensures r.headers["Authorization"] == "Bearer " + token
    ensures forall h :: h in req.headers && h != "Authorization" ==> r.headers[h] == req.headers[h]
  {
    req.(headers := req.headers["Authorization" := "Bearer " + token])
  }

  class TokenTransport {
    const authUrl: string
    const user: string
    const pass: string
    var token: string
    var expiry: int
    /** Every sleep, in seconds, in order. */
    ghost var sleeps: seq<nat>
    /** Number of POSTs to the token endpoint. */
    ghost var posts: nat
    /** Every request handed to the wrapped transport, in order. */
    ghost var forwarded: seq<Request>

    /** A transport with no token yet. */
    constructor (authUrl: string, user: string, pass: string)
      ensures this.authUrl == authUrl && this.user == user && this.pass == pass
      ensures token == "" && expiry == 0 && sleeps == [] && posts == 0 && forwarded == []
    {
      this.authUrl := authUrl;
      this.user := user;
      this.pass := pass;
      token := "";
      expiry := 0;
      sleeps := [];
      posts := 0;
      forwarded := [];
    }

    /** refresh, started at time `start`; server(i) is the answer to the
        i-th POST. */
    method Refresh(server: nat -> Response, start: int) returns (err: Option<string>)
      modifies this
      ensures forwarded == old(forwarded)
      ensures match RefreshRun(server, start)
                case Refreshed(k, tok, exp) =>
                  err.None? && token == tok && expiry == exp &&
                  sleeps == old(sleeps) + Backoff(k) && posts == old(posts) + k + 1
                case Exhausted(e) =>
                  err == e && token == old(token) && expiry == old(expiry) &&
                  sleeps == old(sleeps) + Backoff(MaxAttempts) && posts == old(posts) + MaxAttempts
    {
      var lastErr: Option<string> := None;
      var clock := start;
      var i := 0;
      while i < MaxAttempts
        invariant 0 <= i <= MaxAttempts
        invariant Run(server, i, clock, lastErr) == RefreshRun(server, start)
        invariant token == old(token) && expiry == old(expiry) && forwarded == old(forwarded)
        invariant sleeps == old(sleeps) + Backoff(i) && posts == old(posts) + i
      {
        var resp := server(i);
        posts := posts + 1;
        if resp.Received? && resp.status == 200 {
          token := resp.body.accessToken;
          expiry := clock + resp.body.expiresIn;
          return None;
        }
        lastErr := if resp.Failed? then Some(resp.err) else None;
        sleeps := sleeps + [Delay(i)];
        clock := clock + Delay(i);
        i := i + 1;
      }
      err := lastErr;
    }

    /** RoundTrip at time `now`: refresh first if the token needs it; a
        refresh error is returned without calling the wrapped transport;
        otherwise the request goes to it exactly once, with the current token
        attached. */
    method RoundTrip(req: Request, now: int, server: nat -> Response,
                     underlying: Request -> Result<Reply, string>) returns (r: Result<Reply, string>)
      modifies this
      ensures !NeedsRefresh(old(token), old(expiry), now) ==>
                token == old(token) && expiry == old(expiry) && sleeps == old(sleeps) && posts == old(posts)
      ensures NeedsRefresh(old(token), old(expiry), now) ==>
                match RefreshRun(server, now)
                  case Refreshed(k, tok, exp) =>
                    token == tok && expiry == exp && sleeps == old(sleeps) + Backoff(k) && posts == old(posts) + k + 1
                  case Exhausted(_) =>
                    token == old(token) && expiry == old(expiry) && sleeps == old(sleeps) + Backoff(MaxAttempts) &&
                    posts == old(posts) + MaxAttempts
      ensures RefreshFails(old(token), old(expiry), now, server) ==>
                r == Failure(RefreshRun(server, now).err.value) && forwarded == old(forwarded)
      ensures !RefreshFails(old(token), old(expiry), now, server) ==>
                r == underlying(WithBearer(req, token)) && forwarded == old(forwarded) + [WithBearer(req, token)]
    {
      var expired := token == "" || now + ExpiryMargin > expiry;
      if expired {
        var err := Refresh(server, now);
        if err.Some? {
          return Failure(err.value);
        }
      }
      var authorized := WithBearer(req, token);
      forwarded := forwarded + [authorized];
      r := underlying(authorized);
    }
  }
}
