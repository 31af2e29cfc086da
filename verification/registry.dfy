/**
 * The server's single in-memory credential registry (`sessions` in main.js) and the request
 * handlers that change it: the start of the OAuth authorization-code flow, its callback, the
 * entry check of the event stream and the hourly expiry sweep.
 *
 * The registry holds two kinds of entry under one key space: a pending authorization keyed by its
 * OAuth `state`, and a session keyed by its session token.  Randomness, the clock and the replies
 * of the identity provider and of the tracker are parameters.
 */
module Registry {
  import opened Wrappers
  import opened Text

  /** `crypto.randomBytes(16)` for an OAuth state, `crypto.randomBytes(32)` for a session token. */
  const STATE_BYTES := 16
  const SESSION_TOKEN_BYTES := 32

  /** Entries older than this many milliseconds are swept: 24 hours. */
  const MAX_AGE_MS := 24 * 60 * 60 * 1000

  const AUDIENCE := "api.atlassian.com"
  const SCOPE := "read:jira-work write:jira-work read:jira-user offline_access"

  datatype Entry =
    | Pending(created: int)
    | Session(token: string, cloudId: string, url: string, spaces: seq<string>, created: int)

  /** An accessible resource (a Jira site) and a project of it, as the tracker lists them. */
  datatype Site = Site(id: string, url: string)
  datatype Project = Project(key: string)

  /** What one awaited request to the identity provider or the tracker gave: a value or a thrown error. */
  datatype Fetched<T> = Fetched(value: T) | FetchFailed(message: string)

  /** The replies the callback awaits, in order: the token exchange, the accessible resources and
      the project list of the first resource.  A reply is only looked at if the flow gets that far. */
  datatype AuthExchange = AuthExchange(accessToken: Fetched<string>, sites: Fetched<seq<Site>>, projects: Fetched<seq<Project>>)

  /** The query of the redirect to the identity provider's authorize endpoint. */
  datatype AuthorizeQuery = AuthorizeQuery(
    audience: string, clientId: string, scope: string, redirectUri: string,
    state: string, responseType: string, prompt: string)

  datatype StartOutcome = NotConfigured(callbackUrl: string) | Redirect(query: AuthorizeQuery)

  datatype CallbackOutcome =
    | Rejected(status: int, body: string)
    | Connected(mcpUrl: string, spaces: seq<string>, projectCount: nat)

  datatype StreamEntry = Unauthorized(status: int, error: string) | Opened(entry: Entry)

  /** `!process.env.ATLASSIAN_CLIENT_ID` is false: the variable is set and not empty. */
  predicate Configured(clientId: Option<string>)
  {
    clientId.Some? && clientId.value != ""
  }

  function CallbackUrl(origin: string): string
  {
    origin + "/auth/callback"
  }

  /** The path and query name of the event stream, which reads the session token from `token`. */
  const STREAM_QUERY := "/v1/sse?token="

  /** The prefix of the 500 reply to a failed downstream request during the callback. */
  const AUTH_FAILED := "Authentication failed: "

  /** The connection URL handed to the user: the stream endpoint on this host, with the session
      token as its `token` query parameter. */
  function McpUrl(origin: string, token: string): (u: string)
    ensures |u| == |origin| + |STREAM_QUERY| + |token|
    ensures u[..|origin|] == origin
    ensures u[|origin|..|u| - |token|] == STREAM_QUERY
    ensures u[|u| - |token|..] == token
  {
    origin + STREAM_QUERY + token
  }

  /** The reply of the callback's `catch`: status 500, and the error's message after the prefix. */
  function AuthenticationFailed(message: string): CallbackOutcome
  {
    Rejected(500, AUTH_FAILED + message)
  }

  /** Every key's length tells what it holds: a state is 32 hexadecimal digits, a session token 64. */
  ghost predicate WellKeyed(m: map<string, Entry>)
  {
    forall k :: k in m ==> |k| == 2 * (if m[k].Pending? then STATE_BYTES else SESSION_TOKEN_BYTES)
  }

  // ---------------------------------------------------------------------------------------------
  // The project keys of a site

  /** `projects.map(p => p.key)`. */
  function SpaceKeys(projects: seq<Project>): (keys: seq<string>)
    ensures |keys| == |projects|
    ensures forall i :: 0 <= i < |projects| ==> keys[i] == projects[i].key
  {
    if projects == [] then [] else [projects[0].key] + SpaceKeys(projects[1..])
  }

  // ---------------------------------------------------------------------------------------------
  // The callback as a function of the registry

  /** The registry and the response after `GET /auth/callback` with query `state`; `random` is the
      session token's randomness, `now` the clock when the session is stored. */
  function CallbackStep(m: map<string, Entry>, state: Option<string>, ex: AuthExchange,
                        random: seq<byte>, origin: string, now: int): (r: (map<string, Entry>, CallbackOutcome))
    ensures forall k :: k in m && Some(k) != state && k != Hex(random) ==> k in r.0 && r.0[k] == m[k]
    ensures r.0.Keys <= m.Keys + {Hex(random)}
  {
    if state.None? || state.value !in m then (m, Rejected(400, "Invalid state"))
    else
      var consumed := m - {state.value};
      match ex.accessToken
      case FetchFailed(msg) => (consumed, AuthenticationFailed(msg))
      case Fetched(accessToken) =>
        match ex.sites
        case FetchFailed(msg) => (consumed, AuthenticationFailed(msg))
        case Fetched(sites) =>
          if |sites| == 0 then (consumed, Rejected(400, "No Jira sites found"))
          else
            match ex.projects
            case FetchFailed(msg) => (consumed, AuthenticationFailed(msg))
            case Fetched(projects) =>
              var token := Hex(random);
              var keys := SpaceKeys(projects);
              (consumed[token := Session(accessToken, sites[0].id, sites[0].url, keys, now)],
               Connected(McpUrl(origin, token), keys, |projects|))
  }

  /** An unknown or missing `state` is refused with 400 and leaves the registry as it was. */
  lemma InvalidStateRejected(m: map<string, Entry>, state: Option<string>, ex: AuthExchange,
                             random: seq<byte>, origin: string, now: int)
    requires state.None? || state.value !in m
    ensures CallbackStep(m, state, ex, random, origin, now) == (m, Rejected(400, "Invalid state"))
  {
  }

  /** A downstream request that throws (the token exchange, the accessible resources or, once a
      site was found, the project list) gets 500 with the first thrown error's message; the state
      is consumed and no session is stored. */
  lemma DownstreamFailureRejected(m: map<string, Entry>, state: string, ex: AuthExchange,
                                  random: seq<byte>, origin: string, now: int)
    requires state in m
    ensures var r := CallbackStep(m, Some(state), ex, random, origin, now);
            && (ex.accessToken.FetchFailed? ==>
                  r == (m - {state}, Rejected(500, AUTH_FAILED + ex.accessToken.message)))
            && (ex.accessToken.Fetched? && ex.sites.FetchFailed? ==>
                  r == (m - {state}, Rejected(500, AUTH_FAILED + ex.sites.message)))
            && (ex.accessToken.Fetched? && ex.sites.Fetched? && |ex.sites.value| > 0 && ex.projects.FetchFailed? ==>
                  r == (m - {state}, Rejected(500, AUTH_FAILED + ex.projects.message)))
  {
  }

  /** A pending `state` is consumed whatever the token exchange and the tracker reply. */
  lemma StateConsumed(m: map<string, Entry>, state: string, ex: AuthExchange,
                      random: seq<byte>, origin: string, now: int)
    requires WellKeyed(m) && |random| == SESSION_TOKEN_BYTES
    requires state in m && m[state].Pending?
    ensures state !in CallbackStep(m, Some(state), ex, random, origin, now).0
  {
    assert |state| == 2 * STATE_BYTES != |Hex(random)|;
  }

  /** Replaying a `state` after its callback always fails with 400, and changes nothing. */
  lemma ReplayRejected(m: map<string, Entry>, state: Option<string>,
                       ex1: AuthExchange, random1: seq<byte>, now1: int,
                       ex2: AuthExchange, random2: seq<byte>, now2: int, origin: string)
    requires WellKeyed(m) && |random1| == SESSION_TOKEN_BYTES
    requires state.Some? && state.value in m ==> m[state.value].Pending?
    ensures var after := CallbackStep(m, state, ex1, random1, origin, now1).0;
            CallbackStep(after, state, ex2, random2, origin, now2) == (after, Rejected(400, "Invalid state"))
  {
    var after := CallbackStep(m, state, ex1, random1, origin, now1).0;
    if state.Some? && state.value in m {
      StateConsumed(m, state.value, ex1, random1, origin, now1);
    }
    InvalidStateRejected(after, state, ex2, random2, origin, now2);
  }

  /** With no accessible site the callback answers 400, stores no session, and the state is gone. */
  lemma NoSitesNoSession(m: map<string, Entry>, state: string, accessToken: string, projects: Fetched<seq<Project>>,
                         random: seq<byte>, origin: string, now: int)
    requires state in m
    ensures var ex := AuthExchange(Fetched(accessToken), Fetched([]), projects);
            CallbackStep(m, Some(state), ex, random, origin, now) == (m - {state}, Rejected(400, "No Jira sites found"))
  {
  }

  /** A successful callback stores exactly one new session: first site, project keys in reply order,
      created now; the connection URL carries its token. */
  lemma SuccessMintsOneSession(m: map<string, Entry>, state: string, accessToken: string, sites: seq<Site>,
                               projects: seq<Project>, random: seq<byte>, origin: string, now: int)
    requires state in m && |sites| > 0
    ensures var ex := AuthExchange(Fetched(accessToken), Fetched(sites), Fetched(projects));
            var r := CallbackStep(m, Some(state), ex, random, origin, now);
            var token := Hex(random);
            && r.1 == Connected(McpUrl(origin, token), SpaceKeys(projects), |projects|)
            && r.0 == (m - {state})[token := Session(accessToken, sites[0].id, sites[0].url, SpaceKeys(projects), now)]
            && token in r.0 && r.0[token].Session? && r.0[token].created == now
            && |r.0[token].spaces| == |projects|
            && (forall i :: 0 <= i < |projects| ==> r.0[token].spaces[i] == projects[i].key)
  {
  }

  /** Only downstream success makes a session; every other outcome leaves at most one key less. */
  lemma ConnectedIff(m: map<string, Entry>, state: Option<string>, ex: AuthExchange,
                     random: seq<byte>, origin: string, now: int)
    ensures var r := CallbackStep(m, state, ex, random, origin, now);
            r.1.Connected? <==> (&& state.Some? && state.value in m
                                 && ex.accessToken.Fetched? && ex.sites.Fetched? && |ex.sites.value| > 0
                                 && ex.projects.Fetched?)
    ensures var r := CallbackStep(m, state, ex, random, origin, now);
            r.1.Rejected? ==> r.0 == (if state.Some? then m - {state.value} else m)
  {
  }

  /** The two kinds share one key space: a session token presented as `state` is accepted and the
      session it names is deleted. */
  lemma SessionTokenAcceptedAsState(m: map<string, Entry>, token: string, ex: AuthExchange,
                                    random: seq<byte>, origin: string, now: int)
    requires token in m && m[token].Session? && token != Hex(random)
    ensures var r := CallbackStep(m, Some(token), ex, random, origin, now);
            r.1 != Rejected(400, "Invalid state") && token !in r.0
  {
    var r := CallbackStep(m, Some(token), ex, random, origin, now);
    if ex.accessToken.FetchFailed? || ex.sites.FetchFailed? || (|ex.sites.value| > 0 && ex.projects.FetchFailed?) {
      DownstreamFailureRejected(m, token, ex, random, origin, now);
      assert r.1.status == 500;
    } else if |ex.sites.value| == 0 {
      NoSitesNoSession(m, token, ex.accessToken.value, ex.projects, random, origin, now);
      assert |r.1.body| != |"Invalid state"|;
    } else {
      SuccessMintsOneSession(m, token, ex.accessToken.value, ex.sites.value, ex.projects.value, random, origin, now);
    }
  }

  lemma CallbackKeepsWellKeyed(m: map<string, Entry>, state: Option<string>, ex: AuthExchange,
                               random: seq<byte>, origin: string, now: int)
    requires WellKeyed(m) && |random| == SESSION_TOKEN_BYTES
    ensures WellKeyed(CallbackStep(m, state, ex, random, origin, now).0)
  {
    ConnectedIff(m, state, ex, random, origin, now);
    var r := CallbackStep(m, state, ex, random, origin, now);
    if r.1.Connected? {
      SuccessMintsOneSession(m, state.value, ex.accessToken.value, ex.sites.value, ex.projects.value, random, origin, now);
      assert |Hex(random)| == 2 * SESSION_TOKEN_BYTES;
    }
  }

  // ---------------------------------------------------------------------------------------------
  // The sweep as a function of the registry

  predicate Stale(e: Entry, now: int)
  {
    now - e.created > MAX_AGE_MS
  }

  /** The registry after the sweep at time `now`. */
  function Swept(m: map<string, Entry>, now: int): map<string, Entry>
  {
    map k | k in m && !Stale(m[k], now) :: m[k]
  }

  /** The sweep deletes exactly the entries, pending or session alike, more than 24 hours old, and
      keeps every other entry unchanged. */
  lemma SweepDeletesExactlyStale(m: map<string, Entry>, now: int)
    ensures forall k :: k in Swept(m, now) <==> k in m && !(now - m[k].created > MAX_AGE_MS)
    ensures forall k :: k in Swept(m, now) ==> Swept(m, now)[k] == m[k]
  {
  }

  /** An entry exactly 24 hours old survives: the comparison is strict. */
  lemma SweepBoundaryKeeps(m: map<string, Entry>, k: string, now: int)
    requires k in m && now - m[k].created == MAX_AGE_MS
    ensures k in Swept(m, now)
  {
  }

  /** Sweeping twice at the same time is sweeping once. */
  lemma SweepIdempotent(m: map<string, Entry>, now: int)
    ensures Swept(Swept(m, now), now) == Swept(m, now)
  {
  }

  /** A later sweep removes at least what an earlier one did. */
  lemma LaterSweepRemovesMore(m: map<string, Entry>, earlier: int, later: int)
    requires earlier <= later
    ensures Swept(m, later).Keys <= Swept(m, earlier).Keys
  {
  }

  lemma SweepKeepsWellKeyed(m: map<string, Entry>, now: int)
    requires WellKeyed(m)
    ensures WellKeyed(Swept(m, now))
  {
  }

  // ---------------------------------------------------------------------------------------------
  // The registry object

  class CredentialRegistry {
    var entries: map<string, Entry>

    ghost predicate Valid()
      reads this
    {
      WellKeyed(entries)
    }

    /** Process start: the registry is empty. */
    constructor ()
      ensures Valid() && entries == map[]
    {
      entries := map[];
    }

    /** `GET /auth/start`: without a client id, a page of instructions and no entry; otherwise a
        pending entry under the new state and a redirect carrying that state. */
    method BeginAuthorization(clientId: Option<string>, random: seq<byte>, origin: string, now: int)
      returns (r: StartOutcome)
      requires Valid() && |random| == STATE_BYTES
      modifies this
      ensures Valid()
      ensures !Configured(clientId) ==> entries == old(entries) && r == NotConfigured(CallbackUrl(origin))
      ensures Configured(clientId) ==>
                && entries == old(entries)[Hex(random) := Pending(now)]
                && r == Redirect(AuthorizeQuery(AUDIENCE, clientId.value, SCOPE, CallbackUrl(origin),
                                                Hex(random), "code", "consent"))
    {
      if !Configured(clientId) {
        return NotConfigured(CallbackUrl(origin));
      }
      var state := Hex(random);
      assert |state| == 2 * STATE_BYTES;
      entries := entries[state := Pending(now)];
      r := Redirect(AuthorizeQuery(AUDIENCE, clientId.value, SCOPE, CallbackUrl(origin), state, "code", "consent"));
    }

    /** `GET /auth/callback`: check and consume the state first, then await the downstream replies
        and store the new session. */
    method Callback(state: Option<string>, ex: AuthExchange, random: seq<byte>, origin: string, now: int)
      returns (r: CallbackOutcome)
      requires Valid() && |random| == SESSION_TOKEN_BYTES
      modifies this
      ensures Valid()
      ensures (entries, r) == CallbackStep(old(entries), state, ex, random, origin, now)
    {
      if state.None? || state.value !in entries {
        return Rejected(400, "Invalid state");
      }
      entries := entries - {state.value};
      CallbackKeepsWellKeyed(old(entries), state, ex, random, origin, now);
      if ex.accessToken.FetchFailed? {
        return AuthenticationFailed(ex.accessToken.message);
      }
      if ex.sites.FetchFailed? {
        return AuthenticationFailed(ex.sites.message);
      }
      if |ex.sites.value| == 0 {
        return Rejected(400, "No Jira sites found");
      }
      var site := ex.sites.value[0];
      if ex.projects.FetchFailed? {
        return AuthenticationFailed(ex.projects.message);
      }
      var token := Hex(random);
      var keys := SpaceKeys(ex.projects.value);
      entries := entries[token := Session(ex.accessToken.value, site.id, site.url, keys, now)];
      r := Connected(McpUrl(origin, token), keys, |ex.projects.value|);
    }

    /** `GET /v1/sse`: 401 unless the token is a key of the registry; any entry, pending or
        session, opens the stream.  The registry is only read. */
    method OpenStream(token: Option<string>) returns (r: StreamEntry)
      ensures r.Unauthorized? <==> token.None? || token.value !in entries
      ensures r.Unauthorized? ==> r == Unauthorized(401, "Invalid token")
      ensures r.Opened? ==> token.Some? && token.value in entries && r.entry == entries[token.value]
    {
      if token.None? || token.value !in entries {
        return Unauthorized(401, "Invalid token");
      }
      r := Opened(entries[token.value]);
    }

    /** The hourly sweep: visit every entry and delete those more than 24 hours old. */
    method Sweep(now: int)
      requires Valid()
      modifies this
      ensures Valid()
      ensures entries == Swept(old(entries), now)
    {
      ghost var start := entries;
      var unvisited := entries.Keys;
      while unvisited != {}
        invariant unvisited <= start.Keys && entries.Keys <= start.Keys
        invariant forall k :: k in unvisited ==> k in entries
        invariant forall k :: k in entries ==> entries[k] == start[k]
        invariant forall k :: k in start && k !in unvisited ==> (k in entries <==> !Stale(start[k], now))
        decreases unvisited
      {
        var key :| key in unvisited;
        if Stale(entries[key], now) {
          entries := entries - {key};
        }
        unvisited := unvisited - {key};
      }
      SweepKeepsWellKeyed(start, now);
    }
  }

  /** A pending state passes the stream's entry check, since that check only tests presence. */
  method PendingStateOpensStream(registry: CredentialRegistry, clientId: string, random: seq<byte>, origin: string, now: int)
    returns (entry: StreamEntry)
    requires registry.Valid() && |random| == STATE_BYTES && clientId != ""
    modifies registry
    ensures registry.Valid()
    ensures entry == Opened(Pending(now))
  {
    var start := registry.BeginAuthorization(Some(clientId), random, origin, now);
    entry := registry.OpenStream(Some(start.query.state));
  }
}
