/** `fetch_streamers`: obtain a token, query the two cached upstream
    endpoints, join, sort and return the roster. The process-wide state (the
    credential slot and the two cache slots) is held by one `Backend`
    object; inputs from the environment, the clock and the network are
    parameters. */
module FetchStreamers {
  import opened Wrappers
  import opened Ascii
  import opened Streamers
  import opened Merge
  import opened RosterSort
  import opened TtlCache
  import opened Credentials
  import StableSort

  const UsersTtl: nat := 36000
  const StreamsTtl: nat := 300
  const DefaultBaseAddr: string := "127.0.0.1"
  const UsersEndpoint: string := "https://api.twitch.tv/helix/users?"
  const StreamsEndpoint: string := "https://api.twitch.tv/helix/streams?"
  const InvalidHeader: string := "failed to parse header value"

  type UsersMapT = map<string, UserData>
  type StreamsMapT = map<string, StreamData>

  /** The environment variables the call reads (`None`: unset). */
  datatype Env = Env(clientId: Option<string>, clientSecret: Option<string>, baseAddr: Option<string>)

  /** What the network would answer in this call: the token exchange and the
      two queries, each as a parsed body or an error. */
  datatype Upstream = Upstream(
    exchange: Result<CredentialsResponse>,
    users: Result<seq<UserData>>,
    streams: Result<seq<StreamData>>)

  /** An upstream request the call issues. */
  datatype Request = TokenRequest(form: CredentialsForm) | UsersRequest(url: string) | StreamsRequest(url: string)

  /** The process-wide state, as values. */
  datatype State = State(
    credentials: Option<CachedCredentials>,
    users: Option<Stamped<UsersMapT>>,
    streams: Option<Stamped<StreamsMapT>>)

  /** One call: what it returns, the state it leaves, the requests it sends. */
  datatype Outcome = Outcome(result: Result<StreamerResponse>, state: State, requests: seq<Request>)

  function UsersUrl(channels: seq<FetchStreamer>): string
  {
    UsersEndpoint + RequestParams(LoginPrefix, channels)
  }

  function StreamsUrl(channels: seq<FetchStreamer>): string
  {
    StreamsEndpoint + RequestParams(UserLoginPrefix, channels)
  }

  /** The body of `fetch_users_data` after the request: the map or the error. */
  function UsersFetch(response: Result<seq<UserData>>): Result<UsersMapT>
  {
    if response.Ok? then Ok(UsersMap(response.value)) else Err(response.message)
  }

  /** The body of `fetch_streams_data` after the request. */
  function StreamsFetch(response: Result<seq<StreamData>>): Result<StreamsMapT>
  {
    if response.Ok? then Ok(StreamsMap(response.value)) else Err(response.message)
  }

  /** `HeaderValue::from_str` accepts tab and every character from space up,
      except DEL. */
  predicate ValidHeaderValue(s: string)
  {
    forall i :: 0 <= i < |s| ==> s[i] == '\t' || (' ' <= s[i] && s[i] != '\U{7f}')
  }

  /** `BASE_ADDR`, or the loopback address when unset. */
  function BaseAddr(env: Env): (a: string)
    ensures env.baseAddr.None? ==> a == DefaultBaseAddr
    ensures env.baseAddr.Some? ==> a == env.baseAddr.value
  {
    if env.baseAddr.Some? then env.baseAddr.value else DefaultBaseAddr
  }

  /** The roster built from the configured channels and the two maps. */
  function Roster(env: Env, channels: seq<FetchStreamer>, users: UsersMapT, streams: StreamsMapT): StreamerResponse
  {
    StreamerResponse(BaseAddr(env), SortByKey(Merged(channels, users, streams)))
  }

  /** One call of `fetch_streamers` as a function of the state before it.
      `now` is the clock when the call looks at a slot, `later` when it
      stamps a freshly fetched value. */
  function Step(st: State, env: Env, channels: seq<FetchStreamer>, now: int, later: int, up: Upstream): Outcome
  {
    if env.clientId.None? then Outcome(Err(MissingClientId), st, [])
    else
      var token := AccessTokenResult(st.credentials, now, env.clientId, env.clientSecret, up.exchange);
      var form := FormSent(st.credentials, now, env.clientId, env.clientSecret);
      var tokenRequests := if form.Some? then [TokenRequest(form.value)] else [];
      var st1 := st.(credentials := SlotAfter(st.credentials, now, later, env.clientId, env.clientSecret, up.exchange));
      if token.Err? then Outcome(Err(token.message), st1, tokenRequests)
      else if !ValidHeaderValue(env.clientId.value) || !ValidHeaderValue("Bearer " + token.value) then
        Outcome(Err(InvalidHeader), st1, tokenRequests)
      else
        QueryStep(st1, env, channels, now, later, up, tokenRequests)
  }

  /** The part of the call after the token: both cached queries, then the
      join; `sent` are the requests already issued. */
  function QueryStep(st: State, env: Env, channels: seq<FetchStreamer>, now: int, later: int, up: Upstream,
                     sent: seq<Request>): Outcome
  {
    var users := Serve(st.users, UsersTtl, now, UsersFetch(up.users));
    var streams := Serve(st.streams, StreamsTtl, now, StreamsFetch(up.streams));
    var st' := st.(users := After(st.users, UsersTtl, now, later, UsersFetch(up.users)),
                   streams := After(st.streams, StreamsTtl, now, later, StreamsFetch(up.streams)));
    var requests := sent
      + (if Live(st.users, UsersTtl, now) then [] else [UsersRequest(UsersUrl(channels))])
      + (if Live(st.streams, StreamsTtl, now) then [] else [StreamsRequest(StreamsUrl(channels))]);
    if users.Err? then Outcome(Err(users.message), st', requests)
    else if streams.Err? then Outcome(Err(streams.message), st', requests)
    else Outcome(Ok(Roster(env, channels, users.value, streams.value)), st', requests)
  }

  /** A missing `TWITCH_CLIENT_ID` fails the call before anything else:
      no request is sent and no slot changes. */
  lemma MissingClientIdFails(st: State, env: Env, channels: seq<FetchStreamer>, now: int, later: int, up: Upstream)
    requires env.clientId.None?
    ensures Step(st, env, channels, now, later, up) == Outcome(Err(MissingClientId), st, [])
  {
  }

  /** A failed token step fails the call before either query: the cache
      slots are untouched and the only request, if any, is the exchange. */
  lemma TokenFailureStopsQueries(st: State, env: Env, channels: seq<FetchStreamer>, now: int, later: int, up: Upstream)
    requires env.clientId.Some?
    requires AccessTokenResult(st.credentials, now, env.clientId, env.clientSecret, up.exchange).Err?
    ensures var o := Step(st, env, channels, now, later, up);
      o.result == Err(AccessTokenResult(st.credentials, now, env.clientId, env.clientSecret, up.exchange).message) &&
      o.state.users == st.users && o.state.streams == st.streams &&
      forall r :: r in o.requests ==> r.TokenRequest?
  {
  }

  /** There is no partial roster: a successful call had both queries
      answered (from cache or upstream), and its roster is the join of
      exactly those two maps. */
  lemma NoPartialRoster(st: State, env: Env, channels: seq<FetchStreamer>, now: int, later: int, up: Upstream)
    requires Step(st, env, channels, now, later, up).result.Ok?
    ensures Serve(st.users, UsersTtl, now, UsersFetch(up.users)).Ok?
    ensures Serve(st.streams, StreamsTtl, now, StreamsFetch(up.streams)).Ok?
    ensures Step(st, env, channels, now, later, up).result.value
            == Roster(env, channels, Serve(st.users, UsersTtl, now, UsersFetch(up.users)).value,
                      Serve(st.streams, StreamsTtl, now, StreamsFetch(up.streams)).value)
  {
  }

  /** When the streams query misses and fails, the call fails with that
      error even though the users map is at hand. */
  lemma StreamsFailureFails(st: State, env: Env, channels: seq<FetchStreamer>, now: int, later: int, up: Upstream)
    requires env.clientId.Some?
    requires AccessTokenResult(st.credentials, now, env.clientId, env.clientSecret, up.exchange).Ok?
    requires ValidHeaderValue(env.clientId.value)
    requires ValidHeaderValue("Bearer " + AccessTokenResult(st.credentials, now, env.clientId, env.clientSecret, up.exchange).value)
    requires Serve(st.users, UsersTtl, now, UsersFetch(up.users)).Ok?
    requires !Live(st.streams, StreamsTtl, now) && up.streams.Err?
    ensures Step(st, env, channels, now, later, up).result == Err(up.streams.message)
    ensures Step(st, env, channels, now, later, up).state.streams == None
  {
  }

  /** A cold call that succeeds sends, after the token exchange if any, one
      users query and one streams query, each naming every configured
      channel in order. */
  lemma ColdCallQueries(st: State, env: Env, channels: seq<FetchStreamer>, now: int, later: int, up: Upstream)
    requires !Live(st.users, UsersTtl, now) && !Live(st.streams, StreamsTtl, now)
    requires Step(st, env, channels, now, later, up).result.Ok?
    ensures var rs := Step(st, env, channels, now, later, up).requests;
      |rs| >= 2 &&
      rs[|rs| - 2] == UsersRequest(UsersEndpoint + Join(Params("login=", channels), '&')) &&
      rs[|rs| - 1] == StreamsRequest(StreamsEndpoint + Join(Params("user_login=", channels), '&')) &&
      forall k :: 0 <= k < |rs| - 2 ==> rs[k].TokenRequest?
  {
  }

  /** A cold call that succeeds leaves both slots holding the maps built
      from the upstream answers, stamped at the second clock reading. */
  lemma ColdCallStores(st: State, env: Env, channels: seq<FetchStreamer>, now: int, later: int, up: Upstream)
    requires !Live(st.users, UsersTtl, now) && !Live(st.streams, StreamsTtl, now)
    requires Step(st, env, channels, now, later, up).result.Ok?
    ensures up.users.Ok? && up.streams.Ok?
    ensures Step(st, env, channels, now, later, up).state.users == Some(Stamped(UsersMap(up.users.value), later))
    ensures Step(st, env, channels, now, later, up).state.streams == Some(Stamped(StreamsMap(up.streams.value), later))
  {
  }

  /** With both slots live, a call sends no query, whatever channel list it
      is given, and a success joins the channels against the stored maps. */
  lemma WarmCall(st: State, env: Env, channels: seq<FetchStreamer>, now: int, later: int, up: Upstream)
    requires Live(st.users, UsersTtl, now) && Live(st.streams, StreamsTtl, now)
    ensures var o := Step(st, env, channels, now, later, up);
      (forall r :: r in o.requests ==> r.TokenRequest?) &&
      (o.result.Ok? ==> o.result == Ok(Roster(env, channels, st.users.value.value, st.streams.value.value)))
  {
  }

  /** The two caches have fixed keys and short-circuit upstream: after a
      cold call that succeeded, any call within the streams window (five
      minutes after the stored values were stamped), whatever channel list
      it is given, sends no query and, if it succeeds, joins its channels
      against the maps the first call fetched. */
  lemma CachedWithinWindow(st: State, env: Env, channels: seq<FetchStreamer>, now: int, later: int, up: Upstream,
                           env2: Env, channels2: seq<FetchStreamer>, now2: int, later2: int, up2: Upstream)
    requires !Live(st.users, UsersTtl, now) && !Live(st.streams, StreamsTtl, now)
    requires Step(st, env, channels, now, later, up).result.Ok?
    requires now2 < later + StreamsTtl
    ensures up.users.Ok? && up.streams.Ok?
    ensures var o2 := Step(Step(st, env, channels, now, later, up).state, env2, channels2, now2, later2, up2);
      (forall r :: r in o2.requests ==> r.TokenRequest?) &&
      (o2.result.Ok? ==> o2.result == Ok(Roster(env2, channels2, UsersMap(up.users.value), StreamsMap(up.streams.value))))
  {
    ColdCallStores(st, env, channels, now, later, up);
    var st1 := Step(st, env, channels, now, later, up).state;
    WarmCall(st1, env2, channels2, now2, later2, up2);
  }

  /** A call on the same inputs within the window returns the same roster
      as the first, if it succeeds. */
  lemma RepeatWithinWindow(st: State, env: Env, channels: seq<FetchStreamer>, now: int, later: int, up: Upstream,
                           now2: int, later2: int, up2: Upstream)
    requires !Live(st.users, UsersTtl, now) && !Live(st.streams, StreamsTtl, now)
    requires Step(st, env, channels, now, later, up).result.Ok?
    requires now2 < later + StreamsTtl
    ensures var o2 := Step(Step(st, env, channels, now, later, up).state, env, channels, now2, later2, up2);
      o2.result.Ok? ==> o2.result == Step(st, env, channels, now, later, up).result
  {
    CachedWithinWindow(st, env, channels, now, later, up, env, channels, now2, later2, up2);
  }

  /** Two configured channels, listed offline one first: "B" (login "b",
      offline) and "A" (login "a", live with 50 viewers). The roster puts
      the live channel first and drops no one. */
  lemma TwoChannelRoster(env: Env)
    ensures var channels := [FetchStreamer("B", "b"), FetchStreamer("A", "a")];
      var users := UsersMap([UserData("a", "a.png"), UserData("b", "b.png")]);
      var streams := StreamsMap([StreamData("a", "playing", 50)]);
      Roster(env, channels, users, streams).streamers
        == [Streamer("A", "a", "a.png", true, Some(50), Some("playing")),
            Streamer("B", "b", "b.png", false, None, None)]
  {
    var channels := [FetchStreamer("B", "b"), FetchStreamer("A", "a")];
    var users := UsersMap([UserData("a", "a.png"), UserData("b", "b.png")]);
    var streams := StreamsMap([StreamData("a", "playing", 50)]);
    assert Lower("a") == "a" && Lower("b") == "b" && Lower("B") == "b" && Lower("A") == "a";
    var ua, ub := UserData("a", "a.png"), UserData("b", "b.png");
    assert UserPairs([ua, ub]) == [("a", ua), ("b", ub)];
    assert [("a", ua), ("b", ub)][..1] == [("a", ua)];
    assert CollectMap([("a", ua)]) == map["a" := ua] by {
      assert [("a", ua)][..0] == [];
    }
    assert users == map["a" := ua, "b" := ub];
    var sa := StreamData("a", "playing", 50);
    assert StreamPairs([sa]) == [("a", sa)];
    assert [("a", sa)][..0] == [];
    assert streams == map["a" := sa];
    var a := Streamer("A", "a", "a.png", true, Some(50), Some("playing"));
    var b := Streamer("B", "b", "b.png", false, None, None);
    assert Key(channels[0]) == "b" && Key(channels[1]) == "a";
    assert channels[1..][1..] == [];
    assert Merged(channels[1..], users - {"b"}, streams - {"b"}) == [a];
    assert Merged(channels, users, streams) == [b, a];
    assert Before(a, b);
    assert [b, a][..1] == [b] && [b, a][..1][..0] == [];
    assert StableSort.SortBy([b], Before) == [b];
    assert [b][..0] == [];
    assert StableSort.Insert([b], a, Before) == [a, b];
  }

  /** `fetch_users_data` with its cache: builds the request, and on a miss
      returns the map built from the response; `request` is the URL sent. */
  method FetchUsersData(cache: TimedCache<UsersMapT>, channels: seq<FetchStreamer>, now: int, at: int,
                        response: Result<seq<UserData>>)
    returns (r: Result<UsersMapT>, request: Option<string>)
    modifies cache
    ensures r == Serve(old(cache.slot), cache.ttl, now, UsersFetch(response))
    ensures cache.slot == After(old(cache.slot), cache.ttl, now, at, UsersFetch(response))
    ensures request == if Live(old(cache.slot), cache.ttl, now) then None else Some(UsersUrl(channels))
  {
    var fetched := UsersFetch(response);
    var didFetch;
    r, didFetch := cache.GetOrFetch(now, at, fetched);
    request := if didFetch then Some(UsersUrl(channels)) else None;
  }

  /** `fetch_streams_data` with its cache. */
  method FetchStreamsData(cache: TimedCache<StreamsMapT>, channels: seq<FetchStreamer>, now: int, at: int,
                          response: Result<seq<StreamData>>)
    returns (r: Result<StreamsMapT>, request: Option<string>)
    modifies cache
    ensures r == Serve(old(cache.slot), cache.ttl, now, StreamsFetch(response))
    ensures cache.slot == After(old(cache.slot), cache.ttl, now, at, StreamsFetch(response))
    ensures request == if Live(old(cache.slot), cache.ttl, now) then None else Some(StreamsUrl(channels))
  {
    var fetched := StreamsFetch(response);
    var didFetch;
    r, didFetch := cache.GetOrFetch(now, at, fetched);
    request := if didFetch then Some(StreamsUrl(channels)) else None;
  }

  class Backend {
    const credentials: CredentialStore
    const users: TimedCache<UsersMapT>
    const streams: TimedCache<StreamsMapT>

    ghost predicate Valid()
      reads this
    {
      users.ttl == UsersTtl && streams.ttl == StreamsTtl
    }

    function Snapshot(): State
      reads this, credentials, users, streams
    {
      State(credentials.credentials, users.slot, streams.slot)
    }

    constructor ()
      ensures Valid()
      ensures fresh(credentials) && fresh(users) && fresh(streams)
      ensures Snapshot() == State(None, None, None)
    {
      credentials := new CredentialStore();
      users := new TimedCache(UsersTtl);
      streams := new TimedCache(StreamsTtl);
    }

    /** The server function. */
    method FetchStreamers(env: Env, channels: seq<FetchStreamer>, now: int, later: int, up: Upstream)
      returns (r: Result<StreamerResponse>, requests: seq<Request>)
      requires Valid()
      modifies credentials, users, streams
      ensures Outcome(r, Snapshot(), requests) == Step(old(Snapshot()), env, channels, now, later, up)
    {
      requests := [];
      if env.clientId.None? {
        return Err(MissingClientId), requests;
      }
      var clientId := env.clientId.value;
      var token, form := credentials.GetAccessToken(now, later, env.clientId, env.clientSecret, up.exchange);
      if form.Some? {
        requests := requests + [TokenRequest(form.value)];
      }
      if token.Err? {
        return Err(token.message), requests;
      }
      if !ValidHeaderValue(clientId) || !ValidHeaderValue("Bearer " + token.value) {
        return Err(InvalidHeader), requests;
      }
      r, requests := QueryAndBuild(env, channels, now, later, up, requests);
    }

    /** Both cached queries (modelled one after the other), then the join. */
    method QueryAndBuild(env: Env, channels: seq<FetchStreamer>, now: int, later: int, up: Upstream, sent: seq<Request>)
      returns (r: Result<StreamerResponse>, requests: seq<Request>)
      requires Valid()
      modifies users, streams
      ensures Outcome(r, Snapshot(), requests) == QueryStep(old(Snapshot()), env, channels, now, later, up, sent)
    {
      var usersMap, usersRequest := FetchUsersData(users, channels, now, later, up.users);
      var streamsMap, streamsRequest := FetchStreamsData(streams, channels, now, later, up.streams);
      requests := sent;
      if usersRequest.Some? {
        requests := requests + [UsersRequest(usersRequest.value)];
      }
      if streamsRequest.Some? {
        requests := requests + [StreamsRequest(streamsRequest.value)];
      }
      if usersMap.Err? {
        return Err(usersMap.message), requests;
      }
      if streamsMap.Err? {
        return Err(streamsMap.message), requests;
      }
      var roster := BuildRoster(env, channels, usersMap.value, streamsMap.value);
      r := Ok(roster);
    }
  }

  /** The tail of `fetch_streamers`: join, base address, in-place sort. */
  method BuildRoster(env: Env, channels: seq<FetchStreamer>, users: UsersMapT, streams: StreamsMapT)
    returns (roster: StreamerResponse)
    ensures roster == Roster(env, channels, users, streams)
  {
    var merged := MergeStreamers(channels, users, streams);
    var baseAddr := BaseAddr(env);
    var a := new Streamer[|merged|](i requires 0 <= i < |merged| => merged[i]);
    assert a[..] == merged;
    SortRoster(a);
    roster := StreamerResponse(baseAddr, a[..]);
  }
}
