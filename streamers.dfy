/** The entities of the roster and the pure pieces of the two upstream
    queries: the batched query string and the key-to-data maps. */
module Streamers {
  import opened Wrappers
  import opened Ascii

  newtype u32 = x: int | 0 <= x < 0x1_0000_0000

  /** A configured channel: the label shown on the page and the channel key. */
  datatype FetchStreamer = FetchStreamer(displayName: string, channelName: string)

  /** One element of the users endpoint's `data` list. */
  datatype UserData = UserData(login: string, profileImageUrl: string)

  /** One element of the streams endpoint's `data` list (live channels only). */
  datatype StreamData = StreamData(userLogin: string, title: string, viewerCount: u32)

  /** The merged view of one channel that the page renders. */
  datatype Streamer = Streamer(
    displayName: string,
    channelName: string,
    avatarUrl: string,
    isLive: bool,
    viewerCount: Option<u32>,
    streamTitle: Option<string>)

  datatype StreamerResponse = StreamerResponse(baseAddr: string, streamers: seq<Streamer>)

  /** `Streamer::from`: the configured pair supplies the names, the user entry
      the avatar, and the optional stream entry the live status. */
  function StreamerFrom(fetch: FetchStreamer, user: UserData, stream: Option<StreamData>): (s: Streamer)
    ensures s.displayName == fetch.displayName && s.channelName == fetch.channelName
    ensures s.avatarUrl == user.profileImageUrl
    ensures s.isLive <==> stream.Some?
    ensures s.viewerCount.Some? <==> s.isLive
    ensures s.streamTitle.Some? <==> s.isLive
    ensures stream.Some? ==> s.viewerCount == Some(stream.value.viewerCount) && s.streamTitle == Some(stream.value.title)
  {
    Streamer(
      fetch.displayName,
      fetch.channelName,
      user.profileImageUrl,
      stream.Some?,
      if stream.Some? then Some(stream.value.viewerCount) else None,
      if stream.Some? then Some(stream.value.title) else None)
  }

  // ---------------------------------------------------------------------
  // Query strings

  const Ampersand: char := '&'
  const LoginPrefix: string := "login="
  const UserLoginPrefix: string := "user_login="

  /** `Vec<String>::join`. */
  function Join(parts: seq<string>, sep: char): string
  {
    if |parts| == 0 then ""
    else if |parts| == 1 then parts[0]
    else parts[0] + [sep] + Join(parts[1..], sep)
  }

  /** `str::split` on one character: the pieces between separators, always
      at least one. */
  function Split(s: string, sep: char): (r: seq<string>)
    ensures |r| >= 1
    decreases |s|
  {
    if s == [] then [""]
    else
      var rest := Split(s[1..], sep);
      if s[0] == sep then [""] + rest else [[s[0]] + rest[0]] + rest[1..]
  }

  /** One `prefix + key` parameter per configured channel, in list order. */
  function Params(prefix: string, channels: seq<FetchStreamer>): (ps: seq<string>)
    ensures |ps| == |channels|
    ensures forall i :: 0 <= i < |channels| ==> ps[i] == prefix + channels[i].channelName
  {
    seq(|channels|, i requires 0 <= i < |channels| => prefix + channels[i].channelName)
  }

  /** The query string of `fetch_users_data` (prefix `login=`) and of
      `fetch_streams_data` (prefix `user_login=`). */
  function RequestParams(prefix: string, channels: seq<FetchStreamer>): string
  {
    Join(Params(prefix, channels), Ampersand)
  }

  /** The values of the parameters of a query string that all carry `prefix`. */
  function Values(params: seq<string>, prefix: string): (vs: seq<string>)
    requires forall i :: 0 <= i < |params| ==> |prefix| <= |params[i]|
    ensures |vs| == |params|
    ensures forall i :: 0 <= i < |params| ==> vs[i] == params[i][|prefix|..]
  {
    seq(|params|, i requires 0 <= i < |params| => params[i][|prefix|..])
  }

  predicate NoSep(s: string, sep: char)
  {
    forall i :: 0 <= i < |s| ==> s[i] != sep
  }

  lemma {:induction false} SplitNoSep(p: string, sep: char)
    requires NoSep(p, sep)
    ensures Split(p, sep) == [p]
    decreases |p|
  {
    if p != [] {
      SplitNoSep(p[1..], sep);
      assert [p[0]] + p[1..] == p;
    }
  }

  lemma {:induction false} SplitAtSep(p: string, sep: char, rest: string)
    requires NoSep(p, sep)
    ensures Split(p + [sep] + rest, sep) == [p] + Split(rest, sep)
    decreases |p|
  {
    var s := p + [sep] + rest;
    if p == [] {
      assert s[1..] == rest;
    } else {
      assert s[1..] == p[1..] + [sep] + rest;
      SplitAtSep(p[1..], sep, rest);
      assert [p[0]] + p[1..] == p;
    }
  }

  /** Splitting a joined list on the separator gives the list back, as long
      as no part contains the separator. */
  lemma {:induction false} SplitJoin(parts: seq<string>, sep: char)
    requires |parts| >= 1
    requires forall i :: 0 <= i < |parts| ==> NoSep(parts[i], sep)
    ensures Split(Join(parts, sep), sep) == parts
    decreases |parts|
  {
    if |parts| == 1 {
      SplitNoSep(parts[0], sep);
    } else {
      SplitAtSep(parts[0], sep, Join(parts[1..], sep));
      SplitJoin(parts[1..], sep);
      assert [parts[0]] + parts[1..] == parts;
    }
  }

  function ChannelNames(channels: seq<FetchStreamer>): (ns: seq<string>)
    ensures |ns| == |channels|
    ensures forall i :: 0 <= i < |channels| ==> ns[i] == channels[i].channelName
  {
    seq(|channels|, i requires 0 <= i < |channels| => channels[i].channelName)
  }

  /** The query string carries one `prefix + key` parameter per configured
      channel, in list order, separated by `&`: splitting it on `&` and
      stripping the prefix gives back the configured keys. Holds when no key
      and the prefix contain `&` (keys are sent verbatim, not escaped). */
  lemma QueryRoundTrip(prefix: string, channels: seq<FetchStreamer>)
    requires |channels| >= 1
    requires NoSep(prefix, Ampersand)
    requires forall i :: 0 <= i < |channels| ==> NoSep(channels[i].channelName, Ampersand)
    ensures Split(RequestParams(prefix, channels), Ampersand) == Params(prefix, channels)
    ensures Values(Params(prefix, channels), prefix) == ChannelNames(channels)
  {
    var ps := Params(prefix, channels);
    forall i | 0 <= i < |ps| ensures NoSep(ps[i], Ampersand) {
      assert ps[i] == prefix + channels[i].channelName;
    }
    SplitJoin(ps, Ampersand);
    forall i | 0 <= i < |ps| ensures ps[i][|prefix|..] == channels[i].channelName {
      assert ps[i] == prefix + channels[i].channelName;
    }
  }

  /** With no configured channel the query string is empty. */
  lemma EmptyQuery(prefix: string)
    ensures RequestParams(prefix, []) == ""
  {
  }

  // ---------------------------------------------------------------------
  // Key-to-data maps

  /** `i` is the last position of the pair list that carries its key. */
  predicate LastWithKey<V>(pairs: seq<(string, V)>, i: int)
    requires 0 <= i < |pairs|
  {
    forall j :: i < j < |pairs| ==> pairs[j].0 != pairs[i].0
  }

  /** `collect::<HashMap<_, _>>()` over key/value pairs: insertion in list
      order, so a later pair with the same key overwrites an earlier one. */
  function CollectMap<V>(pairs: seq<(string, V)>): map<string, V>
    decreases |pairs|
  {
    if pairs == [] then map[]
    else CollectMap(pairs[..|pairs| - 1])[pairs[|pairs| - 1].0 := pairs[|pairs| - 1].1]
  }

  /** Every pair's key is a key of the collected map. */
  lemma {:induction false} CollectMapHasKeys<V>(pairs: seq<(string, V)>)
    ensures forall i :: 0 <= i < |pairs| ==> pairs[i].0 in CollectMap(pairs)
    decreases |pairs|
  {
    if pairs != [] {
      var n := |pairs| - 1;
      CollectMapHasKeys(pairs[..n]);
      assert forall i :: 0 <= i < n ==> pairs[..n][i] == pairs[i];
    }
  }

  /** Every entry of the collected map is one of the pairs. */
  lemma {:induction false} CollectMapEntries<V>(pairs: seq<(string, V)>)
    ensures forall k :: k in CollectMap(pairs) ==> (k, CollectMap(pairs)[k]) in pairs
    decreases |pairs|
  {
    if pairs != [] {
      var n := |pairs| - 1;
      CollectMapEntries(pairs[..n]);
      forall k | k in CollectMap(pairs) ensures (k, CollectMap(pairs)[k]) in pairs {
        if k != pairs[n].0 {
          assert (k, CollectMap(pairs)[k]) in pairs[..n];
        }
      }
    }
  }

  /** A pair that no later pair overrides gives its key's value. */
  lemma {:induction false} CollectMapLastWins<V>(pairs: seq<(string, V)>)
    ensures forall i :: 0 <= i < |pairs| && LastWithKey(pairs, i) ==>
              pairs[i].0 in CollectMap(pairs) && CollectMap(pairs)[pairs[i].0] == pairs[i].1
    decreases |pairs|
  {
    if pairs != [] {
      var n := |pairs| - 1;
      CollectMapLastWins(pairs[..n]);
      forall i | 0 <= i < n && LastWithKey(pairs, i)
        ensures pairs[i].0 in CollectMap(pairs) && CollectMap(pairs)[pairs[i].0] == pairs[i].1
      {
        assert pairs[..n][i] == pairs[i];
        assert LastWithKey(pairs[..n], i);
      }
    }
  }

  /** The pairs `(lowercase login, user)` that `fetch_users_data` collects. */
  function UserPairs(data: seq<UserData>): (ps: seq<(string, UserData)>)
    ensures |ps| == |data|
    ensures forall i :: 0 <= i < |data| ==> ps[i] == (Lower(data[i].login), data[i])
  {
    seq(|data|, i requires 0 <= i < |data| => (Lower(data[i].login), data[i]))
  }

  /** The pairs `(user_login, stream)` that `fetch_streams_data` collects. */
  function StreamPairs(data: seq<StreamData>): (ps: seq<(string, StreamData)>)
    ensures |ps| == |data|
    ensures forall i :: 0 <= i < |data| ==> ps[i] == (data[i].userLogin, data[i])
  {
    seq(|data|, i requires 0 <= i < |data| => (data[i].userLogin, data[i]))
  }

  /** The users map: keyed by the lower-cased login. */
  function UsersMap(data: seq<UserData>): map<string, UserData>
  {
    CollectMap(UserPairs(data))
  }

  /** The streams map: keyed by `user_login` exactly as the endpoint sends it. */
  function StreamsMap(data: seq<StreamData>): map<string, StreamData>
  {
    CollectMap(StreamPairs(data))
  }

  /** The users map holds a key exactly when some user's lower-cased login is
      that key; the entry under it is a user of the response whose login
      lower-cases to the key, the last such one. */
  lemma UsersMapSpec(data: seq<UserData>)
    ensures forall i :: 0 <= i < |data| ==> Lower(data[i].login) in UsersMap(data)
    ensures forall k :: k in UsersMap(data) ==> UsersMap(data)[k] in data && Lower(UsersMap(data)[k].login) == k
    ensures forall i :: 0 <= i < |data| && (forall j :: i < j < |data| ==> Lower(data[j].login) != Lower(data[i].login))
              ==> UsersMap(data)[Lower(data[i].login)] == data[i]
  {
    var ps := UserPairs(data);
    CollectMapHasKeys(ps);
    CollectMapEntries(ps);
    CollectMapLastWins(ps);
    forall i | 0 <= i < |data| ensures Lower(data[i].login) in UsersMap(data) {
      assert ps[i].0 == Lower(data[i].login);
    }
    forall k | k in UsersMap(data) ensures UsersMap(data)[k] in data && Lower(UsersMap(data)[k].login) == k {
      var i :| 0 <= i < |ps| && ps[i] == (k, UsersMap(data)[k]);
    }
    forall i | 0 <= i < |data| && (forall j :: i < j < |data| ==> Lower(data[j].login) != Lower(data[i].login))
      ensures UsersMap(data)[Lower(data[i].login)] == data[i]
    {
      assert LastWithKey(ps, i);
    }
  }

  /** The streams map holds a key exactly when some stream's `user_login` is
      that key, verbatim; the entry under it is a stream of the response with
      that login, the last such one. */
  lemma StreamsMapSpec(data: seq<StreamData>)
    ensures forall i :: 0 <= i < |data| ==> data[i].userLogin in StreamsMap(data)
    ensures forall k :: k in StreamsMap(data) ==> StreamsMap(data)[k] in data && StreamsMap(data)[k].userLogin == k
    ensures forall i :: 0 <= i < |data| && (forall j :: i < j < |data| ==> data[j].userLogin != data[i].userLogin)
              ==> StreamsMap(data)[data[i].userLogin] == data[i]
  {
    var ps := StreamPairs(data);
    CollectMapHasKeys(ps);
    CollectMapEntries(ps);
    CollectMapLastWins(ps);
    forall i | 0 <= i < |data| ensures data[i].userLogin in StreamsMap(data) {
      assert ps[i].0 == data[i].userLogin;
    }
    forall k | k in StreamsMap(data) ensures StreamsMap(data)[k] in data && StreamsMap(data)[k].userLogin == k {
      var i :| 0 <= i < |ps| && ps[i] == (k, StreamsMap(data)[k]);
    }
    forall i | 0 <= i < |data| && (forall j :: i < j < |data| ==> data[j].userLogin != data[i].userLogin)
      ensures StreamsMap(data)[data[i].userLogin] == data[i]
    {
      assert LastWithKey(ps, i);
    }
  }

  /** Every key of the users map is lower case. */
  lemma UsersMapKeysLower(data: seq<UserData>)
    ensures forall k :: k in UsersMap(data) ==> IsLower(k)
  {
    UsersMapSpec(data);
    forall k | k in UsersMap(data) ensures IsLower(k) {
      LowerIsLower(UsersMap(data)[k].login);
    }
  }

  /** A stream whose `user_login` has an upper-case letter is never found by
      a lookup under a lower-cased key. */
  lemma StreamsLookupVerbatim(data: seq<StreamData>, key: string)
    requires forall i :: 0 <= i < |data| ==> data[i].userLogin != Lower(key)
    ensures Lower(key) !in StreamsMap(data)
  {
    StreamsMapSpec(data);
  }
}
