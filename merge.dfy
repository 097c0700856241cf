/** The join of the configured channels against the users and streams maps
    in `fetch_streamers`: each hit consumes its map entries with `remove`. */
module Merge {
  import opened Wrappers
  import opened Ascii
  import opened Streamers

  /** The lookup key of a configured channel. */
  function Key(c: FetchStreamer): string
  {
    Lower(c.channelName)
  }

  /** The join as a function of the configured channels and the maps still
      left: a channel whose key is not in the users map is dropped (and takes
      nothing from the streams map); a hit takes the user entry and, if
      present, the stream entry out of their maps. */
  function Merged(channels: seq<FetchStreamer>, users: map<string, UserData>, streams: map<string, StreamData>): seq<Streamer>
    decreases |channels|
  {
    if channels == [] then []
    else
      var k := Key(channels[0]);
      if k in users then
        [StreamerFrom(channels[0], users[k], Get(streams, k))] + Merged(channels[1..], users - {k}, streams - {k})
      else
        Merged(channels[1..], users, streams)
  }

  /** The filter_map loop of `fetch_streamers`, over mutable copies of the
      two maps. */
  method MergeStreamers(channels: seq<FetchStreamer>, users: map<string, UserData>, streams: map<string, StreamData>)
    returns (streamers: seq<Streamer>)
    ensures streamers == Merged(channels, users, streams)
  {
    var usersMap, streamsMap := users, streams;
    streamers := [];
    var i := 0;
    while i < |channels|
      invariant 0 <= i <= |channels|
      invariant streamers + Merged(channels[i..], usersMap, streamsMap) == Merged(channels, users, streams)
    {
      var s := channels[i];
      assert channels[i..][0] == s && channels[i..][1..] == channels[i + 1..];
      var key := Lower(s.channelName);
      if key in usersMap {
        var user := usersMap[key];
        usersMap := usersMap - {key};
        var stream := Get(streamsMap, key);
        streamsMap := streamsMap - {key};
        streamers := streamers + [StreamerFrom(s, user, stream)];
      }
      i := i + 1;
    }
    assert channels[i..] == [];
  }

  /** Position `i` is the first configured channel with its key, and that key
      has a user entry: the channels that yield a `Streamer`. */
  predicate FirstHit(channels: seq<FetchStreamer>, users: map<string, UserData>, i: int)
    requires 0 <= i < |channels|
  {
    Key(channels[i]) in users && forall j :: 0 <= j < i ==> Key(channels[j]) != Key(channels[i])
  }

  /** The `Streamer` configured channel `i` builds from the original maps. */
  function Entry(channels: seq<FetchStreamer>, users: map<string, UserData>, streams: map<string, StreamData>, i: int): Streamer
    requires 0 <= i < |channels| && Key(channels[i]) in users
  {
    StreamerFrom(channels[i], users[Key(channels[i])], Get(streams, Key(channels[i])))
  }

  /** At most one `Streamer` per configured channel, and at most one per
      user entry (every hit consumes one). */
  lemma {:induction false} MergedLength(channels: seq<FetchStreamer>, users: map<string, UserData>, streams: map<string, StreamData>)
    ensures |Merged(channels, users, streams)| <= |channels|
    ensures |Merged(channels, users, streams)| <= |users|
    decreases |channels|
  {
    if channels != [] {
      var k := Key(channels[0]);
      if k in users {
        MergedLength(channels[1..], users - {k}, streams - {k});
        assert |users - {k}| == |users| - 1;
      } else {
        MergedLength(channels[1..], users, streams);
      }
    }
  }

  /** Every merged entry is the `Streamer` of a first hit, built from the
      configured pair, the user entry and the stream entry under its key in
      the maps as they were received; `i` is that configured position. */
  lemma {:induction false} MergedSource(channels: seq<FetchStreamer>, users: map<string, UserData>, streams: map<string, StreamData>, p: int)
    returns (i: int)
    requires 0 <= p < |Merged(channels, users, streams)|
    ensures 0 <= i < |channels| && FirstHit(channels, users, i)
    ensures Merged(channels, users, streams)[p] == Entry(channels, users, streams, i)
    decreases |channels|
  {
    var out := Merged(channels, users, streams);
    var k := Key(channels[0]);
    var tail := channels[1..];
    var u' := if k in users then users - {k} else users;
    var s' := if k in users then streams - {k} else streams;
    var rest := Merged(tail, u', s');
    var d := if k in users then 1 else 0;
    assert out == (if k in users then [Entry(channels, users, streams, 0)] else []) + rest;
    if p < d {
      i := 0;
    } else {
      assert out[p] == rest[p - d];
      var i' := MergedSource(tail, u', s', p - d);
      i := i' + 1;
      assert channels[i] == tail[i'];
      assert forall j :: 1 <= j < i ==> channels[j] == tail[j - 1];
    }
  }

  /** The join lists its entries in configured order: of two merged
      entries, the earlier is the entry of an earlier first hit. */
  lemma {:induction false} MergedInOrder(channels: seq<FetchStreamer>, users: map<string, UserData>, streams: map<string, StreamData>,
                                         p: int, q: int)
    returns (i: int, j: int)
    requires 0 <= p < q < |Merged(channels, users, streams)|
    ensures 0 <= i < j < |channels| && FirstHit(channels, users, i) && FirstHit(channels, users, j)
    ensures Merged(channels, users, streams)[p] == Entry(channels, users, streams, i)
    ensures Merged(channels, users, streams)[q] == Entry(channels, users, streams, j)
    decreases |channels|
  {
    var k := Key(channels[0]);
    var u' := if k in users then users - {k} else users;
    var s' := if k in users then streams - {k} else streams;
    MergedUnfold(channels, users, streams, u', s');
    if p == 0 && k in users {
      j := InOrderHead(channels, users, streams, u', s', q);
      i := 0;
    } else {
      var d := if k in users then 1 else 0;
      var i', j' := MergedInOrder(channels[1..], u', s', p - d, q - d);
      i, j := InOrderLift(channels, users, streams, u', s', p, q, i', j');
    }
  }

  /** The head channel hit: it gives the first entry, and any later entry
      comes from a later channel. */
  lemma InOrderHead(channels: seq<FetchStreamer>, users: map<string, UserData>, streams: map<string, StreamData>,
                    u': map<string, UserData>, s': map<string, StreamData>, q: int)
    returns (j: int)
    requires |channels| > 0 && Key(channels[0]) in users
    requires u' == users - {Key(channels[0])} && s' == streams - {Key(channels[0])}
    requires 0 < q < |Merged(channels, users, streams)|
    ensures 0 < j < |channels| && FirstHit(channels, users, j)
    ensures Merged(channels, users, streams)[0] == Entry(channels, users, streams, 0)
    ensures Merged(channels, users, streams)[q] == Entry(channels, users, streams, j)
  {
    MergedUnfold(channels, users, streams, u', s');
    var j' := MergedSource(channels[1..], u', s', q - 1);
    FirstHitShift(channels, users, streams, u', s', j');
    j := j' + 1;
  }

  /** Positions in the join of the rest of the list move up by one when the
      head channel hit. */
  lemma InOrderLift(channels: seq<FetchStreamer>, users: map<string, UserData>, streams: map<string, StreamData>,
                    u': map<string, UserData>, s': map<string, StreamData>, p: int, q: int, i': int, j': int)
    returns (i: int, j: int)
    requires |channels| > 0
    requires u' == if Key(channels[0]) in users then users - {Key(channels[0])} else users
    requires s' == if Key(channels[0]) in users then streams - {Key(channels[0])} else streams
    requires Merged(channels, users, streams)
             == (if Key(channels[0]) in users then [Entry(channels, users, streams, 0)] else []) + Merged(channels[1..], u', s')
    requires var d := if Key(channels[0]) in users then 1 else 0;
      d <= p < q < |Merged(channels, users, streams)| &&
      0 <= i' < j' < |channels| - 1 && FirstHit(channels[1..], u', i') && FirstHit(channels[1..], u', j') &&
      Merged(channels[1..], u', s')[p - d] == Entry(channels[1..], u', s', i') &&
      Merged(channels[1..], u', s')[q - d] == Entry(channels[1..], u', s', j')
    ensures 0 <= i < j < |channels| && FirstHit(channels, users, i) && FirstHit(channels, users, j)
    ensures Merged(channels, users, streams)[p] == Entry(channels, users, streams, i)
    ensures Merged(channels, users, streams)[q] == Entry(channels, users, streams, j)
  {
    FirstHitShift(channels, users, streams, u', s', i');
    FirstHitShift(channels, users, streams, u', s', j');
    i, j := i' + 1, j' + 1;
  }

  /** One step of the join: the head's entry, on a hit, before the join of
      the rest against the maps without the head's key. */
  lemma MergedUnfold(channels: seq<FetchStreamer>, users: map<string, UserData>, streams: map<string, StreamData>,
                     u': map<string, UserData>, s': map<string, StreamData>)
    requires |channels| > 0
    requires u' == if Key(channels[0]) in users then users - {Key(channels[0])} else users
    requires s' == if Key(channels[0]) in users then streams - {Key(channels[0])} else streams
    ensures Merged(channels, users, streams)
            == (if Key(channels[0]) in users then [Entry(channels, users, streams, 0)] else []) + Merged(channels[1..], u', s')
  {
  }

  /** A first hit of the rest of the list, after the head took its key out
      of the maps (`u'` and `s'`), is a first hit of the whole list with the
      same entry. */
  lemma FirstHitShift(channels: seq<FetchStreamer>, users: map<string, UserData>, streams: map<string, StreamData>,
                      u': map<string, UserData>, s': map<string, StreamData>, i: int)
    requires |channels| > 0
    requires u' == if Key(channels[0]) in users then users - {Key(channels[0])} else users
    requires s' == if Key(channels[0]) in users then streams - {Key(channels[0])} else streams
    requires 0 <= i < |channels| - 1 && FirstHit(channels[1..], u', i)
    ensures FirstHit(channels, users, i + 1)
    ensures Entry(channels[1..], u', s', i) == Entry(channels, users, streams, i + 1)
  {
    var tail := channels[1..];
    assert channels[i + 1] == tail[i];
    assert forall m :: 1 <= m < i + 1 ==> channels[m] == tail[m - 1];
  }

  /** The same, as a statement about all merged entries. */
  lemma MergedSound(channels: seq<FetchStreamer>, users: map<string, UserData>, streams: map<string, StreamData>)
    ensures forall r :: r in Merged(channels, users, streams) ==>
              exists i :: 0 <= i < |channels| && FirstHit(channels, users, i) && r == Entry(channels, users, streams, i)
  {
    forall r | r in Merged(channels, users, streams)
      ensures exists i :: 0 <= i < |channels| && FirstHit(channels, users, i) && r == Entry(channels, users, streams, i)
    {
      var p :| 0 <= p < |Merged(channels, users, streams)| && Merged(channels, users, streams)[p] == r;
      var i := MergedSource(channels, users, streams, p);
    }
  }

  /** Every first hit yields its `Streamer`. */
  lemma {:induction false} MergedComplete(channels: seq<FetchStreamer>, users: map<string, UserData>, streams: map<string, StreamData>, i: int)
    requires 0 <= i < |channels| && FirstHit(channels, users, i)
    ensures Entry(channels, users, streams, i) in Merged(channels, users, streams)
    decreases |channels|
  {
    var k := Key(channels[0]);
    var tail := channels[1..];
    if i > 0 {
      var u' := if k in users then users - {k} else users;
      var s' := if k in users then streams - {k} else streams;
      assert channels[i] == tail[i - 1];
      assert Key(channels[i]) != k;
      assert forall j :: 0 <= j < i - 1 ==> tail[j] == channels[j + 1];
      assert FirstHit(tail, u', i - 1);
      MergedComplete(tail, u', s', i - 1);
      assert Entry(tail, u', s', i - 1) == Entry(channels, users, streams, i);
    }
  }

  /** A configured channel whose lower-cased key has no user entry produces
      no `Streamer`: every merged entry's key is a key of the users map. */
  lemma MergedKeysInUsers(channels: seq<FetchStreamer>, users: map<string, UserData>, streams: map<string, StreamData>)
    ensures forall r :: r in Merged(channels, users, streams) ==> Lower(r.channelName) in users
  {
    MergedSound(channels, users, streams);
    forall r | r in Merged(channels, users, streams) ensures Lower(r.channelName) in users {
      var i :| 0 <= i < |channels| && FirstHit(channels, users, i) && r == Entry(channels, users, streams, i);
    }
  }

  /** Two configured channels sharing a lower-cased key yield one `Streamer`
      at most: the merged entries have pairwise distinct keys. */
  lemma {:induction false} MergedKeysDistinct(channels: seq<FetchStreamer>, users: map<string, UserData>, streams: map<string, StreamData>)
    ensures forall p, q :: 0 <= p < q < |Merged(channels, users, streams)| ==>
              Lower(Merged(channels, users, streams)[p].channelName) != Lower(Merged(channels, users, streams)[q].channelName)
    decreases |channels|
  {
    if channels != [] {
      var k := Key(channels[0]);
      var tail := channels[1..];
      if k in users {
        var rest := Merged(tail, users - {k}, streams - {k});
        MergedKeysDistinct(tail, users - {k}, streams - {k});
        MergedKeysInUsers(tail, users - {k}, streams - {k});
        var out := Merged(channels, users, streams);
        assert out == [StreamerFrom(channels[0], users[k], Get(streams, k))] + rest;
        forall p, q | 0 <= p < q < |out| ensures Lower(out[p].channelName) != Lower(out[q].channelName) {
          assert out[q] == rest[q - 1] && rest[q - 1] in rest;
          if p > 0 {
            assert out[p] == rest[p - 1];
          }
        }
      } else {
        MergedKeysDistinct(tail, users, streams);
      }
    }
  }

  /** Each merged entry is live exactly when the streams map has its key. */
  lemma MergedLiveness(channels: seq<FetchStreamer>, users: map<string, UserData>, streams: map<string, StreamData>)
    ensures forall r :: r in Merged(channels, users, streams) ==>
              (r.isLive <==> Lower(r.channelName) in streams) &&
              (r.isLive ==> r.viewerCount == Some(streams[Lower(r.channelName)].viewerCount) &&
                            r.streamTitle == Some(streams[Lower(r.channelName)].title)) &&
              (!r.isLive ==> r.viewerCount == None && r.streamTitle == None) &&
              Lower(r.channelName) in users && r.avatarUrl == users[Lower(r.channelName)].profileImageUrl
  {
    MergedSound(channels, users, streams);
    forall r | r in Merged(channels, users, streams)
      ensures (r.isLive <==> Lower(r.channelName) in streams) &&
              (r.isLive ==> r.viewerCount == Some(streams[Lower(r.channelName)].viewerCount) &&
                            r.streamTitle == Some(streams[Lower(r.channelName)].title)) &&
              (!r.isLive ==> r.viewerCount == None && r.streamTitle == None) &&
              Lower(r.channelName) in users && r.avatarUrl == users[Lower(r.channelName)].profileImageUrl
    {
      var i :| 0 <= i < |channels| && FirstHit(channels, users, i) && r == Entry(channels, users, streams, i);
    }
  }
}
