# webtv-suspi roster backend, modelled in Dafny

The server side of a small web page that shows a fixed list of Twitch
channels. Each one shows as live or offline, with its viewer count and its
stream title. One server function, `fetch_streamers`, builds the list:

1. It gets an app access token through the OAuth client-credentials grant.
   The token is kept in one process-wide slot and reused while it has more
   than a day left.
2. It queries the Helix `users` endpoint and the Helix `streams` endpoint
   for every configured channel. Each query is memoised for a fixed time
   (ten hours for users, five minutes for streams) under one fixed key.
3. It joins the configured channels against the two answers by lower-cased
   channel name. A channel with no user entry is dropped.
4. It sorts the result: live channels first, then more viewers, then the
   display name in lower case; the sort is stable.
5. It returns the list together with the page's base address.

The model has one module per concern:

- `Streamers`: the data records, `Streamer::from`, the query strings, and
  the key-to-data maps.
- `Merge`: the filter-map join, with its map removals.
- `StableSort` and `RosterSort`: the sort, both as a function and as the
  in-place sort on an array.
- `TtlCache`: the timed memo.
- `Credentials`: the token slot and `get_access_token`.
- `FetchStreamers`: the server function over a `Backend` object. This
  object holds the three pieces of process-wide state.

Each whole call is also given as a function `Step` of the state before it.
`Backend.FetchStreamers` is proved equal to `Step`, and the lemmas about
whole calls are stated on `Step`.

Several things become parameters:

- The clock: `now`, read when a slot is looked at, and `later`, the second
  reading that stamps freshly stored values.
- The environment variables, as `Env`.
- What the network would answer, as `Upstream`.
- The configured channel list.

A call also returns the upstream requests it sends, so statements about
"no request is sent" can be proved.

## Model

| member | source | states |
|---|---|---|
| Ascii.Lower | src/fetch_streamers.rs:176 | lower-casing keeps the length and lower-cases each character on its own |
| Ascii.LowerIsLower | src/fetch_streamers.rs:98 | a lower-cased string is lower case, and lower-casing it again changes nothing |
| Ascii.LowerFixesLower | src/fetch_streamers.rs:176 | a string that is already lower case is its own lower case |
| Ascii.LessIrreflexive | src/fetch_streamers.rs:189 | no name sorts before itself under string order |
| Ascii.LessAsymmetric | src/fetch_streamers.rs:189 | string order is asymmetric |
| Ascii.LessTransitive | src/fetch_streamers.rs:189 | string order is transitive |
| Ascii.LessTotal | src/fetch_streamers.rs:189 | any two distinct names are ordered one way or the other |
| Streamers.StreamerFrom | src/fetch_streamers.rs:52-61 | names come from the channel and the avatar from the user record. `is_live` holds exactly when a stream is present. The viewer count and title are present exactly when live, and are then the stream's |
| Streamers.SplitJoin | src/fetch_streamers.rs:82-86 | splitting on `&` undoes the `join("&")` of parameters that contain no `&` |
| Streamers.QueryRoundTrip | src/fetch_streamers.rs:82-86 | the query string carries one `login=` (or `user_login=`, lines 114-118) parameter per configured channel, in list order, and its values are the channel names sent verbatim |
| Streamers.EmptyQuery | src/fetch_streamers.rs:114-118 | with no configured channel the query string is empty |
| Streamers.CollectMapHasKeys | src/fetch_streamers.rs:95-99 | collecting pairs into a map keeps every pair's key |
| Streamers.CollectMapEntries | src/fetch_streamers.rs:95-99 | every entry of the collected map is one of the pairs, so it has no other keys |
| Streamers.CollectMapLastWins | src/fetch_streamers.rs:95-99 | a key repeated in the response takes the value of its last pair |
| Streamers.UsersMapSpec | src/fetch_streamers.rs:95-99 | every user is reachable under its lower-cased login. Each entry's login lower-cases to its key. A login seen only once maps to that user |
| Streamers.StreamsMapSpec | src/fetch_streamers.rs:127-131 | the streams map is keyed by `user_login` exactly as sent. Each entry carries its own key, and a login seen only once maps to that stream |
| Streamers.UsersMapKeysLower | src/fetch_streamers.rs:98 | every key of the users map is lower case |
| Streamers.StreamsLookupVerbatim | src/fetch_streamers.rs:177 | a stream is not found under a lower-cased channel key unless its `user_login` is already that lower-case string |
| Merge.MergeStreamers | src/fetch_streamers.rs:173-181 | the loop over the channels, with its removals from both maps, yields exactly `Merged` |
| Merge.MergedLength | src/fetch_streamers.rs:173-181 | the roster has at most one entry per configured channel and at most one per user record |
| Merge.MergedSource | src/fetch_streamers.rs:175-179 | each roster entry comes from a configured channel that was the first with its key and had a user record. It is built from that record and that key's stream |
| Merge.MergedInOrder | src/fetch_streamers.rs:173-181 | the join keeps configured order: of two roster entries, the earlier is built from an earlier configured channel, each the first with its key and with a user record |
| Merge.MergedSound | src/fetch_streamers.rs:175-179 | every roster entry is the entry of such a channel |
| Merge.MergedComplete | src/fetch_streamers.rs:175-179 | every channel that is the first with its key and has a user record is in the roster, so only unmatched channels and later duplicates are dropped |
| Merge.MergedKeysInUsers | src/fetch_streamers.rs:176 | every roster entry's lower-cased channel name is a key of the users map |
| Merge.MergedKeysDistinct | src/fetch_streamers.rs:176-177 | no two roster entries share a lower-cased channel name, because each hit removes its key |
| Merge.MergedLiveness | src/fetch_streamers.rs:176-179 | an entry is live exactly when the streams map has its key. When live, its viewer count and title are those of the stream; when offline, both are absent. The avatar is the user's |
| StableSort.InsertSorted | src/fetch_streamers.rs:185-191 | inserting into a sorted sequence keeps it sorted, for any strict weak order |
| StableSort.SortBySorted | src/fetch_streamers.rs:185-191 | the sort's output is sorted |
| StableSort.SortByPermutation | src/fetch_streamers.rs:185-191 | the sort's output is a permutation of its input |
| StableSort.TiedWithAppend | src/fetch_streamers.rs:185-191 | the entries tied with a given key, taken from a concatenation, are those of each part in turn |
| StableSort.InsertStable | src/fetch_streamers.rs:185-191 | the scanning insertion keeps the order of entries with equal keys |
| StableSort.SortByStable | src/fetch_streamers.rs:185-191 | the sort is stable: for every key, the entries with that key keep their input order |
| StableSort.InsertAt | src/fetch_streamers.rs:185-191 | an insertion point found by scanning from the end gives the insertion function's result |
| RosterSort.BeforeAsymmetric | src/fetch_streamers.rs:186-190 | the roster key order is asymmetric |
| RosterSort.BeforeTotal | src/fetch_streamers.rs:186-190 | any two streamers either have equal keys or are ordered one way or the other |
| RosterSort.TiedIsSameKey | src/fetch_streamers.rs:186-190 | neither sorts before the other exactly when liveness, `unwrap_or(0)` viewer count and lower-cased display name are all equal |
| RosterSort.BeforeTransitive | src/fetch_streamers.rs:186-190 | the roster key order is transitive |
| RosterSort.NotBeforeTransitive | src/fetch_streamers.rs:186-190 | "does not sort after" is transitive |
| RosterSort.BeforeWeakOrder | src/fetch_streamers.rs:186-190 | the roster key order is a strict weak order |
| RosterSort.RosterOrder | src/fetch_streamers.rs:185-191 | of any two roster positions, the earlier is live and the later offline; or they agree on liveness and the earlier has more viewers; or they agree on both and the earlier's lower-cased name is not greater |
| RosterSort.RosterPermutation | src/fetch_streamers.rs:185-191 | sorting neither adds nor drops entries |
| RosterSort.RosterStable | src/fetch_streamers.rs:185-191 | entries with equal sort keys keep their order from the join, which is configured order (`Merge.MergedInOrder`) |
| StableSort.InsertLast | src/fetch_streamers.rs:185 | one pass of swaps moves the new entry into the sorted prefix of the array as the insertion function does, and leaves the rest of the array alone |
| StableSort.SortInPlace | src/fetch_streamers.rs:185 | the in-place insertion sort of an array leaves exactly the stable sort of its old contents |
| RosterSort.SortRoster | src/fetch_streamers.rs:185-191 | the in-place sort of the roster array under the roster key leaves exactly the stable sort of its old contents |
| TtlCache.TimedCache.CacheGet | src/fetch_streamers.rs:71-77 | a lookup returns the stored value while it is younger than the time-to-live; otherwise it returns nothing and drops the entry |
| TtlCache.TimedCache.CacheSet | src/fetch_streamers.rs:73 | storing replaces the slot with the value, stamped with the store time |
| TtlCache.TimedCache.GetOrFetch | src/fetch_streamers.rs:71-77 | the memoised call fetches exactly on a miss. It returns the stored value on a hit and the fetch's outcome otherwise, and keeps only `Ok` outcomes |
| TtlCache.ReusedWithinTtl | src/fetch_streamers.rs:72 | after a successful fetch, every call within the time-to-live gets that value without fetching, and leaves the slot unchanged |
| TtlCache.ErrorNotStored | src/fetch_streamers.rs:73 | a failed fetch is returned and not stored, so the next call fetches again |
| TtlCache.ExpiredNotServed | src/fetch_streamers.rs:72 | an entry as old as the time-to-live is never served, not even when the new fetch fails |
| Credentials.CredentialStore.GetAccessToken | src/get_credentials.rs:37-86 | the call returns, posts and stores exactly what the functions `AccessTokenResult`, `FormSent` and `SlotAfter` give for the slot before the call |
| Credentials.CachedTokenReused | src/get_credentials.rs:45-53 | a token expiring more than a day after now is returned. No form is posted and the slot is unchanged |
| Credentials.StaleTokenRefreshed | src/get_credentials.rs:54-68 | an empty slot, or a token with a day or less left, leads to posting the client id, the client secret and `client_credentials` |
| Credentials.TwentyThreeHoursRefreshes | src/get_credentials.rs:46-50 | a token expiring 23 hours from now is not reused |
| Credentials.RefreshStores | src/get_credentials.rs:74-84 | a successful refresh returns the new token and stores it, expiring `expires_in` seconds after the second clock reading |
| Credentials.MissingConfigFails | src/get_credentials.rs:57-59 | on a refresh with no `TWITCH_CLIENT_ID` or no `TWITCH_CLIENT_SECRET`, the call fails with the first missing variable's message. Nothing is posted and the slot is unchanged |
| Credentials.FailedExchangeKeepsSlot | src/get_credentials.rs:62-72 | a failed exchange returns its error and leaves the previous slot in place |
| Credentials.ImmediateReuse | src/get_credentials.rs:75 | right after a refresh, the new token is reused exactly when it was issued for more than a day. Otherwise the next call posts again |
| Credentials.ShortTokenAlwaysRefreshed | src/get_credentials.rs:46-50 | a token issued for a day or less is never reused: every call at or after its refresh posts the form again |
| FetchStreamers.BaseAddr | src/fetch_streamers.rs:183 | `BASE_ADDR` when set, `127.0.0.1` otherwise |
| FetchStreamers.FetchUsersData | src/fetch_streamers.rs:78-100 | the users query goes through its cache. It sends the `login=` URL exactly on a miss, and returns the lower-cased-login map or the request's error |
| FetchStreamers.FetchStreamsData | src/fetch_streamers.rs:110-132 | the streams query works the same way, with the `user_login=` URL and the verbatim-keyed map |
| FetchStreamers.Backend.FetchStreamers | src/fetch_streamers.rs:134-193 | one call of the server function returns, leaves and sends exactly what `Step` gives for the three slots before it |
| FetchStreamers.Backend.QueryAndBuild | src/fetch_streamers.rs:167-192 | the two cached queries come first. A users error is reported before a streams error; otherwise the result is the sorted join |
| FetchStreamers.BuildRoster | src/fetch_streamers.rs:173-192 | the join, the base address and the in-place sort give the roster, which is the stable sort of the join |
| FetchStreamers.MissingClientIdFails | src/fetch_streamers.rs:155 | without `TWITCH_CLIENT_ID` the call fails at once. No request is sent and no slot changes |
| FetchStreamers.TokenFailureStopsQueries | src/fetch_streamers.rs:156 | a failed token step fails the call with its error. Neither query runs and only the token exchange may have been sent |
| FetchStreamers.NoPartialRoster | src/fetch_streamers.rs:167-171 | a successful call had both queries answered, and its roster is the join of exactly those two answers |
| FetchStreamers.StreamsFailureFails | src/fetch_streamers.rs:167-171 | a failing streams query fails the whole call with that error, even with the users map at hand, and stores nothing for streams |
| FetchStreamers.ColdCallQueries | src/fetch_streamers.rs:82-89 | a successful call with both caches cold sends, after any token exchange, one users request and then one streams request, each naming every configured channel |
| FetchStreamers.ColdCallStores | src/fetch_streamers.rs:71-77 | such a call stores both answers' maps, stamped with the second clock reading |
| FetchStreamers.WarmCall | src/fetch_streamers.rs:103-109 | with both caches live, no query is sent whatever channel list is given. A success joins against the stored maps |
| FetchStreamers.CachedWithinWindow | src/fetch_streamers.rs:103-109 | after a successful cold call, every call within the next five minutes sends no query. If it succeeds, it joins against the first call's maps, even for another channel list, because the cache key is fixed |
| FetchStreamers.RepeatWithinWindow | src/fetch_streamers.rs:134-193 | repeating a successful call within the next five minutes gives the same roster, if it succeeds |
| FetchStreamers.TwoChannelRoster | src/fetch_streamers.rs:173-191 | with "B" offline configured before "A" live with 50 viewers, the roster is A (live, 50 viewers, its title) then B (offline) |

## Left out

- HTTP, JSON decoding and the OAuth POST are not modelled. Each upstream
  answer is an input value: a parsed body or an error message.
- Dates are whole seconds counted by integers, in place of chrono.
  `checked_sub_days(...).expect(...)` cannot fail in the model. The `u64`
  bound on `expires_in` is a `nat`, so overflow panics of `Utc::now() +
  Duration` are not modelled.
- `dotenvy::var` is an `Option<string>` in `Env`. A `.env` file is not read.
- Concurrency is not modelled: the `Mutex` around the credential slot, the
  `OnceLock`, `sync_writes` and `try_join!`. The two queries run one after
  the other (users, then streams), and both always run. When both fail,
  the users error is reported. The cancellation of the second future when
  `try_join!` fails early is not modelled.
- The `cached` macro is modelled only as the one timed slot its fixed key
  uses. The store's internals, refreshing and size are not modelled.
- Ascii.Lower: lower-cases only the ASCII letters A-Z. Rust's
  `to_lowercase` also maps other Unicode letters; the model does not.
- The hard-coded channel list of `fetch_streamers` (lines 139-152) is a
  parameter, so every lemma holds for any list, the configured one included.
- `HeaderValue::from_str` is modelled by its character test. The failure of
  `Client::builder().build()` (line 165) is not modelled.
- FetchStreamers.Backend.FetchStreamers: one clock reading, `now`, serves the token check and both cache lookups. The source reads `Utc::now()` for the token check (src/get_credentials.rs:40), and each cache lookup reads its own clock after the token exchange. One more reading, `later`, stamps all three stores (the token and both queries), where the source reads the clock separately for each.
- `Streamers.StreamsLookupVerbatim` describes the join as written, which
  looks up the verbatim-keyed streams map under a lower-cased key. The model
  keeps that.
- src/home_page.rs, src/app.rs and src/main.rs are the page, the router and
  the server start-up, and are not part of this model.
