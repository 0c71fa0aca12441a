/**
  The serverless handler that turns one decrypted capability token into one upstream
  "recent posts" request per followed account and folds the settled outcomes back into
  an aggregate by index (functions/get-tweets-for-following.ts).

  Decryption and JSON parsing, the clock, the environment and the upstream client are
  parameters: the handler receives what decryption yielded, the current time, and the
  outcomes `Promise.allSettled` reported, one per request and indexed like the requests.
 */
module Gateway {
  import opened Options
  import opened Models
  import Text
  import opened Subsequences

  const StatusOk: nat := 200
  const StatusUnauthorized: nat := 401
  const StatusServerError: nat := 500

  const UnauthorizedMessage: string := "Unauthorized access"
  const ConnectErrorMessage: string := "There was an error in connecting to the Twitter API"

  /** Every upstream request asks for up to 100 posts, without retweets or replies. */
  const MaxResults: nat := 100
  const Excluded: string := "retweets,replies"

  /** The fields the handler reads from the parsed token; an absent JSON field is `None`.
      `eat` (expire-at time) is in milliseconds since the epoch. */
  datatype Payload = Payload(
    accessToken: Option<string>,
    accessSecret: Option<string>,
    following: Option<string>,
    eat: Option<int>)

  /** How the handler's setup went: decrypting the `token` query parameter with the
      caller's stored secret and parsing it as JSON produced a payload, or one of the
      setup steps inside the handler's `try` threw (decryption, parsing, or constructing
      the upstream client). */
  datatype Decryption = Decrypted(payload: Payload) | SetupFailed

  /** The application credentials read from the process environment. */
  datatype Env = Env(apiKey: Option<string>, apiSecret: Option<string>)

  /** The credentials the upstream client is constructed with. */
  datatype ClientConfig = ClientConfig(appKey: string, appSecret: string, accessToken: string, accessSecret: string)

  datatype UpstreamRequest = UpstreamRequest(client: ClientConfig, path: string, maxResults: nat, exclude: string)

  /** A settled upstream request: fulfilled with the response's (possibly absent) `data`, or rejected. */
  datatype Outcome = Fulfilled(data: Option<seq<Tweet>>) | Rejected

  datatype Body = Aggregate(entries: seq<FollowingTweets>) | ErrorBody(error: string)

  datatype Response = Response(statusCode: nat, body: Body)

  /** JavaScript's `s || ''` for an optional string. */
  function OrEmpty(s: Option<string>): string {
    s.ValueOr("")
  }

  /** The expiry gate: `eat` is present, non-zero (truthy) and later than `now`. An
      accepted token expires after `now`; for a clock that is not negative, as
      `Date.now()` is, the non-zero test adds nothing to `eat > now`. */
  predicate Authorized(p: Payload, now: int)
    ensures Authorized(p, now) ==> p.eat.Some? && now < p.eat.value
    ensures now >= 0 && p.eat.Some? && now < p.eat.value ==> Authorized(p, now)
  {
    p.eat.Some? && p.eat.value != 0 && p.eat.value > now
  }

  /** `following?.split(',') || []`: the requested ids, in order. */
  function FollowingList(p: Payload): (ids: seq<string>)
    ensures p.following.None? ==> ids == []
    ensures p.following.Some? ==> Text.Join(ids, Text.Comma) == p.following.value
    ensures forall k :: 0 <= k < |ids| ==> Text.Comma !in ids[k]
  {
    match p.following
    case None => []
    case Some(s) =>
      Text.JoinSplit(s, Text.Comma);
      Text.Split(s, Text.Comma)
  }

  /** The ids the handler fetches: none unless the token decrypted and is unexpired. */
  function IdsToFetch(d: Decryption, now: int): seq<string> {
    match d
    case SetupFailed => []
    case Decrypted(p) => if Authorized(p, now) then FollowingList(p) else []
  }

  function Client(env: Env, p: Payload): ClientConfig {
    ClientConfig(OrEmpty(env.apiKey), OrEmpty(env.apiSecret), OrEmpty(p.accessToken), OrEmpty(p.accessSecret))
  }

  function TweetsPath(id: string): string {
    "users/" + id + "/tweets"
  }

  /** The `for … of` loop: one request pushed per id. */
  function FanOut(client: ClientConfig, ids: seq<string>): (r: seq<UpstreamRequest>)
    ensures |r| == |ids|
    ensures forall i :: 0 <= i < |ids| ==> r[i].path == TweetsPath(ids[i])
  {
    if |ids| == 0 then []
    else [UpstreamRequest(client, TweetsPath(ids[0]), MaxResults, Excluded)] + FanOut(client, ids[1..])
  }

  /** The upstream requests one invocation issues. */
  function Requests(d: Decryption, env: Env, now: int): seq<UpstreamRequest> {
    match d
    case SetupFailed => []
    case Decrypted(p) => FanOut(Client(env, p), IdsToFetch(d, now))
  }

  /** The entry the settled outcome of request `i` contributes: one for a fulfilled
      outcome (no data gives no posts), none for a rejected one. */
  function EntryAt(ids: seq<string>, outcomes: seq<Outcome>, i: nat): seq<FollowingTweets>
    requires i < |ids| == |outcomes|
  {
    match outcomes[i]
    case Fulfilled(data) => [FollowingTweets(ids[i], data.ValueOr([]))]
    case Rejected => []
  }

  /** The `forEach((result, index) => …)` over the first `k` settled outcomes. */
  function CollectUpTo(ids: seq<string>, outcomes: seq<Outcome>, k: nat): (r: seq<FollowingTweets>)
    requires k <= |ids| == |outcomes|
    ensures |r| <= k
    ensures forall j :: 0 <= j < |r| ==> r[j].following in ids[..k]
  {
    if k == 0 then [] else CollectUpTo(ids, outcomes, k - 1) + EntryAt(ids, outcomes, k - 1)
  }

  /** The aggregate: no more entries than ids, each for one of the requested ids. */
  function Collect(ids: seq<string>, outcomes: seq<Outcome>): (r: seq<FollowingTweets>)
    requires |ids| == |outcomes|
    ensures |r| <= |ids|
    ensures forall j :: 0 <= j < |r| ==> r[j].following in ids
  {
    assert ids[..|outcomes|] == ids;
    CollectUpTo(ids, outcomes, |outcomes|)
  }

  /** The indices below `k` whose outcome is fulfilled, in increasing order. */
  function FulfilledIndices(outcomes: seq<Outcome>, k: nat): (fi: seq<nat>)
    requires k <= |outcomes|
    ensures forall j :: 0 <= j < |fi| ==> fi[j] < k && outcomes[fi[j]].Fulfilled?
    ensures forall j, j' :: 0 <= j < j' < |fi| ==> fi[j] < fi[j']
    ensures forall i :: 0 <= i < k && outcomes[i].Fulfilled? ==> i in fi
  {
    if k == 0 then []
    else FulfilledIndices(outcomes, k - 1) + (if outcomes[k - 1].Fulfilled? then [k - 1] else [])
  }

  /** The handler: 500 when a setup step (decryption, parsing or client construction) threw, 401 when the token is missing
      its expiry or has expired, and otherwise 200 with the aggregate. */
  function Handle(d: Decryption, now: int, outcomes: seq<Outcome>): (r: Response)
    requires |outcomes| == |IdsToFetch(d, now)|
    ensures r.statusCode in {StatusOk, StatusUnauthorized, StatusServerError}
    ensures r.statusCode == StatusOk <==> r.body.Aggregate?
    ensures r.statusCode == StatusServerError <==> d.SetupFailed?
  {
    match d
    case SetupFailed => Response(StatusServerError, ErrorBody(ConnectErrorMessage))
    case Decrypted(p) =>
      if Authorized(p, now) then Response(StatusOk, Aggregate(Collect(FollowingList(p), outcomes)))
      else Response(StatusUnauthorized, ErrorBody(UnauthorizedMessage))
  }

  function AccountIds(entries: seq<FollowingTweets>): (ids: seq<string>)
    ensures |ids| == |entries|
    ensures forall j :: 0 <= j < |entries| ==> ids[j] == entries[j].following
  {
    seq(|entries|, j requires 0 <= j < |entries| => entries[j].following)
  }

  // ---------------------------------------------------------------------------
  // Properties

  /** One request per id, in id order, each for that id's posts with the fixed query. */
  lemma {:induction false} FanOutOnePerId(client: ClientConfig, ids: seq<string>)
    ensures |FanOut(client, ids)| == |ids|
    ensures forall i :: 0 <= i < |ids| ==>
      FanOut(client, ids)[i] == UpstreamRequest(client, "users/" + ids[i] + "/tweets", 100, "retweets,replies")
  {
    if |ids| > 0 {
      FanOutOnePerId(client, ids[1..]);
    }
  }

  /** An accepted token produces exactly one upstream request per id of its `following`
      field, in list order, using the token's credentials (or "" where absent). */
  lemma RequestsFollowIdList(d: Decryption, env: Env, now: int)
    ensures |Requests(d, env, now)| == |IdsToFetch(d, now)|
    ensures d.Decrypted? && Authorized(d.payload, now) ==> IdsToFetch(d, now) == FollowingList(d.payload)
    ensures d.Decrypted? ==> forall i :: 0 <= i < |Requests(d, env, now)| ==>
      && Requests(d, env, now)[i].path == "users/" + IdsToFetch(d, now)[i] + "/tweets"
      && Requests(d, env, now)[i].client.accessToken == d.payload.accessToken.ValueOr("")
      && Requests(d, env, now)[i].client.accessSecret == d.payload.accessSecret.ValueOr("")
      && Requests(d, env, now)[i].client.appKey == env.apiKey.ValueOr("")
      && Requests(d, env, now)[i].client.appSecret == env.apiSecret.ValueOr("")
  {
    if d.Decrypted? {
      FanOutOnePerId(Client(env, d.payload), IdsToFetch(d, now));
    }
  }

  /** The id list: absent `following` gives no ids, the empty string gives the single id "",
      and otherwise the ids are the comma-separated pieces, which join back to the field. */
  lemma FollowingListShape(p: Payload)
    ensures p.following == None ==> FollowingList(p) == []
    ensures p.following == Some("") ==> FollowingList(p) == [""]
    ensures p.following.Some? ==> |FollowingList(p)| == multiset(p.following.value)[','] + 1
  {
    if p.following.Some? {
      Text.SplitCount(p.following.value, Text.Comma);
    }
  }

  /** A token without `eat`, with `eat == 0`, or with `eat <= now` is answered 401
      "Unauthorized access", and no upstream request is made. Both directions hold. */
  lemma ExpiredTokenRejected(d: Decryption, env: Env, now: int)
    requires d.Decrypted?
    ensures d.payload.eat.None? || d.payload.eat.value == 0 || d.payload.eat.value <= now
      <==> |IdsToFetch(d, now)| == 0 && Handle(d, now, []) == Response(401, ErrorBody("Unauthorized access"))
    ensures d.payload.eat.None? || d.payload.eat.value == 0 || d.payload.eat.value <= now
      ==> Requests(d, env, now) == []
  {
  }

  /** A failure to decrypt or parse the token, or to construct the client, is answered 500 with the fixed connection
      error, and no upstream request is made. */
  lemma SetupFailureIsServerError(env: Env, now: int)
    ensures Handle(SetupFailed, now, []) == Response(500, ErrorBody("There was an error in connecting to the Twitter API"))
    ensures Requests(SetupFailed, env, now) == []
  {
  }

  /** The first `k` outcomes fold to the entries at the fulfilled indices below `k`, in order. */
  lemma {:induction false} CollectUpToByIndex(ids: seq<string>, outcomes: seq<Outcome>, k: nat)
    requires k <= |ids| == |outcomes|
    ensures |CollectUpTo(ids, outcomes, k)| == |FulfilledIndices(outcomes, k)|
    ensures forall j :: 0 <= j < |CollectUpTo(ids, outcomes, k)| ==>
      var i := FulfilledIndices(outcomes, k)[j];
      CollectUpTo(ids, outcomes, k)[j] == FollowingTweets(ids[i], outcomes[i].data.ValueOr([]))
  {
    if k > 0 {
      CollectUpToByIndex(ids, outcomes, k - 1);
    }
  }

  /** The aggregate pairs each fulfilled outcome with the id at the same index: entry `j`
      belongs to the `j`-th fulfilled index `i`, carries `ids[i]`, and its posts are exactly
      the returned data, or none when the response had no data. Rejected outcomes are dropped. */
  lemma AggregatePairsByIndex(ids: seq<string>, outcomes: seq<Outcome>)
    requires |ids| == |outcomes|
    ensures var fi := FulfilledIndices(outcomes, |outcomes|);
      && |Collect(ids, outcomes)| == |fi|
      && forall j :: 0 <= j < |fi| ==>
           && Collect(ids, outcomes)[j].following == ids[fi[j]]
           && (outcomes[fi[j]].data.None? ==> Collect(ids, outcomes)[j].tweets == [])
           && (outcomes[fi[j]].data.Some? ==> Collect(ids, outcomes)[j].tweets == outcomes[fi[j]].data.value)
  {
    CollectUpToByIndex(ids, outcomes, |outcomes|);
  }

  /** At most one entry per id, and one per id exactly when no outcome was rejected. */
  lemma {:induction false} CollectUpToLength(ids: seq<string>, outcomes: seq<Outcome>, k: nat)
    requires k <= |ids| == |outcomes|
    ensures |CollectUpTo(ids, outcomes, k)| <= k
    ensures |CollectUpTo(ids, outcomes, k)| == k <==> forall i :: 0 <= i < k ==> outcomes[i].Fulfilled?
  {
    if k > 0 {
      CollectUpToLength(ids, outcomes, k - 1);
    }
  }

  lemma AggregateLength(ids: seq<string>, outcomes: seq<Outcome>)
    requires |ids| == |outcomes|
    ensures |Collect(ids, outcomes)| <= |ids|
    ensures |Collect(ids, outcomes)| == |ids| <==> forall i :: 0 <= i < |outcomes| ==> outcomes[i].Fulfilled?
  {
    CollectUpToLength(ids, outcomes, |outcomes|);
  }

  /** The aggregate's account ids are a subsequence of the requested ids. */
  lemma AggregateIdsAreSubsequence(ids: seq<string>, outcomes: seq<Outcome>)
    requires |ids| == |outcomes|
    ensures IsSubsequence(AccountIds(Collect(ids, outcomes)), ids)
  {
    var fi := FulfilledIndices(outcomes, |outcomes|);
    AggregatePairsByIndex(ids, outcomes);
    assert EmbedsVia(AccountIds(Collect(ids, outcomes)), ids, fi);
  }

  /** An accepted token is answered 200 whatever the settled outcomes (each fulfilled
      value taken to be an object); when every request was rejected the aggregate is
      empty, never a 500. */
  lemma AcceptedTokenIsOk(d: Decryption, now: int, outcomes: seq<Outcome>)
    requires d.Decrypted? && Authorized(d.payload, now)
    requires |outcomes| == |IdsToFetch(d, now)|
    ensures Handle(d, now, outcomes).statusCode == 200
    ensures Handle(d, now, outcomes).body == Aggregate(Collect(FollowingList(d.payload), outcomes))
    ensures (forall i :: 0 <= i < |outcomes| ==> outcomes[i].Rejected?) ==>
      Handle(d, now, outcomes) == Response(200, Aggregate([]))
  {
    var ids := FollowingList(d.payload);
    if forall i :: 0 <= i < |outcomes| ==> outcomes[i].Rejected? {
      CollectUpToLength(ids, outcomes, |outcomes|);
      var fi := FulfilledIndices(outcomes, |outcomes|);
      CollectUpToByIndex(ids, outcomes, |outcomes|);
      if |fi| > 0 {
        assert outcomes[fi[0]].Fulfilled?;
      }
    }
  }

  /** Two followed accounts (say "111,222"), a token a minute from expiry: with both
      requests fulfilled, 200 with the two entries in id order; with only the second
      fulfilled, and without data, the first account is missing from the aggregate
      rather than present with no posts. */
  lemma TwoAccountScenario(p: Payload, id1: string, id2: string, now: nat, posts1: seq<Tweet>, posts2: seq<Tweet>)
    requires ',' !in id1 && ',' !in id2
    requires p == Payload(Some("a"), Some("b"), Some(id1 + "," + id2), Some(now + 60000))
    ensures && IdsToFetch(Decrypted(p), now) == [id1, id2]
            && Handle(Decrypted(p), now, [Fulfilled(Some(posts1)), Fulfilled(Some(posts2))])
               == Response(200, Aggregate([FollowingTweets(id1, posts1), FollowingTweets(id2, posts2)]))
            && Handle(Decrypted(p), now, [Rejected, Fulfilled(None)])
               == Response(200, Aggregate([FollowingTweets(id2, [])]))
  {
    var ids := [id1, id2];
    assert Text.Join(ids, Text.Comma) == id1 + "," + id2;
    Text.SplitJoin(ids, Text.Comma);
    assert Authorized(p, now);
    assert FollowingList(p) == ids;
    CollectPair(ids, Fulfilled(Some(posts1)), Fulfilled(Some(posts2)));
    CollectPair(ids, Rejected, Fulfilled(None));
  }

  lemma CollectPair(ids: seq<string>, o1: Outcome, o2: Outcome)
    requires |ids| == 2
    ensures Collect(ids, [o1, o2]) == EntryAt(ids, [o1, o2], 0) + EntryAt(ids, [o1, o2], 1)
  {
    assert CollectUpTo(ids, [o1, o2], 1) == EntryAt(ids, [o1, o2], 0);
  }
}
