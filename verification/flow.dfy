/**
  The round trip between the home screen and the tweet-fetch gateway: the `following`
  field the client joins is the id list the gateway splits, the expiry the client sets is
  the window the gateway accepts, and the gateway's status decides which path the client
  takes. Decryption is not modelled: the lemmas assume the gateway recovers the payload
  the client sealed, and conclude only from that hypothesis.
 */
module Flow {
  import opened Options
  import Models
  import Text
  import Gateway
  import Home

  /** What the client's `axios.get` gives for a gateway response: axios resolves for a
      2xx status and rejects for any other. */
  function ReplyOf(r: Gateway.Response): (reply: Home.Reply<Models.FollowingTweets>)
    ensures reply.Threw? <==> !(200 <= r.statusCode < 300)
    ensures 200 <= r.statusCode < 300 && r.body.Aggregate? ==> reply == Home.Answered(Home.JsonArray(r.body.entries))
    ensures 200 <= r.statusCode < 300 && r.body.ErrorBody? ==> reply == Home.Answered(Home.NotArray)
  {
    if 200 <= r.statusCode < 300 then
      match r.body
      case Aggregate(entries) => Home.Answered(Home.JsonArray(entries))
      case ErrorBody(_) => Home.Answered(Home.NotArray)
    else Home.Threw
  }

  predicate CommaFree(ids: seq<string>) {
    forall k :: 0 <= k < |ids| ==> Text.Comma !in ids[k]
  }

  /** The gateway's split of the client's joined `following` field gives back exactly
      the ids that were joined, in order, when there is at least one and none contains ','. */
  lemma FollowingFieldRoundTrip(cred: Home.Credential, ids: seq<string>, now: nat)
    requires |ids| > 0 && CommaFree(ids)
    ensures Gateway.FollowingList(Home.SubmitPayload(cred, ids, now)) == ids
  {
    Text.SplitJoin(ids, Text.Comma);
  }

  /** A token the client issues at `issued` passes the gateway's expiry gate at time
      `now` exactly when `now` is less than a minute after `issued`. */
  lemma IssuedTokenWindow(cred: Home.Credential, ids: seq<string>, issued: nat, now: int)
    ensures Gateway.Authorized(Home.StartPayload(cred, issued), now) <==> now < issued + 60000
    ensures Gateway.Authorized(Home.SubmitPayload(cred, ids, issued), now) <==> now < issued + 60000
  {
  }

  /** The call the submit handler makes, when it makes one. */
  function SubmitCall(s: Home.State, cred: Option<Home.Credential>, session: Option<Home.Session>,
                      secret: Home.UserSecret, issued: nat): (c: Option<Home.GatewayCall>)
    ensures c.Some? <==> 2 <= |Home.Selected(s.following)| <= 5 && Home.SignedIn(cred, session)
    ensures forall reply, generated :: c.Some? ==>
      Home.OnFollowingSubmit(s, cred, session, secret, issued, reply, generated).effects[1] == Home.Call(c.value)
    ensures c.None? ==> forall reply, generated ::
      Home.OnlyToasts(Home.OnFollowingSubmit(s, cred, session, secret, issued, reply, generated).effects)
  {
    if 2 <= |Home.Selected(s.following)| <= 5 && Home.SignedIn(cred, session) then
      Some(Home.GatewayCall(Home.TweetsEndpoint, Home.SubmitPayload(cred.value, Home.SelectedIds(s.following), issued),
                            secret, session.value.uid))
    else None
  }

  /** Submitting a selection and having the gateway redeem the token within its minute
      issues one upstream request per selected account, in the order of the list; after
      the minute the gateway answers 401 and issues none. */
  lemma SubmitFansOutToSelection(s: Home.State, cred: Option<Home.Credential>, session: Option<Home.Session>,
                                 secret: Home.UserSecret, issued: nat, env: Gateway.Env, now: int)
    requires 2 <= |Home.Selected(s.following)| <= 5 && Home.SignedIn(cred, session)
    requires CommaFree(Home.SelectedIds(s.following))
    ensures var d := Gateway.Decrypted(SubmitCall(s, cred, session, secret, issued).value.payload);
      && (now < issued + 60000 ==>
            && |Gateway.Requests(d, env, now)| == |Home.SelectedIds(s.following)|
            && forall i :: 0 <= i < |Home.SelectedIds(s.following)| ==>
                 Gateway.Requests(d, env, now)[i].path == "users/" + Home.SelectedIds(s.following)[i] + "/tweets")
      && (now >= issued + 60000 ==>
            && Gateway.Requests(d, env, now) == []
            && Gateway.Handle(d, now, []) == Gateway.Response(401, Gateway.ErrorBody("Unauthorized access")))
  {
    var c := SubmitCall(s, cred, session, secret, issued).value;
    var d := Gateway.Decrypted(c.payload);
    var ids := Home.SelectedIds(s.following);
    FollowingFieldRoundTrip(cred.value, ids, issued);
    IssuedTokenWindow(cred.value, ids, issued, now);
    Gateway.RequestsFollowIdList(d, env, now);
  }

  /** A submit token redeemed a minute or more after issue is turned away with 401 and
      no upstream request, whatever ids were selected. */
  lemma LateSubmitIsUnauthorized(s: Home.State, cred: Option<Home.Credential>, session: Option<Home.Session>,
                                 secret: Home.UserSecret, issued: nat, env: Gateway.Env, now: int)
    requires 2 <= |Home.Selected(s.following)| <= 5 && Home.SignedIn(cred, session)
    requires now >= issued + 60000
    ensures var d := Gateway.Decrypted(SubmitCall(s, cred, session, secret, issued).value.payload);
      && Gateway.Requests(d, env, now) == []
      && Gateway.Handle(d, now, []) == Gateway.Response(401, Gateway.ErrorBody("Unauthorized access"))
  {
    IssuedTokenWindow(cred.value, Home.SelectedIds(s.following), issued, now);
  }

  /** When the gateway turns the submit's token away (401), fails (500), or every
      upstream request was rejected (200 with no entries), the client stays where it was,
      says that Twitter is not answering, and still clears its secret. */
  lemma FailedRoundKeepsState(s: Home.State, cred: Option<Home.Credential>, session: Option<Home.Session>,
                              secret: Home.UserSecret, issued: nat, d: Gateway.Decryption, now: int,
                              outcomes: seq<Gateway.Outcome>, generated: seq<Models.Question>)
    requires 2 <= |Home.Selected(s.following)| <= 5 && Home.SignedIn(cred, session)
    requires |outcomes| == |Gateway.IdsToFetch(d, now)|
    requires forall i :: 0 <= i < |outcomes| ==> outcomes[i].Rejected?
    ensures var r := Home.OnFollowingSubmit(s, cred, session, secret, issued,
                                            ReplyOf(Gateway.Handle(d, now, outcomes)), generated);
      && r.state == s
      && r.effects[|r.effects| - 1] == Home.Toast("Twitter hates me cause am cooler, try again in some time")
      && r.effects[2] == Home.WriteSecret(Home.SecretDoc(session), "")
  {
    if d.Decrypted? && Gateway.Authorized(d.payload, now) {
      Gateway.AcceptedTokenIsOk(d, now, outcomes);
    }
  }
}
