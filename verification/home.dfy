/**
  The game-flow rules of the home screen (src/components/home/home.tsx): the two
  button handlers that mint a short-lived token, lease a secret in the document store,
  call a serverless function and move the stage machine, and the exit handler.

  Every external effect is an output: the handlers return the next component state and
  the ordered list of effects they performed (secret-store writes, the one gateway call,
  the toast shown). The random secret, the clock, the gateway's reply and the generated
  questions are parameters.
 */
module Home {
  import opened Options
  import Models
  import Gateway
  import Text
  import opened Subsequences

  /** A token is valid for one minute after it is issued. */
  const TokenLifetimeMs: nat := 60000
  /** The random secret is ten characters long. */
  const SecretLength: nat := 10
  const MinSelected: nat := 2
  const MaxSelected: nat := 5
  /** The following list must have more than this many accounts to start a round. */
  const MinFollowing: nat := 2

  const GetFollowingEndpoint: string := "/.netlify/functions/get-following"
  const TweetsEndpoint: string := "/.netlify/functions/get-tweets-for-following"
  /** The secret document's id when there is no signed-in user id. */
  const FallbackDocId: string := "blah"

  const NotEnoughFollowsToast: string := "Why are you even playing you don't follow enough people"
  const StartFailedToast: string := "Twitter isn't talking to us try again in some time"
  const TooFewToast: string := "Did you even read the rules select atleast 2"
  const TooManyToast: string := "Did you even read the rules select atmost 5"
  const NoQuestionsToast: string := "These people s@#k, choose someone else"
  const SubmitFailedToast: string := "Twitter hates me cause am cooler, try again in some time"

  /** The per-call secret; the handlers receive it from the caller. */
  type UserSecret = s: string | |s| == SecretLength witness "0000000000"

  datatype Stage = Start | Following | Ingame

  /** The OAuth credential of the signed-in user; either field may be missing. */
  datatype Credential = Credential(accessToken: Option<string>, secret: Option<string>)

  datatype Session = Session(uid: string)

  datatype State = State(stage: Stage, following: seq<Models.Following>, questions: seq<Models.Question>)

  /** The `data` of an HTTP reply: a JSON array, or anything else. */
  datatype Json<T> = JsonArray(items: seq<T>) | NotArray

  /** What awaiting the gateway call gave: a reply, or an exception. */
  datatype Reply<T> = Answered(data: Json<T>) | Threw

  /** A gateway call. The token sent is the encryption of `payload` under `secret`;
      the encryption itself is not modelled, so the call records its two inputs. */
  datatype GatewayCall = GatewayCall(endpoint: string, payload: Gateway.Payload, secret: string, uid: string)

  datatype Effect =
    | WriteSecret(doc: string, value: string)
    | Call(call: GatewayCall)
    | Toast(message: string)

  datatype Step = Step(state: State, effects: seq<Effect>)

  /** The state the component mounts with. */
  function Initial(): State {
    State(Start, [], [])
  }

  /** JavaScript truthiness of an optional string. */
  predicate Truthy(s: Option<string>) {
    s.Some? && s.value != ""
  }

  /** The guard both handlers share: an access token, a token secret and a session. */
  predicate SignedIn(cred: Option<Credential>, session: Option<Session>) {
    cred.Some? && Truthy(cred.value.accessToken) && Truthy(cred.value.secret) && session.Some?
  }

  /** `session?.uid || 'blah'`: the id of the caller's secret document. */
  function SecretDoc(session: Option<Session>): (doc: string)
    ensures doc != ""
    ensures session.Some? && session.value.uid != "" ==> doc == session.value.uid
    ensures !(session.Some? && session.value.uid != "") ==> doc == FallbackDocId
  {
    if session.Some? && session.value.uid != "" then session.value.uid else FallbackDocId
  }

  /** The accounts whose `selected` flag is set, in list order. */
  function Selected(following: seq<Models.Following>): (r: seq<Models.Following>)
    ensures |r| <= |following|
    ensures forall f :: f in r <==> f in following && f.selected
  {
    if |following| == 0 then []
    else (if following[0].selected then [following[0]] else []) + Selected(following[1..])
  }

  function Ids(following: seq<Models.Following>): (ids: seq<string>)
    ensures |ids| == |following|
    ensures forall k :: 0 <= k < |ids| ==> ids[k] == following[k].id
  {
    seq(|following|, k requires 0 <= k < |following| => following[k].id)
  }

  /** The ids of the selected accounts, in list order. */
  function SelectedIds(following: seq<Models.Following>): seq<string> {
    Ids(Selected(following))
  }

  /** The plaintext token of the start button: the credentials and an expiry a minute on.
      The gateway accepts it at the moment it is issued and no longer a minute later. */
  function StartPayload(cred: Credential, now: nat): (p: Gateway.Payload)
    ensures p.accessToken == cred.accessToken && p.accessSecret == cred.secret && p.following.None?
    ensures Gateway.Authorized(p, now) && !Gateway.Authorized(p, now + TokenLifetimeMs)
  {
    Gateway.Payload(cred.accessToken, cred.secret, None, Some(now + TokenLifetimeMs))
  }

  /** The plaintext token of the submit button: also the selected ids joined with ','.
      The gateway accepts it at the moment it is issued and no longer a minute later. */
  function SubmitPayload(cred: Credential, ids: seq<string>, now: nat): (p: Gateway.Payload)
    ensures p.accessToken == cred.accessToken && p.accessSecret == cred.secret
    ensures p.following.Some? && (|ids| > 0 ==> ids[0] <= p.following.value)
    ensures Gateway.Authorized(p, now) && !Gateway.Authorized(p, now + TokenLifetimeMs)
  {
    Gateway.Payload(cred.accessToken, cred.secret, Some(Text.Join(ids, Text.Comma)), Some(now + TokenLifetimeMs))
  }

  /** The secret lease around a call: write the secret, call, write ''. The catch path
      writes '' too, so the lease has the same shape whether or not the call threw. */
  function Lease(doc: string, secret: string, call: GatewayCall): seq<Effect> {
    [WriteSecret(doc, secret), Call(call), WriteSecret(doc, "")]
  }

  /** `onStartHandler`: fetch the accounts the user follows and, when there are more than
      two, show them for picking. */
  function OnStart(s: State, cred: Option<Credential>, session: Option<Session>, secret: UserSecret,
                   now: nat, reply: Reply<Models.Following>): (r: Step)
    ensures r.state == s || (r.state == s.(stage := Following, following := r.state.following)
                             && |r.state.following| > MinFollowing)
    ensures OnlyToasts(r.effects) || LeaseShaped(r.effects)
  {
    if !SignedIn(cred, session) then Step(s, [])
    else
      var call := GatewayCall(GetFollowingEndpoint, StartPayload(cred.value, now), secret, session.value.uid);
      var lease := Lease(SecretDoc(session), secret, call);
      match reply
      case Threw => Step(s, lease + [Toast(StartFailedToast)])
      case Answered(NotArray) => Step(s, lease + [Toast(StartFailedToast)])
      case Answered(JsonArray(items)) =>
        if |items| > MinFollowing then Step(s.(following := items, stage := Following), lease)
        else Step(s, lease + [Toast(NotEnoughFollowsToast)])
  }

  /** `onFollowingSubmitHandler`: check that two to five accounts are selected, fetch
      their posts and, when questions can be generated from them, start the game.
      `generated` stands for what question generation returns for the reply. */
  function OnFollowingSubmit(s: State, cred: Option<Credential>, session: Option<Session>, secret: UserSecret,
                             now: nat, reply: Reply<Models.FollowingTweets>,
                             generated: seq<Models.Question>): (r: Step)
    ensures r.state == s || (r.state == s.(stage := Ingame, questions := generated) && |generated| > 0)
    ensures OnlyToasts(r.effects) || LeaseShaped(r.effects)
  {
    var count := |Selected(s.following)|;
    if count < MinSelected then Step(s, [Toast(TooFewToast)])
    else if count > MaxSelected then Step(s, [Toast(TooManyToast)])
    else if !SignedIn(cred, session) then Step(s, [])
    else
      var call := GatewayCall(TweetsEndpoint, SubmitPayload(cred.value, SelectedIds(s.following), now),
                              secret, session.value.uid);
      var lease := Lease(SecretDoc(session), secret, call);
      match reply
      case Answered(JsonArray(items)) =>
        if |items| == 0 then Step(s, lease + [Toast(SubmitFailedToast)])
        else if |generated| > 0 then Step(s.(questions := generated, stage := Ingame), lease)
        else Step(s, lease + [Toast(NoQuestionsToast)])
      case _ => Step(s, lease + [Toast(SubmitFailedToast)])
  }

  /** `onExitHandler`: back to the start screen with nothing picked and no questions. */
  function OnExit(s: State): (r: Step)
    ensures r.state == Initial() && r.effects == []
  {
    Step(s.(stage := Start, following := [], questions := []), [])
  }

  /** The user actions the screen offers, with what the outside world supplies to them. */
  datatype Event =
    | StartClicked(secret: UserSecret, now: nat, followingReply: Reply<Models.Following>)
    | SubmitClicked(secret: UserSecret, now: nat, tweetsReply: Reply<Models.FollowingTweets>,
                    generated: seq<Models.Question>)
    | ExitClicked

  /** The screen renders the start button only at the start stage, the picking list only
      at the following stage, and the game (with its exit) only in game with questions;
      nothing is rendered without a session. An action the screen does not offer changes
      nothing. */
  function Dispatch(s: State, cred: Option<Credential>, session: Option<Session>, e: Event): (r: Step)
    ensures session.None? ==> r == Step(s, [])
    ensures || r.state.stage == s.stage
            || (s.stage == Start && r.state.stage == Following && e.StartClicked?)
            || (s.stage == Following && r.state.stage == Ingame && e.SubmitClicked?)
            || (s.stage == Ingame && r.state.stage == Start && e.ExitClicked?)
  {
    if session.None? then Step(s, [])
    else
      match e
      case StartClicked(secret, now, reply) =>
        if s.stage == Start then OnStart(s, cred, session, secret, now, reply) else Step(s, [])
      case SubmitClicked(secret, now, reply, generated) =>
        if s.stage == Following then OnFollowingSubmit(s, cred, session, secret, now, reply, generated)
        else Step(s, [])
      case ExitClicked =>
        if s.stage == Ingame && |s.questions| > 0 then OnExit(s) else Step(s, [])
  }

  /** The store a list of effects leaves behind: each secret write sets its document. */
  function Replay(store: map<string, string>, effects: seq<Effect>): map<string, string>
    decreases |effects|
  {
    if |effects| == 0 then store
    else
      match effects[0]
      case WriteSecret(doc, value) => Replay(store[doc := value], effects[1..])
      case _ => Replay(store, effects[1..])
  }

  /** The effects of a handler that did not reach the call: toasts only. */
  predicate OnlyToasts(effects: seq<Effect>) {
    forall i :: 0 <= i < |effects| ==> effects[i].Toast?
  }

  /** The effects of a handler that made its call: write the call's secret to a document,
      make the one call, write '' to the same document, then at most one toast. */
  predicate LeaseShaped(effects: seq<Effect>) {
    && 3 <= |effects| <= 4
    && effects[0].WriteSecret? && effects[1].Call? && effects[2].WriteSecret?
    && effects[0].doc == effects[2].doc && effects[2].value == ""
    && effects[0].value == effects[1].call.secret
    && (|effects| == 4 ==> effects[3].Toast?)
  }

  /** What the screen keeps true: the picking list has more than two accounts, and a game
      in progress has questions. */
  predicate Consistent(s: State) {
    && (s.stage == Following ==> |s.following| > MinFollowing)
    && (s.stage == Ingame ==> |s.questions| > 0)
  }

  // ---------------------------------------------------------------------------
  // Properties

  /** The selection keeps the selected accounts in list order. */
  lemma SelectedInListOrder(following: seq<Models.Following>)
    ensures IsSubsequence(Selected(following), following)
  {
    var idx := SelectedPositions(following);
  }

  /** The positions of the selected accounts: `idx` gives each kept account's position,
      and every selected position is kept. */
  lemma {:induction false} SelectedPositions(following: seq<Models.Following>) returns (idx: seq<nat>)
    ensures EmbedsVia(Selected(following), following, idx)
    ensures forall i :: 0 <= i < |following| && following[i].selected ==> i in idx
  {
    if |following| == 0 {
      idx := [];
    } else {
      var tail := following[1..];
      var rest := SelectedPositions(tail);
      var shifted := seq(|rest|, j requires 0 <= j < |rest| => rest[j] + 1);
      ShiftEmbeds(Selected(tail), following, rest, shifted);
      if following[0].selected {
        idx := [0] + shifted;
        assert Selected(following) == [following[0]] + Selected(tail);
        PrependEmbeds(Selected(tail), following, shifted);
      } else {
        idx := shifted;
        assert Selected(following) == Selected(tail);
      }
      forall i | 1 <= i < |following| && following[i].selected
        ensures i in idx
      {
        assert tail[i - 1] == following[i];
        var j :| 0 <= j < |rest| && rest[j] == i - 1;
        assert shifted[j] == i;
      }
    }
  }

  lemma ShiftEmbeds<T>(a: seq<T>, b: seq<T>, rest: seq<nat>, shifted: seq<nat>)
    requires |b| > 0 && EmbedsVia(a, b[1..], rest)
    requires |shifted| == |rest| && forall j :: 0 <= j < |rest| ==> shifted[j] == rest[j] + 1
    ensures EmbedsVia(a, b, shifted) && forall j :: 0 <= j < |shifted| ==> shifted[j] > 0
  {
    forall j | 0 <= j < |shifted|
      ensures shifted[j] < |b| && a[j] == b[shifted[j]]
    {
      assert b[1..][rest[j]] == b[rest[j] + 1];
    }
  }

  lemma PrependEmbeds<T>(a: seq<T>, b: seq<T>, idx: seq<nat>)
    requires |b| > 0 && EmbedsVia(a, b, idx) && forall j :: 0 <= j < |idx| ==> idx[j] > 0
    ensures EmbedsVia([b[0]] + a, b, [0] + idx)
  {
  }

  /** The submit handler proceeds only with two to five selected accounts: fewer shows
      "select atleast 2", more shows "select atmost 5", and in both cases nothing is
      written, nothing is called and the state is unchanged. */
  lemma SubmitNeedsTwoToFive(s: State, cred: Option<Credential>, session: Option<Session>, secret: UserSecret,
                             now: nat, reply: Reply<Models.FollowingTweets>, generated: seq<Models.Question>)
    ensures var r := OnFollowingSubmit(s, cred, session, secret, now, reply, generated);
      && (|Selected(s.following)| < 2 ==> r == Step(s, [Toast("Did you even read the rules select atleast 2")]))
      && (|Selected(s.following)| > 5 ==> r == Step(s, [Toast("Did you even read the rules select atmost 5")]))
      && (!OnlyToasts(r.effects) ==> 2 <= |Selected(s.following)| <= 5)
  {
  }

  /** Both handlers act only for a signed-in user with an access token and a token secret:
      otherwise the state is unchanged and nothing is written or called. Conversely a
      signed-in user's click (with a valid selection, for submit) always runs one lease. */
  lemma HandlersNeedSignIn(s: State, cred: Option<Credential>, session: Option<Session>, secret: UserSecret,
                           now: nat, followingReply: Reply<Models.Following>,
                           tweetsReply: Reply<Models.FollowingTweets>, generated: seq<Models.Question>)
    ensures var r := OnStart(s, cred, session, secret, now, followingReply);
      && (!SignedIn(cred, session) ==> r == Step(s, []))
      && (SignedIn(cred, session) ==> LeaseShaped(r.effects))
    ensures var r := OnFollowingSubmit(s, cred, session, secret, now, tweetsReply, generated);
      && (!SignedIn(cred, session) ==> r.state == s && OnlyToasts(r.effects))
      && (SignedIn(cred, session) && 2 <= |Selected(s.following)| <= 5 ==> LeaseShaped(r.effects))
  {
  }

  lemma {:induction false} ReplayConcat(store: map<string, string>, a: seq<Effect>, b: seq<Effect>)
    ensures Replay(store, a + b) == Replay(Replay(store, a), b)
    decreases |a|
  {
    if |a| == 0 {
      assert a + b == b;
    } else {
      assert (a + b)[0] == a[0];
      assert (a + b)[1..] == a[1..] + b;
      match a[0]
      case WriteSecret(doc, value) => ReplayConcat(store[doc := value], a[1..], b);
      case _ => ReplayConcat(store, a[1..], b);
    }
  }

  lemma {:induction false} ReplayToasts(store: map<string, string>, effects: seq<Effect>)
    requires OnlyToasts(effects)
    ensures Replay(store, effects) == store
    decreases |effects|
  {
    if |effects| > 0 {
      ReplayToasts(store, effects[1..]);
    }
  }

  /** A lease-shaped effect list holds the secret in its document while the call is made
      and leaves the store as it was except that the document now holds ''. */
  lemma LeaseReplay(store: map<string, string>, effects: seq<Effect>)
    requires LeaseShaped(effects)
    ensures var doc := effects[0].doc;
      doc in Replay(store, effects[..2]) && Replay(store, effects[..2])[doc] == effects[1].call.secret
    ensures Replay(store, effects) == store[effects[0].doc := ""]
  {
    var doc := effects[0].doc;
    var mid := store[doc := effects[0].value];
    assert Replay(store, effects[..1]) == Replay(mid, []);
    ReplayConcat(store, effects[..1], [effects[1]]);
    assert effects[..1] + [effects[1]] == effects[..2];
    assert Replay(mid, [effects[1]]) == Replay(mid, []);
    ReplayConcat(store, effects[..2], effects[2..]);
    assert effects[..2] + effects[2..] == effects;
    ReplayConcat(mid, [effects[2]], effects[3..]);
    assert [effects[2]] + effects[3..] == effects[2..];
    assert Replay(mid, [effects[2]]) == Replay(mid[doc := ""], []);
    ReplayToasts(mid[doc := ""], effects[3..]);
    assert mid[doc := ""] == store[doc := ""];
  }

  /** The secret discipline: a handler that calls the gateway first writes the
      ten-character secret supplied by the caller to the caller's secret document, makes the call with that
      secret while the document holds it, and then writes '' to the document, on the
      normal path and on the exception path alike; no other document is touched. */
  lemma SecretLease(store: map<string, string>, s: State, cred: Option<Credential>, session: Option<Session>,
                    secret: UserSecret, now: nat, followingReply: Reply<Models.Following>,
                    tweetsReply: Reply<Models.FollowingTweets>, generated: seq<Models.Question>)
    ensures var e := OnStart(s, cred, session, secret, now, followingReply).effects;
      !OnlyToasts(e) ==>
        && |e| >= 3 && e[1].Call? && e[1].call.secret == secret && |secret| == 10
        && e[0] == WriteSecret(SecretDoc(session), secret)
        && SecretDoc(session) in Replay(store, e[..2]) && Replay(store, e[..2])[SecretDoc(session)] == secret
        && Replay(store, e) == store[SecretDoc(session) := ""]
    ensures var e := OnFollowingSubmit(s, cred, session, secret, now, tweetsReply, generated).effects;
      !OnlyToasts(e) ==>
        && |e| >= 3 && e[1].Call? && e[1].call.secret == secret && |secret| == 10
        && e[0] == WriteSecret(SecretDoc(session), secret)
        && SecretDoc(session) in Replay(store, e[..2]) && Replay(store, e[..2])[SecretDoc(session)] == secret
        && Replay(store, e) == store[SecretDoc(session) := ""]
  {
    var e1 := OnStart(s, cred, session, secret, now, followingReply).effects;
    if SignedIn(cred, session) {
      LeaseReplay(store, e1);
    }
    var e2 := OnFollowingSubmit(s, cred, session, secret, now, tweetsReply, generated).effects;
    if SignedIn(cred, session) && 2 <= |Selected(s.following)| <= 5 {
      LeaseReplay(store, e2);
    }
  }

  /** The start handler moves to the following stage, showing the returned accounts,
      exactly when a signed-in user's call answered with an array of more than two
      accounts; in every other case the state is unchanged. */
  lemma StartTransition(s: State, cred: Option<Credential>, session: Option<Session>, secret: UserSecret,
                        now: nat, reply: Reply<Models.Following>)
    ensures var r := OnStart(s, cred, session, secret, now, reply);
      if SignedIn(cred, session) && reply.Answered? && reply.data.JsonArray? && |reply.data.items| > 2
      then r.state == State(Following, reply.data.items, s.questions)
      else r.state == s
  {
  }

  /** The submit handler moves to the game stage with the generated questions exactly
      when a valid selection's call answered with a non-empty array and question
      generation produced at least one question; otherwise the state is unchanged. */
  lemma SubmitTransition(s: State, cred: Option<Credential>, session: Option<Session>, secret: UserSecret,
                         now: nat, reply: Reply<Models.FollowingTweets>, generated: seq<Models.Question>)
    ensures var r := OnFollowingSubmit(s, cred, session, secret, now, reply, generated);
      if && 2 <= |Selected(s.following)| <= 5 && SignedIn(cred, session)
         && reply.Answered? && reply.data.JsonArray? && |reply.data.items| > 0 && |generated| > 0
      then r.state == State(Ingame, s.following, generated)
      else r.state == s
  {
  }

  /** The screen after a sequence of actions. */
  function Run(s: State, cred: Option<Credential>, session: Option<Session>, events: seq<Event>): State
    decreases |events|
  {
    if |events| == 0 then s
    else Run(Dispatch(s, cred, session, events[0]).state, cred, session, events[1..])
  }

  /** The game can only be entered through the picking screen: a run that starts outside
      the game and ends in it contains a submit. */
  lemma {:induction false} GameNeedsSubmit(s: State, cred: Option<Credential>, session: Option<Session>,
                                           events: seq<Event>)
    requires s.stage != Ingame && Run(s, cred, session, events).stage == Ingame
    ensures exists i :: 0 <= i < |events| && events[i].SubmitClicked?
    decreases |events|
  {
    if !events[0].SubmitClicked? {
      GameNeedsSubmit(Dispatch(s, cred, session, events[0]).state, cred, session, events[1..]);
      var i :| 0 <= i < |events| - 1 && events[1..][i].SubmitClicked?;
      assert events[i + 1].SubmitClicked?;
    }
  }

  /** Any run keeps the screen consistent. */
  lemma {:induction false} RunKeepsConsistent(s: State, cred: Option<Credential>, session: Option<Session>,
                                              events: seq<Event>)
    requires Consistent(s)
    ensures Consistent(Run(s, cred, session, events))
    decreases |events|
  {
    if |events| > 0 {
      DispatchKeepsConsistent(s, cred, session, events[0]);
      RunKeepsConsistent(Dispatch(s, cred, session, events[0]).state, cred, session, events[1..]);
    }
  }

  /** Every action keeps the screen consistent: the game stage always has questions to
      show, and the picking stage always lists more than two accounts. */
  lemma DispatchKeepsConsistent(s: State, cred: Option<Credential>, session: Option<Session>, e: Event)
    requires Consistent(s)
    ensures Consistent(Dispatch(s, cred, session, e).state)
  {
  }
}
