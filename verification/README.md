# Who's The Tweeter — token-scoped tweet-fetch gateway and home-screen game flow

This project models the two pieces of decision logic in the trivia game. The first is
the serverless handler `get-tweets-for-following`. It redeems a short-lived capability
token, checks its expiry, sends one upstream "recent posts" request per followed
account, and folds the settled outcomes back into an aggregate by index. The second is
the home screen's game flow. It covers the start and submit button handlers, which mint
the token, lease a secret in the document store, call a serverless function and move
the `start → following → ingame` stage machine, and the exit handler.

Everything is pure: immutable datatypes and total functions. The network, the clock,
the random secret, the environment, decryption and the upstream client are parameters.
Effects are returned as data. The client handlers return the next state and an ordered
list of effects: secret-store writes, the one gateway call and the toast shown.

Modules:

- `Options`: an optional value (an absent JSON field).
- `Text`: JavaScript's `split`/`join` on a one-character separator, with both round trips.
- `Subsequences`: order-preserving selection, used to state ordering properties.
- `Models`: the records that travel between browser and gateway. The repository's model
  types are not part of this model, so these records are placeholders. The logic reads
  only `Following.id`, `Following.selected`, and an entry's `following` and `tweets`.
- `Gateway`: `functions/get-tweets-for-following.ts`.
- `Home`: `src/components/home/home.tsx`.
- `Flow`: how the two files meet. The client's joined `following` field is the gateway's
  split id list. The client's `eat` is the gateway's acceptance window. The gateway's
  status picks the client's path, because axios rejects any non-2xx status.

The model follows the code as written:

- A rejected upstream request is **dropped** from the aggregate
  (functions/get-tweets-for-following.ts:36). It does not become an entry with no posts.
  So the aggregate has one entry per *fulfilled* request, and one per requested id only
  when nothing was rejected (`Gateway.AggregateLength`).
- Any exception inside the handler's `try` gives 500 with the fixed connection-error body
  (functions/get-tweets-for-following.ts:51-55). This covers an undecryptable or
  unparsable token and a failing client construction. Only a missing or zero `eat`, or one not after
  the current time, gives 401.

## Model

| member | source | states |
|---|---|---|
| Text.Split | functions/get-tweets-for-following.ts:22 | `split(',')` never yields an empty list, and no piece contains the separator |
| Text.Join | src/components/home/home.tsx:100 | `join(',')` puts the first part first, followed by the separator when more parts follow, with at least one character per separator |
| Text.SplitCount | functions/get-tweets-for-following.ts:22 | splitting gives one more piece than the string has separators |
| Text.SplitJoin | src/components/home/home.tsx:97-100 | splitting a joined non-empty list of separator-free ids gives back exactly that list, in order |
| Text.JoinSplit | functions/get-tweets-for-following.ts:22 | joining the pieces of any string with the separator rebuilds the string |
| Text.EmptyJoinSplitsToOnePiece | functions/get-tweets-for-following.ts:22 | the empty list is the one case the round trip loses: it joins to "", which splits into the single piece "" |
| Gateway.FollowingList | functions/get-tweets-for-following.ts:22 | an absent `following` gives no ids; a present one gives separator-free ids that join back to the field |
| Gateway.FollowingListShape | functions/get-tweets-for-following.ts:22 | absent gives `[]`, the empty string gives `[""]`, and otherwise there is one id per comma plus one |
| Gateway.Authorized | functions/get-tweets-for-following.ts:14 | an accepted token expires after `now`; for a non-negative clock, an `eat` after `now` is always accepted, so the truthiness test adds nothing |
| Gateway.Handle | functions/get-tweets-for-following.ts:6-57 | the status is always 200, 401 or 500; 200 exactly when the body is the aggregate; 500 exactly when a setup step (decryption, parsing or client construction) threw |
| Gateway.ExpiredTokenRejected | functions/get-tweets-for-following.ts:14-49 | a decrypted token whose `eat` is missing, zero or not after `now` gets 401 "Unauthorized access" with zero upstream requests, and conversely |
| Gateway.SetupFailureIsServerError | functions/get-tweets-for-following.ts:51-55 | a failure to decrypt or parse the token, or to construct the client, gets 500 with the fixed connection-error body and makes no upstream request |
| Gateway.FanOut | functions/get-tweets-for-following.ts:26-33 | the loop makes exactly as many requests as there are ids, and request `i` is for the posts of id `i` |
| Gateway.FanOutOnePerId | functions/get-tweets-for-following.ts:26-33 | the loop issues exactly one request per id, in id order, for `users/<id>/tweets` with at most 100 results excluding retweets and replies |
| Gateway.RequestsFollowIdList | functions/get-tweets-for-following.ts:15-33 | the request count equals the id count; an accepted token fetches its `following` list; request `i` is for id `i` and uses the token's credentials and the environment's application key and secret, each "" where absent |
| Gateway.FulfilledIndices | functions/get-tweets-for-following.ts:35-36 | the fulfilled positions below `k`, strictly increasing, and containing every fulfilled position |
| Gateway.CollectUpTo | functions/get-tweets-for-following.ts:35-40 | the first `k` settled outcomes fold to at most `k` entries, each for one of the first `k` ids |
| Gateway.Collect | functions/get-tweets-for-following.ts:35-40 | the aggregate has no more entries than ids, and each is for a requested id |
| Gateway.CollectUpToByIndex | functions/get-tweets-for-following.ts:35-40 | folding the first `k` settled outcomes yields exactly the entries at the fulfilled indices below `k`, in order, each paired with the id at its own index |
| Gateway.AggregatePairsByIndex | functions/get-tweets-for-following.ts:35-40 | entry `j` belongs to the `j`-th fulfilled request `i`: it carries `ids[i]`, its posts are exactly the returned data, or none when the response had no data, and rejected requests contribute nothing |
| Gateway.CollectUpToLength | functions/get-tweets-for-following.ts:35-40 | the first `k` outcomes fold to at most `k` entries, and exactly `k` iff none of them was rejected |
| Gateway.AggregateLength | functions/get-tweets-for-following.ts:35-40 | the aggregate has at most one entry per id, and one per id iff every request was fulfilled |
| Gateway.AggregateIdsAreSubsequence | functions/get-tweets-for-following.ts:35-40 | the aggregate's account ids are an order-preserving subsequence of the requested ids |
| Gateway.AcceptedTokenIsOk | functions/get-tweets-for-following.ts:35-44 | an accepted token always gets 200 with the aggregate; if every request was rejected the aggregate is empty and the status is still 200, never 500 |
| Gateway.TwoAccountScenario | functions/get-tweets-for-following.ts:14-44 | `following` "id1,id2" with a minute to go: both fulfilled gives both entries in order; first rejected and second empty gives only the second, with no posts |
| Home.Selected | src/components/home/home.tsx:86-98 | the selected accounts: an account is kept iff it is in the list and selected, and there are no more of them than accounts |
| Home.SelectedInListOrder | src/components/home/home.tsx:97-99 | the selected accounts form an order-preserving subsequence of the list |
| Home.SelectedPositions | src/components/home/home.tsx:86-99 | an explicit strictly increasing embedding of the selection into the list that covers every selected position, so each selected account is counted exactly once |
| Home.SecretDoc | src/components/home/home.tsx:29 | the secret document's id is never empty: the user's id when there is a non-empty one, and 'blah' otherwise |
| Home.StartPayload | src/components/home/home.tsx:36-43 | the start token carries the user's credentials and no `following`; the gateway accepts it when it is issued and rejects it a minute later |
| Home.SubmitPayload | src/components/home/home.tsx:93-104 | the submit token carries the credentials and a `following` field that begins with the first id; the gateway accepts it when it is issued and rejects it a minute later |
| Home.OnStart | src/components/home/home.tsx:31-81 | the start handler either leaves the state alone or moves to `following` with more than two accounts, keeping the questions; its effects are toasts only or one secret lease |
| Home.OnFollowingSubmit | src/components/home/home.tsx:83-144 | the submit handler either leaves the state alone or moves to `ingame` with the non-empty generated questions, keeping the accounts; its effects are toasts only or one secret lease |
| Home.SubmitNeedsTwoToFive | src/components/home/home.tsx:86-91 | fewer than 2 selected gives only the "atleast 2" toast and more than 5 only the "atmost 5" toast, with the state unchanged; any write or call implies 2..5 selected |
| Home.HandlersNeedSignIn | src/components/home/home.tsx:34-91 | without an access token, a token secret and a session neither handler changes state, writes or calls; with them, start always runs one secret lease, and so does submit with a valid selection |
| Home.LeaseReplay | src/components/home/home.tsx:44-59 | replaying a lease on the store: the secret document holds the call's secret while the call is made, and afterwards the store is as before except that document holds '' |
| Home.SecretLease | src/components/home/home.tsx:44-140 | a handler that calls first writes the 10-character secret supplied by the caller to the caller's document, calls with that secret while the document holds it, and resets it to '' afterwards on the normal and the exception path; no other document changes |
| Home.ReplayConcat | src/components/home/home.tsx:44-59 | replaying two effect lists in turn is replaying their concatenation |
| Home.ReplayToasts | src/components/home/home.tsx:65-78 | toasts do not touch the secret store |
| Home.StartTransition | src/components/home/home.tsx:60-71 | the start handler moves to `following` and shows the returned accounts iff a signed-in call answered with an array of more than two accounts; otherwise the state is unchanged |
| Home.SubmitTransition | src/components/home/home.tsx:122-134 | the submit handler moves to `ingame` with the generated questions iff a valid, signed-in call answered with a non-empty array and question generation gave at least one question; otherwise the state is unchanged |
| Home.OnExit | src/components/home/home.tsx:146-150 | exit returns the screen to its mounted state (start stage, no accounts, no questions) with no effects |
| Home.Dispatch | src/components/home/home.tsx:152-189 | without a session nothing happens; each action keeps the stage or takes exactly one of start → following (start click), following → ingame (submit), ingame → start (exit) |
| Home.GameNeedsSubmit | src/components/home/home.tsx:157-185 | any run of actions that starts outside the game and ends in it contains a submit |
| Home.RunKeepsConsistent | src/components/home/home.tsx:60-185 | every run of actions keeps the screen consistent |
| Home.DispatchKeepsConsistent | src/components/home/home.tsx:60-185 | every action keeps the screen consistent: the picking stage lists more than two accounts and the game stage has questions |
| Flow.ReplyOf | src/components/home/home.tsx:109-117 | the client's request throws exactly for a non-2xx status; a 2xx aggregate arrives as an array of exactly its entries, and a 2xx error object as a non-array |
| Flow.FollowingFieldRoundTrip | src/components/home/home.tsx:97-100 | the gateway's split of the client's joined `following` field is exactly the selected ids, in order, when none contains ',' |
| Flow.IssuedTokenWindow | src/components/home/home.tsx:40-101 | a token issued at time t passes the gateway's expiry gate at `now` exactly when `now` < t + 60000 |
| Flow.SubmitCall | src/components/home/home.tsx:91-117 | the submit handler makes its gateway call iff 2..5 accounts are selected and the user is signed in, that call is the second effect, and otherwise the handler only raises toasts |
| Flow.SubmitFansOutToSelection | functions/get-tweets-for-following.ts:14-33 | when no selected id contains ',', a submitted selection redeemed within its minute makes one upstream request per selected account, in list order; after the minute it gets 401 and makes none |
| Flow.LateSubmitIsUnauthorized | functions/get-tweets-for-following.ts:14-15 | for any selection, even one with ',' in an id, a submit token redeemed a minute or more after issue gets 401 with no upstream request |
| Flow.FailedRoundKeepsState | src/components/home/home.tsx:109-142 | when the gateway answers 401 or 500, or every upstream request was rejected, the client keeps its state, shows the "Twitter hates me" toast, and still clears its secret |

## Left out

- Encryption and decryption (`encryptData`/`decryptData`) and `JSON.parse`/`JSON.stringify`
  are not modelled. The gateway receives what decryption yielded (`Gateway.Decryption`).
  The client records the token's plaintext payload and secret instead of a ciphertext.
  No cipher law is assumed. `Flow` lemmas take "the gateway recovered the sealed payload"
  as a hypothesis.
- Payload fields of other JSON types are not modelled. A `following` that is neither a
  string nor null would throw in `split` and give 500. A null `following` acts as an
  absent one (`None`): `null?.split(',')` is `undefined` and `|| []` gives `[]`. A string
  `eat` is compared by coercion. Fields are optional strings and an optional integer `eat`.
- Whether constructing the upstream client throws is not derived from the environment.
  That failure folds into the `SetupFailed` input, which the source answers with 500.
- The upstream client (`TwitterApi`) and HTTP are left out. Requests are returned as data.
  Outcomes are an input, already settled and indexed like the requests, which is what
  `Promise.allSettled` guarantees. Its concurrency is not modelled. A fulfilled request
  is assumed to resolve to an object. A nullish resolved value would make the
  destructuring at functions/get-tweets-for-following.ts:37 throw, and the handler would
  answer 500; the model does not cover that case.
- `process.env` becomes the `Env` parameter and `Date.now()` a `now` parameter. The client
  clock is a `nat` of milliseconds.
- On the client, only the gateway call (`axios.get`) is modelled as able to throw. Failures
  of `updateDoc`, `encryptData`, `cryptoRandomString` and `generateQuestions` are not
  modelled. The document store is assumed to accept every write.
- `generateQuestions` is an input (the `generated` parameter). The random secret is an input
  constrained to length 10. Its base64 alphabet is not modelled.
- Button-disable flags, toast icons and all JSX are left out. Only the render conditions
  that decide which handler the screen offers are kept, in `Home.Dispatch`.
- Toggling `selected` on the picking list happens in a child component, which is not part
  of this model.
- The `get-following` function called by the start handler is not part of this model. Its
  reply is an input.
- `src/components/navigation/navigation.tsx` (OAuth sign-in/out, score and secret document
  creation, navigation highlight) is not modelled.
