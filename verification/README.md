# Token handling, replay, paging and rotation of the kms-sdk-go client

This project models the parts of the Keys&More client that carry state or an algorithm, and proves
what they promise.

- **Token sources.** `Keycloak.OAuth2`, `Oidc.OidcAuth` and `SelfManaged.SelfManagedAuth` are classes with
  the fields and branches of `oauth2`, `oidcAuth` and `selfManagedAuth`. Each method is proved equal to a
  function of the cache in `TokenCache`, which is written once for all three: a `Policy` of five flags says
  where they differ, and for each source a lemma says in the cache fields alone what an accepted response leaves
  and another what is posted when. The grants are those of sections 4.3 and 6 of RFC 6749. `Refinement` shows that this
  cache, with `""` for "no token" and expiry fields that can be stale, behaves over every sequence of
  operations like one that holds each token together with the expiry of its own response.
- **Concurrency.** `Protocol` is a step relation: any number of goroutines running `do`, `GetToken`,
  `InvalidateToken` and `Logout`, one mutex, a clock, and a server that answers anything. A schedule is a
  sequence of steps. `Invariants` and `Preservation` carry one invariant through every step, and
  `Guarantees`, `Counting` and `Progress` read the theorems off it, for every policy, every set of calls and
  every schedule. Token strings may repeat, so a token is identified by the log index of its grant.
  `Rejection` says exactly when the invalidation after a 401 drops the rejected token, a newer one or none.
  `Atomicity` ties the two views together: from Lock to Unlock a `GetToken` among others is one turn of the
  sequential `GetToken`, with the clock readings and the answers of its own steps, and every such turn can be
  run. `Serial` does so for whole runs: all sections, in the order of the mutex, are a sequential history.
  `Conduct` does so for `do`: among others it sends, causes and ends as the sequential `do`, given what its
  `GetToken` calls returned and the answers it received.
- **Calls.** `Calls`, `Paging` and `Rotation` describe `do`, `fetchAllPages` and `RotateKey` as functions of
  the environment they start from, and prove their properties, with the requests sent written out; the methods
  of `Client.Client`, and `Rotation.NewKeyLink`, have the loops and early exits of the code and are proved equal
  to those functions.
- **Names.** `PropertyNames` has the camel-case conversion and the choice of the token property.

The clock, the token endpoint and the API are parameters: `World.World` holds an arbitrary clock and
arbitrary answers. The API is a function of the request sent and the attempt, from which a call is given the
answers to its attempts. `effect` in an answer says whether the server acted on the request.

Where the code and its comments differ, the model follows the code:

- The comment on `Client.Logout` says that later calls authenticate with the stored credentials. On the
  OAuth2 sources only the access token is dropped, so a later call posts the refresh token if it may
  (`TokenCache.LocalLogoutThenCredentials` says exactly when); on self-managed deployments the comment holds
  after a successful logout (`TokenCache.RemoteLogoutThenCredentials`).
- One revoked token may cost more than one new grant, because a late 401 drops a token it was not about
  (`Witness.LateRejectionDropsFreshToken`). It does so exactly if a token newer than the rejected one has been
  granted and is still live (`Rejection.LateRejectionExactly`). Without such late rejections one new grant per
  rejected token is enough, and each late one costs at most one more (`Counting.GrantsPerRejectedToken`).
- The stop condition `page >= totalPages-1` wraps around for the least 64-bit total, and then does not stop
  the loop (`Paging.LeastTotalRunsOn`).
- The snake-case conversion does not keep all names apart: `PropertyNames.SnakeShares` says exactly which
  ASCII names share their snake form with another one, and `PropertyNames.SnakeCollisions` gives examples,
  one of them outside ASCII. Which names an explicit decoder gives back is a different question, answered
  exactly by `PropertyNames.SnakeRoundTrip`.

## Model

| member | source | states |
|---|---|---|
| Guarantees.ReplayFreshness | client.go:422-428 | in every schedule, the token sent on a replay was granted in answer to a grant posted after the replaying goroutine's own invalidation, even if others refilled the cache |
| Guarantees.SingleFlight | oauth2.go:81-90 | while the first grant posted is non-empty, unexpired and not dropped, it is the only grant posted, and every finished GetToken, of any number, succeeded with its token |
| Guarantees.GrantSeparation | selfmanaged.go:56-62 | between a successful grant and any later post there was an invalidation or logout, or the token's expiry was reached, or the token was empty, which a source that refuses empty tokens never grants |
| Guarantees.DeclinedStaysDead | oidc.go:86-93 | a refresh token once answered with an APIError below 500 is never posted again in the run, by any goroutine |
| Guarantees.LoggedOutStaysOut | selfmanaged.go:104-136 | after a successful remote logout, every token returned and every refresh token posted under the mutex comes from a grant posted later |
| Guarantees.ExpirySafety | oauth2.go:84-92 | the cached path returns a token only before the expiry that came with it, and a refresh token with a local expiry is posted only before its own, also when it was retained by later responses |
| Counting.GrantsAreEarned | oauth2.go:167-171 | over any run, successful grants number at most one more than invalidations and logouts, outlived tokens and empty tokens together |
| Rejection.LateRejectionExactly | client.go:422-428 | in every schedule, a do about to invalidate was answered 401 with a token of its own, and drops a newer token exactly if one has been granted since and neither dropped nor replaced, and the rejected token exactly if that is still live |
| Counting.GrantsPerRejectedToken | client.go:422-428 | over any run, successful grants number at most one more than the distinct tokens that dos were rejected with, the late rejections, the endings callers asked for, outlived and empty tokens together; so without late rejections dos rejected with one token share one new grant |
| Counting.WorkBounds | client.go:403-448 | in every schedule an authenticated do posts at most 4 grants, sends at most 2 requests and invalidates at most once; an unauthenticated one posts none and sends one; if a 401 means no effect, a do has at most one effect |
| Counting.TotalWork | client.go:398-449 | n concurrent calls make at most 4n token requests, 2n API requests and n invalidations |
| Progress.LockDiscipline | oauth2.go:80-134 | whatever changes the cache holds the mutex; the mutex is taken only when free, released only by its holder, and never held outside a source's methods |
| Progress.EveryRunEnds | client.go:403-448 | n calls take at most 16n steps between them, in any schedule |
| Progress.NeverStuck | selfmanaged.go:95-106 | from every reachable state some schedule brings every call to its end |
| Atomicity.SectionIsTurn | oidc.go:69-108 | among any interleaving, a GetToken does to the cache, posts and returns, token or failure, what the sequential GetToken does on the cache at Lock with exactly the clock readings and answers of the section's own steps, in order; the readings lie between Lock and Unlock |
| Atomicity.TurnIsSection | oidc.go:69-108 | conversely, for every clock and all answers the protocol can run the turn of the sequential GetToken |
| Serial.RunIsSerial | selfmanaged.go:52-136 | for any calls and every schedule, the sections of the run in the order of the mutex return what the same operations return one after the other, from a cold cache and with the run's own readings and answers as the clock and the server; so does a cache that pairs each token with its expiry |
| Conduct.DoAmongOthers | client.go:398-449 | in every schedule, a finished do was given the answers that the schedule brought to its requests, and has sent, with the same bearers, caused and returned what the sequential do does with them and with the tokens it got; it succeeded exactly if it was answered at all and the last answer has a status below 400 other than 260 and a body that decodes |
| Conduct.FinishedCallsHaveActed | client.go:194-207 | in every schedule, an InvalidateToken or local Logout that has returned has dropped the access token; a remote Logout succeeded exactly if the server accepted it or there was nothing cached; a GetToken succeeded exactly if it reused or was granted a token |
| Preservation.FollowOk | oauth2.go:138-174 | the invariant, in which a cached token is the one its grant issued, with that grant's expiry, newer than every invalidation, logout and refusal concerning it, survives every schedule |
| Witness.LateRejectionDropsFreshToken | client.go:422-428 | a schedule of two calls in which one rejected token leads to two further grants, because the second rejection is late and drops the token just granted |
| TokenCache.GetToken | selfmanaged.go:52-90 | each call posts nothing, one grant, or refresh then password, the last exactly when the refresh was declined with an APIError below 500; lapsed tokens are neither returned nor posted; a failure changes nothing but a declined refresh token |
| TokenCache.LocalLogoutThenCredentials | client.go:203-205 | after a local logout the next call posts the password grant first exactly if the refresh token is absent or past a locally checked expiry |
| TokenCache.RemoteLogoutThenCredentials | selfmanaged.go:104-136 | after a successful remote logout the next call posts the password grant and nothing else |
| Refinement.RunRefines | oauth2.go:41-46 | over every sequence of operations the cache gives the outputs of one that pairs each token with the expiry of its own response |
| Refinement.StaleExpiryIsInert | oidc.go:166-173 | caches that differ only in the expiry of an absent token, or one the policy ignores, give the same outputs forever |
| Refinement.LogoutOfEachSource | client.go:194-207 | on the OAuth2 sources Logout drops the access token and succeeds; on the self-managed source it drops both tokens, or fails and keeps both |
| TokenCache.RemoteLogout | selfmanaged.go:104-136 | the logout succeeds exactly with an empty cache or an answer below 400, and then leaves no token; a failure changes nothing |
| Keycloak.AcceptedResponse | oauth2.go:167-173 | an accepted response overwrites all four fields, each token with its own expiry, even by nothing |
| Keycloak.WhatIsPosted | oauth2.go:84-92 | nothing is posted exactly before the expiry of a cached token; otherwise the refresh token comes first exactly before its own expiry |
| Keycloak.OAuth2.GetToken | oauth2.go:80-125 | the method, with its field updates, is the Keycloak instance of GetToken: cache, result, grants posted and clock readings |
| Keycloak.OAuth2.RequestToken | oauth2.go:138-174 | one posted grant; a success overwrites both tokens and expiries, a failure changes nothing |
| Keycloak.OAuth2.InvalidateToken | oauth2.go:130-134 | drops the access token and nothing else |
| Oidc.AcceptedResponse | oidc.go:161-175 | a response without an access token is an error that changes nothing; any other replaces the access token, with an expiry only if the lifetime is positive, and the refresh token only if it has one |
| Oidc.WhatIsPosted | oidc.go:73-80 | nothing is posted exactly while a cached token has no expiry or has not reached it; otherwise the refresh token comes first whenever there is one |
| Oidc.OidcAuth.StoreFields | oidc.go:166-173 | a positive `expires_in` sets the expiry that far ahead, anything else none; a non-empty `refresh_token` replaces the old one |
| World.ReadFields | oidc.go:133-151 | a status of 400 or more is an APIError, an answer that does not arrive or decode is not one; a refresh is declined exactly by 400 to 499 |
| Oidc.OidcAuth.GetToken | oidc.go:69-108 | the method is the OIDC instance of GetToken |
| Oidc.OidcAuth.RequestToken | oidc.go:122-176 | one posted grant; the token is the first candidate property with a non-empty string, its absence an error that changes nothing; the refresh token is kept when absent |
| SelfManaged.AcceptedResponse | selfmanaged.go:165-173 | an accepted response replaces the access token and its expiry, and the refresh token and its expiry only if it has one |
| SelfManaged.WhatIsPosted | selfmanaged.go:56-70 | nothing is posted exactly before the expiry of a cached token; otherwise the refresh token comes first exactly before its own expiry |
| World.ReadTyped | selfmanaged.go:149-163 | an answer is accepted exactly below 400 with a body that decodes; a status of 400 or more is an APIError, anything else is not |
| SelfManaged.SelfManagedAuth.GetToken | selfmanaged.go:52-90 | the method is the self-managed instance of GetToken |
| SelfManaged.SelfManagedAuth.RequestToken | selfmanaged.go:141-174 | one posted grant; the refresh token and its expiry are kept when the response has none |
| SelfManaged.SelfManagedAuth.Logout | selfmanaged.go:104-136 | posts the cached pair, clears both on success, keeps both on failure, and posts nothing with an empty cache |
| Client.Client.Do | client.go:398-449 | the attempt loop, with its token requests, its one replay after a 401 and its status classes, has exactly the effects of the specified call |
| Client.Client.FetchAllPages | client.go:258-272 | the accumulating loop has the result, requests and cache changes of the specified fetch, and ends for every server because totals are 64-bit |
| Client.Client.RotateKey | key_lifecycle.go:38-58 | read, rotate, read and infer, with each way to fail, as specified |
| Client.Client.Logout | client.go:194-207 | a no-op before Connect, remote for self-managed, local for the others |
| Calls.DoSends | client.go:403-469 | the requests of a do with their bearers: none if its token cannot be had; the first with the token GetToken returned, or none if it is not authenticated; a second exactly after a 401 for which another token is had, with that token; and its result |
| Calls.LiveTokenSuffices | client.go:463-469 | a cached token that can be used and is not rejected is sent as it is: no grant is posted and the cache stays |
| Calls.DoAccounts | client.go:403-448 | a do sends its request once, or twice exactly after a first 401 when it succeeds, posts at most four grants, and its success is the deciding answer's |
| Calls.DoEffects | client.go:398-449 | if a 401 means no effect, a do has at most one effect, and a successful one that of its deciding answer |
| Calls.ReplayCarriesFreshToken | client.go:422-446 | the second request carries the token with which the last grant, posted after the 401, was answered |
| Calls.Judge | client.go:430-442 | success exactly for statuses below 400 other than 260 with a body that decodes if a result is wanted; an APIError exactly for the other statuses |
| Paging.ExactPaging | client.go:258-272 | against a list served with correct totals, for any page size and any 401s on first attempts, a successful fetch returns exactly the list, fetching its pages, or one if it is empty, each once and in order, with at most twice as many requests |
| Paging.PagesInOrder | client.go:260-263 | the requests of a fetch, as `ExactPaging` and `FetchCollects` name them, are for pages of 10000 elements of that list and nothing else, in ascending order, each page asked for once, or twice after a 401 |
| Paging.OneTokenForAllPages | client.go:258-272 | while the cached token can be used and no page is answered 401, a fetch posts no grant and sends that token with every request |
| Paging.PageCountRoundsUp | client.go:266-270 | the page count in `ExactPaging` and `RobustPaging` is the number of elements divided by the page size, rounded up |
| Paging.RobustPaging | client.go:261-271 | with overstated totals and a `last` no earlier than the final page, the list is still returned, in at most one page more |
| Paging.PagingOutcome | client.go:258-272 | against an honest list a fetch, failed or not, sends at most two requests for each page it may come to, and returns the list whenever every token and every deciding answer for those pages arrives |
| Paging.FetchCollects | client.go:258-272 | a successful fetch returns what the deciding answers add up to, and requests each page once, or twice after a 401 |
| Paging.BoundedPaging | client.go:261-271 | for arbitrary answers claiming at most N pages, the result is the contents up to the first page that stops, within max(1, N) pages |
| Paging.LeastTotalRunsOn | client.go:268-270 | a page, other than the largest, stops the loop exactly if it is last, empty, or at or past its claimed total and that total is not the least 64-bit integer |
| Rotation.NewKeyLink | key_lifecycle.go:62-80 | ok exactly if one id is in `after` and neither in `before` nor the key itself, and then it is the result |
| Rotation.OnlyTheSetsMatter | key_lifecycle.go:62-80 | the inferred successor depends on neither order nor repetition |
| Rotation.SuccessorSoundness | key_lifecycle.go:38-58 | with a fresh successor, a returned id is the successor exactly if the second read shows it; if it does, it is returned exactly if no other new link appeared, and otherwise the successor is unknown |
| Rotation.RotationSends | key_lifecycle.go:38-58 | the exact requests: a read, a rotation and a read of this key, each once or twice after a 401; fewer if the call fails, and then nothing after the request that failed |
| Rotation.UnreadKeyLeftAlone | key_lifecycle.go:39-42 | if the key cannot be read first, the call fails after nothing but reads of it, without effect |
| Rotation.RotationDecided | key_lifecycle.go:38-58 | when every token is obtained, the result follows from the three deciding answers, with each way to fail; a rotation is accepted by its status alone |
| Rotation.OneTokenForRotation | key_lifecycle.go:38-58 | while the cached token can be used and is not rejected, a rotation posts no grant and sends that token each time |
| Rotation.RotatesAtMostOnce | key_lifecycle.go:38-58 | an id or an error matching ErrSuccessorUnknown means exactly one rotation, any other error at most one |
| Rotation.RotationChain | key_lifecycle.go:38-80 | rotating the returned successor again and again yields the ids that the server generates, in order, until a request fails |
| Rotation.ChainIdsDistinct | key_lifecycle.go:38-80 | those ids are pairwise distinct and were unused before |
| PropertyNames.CamelToSnake | oidc.go:195-208 | the builder loop computes the conversion |
| PropertyNames.SnakeLength | oidc.go:195-208 | the result is longer by one for each capital after the first character |
| PropertyNames.SnakeHasNoUpper | oidc.go:195-208 | the result of an ASCII name has no capital |
| PropertyNames.SnakeFixedPoint | oidc.go:182-191 | an ASCII name is unchanged exactly if it has no capital |
| PropertyNames.SnakeRoundTrip | oidc.go:195-208 | an explicit decoder undoes the conversion exactly for names without a leading capital and with no underscore before the end |
| PropertyNames.SnakeInjective | oidc.go:195-208 | two such names never share a snake form |
| PropertyNames.SnakeShares | oidc.go:195-208 | an ASCII name shares its snake form with another ASCII name exactly if it starts with a letter, or has later on a capital or an underscore followed by a lower-case letter; among names without a leading capital, exactly if the latter |
| PropertyNames.SnakeCollisions | oidc.go:195-208 | three pairs of names that collide, one by a leading capital, one by an underscore, one outside ASCII |
| PropertyNames.TokenPropertyCandidates | oidc.go:182-191 | one or two distinct names, the literal spelling first |
| PropertyNames.DefaultCandidates | oidc.go:182-191 | without a configured name, accessToken and access_token are looked for, in this order |
| PropertyNames.CandidatesKeptApart | oidc.go:182-208 | sources configured with different names of that class never look for the same property |
| PropertyNames.PickToken | oidc.go:153-160 | the first candidate that carries a non-empty string, or none |
| PropertyNames.LiteralSpellingWins | oidc.go:153-191 | the snake form is read only when the literal spelling carries nothing |

## Left out

- HTTP transport, JSON and URL encoding, contexts, logging: an answer is a transport failure, a body that does not decode, or a status with a decoded payload.
- A request that cannot be built (http.NewRequestWithContext, json.Marshal) is not distinguished from one that is lost in transport; it is counted as sent or posted.
- Error bodies: only the status class of an error matters here. The model assumes that an error body has no `status_code` member, which the struct tag at errors.go:61 would let overwrite the HTTP status.
- Fractional `expires_in` and overflow of time.Duration: lifetimes are whole clock units, and may be zero or negative.
- Connect, resolveAuthURL, TLS and options: set-up before concurrent calls start; a client is modelled from the source it was given, or none.
- Token sources supplied by other packages: the source is one of the three, or absent before Connect.
- Key, certificate, signature, async, import and export operations: single calls of do.
- The forward-only key lifecycle: the server enforces it.
- Lists that change while they are paged: the client claims no snapshot.
- unicode.IsUpper and unicode.ToLower outside ASCII: a parameter of the conversion; results that need them to be ASCII say so.
- Interference by other goroutines inside Client.Client.Do, Client.Client.FetchAllPages and Client.Client.RotateKey: those methods run alone; interleavings of do are the subject of Protocol.
