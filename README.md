# Garmin connection service — a Dafny model

This project models the core of a Spring Boot service that links a local ("Debi") user
to a Garmin Connect account and receives Garmin's push webhooks. What it covers:

- the OAuth 2.0 authorization-code exchange with PKCE, in `GarminService.exchangeCodeForToken`;
- the reconciliation that follows the exchange. Afterwards the user has exactly one
  CONNECTED token row, and every other row of that user is DISCONNECTED;
- the entities behind that flow (token rows and their composite key, OIDC state rows,
  daily summaries and their key), as Dafny classes whose setters change one field each;
- the repository queries, as functions over a table (a map from primary key to row). The
  bulk delete of stale OIDC states and JPA's save are methods that change the table;
- the in-memory webhook cache with its five-minute expiry;
- the small rules inside the two controllers: which user a request acts for, the step
  total and daily average (Java `int` arithmetic), the UTC query window, the
  deregistration fan-out, the optional shared-secret check, and the `last` projection.

The model uses these conventions:

- Java `null` is `Option.None`.
- Times are integers that the caller passes in as `now` (seconds, or milliseconds for
  the cache).
- The token endpoint, the user-id endpoint, Base64, the dailies fetch and
  `handleDeregistration` are function parameters.

Java library behaviour is written out in `java_lang.dfy` and `dates.dfy`. It covers:

- 32-bit wrap-around and truncating division;
- `Character.isWhitespace`/`isBlank`;
- `String.hashCode` over UTF-16 and `Objects.hash`;
- `Long.toString` with its inverse;
- `LocalDate.toEpochDay`/`hashCode`.

## Model

| member | source | states |
|---|---|---|
| TokensIds.GarminUserTokensId.Empty | src/main/java/io/fermion/az/health/garmin/entity/GarminUserTokensId.java:13-14 | the no-argument constructor leaves both key fields null |
| TokensIds.GarminUserTokensId.constructor | src/main/java/io/fermion/az/health/garmin/entity/GarminUserTokensId.java:16-19 | the two-argument constructor stores both fields |
| TokensIds.GarminUserTokensId.SetUserId | src/main/java/io/fermion/az/health/garmin/entity/GarminUserTokensId.java:25-27 | sets `userId` and nothing else |
| TokensIds.GarminUserTokensId.SetGarminUserId | src/main/java/io/fermion/az/health/garmin/entity/GarminUserTokensId.java:33-35 | sets `garminUserId` and nothing else |
| TokensIds.GarminUserTokensId.Key | src/main/java/io/fermion/az/health/garmin/entity/GarminUserTokensId.java:21-31 | the id is a complete key exactly when both fields are non-null, and the key holds them |
| TokensIds.GarminUserTokensId.Equals | src/main/java/io/fermion/az/health/garmin/entity/GarminUserTokensId.java:37-45 | equal iff the other operand is a `GarminUserTokensId` whose two fields are null-safely equal |
| TokensIds.GarminUserTokensId.HashCode | src/main/java/io/fermion/az/health/garmin/entity/GarminUserTokensId.java:47-50 | `Objects.hash(userId, garminUserId)` is a 32-bit value |
| TokensIds.EqualsReflexive | src/main/java/io/fermion/az/health/garmin/entity/GarminUserTokensId.java:37-45 | every id equals itself |
| TokensIds.EqualsSymmetric | src/main/java/io/fermion/az/health/garmin/entity/GarminUserTokensId.java:37-45 | equality is symmetric |
| TokensIds.EqualsTransitive | src/main/java/io/fermion/az/health/garmin/entity/GarminUserTokensId.java:37-45 | equality is transitive |
| TokensIds.EqualsRejectsNullAndOtherClasses | src/main/java/io/fermion/az/health/garmin/entity/GarminUserTokensId.java:41-42 | null and objects of other classes are never equal |
| TokensIds.EqualIdsHashEqually | src/main/java/io/fermion/az/health/garmin/entity/GarminUserTokensId.java:37-50 | equal ids have equal hash codes (the equals/hashCode contract) |
| TokensIds.EqualsIsKeyEquality | src/main/java/io/fermion/az/health/garmin/entity/GarminUserTokensId.java:37-45 | two ids are equal exactly when their key values are equal, so the table can be keyed by value |
| UserTokens.GarminUserTokens.constructor | src/main/java/io/fermion/az/health/garmin/entity/GarminUserTokens.java:10-35 | a new entity has every field null |
| UserTokens.GarminUserTokens.Load | src/main/java/io/fermion/az/health/garmin/entity/GarminUserTokens.java:12-35 | an entity loaded from a row can be saved and reads back as that row |
| UserTokens.GarminUserTokens.Row | src/main/java/io/fermion/az/health/garmin/entity/GarminUserTokens.java:12-35 | the row an entity persists as keeps its id and status (NOT NULL columns) |
| UserTokens.GarminUserTokens.SetId | src/main/java/io/fermion/az/health/garmin/entity/GarminUserTokens.java:45-47 | sets the id and nothing else |
| UserTokens.GarminUserTokens.SetAccessToken | src/main/java/io/fermion/az/health/garmin/entity/GarminUserTokens.java:53-55 | sets the access token and nothing else |
| UserTokens.GarminUserTokens.SetAccessTokenExpiry | src/main/java/io/fermion/az/health/garmin/entity/GarminUserTokens.java:61-63 | sets the access-token expiry and nothing else |
| UserTokens.GarminUserTokens.SetRefreshToken | src/main/java/io/fermion/az/health/garmin/entity/GarminUserTokens.java:69-71 | sets the refresh token and nothing else |
| UserTokens.GarminUserTokens.SetRefreshTokenExpiry | src/main/java/io/fermion/az/health/garmin/entity/GarminUserTokens.java:77-79 | sets the refresh-token expiry and nothing else |
| UserTokens.GarminUserTokens.SetCreatedAt | src/main/java/io/fermion/az/health/garmin/entity/GarminUserTokens.java:85-87 | sets the creation time and nothing else |
| UserTokens.GarminUserTokens.SetLastModifiedAt | src/main/java/io/fermion/az/health/garmin/entity/GarminUserTokens.java:93-95 | sets the modification time and nothing else |
| UserTokens.GarminUserTokens.SetConnectStatus | src/main/java/io/fermion/az/health/garmin/entity/GarminUserTokens.java:101-103 | sets the status and nothing else |
| TokensRepository.FindAllByUserId | src/main/java/io/fermion/az/health/garmin/repo/GarminUserTokensRepository.java:12-13 | returns exactly the rows whose key has that user id |
| TokensRepository.ConnectedRows | src/main/java/io/fermion/az/health/garmin/repo/GarminUserTokensRepository.java:15-16 | the rows that the CONNECTED query selects, characterised both ways |
| TokensRepository.HasConnectedAccount | src/main/java/io/fermion/az/health/garmin/repo/GarminUserTokensRepository.java:21-22 | true iff the user has some CONNECTED row |
| TokensRepository.Single | src/main/java/io/fermion/az/health/garmin/repo/GarminUserTokensRepository.java:15-19 | a single-result query yields null for no row, the row for one, and a non-unique error for more |
| TokensRepository.FindConnectedByUserId | src/main/java/io/fermion/az/health/garmin/repo/GarminUserTokensRepository.java:15-16 | any row it returns is a CONNECTED row of the user; it returns null iff the user has no CONNECTED row |
| TokensRepository.FindUserByGarminUserId | src/main/java/io/fermion/az/health/garmin/repo/GarminUserTokensRepository.java:18-19 | any row it returns has that Garmin id; null iff no row has it |
| TokensRepository.FindConnectedAgreesWithHasConnected | src/main/java/io/fermion/az/health/garmin/repo/GarminUserTokensRepository.java:15-22 | while each user has at most one CONNECTED row, the lookup never fails and agrees with the existence query |
| TokensRepository.FindUserByGarminUserIdCanBeNonUnique | src/main/java/io/fermion/az/health/garmin/repo/GarminUserTokensRepository.java:18-19 | one Garmin account linked to two local users makes the single-result lookup fail |
| TokensRepository.TokensTable.Save | src/main/java/io/fermion/az/health/garmin/repo/GarminUserTokensRepository.java:11 | `save` upserts the entity's row under its key, returns it and keeps the table keyed |
| OidcStates.OidcState.Empty | src/main/java/io/fermion/az/health/garmin/entity/OidcState.java:25 | the default constructor leaves every field null |
| OidcStates.OidcState.constructor | src/main/java/io/fermion/az/health/garmin/entity/OidcState.java:28-33 | the all-arguments constructor stores its arguments |
| OidcStates.OidcState.SetState | src/main/java/io/fermion/az/health/garmin/entity/OidcState.java:12-13 | the generated setter changes only `state` |
| OidcStates.OidcState.SetCodeVerifier | src/main/java/io/fermion/az/health/garmin/entity/OidcState.java:15-16 | the generated setter changes only `codeVerifier` |
| OidcStates.OidcState.SetUserId | src/main/java/io/fermion/az/health/garmin/entity/OidcState.java:18-19 | the generated setter changes only `userId` |
| OidcStates.OidcState.SetCreatedAt | src/main/java/io/fermion/az/health/garmin/entity/OidcState.java:21-22 | the generated setter changes only `createdAt` |
| OidcStates.OidcState.Row | src/main/java/io/fermion/az/health/garmin/entity/OidcState.java:12-22 | a persisted state fits its columns (verifier at most 512 characters) under its id and carries the entity's verifier, user id and creation time |
| OidcStateRepository.Purged | src/main/java/io/fermion/az/health/garmin/repo/OidcStateRepo.java:14-15 | the table after the delete keeps exactly the rows created at or after the threshold, unchanged |
| OidcStateRepository.Deleted | src/main/java/io/fermion/az/health/garmin/repo/OidcStateRepo.java:14-15 | the delete removes exactly the rows created strictly before the threshold |
| OidcStateRepository.PurgeRemovesExactlyOlderRows | src/main/java/io/fermion/az/health/garmin/repo/OidcStateRepo.java:14-15 | kept and deleted rows partition the table; every kept row is recent enough |
| OidcStateRepository.PurgeIdempotent | src/main/java/io/fermion/az/health/garmin/repo/OidcStateRepo.java:14-15 | deleting twice with the same threshold equals deleting once |
| OidcStateRepository.PurgeMonotone | src/main/java/io/fermion/az/health/garmin/repo/OidcStateRepo.java:14-15 | a later threshold deletes at least as much |
| OidcStateRepository.PurgeAbsorbs | src/main/java/io/fermion/az/health/garmin/repo/OidcStateRepo.java:14-15 | an earlier delete followed by a later one equals the later one alone |
| OidcStateRepository.PurgeKeepsWellFormed | src/main/java/io/fermion/az/health/garmin/repo/OidcStateRepo.java:14-15 | the delete keeps the table keyed by state with rows fitting their columns |
| OidcStateRepository.OidcStateTable.FindById | src/main/java/io/fermion/az/health/garmin/repo/OidcStateRepo.java:11 | `findById` finds a row iff the state is a key, and then it is the stored row |
| OidcStateRepository.OidcStateTable.Save | src/main/java/io/fermion/az/health/garmin/repo/OidcStateRepo.java:11 | `save` stores a complete state under its id, so `findById` then returns that row and every other lookup is unchanged; a state with a null NOT NULL column is refused |
| OidcStateRepository.OidcStateTable.DeleteOlderThan | src/main/java/io/fermion/az/health/garmin/repo/OidcStateRepo.java:12-15 | the table afterwards is the purged table |
| Cache.AfterPut | src/main/java/io/fermion/az/health/garmin/WebhookCache.java:16-18 | `put` replaces the key's entry with a fresh timestamped one and leaves the others alone |
| Cache.AfterGet | src/main/java/io/fermion/az/health/garmin/WebhookCache.java:20-27 | `get` returns the value iff present and not expired; otherwise it returns null and removes the key |
| Cache.Cleaned | src/main/java/io/fermion/az/health/garmin/WebhookCache.java:29-31 | `cleanup` keeps exactly the unexpired entries |
| Cache.GetWithinExpiryReturnsLastPut | src/main/java/io/fermion/az/health/garmin/WebhookCache.java:16-27 | a get within five minutes of a put returns the value put |
| Cache.GetAfterExpiryEvicts | src/main/java/io/fermion/az/health/garmin/WebhookCache.java:20-27 | a get more than five minutes after the put returns null and evicts the entry |
| Cache.PutOverwrites | src/main/java/io/fermion/az/health/garmin/WebhookCache.java:16-18 | the second of two puts to a key wins |
| Cache.CleanupInvisibleToGet | src/main/java/io/fermion/az/health/garmin/WebhookCache.java:20-31 | cleaning first never changes what `get` returns |
| Cache.CleanupIdempotent | src/main/java/io/fermion/az/health/garmin/WebhookCache.java:29-31 | cleaning twice at the same time equals cleaning once |
| Cache.ExpiryIsPermanent | src/main/java/io/fermion/az/health/garmin/WebhookCache.java:38-40 | an expired entry stays expired |
| Cache.WebhookCache.constructor | src/main/java/io/fermion/az/health/garmin/WebhookCache.java:14 | the cache starts empty |
| Cache.WebhookCache.Put | src/main/java/io/fermion/az/health/garmin/WebhookCache.java:16-18 | the cache afterwards is `AfterPut` of the cache before |
| Cache.WebhookCache.Get | src/main/java/io/fermion/az/health/garmin/WebhookCache.java:20-27 | the result and the new cache are those of `AfterGet` |
| Cache.WebhookCache.Cleanup | src/main/java/io/fermion/az/health/garmin/WebhookCache.java:29-31 | the cache afterwards is `Cleaned` of the cache before |
| DailiesSummaryIds.GarminDailiesSummaryId.Empty | src/main/java/io/fermion/az/health/garmin/entity/GarminDailiesSummaryId.java:21-22 | the default constructor leaves the three fields null |
| DailiesSummaryIds.GarminDailiesSummaryId.constructor | src/main/java/io/fermion/az/health/garmin/entity/GarminDailiesSummaryId.java:24-28 | the three-argument constructor stores its arguments |
| DailiesSummaryIds.GarminDailiesSummaryId.SetUserId | src/main/java/io/fermion/az/health/garmin/entity/GarminDailiesSummaryId.java:34-36 | sets `userId` only |
| DailiesSummaryIds.GarminDailiesSummaryId.SetGarminUserId | src/main/java/io/fermion/az/health/garmin/entity/GarminDailiesSummaryId.java:42-44 | sets `garminUserId` only |
| DailiesSummaryIds.GarminDailiesSummaryId.SetCalendarDate | src/main/java/io/fermion/az/health/garmin/entity/GarminDailiesSummaryId.java:50-52 | sets `calendarDate` only |
| DailiesSummaryIds.GarminDailiesSummaryId.Key | src/main/java/io/fermion/az/health/garmin/entity/GarminDailiesSummaryId.java:30-48 | a complete key exactly when all three fields are non-null |
| DailiesSummaryIds.GarminDailiesSummaryId.Equals | src/main/java/io/fermion/az/health/garmin/entity/GarminDailiesSummaryId.java:54-64 | equal iff the operand is the same class and all three fields are null-safely equal |
| DailiesSummaryIds.GarminDailiesSummaryId.HashCode | src/main/java/io/fermion/az/health/garmin/entity/GarminDailiesSummaryId.java:66-69 | `Objects.hash` of the three fields is a 32-bit value |
| DailiesSummaryIds.EqualsReflexive | src/main/java/io/fermion/az/health/garmin/entity/GarminDailiesSummaryId.java:54-64 | every key equals itself |
| DailiesSummaryIds.EqualsSymmetric | src/main/java/io/fermion/az/health/garmin/entity/GarminDailiesSummaryId.java:54-64 | equality is symmetric |
| DailiesSummaryIds.EqualsRejectsNullAndOtherClasses | src/main/java/io/fermion/az/health/garmin/entity/GarminDailiesSummaryId.java:58-59 | null and other classes are never equal |
| DailiesSummaryIds.EqualKeysHashEqually | src/main/java/io/fermion/az/health/garmin/entity/GarminDailiesSummaryId.java:54-69 | equal keys have equal hash codes |
| DailiesSummaryIds.EqualsIsKeyEquality | src/main/java/io/fermion/az/health/garmin/entity/GarminDailiesSummaryId.java:54-64 | equality is equality of the key values |
| DailiesSummaries.GarminUserDailiesSummary.constructor | src/main/java/io/fermion/az/health/garmin/entity/GarminUserDailiesSummary.java:17-134 | a new record has its counters and durations at 0 and every other field null |
| DailiesSummaries.GarminUserDailiesSummary.SetId | src/main/java/io/fermion/az/health/garmin/entity/GarminUserDailiesSummary.java:18-19 | the generated setter changes only the id |
| DailiesSummaries.GarminUserDailiesSummary.SetSteps | src/main/java/io/fermion/az/health/garmin/entity/GarminUserDailiesSummary.java:34-35 | the generated setter changes only the steps |
| DailiesSummaries.GarminUserDailiesSummary.OnCreate | src/main/java/io/fermion/az/health/garmin/entity/GarminUserDailiesSummary.java:143-147 | before insert both timestamps become now |
| DailiesSummaries.GarminUserDailiesSummary.OnUpdate | src/main/java/io/fermion/az/health/garmin/entity/GarminUserDailiesSummary.java:149-152 | before update only the modification time moves |
| DailiesSummaries.CreateThenUpdate | src/main/java/io/fermion/az/health/garmin/entity/GarminUserDailiesSummary.java:143-152 | insert then update keeps the creation time, moves the modification time, and keeps the defaults |
| DailiesSummaryRepository.LatestExists | src/main/java/io/fermion/az/health/garmin/repo/GarminDailiesSummaryRepo.java:16-17 | every non-empty set of keys has a latest date, so ORDER BY DESC is defined |
| DailiesSummaryRepository.OrderByDateDesc | src/main/java/io/fermion/az/health/garmin/repo/GarminDailiesSummaryRepo.java:16-17 | the ordering lists every key exactly once, newest date first |
| DailiesSummaryRepository.FindByUserIdOrderByDateDesc | src/main/java/io/fermion/az/health/garmin/repo/GarminDailiesSummaryRepo.java:16-17 | exactly the user's rows, each once, newest first |
| DailiesSummaryRepository.FindByUserIdAndDateRange | src/main/java/io/fermion/az/health/garmin/repo/GarminDailiesSummaryRepo.java:19-22 | exactly the user's rows with a date in the inclusive range, each once, newest first |
| DailiesSummaryRepository.RangeWithinUserRows | src/main/java/io/fermion/az/health/garmin/repo/GarminDailiesSummaryRepo.java:16-22 | the range query returns a subset of the per-user query |
| DailiesSummaryRepository.EmptyRangeWhenStartAfterEnd | src/main/java/io/fermion/az/health/garmin/repo/GarminDailiesSummaryRepo.java:19-22 | a start after the end gives an empty result (BETWEEN is not reordered) |
| DailiesSummaryRepository.SingleDayRange | src/main/java/io/fermion/az/health/garmin/repo/GarminDailiesSummaryRepo.java:19-22 | a range from a day to itself selects exactly that day's rows |
| Service.BuildTokenRequest | src/main/java/io/fermion/az/health/garmin/service/GarminService.java:8-17 | the POST goes to the token URL as a form, with Basic client credentials and the authorization-code body |
| Service.TokenRequestBodyFields | src/main/java/io/fermion/az/health/garmin/service/GarminService.java:13-15 | when no value contains `&`, the body splits into the five fields grant_type, code, state, code_verifier and redirect_uri, in order |
| Service.RemoteExchange | src/main/java/io/fermion/az/health/garmin/service/GarminService.java:22-81 | it succeeds iff the token call answers 200 with a body and the user-id lookup answers; the grant holds those tokens and the Garmin id the lookup returned; every failure is a "Token exchange failed" error |
| Service.Exchange | src/main/java/io/fermion/az/health/garmin/service/GarminService.java:1-82 | an unknown state fails with "Invalid state" and changes nothing; for a known state the call succeeds iff the remote exchange does, and a remote failure is returned as is with the table unchanged; a success returns the state's user's CONNECTED row for the Garmin id the lookup returned, with the new tokens, and the table is the reconciled one |
| Service.ReconcileKeepsWellKeyed | src/main/java/io/fermion/az/health/garmin/service/GarminService.java:32-73 | reconciliation keeps every row under its own key |
| Service.ReconcileTouchesOnlyTheUser | src/main/java/io/fermion/az/health/garmin/service/GarminService.java:32-73 | other users' rows are unchanged; the table gains at most the account's row |
| Service.ReconcileConnectsTheAccount | src/main/java/io/fermion/az/health/garmin/service/GarminService.java:37-71 | the account's row has the new tokens and expiries, modified now and CONNECTED; its creation time is kept if it existed, else now |
| Service.ReconcileDisconnectsTheRest | src/main/java/io/fermion/az/health/garmin/service/GarminService.java:48-53 | the user's other rows become DISCONNECTED, modified now, tokens kept |
| Service.ReconcileLeavesOneConnected | src/main/java/io/fermion/az/health/garmin/service/GarminService.java:32-73 | afterwards the user's CONNECTED rows are exactly the account's row |
| Service.ReconcilePreservesAtMostOneConnected | src/main/java/io/fermion/az/health/garmin/service/GarminService.java:32-73 | "at most one CONNECTED row per user" survives every exchange |
| Service.ExchangeLeavesOneConnected | src/main/java/io/fermion/az/health/garmin/service/GarminService.java:1-82 | after a successful exchange the returned row is the user's only CONNECTED row |
| Service.ReconnectUnderAnotherAccount | src/main/java/io/fermion/az/health/garmin/service/GarminService.java:32-73 | connecting G1 and then G2 leaves the user two rows, G1 DISCONNECTED and G2 CONNECTED |
| Service.ExchangeCodeForToken | src/main/java/io/fermion/az/health/garmin/service/GarminService.java:1-82 | the method's result and new table are exactly those of `Exchange`, and the table stays keyed |
| Service.SaveConnection | src/main/java/io/fermion/az/health/garmin/service/GarminService.java:32-73 | the loop and the final save leave the table equal to `Reconcile` and return the account's row |
| Service.ConnectedEntity | src/main/java/io/fermion/az/health/garmin/service/GarminService.java:38-47 | the matching entity after its six setters persists as `Connect` of its row |
| Service.DisconnectAndSave | src/main/java/io/fermion/az/health/garmin/service/GarminService.java:48-53 | another account's entity is saved as `Disconnect` of its row |
| Service.NewTokensEntity | src/main/java/io/fermion/az/health/garmin/service/GarminService.java:56-71 | the entity built for a new account persists as `NewConnection` |
| Controller.PreferredUserId | src/main/java/io/fermion/az/health/garmin/controller/GarminController.java:353-364 | a non-empty test id wins, otherwise the authenticated id is used; there is no id (the step handler's 401) exactly when the test id is null or empty and the authenticated id is null |
| Controller.ResolveAuthorizeUserId | src/main/java/io/fermion/az/health/garmin/controller/GarminController.java:38-53 | the preferred id, or else `fallback-user-` followed by the clock reading |
| Controller.AuthorizeAndStepsAgree | src/main/java/io/fermion/az/health/garmin/controller/GarminController.java:41-53 | both handlers pick the same user whenever the step handler accepts; otherwise the fallback id parses back to the clock reading |
| Controller.TestUserIdPrecedence | src/main/java/io/fermion/az/health/garmin/controller/GarminController.java:41-48 | an empty test id counts as absent; a non-empty one makes the principal irrelevant |
| Controller.RequestScopedUserId | src/main/java/io/fermion/az/health/common/config/UserTokenImpl.java:14-16 | the request-scoped principal returns its stored id, or else `test-user-` followed by the clock reading, which parses back |
| Controller.RequestScopedPrincipalAlwaysResolves | src/main/java/io/fermion/az/health/garmin/controller/GarminController.java:45-52 | with that principal an id is always found, so the fallback id (and the step handler's 401) cannot occur |
| Controller.DayOrToday | src/main/java/io/fermion/az/health/garmin/controller/GarminController.java:367-369 | an absent date parameter means today |
| Controller.WindowCoversWholeDays | src/main/java/io/fermion/az/health/garmin/controller/GarminController.java:371-372 | a second is in the window iff its UTC day lies between the start and end dates |
| Controller.SingleDayWindow | src/main/java/io/fermion/az/health/garmin/controller/GarminController.java:371-372 | a one-day window spans 86399 seconds |
| Controller.EntryOf | src/main/java/io/fermion/az/health/garmin/controller/GarminController.java:390-398 | a data entry carries the date and the steps, and copies a present goal and calorie count; missing ones become 0 |
| Controller.AggregateSteps | src/main/java/io/fermion/az/health/garmin/controller/GarminController.java:386-399 | the loop finishes iff every summary has a date; the total is the 32-bit wrapped sum; there is one entry per summary, in order |
| Controller.AverageDailySteps | src/main/java/io/fermion/az/health/garmin/controller/GarminController.java:405 | the average is the quotient truncated toward zero, within one count of the total from below for a non-negative total and from above for a wrapped negative one; 0 for no summaries |
| Controller.SumStepsAppend | src/main/java/io/fermion/az/health/garmin/controller/GarminController.java:386-391 | the total is additive over concatenation |
| Controller.NullStepsAddNothing | src/main/java/io/fermion/az/health/garmin/controller/GarminController.java:390-391 | a summary without steps adds nothing |
| Controller.TotalDoesNotWrapWhenSmall | src/main/java/io/fermion/az/health/garmin/controller/GarminController.java:386-391 | with non-negative counts whose sum fits an int, the reported total is the true sum |
| Controller.SumStepsNonNegative | src/main/java/io/fermion/az/health/garmin/controller/GarminController.java:386-391 | non-negative counts give a non-negative total |
| Controller.UniformDaysTotal | src/main/java/io/fermion/az/health/garmin/controller/GarminController.java:386-391 | n days of k steps total n times k |
| Controller.UniformDaysAverage | src/main/java/io/fermion/az/health/garmin/controller/GarminController.java:386-405 | n days of k steps, with n times k fitting an int, give a reported total of n times k and an average of k |
| Controller.StepsResponseFor | src/main/java/io/fermion/az/health/garmin/controller/GarminController.java:374-412 | a thrown fetch is a 500 with its message; null or empty data is the "no step data" answer; an undated summary is a 500 with "null"; otherwise the wrapped total, its truncated average and one entry per summary, in order |
| Controller.GetStepData | src/main/java/io/fermion/az/health/garmin/controller/GarminController.java:345-414 | without a user id the answer is 401 and nothing is fetched; otherwise it fetches the whole-day window and answers `StepsResponseFor` |
| Controller.FanOut | src/main/java/io/fermion/az/health/garmin/controller/GarminController.java:246-252 | the deregistration loop makes at most one call per entry |
| Controller.FanOutHandlesEachIdInOrder | src/main/java/io/fermion/az/health/garmin/controller/GarminController.java:246-252 | with no null entries and no failing call, every non-null user id is handled once, in order |
| Controller.FanOutCallsComeFromEntries | src/main/java/io/fermion/az/health/garmin/controller/GarminController.java:246-252 | every handled id is the user id of some entry |
| Controller.HandleDeregistrationNotification | src/main/java/io/fermion/az/health/garmin/controller/GarminController.java:237-258 | a missing or empty list answers 200 with no calls; otherwise it makes the fan-out's calls and answers 200, or 500 if cut short |
| WebhookController.IsAuthorized | src/main/java/io/fermion/az/health/garmin/controller/GarminWebhookController.java:30-33 | a null or blank secret admits everything; otherwise the header must equal the secret |
| WebhookController.SecretCheck | src/main/java/io/fermion/az/health/garmin/controller/GarminWebhookController.java:30-33 | with a secret, a missing or different header is refused; without one, any header passes |
| WebhookController.HandleDailies | src/main/java/io/fermion/az/health/garmin/controller/GarminWebhookController.java:47-52 | the dailies handler always answers 200 with an empty body |
| WebhookController.HandleActivities | src/main/java/io/fermion/az/health/garmin/controller/GarminWebhookController.java:55-68 | "bad secret" 401 before the payload is read; an empty or null payload is a 200 "ok" |
| WebhookController.HandleRegistration | src/main/java/io/fermion/az/health/garmin/controller/GarminWebhookController.java:71-83 | the same two rules for registrations |
| WebhookController.HandleRoot | src/main/java/io/fermion/az/health/garmin/controller/GarminWebhookController.java:86-94 | 401 "bad secret" when unauthorized, 200 "ok" otherwise |
| WebhookController.HandlersIgnorePayload | src/main/java/io/fermion/az/health/garmin/controller/GarminWebhookController.java:55-94 | the three secret-checked handlers answer on the secret alone: 200 "ok" when authorized, 401 "bad secret" otherwise |
| WebhookController.Last | src/main/java/io/fermion/az/health/garmin/controller/GarminWebhookController.java:104-120 | a cache miss gives "no data"; a hit returns the cached payload as `raw` |
| WebhookController.LastProjection | src/main/java/io/fermion/az/health/garmin/controller/GarminWebhookController.java:105-119 | a miss is success=false with "No data yet"; a hit is success=true with seven fields, the heart rates renamed to avgHr and restHr |

## Left out

- Remote calls: the token endpoint POST, `fetchUserId`, `fetchDailiesData` and
  `handleDeregistration` are function parameters. Their bodies are not part of this model.
- Base64: the encoding of the Basic credentials is a function parameter.
- Clock: every `LocalDateTime.now()`, `Instant.now()` and `System.currentTimeMillis()`
  is an explicit argument. Java reads the clock again at each call, so the six readings in
  one token update may differ by a few nanoseconds. The model uses one instant for all of them.
- Controller.GetStepData: `java.time.LocalDate.now()` is read once for each missing date, in
  the JVM's default time zone. The model takes one `today` argument for both defaults, so
  a request that spans midnight, where the two readings differ, is not represented.
- Concurrency and transactions: `ConcurrentHashMap` thread safety, the `@Transactional`
  rollback and the race between concurrent exchanges are not modelled. Everything is sequential.
- Entity aliasing: `GarminUserTokens` holds its id by value (`Option<TokenKey>`). A later
  change to a `GarminUserTokensId` object already handed to an entity is not reflected.
- Service.RemoteExchange: RestTemplate's own exceptions for 4xx/5xx answers appear only as
  a thrown message. Which statuses throw rather than return is up to the caller-supplied call.
- Service.Exchange: a `TokenResponse` whose tokens are null would violate the NOT NULL
  columns. The model types the tokens as strings, so that path is not represented.
- Floating point: `distanceInMeters` and `pushDistanceInMeters` (the entity, the DTO and
  the step-data map) are not modelled.
- Controller.GetStepData: date parameters arrive already parsed. `LocalDate.parse` and its
  exception, and the `dateRange` text, are not modelled.
- Controller.StepsResponseFor: the response maps' JSON shape is represented by a datatype,
  not by string-keyed maps.
- WebhookController.Last: `Map.of` throws on a null value, so a payload missing a
  summary field answers 500 in Java. The model returns the projection with `None` there.
- Logging: all log statements, including `logCompact`, are left out.
- The webhook cache that `GarminWebhookController` imports lives in a package that is not
  part of this model. It is reached through a get-or-null function.
- GarminUserDailiesSummary: Lombok's other getters and setters behave like `SetId` and
  `SetSteps` and are not written out one by one.
- GarminDailiesSummaryRepo is declared with a `Long` id although the entity's key is
  composite. The model keys the table by the composite key.
- Cache: the timestamps are unbounded integers, so `long` overflow in `now - timestamp` is
  not modelled.
- Deferred to other components: the DTO classes, `HealthController`, the application
  class and `GarminApiException` hold no behaviour beyond the values modelled here.
- The controllers take the principal's id as an arbitrary optional value. Which object
  Spring passes as `UserToken` is not modelled. If it is the request-scoped
  `UserTokenImpl`, its id is never null (`RequestScopedUserId`). Then the fallback id and
  the 401 answer are unreachable (`RequestScopedPrincipalAlwaysResolves`).
- Service.RemoteExchange: the user-id lookup is assumed to return a non-null id. In Java a
  null id matches none of the user's rows, so all of them are disconnected, and then a row
  keyed by (user, null) is saved. Whether the database accepts it is not modelled.
- Controller.StepsResponseFor: a null element in the fetched array makes
  `summary.getSteps()` throw, which is a 500. The model's summaries are never null.
- Cache: `ConcurrentHashMap` rejects a null key, so `put` and `get` throw on one. The
  model's keys are never null.
- OidcStateRepository.OidcStateTable.Save: where JPA throws on a null NOT NULL column, the
  model returns `false` and leaves the table unchanged.
- Not in this code at all: PKCE verifier and challenge generation, state expiry checks at
  lookup, single use of the state, token refresh, webhook persistence
  (`processDailiesPush`) and webhook registration.
