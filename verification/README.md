# avuru-obs: a verified model of its stateful core

This project models, in Dafny, the parts of avuru-obs that keep state over long
runs or in which several functions must agree, and proves what they promise.
`dafny verify dfyconfig.toml` checks all of it.

Time is an integer number of nanoseconds, floats are reals, the ClickHouse store
is a set of maps, and Go's map iteration is an arbitrary order. Where handlers
interleave, each is a small program whose store operations and critical sections
are the steps of a state machine; the same handlers also appear as methods that
update fields in place, and are tied to the machine or to a specification
function. Library calls (JSON, gzip, base64, HMAC, SHA-256, trimming, sorting)
are function-valued parameters known by their laws.

| files | component |
|---|---|
| OAuthStore, OAuthProtocol | tables and the interleaving protocol: code exchange, rotation, revocation, consent, access checks, touches |
| OAuthSafety, OAuthHistory | results over every run: single redemption, revocation, what an accepted check has seen |
| OAuthIssuance, OAuthConsent, OAuthOutcomes | what a request that issues tokens has shown, back to the consent it redeems; what good requests get and what revocations and replays leave |
| OAuthSerial, OAuthRoom, OAuthRaces | one live pair per grant: a discipline that gives it, the exact condition, and concrete runs without it |
| OAuthServer | the handlers in place, each call a logged run of the protocol |
| Alerting, RuleValidation, HealthTargets, Budgets, UsageCache | one evaluation: health rules, targets of a report, AI budgets, usage |
| AlertTick, AlertRuns | the tick from load to save, and results over every run of ticks |
| AlertReports, BudgetAlerts | the same told on health reports, and on budgets and usage |
| LogPages, LogPaging, LogTokens | composed log search and its resolution token; what a token proves and what page one reads |
| RateLimiter | the three-axis login limiter |
| IngestAuth, TenantProcessor | the ingest-key verdict cache and the tenant stamp |
| Roles, Projects, ProjectRules, ProjectAdmin, ProjectRaces, ProjectTenants, ProjectMemo | roles, project edits, what they accept and store, and their interleavings; tenant expansion, the project memo |
| GroupMapping, MappingCache | OIDC group mapping and its snapshot |
| Envelope | Sentry envelope framing, with a printer |
| PowerModel, Sampler, EnergyRuns, PodReports | the power estimator's loop |
| GreenRows, GreenFold | the energy report and its fold |

## Where the code falls short of its promise

Each of these has the exact condition under which the promise holds, and a
concrete run or input on which it fails; the code is modelled as it is.

- One live pair per grant holds exactly while every token row is stored or
  touched into a free place (OAuthRoom). Two refreshes of one token that overlap
  break it, and so does a last-used touch that lands after a rotation (OAuthRaces).
- A comment on the refresh token's lifetime says that presenting a rotated token
  revokes the family. The handler only ever refuses it (OAuthHistory), and the
  second pair lives on (OAuthRaces).
- Revoking a grant is scoped to the caller's own consents, as its comment says,
  but the tokens go before the owner is checked: a stranger's call is refused
  without effect exactly when the grant has no live token (OAuthHistory, and a run
  in OAuthRaces).
- Notifications alternate exactly while no tick that finds a key firing drops its
  rule or budget (AlertRuns).
- A payload admitted in enforce mode is stamped exactly when the hub named a
  project with the key; one affirmed without a project goes through unstamped
  (TenantProcessor).
- Under overlapping project edits membership stays one level deep exactly while
  the member check, repeated at the moment of each save, would let its row
  through. Two overlapping updates break it, and so does a rename that saves a
  member list read earlier (ProjectRaces).
- The enforced group mapping is the newest exactly when no reload came since the
  last swap's refresh loaded its config (MappingCache).
- The envelope parser crashes exactly on a declared length that is negative or
  too large to allocate (Envelope).
- A pod is charged for all its CPU time exactly when none was read at a tick
  without utilization (EnergyRuns), and a pod is reported exactly when no
  namesake exited by the same tick (PodReports).

## Model

| member | source | states |
|---|---|---|
| OAuthSafety.SingleRedemption | hub/internal/api/oauth_token.go:66-98 | Over every interleaving of requests, two requests that entered issuePair for the same authorization code are the same request, even if the consumed flag is never stored. |
| OAuthSafety.OneRedeemer | hub/internal/api/oauth_flow.go:314-328 | Single use follows from the claim map alone: two redeemers would hold claims made within one code lifetime, and claims on one code are always more than two lifetimes apart. |
| OAuthSafety.RowsCarryTheirGrant | hub/internal/api/oauth_token.go:140-176 | In every reachable state each code and each token carries exactly its grant's client, user, resource, scope and project, however long the chain of exchanges and refreshes. |
| OAuthSafety.ReplayDetected | hub/internal/api/oauth_token.go:66-74 | A presentation is treated as a replay if and only if the row it read was consumed or a claim at most two code lifetimes old exists. |
| OAuthSafety.SecondPresentationIsReplay | hub/internal/api/oauth_flow.go:314-328 | Any presentation of a code within two code lifetimes of another request's claim goes down the replay branch, whatever the stored flag says. |
| OAuthSafety.ReplayRevokes | hub/internal/api/oauth_token.go:70-74 | The replay branch's grant revocation always finds its grant: the code names the grant's own user. |
| OAuthSafety.RevocationIsFinal | hub/internal/storage/clickhouse/oauth.go:161-177 | No store write turns a revoked grant back. |
| OAuthSafety.RevokedGrantNeverAccepts | hub/internal/auth/oauthtoken.go:66-110 | Once a grant is revoked, on every later run no access check that had not yet read it accepts one of its tokens, including tokens minted afterwards and tokens a last-used touch revived. |
| OAuthSafety.ReplayKillsGrantForGood | hub/internal/api/oauth_token.go:70-74 | End to end: after a detected replay has revoked the grant, no access check that starts later ever accepts a token of that grant, on any continuation. |
| OAuthHistory.AcceptanceMeans | hub/internal/auth/oauthtoken.go:66-110 | An accepted access check has, at three moments of its run and in this order, found its token stored, live, an access token and unexpired; the token's grant live; and the token's user enabled. |
| OAuthOutcomes.GoodTokenIsAccepted | hub/internal/auth/oauthtoken.go:66-110 | Conversely, a check whose three steps reach the store and find token, grant and user good is accepted, whatever runs in between. |
| OAuthIssuance.CodeIsProved | hub/internal/api/oauth_token.go:66-98 | Over every run: a request that issues tokens for a code has, at three moments in this order, read the code's row; shown the row's client, redirect and resource and a verifier of 43 to 128 characters that hashes to its challenge, before the row expired; and met the row unconsumed, leaving it consumed unless that write was lost. |
| OAuthConsent.RedeemsOneConsent | hub/internal/api/oauth_token.go:75-98 | End to end from the empty hub: that request redeems one person's consent. The consent was to its client and its redirect, its verifier hashes to the consent's challenge, its proof came at most a minute after the consent, and its grant and scope are the consent's. |
| OAuthIssuance.RefreshIsProved | hub/internal/api/oauth_token.go:110-137 | A request that issues tokens for a refresh token has read it live, shown that it is an unexpired refresh token of its own client, and then left its grant without a live token. |
| OAuthIssuance.ServedPairIsStored | hub/internal/api/oauth_token.go:140-176 | A served request has stored, under unused hashes, an access token that lives 15 minutes, having earned it by then, and for an offline scope a refresh token that lives 30 days from the same moment. |
| OAuthOutcomes.GoodExchangeIsServed | hub/internal/api/oauth_token.go:57-98 | Conversely, an exchange that reads an unconsumed code, finds no claim on it of the last two minutes, proves it and meets it still unconsumed gets its access token, whatever runs in between. |
| OAuthOutcomes.RefreshStepStores | hub/internal/api/oauth_token.go:159-176 | For an offline scope its next step stores the refresh token, which lives 30 days from the access token's issue, and it is served. |
| OAuthOutcomes.GoodRefreshIsServed | hub/internal/api/oauth_token.go:110-138 | So does a refresh that reads its token live and proves it, after its family is gone. |
| OAuthOutcomes.ReplayEndsFamily | hub/internal/api/oauth_token.go:66-74 | A presentation that reads a consumed code, or finds a claim on it of the last two minutes, is refused, ends every token of the grant and then the grant. |
| OAuthOutcomes.ConsumedForGood | hub/internal/api/oauth_token.go:66-74 | A code once stored as consumed reads as consumed ever after, so every later presentation is such a replay. |
| OAuthOutcomes.RevokedTokenTakesFamily | hub/internal/api/oauth_token.go:181-199 | A client's revocation whose first step meets a live token and whose two steps reach the store leaves no token of that grant alive, and its second step changes the tables if and only if one still was. |
| OAuthOutcomes.UnknownTokenRevokesNothing | hub/internal/api/oauth_token.go:181-199 | One that meets no live token succeeds, changes nothing, and takes no further step. |
| OAuthOutcomes.OwnRevokeEndsGrant | hub/internal/api/oauth_grants.go:55-75 | A person's own revocation of a live grant succeeds and ends the grant and all its tokens. |
| OAuthHistory.RotatedTokenIsOnlyRefused | hub/internal/api/oauth_token.go:110-117 | On every run, a refresh whose first step meets a revoked token ends refused, and from its arrival to the end of the run no event of it changes any table; so the family is not revoked, unlike what the comment on RefreshTokenTTL says. |
| OAuthRaces.RotatedTokenSparesFamily | hub/internal/api/oauth_token.go:110-117 | A run from the empty hub, one token request at a time: a pair is issued and rotated, the old refresh token is presented again and refused, and the second pair is alive at the end. |
| OAuthRoom.OneLivePairIffRoomy | hub/internal/api/oauth_token.go:100-176 | On every run, no grant ever has two live tokens of one kind if and only if every event finds room: an access or refresh row is stored where none of its grant and kind is live, and a touch lands on a token that is still live or whose place is free. |
| OAuthRoom.StepUniqueIffRoomy | hub/internal/api/oauth_token.go:131-176 | The same for one event in any state that satisfies the invariant. |
| OAuthRoom.SerialIsRoomy | hub/internal/api/oauth_token.go:100-176 | One way to see to it: with token requests one at a time and touches that do not land on tokens revoked meanwhile, every event finds room. |
| OAuthSerial.OneLivePair | hub/internal/api/oauth_token.go:100-176 | Hence on such a run a grant never has two live access tokens or two live refresh tokens, while consents, revocations, checks and touches interleave freely. |
| OAuthSerial.RefreshRedeemedOnce | hub/internal/api/oauth_token.go:100-138 | Under the same discipline no refresh token yields a second pair. |
| OAuthRaces.OverlappingRefreshesBothSucceed | hub/internal/api/oauth_token.go:131-137 | A run from the empty hub without a single touch in which two requests both redeem one refresh token and leave two live pairs. |
| OAuthRaces.LateTouchRevives | hub/internal/storage/clickhouse/oauth.go:334-350 | A run from the empty hub in which token requests never overlap, and whose last event, the write of a touch that read before the rotation, makes the revoked access token live again beside the one that replaced it. |
| OAuthHistory.RevokeReaches | hub/internal/storage/clickhouse/oauth.go:285-310 | A family revocation, complete or interrupted, revokes exactly the grant's tokens it reaches and changes nothing else. |
| OAuthHistory.ForeignRevokeHitsTokens | hub/internal/api/oauth_grants.go:55-75 | On every run, a stranger's revocation of a grant whose two steps reach the store ends refused and its second step changes nothing, but its first changes the tables if and only if the grant has a live token, and leaves it none. |
| OAuthRaces.StrangerEndsTokens | hub/internal/api/oauth_grants.go:55-75 | A run from the empty hub in which a stranger's revocation is refused, the grant stays as it was, and both its tokens, live before, are gone. |
| OAuthServer.CodeClaims.Claim | hub/internal/api/oauth_flow.go:314-328 | The in-place sweep and claim leave exactly the claims at most two code lifetimes old, plus the new one, and win if and only if no such claim existed. |
| OAuthServer.Process.ExchangeCode | hub/internal/api/oauth_token.go:46-98 | The imperative handler changes the tables and the claim map exactly as a run of its own protocol request does, and reports issuance truthfully. |
| OAuthServer.Process.RefuseReplay | hub/internal/api/oauth_token.go:70-74 | Tokens are revoked before the grant, each store failure tolerated, as the protocol's replay steps. |
| OAuthServer.Process.CheckCode | hub/internal/api/oauth_token.go:75-92 | The local checks after the claim pass exactly when the protocol lets the exchange go on. |
| OAuthServer.Process.IssuePair | hub/internal/api/oauth_token.go:140-176 | An access token row, then a refresh token row only for an offline scope, with the same time of issue; a failed write ends the request. |
| OAuthServer.Process.RotateRefresh | hub/internal/api/oauth_token.go:100-138 | The imperative rotation is a run of its protocol request: look up, check, revoke the family, issue. |
| OAuthServer.Process.HandleRevoke | hub/internal/api/oauth_token.go:178-202 | Either token of a pair revokes the family; an unknown or already revoked one changes nothing; the answer is the same. |
| OAuthServer.Process.HandleRevokeGrant | hub/internal/api/oauth_grants.go:55-75 | Tokens first, then the grant, somebody else's grant being not found; when it succeeds the grant and all its tokens are revoked. |
| OAuthServer.Process.DecideConsent | hub/internal/api/oauth_flow.go:163-189 | The grant row, then a code bound to the same client, user, resource, scope and project; a failed write ends the request. |
| OAuthServer.Process.IdentityFromToken | hub/internal/auth/oauthtoken.go:66-110 | A run of the access check that writes nothing and, when it accepts, answers with the binding of the stored token. |
| OAuthServer.Process.RevokeTokensForGrant | hub/internal/storage/clickhouse/oauth.go:285-316 | A complete family revocation revokes exactly the tokens of the grant; an interrupted one some of them. |
| Alerting.Evaluate | hub/internal/alerting/evaluator.go:61-94 | For every key the loop over rules and candidate targets, in any order, leaves the state and the notifications that the key's rule, target and previous state determine, and nothing for other keys. |
| Alerting.EvaluateTarget | hub/internal/alerting/evaluator.go:64-92 | One rule on one target: its key gets the next cell and its notifications; every other key is left alone. |
| Alerting.CandidateTargets | hub/internal/alerting/evaluator.go:117-134 | Exactly the selected present targets and the targets the rule has state for. |
| RuleValidation.ValidateRules | hub/internal/alerting/config.go:157-181 | Accepts exactly the rule lists without a blank or repeated name, unknown condition, empty selector, negative `for` or blank channel; hence what the state machine assumes. |
| HealthTargets.BuildTargets | hub/internal/alerting/evaluator.go:160-184 | Every target of a report: the last group or service under a key, and per tier a group at least as severe as all of the tier. |
| HealthTargets.GroupKeySplits | hub/internal/alerting/evaluator.go:141-155 | Splitting a group target gives back name and environment if and only if the environment holds no bracket and, without one, the name does not look bracketed. |
| HealthTargets.TierShowsWorst | hub/internal/alerting/evaluator.go:160-184 | A tier target exists if and only if a group is in the tier, and shows one of its most severe groups. |
| Budgets.ValidateBudgets | hub/internal/ai/config.go:149-190 | Accepts exactly the budget lists with distinct non-blank names, one positive limit each, a warn ratio in [0,1), and prices for cost budgets. |
| Budgets.AcceptedIsValid | hub/internal/ai/config.go:149-190 | Accepted budgets have distinct names, positive limits and warn thresholds strictly between 0 and 1. |
| Budgets.EvaluateBudgets | hub/internal/ai/budgets.go:95-117 | For every key the budget machine leaves what the owning budget's crossing determines and touches no key of another owner. |
| UsageCache.Cache.GetUsage | hub/cmd/hub/ai_budgets.go:69-81 | Serves the entry while it is younger than the interval, else recomputes; a failure answers nothing and keeps the entry. |
| UsageCache.AnswersAreOwnAndRecent | hub/cmd/hub/ai_budgets.go:69-81 | Over every sequence of calls a tenant is only ever answered with its own usage, computed now or less than an interval ago. |
| UsageCache.ComputedOncePerInterval | hub/cmd/hub/ai_budgets.go:69-81 | Usage computed when no answer of the tenant was young enough answers every later call of the tenant within the interval, whatever other calls compute or fail to compute. |
| AlertTick.ToEvalState | hub/cmd/hub/alerting.go:207-215 | Loaded rows become a state in which the latest row of each key counts. |
| AlertTick.DiffToSave | hub/cmd/hub/alerting.go:220-237 | The rows written back are the next state plus an explicit ok row for each key that went away, keeping its last notification time. |
| AlertTick.MergeAiKeys | hub/cmd/hub/ai_budgets.go:129-133 | Budget keys are added, health keys never overwritten. |
| AlertTick.EvalAiBudgets | hub/cmd/hub/ai_budgets.go:97-123 | Budget rows: evaluated when usage is known, carried over unchanged when it failed, absent when the module is off. |
| AlertTick.AlertTable.Load | hub/internal/storage/clickhouse/alerts.go:17-36 | Every key's latest row, ok rows left out. |
| AlertTick.AlertTable.EvaluateOnce | hub/cmd/hub/alerting.go:98-116 | One whole tick, load to save, takes every key's stored row and notifications to what the tick determines for that key alone. |
| AlertTick.AlertTable.RunEvaluator | hub/cmd/hub/alerting.go:52-84 | Tick after tick the table and the notifications are the run functions the results below speak about. |
| AlertRuns.DurableRefinesMemory | hub/cmd/hub/alerting.go:207-237 | At every key after every run, loading what was saved gives back the in-memory state, so ok rows behave as absent and nothing is lost by going through the table. |
| AlertRuns.OkRowsBehaveAsAbsent | hub/cmd/hub/alerting.go:207-237 | A tick cannot tell an ok row from no row, in state or notifications. |
| AlertRuns.SkippedTicksVanish | hub/cmd/hub/alerting.go:92-102 | Ticks that could not read health or state leave no trace. |
| AlertRuns.DebounceEqualsHistory | hub/internal/alerting/evaluator.go:61-94 | From any table whose row for the key is absent or ok: a key fires if and only if it matched at every tick since some earlier tick at least `for` ago; it is pending if and only if it matches but not that long. |
| AlertRuns.DebounceAfter | hub/internal/alerting/evaluator.go:61-94 | The same after any run that left the key inactive, such as the ticks before its rule was configured. |
| AlertReports.SelectsNamed | hub/internal/alerting/evaluator.go:186-198 | A selector matches the target of a group, service or tier if and only if it names it; for a group, its environments must also be empty or hold the group's. |
| AlertReports.TargetShows | hub/internal/alerting/evaluator.go:160-184 | A target built from a health report carries a bad status and its reason if and only if the report shows them: the last entry for a group or service, the first worst group for a tier. |
| AlertReports.AlertFollowsReports | hub/internal/alerting/evaluator.go:61-94 | End to end on any run of health reports: the alert fires if and only if the reports have shown the thing bad, as some configured rule of the name selects and minds it, at every tick since some earlier one at least `for` ago; it is pending if and only if they show it bad but not for that long. |
| AlertReports.NoteSays | hub/internal/alerting/evaluator.go:96-115 | A notification carries the rule's channel and the tick's time; a fired one says the status and reason the report shows, a resolved one the target's own or that it no longer reports. |
| AlertRuns.NotificationsAlternateIff | hub/internal/alerting/evaluator.go:66-92 | On every run of valid ticks a key's notifications go fired, resolved, fired..., and its row fires exactly when the last one was fired, at every moment, if and only if no tick that finds the key firing drops its rule or budget; vanished targets, skipped ticks and usage failures do no harm. |
| AlertRuns.NotificationsAlternate | hub/internal/alerting/evaluator.go:66-92 | In particular while the rule or budget stays configured throughout. |
| AlertRuns.SilentDropIffNotKept | hub/internal/alerting/evaluator.go:64-65 | A firing key goes quiet without a resolve if and only if the tick no longer keeps it (rule or budget gone, or budgets off). |
| AlertRuns.RemovedRuleBreaksAlternation | hub/internal/alerting/evaluator.go:64-65 | A valid run at any five increasing times: removing a rule for one tick while it fires loses the resolve, and two fired notifications follow each other. |
| AlertRuns.BudgetOrderKept | hub/internal/ai/budgets.go:95-117 | In every reachable stored state, if a budget's over rule fires for a target, its warn rule fires for it too: across usage failures, removals and any valid reloads. |
| AlertRuns.UsageFailureKeepsFiring | hub/cmd/hub/ai_budgets.go:110-119 | A usage failure leaves a firing budget row exactly as stored and reports nothing. |
| AlertRuns.BudgetFiresIffCrossed | hub/internal/ai/budgets.go:134-153 | With usage known, a configured budget's rule fires after the tick if and only if the spend crossed its threshold. |
| AlertRuns.CrossedMeansShare | hub/internal/ai/budgets.go:95-117 | Crossing means the spend reached that share of the limit. |
| BudgetAlerts.BudgetAlert | hub/internal/ai/budgets.go:95-153 | On the budget as configured and the month's usage: its warn or over rule fires after the tick if and only if the spend of its service or the estate, in its own unit, reaches that share of the cap; anew at the tick's time, or as it fired before. |
| BudgetAlerts.BudgetNote | hub/internal/ai/budgets.go:134-153 | The tick reports the rule once when the spend reaches the share and once when it falls below it, with status, reason, time and channel. |
| LogPages.CompactLogResolutions | hub/internal/api/log_resolution_token.go:148-162 | Every proxy branch gets the stable workload-and-namespace fallback, everything else stays. |
| LogPages.MarshalRoundTrip | hub/internal/api/log_resolution_token.go:69-136 | A token decodes to exactly the resolutions it was made from until its expiry second has passed, and to nothing after. |
| LogPages.TokenRoundTrip | hub/internal/api/log_resolution_token.go:50-67 | The same for the resolutions page one must use: the full ones if they fit, the compacted ones otherwise. |
| LogPaging.UniqueQueryValues | hub/internal/api/logs.go:254-265 | The loop returns the distinct trimmed non-blank values in order of first appearance. |
| LogPaging.UniqueKeepsAll | hub/internal/api/logs.go:254-265 | A value is selected if and only if it is non-blank and some query value trims to it. |
| LogPaging.ItemKeyInjective | hub/internal/api/logs.go:220-228 | Two selected items share a resolution key only if they are the same item. |
| LogPaging.HintsDecide | hub/internal/api/logs.go:142-180 | When every selected item has its answer among the decoded hints, the cluster is not consulted: the resolutions are the hints. |
| LogPaging.LaterPageRepeatsPageOne | hub/internal/api/logs.go:133-201 | A later page with the same parameters and page one's token gets page one's source list, MatchNone, resolutions and token back while the token lives, whatever the cluster looks like by then, and is refused once it has expired. |
| LogPaging.PaginationStable | hub/internal/api/logs.go:133-201 | However long the scroll, its last page queries exactly what page one queried. |
| LogPaging.PageOneSources | hub/internal/api/log_resolution_token.go:50-67 | Page one queries the resolved or the compacted list, with the same categories and service lists either way. |
| LogTokens.DecodesIffProves | hub/internal/api/log_resolution_token.go:92-136 | A token decodes to these resolutions if and only if it is within bounds, carries this hub's signature of its bytes, and its payload is for this scope, unexpired, and holds them, each usable. |
| LogTokens.ForeignScopeRefused | hub/internal/api/log_resolution_token.go:126-128 | Page one's token is refused under every other scope, on any cluster and at any moment. |
| LogTokens.ForgedTokenRefused | hub/internal/api/log_resolution_token.go:111-115 | A token whose signature is not this hub's over its own bytes is refused. |
| LogTokens.RefusedExactly | hub/internal/api/logs.go:91-201 | A composed search is refused if and only if a workload is malformed, or a cursor comes without a token, or the token proves nothing, or page one's token would not fit even compacted. |
| LogTokens.PageOneReads | hub/internal/api/logs.go:133-201 | Uncompacted, page one reads exactly the wanted, non-empty sources of exactly the selected items, as the cluster describes them. |
| LogTokens.ResolutionSays | hub/internal/api/logs.go:142-201 | A resolution names its item, the workload behind it or why there is none, and what its sources were matched by. |
| LogTokens.CompactReads | hub/internal/api/log_resolution_token.go:148-162 | Compacted, a proxy branch with text to match matches the workload or the namespace instead, the resolution says so, and everything else stays. |
| LogTokens.ComposedIff | hub/internal/api/logs.go:110-118 | A search is composed if and only if it names a workload, or two services, or one service with a source filter. |
| LogPaging.SearchLogs | hub/internal/api/logs.go:91-201 | The imperative composed path (deduplication, hint index, service loop, workload loop, token) computes the page the results above speak about. |
| RateLimiter.Limiter.Blocked | hub/internal/auth/ratelimit.go:80-94 | Prunes all three tables of expired windows and refuses exactly when some axis is at its limit. |
| RateLimiter.Limiter.Fail | hub/internal/auth/ratelimit.go:97-112 | Counts the failure on each axis, at that axis's own reading of the clock, opening a new window when the old one expired. |
| RateLimiter.PruneWindows | hub/internal/auth/ratelimit.go:121-127 | In any order of visits, exactly the unexpired windows remain. |
| RateLimiter.CountBound | hub/internal/auth/ratelimit.go:80-112 | With at most K attempts on a key between check and record, no window of that key ever counts more than max - 1 + K, on each axis. |
| RateLimiter.CountIsFailures | hub/internal/auth/ratelimit.go:105-112 | A live window's count is the number of failures recorded since it opened. |
| RateLimiter.RefusedIff | hub/internal/auth/ratelimit.go:80-95 | On every run a check is refused if and only if the window open for its source holds at least 5 recorded failures, or that of its address 30, or that of its account 20; windows are told from the failures' times alone. |
| RateLimiter.RefusedHasFailed | hub/internal/auth/ratelimit.go:80-95 | So a refused check has that many recorded failures of its source, address or account within the last minute. |
| RateLimiter.RateBound | hub/internal/auth/ratelimit.go:80-127 | Any closed interval of one login window holds at most 2(max - 1 + K) - 1 recorded failures of a key, on each axis and under any interleaving. |
| IngestAuth.Authenticator.Authenticate | gateway/avuruingestauth/extension.go:112-152 | One undisturbed request: the decision and the cache after it, for every mode, key, cached verdict and hub reply. |
| IngestAuth.Authenticator.GetVerdict | gateway/avuruingestauth/extension.go:157-181 | Fresh verdicts are served, stale ones only through an outage and within the grace, answers are cached under the request's own clock reading. |
| IngestAuth.OpenModesChangeNothing | gateway/avuruingestauth/extension.go:112-152 | Off and log mode never reject and never attach a project. |
| IngestAuth.LogForecastsEnforce | gateway/avuruingestauth/extension.go:144-152 | Log mode counts a denial exactly when enforce mode would reject with the same cache and hub, except when the hub is out and no verdict is left to serve. |
| IngestAuth.BoundedStaleness | gateway/avuruingestauth/extension.go:112-181 | Under any interleaving of requests, outages and key changes, a request leaving enforce mode carries a project the hub affirmed for its key no earlier than its arrival minus max(cacheTTL, staleGrace); the other modes admit everything unmarked. |
| IngestAuth.WithdrawnKeyShutOut | gateway/avuruingestauth/extension.go:157-181 | A key the hub stopped affirming opens nothing for requests arriving that long afterwards, outage or not. |
| IngestAuth.UndisturbedRequest | gateway/avuruingestauth/extension.go:157-181 | The interleaved steps, run back to back, are the whole request. |
| IngestAuth.ArrivalDecides | gateway/avuruingestauth/extension.go:112-155 | Without a key a request is counted, and rejected in enforce mode; with the authenticator off every request goes on. |
| IngestAuth.LookUsesYoungVerdict | gateway/avuruingestauth/extension.go:157-165 | On every run a lookup is ruled by the answer last kept for the key if and only if that is younger than the cache's lifetime. |
| IngestAuth.OutageUsesStaleVerdict | gateway/avuruingestauth/extension.go:112-181 | In an outage a request is ruled by the answer kept before its lookup if that is younger than the grace; otherwise enforce mode rejects and counts it, and the other modes let it go on. |
| IngestAuth.AnswerRules | gateway/avuruingestauth/extension.go:112-181 | A request the hub answered is ruled by the answer. |
| TenantProcessor.Process | gateway/tenantfromauth/processor.go:42-76 | Every resource of the payload is stamped in place; an absent project leaves the payload as it came. |
| TenantProcessor.StampTouchesOnlyTenant | gateway/tenantfromauth/processor.go:42-76 | The project overwrites whatever tenant the client claimed, and no other attribute moves. |
| TenantProcessor.EnforceStampsIffProjectNamed | gateway/tenantfromauth/processor.go:31-76 | For an admitted request, all payloads come out fully stamped with a recently affirmed project if and only if the project the hub named is not empty. |
| TenantProcessor.NamedProjectsSuffice | gateway/tenantfromauth/processor.go:31-76 | If the hub names a project with every key it affirms, everything admitted is stamped. |
| TenantProcessor.UnnamedProjectPassesUnstamped | gateway/tenantfromauth/processor.go:42-46 | A concrete run in which a key affirmed without a project lets a payload through with the tenant the client claimed. |
| TenantProcessor.OpenModesLeavePayload | gateway/tenantfromauth/processor.go:31-46 | In off and log mode nothing is rejected or changed, end to end. |
| Roles.FindRole | hub/internal/auth/auth.go:71-85 | The loop finds the strongest role held on a project. |
| Roles.RoleForIsStrongest | hub/internal/auth/auth.go:71-85 | That role is held through some covering grant, and no covering grant beats it. |
| Roles.RoleIsFirstHeld | hub/internal/auth/auth.go:71-85 | It is admin, editor or viewer, the first of them that some grant gives on the project or on every project. |
| Roles.AccessIsHeld | hub/internal/auth/auth.go:17-36 | Which roles admit to which need, and no others. |
| Roles.RoleForSameGrants | hub/internal/auth/auth.go:71-85 | It depends on the set of grants only, not on order or repetition. |
| Roles.AnyRoleViews | hub/internal/auth/auth.go:88-91 | Holding any role on a project is the same as viewer access to it. |
| Projects.EditsKeepOneLevel | hub/internal/api/projects.go:171-394 | Over every sequence of creates, updates and deletes: no aggregate contains itself or another aggregate, members are distinct well-formed ids within the limit, and no project has both members and its own retention. |
| Projects.UpdateKeepsOneLevel | hub/internal/api/projects.go:237-286 | An update keeps that, whatever it changes. |
| Projects.ValidMembersAreFlat | hub/internal/api/projects.go:297-343 | Accepted members are distinct valid ids other than the project, no more than 32, none of them an aggregate, and the project is nobody's member. |
| Projects.CleanedKeepsAll | hub/internal/api/projects.go:297-317 | Exactly the trimmed non-blank names survive the cleaning. |
| ProjectRules.CreateIff | hub/internal/api/projects.go:171-213 | A create is accepted if and only if the id is well-formed, unreserved and new, the title short and the retention allowed, and then stores exactly that project. |
| ProjectRules.MembersIff | hub/internal/api/projects.go:297-343 | A membership is accepted if and only if every name in it is another project's id, there are at most 32, and no aggregate is among them or has the project as member; it is then those names, each once. |
| ProjectRules.UpdateIff | hub/internal/api/projects.go:237-286 | An update is accepted if and only if the project is editable, what it sets is acceptable, and the result has not both members and a retention. |
| ProjectRules.UpdateChanges | hub/internal/api/projects.go:237-286 | It then changes what the patch names and nothing else. |
| ProjectRules.StoredProjectsAreProper | hub/internal/api/projects.go:171-394 | After every sequence of edits each stored project has a well-formed unreserved id, a short title, a retention the install allows and at most 32 members. |
| ProjectRules.DeletedIsGone | hub/internal/api/projects.go:379-394 | After any history, a delete leaves no row for its id and every other row as it was. |
| ProjectAdmin.ValidateMembers | hub/internal/api/projects.go:297-343 | The two loops decide exactly that. |
| ProjectAdmin.Admin.CreateHandler | hub/internal/api/projects.go:171-213 | Creates the row or refuses with the right status, and then changes nothing. |
| ProjectAdmin.Admin.UpdateHandler | hub/internal/api/projects.go:237-286 | Applies the partial update checked on its result, or refuses with the right status and changes nothing. |
| ProjectAdmin.Admin.DeleteHandler | hub/internal/api/projects.go:379-394 | Removes an editable row, refuses others. |
| ProjectRaces.OneLevelIffRoom | hub/internal/api/projects.go:171-394 | Nothing serialises an edit's reads with its save. Over every interleaving of the steps of creates, updates and deletes, membership is one level deep at every moment if and only if every save finds room: the member check, repeated at the moment of the save, would let its row through. |
| ProjectRaces.StepOneLevelIff | hub/internal/api/projects.go:237-286 | The same for one step, in any state with one level whose open requests hold rows that passed their own checks. |
| Projects.SaveKeepsOneLevelIff | hub/internal/api/projects.go:318-343 | Saving a sound row over one-level rows keeps one level if and only if the member check would let it through. |
| ProjectRaces.UndisturbedEdit | hub/internal/api/projects.go:171-394 | The steps of one edit run back to back are the whole edit, whatever else is open. |
| ProjectRaces.OverlappingUpdatesFlatIff | hub/internal/api/projects.go:260-276 | After two accepted updates of different projects that are both checked before either is saved, membership is one level deep if and only if neither makes a member of a project that the other leaves with members. |
| ProjectRaces.OverlappingUpdatesNest | hub/internal/api/projects.go:260-276 | Wherever there are two free leaves, such a pair of updates is accepted and nests one aggregate in another. |
| ProjectRaces.StaleRenameNests | hub/internal/api/projects.go:248-276 | A run from no projects on which every save but the last finds room, and the last, a rename that sets no members, saves the member list it read and nests an aggregate. |
| ProjectTenants.FindTenants | hub/internal/api/resolve_tenants.go:30-59 | The member loop returns the project itself, its visible members in order, or a refusal. |
| ProjectTenants.ExpandIsClosure | hub/internal/api/resolve_tenants.go:30-45 | Expanding once reaches exactly the leaves the membership leads to: a single expansion is the transitive closure. |
| ProjectTenants.TenantsAreAuthorized | hub/internal/api/auth_middleware.go:347-391 | The tenants of an authorized request are exactly the viewable leaves its project leads to, and never none. |
| ProjectTenants.RefusedExactly | hub/internal/api/auth_middleware.go:347-391 | A request is refused if and only if its header contradicts its token, its role on the project falls short, or the project is an aggregate none of whose members it may view. |
| ProjectTenants.BoundTokenStaysInside | hub/internal/api/auth_middleware.go:352-366 | A token bound to a project reads inside that project whatever the header says. |
| ProjectTenants.BoundTokenNames | hub/internal/api/auth_middleware.go:352-366 | A token bound to a project speaks for it alone: naming no project or that one comes to the same, and naming another is refused. |
| ProjectTenants.HeaderNames | hub/internal/api/auth_middleware.go:347-379 | Otherwise the header names the project, and no header means the default one. |
| ProjectTenants.TenantsAfterEdits | hub/internal/api/resolve_tenants.go:30-59 | After every history of edits the tenants returned are viewable, are leaves, and are not none. |
| ProjectMemo.Memo.DbProjectsCached | hub/internal/api/resolve_tenants.go:101-117 | Serves the memo while younger than the TTL, else reads and refills it; a failed read changes nothing. |
| ProjectMemo.ReadYourWrites | hub/internal/api/resolve_tenants.go:66-117 | Once a project write has invalidated the memo, every later resolution on the replica uses a list whose read began after that write and contains it, and a memoized list less than the TTL after it was fetched; under any interleaving of readers and writers. |
| ProjectMemo.OwnWritesSettle | hub/internal/api/resolve_tenants.go:61-70 | A write by this replica's handlers is either still owed its invalidation or covered by one. |
| GroupMapping.MergeMapping | hub/internal/auth/mapping.go:36-69 | The merged list is a sorted arrangement of the config rules and the role-valid rows, shadowed exactly when their group is declared. |
| GroupMapping.MergedRulesExactly | hub/internal/auth/mapping.go:36-69 | The merged list holds exactly the config's rules and the rows with one of the three roles; a row is shadowed if and only if the config has a rule for its group, and only rows are editable. |
| GroupMapping.DeriveGrants | hub/internal/auth/mapping.go:83-113 | The loop with its seen set and matched flag derives the grants the results below speak about. |
| GroupMapping.DeriveConfigGrants | hub/internal/auth/oidcconfig.go:82-111 | The same for the config-only mapper. |
| GroupMapping.KeyInjective | hub/internal/auth/mapping.go:90-96 | The deduplication key names one grant only, for roles that are roles. |
| GroupMapping.GrantsExactly | hub/internal/auth/mapping.go:36-113 | What the merged mapping grants, from its inputs alone: matching config rules, matching overlay rows that count, and the default if and only if neither matches. |
| GroupMapping.ConfigGrantsExactly | hub/internal/auth/oidcconfig.go:82-111 | The same for the config-only mapper. |
| GroupMapping.GrantsOnce | hub/internal/auth/mapping.go:71-113 | No mapper gives a grant twice, however the rules and their projects overlap. |
| GroupMapping.InertOverlayChangesNothing | hub/internal/auth/mapping.go:36-113 | With an overlay that is empty, fully shadowed or without valid roles, the merged mapping grants the same set as the config-only mapper, hence the same role on every project. |
| GroupMapping.ConfigGrantsSurvive | hub/internal/auth/mapping.go:36-113 | Under any overlay, while a config rule matches, no config grant is lost and no role gets weaker. |
| GroupMapping.ConfigRulesFirst | hub/internal/auth/mapping.go:62-67 | In the sorted list a group's config rules precede its overlay rows. |
| MappingCache.Cache.Refresh | hub/internal/auth/mappingcache.go:88-107 | Stores the current config's rules with that config's defaults; a failed query keeps the last snapshot, an absent store counts as no overlay. |
| MappingCache.Cache.Mapper | hub/internal/auth/mappingcache.go:114-119 | Grants from the live snapshot. |
| MappingCache.SnapshotIsOneConfig | hub/internal/auth/mappingcache.go:69-119 | However reloads and refreshes race, what the mapper grants is what one single config grants with one reading of the overlay. |
| MappingCache.CurrentIffNoReloadSinceLoad | hub/internal/auth/mappingcache.go:69-107 | On every run of reloads and refreshes the enforced snapshot is of the newest generation if and only if no reload came at or after the load of the refresh that swapped last; then it pairs the current config's rules with its defaults. |
| MappingCache.LoneRefreshIsCurrent | hub/internal/auth/mappingcache.go:88-107 | From a moment without refreshes in flight, the first swap makes the snapshot current, and it stays so until the next reload, whatever else refreshes. |
| MappingCache.LateRefreshReverts | hub/internal/auth/mappingcache.go:64-71 | A run from the start on which the reloaded config is enforced and an older refresh, ending last, puts the replaced one back. |
| Envelope.Parse | gateway/sentryreceiver/envelope.go:29-73 | The reader loop computes the parse, and ends because every turn consumes bytes. |
| Envelope.Reader.ReadLine | gateway/sentryreceiver/envelope.go:76-86 | The bytes up to the next newline, which is consumed, or to the end; nothing at the end of the body. |
| Envelope.Reader.ReadItemPayload | gateway/sentryreceiver/envelope.go:90-107 | The declared number of bytes and an optional newline after them, or the next line. |
| Envelope.EnvelopeRoundTrip | gateway/sentryreceiver/envelope.go:29-107 | Printing any well-formed envelope (sized payloads with arbitrary bytes, line payloads, optional trailing newlines, blank lines, an open last line) and parsing it gives back exactly its decodable events in order. |
| Envelope.AcceptedIffEnvelope | gateway/sentryreceiver/envelope.go:29-73 | A body is accepted if and only if it is the print of a well-formed envelope. |
| Envelope.SilentPartChangesNothing | gateway/sentryreceiver/envelope.go:50-70 | Adding or removing a blank line, another item type or an undecodable event anywhere changes nothing. |
| Envelope.PanicsIffBadLength | gateway/sentryreceiver/envelope.go:90-95 | The parse crashes if and only if, after well-formed parts, it reaches an item header whose declared length is negative or too large to allocate. |
| Envelope.NegativeLengthPanics | gateway/sentryreceiver/envelope.go:90-95 | A body of two lines, the second the item header {"length":-1}, that crashes the parser under every decoder that reads them so. |
| PowerModel.IntegrateJoules | sensor/tdp-estimator/model.go:25-33 | The accumulating loop is the trapezoid integral. |
| PowerModel.UtilizationInRangeIff | sensor/tdp-estimator/sampler.go:67-74 | Utilization is a fraction if and only if no time passed or idle time, in 64-bit arithmetic, grew no more than all time. |
| PowerModel.UtilizationInRange | sensor/tdp-estimator/sampler.go:23-74 | It is whenever no counter fell, wrap-around of the sums included. |
| PowerModel.UtilizationIsBusyShare | sensor/tdp-estimator/sampler.go:23-74 | While no counter falls, utilization is the busy share of the jiffies that passed: all but those idle or waiting for I/O. |
| PowerModel.PodIncrement | sensor/tdp-estimator/model.go:40-58 | A pod's share of one interval is the dynamic range times its CPU-seconds if there was any utilization, and nothing otherwise. |
| Sampler.Loop.OnTick | sensor/tdp-estimator/sampler_loop.go:43-113 | One tick in place: node power and energy, pod attribution, exited pods forgotten. |
| Sampler.AttributePods | sensor/tdp-estimator/sampler_loop.go:76-110 | The pod loop and the clean-up, in any order of visits. |
| EnergyRuns.NodeIsBatchIntegral | sensor/tdp-estimator/sampler_loop.go:44-62 | The running node counter is the batch trapezoid integral of all wattages, the first one also standing for the start. |
| EnergyRuns.NodeEnergyWithin | sensor/tdp-estimator/sampler_loop.go:44-62 | With counters that never fall it lies between idle and max power held for the measured intervals. |
| EnergyRuns.HeldIsProduct | sensor/tdp-estimator/model.go:25-33 | Constant power held for n intervals is power times their total time. |
| EnergyRuns.PodEnergyClosedForm | sensor/tdp-estimator/sampler_loop.go:76-110 | On every history of ticks a pod is tracked if and only if it has readings, and its joules are the dynamic range times the CPU-seconds read for it at busy ticks since it was first seen, whatever was skipped. |
| EnergyRuns.PodEnergyIsUsage | sensor/tdp-estimator/sampler_loop.go:84-95 | On every history of ticks, for a tracked pod whose counter never fell, that is the whole usage since first seen if and only if all of it was read at ticks with utilization. |
| PodReports.IdleUsageIsLost | sensor/tdp-estimator/sampler_loop.go:84-95 | A run from the start, on a node whose idle counter alone grows, in which a second of CPU time is read at a tick without utilization and charged to no one. |
| PodReports.ReportedIffNameNotLeft | sensor/tdp-estimator/sampler_loop.go:96-110 | A pod read in a tick is reported after it if and only if no tracked pod that exited by then carried the same name and namespace; it is tracked either way. |
| PodReports.ReportedIsOwnEnergy | sensor/tdp-estimator/sampler_loop.go:84-110 | What is reported for a pod the tick has read is its own running energy, unless another pod of its name was read too. |
| PodReports.SuccessorHidden | sensor/tdp-estimator/sampler_loop.go:96-110 | A run from the start in which a pod exits, its namesake is read in the same tick, and is not reported. |
| GreenRows.BuildGreenRows | hub/internal/api/green.go:321-397 | The loops build the report of the merged, sorted and folded services, and the totals. |
| GreenRows.RateIsFormula | hub/internal/api/green.go:59-64 | The conversion rate gives the report's quoted formula. |
| GreenFold.TotalsReport | hub/internal/api/green.go:321-397 | The totals are sums over the stored rows by service and quality, and coverage is the attributed share of all energy. |
| GreenFold.CarbonIsAtRate | hub/internal/api/green.go:321-397 | Total carbon is all energy at the rate. |
| GreenFold.ReportShape | hub/internal/api/green.go:364-397 | With 0 < topN < the number of services the report has topN services and (other), else every service; (unattributed) comes last if some row has no service. |
| GreenFold.ReportConservesEnergy | hub/internal/api/green.go:321-397 | For every input and every topN, Wh and EstimatedWh over the returned rows equal the totals. |
| GreenFold.ReportConservesCarbon | hub/internal/api/green.go:321-397 | So does gCO2e, although rows and total are converted separately. |
| GreenFold.ReportConservesRequests | hub/internal/api/green.go:371-379 | The requests over the returned rows are those of every service with energy. |
| GreenFold.ServicesOnce | hub/internal/api/green.go:328-370 | Each service is merged into exactly one line. |
| GreenFold.KeptAreWhole | hub/internal/api/green.go:364-382 | A row standing by itself is one service's whole energy, with its carbon and its requests. |
| GreenFold.KeptAreHeaviest | hub/internal/api/green.go:364-382 | No service folded away is heavier than such a row's, or equally heavy and before it in the alphabet. |

## Left out

- OAuthSafety.SingleRedemption: one hub process; the claim map is not shared between replicas, as its comment in oauth_flow.go says.
- OAuthSerial.OneLivePair: a sufficient discipline, which the code does not enforce; the exact condition is OAuthRoom.OneLivePairIffRoomy.
- OAuthProtocol: each store call is one atomic step, except a family revocation, which may stop after any subset; random ids and hashes never repeat; client registration, the authorize and consent pages, scope checks and the size of form values are not modelled.
- AlertReports.AlertFollowsReports: for things whose target splits back into their name, as HealthTargets.GroupKeySplits says, and groups of the reports likewise.
- AlertRuns.DebounceEqualsHistory: over a stretch of ticks for a rule whose `for` does not change and ticks that ran; skipped ticks are covered by SkippedTicksVanish.
- AlertTick: one tenant at a time, state saves succeed, no health rule is named inside the `ai:` namespace; delivery, channel resolution, alert history and the text of reasons are not modelled.
- Green budgets: their machine mirrors the AI one.
- The health roll-up, usage roll-up and prices are inputs.
- LogPaging.PaginationStable: relies on the JSON round trip, so on names that are valid UTF-8; the token scope is a parameter, equal on every page of one scroll; the single-service path without a source filter and the store query itself are not modelled.
- The workload descriptor of a cluster snapshot is an input, arbitrary on every page; parsing of the source list and the refusal of a repeated token parameter are not modelled.
- RateLimiter.RateBound: K counts attempts between check and record; what bounds K (the number of concurrent requests) is outside.
- IngestAuth.BoundedStaleness: age is measured at the request's own clock reading; a request that waits for the hub leaves later than that by the call's duration. Reading the key out of the headers is not modelled.
- Projects: who created a project and when, the final existence check of a delete (its tombstone changes no live row then), and labels' byte length against character length; observed tenants, filtering of the project list.
- ProjectTenants.TenantsAreAuthorized: for rows that satisfy the one-level invariant; interleaved edits keep it exactly when every save finds room (ProjectRaces.OneLevelIffRoom).
- MappingCache: the poll schedule.
- Envelope: the fields of the headers and events; the size limit on the request body.
- Sampler: reading /proc, cgroups and the kubelet; 64-bit counters of a pod are natural numbers; the node gauge of the registry.
- PowerModel and GreenRows: floating-point rounding. That pod energy stays below node energy is not a property of the code: pod CPU-seconds are not normalised by the number of cores.
- GreenRows: time series points, per-request carbon and the wrap-around of request counts; node rows and coverage by node.
- Mesh posture, capability and read-only handlers, the UI, the Grafana plugin, webhooks, hot reload and the schema gate: single switches, field copies or I/O.
