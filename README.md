# Ambassador activity tracking — a verified model

The backend tracks the Instagram activity of brand ambassadors, compares it
with weekly posting quotas, and escalates warnings to inactive or
non-compliant ambassadors. This project models the parts of it that carry
logic, and proves what they promise.

The modelled parts:

- **Warning escalation engine.** A pass runs over the active ambassadors. For
  each one it tries the rules in a fixed order:
  - skip a paused user;
  - skip a user with an active level 3;
  - level 1 on inactivity;
  - level 2 after a grace period;
  - level 3 by inactivity, else by non-compliance.

  Clearing and pausing a user's warnings are modelled too. Modules
  `WarningRules` (the pure rules) and `Warnings` (the service class, with a
  ghost outbox of the mails it sends).
- **Weekly compliance reports.** A grouped count of a user's activity rows
  is folded into a `STORY`/`IMAGE`/`VIDEO` map. Each category is then
  compared with the posting rule, which defaults to 3/1/1. Module
  `Analytics`.
- **Ingestion.**
  - Media-type normalisation, one definition for the three copies in the
    source (`MediaTypes`).
  - Profile-link parsing (`InstagramLinks`).
  - The hourly tagged-media poll (`TaggedMedia`).
  - The `/webhook` controller: direct messages, story mentions and mentions,
    with a three-attempt media fetch (`InstagramWebhook`).
  - The older `/webhooks` controller, with a single fetch (`Webhooks`).
  - Manually recorded activities (`ManualActivity`).
- **Teams.** Member lists are deduplicated and must hold 1 to 50 users, and
  each user belongs to at most one team (`Teams`).
- **The singleton posting rule.** `create` overwrites the one existing row.
  Unknown ids give NotFound (`PostingRules`).

Each service is a class. Its fields are the tables it writes, and a table it
only reads is a `const`. Time is an integer number of milliseconds:
`addDays(t, k)` is `t + k * DAY` and `isAfter` is a strict `>`. Every
loop-carrying method is proved equal to a specification function. The
properties are proved as lemmas about those functions.

Shared definitions:

- `Common`: Option/Result, ASCII case mapping and order-preserving dedup.
- `Entities`: the records and the lookups by id, Instagram handle and
  permalink.

Where the code and its documentation disagree, the model follows the code:

- `pauseUserWarnings(u, null)` does not clear the pause date. `null ||
  undefined` makes the ORM drop the column from the update. The user row has
  no update-date or version column, so nothing is left to set, and the
  update is refused with an error. The date stays as it was.
- Clearing or pausing an unknown user updates nothing and raises no error.
- The terminal skip looks for an active level-3 row, not at
  `warningEscalated`.
- Inactivity is measured on an activity row's `createdAt`, joined by user id.
- The compliance report counts rows by their upper-cased media type.
  Ingestion stores normalised types (`post`, `reel`), so those rows are never
  counted as posts or reels.

## Model

| member | source | states |
|---|---|---|
| Common.Dedup | src/teams/teams.service.ts:26 | `[...new Set(ids)]`: the result has no repeats, holds exactly the ids of the input and is no longer than it |
| Common.DedupOfDistinct | src/teams/teams.service.ts:26 | deduplicating a list without repeats gives it back unchanged |
| Common.Lower | src/instagram-webhook/tagged-media.service.ts:583 | `toLowerCase` restricted to ASCII: keeps the length, lower-cases each ASCII capital and leaves every other character alone (non-ASCII letters: see Left out) |
| Common.Upper | src/analytics/analytics.service.ts:59 | `toUpperCase` restricted to ASCII: keeps the length, upper-cases each ASCII lower-case letter and leaves every other character alone (non-ASCII letters: see Left out) |
| Common.LowerIdempotent | src/instagram-webhook/tagged-media.service.ts:583 | lower-casing twice is lower-casing once |
| Entities.FindUser | src/manual-activity/manual-activity.service.ts:21 | the user with the id, or None exactly when no stored user has it |
| Entities.FindUserByInstagram | src/instagram-webhook/instagram-webhook.controller.ts:318-320 | a user whose `instagram` is the handle, or None exactly when no user has it |
| Entities.MembersOf | src/teams/teams.service.ts:94 | the membership rows of a team are exactly the table's rows with that team id |
| Entities.AppendFreshPermalink | src/instagram-webhook/tagged-media.service.ts:518-525 | appending a record whose permalink is not yet stored keeps permalinks unique |
| MediaTypes.NormalizeMediaType | src/instagram-webhook/tagged-media.service.ts:582-593 | image and carousel become post and video becomes reel, case-insensitively; anything else is returned lower-cased; the result is always lower case |
| MediaTypes.NormalizeIdempotent | src/instagram-webhook/tagged-media.service.ts:582-593 | normalising twice is normalising once |
| MediaTypes.NormalizeIgnoresCase | src/webhooks/instagram-webhook.controller.ts:160-171 | inputs that differ only in ASCII case normalise alike |
| MediaTypes.NormalizedNeverUpperKey | src/instagram-webhook/instagram-webhook.controller.ts:397-408 | a normalised type is never one of the report keys STORY, IMAGE or VIDEO |
| InstagramLinks.HandleRun | src/instagram-webhook/tagged-media.service.ts:609 | the longest prefix made of `[A-Za-z0-9._-]` characters |
| InstagramLinks.StripTrailingSlash | src/instagram-webhook/tagged-media.service.ts:603-605 | exactly one trailing `/` is removed, and a link without one is unchanged |
| InstagramLinks.FirstPrefix | src/instagram-webhook/tagged-media.service.ts:609 | the first listed host prefix of the text, or None exactly when no listed prefix starts it |
| InstagramLinks.HostOf | src/instagram-webhook/tagged-media.service.ts:609 | the matched `http(s)://(www.)instagram.com/` prefix, or None when the link starts with none of the four |
| InstagramLinks.ExtractInstagramUsernameFromLink | src/instagram-webhook/tagged-media.service.ts:596-621 | an empty link gives null, and a result is always a non-empty handle |
| InstagramLinks.ExtractFollowsHost | src/instagram-webhook/tagged-media.service.ts:603-616 | a link without an Instagram host gives null; a result directly follows the host in the stripped link |
| InstagramLinks.ExtractRoundTrip | src/instagram-webhook/tagged-media.service.ts:596-621 | a host followed by a handle and then a non-handle character (or the end) extracts to exactly that handle |
| InstagramLinks.ExtractAfterHost | src/instagram-webhook/tagged-media.service.ts:609-616 | after the host the result is the handle run, or null when the run is empty |
| InstagramLinks.HostOfPrefix | src/instagram-webhook/tagged-media.service.ts:609 | each of the four prefixes is recognised as itself, whatever follows |
| InstagramLinks.HandleRunOfHandle | src/instagram-webhook/tagged-media.service.ts:609 | a handle followed by a non-handle character (or the end) is matched exactly |
| WarningRules.UserWarnings | src/warnings/warnings.service.ts:70 | the user's warning rows: all of them, and only those |
| WarningRules.FindActive | src/warnings/warnings.service.ts:77-79 | an active row of the level, or None exactly when the user has none |
| WarningRules.CountInRange | src/warnings/warnings.service.ts:27-32 | the count is positive iff some row of the user was created within `[start, end]`, bounds included |
| WarningRules.HasActivityInRange | src/warnings/warnings.service.ts:27-32 | true iff the user has an activity row created within `[start, end]` |
| WarningRules.CountKind | src/warnings/warnings.service.ts:37-53 | the number of the user's rows of one media type in the span, at most the rows in the span |
| WarningRules.CeilDiv | src/warnings/warnings.service.ts:43 | `Math.ceil(a / b)`: the least r with a <= r * b |
| WarningRules.Weeks | src/warnings/warnings.service.ts:43 | at least one week, enough weeks to cover the span, and no more than needed when above one |
| WarningRules.IsNonCompliantSince | src/warnings/warnings.service.ts:34-62 | compliant iff the story, post and reel counts each reach the weekly quota times the number of weeks |
| WarningRules.Step | src/warnings/warnings.service.ts:76-127 | the rules in source order: nothing on an active level 3; level 1 iff there is no active level 1 and no activity in the trailing window; level 2 only on an active level 1 and no active level 2 after the second grace period, with level 1's window, and always when those hold and the user stayed inactive since that window start; level 3 only on an active level 2; level 3 by inactivity only after the third grace period, over `level1?.windowStart \|\| windowStart`, and always when level 1 is active, the third grace has passed and the user stayed inactive; level 3 by non-compliance exactly when level 1 and the inactivity path did not fire, the non-compliance grace has passed, the user posted since level 2 and fails the quota check; every inactivity warning certifies no activity in its window |
| WarningRules.Decide | src/warnings/warnings.service.ts:68-82 | a user outside the query (active ambassadors), a paused user or a user with an active level 3 gets nothing; a level is issued only with no active row at that level, level 2 only on an active level 1, level 3 only on an active level 2 |
| WarningRules.PassWarningsStep | src/warnings/warnings.service.ts:73 | the pass appends each user's row in table order |
| WarningRules.PassRows | src/warnings/warnings.service.ts:73-128 | every row of a pass comes from one user's decision, and a pass appends at most one row per user |
| WarningRules.PassRowsDistinctUsers | src/warnings/warnings.service.ts:89 | each issuance is followed by `continue`, so no two rows of one pass belong to the same user |
| WarningRules.NoActiveInTable | src/warnings/warnings.service.ts:77-79 | no active row at a level in the user's rows means none in the table |
| WarningRules.PassPreservesUniqueActive | src/warnings/warnings.service.ts:77-99 | a pass keeps at most one active warning per level per user |
| WarningRules.PassPreservesChained | src/warnings/warnings.service.ts:93-121 | a pass keeps every active level 2 or 3 on an active warning one level below |
| WarningRules.PausedUserGetsNothing | src/warnings/warnings.service.ts:74 | a user paused until after `now` gets no warning in the pass |
| WarningRules.UserWarningsAppend | src/warnings/warnings.service.ts:70 | a user's rows of a concatenated table are the rows of each part |
| WarningRules.FindActiveAppend | src/warnings/warnings.service.ts:77-79 | looking up an active row in a concatenation finds the first part's row first |
| WarningRules.PassRowsOfUser | src/warnings/warnings.service.ts:73-128 | the rows of one user in a pass are exactly that user's decision's row |
| WarningRules.NoRowsOfAbsentUser | src/warnings/warnings.service.ts:68-71 | a user not in the query gets no rows |
| WarningRules.NoLevelTwoWithoutLevelOne | src/warnings/warnings.service.ts:92-93 | under the chain invariant a user with no active level 1 has no active level 2 |
| WarningRules.NoStepRightAfterIssue | src/warnings/warnings.service.ts:94-107 | with non-negative grace periods no rule fires at the instant of the previous warning |
| WarningRules.DecideAgainIsNoAction | src/warnings/warnings.service.ts:73-128 | re-deciding a user after its own new row is added gives nothing |
| WarningRules.PassOfNoActions | src/warnings/warnings.service.ts:73-128 | a pass where no user gets a decision adds no rows |
| WarningRules.SecondPassIssuesNothing | src/warnings/warnings.service.ts:64-129 | a second pass at the same instant issues nothing: evaluation is idempotent |
| WarningRules.DecideDependsOnOwnRows | src/warnings/warnings.service.ts:76-79 | a user's decision reads only the user's own warning rows |
| WarningRules.EscalatedFlagNotRead | src/warnings/warnings.service.ts:82 | the terminal skip does not read `warningEscalated`: flipping it changes no decision |
| WarningRules.Deactivate | src/warnings/warnings.service.ts:160 | every row of the user becomes inactive, no row is deleted, other users' rows are unchanged |
| WarningRules.DeactivatePreservesInvariants | src/warnings/warnings.service.ts:159-162 | clearing keeps both table invariants |
| WarningRules.ClearRestartsAtLevelOne | src/warnings/warnings.service.ts:84-90 | after a clear an eligible, unpaused and still inactive user gets a fresh level 1 |
| Warnings.Template | src/warnings/warnings.service.ts:143-145 | the level-1 or level-2 template, and level 3's for any other level |
| Warnings.PassUsers | src/warnings/warnings.service.ts:148-150 | the user table after a pass: each user updated by its own decision, length kept |
| Warnings.SetEscalated | src/warnings/warnings.service.ts:149 | only the user's `warningEscalated` changes |
| Warnings.SetPausedUntil | src/warnings/warnings.service.ts:165 | only the user's `warningPausedUntil` changes |
| Warnings.PauseSilencesUser | src/warnings/warnings.service.ts:74 | after pausing a user past `now`, the next pass gives that user nothing |
| Warnings.PassMailStep | src/warnings/warnings.service.ts:146 | the pass mails each user's messages in table order |
| Warnings.UsersAfter | src/warnings/warnings.service.ts:73-128 | the user table part-way through a pass keeps its ids and length |
| Warnings.PassUsersStep | src/warnings/warnings.service.ts:148-150 | one more user of the pass updates that user's row |
| Warnings.EscalateInPlace | src/warnings/warnings.service.ts:149 | with distinct ids, updating one position is updating the user with that id |
| Warnings.UsersAfterStep | src/warnings/warnings.service.ts:148-150 | a user's turn touches only that user's row |
| Warnings.PassDone | src/warnings/warnings.service.ts:73-128 | after the last turn the tables are those of the whole pass, and user ids stay distinct |
| Warnings.WarningsService.IssueWarning | src/warnings/warnings.service.ts:131-151 | one active row sent now is saved, the level's template is mailed, and only a level 3 sets `warningEscalated` |
| Warnings.WarningsService.EscalateToAdmins | src/warnings/warnings.service.ts:153-157 | one admin notice is sent and no table changes |
| Warnings.WarningsService.EvaluateUser | src/warnings/warnings.service.ts:74-127 | one user's turn saves, mails and flags exactly what the user's decision says |
| Warnings.WarningsService.ApplyRules | src/warnings/warnings.service.ts:84-127 | the three rules for a user without an active level 3 do what `Step` decides |
| Warnings.WarningsService.TakeTurn | src/warnings/warnings.service.ts:73-128 | turn `i` extends the warnings, mails and users of the first `i` users to the first `i + 1` |
| Warnings.WarningsService.EvaluateAndSend | src/warnings/warnings.service.ts:64-129 | a pass appends the pass's warnings, mails, and flags users as the decisions on the starting snapshot say; the per-level uniqueness and chain invariants are kept |
| Warnings.WarningsService.ClearUserWarnings | src/warnings/warnings.service.ts:159-162 | all of the user's warnings become inactive and `warningEscalated` is reset, no mail is sent and the invariants are kept |
| Warnings.WarningsService.PauseUserWarnings | src/warnings/warnings.service.ts:164-166 | a date sets `warningPausedUntil` of that user only; null is refused with the ORM's update-values-missing error and changes nothing |
| Analytics.CountedTypes | src/analytics/analytics.service.ts:40-50 | a type is listed iff some row of the user's handle with a timestamp in `[from, to]` has exactly that type; no more entries than rows |
| Analytics.CountType | src/analytics/analytics.service.ts:43-49 | a group's count is positive iff some counted row has exactly that media type |
| Analytics.CountTypeIsGroupSize | src/analytics/analytics.service.ts:43-49 | `COUNT(*)` of a group is the number of counted rows whose media type is exactly that type |
| Analytics.GroupCounts | src/analytics/analytics.service.ts:40-50 | one row per distinct media type among the counted rows, each carrying its positive count, and no type missing |
| Analytics.CountMapOf | src/analytics/analytics.service.ts:52-60 | the map always holds STORY, IMAGE and VIDEO, and every row's upper-cased type |
| Analytics.FoldCounts | src/analytics/analytics.service.ts:58-60 | the loop computes the count map of the rows |
| Analytics.LastRowWins | src/analytics/analytics.service.ts:58-60 | a key holds the count of the last row that upper-cases to it |
| Analytics.UntouchedKeyIsZero | src/analytics/analytics.service.ts:52-56 | a category no row upper-cases to reports 0 |
| Analytics.Expected | src/analytics/analytics.service.ts:74-78 | the rule's three quotas, or 3/1/1 without a rule |
| Analytics.VerdictOf | src/analytics/analytics.service.ts:80-82 | green iff actual >= expected |
| Analytics.ComplianceOf | src/analytics/analytics.service.ts:69-83 | actual reads STORY, IMAGE and VIDEO; each category is green iff its actual reaches its expected |
| Analytics.ComputeCompliance | src/analytics/analytics.service.ts:40-83 | the per-user body computes the report of the handle over the period |
| Analytics.GenerateWeeklyCompliance | src/analytics/analytics.service.ts:27-88 | exactly one summary per user, in table order, each the user's report |
| Analytics.GetUserWeeklyCompliance | src/analytics/analytics.service.ts:90-142 | an unknown user fails with 'User not found'; a known user gets its report |
| Analytics.FindTeamByLeader | src/analytics/analytics.service.ts:153-158 | a team led by the user, or None exactly when no team is |
| Analytics.GetTeamCompliance | src/analytics/analytics.service.ts:144-209 | no team with that leader gives `[]`; otherwise one summary per membership row, each the member's report |
| Analytics.MemberUsers | src/analytics/analytics.service.ts:165-170 | the stored user behind each membership row |
| Analytics.NoHandleReportsZero | src/analytics/analytics.service.ts:44 | a user without a handle reports zero in every category |
| Analytics.NoCountedRows | src/analytics/analytics.service.ts:44 | with no handle no row is counted |
| Analytics.LowerOfCapitals | src/analytics/analytics.service.ts:59 | a lower-case word that upper-cases to capitals is that word in lower case |
| Analytics.UpperOfLowerCase | src/analytics/analytics.service.ts:59 | the only lower-case spellings of IMAGE and VIDEO are `image` and `video` |
| Analytics.NormalizedStoreReportsNoPostsOrReels | src/analytics/analytics.service.ts:70-72 | over a store of normalised media types the report shows 0 posts and 0 reels |
| Analytics.CountedTypeIsStored | src/analytics/analytics.service.ts:40-50 | a counted type occurs in the store |
| Analytics.StoriesCountOneSpelling | src/analytics/analytics.service.ts:58-60 | the stories figure is 0 or the count of a single spelling of STORY, never a sum |
| Analytics.LastMatching | src/analytics/analytics.service.ts:58-60 | some last row upper-cases to the key |
| Analytics.CaseVariantsAreNotSummed | src/analytics/analytics.service.ts:58-60 | two `story` rows and one `Story` row report 1 story, not 3 |
| TaggedMedia.ValidateConfiguration | src/instagram-webhook/tagged-media.service.ts:66-83 | valid iff the account id and the token are both set; one error per missing item, the account id's first |
| TaggedMedia.FirstByLink | src/instagram-webhook/tagged-media.service.ts:539-551 | a user whose link names the handle, or None exactly when none does |
| TaggedMedia.FirstByLinkIsFirst | src/instagram-webhook/tagged-media.service.ts:539-551 | the search returns the first such user in table order |
| TaggedMedia.MatchUser | src/instagram-webhook/tagged-media.service.ts:529-551 | a user matched by `instagram` first, else by link; None iff neither matches |
| TaggedMedia.RecordOf | src/instagram-webhook/tagged-media.service.ts:565-572 | the stored record has the normalised type, the permalink, `userInstagramId` set to the username, the timestamp and the matched user |
| TaggedMedia.Ingest | src/instagram-webhook/tagged-media.service.ts:484-572 | incomplete media or a stored permalink leave the store unchanged; otherwise exactly one record is appended |
| TaggedMedia.IngestTwiceIsIngestOnce | src/instagram-webhook/tagged-media.service.ts:518-525 | ingesting the same media again changes nothing |
| TaggedMedia.IngestKeepsPermalinksUnique | src/instagram-webhook/tagged-media.service.ts:518-572 | ingestion never stores a second record for a permalink |
| TaggedMedia.MatchByProfileLink | src/instagram-webhook/tagged-media.service.ts:539-551 | a user whose profile link is an Instagram URL of the handle is matched |
| TaggedMedia.RunProcessedBounds | src/instagram-webhook/tagged-media.service.ts:401-415 | the processed count never exceeds the items, and equals them when no save fails |
| TaggedMedia.RunContinuesAfterFailure | src/instagram-webhook/tagged-media.service.ts:405-415 | a failing item does not stop the loop: a later fresh item is still stored |
| TaggedMedia.RunKeepsPermalinksUnique | src/instagram-webhook/tagged-media.service.ts:401-415 | a poll only appends, and keeps permalinks unique |
| TaggedMedia.TaggedMediaService.FindByLink | src/instagram-webhook/tagged-media.service.ts:539-551 | the loop finds the first user whose link names the handle |
| TaggedMedia.TaggedMediaService.ProcessTaggedMedia | src/instagram-webhook/tagged-media.service.ts:481-579 | throws exactly when a fresh item's save fails, changing nothing; otherwise the store becomes the ingested store |
| TaggedMedia.TaggedMediaService.CheckForTaggedMedia | src/instagram-webhook/tagged-media.service.ts:345-479 | an invalid configuration processes nothing and reports 0; a failed fetch stores nothing; otherwise every item is processed in order and `processed` counts those that did not throw |
| InstagramWebhook.Coalesce | src/instagram-webhook/instagram-webhook.controller.ts:24-26 | `plural ?? singular ?? 0` |
| InstagramWebhook.MapToPluralKeys | src/instagram-webhook/instagram-webhook.controller.ts:22-28 | each count prefers the plural key, then the singular one, then 0 |
| InstagramWebhook.MapToPluralKeysIsStable | src/instagram-webhook/instagram-webhook.controller.ts:22-28 | mapping an already-plural object again gives it back, whatever its singular keys |
| InstagramWebhook.VerifyWebhook | src/instagram-webhook/instagram-webhook.controller.ts:360-376 | the challenge iff `subscribe` with the configured non-empty token; 400 when the mode or token is missing; 403 otherwise |
| InstagramWebhook.UnsetVerifyTokenNeverVerifies | src/instagram-webhook/instagram-webhook.controller.ts:47 | with no configured token no request verifies |
| InstagramWebhook.SaveMessagesKeepsWellFormed | src/instagram-webhook/instagram-webhook.controller.ts:209-232 | a delivery only appends, and every stored message keeps a non-empty sender, text and mid, with mids unique |
| InstagramWebhook.SaveMessageEntriesKeepsWellFormed | src/instagram-webhook/instagram-webhook.controller.ts:209-234 | the same over all entries of a payload |
| InstagramWebhook.RedeliveredMessageIgnored | src/instagram-webhook/instagram-webhook.controller.ts:216-228 | delivering the same event again stores nothing new |
| InstagramWebhook.EventTime | src/instagram-webhook/instagram-webhook.controller.ts:261-263 | the event's timestamp when present, else `now` |
| InstagramWebhook.SaveStoriesDone | src/instagram-webhook/instagram-webhook.controller.ts:264-277 | an event's story mentions are all saved iff each has a url and the event a sender, then one `story` row each; the store only grows |
| InstagramWebhook.StoryMentionsMayRepeat | src/instagram-webhook/instagram-webhook.controller.ts:266-276 | story mentions are not deduplicated: the same url twice gives two rows with one permalink |
| InstagramWebhook.FirstReply | src/instagram-webhook/instagram-webhook.controller.ts:296-306 | some media iff one of the attempts in the range succeeds, and then that attempt's media |
| InstagramWebhook.FetchedMedia | src/instagram-webhook/instagram-webhook.controller.ts:294-306 | the fetch succeeds iff one of the first three attempts does |
| InstagramWebhook.FetchUsesThreeAttempts | src/instagram-webhook/instagram-webhook.controller.ts:294-306 | only the first three attempts matter |
| InstagramWebhook.StoreMention | src/instagram-webhook/instagram-webhook.controller.ts:310-331 | a row is appended iff media was fetched, the sender is known and the permalink is new; the row has the normalised type and the user matched by instagram |
| InstagramWebhook.MentionEffect | src/instagram-webhook/instagram-webhook.controller.ts:283-347 | only a `mentions` change can add a row, and it adds at most one |
| InstagramWebhook.SaveMentionsKeepsPermalinksUnique | src/instagram-webhook/instagram-webhook.controller.ts:310-316 | mention handling never stores a second row for a permalink |
| InstagramWebhook.NonMentionChangesAddNothing | src/instagram-webhook/instagram-webhook.controller.ts:337-347 | comments and other changes add nothing |
| InstagramWebhook.InstagramWebhookController.HandleMessages | src/instagram-webhook/instagram-webhook.controller.ts:199-241 | always `ok`; the message table becomes the payload's saved messages, and activities are untouched |
| InstagramWebhook.InstagramWebhookController.FetchWithRetry | src/instagram-webhook/instagram-webhook.controller.ts:294-306 | the retry loop returns the first success among three attempts |
| InstagramWebhook.InstagramWebhookController.SaveStoryMentions | src/instagram-webhook/instagram-webhook.controller.ts:258-279 | the loop saves the event's story rows and reports an abort exactly when a save throws |
| InstagramWebhook.InstagramWebhookController.ProcessMention | src/instagram-webhook/instagram-webhook.controller.ts:286-335 | one change has the effect of `MentionEffect` |
| InstagramWebhook.InstagramWebhookController.HandleWebhook | src/instagram-webhook/instagram-webhook.controller.ts:245-356 | always `ok`, a body without `entry` included; the activity table becomes the payload's saved rows |
| Webhooks.VerifySubscription | src/webhooks/instagram-webhook.controller.ts:61-71 | the challenge iff `subscribe` with the configured token, else the text 'Invalid verify token'; nothing throws |
| Webhooks.UnsetTokenAcceptsEmptyToken | src/webhooks/instagram-webhook.controller.ts:61-71 | an unset token is matched by an empty one, unlike the `/webhook` handshake |
| Webhooks.MentionOnce | src/webhooks/instagram-webhook.controller.ts:85-124 | only a `mentions` change whose single fetch succeeds can add a row, at most one |
| Webhooks.FailedMentionDoesNotStopLater | src/webhooks/instagram-webhook.controller.ts:122-124 | a failed mention is skipped and later changes are handled as without it |
| Webhooks.SaveChangesKeepsPermalinksUnique | src/webhooks/instagram-webhook.controller.ts:98-104 | the handler only appends and never stores a second row for a permalink |
| Webhooks.SaveChangeEntriesKeepsPermalinksUnique | src/webhooks/instagram-webhook.controller.ts:77-140 | the same over all entries |
| Webhooks.NoMentionsNoRows | src/webhooks/instagram-webhook.controller.ts:127-137 | a payload without `mentions` changes adds nothing |
| Webhooks.RetryRecoversWhatSingleFetchLoses | src/webhooks/instagram-webhook.controller.ts:93 | where the first request fails and the second succeeds, this handler stores nothing and the `/webhook` one stores the mention |
| Webhooks.WebhooksController.HandleWebhook | src/webhooks/instagram-webhook.controller.ts:74-143 | always `ok`; the activity table becomes the payload's saved rows |
| Teams.FindTeam | src/teams/teams.service.ts:118-122 | the team with the id, or None exactly when no team has it |
| Teams.RowsOfUsers | src/teams/teams.service.ts:33-36 | the membership rows, in any team, of the given users |
| Teams.InOtherTeams | src/teams/teams.service.ts:147-149 | the rows whose team is not the given one |
| Teams.NewRows | src/teams/teams.service.ts:43-50 | one row in the team for each given id that is a stored user; unknown ids are dropped |
| Teams.NewRowsOneTeam | src/teams/teams.service.ts:43-50 | the new rows name each user once |
| Teams.NewRowsFromUsers | src/teams/teams.service.ts:43 | each new row's user is stored |
| Teams.AppendOneTeam | src/teams/teams.service.ts:52 | joining row sets without shared users keeps one team per user |
| Teams.OtherTeamsOneTeam | src/teams/teams.service.ts:158 | removing a team's rows keeps one team per user |
| Teams.CreateKeepsOneTeam | src/teams/teams.service.ts:33-52 | `create` keeps "each user has at most one membership row" |
| Teams.UpdateKeepsOneTeam | src/teams/teams.service.ts:142-164 | `update` keeps "each user has at most one membership row" |
| Teams.OwnMembersPassUpdateCheck | src/teams/teams.service.ts:147-151 | re-submitting the team's own members is never rejected |
| Teams.NoOtherTeamRows | src/teams/teams.service.ts:147-149 | rows of the team itself are never in other teams |
| Teams.ReplaceTeam | src/teams/teams.service.ts:132 | saving a team replaces only the row with its id |
| Teams.DropTeam | src/teams/teams.service.ts:172 | deleting keeps exactly the teams with other ids |
| Teams.DropTeamKeepsIdsDistinct | src/teams/teams.service.ts:172 | deletion keeps team ids distinct |
| Teams.InsertKeepsKeys | src/teams/teams.service.ts:45-52 | a new team with a fresh id and rows for stored users keeps the keys and links |
| Teams.ReplaceRowsKeepsLinks | src/teams/teams.service.ts:158-164 | replacing a team's rows keeps every row linked to a stored team and user |
| Teams.ReplaceTeamKeepsLinks | src/teams/teams.service.ts:132 | saving a team keeps the keys and links |
| Teams.DropKeepsLinks | src/teams/teams.service.ts:170-174 | deleting a team's rows and then the team keeps every remaining row linked |
| Teams.People | src/teams/teams.service.ts:106-111 | one entry per membership row, carrying its user's id and name |
| Teams.TeamsService.Create | src/teams/teams.service.ts:24-55 | fewer than 1 or more than 50 distinct ids, an already assigned member or an unknown leader are rejected with nothing saved, in that order; a request passing all three checks always succeeds, adding one team and one row per stored distinct member |
| Teams.TeamsService.InsertTeam | src/teams/teams.service.ts:45-52 | appends the team with the next id and its membership rows |
| Teams.TeamsService.Update | src/teams/teams.service.ts:117-168 | unknown team or new leader fail with nothing saved; a non-empty name and a found leader are saved before the member checks; a member list is checked for size and other teams, and on success replaces the team's rows |
| Teams.TeamsService.SaveTeam | src/teams/teams.service.ts:132 | replaces the team's row, nothing else |
| Teams.TeamsService.ReplaceMembers | src/teams/teams.service.ts:158-164 | deletes the team's rows and adds one per stored user |
| Teams.TeamsService.Remove | src/teams/teams.service.ts:170-174 | deletes the team's membership rows and the team |
| Teams.TeamsService.FindOne | src/teams/teams.service.ts:91-115 | NotFound exactly for an unknown id; otherwise the team's name, leader and one entry per membership row with the member's user id and name |
| PostingRules.TextOr | src/posting-rules/posting-rules.service.ts:27 | `text || ''` |
| PostingRules.ApplyCreate | src/posting-rules/posting-rules.service.ts:23-28 | `create` keeps the row's id |
| PostingRules.ApplyUpdate | src/posting-rules/posting-rules.service.ts:50 | exactly the fields present in the request are overwritten |
| PostingRules.UpdateLaws | src/posting-rules/posting-rules.service.ts:50 | an empty update changes nothing, and applying one twice is applying it once |
| PostingRules.CreateSetsExpectedQuotas | src/posting-rules/posting-rules.service.ts:23-28 | after `create` the reports expect exactly the given quotas |
| PostingRules.ViewOf | src/posting-rules/posting-rules.service.ts:37-43 | a listed row shows the stored fields, with a null text as `''` |
| PostingRules.CreateThenListShowsText | src/posting-rules/posting-rules.service.ts:27 | after `create` the listed text is the given one or `''` |
| PostingRules.IndexOfRule | src/posting-rules/posting-rules.service.ts:47 | the first row with the id, or None exactly when there is none |
| PostingRules.RemoveDeletesExactlyThatRow | src/posting-rules/posting-rules.service.ts:65 | with distinct ids, cutting out the found row deletes exactly the rows with its id |
| PostingRules.PostingRulesService.Create | src/posting-rules/posting-rules.service.ts:16-32 | an empty table fails with NotFound; otherwise the first row is overwritten and no row is inserted |
| PostingRules.PostingRulesService.FindAll | src/posting-rules/posting-rules.service.ts:34-44 | one view per row, in table order |
| PostingRules.PostingRulesService.FindOne | src/posting-rules/posting-rules.service.ts:55-59 | NotFound iff no row has the id; otherwise a row with the id |
| PostingRules.PostingRulesService.Update | src/posting-rules/posting-rules.service.ts:46-53 | NotFound and nothing changed for an unknown id; otherwise only that row takes the request's fields |
| PostingRules.PostingRulesService.Remove | src/posting-rules/posting-rules.service.ts:61-67 | NotFound for an unknown id; otherwise exactly the row with the id is deleted |
| ManualActivity.ManualPermalink | src/manual-activity/manual-activity.service.ts:29 | the permalink starts with `manual_` and the media type and ends with the timestamp text |
| ManualActivity.ManualPermalinkDeterminesTimestamp | src/manual-activity/manual-activity.service.ts:29 | for one type and user, two timestamp texts give equal permalinks iff they are equal |
| ManualActivity.ManualRecord | src/manual-activity/manual-activity.service.ts:27-33 | the record is linked to the user, with `userInstagramId` set to the handle or `''` |
| ManualActivity.LinkedTo | src/manual-activity/manual-activity.service.ts:40 | exactly the activities linked to the user, with multiplicity |
| ManualActivity.InsertNewestFirst | src/manual-activity/manual-activity.service.ts:41 | inserting into a list sorted latest first keeps it sorted and adds exactly the element |
| ManualActivity.SortNewestFirst | src/manual-activity/manual-activity.service.ts:41 | a permutation of the input, latest first |
| ManualActivity.ManualActivityService.CreateManualActivity | src/manual-activity/manual-activity.service.ts:17-36 | an unknown user fails with NotFound and nothing is stored; otherwise exactly one record is appended, with no permalink check |
| ManualActivity.ManualActivityService.GetManualActivities | src/manual-activity/manual-activity.service.ts:38-43 | every activity linked to the user, manual or not, latest first |
| ManualActivity.CreatedRecordIsListed | src/manual-activity/manual-activity.service.ts:17-43 | a created record is listed for its user |
| ManualActivity.RepeatedRequestDuplicates | src/manual-activity/manual-activity.service.ts:27-35 | the same request twice stores two records with one permalink |
| ManualActivity.ManualTypesCountOnlyAsStories | src/manual-activity/dto/create-manual-activity.dto.ts:10 | of the accepted types only `story` is counted by the report, and `post` and `reel` never reach IMAGE or VIDEO |

## Left out

- HTTP calls to the Graph API are parameters. A media fetch is a sequence of replies, one per attempt. The poll's fetch is a `Fetch` value. Connection and credential tests, `debugUserMapping` and the setup scripts are not modelled.
- The back-off delays of the retry loop, the hourly cron schedule and the warnings cron job are timing only.
- Logging, `console` output and `safeStringify` are not modelled.
- `MailerService` is a ghost outbox of mails. Mail delivery itself is not modelled.
- Dates are integer milliseconds. ISO parsing, invalid `Date` values, time zones and the calendar defaults of the report period (start of week, last seven days) are left out. The period is a parameter.
- Team ids are uuids in the source. Here they come from a counter, so they are fresh.
- Error texts are modelled where the source fixes them. The ORM's own errors are modelled as one `Failure` value: `findOneByOrFail` on a missing leader, and the plain `Error('User not found')`.
- Database failures are modelled only for the save in `processTaggedMedia`, as a set of failing item indices, and for the NOT NULL columns of a story mention. Other store failures are not modelled.
- Teams `findAll` and the summary fields `photoUrl` and `edits` are display only.
- DTO validation pipes do not run in the model. The accepted manual media types are a predicate with a lemma about it.
- Configuration lookups are inputs: verify tokens, account id, token and the warning config row.
- The comment branch of both webhook handlers only logs. It is modelled as adding nothing.
- Concurrency between requests is not modelled. Each operation runs on its own.
- WarningRules.CountKind: its contract only bounds the per-type count by the rows in the span. The exact count is its definition, which `IsNonCompliantSince` compares with the quotas.
- Common.Lower and Common.Upper: case mapping covers ASCII letters only. JavaScript also maps non-ASCII letters (`"É"` to `"é"`), and `toUpperCase` can lengthen a string (`"ß"` to `"SS"`). Media-type normalisation and the report's upper-cased keys inherit this restriction.
- Analytics.GroupCounts: SQL gives no order for the rows of a `GROUP BY`. The model lists groups in order of first occurrence in the store. When case variants overwrite each other in the count map, which variant's count survives depends on that order (LastRowWins, StoriesCountOneSpelling, CaseVariantsAreNotSummed).
- `Warning.sentAt` and `Activity.createdAt` are filled by the database clock in the source. The model sets them to the `now` parameter of the operation (IssueWarning, RecordOf, StoryRecord, ManualRecord). An evaluation pass run with a `now` other than the clock would see other grace periods.
- The user entity declares no `link` column and no `warnings` relation. The model adds both to the user record. Under the entity as declared, `u.link || ''` is always empty, so the profile-link match (MatchByProfileLink) never fires.
- Teams.TeamsService.FindOne: the membership row's own uuid (`id: tm.id`) and the team's `createdAt` are not part of the view. Membership rows carry no id of their own in the model, and creation times are not modelled for teams.
