# twitter-monitor, modelled in Dafny

This project models the core of twitter-monitor, a service that polls a social-media API and reports changes to a chat. Each monitor does four things:

- It keeps a stored snapshot of what it watches: a profile, a follow list, a like set or the newest post id.
- It fetches a fresh snapshot on a schedule.
- It compares the two, accepting a change only after debouncing or a noise guard.
- It appends a message to an outbox for every change it accepts.

Around the monitors the model also covers:

- the backoff sleepers;
- the round-robin pool of API credentials;
- the status table that flags silent monitors;
- the arithmetic that turns per-kind rate limits and user weights into polling intervals.

There is one Dafny module per modelled source file. `Wrappers` and `Upstream` model no source file of their own; they hold what several monitors share:

| module | file | what it is |
|---|---|---|
| `Wrappers` | `wrappers.dfy` | `Option`, and `Pow2` for the doubling backoffs |
| `Sleeping` | `sleeper.dfy` | `Sleeper`, with a doubling/halving delay above a floor |
| `Upstream` | `upstream.dfy` | the decoded JSON page shape, and `Gather`, the reference meaning of a paginated fetch over a script of per-attempt answers |
| `TokenRotation` | `twitter_watcher.py` → `twitter_watcher.dfy` | the credential pool: a cursor mod N, at most N attempts, first success wins; the per-token health map |
| `StatusTracking` | `status_tracker.dfy` | the last-report tables and the 30-minute staleness scan |
| `Scheduling` | `main.dfy` | the rate-limit constants, the weight sums, `_get_interval_second` and the job plan |
| `FollowingMonitoring` | `following_monitor.dfy` | the newer follow-list monitor |
| `TwitterFollowing` | `twitter_following_monitor.dfy` | the older follow-list monitor with its own 60-second sleeper |
| `AquaMonitoring` | `aqua_monitor.dfy` | the oldest follow-list watcher; it keeps the old set when it rejects a diff |
| `LikeMonitoring` | `like_monitor.dfy` | the like watermark and the capped set of seen ids |
| `TweetMonitoring` | `tweet_monitor.dfy` | the newest-post watermark |
| `ProfileMonitoring` | `profile_monitor.dfy` | `ElementBuffer` debouncing, the 13-field profile diff, the sub-monitor staleness table |

State that the source changes in place is modelled by classes with the source's fields and `modifies` clauses. Each class method states its new state as a pure function of the old state and the inputs (for example `PushStep`, `Step`, `Detect`, `Gather`, `Alerts`, `Announced`). The properties are then proved about those functions as lemmas.

Inputs stand in for the outside world:

- A network fetch is an input. For a single fetch this is an `Option` value. For a retrying fetch it is a script of per-attempt answers.
- A chat send appends to an `outbox` sequence.
- A clock reading is an integer `now` parameter.
- `random.randrange` is the `start` argument of the credential pool.
- The monitor registry used by the profile monitor is a pair of oracle functions: `present(kind)` and `answer(kind)`.

Behaviour of the code that is easy to misread, as the model states it:

- **ElementBuffer debouncing.** `push` counts consecutive observations that differ from the stored element. It does not check that those observations agree with each other. With threshold 2 and element A, the pushes B then C report A → C (`TwoDifferentMismatchesReport`).
- **Like announcement order.** `watch` walks the fetched list with `reversed`. A newest-first fetch `[200, 190]` is therefore announced as 190 then 200 (`ReverseOrderExample`).
- **Follow-list noise guard.** All three follow-list variants compare the change in size, `|len(old) − len(new)|`. Swapping every user for another therefore always passes the guard (`SameSizeAlwaysPasses`).
- **Replacing the stored set.** The two newer follow-list monitors always replace the stored set. `aqua_monitor.py` keeps the old set when it rejects a diff. Its guard also disagrees with the newer one (`GuardsDisagree`).

## Model

| member | source | states |
|---|---|---|
| Sleeping.Sleeper.constructor | sleeper.py:8-11 | the floor and the delay are the original delay and the normal-round counter is 0 |
| Sleeping.Sleeper.Sleep | sleeper.py:14-24 | the new (delay, counter) is `Step` of the old one; the delay is never below the original; the time slept is the new delay |
| Sleeping.StepKeepsPowerOfFloor | sleeper.py:17-22 | every call keeps the delay of the form original·2^k, so halving is exact and the delay never goes below the original |
| Sleeping.AbnormalDoubles | sleeper.py:20-22 | an abnormal call resets the counter to 0 and doubles the delay |
| Sleeping.RepeatAbnormal | sleeper.py:20-22 | n abnormal calls multiply the delay by 2^n and leave the counter at 0 |
| Sleeping.NormalRunHalvesToFloor | sleeper.py:15-18 | the counter is not reset by halving: past 20 normal calls, each further normal call halves the delay until it reaches the original (k doublings above the floor become max(k − m, 0) after m calls) |
| Sleeping.ShortNormalRunKeepsDelay | sleeper.py:15-17 | while the counter stays at most 20, normal calls never change the delay and only count |
| TokenRotation.TwitterWatcher.constructor | twitter_watcher.py:15-18 | the token list must be non-empty and the starting cursor is in [0, N) |
| TokenRotation.TwitterWatcher.Advance | twitter_watcher.py:23 | the cursor moves to (cursor + 1) mod N and stays in range |
| TokenRotation.TwitterWatcher.Query | twitter_watcher.py:21-35 | the result and the attempt count are those of `Scan`; the tokens tried are, in order, the tokens at cursor+1, cursor+2, … mod N; the cursor ends at (start + attempts) mod N |
| TokenRotation.Scan | twitter_watcher.py:22-35 | a query makes at most N attempts |
| TokenRotation.ScanSpec | twitter_watcher.py:22-35 | every attempt before the last one failed (connection error or non-200); a body is returned exactly when the last attempt answered 200, and it is that answer's body; None exactly when all N attempts failed |
| TokenRotation.Next | twitter_watcher.py:23 | one cursor step is (c + 1) mod N and stays below N |
| TokenRotation.CursorIsMod | twitter_watcher.py:22-23 | after k steps the cursor is (start + k) mod N |
| TokenRotation.TokensDistinct | twitter_watcher.py:22-24 | within one query the attempts use pairwise distinct tokens |
| TokenRotation.FullRoundRestoresCursor | twitter_watcher.py:22-23 | N steps bring the cursor back to where it started |
| TokenRotation.AllFailingQueryRestoresCursor | twitter_watcher.py:22-35 | when every token fails, the query makes N attempts, returns None and leaves the cursor where it started |
| TokenRotation.OneBadTokenStillAnswers | twitter_watcher.py:22-31 | with a single failing token, a query always succeeds within two attempts |
| TokenRotation.TwitterWatcher.CheckToken | twitter_watcher.py:44-57 | the result is the health map of the tokens, probing each once in list order, without using the cursor |
| TokenRotation.HealthSpec | twitter_watcher.py:44-57 | every token, and only the tokens, has an entry; the entry of a token is whether its last probe answered 200 (False on a connection error) |
| StatusTracking.MonitorKey | status_tracker.py:19 | the key is the type, a dash, and the user name |
| StatusTracking.MonitorKeyInjective | status_tracker.py:19-24 | for types without a dash, distinct (type, user) pairs get distinct keys |
| StatusTracking.Updated | status_tracker.py:18-20 | setting a key keeps the existing order as a prefix; an existing key adds nothing (it keeps its position) and a new key is appended at the end; the keys are the old ones plus the set key |
| StatusTracking.UpdatedKeepsOrderedTable | status_tracker.py:18-20 | after an update, the key order still lists each key of the table exactly once |
| StatusTracking.StatusTracker.constructor | status_tracker.py:11-13 | both tables start empty and the last notify time is the creation time |
| StatusTracking.StatusTracker.UpdateMonitorStatus | status_tracker.py:17-20 | the key "{type}-{user}" maps to now; every other entry, the notifier table and the last notify time are unchanged |
| StatusTracking.StatusTracker.GetMonitorStatus | status_tracker.py:22-25 | None exactly for a key that was never set; otherwise the recorded time |
| StatusTracking.StatusTracker.UpdateNotifierStatus | status_tracker.py:27-29 | the notifier maps to now; every other entry, the monitor table and the last notify time are unchanged |
| StatusTracking.StatusTracker.GetNotifierStatus | status_tracker.py:31-33 | None exactly for a notifier that never reported; otherwise the recorded time |
| StatusTracking.StatusTracker.UpdateLastNotifyTime | status_tracker.py:35-37 | only the last notify time changes, to now |
| StatusTracking.StatusTracker.Check | status_tracker.py:39-57 | the alerts are those of the monitor table against now − 30 min, then those of the notifier table against last notify time − 30 min, each in table order; nothing is modified |
| StatusTracking.StatusTracker.CheckAsWritten | status_tracker.py:39-57 | as written, `check` fails as soon as either table has an entry (its log lines serialise datetimes), and returns no alerts otherwise |
| StatusTracking.AlertsExact | status_tracker.py:47-55 | an alert is raised for exactly the listed entries whose time is strictly before the threshold, carrying that time |
| StatusTracking.AlertsAppend | status_tracker.py:45-57 | the alert scan keeps table order: scanning a concatenation concatenates the alerts |
| StatusTracking.CheckMonitorsExact | status_tracker.py:47-50 | a monitor is alerted exactly when its last report is before now − 30 min |
| StatusTracking.CheckNotifiersExact | status_tracker.py:52-55 | a notifier is alerted exactly when its last report is before last notify time − 30 min, whatever now is |
| StatusTracking.FreshReportNotAlerted | status_tracker.py:47-50 | a monitor that has just reported is never alerted |
| Scheduling.Limit | main.py:18-20 | the per-kind limits are Following 1, Like 5, Tweet 60, all positive |
| Scheduling.WeightSums | main.py:71-80 | each of the three sums is the sum of the weights of the users that enable that kind |
| Scheduling.WeightAtMostSum | main.py:71-80 | with non-negative weights, an enabled user's weight is at most its kind's sum |
| Scheduling.CeilDivSpec | main.py:24 | the ceiling c of a/b (b > 0) satisfies c·b ≥ a > (c − 1)·b |
| Scheduling.CeilDivLeast | main.py:24 | any integer whose product with b reaches a is at least the ceiling |
| Scheduling.IntervalSecond | main.py:23-24 | the interval is at least 5; None exactly when the denominator limit·tokens·weight is 0 (Python's ZeroDivisionError) |
| Scheduling.IntervalIsLeast | main.py:23-24 | for a positive denominator the interval is the least integer that is at least 5 and at least 60·sum / denominator |
| Scheduling.IntervalNonIncreasingInDenominator | main.py:24 | a larger positive denominator never lengthens the interval |
| Scheduling.IntervalNonDecreasingInSum | main.py:24 | a larger weight sum never shortens the interval |
| Scheduling.IntervalMonotone | main.py:23-24 | the interval is non-increasing in limit, token count and weight, and non-decreasing in the weight sum |
| Scheduling.UserJobsOf | main.py:98-129 | None exactly when some enabled kind of the user has a zero denominator (the interval raises); otherwise the jobs of `UserJobs`: Following, Like, Tweet, in that order, for the enabled kinds |
| Scheduling.UserJobsSpec | main.py:98-129 | a user gets exactly one job per enabled kind, each computed with its own kind's limit and sum |
| Scheduling.PlanJobs | main.py:71-142 | None exactly when some user has an enabled kind with a zero denominator (the ZeroDivisionError leaves `run` before `scheduler.start()`, so nothing is scheduled); otherwise the jobs of every user in list order, with the weight sums of the whole list |
| Scheduling.PlannedJobsHaveIntervals | main.py:94-129 | in a plan that does not raise, every job has an interval, of at least 5 seconds |
| Scheduling.JobsUseOwnKind | main.py:94-129 | every planned job belongs to a user that enabled its kind and uses that kind's limit and sum |
| Scheduling.EveryEnabledPairScheduled | main.py:94-129 | every enabled (user, kind) pair gets its job |
| Scheduling.ShareOf | main.py:23-24 | one enabled user's interval meets its share of the budget: interval · limit · tokens · weight ≥ 60 · sum |
| Scheduling.Shares | main.py:94-129 | every share of the enabled users of a kind meets its part of the budget |
| Scheduling.SharesWeigh | main.py:71-80 | the weights of the shares of a kind add up to that kind's weight sum |
| Scheduling.RateWithinBudget | main.py:23-24 | shares that each meet their part keep, together, within the budget times their weight over the sum |
| Scheduling.RateWithinWholeBudget | main.py:23-24 | shares whose weights make up the whole sum poll at most budget times a minute |
| Scheduling.AllJobsWithinLimit | main.py:18-24 | with positive weights, all polling jobs of one kind together make at most limit · tokens requests a minute |
| Scheduling.PlanIntervalsAreShares | main.py:94-129 | with positive weights and at least one token, the jobs of one kind poll, in user order, at exactly the intervals of that kind's shares under the same weight sum |
| Scheduling.ScheduledJobsWithinLimit | main.py:18-129 | with positive weights, at least one token and at least one user monitoring the kind, the plan does not raise, its jobs of each kind poll at that kind's share intervals, and together they make at most limit · tokens requests a minute |
| Upstream.AcceptedHttp | twitter_following_monitor.py:76 | an answer yields a page exactly when its status is 200, whatever its body, and the page is that answer's body |
| Upstream.UsernameSet | following_monitor.py:44 | the set holds the `username` of every collected user ('' when the key is missing) and nothing else |
| Upstream.GatherIgnoresTail | following_monitor.py:34-44 | a completed pagination never reads the answers after its last page |
| Upstream.GatherSkipsRetries | following_monitor.py:30-33 | rejected answers before the first page only count as retries and add no users |
| Upstream.GatherAllRetries | following_monitor.py:30-33 | a script that is rejected to its end leaves the pagination unfinished, with every answer counted as a retry |
| Upstream.GatherPageStep | following_monitor.py:36-43 | one accepted page appends its data and either ends the pagination (empty token) or leaves the rest of the script to decide |
| FollowingMonitoring.TooManyChangesIsRealGuard | following_monitor.py:70-72 | the integer guard 2·\|Δsize\| > max(\|old\|, 20) is exactly the Python guard \|Δsize\| > max(\|old\|/2, 10) over the reals |
| FollowingMonitoring.SameSizeAlwaysPasses | following_monitor.py:70-72 | two sets of equal size always pass the guard, however many users were swapped |
| FollowingMonitoring.NoticeEach | following_monitor.py:76-77 | one message of the given kind per user of the set, and no other message |
| FollowingMonitoring.DetectChanges | following_monitor.py:67-82 | no message when the sets are equal or the guard trips; otherwise the Unfollow users are exactly old∖new and the Follow users exactly new∖old, one message each (\|old∖new\| + \|new∖old\| in all), every Unfollow before every Follow |
| FollowingMonitoring.UnfollowsThenFollows | following_monitor.py:73-82 | the two loops together announce the diff, the Unfollows first |
| FollowingMonitoring.Accepted | following_monitor.py:30-33 | an answer is retried exactly when it is falsy (nothing, or an empty object); any other answer is kept unchanged |
| FollowingMonitoring.RequestWithRetry | following_monitor.py:30-33 | returns the first accepted page from the starting attempt and the position after it, or None when the script ends; every retried answer costs exactly one abnormal sleep |
| FollowingMonitoring.RequestPage | following_monitor.py:36-43 | one page request moves the pagination outcome as `Gather` says and the sleeper by one abnormal step per retry |
| FollowingMonitoring.GetAllFollowingUsers | following_monitor.py:27-44 | the result is the username set of every page's data, requested until `next_token` is empty (None when the script ends first); the sleeper took one abnormal step per retried answer |
| FollowingMonitoring.FollowingMonitor.constructor | following_monitor.py:15-19 | a Sleeper(120) and the stored set from the first complete pagination |
| FollowingMonitoring.FollowingMonitor.RunStep | following_monitor.py:84-89 | one normal sleep, one pagination, the diff's messages appended, and the stored set replaced by the new snapshot even when the diff was not announced |
| TwitterFollowing.Sleeper.constructor | twitter_following_monitor.py:16-18 | the delay starts at 60 seconds and the counter at 0 |
| TwitterFollowing.Sleeper.Sleep | twitter_following_monitor.py:21-31 | the new state is `Step` with floor 60; the delay stays 60·2^k, so halving is exact and it is never below 60 |
| TwitterFollowing.SendGetRequest | twitter_following_monitor.py:73-81 | returns the first 200 answer's body and the position after it (None when the script ends); every non-200 answer is followed by exactly one abnormal sleep |
| TwitterFollowing.RequestPage | twitter_following_monitor.py:96-100 | one page request moves the pagination outcome as `Gather` says and the sleeper by one abnormal step per retry |
| TwitterFollowing.GetAllFollowingUsers | twitter_following_monitor.py:90-101 | the result is the username set of every page's data until `next_token` is empty (None when the script ends first) |
| TwitterFollowing.DetectChanges | twitter_following_monitor.py:104-115 | at most two messages: the whole Follow set first, then the whole Unfollow set, each exactly when the diff passes the guard and the set is non-empty; none when the diff is not reported |
| TwitterFollowing.LeadingRejectsExact | twitter_following_monitor.py:76-80 | the first 200 answer of a script comes after exactly `LeadingRejects` non-200 answers |
| TwitterFollowing.Monitor.constructor | twitter_following_monitor.py:58-61 | a fresh 60-second sleeper that took one abnormal step per non-200 answer of the user-id lookup and then one per retried page; the stored set from the first complete pagination |
| TwitterFollowing.Monitor.RunStep | twitter_following_monitor.py:118-127 | one normal sleep, one pagination, the diff's messages appended, and the stored set replaced unconditionally |
| AquaMonitoring.Usernames | aqua_monitor.py:58 | the username set of the collected users, or a KeyError exactly when one of them lacks `username` |
| AquaMonitoring.Delays | aqua_monitor.py:30-40 | n failures sleep n times |
| AquaMonitoring.DelaysDouble | aqua_monitor.py:36-39 | the i-th sleep after consecutive failures is 2^i times the starting delay |
| AquaMonitoring.AquaMonitor.Empty | aqua_monitor.py:11 | the delay starts at 30 seconds |
| AquaMonitoring.AquaMonitor.Init | aqua_monitor.py:10-12 | a monitor exists exactly when the first fetch yields a username set; its stored set is that set and its delay is 30·2^k |
| AquaMonitoring.AquaMonitor.ConnectToEndpoint | aqua_monitor.py:28-41 | returns the first 200 answer's body (None when the script ends); the first failure sleeps without doubling, each failed retry doubles, so the sleeps are 30·2^0, 30·2^1, … and the delay ends at s·2^(failures−1) |
| AquaMonitoring.AquaMonitor.RequestPage | aqua_monitor.py:51-57 | one page request moves the pagination outcome as `Gather` (key-present rule) says and only ever doubles the delay |
| AquaMonitoring.AquaMonitor.GetAllFollowingUsers | aqua_monitor.py:43-58 | the outcome is `FetchOf` the script (data of every page concatenated, stopping when `meta.next_token` is absent); the first request has empty params and each later one only `pagination_token`, holding the `meta.next_token` of the accepted page before it; the delay never decreases |
| AquaMonitoring.Decide | aqua_monitor.py:64-71 | the stored set becomes the new one exactly when the sets differ and the size changed by fewer than 20, else the old one is kept; an accepted change logs new∖old then old∖new, each only when non-empty |
| AquaMonitoring.GuardsDisagree | aqua_monitor.py:64 | on a list of at least 40 users, a size change between 20 and half the list is reported by following_monitor.py but rejected here, keeping the old set |
| AquaMonitoring.SmallSizeChangeAccepted | aqua_monitor.py:64-71 | any two different sets whose sizes differ by fewer than 20 are accepted and log at least one detection |
| AquaMonitoring.AquaMonitor.WorkStep | aqua_monitor.py:60-73 | one fetch, then the stored set and the logged detections move as `Decide` says; a failed fetch changes neither; the delay never decreases |
| LikeMonitoring.LikeIdSet | like_monitor.py:15-16 | the set of the ids of the fetched likes |
| LikeMonitoring.SetMin | like_monitor.py:45 | the minimum of a non-empty set: a member no larger than any member |
| LikeMonitoring.MaxKSpec | like_monitor.py:19-22 | the result is a subset of the input of size min(k, \|input\|) (everything when k = 0, as Python's `[-0:]`), and every kept id is at least every dropped id |
| LikeMonitoring.MaxKIdentity | like_monitor.py:19-22 | with at most k ids nothing is dropped |
| LikeMonitoring.MaxKCapped | like_monitor.py:80-82 | the truncated seen set never holds more than 1000 ids |
| LikeMonitoring.AnnouncedMembers | like_monitor.py:60-68 | a like is announced exactly when it is in the fetch, its id is not in the seen set and it is above the watermark |
| LikeMonitoring.ReverseOrderExample | like_monitor.py:60-68 | a newest-first fetch [200, 190] of new ids is announced 190 first, then 200 |
| LikeMonitoring.NextMinLikeIdMonotone | like_monitor.py:69-71 | the watermark never decreases and moves only after a fetch of more than 150 distinct ids, to their minimum |
| LikeMonitoring.LikeMonitor.constructor | like_monitor.py:39-46 | the watermark is the smallest fetched id (0 for an empty fetch) and the seen set is cache ∪ fetched, truncated to the largest 1000 |
| LikeMonitoring.LikeMonitor.DumpExistingLikeId | like_monitor.py:80-82 | the seen set is truncated to its largest 1000 ids |
| LikeMonitoring.LikeMonitor.AnnounceNew | like_monitor.py:60-68 | the likes sent are `Announced`: the unseen ones above the watermark, from the end of the fetched list to its start; nothing else changes |
| LikeMonitoring.LikeMonitor.Watch | like_monitor.py:56-74 | a failed fetch changes nothing; otherwise the new likes are announced from the end of the list to its start, the watermark moves as `NextMinLikeId` says and the seen set becomes old ∪ fetched, truncated |
| LikeMonitoring.SeenSetBounded | like_monitor.py:72-82 | after a watch the seen set is a subset of old ∪ fetched of at most 1000 ids |
| TweetMonitoring.TweetListParams | tweet_monitor.py:22-26 | `max_results` is always 100 and `since_id` is sent exactly when the watermark is truthy (non-zero), with that value |
| TweetMonitoring.TweetList | tweet_monitor.py:27-30 | None exactly for a failed or empty answer; otherwise `data`, defaulting to [] |
| TweetMonitoring.TweetMonitor.constructor | tweet_monitor.py:14-17 | the watermark is the first post's id, or 0 for an empty list |
| TweetMonitoring.TweetMonitor.Init | tweet_monitor.py:14-20 | set-up fails exactly when the first list is empty (the log line reads its first post); otherwise the watermark is the first post's id |
| TweetMonitoring.TweetMonitor.Watch | tweet_monitor.py:32-40 | the query carries the watermark; a failed answer changes nothing; otherwise one notification per post in list order, and a non-empty list moves the watermark to its first post |
| ProfileMonitoring.ElementBuffer.constructor | profile_monitor.py:82-85 | the element and the threshold are the arguments and the counter is 0 |
| ProfileMonitoring.ElementBuffer.Push | profile_monitor.py:93-103 | the new (element, counter) and the result are those of `PushStep` |
| ProfileMonitoring.PushKeepsInvariant | profile_monitor.py:93-103 | the counter stays below the threshold (or 0) and the threshold never changes |
| ProfileMonitoring.PushReportsIffChanged | profile_monitor.py:93-103 | a push reports exactly when it changes the element, the report is {old element, pushed value}, and a report or an equal value leaves the counter at 0 |
| ProfileMonitoring.SamePushesNeverReport | profile_monitor.py:94-96 | pushing the current element any number of times never reports, keeps the element and resets the counter |
| ProfileMonitoring.MismatchesReachThreshold | profile_monitor.py:97-103 | pushes that differ from the element report nothing while the counter is below the threshold; the push that reaches it reports the change to that pushed value and resets the counter |
| ProfileMonitoring.TwoDifferentMismatchesReport | profile_monitor.py:97-101 | with threshold 2, element A and pushes B then C, the buffer reports A → C |
| ProfileMonitoring.FlappingNameReportsOnce | profile_monitor.py:93-103 | with threshold 2, observations A, B, A, B, B give exactly one report, A → B, at the fifth |
| ProfileMonitoring.ThresholdOneReportsAtOnce | profile_monitor.py:130 | the tweet-count buffer (threshold 1) reports a single differing push at once |
| ProfileMonitoring.ProfileMonitor.constructor | profile_monitor.py:117-144 | the 13 buffers are fresh and distinct, hold the first snapshot, have threshold 1 for the tweet count and 2 elsewhere; every sub-monitor flag is True; the outbox is empty |
| ProfileMonitoring.ProfileMonitor.NewTextBuffers | profile_monitor.py:122-126 | five fresh, distinct buffers holding the text fields with threshold 2 |
| ProfileMonitoring.ProfileMonitor.NewCounterBuffers | profile_monitor.py:127-130 | four fresh, distinct counter buffers; the tweet count's threshold is 1 |
| ProfileMonitoring.ProfileMonitor.NewMediaBuffers | profile_monitor.py:131-134 | four fresh, distinct media buffers with threshold 2 |
| ProfileMonitoring.InitialUpToDateComplete | profile_monitor.py:142-144 | the fresh table has an entry for every sub-monitor kind, all True |
| ProfileMonitoring.TextMessage | profile_monitor.py:158-176 | a text field sends at most one message, about that field |
| ProfileMonitoring.CountMessage | profile_monitor.py:180-202 | a counter sends at most one message, about that field |
| ProfileMonitoring.PhotoMessage | profile_monitor.py:206-214 | the image and banner send at most one message, about that field |
| ProfileMonitoring.OptionMessage | profile_monitor.py:216-222 | the pinned and highlighted tweet send at most one message, about that field |
| ProfileMonitoring.PushProfileConsistent | profile_monitor.py:158-220 | the reports of one tick are exactly the element changes it makes |
| ProfileMonitoring.MessagesOrdered | profile_monitor.py:155-222 | messages come in field order: name, username, location, bio, website, following, like, tweet counts, image, banner, pinned, highlighted |
| ProfileMonitoring.MessagesComplete | profile_monitor.py:155-222 | with consistent reports, a tick sends a message about exactly the changed fields whose counter option (if any) is on, and each message carries the old and new stored element, with the photo list [old, new] for the image and banner |
| ProfileMonitoring.DetectAnnouncesChanges | profile_monitor.py:155-222 | `detect_change_and_update` sends, in field order, one message about each changed and monitored field, each naming its old and new element |
| ProfileMonitoring.MarkStale | profile_monitor.py:186-204 | marking keeps an entry for every sub-monitor kind |
| ProfileMonitoring.MarkStaleCountsSpec | profile_monitor.py:180-204 | the Following flag is cleared by any reported following-count change; the Like and Tweet flags only by a reported growth; nothing else changes |
| ProfileMonitoring.DetectMarksStale | profile_monitor.py:180-204 | after a tick, Following is up to date iff it was and the following count kept its element; Like and Tweet iff they were and their counts did not grow |
| ProfileMonitoring.DetectIgnoresFollowersCount | profile_monitor.py:178 | the followers count never affects the messages or the flags; every other buffer ends as it would without it, and the followers buffer takes its own push |
| ProfileMonitoring.UnchangedProfileIsQuiet | profile_monitor.py:155-222 | observing the stored profile again sends nothing, marks nothing stale and keeps every element |
| ProfileMonitoring.ProfileMonitor.DetectChangeAndUpdate | profile_monitor.py:155-222 | the buffers, the staleness table and the outbox move as `Detect` says |
| ProfileMonitoring.ProfileMonitor.DetectTextChanges | profile_monitor.py:158-176 | the five text pushes in order, each followed by its message |
| ProfileMonitoring.ProfileMonitor.DetectCounterChanges | profile_monitor.py:178-204 | the four counter pushes: the followers count silently, the others with a message when monitored and the staleness marks of `MarkStaleCounts` |
| ProfileMonitoring.ProfileMonitor.DetectMediaChanges | profile_monitor.py:206-222 | the four media pushes in order, each followed by its message |
| ProfileMonitoring.ProfileMonitor.MarkStaleIf | profile_monitor.py:186-204 | a sub-monitor is marked stale after a reported change of its counter (only a growth when asked) and nothing else changes |
| ProfileMonitoring.VisitSpec | profile_monitor.py:226-233 | one visit touches only its own kind's flag, sets a stale flag to the run's result for a present sub-monitor, and records one call or refresh |
| ProfileMonitoring.SubMonitorRoundSpec | profile_monitor.py:224-233 | every present sub-monitor is visited once in list order: exactly the stale ones are run and take the run's result as their flag, exactly the up-to-date ones are refreshed, absent ones are untouched |
| ProfileMonitoring.ProfileMonitor.WatchSubMonitor | profile_monitor.py:224-233 | the table and the actions are those of `SubMonitorRound` |
| ProfileMonitoring.FollowingChangeRunsFollowingMonitor | profile_monitor.py:180-233 | a following count that changes in a tick makes a registered Following monitor run in the same tick |
| ProfileMonitoring.ProfileMonitor.Watch | profile_monitor.py:235-242 | a failed lookup returns False and changes nothing; otherwise one detection pass, one sub-monitor pass and the watch time set to now, returning True |

## Left out

- Network access (`requests`, `utils.send_get_request`, the API client) is input: one `Option` per fetch, or a script of per-attempt answers for the retrying fetches. Exceptions other than the modelled connection error are not modelled.
- Chat transports (the Telegram notifiers, the notifier base) become an `outbox` sequence.
- FollowingMonitoring.FollowingMonitor.RunStep: `get_user_details` (following_monitor.py:46-65) is not modelled. It runs once per announced user, and the message names only the user. Its effects are therefore missing from the contract: its lookup result is used without a check, so a failed lookup raises AttributeError at line 48; and for a user following fewer than 2000 accounts it pages through that user's followings with the monitor's own sleeper (lines 61-63 and 27-44), whose retries add abnormal sleeps. The sleeper state stated by `RunStep` counts only the retries of the monitored user's own pagination, so it does not hold for a turn that announces such a user after a retried page.
- Message text: `MESSAGE_TEMPLATE` formatting, `convert_html_to_text` and `parse_media_from_tweet` are not rendered. A message is a record of the field label, the old and new values and the photo list, and a like or post carries its text as an opaque string.
- `ProfileParser`, `find_one` and `get_content` are not part of this model; a parsed profile is a `Profile` record input, and `get_user` is the `Option<Profile>` argument of `Watch`.
- `MonitorManager` is not part of this model; the registry is two oracle functions, whether a sub-monitor of a kind exists and what its out-of-schedule run returns. A refresh of an up-to-date sub-monitor is recorded as an action.
- `get_user_id` in twitter_watcher.py and the `utils.get_user_id` used by following_monitor.py are network lookups and are left out. In twitter_following_monitor.py the lookup is modelled only by its retries through `send_get_request` and their sleeps; the id read from the body (`user['data']['id']`, a KeyError when it is missing) is not.
- Clocks: `datetime.utcnow()` and `datetime.now()` are an integer `now` in seconds; `time.sleep` is recorded as the number of seconds slept, or not recorded.
- `random.randrange` is the `start` argument of `TwitterWatcher`.
- Logging, click, APScheduler (job registration, the twice-daily status summary, `_summary_status`, the `status` methods) and the JSON config checks of `run` are left out; `PlanJobs` stands for the scheduling loop.
- The like cache file is the `cached` set given to the `LikeMonitor` constructor; `load_existing_like_id` and the JSON dump in `dump_existing_like_id` are file I/O and left out.
- Bootstrap loops that retry forever (`while like_list is None`, the profile monitor's `while not json_response` with `time.sleep(60)`, the follow-list and aqua constructors) are modelled by their first successful outcome: the constructors take it as input, or require that the script lets the pagination complete. The endless `run`, `work` and `watch` loops are modelled one turn at a time (`RunStep`, `WorkStep`, `Watch`).
- `StatusTracker.__new__` raising: the class-level tables are modelled as the fields of one `StatusTracker` object.
- Floating point: the sleepers' `/= 2`, the noise guards' `len(old) / 2` and the interval's division are exact integer or rational arithmetic. With delays of the form floor·2^k the halving is exact, and `TooManyChangesIsRealGuard` ties the integer guard to the real-number one. Rounding of very large floats in `math.ceil` is not modelled.
- Like ids are integers: the source compares them with the integer watermark 0, whatever the type annotation says.
- Tweet ids are integers, with 0 for "no post yet" (tweet_monitor.py:17). The API's ids are non-empty strings and therefore truthy, so `if since_id:` (line 25) is modelled as `since_id != 0`, which agrees with it for every real id.
- `check_token`'s `print` calls and its `response.json()` on a non-JSON body are left out.
- FollowingMonitoring.DetectChanges: each group of messages is sent in set-iteration order, which Python does not specify. The model picks an arbitrary order and proves only what holds for every order: the users named, the message count and Unfollows before Follows.
- AquaMonitoring.AquaMonitor.GetAllFollowingUsers: the delay's final value is stated only as starting delay · 2^d for some d, that is, it never decreases. The exact d is given per request by `ConnectToEndpoint`.

## Findings

| source | as written | input that shows it | evidently intended | confidence | as-written member | corrected member |
|---|---|---|---|---|---|---|
| status_tracker.py:41-42 | `check` first logs `json.dumps(cls.monitors_status)` and `json.dumps(cls.notifiers_status)`; the values are `datetime` objects, which `json.dumps` cannot serialise without a `default` | `update_monitor_status('Like', 'alice')` then `check()`: the first `json.dumps` raises `TypeError` before any alert is computed | log the tables (e.g. with `default=str`) and return the alerts of the monitor and notifier scans | high (not executed) | StatusTracking.StatusTracker.CheckAsWritten | StatusTracking.StatusTracker.Check |
