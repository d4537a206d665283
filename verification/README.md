# HummTube model

This project models the stateful cores of a desktop video client and proves what they keep. The program resolves
videos through a chain of providers, plays them through a local media proxy, and keeps playlists, a playback queue,
television catalogs and subscriptions in a database.

Code that works by changing state is modelled as classes and methods with the source's own loops; each method is tied
to a function or relation, and the properties are proved about those. Concurrent protocols are modelled once more as
step systems, with theorems about every interleaving.

| modules | what they model |
|---|---|
| `MediaProxyModel`, `ProxySessions`, `ProxyTokens`, `ProxyStaging`, `ProxyReferences`, `ProxyPaths`, `HlsManifest`, `MediaProxyProtocol`, `ProxyProgress` | the media proxy: wrapping plans, serving request paths, revocation, eviction, playlist rewriting, and all of it interleaved |
| `ControllerModel`, `PlaybackProtocol`, `PlaybackRuns`, `PlaybackProgress` | the player controller, the interleavings of play, stop and close, plays that overtake stops and failures, and what can always be carried out |
| `Login`, `LoginProtocol`, `LoginProgress` | logging in and out, the rollback of a failed login, the interleavings of attempts and removals, and what can always be carried out |
| `PlanCache`, `FailurePolicy`, `Plans` | the provider cascade, its plan cache and its rate limit |
| `Playlists`, `PlaybackQueue`, `OrderedRows` | tables with a position column |
| `M3uAttributes`, `M3uStream`, `M3uItems`, `IptvRows`, `IptvCatalog` | M3U ingestion and the two ways to refresh a catalog |
| `Ranking` | the ranking with diversity |
| `ChannelSync` | incremental synchronization |
| `BackupM3u` | the M3U backup |
| `Text`, `Sequences`, `Wrappers` | string operations and facts shared by all |

What the proofs found. Each has its exact condition, for all inputs or runs, and an input or run on which it happens:

- A backup is read back exactly when no id holds a newline, '&' or '#' (`BackupM3u.RoundTrip`,
  `BackupM3u.AmpersandCuts`).
- A login that fails after its token was stored can lose the old token: `Login.FailedLoginRestores` says exactly when;
  an empty one (`Login.EmptyTokenIsLost`), and one that could not be read beforehand (`Login.UnreadTokenIsLost`).
- A stop overtaken by a newer play unloads the newer media, which stays current: exactly when that play became current
  before the stop reached the player, with no stop since (`PlaybackRuns.StopMissesExactly`), in a run that exists
  (`PlaybackRuns.OvertakenStopUnloads`).
- The failure of an old resolution can be reported after a newer play was announced: the report is that of the newest
  attempt exactly when no play and no stop began since the failure (`PlaybackRuns.ReportIsOfNewestExactly`), and it is
  logged behind exactly the newer announcements made since then (`PlaybackRuns.ReportIsLateExactly`); there is such a
  run (`PlaybackRuns.OldFailureIsReportedLate`).
- Moving a video by a huge distance overflows: the two moves agree exactly when it does not, or there is one video only
  (`Playlists.MovesAgree`); otherwise the video goes to the front (`Playlists.HugeMoveGoesToFront`).
- The streamed catalog import deletes all rows of the source first, which takes saved playback progress along; the
  snapshot keeps it. They agree exactly when no listed item had any (`IptvCatalog.ProgressSurvivesExactly`,
  `IptvCatalog.ProgressIsLost`).
- The two catalog paths have different item limits, and the import neither prepares nor validates the source:
  `IptvCatalog.StreamingRefinesSnapshot` says exactly when they end alike, `IptvCatalog.LimitsPart` gives a playlist on
  which they part.
- A channel that publishes more than one window between two refreshes loses exactly the uploads beyond it
  (`ChannelSync.GapIsLost`), for good (`ChannelSync.LostForGood`), in a run that starts empty
  (`ChannelSync.BusyChannelLoses`).
- When a plan's lifetime ends between the check and the pruning of the last wrap, `WrapPlan` still succeeds. Its table
  is then whole exactly when there is one resource (`ProxyStaging.StagedTableIsWholeExactly`); with two the first is
  missing (`MediaProxyModel.LateWrapLosesEarlier`).

## Model

| member | source | states |
|---|---|---|
| MediaProxyModel.MediaProxy.WrapPlan | internal/playback/media_proxy.go:137-200 | Resolved media is wrapped exactly when the request had not ended before or after, the expiry lies ahead, the URLs fit the limit, every resource gets a session, and the plan did not end before the check of any wrap, nor behind one but the last; otherwise nothing changes. On success the new plan is the current one and the one before is cancelled; the URL of resource i is the base and a path that parses to the token of draw i; and unless the plan ended during the last wrap, stream by stream and subtitle by subtitle the URL names a session with that stream's target and allowed headers, good until the plan expires. A plan that is not resolved media revokes and passes through |
| ProxyPaths.MediaTokenIs | internal/playback/media_proxy.go:576-590 | A path names a token exactly when it is the prefix, 48 hexadecimal digits, and perhaps the playlist suffix |
| ProxyPaths.LocalUrlNames | internal/playback/media_proxy.go:275-294 | What is handed out for a token is the base followed by a path that parses to this token, and ends in the suffix exactly for playlists |
| ProxyPaths.ResourceIsNamed | internal/playback/media_proxy.go:215-294 | The URL of every wrapped resource names the token drawn for it |
| ProxyPaths.WrappedPlanLeads | internal/playback/media_proxy.go:215-294 | While the table holds every resource, primary, audio, audio-only, variants and subtitles of the wrapped plan lead to those of the given plan, field by field |
| ProxyStaging.StagedTableIsWholeExactly | internal/playback/media_proxy.go:137-297 | After a successful wrap every resource has its session in the table exactly when the plan did not end during the last wrap, or there is only one resource; otherwise one session is left |
| ProxyStaging.LateInsertion | internal/playback/media_proxy.go:280-291 | When the plan has ended, the pruning in front of an insertion empties its table |
| MediaProxyModel.LateWrapLosesEarlier | internal/playback/media_proxy.go:280-291 | Two streams are wrapped with success although the plan ends during the second wrap; the session of the first is not in the table |
| MediaProxyModel.MediaProxy.LeastExpiry | internal/playback/media_proxy.go:151-174 | The expiry loop gives the earliest of six hours, every URL's own expiry and the plan's |
| ProxyStaging.PlanExpiryIsLeast | internal/playback/media_proxy.go:151-174 | That expiry is no later than any of them, and is one of them |
| ProxyStaging.CountedAre | internal/playback/media_proxy.go:153-165 | Counted is exactly the URL of every stream and of every subtitle, one by one |
| ProxyStaging.ResourcesAreCounted | internal/playback/media_proxy.go:153-165 | Everything that will be wrapped is among the URLs counted against the limit and the expiry, so staging cannot exceed the limit |
| MediaProxyModel.MediaProxy.StagePlan | internal/playback/media_proxy.go:215-253 | Wrapping a plan on the staged proxy keeps its shape, maps resource by resource in order, and goes through exactly when every resource gets a session while the plan lives |
| MediaProxyModel.MediaProxy.StageOptional | internal/playback/media_proxy.go:220-233 | An absent audio stream stays absent; a present one becomes the next resource |
| MediaProxyModel.MediaProxy.StageVariants | internal/playback/media_proxy.go:234-240 | Variants keep their number, order and ids; each stream becomes the next resource |
| MediaProxyModel.MediaProxy.StageSubtitles | internal/playback/media_proxy.go:241-251 | Subtitles keep their number, order and languages; blank ones are left alone and take no session |
| MediaProxyModel.MediaProxy.StageOne | internal/playback/media_proxy.go:255-297 | One wrap on the staged proxy goes through exactly when the streams up to it can be staged; it adds exactly one session, gives up none of those staged before unless the plan ends behind the check, and hands out a URL without headers |
| ProxyStaging.StagesOneMore | internal/playback/media_proxy.go:275-294 | Pruning before a staged insertion removes nothing as long as the plan lives: all staged sessions end together and there is room |
| ProxyStaging.EndsWithPlan | internal/playback/media_proxy.go:260-269 | A staged session is never cut short by its own URL or by the six hours: it ends exactly with the plan |
| ProxyStaging.WrappedPlanPlays | internal/playback/media_proxy.go:137-297 | Until the plan ends, a lookup of the token of any resource finds that resource's target and allowed headers |
| MediaProxyModel.MediaProxy.Commit | internal/playback/media_proxy.go:190-198 | Swapping the staged table in makes its plan the only current one and keeps every session within its plan |
| ProxyStaging.CommitIsValid | internal/playback/media_proxy.go:190-198 | After a commit, all earlier plans have ended, every session carries the new lifetime, and none outlives its plan |
| MediaProxyModel.MediaProxy.WrapStream | internal/playback/media_proxy.go:255-297 | A stream is accepted exactly when its target is valid, it has not expired, a token was drawn and its plan has not ended; then the table is the pruned one plus one session with that target, those headers and the least expiry, and the URL names the token |
| MediaProxyModel.MediaProxy.PruneLocked | internal/playback/media_proxy.go:517-541 | What is left are live sessions only, fewer than the limit, and nothing given up was used later than anything kept |
| ProxySessions.Prune | internal/playback/media_proxy.go:517-541 | The two loops of pruning keep exactly as many live sessions as fit below the limit, the least recently used ones going first |
| ProxySessions.OldestToken | internal/playback/media_proxy.go:527-536 | The inner loop finds a session no other was used before, the empty token standing for none |
| ProxySessions.InsertionFits | internal/playback/media_proxy.go:280-291 | An insertion never exceeds the limit, always holds the new session, and otherwise holds only earlier sessions that are live |
| ProxySessions.PruneKeepsAll | internal/playback/media_proxy.go:517-541 | Pruning changes nothing when all sessions are live and there is room |
| ProxySessions.SanitizeOnce | internal/playback/explicit_ytdlp.go:371-393 | Filtering headers a second time, as playlists do for their segments, loses nothing more |
| ProxySessions.SanitizeKeepsAllowed | internal/playback/explicit_ytdlp.go:371-393 | Kept are exactly the headers of the six allowed names, in any case, with short values of one line |
| MediaProxyModel.MediaProxy.Revoke | internal/playback/media_proxy.go:202-213 | The table is empty, nothing is current, and the plan that was has ended |
| MediaProxyModel.MediaProxy.Lookup | internal/playback/media_proxy.go:488-500 | A token is found exactly while its session is unexpired and its plan lives; what is found belongs to the plan committed last and ends no later than it; a token not found is forgotten, and no other session is touched |
| MediaProxyModel.MediaProxy.MarkSessionObserved | internal/playback/media_proxy.go:502-515 | True the first time for a live session, and only then; sessions of ended plans are forgotten, others untouched |
| ProxySessions.StillThere | internal/playback/media_proxy.go:488-515 | A session that was looked up and marked is still there, to be looked up again |
| MediaProxyModel.MediaProxy.SetLocalBaseUrl | internal/playback/media_proxy.go:50-62 | A blank value clears the base, any other is replaced by its normal form or refused without any change |
| MediaProxyProtocol.SessionsAreOfLastPlan | internal/playback/media_proxy.go:137-213 | In every interleaving of wraps, commits, revocations, lookups, marks and playlist rewrites, the table never exceeds the limit, every session carries the lifetime of the last committed plan, and none outlives that plan |
| MediaProxyProtocol.OldTokensNeverReturn | internal/playback/media_proxy.go:190-213 | Once another plan is committed or the plan revoked, no token of an earlier plan is ever in the table again, whatever rewrites are still going on |
| MediaProxyProtocol.CommittedOnce | internal/playback/media_proxy.go:175-198 | A lifetime is committed once only |
| MediaProxyProtocol.StepKeepsInv | internal/playback/media_proxy.go:137-541 | Every section under the mutex keeps the invariant behind these results |
| MediaProxyProtocol.StaysRetired | internal/playback/media_proxy.go:190-213 | A replaced or revoked plan never becomes current again |
| ProxyProgress.PlanCanBeWrapped | internal/playback/media_proxy.go:137-198 | From every state that can be reached, a plan within the limit can be staged and committed whole: it is current, the one before has ended, and each of its tokens is in the table, alive |
| ProxyProgress.FoundCanBeRewritten | internal/playback/media_proxy.go:466-500 | What a lookup finds can be rewritten while there is room: a reference gets a session of the same lifetime |
| ProxyTokens.StaysValid | internal/playback/media_proxy.go:466-486 | A rewrite that outlives its plan inserts nothing: an insertion under a living lifetime is one under the current plan |
| MediaProxyModel.MediaProxy.RewriteHlsManifest | internal/playback/media_proxy.go:395-410 | The rewrite goes through exactly when the body begins with the header, every line has a cut and every reference is accepted at its draw. The rewritten playlist is the old one, line by line; in place of each reference a reader finds a URL that names the token of its own draw, issued for the target resolved against the playlist with its headers, lifetime and no later expiry; all other text is untouched; with room in the table no session is lost. The two errors of the rewriter itself arise for a missing header, exactly then, and for an unclosed attribute |
| MediaProxyModel.MediaProxy.RewriteOneLine | internal/playback/media_proxy.go:395-410 | The round of the loop over lines: a line goes through exactly when it has a cut and its references are accepted after those of the lines before |
| MediaProxyModel.MediaProxy.RewriteHlsLine | internal/playback/media_proxy.go:412-429 | Blank lines and the header stay, tags are searched for URI attributes, any other line is one reference between its white space (sections 4.1 and 4.2 of RFC 8216); it goes through exactly when the line has a cut whose references are all accepted |
| MediaProxyModel.MediaProxy.RewriteHlsAttributes | internal/playback/media_proxy.go:431-464 | The scan ends on every line and goes through exactly when the line has a cut into texts and quoted URI values whose references are all accepted; the result is that cut with each value replaced |
| MediaProxyModel.MediaProxy.WrapHlsReference | internal/playback/media_proxy.go:466-486 | Blank, local and foreign references are kept; any other becomes a URL that names the new token of its draw, with a session for its target resolved against the playlist, the playlist's headers and lifetime and no later expiry. It goes through exactly when the reference is kept, or resolves, validates, has not expired and gets a token while the plan lives |
| MediaProxyModel.MediaProxy.RewriteValue | internal/playback/media_proxy.go:431-464 | A quoted value is rewritten behind those before it, exactly when all of them are accepted |
| MediaProxyModel.MediaProxy.Serve | internal/playback/media_proxy.go:300-385 | A request path is answered exactly when it parses to a token whose session is unexpired and whose plan lives; media leads to the target and headers of that session and leaves the table as it was; a playlist is rewritten under its own session, exactly when it can be, and each reference leads on; with room in the table no session is lost |
| HlsManifest.NextStep | internal/playback/media_proxy.go:435-455 | One round of the search finds the first quoted URI attribute at or behind the position, case aside, its closing quote, or that there is none |
| HlsManifest.TagReference | internal/playback/media_proxy.go:431-464 | A tag with one quoted URI attribute, in quotes of either kind and a name of either case, has exactly its value as reference, and no other cut |
| HlsManifest.LineReferences | internal/playback/media_proxy.go:412-429 | Blank lines and the header hold no reference; a line that is no tag is one, up to the white space around it |
| HlsManifest.ReadBeginsEveryCut | internal/playback/media_proxy.go:431-464 | What the scan has read begins every cut of the line, so a reference refused on the way leaves the line without an accepted cut |
| HlsManifest.CutIsUnique | internal/playback/media_proxy.go:431-464 | A tag has at most one cut into texts and attribute values, so the references are determined by the line |
| HlsManifest.UnclosedOrCut | internal/playback/media_proxy.go:446-449 | A tag with an unclosed value has no cut: the error is raised for malformed lines only |
| HlsManifest.LineCutIsUnique | internal/playback/media_proxy.go:412-429 | The references of any line are determined by it |
| HlsManifest.TrimmedStarts | internal/playback/media_proxy.go:420-428 | The trimmed text of a line first occurs behind its leading white space, so the search that cannot fail does not |
| HlsManifest.LineReadsBack | internal/playback/media_proxy.go:412-464 | Whoever reads a rewritten line by the same rules finds the replacements where the references were |
| HlsManifest.ManifestReadsBack | internal/playback/media_proxy.go:395-410 | The same for the whole playlist: same lines, same texts, replacements in place |
| ProxyReferences.PlayerReadsIssued | internal/playback/media_proxy.go:395-486 | A player reading the rewritten playlist finds, in place of each reference, the whole URL issued for it |
| ProxyReferences.LocalUrlIsPlain | internal/playback/media_proxy.go:270-294 | A local URL holds no white space and no quote, whatever the token |
| ProxyReferences.IssuedStays | internal/playback/media_proxy.go:255-297 | What was issued for a reference stays issued for it while further references are rewritten |
| ProxyReferences.TokensDiffer | internal/playback/media_proxy.go:275-294 | Different references of a playlist get different tokens, none of which was issued before |
| ProxyReferences.PlaylistIsFound | internal/playback/media_proxy.go:395-486 | When the table has room for all replaced references, each of their tokens is found after the rewriting, with its target resolved against the playlist, until its session expires or the plan ends |
| ProxyPaths.RewrittenPlaylistLeads | internal/playback/media_proxy.go:395-486 | Every reference of a rewritten playlist leads where the given one does, or stays when it is blank, local or foreign |
| ProxyTokens.RoomForOne | internal/playback/media_proxy.go:280-291 | An insertion with room in the table gives up only sessions that have expired or whose plan has ended |
| ProxyTokens.RoomChain | internal/playback/media_proxy.go:395-486 | Rewriting piece after piece loses nothing as long as there is room for all pieces together |
| ControllerModel.Controller.PlayAtTracked | internal/playback/controller.go:63-84 | A closed controller starts nothing; otherwise the attempt becomes the newest generation |
| ControllerModel.Controller.BeginPlay | internal/playback/controller.go:71-80 | The resolution before is cancelled and the new attempt gets the next generation |
| ControllerModel.Controller.Admit | internal/playback/controller.go:104-111 | A resolved attempt goes on exactly when it is the newest, its context lives and the controller is open |
| ControllerModel.Controller.Record | internal/playback/controller.go:116-122 | A load becomes current exactly when it succeeded and is still the newest of an open controller |
| ControllerModel.Controller.StopSection | internal/playback/controller.go:174-182 | A stop is a newer generation of its own, cancels the resolution and clears what is current |
| ControllerModel.Controller.CloseFlag | internal/playback/controller.go:401-403 | Closing happens once |
| ControllerModel.Controller.CloseSection | internal/playback/controller.go:404-408 | Closing cancels the resolution in flight and changes nothing else |
| ControllerModel.Controller.Current | internal/playback/controller.go:359-366 | There is a current request exactly when one with a video or a source was recorded |
| PlaybackProtocol.GenerationsIncrease | internal/playback/controller.go:63-130 | In every interleaving, the generations announced, handed to the player and made current strictly increase, and a failed load is reported before any newer one is announced |
| PlaybackProtocol.NothingOldLoads | internal/playback/controller.go:86-130 | Once a stop has reached the player no older attempt is announced or loaded, and none at all once the player is closed |
| PlaybackProtocol.StoppedMeansUnloaded | internal/playback/controller.go:170-186 | When a stop has unloaded the player and no play began after it, the player holds nothing, nothing is current, and no attempt can get past its check |
| PlaybackProtocol.CurrentIsWrittenByNewest | internal/playback/controller.go:116-122 | Current request and title change in two ways only: a stop clears them, or the newest attempt of an open controller records its own after a successful load |
| PlaybackProtocol.CurrentBelongs | internal/playback/controller.go:116-122 | What is current was recorded by one attempt with exactly its request and title, and every stop is older |
| PlaybackProtocol.StepKeepsInv | internal/playback/controller.go:63-413 | Every step of every goroutine keeps the invariant behind these results |
| PlaybackProtocol.AppendsInOrder | internal/playback/controller.go:112-130 | Whatever is announced, loaded, recorded or reported is in order with everything before it |
| PlaybackProtocol.CriticalComesFrom | internal/playback/controller.go:102-111 | An attempt gets past the check only as the newest generation of an open controller |
| PlaybackRuns.OvertakenStopUnloads | internal/playback/controller.go:170-186 | A run in which a stop, overtaken by a newer play, unloads the newer media while it stays current |
| PlaybackRuns.StopMissesExactly | internal/playback/controller.go:170-186 | In every run, a stop that unloads the player leaves something current exactly when, between its beginning and its reaching the player, a load succeeded as the newest attempt and no other stop began behind that; the attempt is newer than the stop, and its request is the current one |
| PlaybackRuns.StopWithoutPlay | internal/playback/controller.go:170-186 | Without any play since it began, a stop that unloads the player leaves nothing current |
| PlaybackRuns.OldFailureIsReportedLate | internal/playback/controller.go:93-100 | A run in which the failed resolution of an old attempt is reported after a newer one was announced |
| PlaybackRuns.ReportIsOfNewestExactly | internal/playback/controller.go:86-100 | In every run, a failed resolution is found worth reporting by the newest attempt only, and when the report is sent the attempt still is the newest exactly when no play and no stop began in between |
| PlaybackRuns.ReportIsLateExactly | internal/playback/controller.go:86-130 | In the log, the report stands behind the announcement of a newer attempt exactly when that attempt was announced between the failure and the report |
| PlaybackProgress.NewestIsLoaded | internal/playback/controller.go:100-123 | From every reachable state, the newest uncancelled attempt of an open controller that waits with the mutex free is loaded by its own steps, whatever is current: it ends as current, with its title, in the player, and the log ends with its announcement, load and becoming current |
| PlaybackProgress.NewestFailureIsReported | internal/playback/controller.go:112-129 | When the player refuses it, the failure is reported, and what was current stays |
| PlaybackProgress.ResolutionFailureIsReported | internal/playback/controller.go:93-100 | A failed resolution is reported unless its context was cancelled |
| PlaybackProgress.LoadBecomesCurrentExactly | internal/playback/controller.go:102-123 | In every interleaving, a load that succeeded becomes current exactly when no play, stop or close began since its check; otherwise nothing changes |
| PlaybackProgress.MutexIsReleased | internal/playback/controller.go:102-186 | No deadlock: from every reachable state the load mutex can be released |
| PlaybackProgress.WaitingCanBeLoaded | internal/playback/controller.go:102-123 | A waiting newest attempt can be carried through whoever holds the mutex |
| PlaybackProgress.PlayCanBeCarriedOut | internal/playback/controller.go:63-123 | From every reachable state of an open controller, any request can be played until it is current |
| PlaybackProgress.PlayIsResolved | internal/playback/controller.go:63-91 | A new play is resolved as the newest attempt and cancels every one before it |
| PlaybackProgress.StopCanBeCarriedOut | internal/playback/controller.go:170-186 | From every reachable state of an open controller, a stop can be carried out: nothing is loaded and nothing current |
| PlaybackProgress.CloseCanBeCarriedOut | internal/playback/controller.go:399-413 | It can be closed: the player is shut and every context has ended |
| PlanCache.CascadingResolver.CachedPlan | internal/playback/cache.go:28-37 | A hit exactly before the entry's deadline; the run stays good: every hit serves the plan stored last for its key, at most ten minutes earlier, with every known expiry more than 90 seconds ahead |
| PlanCache.CascadingResolver.StorePlan | internal/playback/cache.go:39-52 | Only resolved media with a primary URL that could be served at once is stored, with its deadline, after pruning; the cache never exceeds 64 entries, even with a clock reading older than the latest |
| PlanCache.CascadingResolver.PruneCacheLocked | internal/playback/cache.go:54-72 | Exactly the expired entries go, and when 64 or more are left, one with the nearest deadline |
| PlanCache.NearestKey | internal/playback/cache.go:63-71 | The loop finds an entry with the nearest deadline, the empty key standing for none |
| PlanCache.CacheDeadline | internal/playback/cache.go:74-92 | The loop computes the deadline from the earliest known expiry |
| PlanCache.DeadlineMeaning | internal/playback/cache.go:74-92 | Being before the deadline means: stored less than ten minutes ago, playable for 90 seconds more, and less than 30 seconds ago when no expiry is known; exactly |
| PlanCache.KeysSeparate | internal/playback/cache.go:24-26 | Two requests share a key exactly when video and source agree, for video ids without the separator |
| PlanCache.GoodLogGrows | internal/playback/cache.go:28-52 | A run whose hits were fresh and whose requests respected the rate limit stays so |
| PlanCache.CascadingResolver.ResolveUncached | internal/playback/cascading.go:117-152 | The calls made are a prefix of the chain in order, and behind it the authenticated provider at most once; each but the last let the chain go on. How far it goes, whether the authenticated provider follows, what the caller gets, and what is remembered of the last provider and the rate limit are determined exactly |
| PlanCache.CascadingResolver.Resolve | internal/playback/cascading.go:79-115 | A plan in the cache is served without calling anybody, and the cache stays as it was; so is one that another request stored meanwhile. Otherwise the calls, the outcome and what is remembered are those of the cascade, and the plan is left under the key, with its deadline, exactly when it may be stored. Every other entry survives unless it had expired by the last reading or, in a full cache, was the one closest to its deadline |
| PlanCache.ResolveAgain | internal/playback/cascading.go:79-115 | A plan that a provider gave is given again, and nobody is asked, for the same request later while it is good, whatever else is requested in between, as long as there is room |
| PlanCache.CascadingResolver.ResolveInTurn | internal/playback/cascading.go:94-103 | The part behind single flight: the cache once more, the cascade, and the store, with what becomes of every entry |
| PlanCache.KeepsAllAlong | internal/playback/cascading.go:79-115 | Over the two times a request may store something, at most one other entry is evicted, from a full cache, the one closest to its deadline |
| PlanCache.FirstAnswerWins | internal/playback/cascading.go:117-134 | Behind plain failures the first provider that answers decides: its plan is the outcome, nobody else is asked, and it is remembered |
| PlanCache.HardFailureEnds | internal/playback/cascading.go:125-145 | A restriction, DRM, an unavailable video, a rate limit or a cookie failure ends the chain; the authenticated provider is asked exactly behind a restriction, and a rate limit closes the cascade for a minute |
| PlanCache.PlainFailuresEnd | internal/playback/cascading.go:136-152 | When all fail plainly the authenticated provider is asked exactly behind a bot check, and otherwise the caller gets every provider's own error |
| PlanCache.AuthenticatedOnlyWhenUseful | internal/playback/cascading.go:136-146 | The authenticated provider is asked only after the last provider reported a restriction, or after the whole chain failed with a bot check |
| PlanCache.CascadingResolver.ResolveAuthenticated | internal/playback/cascading.go:154-171 | A cancelled request is reported as such; any other failure joins the others and may set the rate limit |
| PlanCache.CascadingResolver.RecordRateLimit | internal/playback/cascading.go:179-187 | A rate-limited answer closes the cascade for a minute, any other changes nothing |
| PlanCache.CascadingResolver.RateLimitActive | internal/playback/cascading.go:189-193 | No request begins within a minute of a recorded rate limit, over the whole run |
| FailurePolicy.SelectFinalFailure | internal/playback/explicit_ytdlp.go:133-151 | The failure reported is the last among those with the highest score, and there is one exactly when some attempt holds a failure |
| FailurePolicy.FinalIsUnique | internal/playback/explicit_ytdlp.go:133-151 | That failure is determined by the attempts |
| FailurePolicy.MostTellingIsReported | internal/playback/explicit_ytdlp.go:133-168 | A cookie failure is reported before anything else, then what is wrong with the video, then what is missing on the machine, then what another client may not meet; the unknown only when nothing else is known |
| Plans.EarliestIsLeast | internal/playback/cache.go:74-82 | The earliest expiry is no later than every known one and equals one of them |
| Login.LoginService.CompleteLogin | internal/services/services.go:1839-1903 | The outcome is the one LoginOutcome gives. When anything fails, accounts, sessions and the session in use are as before, the status is failed for the newest attempt and untouched for any other, and the key store is as AfterFailedSave says; on success the row has the identity's trimmed subject and e-mail, its provider, the time and the persistence the token got, and token, session and status are the new ones |
| Login.LoginOutcome | internal/services/services.go:1839-1903 | A login gets as far as saving exactly when the attempt is the newest, its identity is known, the old token could be looked at and the new one stored; it then succeeds exactly when the table works, the subject is not empty, the profile exists, and no other profile's row has that provider and subject |
| Login.RefusedExactly | internal/storage/account.go:30-64 | Saving is refused exactly for an empty subject, an unknown profile, or an account another profile is connected to, in the fields of the identity |
| Login.FailedLoginRestores | internal/services/services.go:1871-1889 | Exactly when a failed login leaves the key store as it was: nothing was written, or the old token was read, not empty and put back, or there was none and the new one was removed, or both are the same |
| Login.ReliableStoreRestores | internal/services/services.go:1905-1934 | With a key store that does not fail and holds no empty token, a failed login leaves it as it was |
| Login.EmptyTokenIsLost | internal/services/services.go:1909-1911 | An empty stored token is deleted by the rollback of a failed login |
| Login.UnreadTokenIsLost | internal/services/services.go:1912-1914 | A token that could not be read beforehand is deleted by the rollback of a failed login |
| Login.LoginService.SnapshotRefreshToken | internal/services/services.go:1905-1917 | The token to restore: none for guests, without a store, when missing, unavailable or empty |
| Login.LoginService.RollbackRefreshToken | internal/services/services.go:1919-1934 | Puts the old token back, or removes the new one when there was none; what the store reports is passed on, and a missing token to remove is an error |
| Login.LoginService.BeginLoginAttempt | internal/services/services.go:1715-1724 | A new attempt outdates those before it and is pending |
| Login.LoginService.SetLoginStatusForAttempt | internal/services/services.go:1726-1736 | Only the newest attempt may change the status |
| Login.LoginService.Publish | internal/services/services.go:1890-1897 | The new session is the profile's, and the one in use when the profile is active |
| Login.LoginService.DisconnectAccount | internal/services/services.go:1739-1773 | Earlier attempts are outdated in any case; token, account and session go in this order up to the first that fails; other profiles keep their tokens and sessions |
| Login.LoginService.DeleteProfile | internal/services/services.go:1654-1687 | The same for a profile that is removed, with its account; the default profile stays, and so do the tokens and sessions of others |
| Login.Session.StoreRefreshToken | internal/auth/session.go:97-120 | A token that is not blank is kept in the key store or, for guests and an unavailable store, in memory; any other failure is reported and changes nothing, and the cached source of an older token is dropped |
| Login.Session.Clear | internal/auth/session.go:183-199 | The token is forgotten in memory first; a token that was not stored counts as removed |
| Login.Session.SetMemoryToken | internal/auth/session.go:232-238 | A token source made from an older token is dropped |
| Login.TokenKeysDiffer | internal/auth/session.go:70-76 | Profiles with different ids keep their tokens apart |
| Login.AccountTable.Save | internal/storage/account.go:30-64 | An account is saved for an existing profile unless another profile is connected to it |
| LoginProtocol.OutdatedNeverWrites | internal/services/services.go:1665-1736 | In every interleaving, once a newer attempt, a disconnection or a removal has outdated a profile's logins, no earlier attempt writes its token, account row, session or status |
| LoginProtocol.RemovalIsFinal | internal/services/services.go:1739-1773 | After a disconnection or removal, while nothing new has begun, the profile has no token and no account row, and no session but one restored from a stored token |
| LoginProtocol.FailedRunRestores | internal/services/services.go:1847-1889 | Whatever others do while it holds the commit mutex, the newest attempt whose account cannot be saved leaves the account rows as they were, and the tokens exactly when none was stored, or the rollback worked and the old token could be read |
| LoginProtocol.OthersDoNotMatter | internal/services/services.go:1847-1896 | As far as an attempt under the commit mutex can tell, a run leads where its own steps alone would lead |
| LoginProtocol.StepKeepsInv | internal/services/services.go:1654-1903 | Every step keeps the invariant behind these results |
| LoginProtocol.WritesAsNewest | internal/services/services.go:1847-1896 | Whoever writes something for a profile is its newest generation |
| LoginProtocol.ChangesUnderMutex | internal/services/services.go:1847-1896 | Tokens, accounts and removals change under the commit mutex only |
| LoginProgress.MutexIsReleased | internal/services/services.go:1654-1903 | No deadlock: from every reachable state the commit mutex can be released |
| LoginProgress.LoginCanBeCarriedOut | internal/services/services.go:1715-1903 | From every reachable state, whoever holds the mutex and whatever the profile has, a login can be carried through until account and session are stored, and the token too when the key store takes it |
| LoginProgress.RemovalCanBeCarriedOut | internal/services/services.go:1739-1773 | From every reachable state, a disconnection or removal can be carried through, after which the profile has no token, account or session |
| Playlists.PlaylistStore.AddItems | internal/storage/playlists.go:186-236 | Videos not yet in the playlist are appended in the order of their first mention, with the time of the call; rows there before are untouched |
| Playlists.PlaylistStore.RemoveItem | internal/storage/playlists.go:295-318 | The video is gone and the order of the others is kept without gaps |
| Playlists.PlaylistStore.RemoveItems | internal/storage/playlists.go:320-338 | All listed videos are gone, the order of the others is kept |
| Playlists.PlaylistStore.CopyItems | internal/storage/playlists.go:238-254 | The target gets the videos it lacks, other playlists are untouched |
| Playlists.PlaylistStore.MoveItems | internal/storage/playlists.go:256-276 | The source loses the listed videos and the target gets those it lacks; onto itself, they go to the end |
| Playlists.MoveConserves | internal/storage/playlists.go:256-276 | No video is lost by a move, and none but the listed leaves the source |
| Playlists.MoveOntoItself | internal/storage/playlists.go:256-276 | A move onto itself changes nothing exactly when the playlist ended with the listed videos in that order |
| Playlists.NewIdsInOrder | internal/storage/playlists.go:222-235 | The videos appended keep the order of their first mention |
| Playlists.PlaylistStore.MoveItem | internal/storage/playlists.go:609-677 | Range shifts move the video to the clamped target, computed in 64-bit arithmetic, and keep positions dense |
| Playlists.PlaylistStore.MoveItemToIndex | internal/storage/playlists.go:679-746 | Rewriting the edited slice moves the video to the clamped index |
| Playlists.MovesAgree | internal/storage/playlists.go:609-746 | The two moves leave identical tables exactly when position plus distance does not overflow, or there is one video only |
| Playlists.HugeMoveGoesToFront | internal/storage/playlists.go:637-644 | Moving the last of two videos down by the greatest distance puts it in front |
| Playlists.DistanceIsExact | internal/storage/playlists.go:637-644 | The 64-bit target is the clamped distance exactly without overflow |
| Playlists.ShiftMoves | internal/storage/playlists.go:641-672 | The range update followed by the direct one moves exactly one video |
| Playlists.MoveInSlice | internal/storage/playlists.go:708-735 | Cutting a video out of the slice and putting it in at the clamped index is the move |
| Playlists.CloseGap | internal/storage/playlists.go:295-318 | Deleting a row and shifting those behind it takes the video out of the order |
| Playlists.PlaylistStore.Deduplicate | internal/storage/playlist_tags.go:63-131 | Positions become dense in the present order; rows that were dense already are left alone, so it is idempotent |
| Playlists.FirstOccurrencesIs | internal/storage/playlist_tags.go:80-101 | Keeping first occurrences yields each id once, loses none, and is idempotent |
| Playlists.FirstRows | internal/storage/playlist_tags.go:80-101 | The loop keeps the first row of each video and counts the rest |
| OrderedRows.SelectOrdered | internal/storage/queue.go:360-376 | Selecting by position lists every row of the owner once, in ascending order |
| OrderedRows.ArrangedOnce | internal/storage/queue.go:360-376 | Rows with distinct positions have one order only |
| OrderedRows.DenseRowsAgree | internal/storage/playlists.go:609-746 | Two tables that differ in positions only and represent the same order are equal |
| PlaybackQueue.QueueStore.Enqueue | internal/storage/queue.go:78-157 | The video ends up last and pending, one row per video, at most 100, positions 0..n-1; a queued video keeps its id and the time it was added; it is refused exactly when blank, unknown, over the limit or without an id; other rows keep their data |
| PlaybackQueue.QueueStore.Reorder | internal/storage/queue.go:159-193 | The new order is taken exactly when it is a permutation of the queue, otherwise nothing changes |
| PlaybackQueue.WriteOrder | internal/storage/queue.go:172-191 | The loop accepts exactly distinct, named ids that are all queued |
| PlaybackQueue.Pigeonhole | internal/storage/queue.go:166-191 | As many distinct queued ids as there are rows name all of them |
| PlaybackQueue.Accepted | internal/storage/queue.go:159-193 | With the right count, what the loop accepts are exactly the permutations |
| PlaybackQueue.QueueStore.Remove | internal/storage/queue.go:195-212 | The item is gone and positions are dense again |
| PlaybackQueue.QueueStore.MarkPlayed | internal/storage/queue.go:214-243 | The item is marked, or removed when played items are not kept; an unknown item is an error and nothing else changes |
| PlaybackQueue.QueueStore.Clear | internal/storage/queue.go:245-262 | The scope "all" or "played" removes exactly those rows, any other scope is refused |
| PlaybackQueue.QueueStore.Normalize | internal/storage/queue.go:359-385 | Positions become 0..n-1 in the present order, nothing else changes |
| PlaybackQueue.FindVideo | internal/storage/queue.go:103-109 | Finds the row of a video exactly when it is queued |
| M3uAttributes.SplitExtinf | internal/iptv/m3u.go:227-253 | The loop splits at the first comma outside quotes |
| M3uAttributes.ParseAttributes | internal/iptv/m3u.go:255-288 | The scan ends on every input and yields the attributes of its specification |
| M3uAttributes.ParseAttributeValue | internal/iptv/m3u.go:294-323 | Reads a quoted value with its escapes, or an unquoted one up to white space |
| M3uAttributes.ParseExtinf | internal/iptv/m3u.go:200-225 | An entry line yields its parts or the error the code reports |
| M3uAttributes.RoundTrip | internal/iptv/m3u.go:227-323 | For a duration and printed pairs, with values in quotes of either kind or bare, the line splits at the comma before the title whatever commas and quotes the quoted values hold, and reading gives back exactly the map of the pairs |
| M3uAttributes.EntryRoundTrip | internal/iptv/m3u.go:200-323 | An entry line printed from its parts is read back as an entry with those parts |
| M3uStream.ParseM3uStream | internal/iptv/m3u.go:59-172 | For every batch size the handler receives the items of the parse, whole and in order, in full batches but the last, although the buffer is reused; it fails exactly when the parse is full, the feed fails or the handler does |
| M3uStream.ParseM3u | internal/iptv/m3u.go:35-57 | All items and warnings of the parse, or an error |
| M3uStream.BatchHandler.Handle | internal/storage/iptv.go:536-586 | A batch is handled as it was when handed over, or the import fails |
| M3uStream.LimitOnly | internal/iptv/m3u.go:181-198 | A smaller item limit only decides whether the parse stops |
| M3uStream.ItemsBelong | internal/iptv/m3u.go:325-355 | Every parsed item belongs to its source and has an id |
| M3uStream.IdIgnoresStreamUrl | internal/iptv/m3u.go:325-355 | Rotating stream URLs changes no item id |
| M3uItems.IdsAgreeExactly | internal/iptv/m3u.go:325-355 | For any two items of any two parses: they share an id exactly when source, kind and playlist id agree and, without a playlist id, name, group, channel, language and country do |
| M3uItems.ItemsShow | internal/iptv/m3u.go:59-225 | A playlist of entry lines and URLs, with group lines in between, yields one item for each listing, in order and without a warning, with its title, URL, logo, id, channel, language, country and type, and its own group, or else the one of the group line in force, or else of one right behind the entry line |
| M3uItems.NoLineIsLost | internal/iptv/m3u.go:86-162 | Unless the parse stops or its warnings run full, every entry line and every URL ends in an item or in a warning |
| M3uItems.WarningsAreBounded | internal/iptv/m3u.go:174-179 | No more than 100 warnings are kept |
| IptvCatalog.CatalogStore.ReplaceCatalog | internal/storage/iptv.go:174-200 | The snapshot is stored in one transaction, or the tables stay as they were, with the exact conditions of refusal |
| IptvCatalog.CatalogStore.ImportCatalog | internal/storage/iptv.go:520-592 | The streamed import leaves the items of the parse, or on any error the tables as they were |
| IptvCatalog.CatalogStore.UpsertItems | internal/storage/iptv.go:784-864 | The row loop stores the last item of each id |
| IptvCatalog.SyncM3u | internal/iptv/sync.go:39-82 | A synchronization ends as the path it takes ends, with the warnings of its parse, for both paths |
| IptvCatalog.StreamingRefinesSnapshot | internal/iptv/sync.go:52-81 | For any configuration, feed and tables, the two paths end alike, first-seen stamps aside, exactly when the feed fails or is too long for both, or its items fit the smaller limit and the source is in its stored form (or there is nothing to do under either id), since the import neither prepares nor validates it |
| IptvCatalog.LimitsPart | internal/iptv/sync.go:52-81 | A playlist with one item more than the snapshot allows is refused by the snapshot and taken by the import |
| IptvCatalog.SameRows | internal/storage/iptv.go:520-592 | For any items both paths leave the same rows, first-seen stamps aside |
| IptvCatalog.RowAfterRefresh | internal/storage/iptv.go:784-864 | What each row is after a refresh: the last item of its id, gone, or another source's and untouched |
| IptvCatalog.SourcesAfterRefresh | internal/storage/iptv.go:174-200 | On both paths the source is recorded as synchronized now and without an error, other sources stay |
| IptvCatalog.Prepared | internal/storage/iptv.go:715-738 | A source is prepared exactly when it has an id, the one format and two good endpoints; id and name are trimmed, the rest stays |
| IptvRows.UpsertAllResult | internal/storage/iptv.go:784-864 | After a list of upserts a row is the last item of its id with the right first-seen stamp, and other rows are untouched |
| IptvRows.UpsertAllShows | internal/storage/iptv.go:784-864 | A listed id shows its last item column by column, under the source and stamp of the run, with the right first-seen stamp |
| IptvRows.UpsertAllAppend | internal/storage/iptv.go:536-586 | Upserting in batches is upserting all at once |
| IptvCatalog.ProgressAfterRefresh | internal/storage/iptv.go:520-592 | Saved progress survives a snapshot exactly for listed items, and a streamed import only for other sources, because the rows it hangs on are deleted first |
| IptvCatalog.ProgressSurvivesExactly | internal/storage/iptv.go:520-592 | The two paths treat progress alike exactly when no listed item of the source had any |
| IptvCatalog.ProgressIsLost | internal/storage/iptv.go:520-592 | A film listed again while half watched keeps its progress under a snapshot and loses it under an import |
| IptvCatalog.RefreshIsConsistent | internal/storage/iptv.go:174-200 | Neither path leaves progress without its row |
| Ranking.RankWithDiversity | internal/suggestions/engine.go:370-404 | The picks are greedy and a sub-multiset of the items despite swap-remove; there are min(n, len) of them for non-negative scores, and fewer only when nothing left beats the floor |
| Ranking.TakeBest | internal/suggestions/engine.go:377-402 | One pick takes the best remaining item, counts its channel and removes exactly it |
| Ranking.BestIndex | internal/suggestions/engine.go:380-391 | The inner loop finds the first of the highest effective scores |
| Ranking.SwapRemoveTakesOne | internal/suggestions/engine.go:398-401 | Overwriting with the last item and dropping it removes exactly one |
| Ranking.ChannelScoresFall | internal/suggestions/engine.go:370-404 | Inside one channel the scores of the picks never rise |
| Ranking.LeftOutLoses | internal/suggestions/engine.go:370-404 | No left-out item beats a chosen one of its channel |
| Ranking.DiversityPrice | internal/suggestions/engine.go:370-404 | At each pick no remaining item outscores the pick by the diversity weight or more |
| Ranking.ExactPrice | internal/suggestions/engine.go:380-391 | No available item scores more than the pick when each gets 0.05 / (1 + picks made before from its own channel) on top |
| Ranking.FreshChannelWins | internal/suggestions/engine.go:370-404 | An item is passed over for one of no higher score only when its channel has at least as many picks |
| ChannelSync.SyncChannelLocal | internal/sync/service.go:317-331 | The videos before the marker, or all of them; an error of the feed is passed on |
| ChannelSync.SyncChannel | internal/sync/service.go:335-360 | Pages are asked for until the marker, the last page or the page limit; the result is everything before the marker on the pages asked for, and it fails exactly when one of them does |
| ChannelSync.SyncedOnce | internal/sync/service.go:335-360 | How many pages are asked for, and the result, are determined by the pages, the marker and the limit |
| ChannelSync.UpToMeaning | internal/sync/service.go:317-331 | That is the longest beginning without the marker |
| ChannelSync.FetchChannelFeed | internal/sync/rss.go:45-76 | The first 15 entries that have an id |
| ChannelSync.EntryIds | internal/sync/rss.go:46-55 | An entry's own id counts; without one, what stands behind the last colon |
| ChannelSync.SyncStore.RefreshChannel | internal/sync/service.go:274-300 | Videos are stored before the marker moves; a failed fetch keeps the old marker; other channels are untouched |
| ChannelSync.RefreshLocalChannel | internal/sync/service.go:269-300 | A refresh of a channel depends on its feed and its own marker only |
| ChannelSync.FoundAre | internal/sync/service.go:317-331 | With a marker among the uploads, a refresh finds exactly those behind it that the window reaches, newest first |
| ChannelSync.MarkerIsStored | internal/sync/service.go:274-300 | In every run the marker is never ahead of the catalog |
| ChannelSync.NothingIsMissed | internal/sync/service.go:271-300 | In every run of successful and failed refreshes in which at most one window is published between successful ones, everything from the first synced window up to the marker is stored |
| ChannelSync.SyncedUpToNow | internal/sync/service.go:271-300 | Right after a successful refresh that is every upload since the first synced window |
| ChannelSync.GapIsLost | internal/sync/service.go:317-331 | Without that pace, a successful refresh passes exactly the uploads the window does not reach |
| ChannelSync.LostForGood | internal/sync/service.go:317-331 | An upload the marker has passed is never stored by a later refresh |
| ChannelSync.BusyChannelLoses | internal/sync/service.go:317-331 | For every window, a run from an empty channel in which more than a window is published between two refreshes, and an upload is passed |
| ChannelSync.RefreshStores | internal/sync/service.go:271-300 | A refresh drops nothing and stores exactly the uploads behind the marker within the window, unless it fails before |
| BackupM3u.ToM3U | internal/backup/m3u.go:10-21 | The loop prints one entry for each id that is not blank |
| BackupM3u.FromM3U | internal/backup/m3u.go:24-37 | The loop collects one id for each line that has one |
| BackupM3u.RecoveredOne | internal/backup/m3u.go:39-58 | One printed id is recovered whole exactly when it holds no '&' and no '#', and cut short otherwise |
| BackupM3u.RoundTrip | internal/backup/m3u.go:10-58 | Reading a printed backup gives back the trimmed, non-blank ids in order exactly when none of them holds a newline, '&' or '#' |
| BackupM3u.AmpersandCuts | internal/backup/m3u.go:39-58 | The id "a&b" is read back as "a" |
| BackupM3u.ParsedPrinted | internal/backup/m3u.go:10-58 | For ids of one line each, what is read is the non-empty part of each id up to the first '&' or '#' |
| BackupM3u.WatchUrlId | internal/backup/m3u.go:39-50 | The id of a watch URL is read whatever parameters or fragment follow |
| BackupM3u.ShortUrlId | internal/backup/m3u.go:51-58 | The id of a short URL is read whatever parameters follow |

## Left out

- HTTP, DNS, TLS, OAuth exchanges, the keyring's implementation, subprocesses and the user interface: what they answer is a parameter.
- SQL text and SQLite: a table is a map of rows, a transaction is atomic and rolls back as a whole.
- URL parsing, regular expressions, hashing and random numbers: functions and tokens given as parameters; tokens are assumed new, and `M3uItems.IdsAgreeExactly` assumes that digests of different texts differ, as the first 12 bytes of SHA-256 almost surely do.
- Text outside ASCII: upper and lower case are those of ASCII, and lengths count characters, not bytes. `strings.ToUpper` can change the byte length of other text, which the URI scan of the playlist rewriter indexes by.
- Generations are unbounded; the source's counters have 64 bits.
- Scores are real numbers, without rounding.
- The telemetry of `CascadingResolver.Resolve`. Of simultaneous equal requests, one at a time is modelled; what another stored meanwhile is a parameter.
- `WrapPlan` without a proxy or without a context, which return at once.
- Playlists with more references than the table has room for: earlier tokens may be evicted, least recently used first, and nothing further is claimed about them; that each was issued is proved.
- The 4 MiB limit on playlist bodies, methods other than GET, answers of the media server other than success, and the header fields that `ServeHTTP` copies besides the session's.
- `Controller.emit` may drop an event once the controller is closed; the model logs every event that is sent.
- The remaining player commands of the controller, which pass through.
- `Session.Source` and the making of token sources; only that a new token drops the old source is modelled.
- The switch to another profile at the end of `DeleteProfile`, `SetActiveProfile`, and audit records. In the step system of logins a restored session may appear at any time, as it does in the source.
- `LoginService.CompleteLogin` runs as one section; `LoginProtocol` takes it apart into its steps, with owners in place of the data.
- A call of the key store that reports a failure is taken to have changed nothing.
- Classification of television entries, and the details of warnings beyond their number and kind.
- The limit on the length of a line while a catalog is read, and on the body of a stream, are part of a feed that fails.
- Refreshes of several channels at once: the model takes one channel at a time; another channel's failure shows as a failed step.
- Pages of the uploads list that shift while they are read.
- Statistics, progress messages, settings, profile management and the choice of formats.
- The ordering by id among rows with equal positions.
- The sections of the home page that call the ranking, and the computation of scores.
- Playlists.PlaylistStore.Deduplicate: rows are keyed by playlist and video as the table's unique index has them, so no duplicates are dropped; keeping first occurrences is proved of the list the loop works on (`Playlists.FirstOccurrencesIs`).
