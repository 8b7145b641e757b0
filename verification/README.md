# Verified model of Yanami's native components

Yanami is a desktop media client. This project models, in Dafny, those of its
native C++ components whose guarantees hold over whole runs, and proves the
guarantees. `dafny verify dfyconfig.toml` checks everything.

| file | models |
|---|---|
| `ImageLoads.dfy`, `ImageWorkers.dfy`, `ImageRequests.dfy` | the registry of shared image loads, its lock-free consumer count, and the polling worker, as a step system over all interleavings; what workers deliver and how requests are served |
| `PlaceMarkers.dfy`, `OperationState.dfy`, `MediaRequestIds.dfy`, `MediaQueues.dfy` | the per-key mutation queues, their request ids and the place markers in them, and the command state machine under them |
| `ResourceState.dfy`, `LaneIds.dfy`, `DanmakuLanes.dfy`, `DanmakuHandlers.dfy`, `PlaybackPreparation.dfy` | stale-while-revalidate resources and the latest-wins lanes built on them, with signal handlers that call back |
| `ClipStack.dfy` | the installer painter's clip stack, layer pools and clip cache |
| `CommandLine.dfy` | argument quoting against the Windows splitting rule |
| `PayloadFooter.dfy`, `PayloadExtraction.dfy` | the 64-byte footer codec and the verified extraction of the payload |
| `InstallPaths.dfy`, `InstallPathLaws.dfy` | path containment, inspection, install policy and directory resolution |
| `WriteProbe.dfy`, `Shortcuts.dfy` | the two file-system transactions of the installer |
| `InstallerWorkflow.dfy` | the installer window's pages and its one installation |
| `SplashAnimation.dfy`, `DesktopMonitor.dfy` | the splash arithmetic, the launcher's watch over the desktop process, and its retry loop |
| `Utf8.dfy`, `ImageKeys.dfy` | the decoding of image identifiers |
| `Decimal.dfy`, `Options.dfy`, `Octets.dfy` | numerals, optional values, bytes |

Most modules have the same shape. The state is a datatype and every operation
a function of it; predicates describe the states that can occur; one lemma for
each operation shows that they are kept; the theorems are about every run.
Where the source updates an object, a class with its fields follows, whose
methods are proved to change the fields as the functions say. What the source
calls (the port behind a view model, Direct2D, the file system, dialogs, timers)
appears as a choice left open: a parameter, an arbitrary outcome of a step, or
an environment that may act at the points where the source lets it.

What the models assume of their surroundings:

- Atomic accesses are sequentially consistent; counters and sequence numbers do
  not wrap, except where 64-bit arithmetic is the point.
- A response is destroyed only when no call of it is in progress.
- A port settles only ids it was handed; it may do so at once, late, repeatedly
  or under another key.
- `InstallPaths.Lawful`: case folding maps nothing else to a backslash, a slash
  is not a letter, and `GetFullPathNameW` leaves normal paths alone and makes
  drive paths of drive paths; and `InstallPaths.DigitLaw`: folding leaves digits
  alone. `LawsHaveAModel` shows that this can be met.
- `Shortcuts.Faithful`: the shell reads back the link it writes for the request.
- `ImageKeys.NormalRoot`: `QDir::cleanPath` leaves clean paths below the cache
  root alone. `CleaningHasAModel` shows that this can be met.
- The hash is an arbitrary function of the bytes fed to it, in order.

Where the code does not do what its documentation or the obvious reading says,
the model follows the code, a lemma shows the case, and another says when the
guarantee does hold:

- `QString::arg` replaces the lowest place marker it finds, also one that an
  earlier argument brought along. The id of a request can be that of another
  under another number if and only if its item has a marker below %3
  (`MediaRequestIds.UnambiguousIffPlain`), and every such item can strand a lane
  of the mutation queues (`MediaQueues.MarkedItemsStrandALane`). The guarantees
  of the queues are proved for item ids without such markers.
- The resource and operation states announce their changes in the middle of the
  view models' calls, and setPending announces a change of working(). The
  statements about whole runs take each call as one step; where handlers of these
  signals call back, they hold under exact conditions on what the handlers leave
  behind. Otherwise working() misses a request
  (`DanmakuHandlers.HandlerCanHideWork`,
  `DanmakuHandlers.InvalidationCanHideWork`) or claims one that nothing will end
  (`DanmakuHandlers.HandlerCanFeignWork`), a search is answered by nobody
  (`DanmakuHandlers.NestedSearchCanStrandTheLane`), a superseded preparation is
  emitted as ready (`PlaybackPreparation.HandlerCanOvertake`), or a preparation
  is never played (`PlaybackPreparation.HandlerCanLoseThePreparation`). That the
  calls taken apart this way are the calls when no handler acts is shown by the
  lemmas `QuietSettlement`, `QuietRequest` and `QuietInvalidation` of
  `DanmakuHandlers` and by `SettledInTwo` and `BegunInTwo` of
  `PlaybackPreparation`.
- `perf/README.md` says that each milestone of the launcher occurs exactly once.
  A desktop that exits with 0xFFFFFFFF after it was ready is taken for a retry,
  since the cast to `int` gives the sentinel -1; desktop_ready is then emitted
  again (`DesktopMonitor.ReadyIsRetriedOnlyBySentinel`,
  `DesktopMonitor.SentinelBreaksTheOrder`).
- The result of `DeleteFileW` is not looked at when an extraction is abandoned:
  the new file is left behind if and only if that call fails
  (`PayloadExtraction.ProcessPayload`).
- The rollback of the write probe takes a failing attribute query for a missing
  folder; the folder is then left behind without a report
  (`WriteProbe.RollbackWritableProbe`).
- A text that starts with a byte order mark, or on Windows contains a backslash,
  does not survive as an image identifier (`ImageKeys.KeyRoundTrip`). The
  identifier's pattern also admits a final line feed behind an odd number of
  digits (`ImageKeys.FinalLineFeed`).
- A shortcut that was made read-only stays when it is deselected, and the
  installation reports a warning (`Shortcuts.DeselectUndoesSelect`).
- A program path with a quotation mark, or one that needs quotes and ends in a
  backslash, is not read back (`CommandLine.ProgramNameSurvives`).

## Model

| member | source | states |
|---|---|---|
| `ImageLoads.StepKeepsInv` | apps/desktop/native/AsyncImageProvider.cpp:98-308 | Every atomic step of acquire, cancel, finish, destroy, the polling worker and shutdown keeps the joint invariant of counters, responses, workers and the registry, and no counter at zero rises |
| `ImageLoads.CounterEqualsHolders` | apps/desktop/native/AsyncImageProvider.cpp:189-232 | In every interleaving the counter of a load equals the number of responses that have not released it, and is never negative |
| `ImageLoads.ZeroIsFinal` | apps/desktop/native/AsyncImageProvider.cpp:199-208 | A counter that has reached zero stays at zero through every continuation, spurious exchange failures included |
| `ImageLoads.OneLiveLoadPerKey` | apps/desktop/native/AsyncImageProvider.cpp:194-232 | Two loads of one key that both have a positive counter are the same load |
| `ImageLoads.LiveLoadIsNeverDisplaced` | apps/desktop/native/AsyncImageProvider.cpp:211-231 | The expiry sweep and the overwrite of a map entry only ever displace a load without consumers, and a load is created only when its key has no live one |
| `ImageLoads.WaitingResponseGetsAResult` | apps/desktop/native/AsyncImageProvider.cpp:253-298 | Unless shutdown was requested during the life of the load, no uncancelled response receives the empty abandoned result, and a worker gives up only when nobody waits |
| `ImageWorkers.WorkerDelivers` | apps/desktop/native/AsyncImageProvider.cpp:98-152 | Over every run, from what the steps of a worker saw: it ends with the picture if and only if the file was found at one of 600 attempts, only missing before, nobody had given up, and decoding succeeded; with an error if and only if the candidate is empty, the file unsafe, missing 600 times or not decodable; and with nothing if and only if a test found shutdown or no consumer |
| `ImageWorkers.ResponseDelivers` | apps/desktop/native/AsyncImageProvider.cpp:257-269 | A response that is told hands on exactly that result, unless it was cancelled |
| `ImageRequests.RequestsAreServed` | apps/desktop/native/AsyncImageProvider.cpp:189-232 | Over every run each request gets one response, for a load of its own key that somebody else waits for or that is new, and holds it |
| `ImageRequests.AcquireGoesOn` | apps/desktop/native/AsyncImageProvider.cpp:198-231 | Every step of acquire brings it nearer to its end, except an exchange that fails |
| `ImageRequests.AcquireIsNotStuck` | apps/desktop/native/AsyncImageProvider.cpp:198-231 | and until its end there is always such a step |
| `ImageRequests.LookupFindsTheReferenced` | apps/desktop/native/AsyncImageProvider.cpp:197-199 | A request looks at a registered load exactly while somebody refers to it |
| `ImageRequests.SweepsOnSchedule` | apps/desktop/native/AsyncImageProvider.cpp:211-218 | Of the requests that join no load every 64th sweeps the registry, and each does while it has more than 1024 entries |
| `ImageRequests.SweepDropsTheExpired` | apps/desktop/native/AsyncImageProvider.cpp:212-218 | A sweep visits every entry and drops exactly those nobody refers to |
| `ImageRequests.ResponseShowsItsDeeds` | apps/desktop/native/AsyncImageProvider.cpp:248-308 | Over every run the fields of a response are what was done to it, and it is taken off the counter at most once |
| `ImageRequests.ResponseCanBegin` | apps/desktop/native/AsyncImageProvider.cpp:328-334 | Once acquire has returned, the response it is for can be constructed |
| `ImageRequests.ResponseCanEnd` | apps/desktop/native/AsyncImageProvider.cpp:274-299 | Cancelling, finishing and destroying a response are each possible and take it off the counter |
| `ImageRequests.ShutdownIsSeen` | apps/desktop/native/AsyncImageProvider.cpp:310-325 | The shutdown flag is what was asked for last, and a load has seen it exactly if it was set in its life |
| `ImageLoads.KeyTextInjective` | apps/desktop/native/AsyncImageProvider.cpp:194-196 | The registry text of candidate, width and height identifies one request only |
| `OperationState.SettlesOnce` | apps/desktop/native/AsyncOperationState.cpp:8-67 | After a begin exactly the begun identifier settles the operation, once, whichever way, and the result or trimmed message is kept; a blank identifier begins nothing |
| `OperationState.TrimmedDropsBlanks` | apps/desktop/native/AsyncOperationState.cpp:8-49 | What is trimmed off identifiers and messages is blank, and no blank is left at either end |
| `OperationState.AsyncOperationState.Begin` | apps/desktop/native/AsyncOperationState.cpp:8-21 | The new state is the begun operation; blank identifiers are refused |
| `OperationState.AsyncOperationState.Resolve` | apps/desktop/native/AsyncOperationState.cpp:23-35 | Succeeds exactly when the identifier is accepted, otherwise nothing changes |
| `OperationState.AsyncOperationState.Reject` | apps/desktop/native/AsyncOperationState.cpp:37-49 | Fails the operation exactly when the identifier is accepted, otherwise nothing changes |
| `MediaRequestIds.OperationKeyInjective` | apps/desktop/native/ApplicationViewModel.cpp:972-978 | No two pairs of item and operation share a lane |
| `Decimal.DigitsStandForTheNumber` | apps/desktop/native/ApplicationViewModel.cpp:976-977 | The numerals in keys and ids stand for their numbers and have no zero in front |
| `MediaRequestIds.EndsInSequence` | apps/desktop/native/ApplicationViewModel.cpp:948-951 | A request id ends in its own sequence number exactly when the item id has no place marker below %3 |
| `MediaRequestIds.PlainIdsAreUnique` | apps/desktop/native/ApplicationViewModel.cpp:948-951 | Ids of such items are different for different sequence numbers |
| `MediaRequestIds.RequestIdIsTrimmed` | apps/desktop/native/AsyncOperationState.cpp:8-13 | Every request id passes through begin unchanged |
| `MediaRequestIds.DoublesCollide` | apps/desktop/native/ApplicationViewModel.cpp:948-951 | For every item with a marker below %3 another item is given, under sequence number 1, the id that the item is given under 10 |
| `MediaRequestIds.UnambiguousIffPlain` | apps/desktop/native/ApplicationViewModel.cpp:948-951 | No request whatever can carry the id of one for this item under another number, if and only if the item has no marker below %3 |
| `MediaQueues.AfterKeepsInv` | apps/desktop/native/ApplicationViewModel.cpp:937-1062 | Submissions, settlements in any order and form, and returns of signal handlers keep the lanes, the tickets and the reverse index |
| `MediaQueues.LanesAreServedInOrder` | apps/desktop/native/ApplicationViewModel.cpp:937-1021 | Over every run each lane dispatches and reports in submit order, each request once, runs exactly its head, and leaves no head undispatched once no handler is active |
| `MediaQueues.IdsAreUnique` | apps/desktop/native/ApplicationViewModel.cpp:948-955 | No id is given to two requests of a run, in whatever lanes |
| `MediaQueues.KnownIsTheInverseIndex` | apps/desktop/native/ApplicationViewModel.cpp:955-1007 | m_knownRequests maps exactly the queued ids, each to its own lane |
| `MediaQueues.JudgedByKey` | apps/desktop/native/ApplicationViewModel.cpp:984-1007 | A settlement of a dispatched id is reported or unknown: the branches for a known id without a queue, for another head and for a refusing state are unreachable |
| `MediaQueues.SettlementReportsOnce` | apps/desktop/native/ApplicationViewModel.cpp:980-1062 | A settlement under the own key is reported the first time and only then; late, repeated and misdirected ones change nothing |
| `MediaQueues.StateTellsTheAnswer` | apps/desktop/native/ApplicationViewModel.cpp:937-1062 | Over every run the operation state of a lane shows its head running, or when the lane is empty the answer of the request settled last: succeeded with the result, failed with the trimmed message |
| `MediaQueues.SettlementTellsTheAnswer` | apps/desktop/native/ApplicationViewModel.cpp:980-1062 | The same for each settlement that is reported, with all fields written out |
| `MediaQueues.HandlerReturnGoesOn` | apps/desktop/native/ApplicationViewModel.cpp:1019-1020 | When a signal handler returns its lane hands its head to the port, and nothing else changes |
| `MediaQueues.StrayBranches` | apps/desktop/native/ApplicationViewModel.cpp:984-1007 | What the three dropping branches do when item ids with markers lead into them |
| `MediaQueues.MarkedItemsStrandALane` | apps/desktop/native/ApplicationViewModel.cpp:948-1007 | Every item with a marker below %3 strands the lane of another in a run of eleven submissions: whatever follows, no settlement of the request the port has is accepted, and it stays the head of its lane |
| `MediaQueues.LostForGood` | apps/desktop/native/ApplicationViewModel.cpp:937-1021 | A head that the reverse index has lost stays unsettled through every continuation that does not issue its id again |
| `MediaQueues.MediaActionsViewModel.SubmitOperation` | apps/desktop/native/ApplicationViewModel.cpp:937-960 | The fields after the call are those of the specified submission |
| `MediaQueues.MediaActionsViewModel.HandleSettled` | apps/desktop/native/ApplicationViewModel.cpp:980-1062 | The fields after the call are those of the specified settlement, and a signal is emitted exactly for the reporting verdicts |
| `MediaQueues.MediaActionsViewModel.DispatchNextOperation` | apps/desktop/native/ApplicationViewModel.cpp:962-970 | Hands the head, if there is one, to the port |
| `MediaQueues.MediaActionsViewModel.HandlerReturned` | apps/desktop/native/ApplicationViewModel.cpp:1019-1020 | When the signal handler has returned the lane it interrupted dispatches its head |
| `ResourceState.OnlyTheNewestIsAccepted` | apps/desktop/native/AsyncResourceState.cpp:8-133 | After every run a ticket is accepted exactly if it is that of the newest request not yet settled, detached or reset |
| `ResourceState.PhaseTellsTheRun` | apps/desktop/native/AsyncResourceState.cpp:8-96 | The data are those last committed by a newest request; Loading and Refreshing say that a request is out without or with data; Error and Idle mean that there are none |
| `ResourceState.RemarksTellTheRun` | apps/desktop/native/AsyncResourceState.cpp:8-96 | Over every run the stale flag, the message of the last failure and the view are what the begins, accepted settlements, detaches and resets say |
| `ResourceState.FailedRefreshKeepsData` | apps/desktop/native/AsyncResourceState.cpp:53-83 | A failed or abandoned refresh leaves the committed data usable |
| `ResourceState.SupersededForGood` | apps/desktop/native/AsyncResourceState.cpp:119-133 | A ticket that is no longer accepted is never accepted again |
| `ResourceState.BeginIssuesANewId` | apps/desktop/native/AsyncResourceState.cpp:8-31 | Request ids strictly increase |
| `ResourceState.MarksTouchNothingElse` | apps/desktop/native/AsyncResourceState.cpp:103-117 | Without its marks of remote changes a run comes to the same state but for their flag, which stands exactly while a marked change is not answered |
| `ResourceState.AsyncResourceState.Begin` | apps/desktop/native/AsyncResourceState.cpp:8-31 | Starts a load or, with data to preserve, a refresh |
| `ResourceState.AsyncResourceState.Resolve` | apps/desktop/native/AsyncResourceState.cpp:33-51 | Commits exactly when the ticket is accepted |
| `ResourceState.AsyncResourceState.Reject` | apps/desktop/native/AsyncResourceState.cpp:53-74 | Fails, keeping data, exactly when the ticket is accepted |
| `ResourceState.AsyncResourceState.Detach` | apps/desktop/native/AsyncResourceState.cpp:76-83 | Abandons the request and keeps the data |
| `ResourceState.AsyncResourceState.Reset` | apps/desktop/native/AsyncResourceState.cpp:85-96 | Abandons the request and drops the data |
| `LaneIds.NumberedIdInjective` | apps/desktop/native/ApplicationViewModel.cpp:576-578 | Ids of one prefix with equal text carry equal numbers |
| `LaneIds.ItemIdInjective` | apps/desktop/native/ApplicationViewModel.cpp:668-669 | For one item, equal apply ids carry equal numbers, whatever place markers the item holds |
| `DanmakuLanes.WorkingIffUnsettled` | apps/desktop/native/ApplicationViewModel.cpp:628-783 | After every run working() is true exactly if the newest request of the search, automatic or apply lane is unsettled |
| `DanmakuLanes.OnlyTheNewestReports` | apps/desktop/native/ApplicationViewModel.cpp:738-857 | A report of the port is passed on exactly if it answers the newest unsettled request of its lane; any other changes nothing; in the apply and configuration lanes it then settles the operation with its verdict |
| `DanmakuLanes.RequestsAreMade` | apps/desktop/native/ApplicationViewModel.cpp:628-720 | After every run a request is refused exactly where the lane waits and does not supersede; otherwise the lane shows it under an id that is spelled out, or without a port as failed, which all but the configuration lane report; the other lanes stay |
| `DanmakuLanes.OnlyTheNewestCommits` | apps/desktop/native/ApplicationViewModel.cpp:781-792 | The search data change exactly for such a report |
| `DanmakuLanes.EveryChangeIsAnnounced` | apps/desktop/native/ApplicationViewModel.cpp:765-775 | After every run workingChanged has been emitted exactly as often as working() changed, a request that is refused for want of a port raising its flag and lowering it again |
| `DanmakuLanes.SupersededForGood` | apps/desktop/native/ApplicationViewModel.cpp:631-736 | A request that is no longer the newest of its lane never is again, because its id and item are not issued together again |
| `DanmakuHandlers.HandlerCanHideWork` | apps/desktop/native/ApplicationViewModel.cpp:765-857 | In the search, automatic and apply lanes, with handlers of the announced result and of workingChanged that call back: the flag of the lane claims nothing untrue, and misses a request exactly if a handler of the result left one and no handler of workingChanged touched the lane |
| `DanmakuHandlers.InvalidationCanHideWork` | apps/desktop/native/ApplicationViewModel.cpp:722-775 | The same for invalidateSession with handlers of its four announcements and of workingChanged at each of the three flags: a request is missed exactly if it was out when the flag of its lane was lowered and no later handler touched the lane |
| `DanmakuHandlers.HandlerCanFeignWork` | apps/desktop/native/ApplicationViewModel.cpp:628-683 | With handlers of an announced begin and of workingChanged that call back: the flag of the lane misses nothing, and claims a request that nothing will end exactly if nothing it waited for was out when the handlers of the begin returned and no handler of workingChanged touched the lane |
| `DanmakuHandlers.QuietInvalidation` | apps/desktop/native/ApplicationViewModel.cpp:722-736 | Without handlers these steps are the invalidation that the statements about runs take as one |
| `DanmakuHandlers.NestedSearchCanStrandTheLane` | apps/desktop/native/ApplicationViewModel.cpp:631-643 | Of a search and one started by a handler of its announcement, the inner request is never accepted, and the outer one exactly if both are for one item |
| `DanmakuLanes.DanmakuViewModel.BeginSearch` | apps/desktop/native/ApplicationViewModel.cpp:631-643 | The state object, ids and flags after the call are those of the specified request, and the port is handed it; without a port it fails at once |
| `DanmakuLanes.DanmakuViewModel.LoadAutomatically` | apps/desktop/native/ApplicationViewModel.cpp:645-661 | The same for the automatic lane |
| `DanmakuLanes.DanmakuViewModel.BeginApply` | apps/desktop/native/ApplicationViewModel.cpp:663-683 | The same for the apply lane, which takes no request while it is busy |
| `DanmakuLanes.DanmakuViewModel.BeginConfiguration` | apps/desktop/native/ApplicationViewModel.cpp:685-720 | The same for the configuration lane and its two kinds of change |
| `DanmakuLanes.DanmakuViewModel.InvalidateSession` | apps/desktop/native/ApplicationViewModel.cpp:722-736 | The detached and reset state objects, cleared ids and lowered flags are the specified invalidation: nothing works and every report is ignored until a request is begun |
| `DanmakuLanes.DanmakuViewModel.HandleSearchReport` | apps/desktop/native/ApplicationViewModel.cpp:777-833 | The tests of ids and key and the ticket test of the state object together accept exactly the specified reports, and object, flag and emissions change as specified |
| `DanmakuLanes.DanmakuViewModel.HandleAutomaticReport` | apps/desktop/native/ApplicationViewModel.cpp:793-844 | The same for the automatic lane and its state object |
| `DanmakuLanes.DanmakuViewModel.HandleConfigurationReport` | apps/desktop/native/ApplicationViewModel.cpp:738-763 | The same for the configuration lane over its operation object |
| `DanmakuLanes.DanmakuViewModel.HandleApplyReport` | apps/desktop/native/ApplicationViewModel.cpp:804-855 | The same for the apply lane over its operation object |
| `PlaybackPreparation.OnlyTheNewestIsPlayed` | apps/desktop/native/ApplicationViewModel.cpp:496-530 | A report makes something playable, or fails it, exactly if it answers the newest preparation; any other changes nothing |
| `PlaybackPreparation.SupersededForGood` | apps/desktop/native/ApplicationViewModel.cpp:534-580 | A superseded, settled or cancelled preparation is never played |
| `PlaybackPreparation.HandlerCanOvertake` | apps/desktop/native/ApplicationViewModel.cpp:496-530 | With handlers of the announced result that call back, the result is emitted in any case; its preparation is then still the newest exactly if they began none, one is out exactly if they left one, and a newer one was emitted before it exactly if one they began was answered meanwhile |
| `PlaybackPreparation.HandlerCanLoseThePreparation` | apps/desktop/native/ApplicationViewModel.cpp:572-580 | With handlers of the announced begin that call back, the report of the new preparation is emitted exactly if something was pending when they returned; otherwise it is never played |
| `PlaybackPreparation.PlaybackViewModel.BeginPreparation` | apps/desktop/native/ApplicationViewModel.cpp:572-580 | Afterwards exactly the report under the id returned counts; state object, number and id are the specified ones |
| `PlaybackPreparation.PlaybackViewModel.CancelPreparation` | apps/desktop/native/ApplicationViewModel.cpp:546-552 | Afterwards no report counts, nothing is emitted and the data shown stay |
| `PlaybackPreparation.PlaybackViewModel.HandleReport` | apps/desktop/native/ApplicationViewModel.cpp:496-530 | The test of id and phase and the ticket test of the state object, to which its own number and key are handed back, accept exactly the specified reports |
| `ClipStack.ActiveLayersAreOnTheStackOnce` | apps/desktop/installer/InstallerPainter.cpp:133-220 | In every reachable state a layer is active exactly when it is on the stack, once, and then belongs to the cache; the render target holds the same clips; cache keys are distinct |
| `ClipStack.CacheIsBounded` | apps/desktop/installer/InstallerPainter.cpp:179-206 | The cache never holds more than eight keys or one more than were active at once |
| `ClipStack.EndEmptiesTheStack` | apps/desktop/installer/InstallerPainter.cpp:325-341 | end() leaves the stack empty and every layer inactive, tells of a failure before or of EndDraw, and keeps the target with its layers exactly if EndDraw succeeds |
| `ClipStack.BeginStartsDrawing` | apps/desktop/installer/InstallerPainter.cpp:297-323 | After every run begin() leaves a painter that is ready with an empty stack if and only if it was not drawing and has or gets all it needs; a refusal is recorded and costs the target and all layers exactly if it comes after the target; while drawing it only fails |
| `ClipStack.PushedClip` | apps/desktop/installer/InstallerPainter.cpp:483-495 | An axis-aligned clip is pushed exactly once when ready and with memory, otherwise fails or does nothing, and is popped again |
| `ClipStack.OtherRoundedClips` | apps/desktop/installer/InstallerPainter.cpp:497-509 | Without an area a rounded clip is an axis-aligned one, without a finite radius a failure, and not ready nothing |
| `ClipStack.PushSucceedsExactly` | apps/desktop/installer/InstallerPainter.cpp:181-226 | A rounded push succeeds if and only if its geometry is cached or can be made and kept, also by evicting an idle one of eight, a layer is free or can be made, and the stack has memory; with a free layer nothing is created |
| `ClipStack.PushedRoundedClip` | apps/desktop/installer/InstallerPainter.cpp:497-539 | A rounded clip gets a layer of its own key that is on no level of the stack, or nothing is pushed and the failure recorded; popping it restores the stack |
| `ClipStack.InstallerPainter.PushRounded` | apps/desktop/installer/InstallerPainter.cpp:497-532 | The fields after the call, for every failing creation and allocation |
| `ClipStack.InstallerPainter.BeginDrawing` | apps/desktop/installer/InstallerPainter.cpp:297-323 | The fields after begin(), for every failing step |
| `ClipStack.InstallerPainter.EndDrawing` | apps/desktop/installer/InstallerPainter.cpp:325-341 | The loop of end() pops everything; a failed EndDraw discards the target |
| `ClipStack.InstallerPainter.PopTop` | apps/desktop/installer/InstallerPainter.cpp:534-539 | Pops the top of a non-empty stack also after a failure |
| `ClipStack.InstallerPainter.Discard` | apps/desktop/installer/InstallerPainter.cpp:158-166 | Empties every layer pool and keeps the geometries |
| `CommandLine.QuoteArgument` | apps/desktop/installer/InstallerCore.cpp:951-978 | The quoting loop computes the specified quoted form |
| `CommandLine.LaunchCommandLine` | apps/desktop/bootstrap/BootstrapWindows.cpp:1160-1171 | The assembled command line is the quoted program and the quoted arguments, each behind a space |
| `CommandLine.SplitReversesQuoting` | apps/desktop/bootstrap/BootstrapWindows.cpp:295-321 | Splitting the joined quoted arguments by the Windows rule returns exactly the arguments, for every list |
| `CommandLine.PlainWordsStayUnquoted` | apps/desktop/installer/InstallerCore.cpp:951-978 | An argument stays as it is if and only if it is not empty and has no blank, line feed, vertical tab or quotation mark |
| `CommandLine.ProgramNameSurvives` | apps/desktop/bootstrap/BootstrapWindows.cpp:1160-1171 | The program name in front is read back exactly when it has no quotation mark and, if it needs quotes, does not end in a backslash |
| `CommandLine.CommandLineSurvives` | apps/desktop/bootstrap/BootstrapWindows.cpp:1160-1171 | Under that condition the started process sees the program and all the arguments |
| `PayloadFooter.ReadLe` | apps/desktop/installer/InstallerCore.cpp:105-118 | The reading loop computes the little-endian number |
| `PayloadFooter.WriteLe` | apps/desktop/installer/InstallerCore.cpp:120-130 | The writing loop stores the little-endian bytes and leaves the rest of the buffer |
| `PayloadFooter.SerializeFooter` | apps/desktop/installer/InstallerCore.cpp:461-471 | The buffer holds the specified 64 bytes |
| `PayloadFooter.ParseFooter` | apps/desktop/installer/InstallerCore.cpp:419-459 | The parser, with its errors in order |
| `PayloadFooter.ParsePrinted` | apps/desktop/installer/InstallerCore.cpp:419-471 | A printed footer is accepted exactly when 0 < n and n + 64 does not exceed the file size, and returns size and digest |
| `PayloadFooter.PrintAccepted` | apps/desktop/installer/InstallerCore.cpp:419-471 | Every accepted footer is the printed form of its metadata, and offset + size + 64 is the file size |
| `PayloadFooter.RefusedForTheFirst` | apps/desktop/installer/InstallerCore.cpp:419-459 | Every footer gets the first error that applies, or its size and digest, with the magic text and the numbers written out |
| `PayloadFooter.FooterInjective` | apps/desktop/installer/InstallerCore.cpp:461-471 | No two payloads share a footer |
| `PayloadExtraction.ProcessPayload` | apps/desktop/installer/InstallerCore.cpp:225-358 | Success leaves the destination equal to the payload with the digest of the footer; failure leaves the file system as it was exactly if no call that deletes has failed, and otherwise a beginning of the payload in a new file; without faults the outcome is the specified one |
| `PayloadExtraction.AppendedPayloadIsExtracted` | apps/desktop/installer/InstallerCore.cpp:225-358 | A payload appended to any program with its footer is found and extracted exactly if the digest is its own, and not onto an existing file |
| `PayloadExtraction.ExtractedWasAppended` | apps/desktop/installer/InstallerCore.cpp:225-358 | Whatever is extracted is of that form, with its own digest; the failures come in order |
| `PayloadExtraction.CopyPayload` | apps/desktop/installer/InstallerCore.cpp:310-339 | The chunk loop hashes and writes the payload from its start, whatever call fails |
| `PayloadExtraction.Disk.ReadTail` | apps/desktop/installer/InstallerCore.cpp:206-223 | The reading loop collects exactly the last bytes of the file, through partial reads |
| `InstallPaths.WithinTransitive` | apps/desktop/installer/InstallerCore.cpp:375-396 | Path containment is transitive |
| `InstallPaths.WithinIsAnOrder` | apps/desktop/installer/InstallerCore.cpp:375-396 | It is reflexive, and antisymmetric up to samePath |
| `InstallPaths.SamePathWithin` | apps/desktop/installer/InstallerCore.cpp:750-761 | Containment does not tell the same paths apart, on either side |
| `InstallPaths.TrimTrailingSeparators` | apps/desktop/installer/InstallerCore.cpp:367-373 | The trimming loop computes the specified form |
| `InstallPaths.HasUnsafeSegmentEnding` | apps/desktop/installer/InstallerCore.cpp:398-415 | The loop finds exactly the paths with an empty segment or one ending in a space or a period |
| `InstallPaths.NormalizeIdempotent` | apps/desktop/installer/InstallerCore.cpp:705-748 | A normal form is its own normal form |
| `InstallPaths.InspectExistingPath` | apps/desktop/installer/InstallerCore.cpp:840-899 | The loop over components and entries computes the specified state |
| `InstallPaths.InspectFindsTheState` | apps/desktop/installer/InstallerCore.cpp:840-899 | That state is the first obstacle on the way, or the contents of the directory |
| `InstallPaths.NoReparsePointIsFollowed` | apps/desktop/installer/InstallerCore.cpp:840-876 | A path counts as a directory only if no component of it is a reparse point, a file or missing |
| `InstallPaths.NothingInsideProtected` | apps/desktop/installer/InstallerCore.cpp:782-799 | A candidate below anything inside a protected root is refused |
| `InstallPaths.ResolveInstallDirectory` | apps/desktop/installer/InstallerCore.cpp:901-949 | The suffix loop computes the specified resolution |
| `InstallPaths.NewInstallTakesTheLeast` | apps/desktop/installer/InstallerCore.cpp:901-949 | A new installation goes to the selected directory, or to the least of its children Yanami, Yanami (2) to Yanami (100) that is outside the roots and missing or empty; otherwise it is refused, and the verdict says why |
| `InstallPaths.RepairIsResolvedExactly` | apps/desktop/installer/InstallerCore.cpp:901-944 | From a selection that passes the policy a registered installation is accepted at a path if and only if it is the same path as the registered one, outside the roots and neither a file nor inaccessible, and is the selection itself or, in a folder in use, its child Yanami or Yanami (2) to Yanami (100) |
| `InstallPaths.RepairElsewhereIsRefused` | apps/desktop/installer/InstallerCore.cpp:912-929 | A registered path that is none of these is refused as elsewhere, an invalid one with its reason |
| `InstallPathLaws.WithinExactly` | apps/desktop/installer/InstallerCore.cpp:375-396 | A path lies within another if and only if a prefix that ends at one of its components is the same path |
| `InstallPathLaws.BadSegments` | apps/desktop/installer/InstallerCore.cpp:398-415 | The segment check finds exactly the paths with a segment behind the drive that is empty or ends in a period or a space |
| `InstallPathLaws.NormalizedForTheFirst` | apps/desktop/installer/InstallerCore.cpp:705-748 | Every path gets the first error that applies, with the forbidden characters written out, or its trimmed full form |
| `InstallPathLaws.InspectionIsDecided` | apps/desktop/installer/InstallerCore.cpp:840-899 | The first component that is not a plain directory decides the state, or else the entries other than . and .. |
| `InstallPathLaws.ValidatedForTheFirst` | apps/desktop/installer/InstallerCore.cpp:763-838 | Every candidate gets the first refusal that applies, protection being that one of its components ends a protected root |
| `InstallPathLaws.NormalFormIsInspected` | apps/desktop/installer/InstallerMain.cpp:407-419 | The strict check looks at the normal form of the candidate |
| `InstallPaths.AcceptedExactly` | apps/desktop/installer/InstallerCore.cpp:763-838 | The strict check accepts exactly the normal paths below a drive that are outside the protected roots and are missing or empty, or the registered installation if that can be inspected |
| `InstallPaths.ResolutionRespectsThePolicy` | apps/desktop/installer/InstallerCore.cpp:763-838 | An accepted resolution is outside every protected root, is the registered installation where there is one, and otherwise missing or empty |
| `InstallPaths.ResolutionRevalidates` | apps/desktop/installer/InstallerMain.cpp:407-419 | It passes the strict check on the same file system with the same verdict, and resolving it again returns itself |
| `DesktopMonitor.MilestonesInOrder` | apps/desktop/bootstrap/BootstrapWindows.cpp:1243-1406 | In one run desktop_ready and handoff_complete are emitted at most once and in order, with a window the second only after the fade, and after ready the run ends only by cancellation or around the handoff |
| `DesktopMonitor.HandoffWaitsForTheFade` | apps/desktop/bootstrap/BootstrapWindows.cpp:974-990 | With a window the handoff comes only after a timer that was served in a round later than the first that saw the desktop ready, and at least 220 ms after that; without readiness the splash stays as it was |
| `DesktopMonitor.FadeIsHandedOver` | apps/desktop/bootstrap/BootstrapWindows.cpp:1319-1340 | Once a timer 220 ms after the first ready round is served, a run has ended or, where the launcher waits, has emitted handoff_complete |
| `DesktopMonitor.RunsEndInTime` | apps/desktop/bootstrap/BootstrapWindows.cpp:1273-1404 | What each further round makes of a run: 73 for a cancellation not declined; the handoff as soon as ready and faded, with 0 unless the launcher waits or the child has exited; the code of the child; 71 or a retry; 70 when overdue; and otherwise it goes on |
| `DesktopMonitor.SplashWaitsAgain` | apps/desktop/bootstrap/BootstrapWindows.cpp:1494-1524 | An attempt that is retried leaves the splash waiting again, except after an exit with the sentinel |
| `DesktopMonitor.ExitInFadeIsHandedOn` | apps/desktop/bootstrap/BootstrapWindows.cpp:1342-1357 | A child that exits during the fade still yields the handoff and its own code, unless the user cancels |
| `DesktopMonitor.ReasonsAreTruthful` | apps/desktop/bootstrap/BootstrapWindows.cpp:1273-1396 | Of the round in which a run ends: exit codes reported are those of the child; a time-out comes where no dialog asks, before readiness, and no sooner than the deadline, which only declined cancellations and retries have renewed; a cancellation was not declined and asked for by the close button of that round, or in the dialog of the round before, which was shown because the desktop was overdue |
| `DesktopMonitor.ReadyIsRetriedOnlyBySentinel` | apps/desktop/bootstrap/BootstrapWindows.cpp:1494-1524 | A ready desktop is started over exactly if its own exit code is 0xFFFFFFFF |
| `DesktopMonitor.LaunchInOrder` | apps/desktop/bootstrap/BootstrapWindows.cpp:1494-1524 | Without such an exit the bounds hold over the whole retry loop |
| `DesktopMonitor.AttemptsEnd` | apps/desktop/bootstrap/BootstrapWindows.cpp:1494-1524 | An attempt ends the launch with the result of its run unless that is -1, and one without a child with 71 unless retried |
| `DesktopMonitor.SentinelBreaksTheOrder` | apps/desktop/bootstrap/BootstrapWindows.cpp:1513-1522 | With such an exit desktop_ready is emitted again as soon as the new desktop is ready |
| `DesktopMonitor.OtherCodesKeepTheOrder` | apps/desktop/bootstrap/BootstrapWindows.cpp:1494-1524 | Children that never exit with 0xFFFFFFFF cause no such exit |
| `DesktopMonitor.Watcher.Round` | apps/desktop/bootstrap/BootstrapWindows.cpp:1259-1404 | One round of the loop computes the specified round |
| `DesktopMonitor.Watcher.PumpAndAsk` | apps/desktop/bootstrap/BootstrapWindows.cpp:1216-1277 | A declined cancellation clears the request and renews the deadline |
| `DesktopMonitor.Watcher.MonitorDesktop` | apps/desktop/bootstrap/BootstrapWindows.cpp:1243-1406 | The loop computes the specified run |
| `SplashAnimation.SpinnerIsExact` | apps/desktop/bootstrap/BootstrapWindowsAnimation.hpp:129-150 | The reduced 64-bit form equals the plain angle and lies in [0, 360) |
| `SplashAnimation.SpinnerPeriod` | apps/desktop/bootstrap/BootstrapWindowsAnimation.hpp:129-150 | The angle has period 1500 ms |
| `SplashAnimation.SpinnerHasNoShorterPeriod` | apps/desktop/bootstrap/BootstrapWindowsAnimation.hpp:129-150 | and no shorter one |
| `SplashAnimation.FadeIsRounded` | apps/desktop/bootstrap/BootstrapWindowsAnimation.hpp:83-105 | The opacity is within half a unit of 255 (1 - t/220)^3 and in 0..255 |
| `SplashAnimation.FadeNeverBrightens` | apps/desktop/bootstrap/BootstrapWindowsAnimation.hpp:83-105 | The opacity never increases with time |
| `SplashAnimation.FadeCompletesExactly` | apps/desktop/bootstrap/BootstrapWindowsAnimation.hpp:86-92 | The fade is complete exactly from 220 ms on, and then invisible |
| `Shortcuts.Synchronize` | apps/desktop/installer/InstallerShortcuts.cpp:361-442 | Whatever fails and whoever interferes, the program does at most one rightful thing to the destination, which the result reports: where nothing was found it only ever fills the empty place, and what it replaces is writable or came after its second look; without interference the file is as it was or the complete new link; staging is gone unless removing it failed; undisturbed and without faults the outcome is the specified one, which keeps read-only links |
| `Shortcuts.RemoveOwned` | apps/desktop/installer/InstallerShortcuts.cpp:314-334 | Deletes only a file whose identity and bytes equal those inspected as owned; without faults exactly if it is not read-only |
| `Shortcuts.AtomicallyReplaceExisting` | apps/desktop/installer/InstallerShortcuts.cpp:277-312 | Replaces a file by the staged link in one step, or changes nothing; the second look is what keeps read-only files and reparse points, and without interference after it nothing else is replaced |
| `Shortcuts.Inspect` | apps/desktop/installer/InstallerShortcuts.cpp:150-224 | What the inspection reports of the guarded file |
| `Shortcuts.RepeatChangesNothing` | apps/desktop/installer/InstallerShortcuts.cpp:345-442 | Repeating an undisturbed success changes nothing |
| `Shortcuts.DeselectUndoesSelect` | apps/desktop/installer/InstallerShortcuts.cpp:361-442 | Deselecting removes what selecting installed, if and only if that is not a read-only file |
| `Shortcuts.DeselectionRemovesItsOwn` | apps/desktop/installer/InstallerShortcuts.cpp:361-442 | A deselection removes a file if and only if it is a link that leads to the target and is not read-only; links that lead elsewhere stay |
| `Shortcuts.SelectionWritesTheLink` | apps/desktop/installer/InstallerShortcuts.cpp:361-442 | A selection keeps a link that says all that was asked for, and else writes one with these fields, never over a read-only file, a directory or a reparse point |
| `Shortcuts.OthersAreRefused` | apps/desktop/installer/InstallerShortcuts.cpp:361-382 | Exactly the requests with absolute paths, a link name and clean texts are taken |
| `WriteProbe.RollbackWritableProbe` | apps/desktop/installer/InstallerMain.cpp:421-495 | Unless it reports a failed rollback the tree is as before exactly if no created folder was hidden from the attribute query; success means that the probe file was written; without faults it succeeds exactly if the path can be taken, and otherwise says what is in the way |
| `WriteProbe.RemoveCreated` | apps/desktop/installer/InstallerMain.cpp:445-455 | The removal loop takes the created chain away deepest first, or says that it did not |
| `WriteProbe.FindExisting` | apps/desktop/installer/InstallerMain.cpp:424-439 | The loop upwards finds the deepest existing prefix |
| `WriteProbe.ChainEnd` | apps/desktop/installer/InstallerMain.cpp:447-453 | Of the created chain the deepest folder is empty, and removing it shortens the chain by one |
| `InstallerWorkflow.AtMostOneInstall` | apps/desktop/installer/InstallerMain.cpp:1938-2060 | Over every run at most one installation is in flight, exactly while the window says so |
| `InstallerWorkflow.DispatchesAreAuthorized` | apps/desktop/installer/InstallerMain.cpp:1938-1985 | Every dispatched directory was accepted for the selection shown in the world that the message which dispatched it found: it passes the strict check on that file system, is outside the protected roots, and is the location registered then, where there is one |
| `InstallerWorkflow.ChoicesSurvive` | apps/desktop/installer/InstallerMain.cpp:1611-1648 | The shortcut choices shown are those the user set, through every page, failure, review and retry |
| `InstallerWorkflow.DispatchCarriesTheChoices` | apps/desktop/installer/InstallerMain.cpp:1973-1981 | and every installation is given them |
| `InstallerWorkflow.FailureKeepsTheSelection` | apps/desktop/installer/InstallerMain.cpp:1999-2043 | After a failure review and retry start from the folder selected before |
| `InstallerWorkflow.OptionsAreShown` | apps/desktop/installer/InstallerMain.cpp:1611-1700 | What each page change shows: the registered folder or the one of before, an edit unless one is registered, and a button enabled exactly if the folder can be used |
| `InstallerWorkflow.MessagesOfThePage` | apps/desktop/installer/InstallerMain.cpp:1625-1645 | Over every run the messages that can come are those of the controls of the page shown |
| `InstallerWorkflow.InstallTakesEffect` | apps/desktop/installer/InstallerMain.cpp:1938-1997 | The button starts the installation the folder shown resolves to, with the choices shown; or shows the options again if another folder is registered meanwhile; or is disabled |
| `InstallerWorkflow.RetryTakesEffect` | apps/desktop/installer/InstallerMain.cpp:2010-2020 | A retry does the same from the folder registered or selected before, or shows the options if that cannot be used |
| `InstallerWorkflow.OutcomeIsShown` | apps/desktop/installer/InstallerMain.cpp:2029-2060 | A success shows the last page and the installed folder, a failure recovery; a window that cannot draw closes |
| `InstallerWorkflow.WhenItCloses` | apps/desktop/installer/InstallerMain.cpp:2457-2463 | The window closes only when cancelled or without rendering while idle, from the last page, or on an outcome it cannot draw |
| `InstallerWorkflow.LostRenderingNeverIdles` | apps/desktop/installer/InstallerMain.cpp:2275-2287 | A window that can no longer draw stays open only while an installation runs |
| `InstallerWorkflow.InstallerWindow.BeginInstall` | apps/desktop/installer/InstallerMain.cpp:1938-1997 | The fields after the call are those of the specified dispatch or refusal |
| `InstallerWorkflow.InstallerWindow.ReviewInstallOptions` | apps/desktop/installer/InstallerMain.cpp:1999-2008 | The fields after the call |
| `InstallerWorkflow.InstallerWindow.RetryInstall` | apps/desktop/installer/InstallerMain.cpp:2010-2020 | The fields after the call, which reads the registration twice |
| `InstallerWorkflow.InstallerWindow.HandleInstallFinished` | apps/desktop/installer/InstallerMain.cpp:2029-2060 | The fields after a success or a failure, with and without a drawable window |
| `Utf8.DecodeEncode` | apps/desktop/native/AsyncImageKey.hpp:56-62 | Decoding the UTF-8 of a text returns the text |
| `Utf8.DecodedExactly` | apps/desktop/native/AsyncImageKey.hpp:56-62 | Bytes are decoded to a text if and only if they are its UTF-8, and perhaps the beginning of one more character |
| `ImageKeys.FromHexOfHex` | apps/desktop/native/AsyncImageKey.hpp:49-56 | Decoding the base16 of bytes returns the bytes |
| `ImageKeys.KeyRoundTrip` | apps/desktop/native/AsyncImageKey.hpp:40-85 | The identifier of a text decodes to the text below the root exactly if the text has only clean components, no NUL, no leading byte order mark and, on Windows, no backslash |
| `ImageKeys.KeyInjective` | apps/desktop/native/AsyncImageKey.hpp:42-62 | Distinct texts have distinct identifiers |
| `ImageKeys.ComponentsRoundTrip` | apps/desktop/native/AsyncImageKey.hpp:68-84 | In particular for every list of clean components |
| `ImageKeys.FinalLineFeed` | apps/desktop/native/AsyncImageKey.hpp:49-56 | Digits with a final line feed are accepted exactly if their number is odd, and are then read as if a zero preceded them |
| `ImageKeys.OnlyHexIsRead` | apps/desktop/native/AsyncImageKey.hpp:42-54 | An identifier is read only if it is v1- and pairs of hexadecimal digits, or with one digit less and a line feed |
| `ImageKeys.AcceptedStartsWithRoot` | apps/desktop/native/AsyncImageKey.hpp:30-38 | Whatever the root and however paths are cleaned, an accepted path begins with the root and a slash |
| `ImageKeys.AcceptedIsBelowRoot` | apps/desktop/native/AsyncImageKey.hpp:30-85 | Every accepted identifier names a strict descendant of the root whose components between slashes are not empty, dot or dot-dot and have no colon |

## Left out

- ImageLoads.StepKeepsInv: the C++ memory orders are not modelled, every atomic access is one step of a sequentially consistent machine, and image decoding and the choice of the thread pool are arbitrary outcomes.
- ImageLoads: the registry, the counters and the responses are one state changed by steps rather than objects, because the claims are about interleavings of their methods.
- MediaQueues.AfterKeepsInv: the operation states are values in a map instead of objects on the heap, and the dispatch closures are represented by the request they carry; calls back from the signals of the view model are modelled, those from stateChanged of an operation state are not; the payload that some signals pick out of a result is left out.
- ResourceState.PhaseTellsTheRun: the time stamp of a resource is not modelled, and payloads are texts.
- DanmakuLanes.WorkingIffUnsettled: each call and each report of the port is one step; handlers that call back are what the module DanmakuHandlers is about.
- DanmakuHandlers.HandlerCanFeignWork: each call that a handler makes is one step, without handlers of its own that call back; the same holds of the other statements of that module. Handlers that call back during a request without a port are not modelled.
- PlaybackPreparation.OnlyTheNewestIsPlayed: each call is one step; handlers that call back are what PlaybackPreparation.HandlerCanOvertake and PlaybackPreparation.HandlerCanLoseThePreparation are about, where each such call is again one step; the reporter calls around a switch are left out.
- ClipStack.ActiveLayersAreOnTheStackOnce: a cached layer is a number instead of a pointer, so that a freed layer is a number the cache no longer holds; drawing, text and transforms are left out, and the clamped radius is a real number.
- CommandLine.SplitReversesQuoting: texts are without NUL by assumption of the caller; the limit on the length of a command line is not modelled.
- PayloadExtraction.ProcessPayload: SHA-256 itself, the handle that verifies an already extracted file, and other programs acting on the destination, which is open without sharing, are left out.
- InstallPaths.NormalizeIdempotent: reserved device names and the other spellings GetFullPathNameW knows are part of the assumed laws, not computed.
- InstallPaths.ResolutionRevalidates: the statement is about one file system; a change between resolution and re-validation is what the re-validation is for.
- DesktopMonitor.MilestonesInOrder: the diagnostics, the animation milestone and the ready-file probe are not modelled; the kernel objects appear as what each round of the loop finds.
- Shortcuts.Synchronize: foreign programs act between the calls of the program whenever no guard is held, and the shell's COM calls are one arbitrary outcome each for reading and writing.
- WriteProbe.RollbackWritableProbe: other programs changing the tree during the probe are not modelled.
- InstallerWorkflow.AtMostOneInstall: an outcome that the worker thread cannot post is an installation that never finishes; focus, validation texts and drawing are left out.
- ImageKeys.KeyRoundTrip: texts are sequences of Unicode scalar values, so unpaired surrogates in an identifier are not represented; the canonical form of the cache root is assumed.
- SplashAnimation: the icon size search and the scaling for other resolutions, which are single formulas.
- The Linux launcher, environment and profile setup, settings, translations, QML, the catalog and session coordinators and the Rust crates are not part of this model.
- Launcher options, the installer's own command line, localized error texts and progress segments, which are lookups without state.
