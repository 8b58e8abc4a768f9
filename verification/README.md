# A verified model of watch rooms

A room is a set of people watching one source together. A producer (an app, or a
remote remux worker) uploads segments to a bucket and publishes playlists; a hub
keeps everyone's playback in step. The guarantees that matter come from several
functions working together while others interleave, and those are what is proved
here, over every input, every interleaving and every reachable state.

Each module is one component. Where the code runs concurrently the module is a
machine whose steps are the code's own atomic pieces: one store script, one call to
the bucket or the relay service, one section under a lock, or one event of a room's
loop. A step that is not enabled changes nothing, so a theorem about every sequence
of events is a theorem about every run. Where the code updates fields, arrays or
maps in place, a class or a method does so too and is proved against the function
that says what it computes.

| module | component |
|---|---|
| Playlists | rendering a playlist against what is confirmed; judging a master |
| RoomStore | the media fields of a room and the scripts that change them |
| Publish, PublishSteps | a publish from its first read to its commit, against everything else |
| History, PublishHistory, ClaimHistory | what a room has stored and who may publish, said from what happened to it |
| BlockingReload | requests that wait for the publish they need |
| AssVtt, AssStyles, DialogueCues | ASS cues compiled to WebVTT text, what they mean, and where cues are put |
| RoomLock, FollowDebounce, RemuxRuns, RemuxProgress | the remote remux orchestrator |
| PositionHandover | the hub's hand-over of positions to it |
| HubSeats, HubJoins, HubRoom | who sits in a room, who may take a seat over, and the hub's tables |
| HubGate, HubPlayback | the synchronized start, and what commands and reports leave the room playing |
| RelayRotation, RelayMoves | a room's own relay, moved and swept |
| WindowLimiter, TokenBucket, JobQuota | the limiters |

## What is assumed

- Clocks do not run backwards.
- Claims, run ids, relay ids and job ids are fresh when minted: an event that would
  reuse one is not enabled.
- A store call that reports an error did not apply.
- A remux run publishes no region but its own (crates/ss-remux/src/publish.rs:203). A
  dispatch the worker refuses may have started its run all the same; if that was a
  restart, giving the claim back succeeds.
- Rooms are live: nothing expires from the store on its own and no room is torn down
  half way. In RemuxRuns the source is not swapped.
- For the start gate: a source swap and its playback reset are one step, a socket that
  resumes a seat keeps its kind and features, and the media is only ever reread as
  something more members play. For seats: the store answers when a seat is taken over.
  What happens otherwise is stated exactly, by `HubSeats.ReseatKeepsExactly`,
  `HubGate.FailedReseatKeepsExactly` and `HubGate.RefreshKeepsExactly`, with a
  reachable state where each of the last two goes wrong.
- For the relay: a move installs or abandons its relay within the sweep's grace.
  `RelayRotation.ASlowMoveLosesItsRelay` is a run without it.

## Where the code does something other than what it says

The code is followed, and what it does is stated.

- A publish refused for its sequence should change nothing. If the fence is unset and
  the sequence negative, it still names its run (`RoomStore.RefusedChangesNothing`,
  `RoomStore.UnsetFenceRefusal`).
- Confirming more can make a playlist stop rendering, when it lets the cut reach a
  second map that is not confirmed (`Playlists.MoreConfirmedRendersIff`).
- A publish with refused metadata has already committed and returns before it notifies:
  a request that it would serve sleeps until its deadline (`BlockingReload.StrandsExactly`).
- Follow keeps the produced length of the run it replaces, and the region of that run
  stays marked as growing until the new one publishes. Positions that nobody will
  produce then count as covered, and a seek back to them is ignored
  (`RemuxRuns.CoveredInErrorExactly`, `RemuxRuns.SeekBackIsIgnored`).
- The last socket to drop releases a pending start, although giving up the last
  connected seat abandons it (`HubGate.LastToDropReleases`).
- A call of the window limiter reads the clock before it takes the lock. Served after
  a later stamp it can be allowed over the limit, and so can the newest call once a
  sweep has judged a key by a hit that is not its newest
  (`WindowLimiter.ForgettingShowsExactly` says when,
  `WindowLimiter.OvertakenCallSlipsThrough` and `WindowLimiter.NewestCallSlipsThrough` how).
- A cue that ends before it starts frees the bottom of the picture while the one
  before it is still up (`DialogueCues.BackwardsCueLetsOverlap`).
- Two jobs asking for one free place can both be refused (`JobQuota.BothCanBeRefused`).

## Model

| member | source | states |
|---|---|---|
| Playlists.Render | internal/media/publisher.go:195-238 | The one-pass loop that holds tags back delivers exactly the lines up to the last segment before the first unconfirmed one, and nothing if no segment or an unconfirmed map comes first |
| Playlists.RenderedNamesConfirmed | internal/media/publisher.go:192-238 | No rendering names an object that is not confirmed or is of another generation |
| Playlists.RendersTheConfirmedRun | internal/media/publisher.go:203-238 | The segments listed are exactly the longest run of confirmed segments from the start, in order |
| Playlists.RendersExactly | internal/media/publisher.go:203-228 | A playlist renders if and only if some segment is confirmed with all before it, and so is every map with no unconfirmed segment before it |
| Playlists.DeliversExactly | internal/media/publisher.go:195-238 | Line k is delivered if and only if every segment is confirmed, or some segment at or after k is confirmed with all before it |
| Playlists.DeliversInPlace | internal/media/publisher.go:203-238 | The k-th line delivered is the k-th submitted: a tag with its own text, a map or a segment with its own name under the generation |
| Playlists.DeliversTheWhole | internal/media/publisher.go:229-238 | With every segment confirmed the playlist is delivered to its last line, the end of the stream included |
| Playlists.RenderingsGrow | internal/media/publisher.go:192-238 | Of two renderings of one playlist, the one with less confirmed is a prefix of the other's text |
| Playlists.MoreConfirmedRendersIff | internal/media/publisher.go:208-225 | With more confirmed the playlist still renders if and only if no map between the two cuts is unconfirmed |
| Playlists.MoreConfirmedCanUnrender | internal/media/publisher.go:208-225 | A playlist that renders with one segment confirmed and not with two |
| Playlists.JudgeClientMaster | internal/media/clientmedia.go:102-143 | Invalid exactly when a line breaks the grammar, ready exactly when every playlist named is available, early otherwise |
| RoomStore.Store.CommitPublish | internal/room/commit.go:142-198 | The script's guards in their order, then the confirmed set, playlists, regions, duration, offset, version and progress all at once |
| RoomStore.Store.PassFence | internal/room/commit.go:153-167 | The run fence: another run is refused, an equal sequence with an equal digest is a replay, a sequence not above the last is refused |
| RoomStore.AcceptedExactly | internal/room/commit.go:150-167 | A publish is accepted if and only if the room is live, claim and generation match, and its run, if any, is the fenced one with a higher sequence |
| RoomStore.RefusedChangesNothing | internal/room/commit.go:150-167 | A refused or replayed publish leaves the room as it was if and only if it did not meet an unset fence with a refused sequence; even then only the fence differs |
| RoomStore.UnsetFenceRefusal | internal/room/commit.go:153-166 | That case is exactly a negative sequence |
| RoomStore.RetryIsReplayed | internal/room/commit.go:163-165 | A retry with the claim, generation, run, sequence and digest of an accepted publish is answered as a replay and changes nothing, whatever stat results, playlists or regions it carries |
| RoomStore.ReuseIsRefused | internal/room/commit.go:162-166 | Another publish at or below that sequence is refused and changes nothing |
| RoomStore.AnswersExactly | internal/room/commit.go:150-198 | A publish is told the first thing wrong with it, in the order gone, claim, generation, run, replay, sequence; an accepted one, whether the offset moved |
| RoomStore.ScriptsAnswer | internal/room/store.go:141-218 | When a claim is taken, when it was taken already, and when a promotion or a swap goes through |
| RoomStore.Store.SetProducerRun | internal/room/commit.go:235-245 | The fence names the run and forgets the last publish |
| RoomStore.Store.ReserveUpload | internal/room/store.go:141-176 | A claim is taken once, by an uploading room, in both places it is kept |
| RoomStore.Store.PromoteLocal | internal/room/store.go:179-218 | A local source gains a claim and loses its fence, in the states that allow it |
| RoomStore.Store.ReleaseUpload | internal/room/store.go:243-254 | The holder's release clears both places and the fence; anyone else's does nothing |
| RoomStore.Store.SwapSource | internal/room/store.go:881-936 | The next generation with nothing of the last one's media, claim or fence |
| RoomStore.Store.SetMediaOffset | internal/room/store.go:778-801 | The version counts the changes of the offset |
| Publish.RenderedRegions | internal/httpapi/clientmedia.go:587-623 | The regions stored are those named whose master is held, or known and not looked up, and those known and not named, no longer growing |
| Publish.TakeConfirmed | internal/httpapi/clientmedia.go:331-351 | Of the objects a publish confirms, those the bucket was seen to hold, in order |
| Publish.RenderAllMedia | internal/httpapi/clientmedia.go:507-543 | One malformed playlist refuses all; otherwise exactly those that render are rendered |
| Publish.ConfirmedFromStats | internal/httpapi/clientmedia.go:331-351 | Every name counted confirmed was in the bucket under the generation the publish read |
| Publish.AdvanceKeeps | internal/httpapi/clientmedia.go:318-397 | Each step of a publish keeps what it holds true of the bucket, and of the room while its generation is current |
| Publish.RegionsAfterHeld | internal/httpapi/clientmedia.go:587-623 | Every region a publish stores has its master among the playlists it saw or renders |
| Publish.CommitOk | internal/room/commit.go:142-198 | A commit made on reads that may be stale keeps the room right, because the script refuses it if the generation moved |
| Publish.RoomStep | internal/room/store.go:141-254 | So does every claim, promote, release, swap, fence move, offset and upload |
| Publish.NoStoredPlaylistNamesAMissingObject | internal/media/clientmedia.go:8-10 | Under any interleaving every object a stored media playlist names is of the room's generation, in the published set and in the bucket |
| Publish.NoStoredMasterNamesAMissingPlaylist | internal/httpapi/clientmedia.go:544-623 | Under any interleaving every playlist a stored master names is stored, and every listed region has its own master stored |
| Publish.ClaimKeyAgrees | internal/room/store.go:141-254 | The claim in the room's hash always equals the one under its own key |
| Publish.VersionCountsOffsetMoves | internal/room/commit.go:182-189 | Within a generation the version goes up by one exactly when the offset changes, whoever changes it |
| Publish.OffsetMovesWithTheMaster | internal/httpapi/clientmedia.go:371-385 | A publish that changes the offset stores the room's master in the same commit |
| Publish.LocalNeedsASwap | internal/room/store.go:894-909 | A local source is never of the first generation: only a swap makes a source local, and it raises the generation |
| Publish.AcceptedInOrder | internal/room/commit.go:153-167 | Between two moves of the fence all accepted publishes with a run name one run, in strictly rising sequence |
| Publish.ReplacedRunStaysOut | internal/room/commit.go:232-245 | Once the fence moves off a run, no publish of that run under that claim is accepted or taken for a retry again |
| PublishHistory.TimelineStored | internal/room/commit.go:176-189 | Over every run: the regions, duration and offset stored are each what the last accepted publish to send any sent (the offset may also be set by itself), and nothing if none has since the source was swapped |
| PublishHistory.ProgressStored | internal/room/commit.go:190-196 | The same of the received and source bytes; the heartbeat also starts with a promoted claim and ends with the claim |
| PublishHistory.PlaylistStored | internal/room/commit.go:168-175 | The same of each playlist, by name |
| PublishHistory.PublishedIsWhatWasConfirmed | internal/room/commit.go:168-172 | An object is in the published set if and only if a publish accepted since the last swap confirmed it |
| PublishHistory.RegionsSent | internal/httpapi/clientmedia.go:587-623 | Of the regions a publish names, those with a master are sent as it named them and no others; of those it does not name, all it knew, no longer growing |
| PublishHistory.CommitIsOfTheRequest | internal/httpapi/clientmedia.go:362-397 | The rest of a commit is the request's own; the offset goes only with the room's master |
| PublishHistory.ConfirmedByStats | internal/httpapi/clientmedia.go:331-351 | A name is confirmed exactly when the stat of one of its places in the request found it |
| PublishSteps.SendsWhatItFound | internal/httpapi/clientmedia.go:318-397 | Under any interleaving what a publish has rendered is exactly what it was sent that renders against all it confirmed and read as published, and masters whose playlists it rendered or saw |
| PublishSteps.JudgedExactly | internal/httpapi/clientmedia.go:544-586 | A master that breaks the grammar ends the publish, and one whose playlists are all rendered or seen is rendered; no other is |
| PublishSteps.AloneIsStored | internal/httpapi/clientmedia.go:318-397 | With nobody else about, a publish that passes stores what it confirms and finds, and every media playlist that renders against that; no other changes |
| PublishSteps.AloneStoresItsMaster | internal/httpapi/clientmedia.go:544-586 | And its master, if all it names renders with it |
| ClaimHistory.ClaimStored | internal/room/store.go:141-254 | Over every run: the claim is the last one reserved or promoted to, and none once its holder released it or the source was swapped |
| ClaimHistory.FenceStored | internal/room/commit.go:153-167 | The fence names the run it was last moved to, or the first to publish since the claim or the source changed hands, and remembers the last publish accepted since |
| ClaimHistory.SourceStored | internal/room/store.go:881-936 | The source is local as the last swap made it; the status is what was last made of it |
| ClaimHistory.GenerationCountsSwaps | internal/room/store.go:881-936 | The generation is how often the source was swapped |
| BlockingReload.PlaylistReach | internal/httpapi/playlistwait.go:99-114 | The number of the last segment by the last media sequence tag, and whether the stream ended |
| BlockingReload.ReachIsFirstAndCount | internal/httpapi/playlistwait.go:99-114 | The reach is the number the last media sequence tag gives, or 0, plus how many segment lines there are, less one |
| BlockingReload.ServesWhatItLists | internal/httpapi/playlistwait.go:97-114 | A playlist serves a request exactly when it has ended or the segment asked for is below that first number plus that count |
| BlockingReload.AppendingReachesFurther | internal/httpapi/playlistwait.go:97-114 | Appending lines moves the reach by exactly the segments among them, so a request once satisfied stays so |
| BlockingReload.Serve | internal/httpapi/media.go:157-177 | The request is answered with the first body that reaches far enough, or the last one it had when it gave up |
| BlockingReload.PlaylistWaiter.ChannelFor | internal/httpapi/playlistwait.go:27-40 | Everyone waiting on a room shares one open channel |
| BlockingReload.PlaylistWaiter.Notify | internal/httpapi/playlistwait.go:42-56 | Exactly that room's channel is closed, and the next to ask gets a new one |
| BlockingReload.StoreClientMetadata | internal/httpapi/clientmedia.go:639-658 | Accepts exactly within the limits and with every track title valid |
| BlockingReload.SleepersHaveReadTheNewest | internal/httpapi/media.go:145-177 | A request asleep on an open channel has read the newest stored playlist, or a publisher is between its commit and its close |
| BlockingReload.NoLostWakeup | internal/httpapi/playlistwait.go:28-78 | While publishes announce themselves, no reachable state leaves a request asleep over a playlist that would serve it with nobody about to wake it |
| BlockingReload.NotifierWakes | internal/httpapi/playlistwait.go:43-56 | Whoever still owes the wake-up closes the sleeper's channel by its own next steps |
| BlockingReload.ReadAnswersExactly | internal/httpapi/media.go:145-177 | A read ends a request exactly when the playlist is gone, nothing in particular was asked for, or it serves the request; otherwise the request waits on the channel it took before reading |
| BlockingReload.WokenReadsAgain | internal/httpapi/media.go:157-177 | A request woken by a close takes the next channel and reads what is stored then |
| BlockingReload.CommitStoresItsPlaylists | internal/httpapi/clientmedia.go:397-427 | A commit stores each of its playlists and touches no other |
| BlockingReload.StrandsExactly | internal/httpapi/clientmedia.go:420-427 | A publish can lose a wake-up if and only if its metadata is refused and one of its playlists would serve a waiting request |
| AssVtt.ConvertAssCue | web/src/assvtt.ts:84-182 | Read back as nested tags, the text written closes every tag in order and shows each character in the override style in force where it was written, drawings dropped |
| AssVtt.Converter.Reconcile | web/src/assvtt.ts:95-123 | Tags are closed from the inside out and opened so that the open ones say the wanted style |
| AssVtt.Converter.EmitText | web/src/assvtt.ts:125-129 | Text adds its characters in the style wanted now, and a drawing adds none |
| AssVtt.Converter.Apply | web/src/assvtt.ts:131-171 | Each override changes the style in force as ASS defines it |
| AssVtt.ReadAppend | web/src/assvtt.ts:84-182 | Reading two texts one after the other is reading them joined, with the tags left open in between |
| AssVtt.ReadEscaped | web/src/assvtt.ts:125-129 | Escaped text reads back as itself, with no tag in it |
| AssStyles.MeansWhatItSays | web/src/assvtt.ts:84-182 | The meaning a cue is converted to, character by character: all text outside drawings and nothing else, in order, each text italic, bold and coloured as the last tags before it say: any number but 0, the flags 1 and -1 or a weight from 700, a colour or the cue's own, a reset to a named style or the cue's |
| AssStyles.OneStyleFits | web/src/assvtt.ts:131-171 | What the last tags say leaves exactly one style |
| DialogueCues.PositionDialogueCues | web/src/assvtt.ts:282-301 | Every movable cue gets its place and no other line changes, in place |
| DialogueCues.PlacedByTheNearestBottom | web/src/assvtt.ts:287-298 | A cue goes to the top exactly while the last cue put at the bottom before it is still up |
| DialogueCues.BottomsNeverOverlap | web/src/assvtt.ts:294-298 | No two cues put at the bottom are up at the same time, unless a bottom cue between them ends before it starts |
| DialogueCues.BackwardsCueLetsOverlap | web/src/assvtt.ts:294-298 | Such a cue, which the loop accepts, lets its neighbours overlap |
| DialogueCues.Idempotent | web/src/assvtt.ts:281-301 | Positioning what was positioned changes nothing |
| RoomLock.RoomLocks.Enter | internal/worker/remux.go:109-118 | The room's mutex is found or made, and counted |
| RoomLock.RoomLocks.Leave | internal/worker/remux.go:120-126 | The last one out drops the entry |
| RoomLock.OneMutexPerRoom | internal/worker/remux.go:101-127 | All callers inside a room's lock, holding or waiting, share one mutex, and callers of two rooms never do |
| RoomLock.MutualExclusion | internal/worker/remux.go:101-127 | Two callers that hold one room's lock are one caller |
| RoomLock.EntryWhileUsed | internal/worker/remux.go:103-106 | A room has an entry exactly while someone is inside, and its count is how many |
| RoomLock.WaitsOnlyForAHolder | internal/worker/remux.go:119-119 | A waiting caller can lock now or waits for one that holds the same room |
| RoomLock.UnlockingPassesItOn | internal/worker/remux.go:109-127 | A waiting caller is kept out while the lock is held and can have it as soon as it is unlocked |
| RoomLock.InAndOut | internal/worker/remux.go:109-127 | A caller by itself gets in, holds its room's lock and leaves no trace |
| FollowDebounce.Debounce.AdmitFollow | internal/worker/remux.go:449-484 | Pruning, parking, arming and admitting, as the maps and records are left |
| FollowDebounce.AnswersAsThePlainRule | internal/worker/remux.go:446-484 | With all its pruning and timers the debounce admits a position if and only if the room has not moved within the window |
| FollowDebounce.ParkedIsTimed | internal/worker/remux.go:464-479 | The newest position a room owes is always held with a timer on its way, due by the end of the window |
| FollowDebounce.ParkedOrReplayed | internal/worker/remux.go:453-479 | Until the room is asked about again or cancelled, a parked position is held or has been replayed; pruning never loses one |
| FollowDebounce.AdmissionsAreApart | internal/worker/remux.go:446-484 | Two admissions for a room not cancelled between them are at least the debounce apart |
| FollowDebounce.AdmittedExactly | internal/worker/remux.go:446-484 | A position is acted on if and only if none of the room's was acted on within the debounce before it, counting from the last cancel |
| FollowDebounce.ReplaysTheNewest | internal/worker/remux.go:464-479 | Once the window is over the timer can fire, and its callback replays the newest position parked |
| FollowDebounce.CancelForgets | internal/worker/remux.go:528-533 | After a cancel the room may move at once, and a parked position can still come back exactly if its timer had fired |
| PositionHandover.Handover.HandPosition | internal/sync/hub.go:1257-1264 | The newest position waits, and a goroutine is started only when none runs |
| PositionHandover.Handover.TakeNext | internal/sync/hub.go:1267-1276 | What waits is taken once, and with nothing waiting the goroutine ends |
| PositionHandover.OneAtATime | internal/sync/hub.go:1254-1280 | The orchestrator is never called with two positions at once |
| PositionHandover.InOrder | internal/sync/hub.go:1254-1280 | Positions are delivered in the order sent, none twice |
| PositionHandover.EndsWithTheLastSent | internal/sync/hub.go:1254-1280 | With no goroutine running, the last position delivered is the last one sent |
| PositionHandover.DeliversTheLastNext | internal/sync/hub.go:1265-1279 | With none sent meanwhile, a running goroutine delivers the last one next and then ends |
| RemuxRuns.CoveredByRegions | internal/worker/remux.go:486-504 | True exactly when some listed region, or the run on its way, reaches the position |
| RemuxRuns.HighestRegion | internal/worker/remux.go:506-514 | The highest number listed, or the floor |
| RemuxRuns.Production.ApplyReport | internal/worker/remux.go:677-727 | A report on the current run moves the record, starts a retry or fails the room |
| RemuxRuns.Production.FollowPosition | internal/worker/remux.go:384-413 | An uncovered position begins a run above every listed region; any other changes nothing |
| RemuxRuns.Production.FinishDispatch | internal/worker/remux.go:425-443 | What a dispatch leaves in the record, for a follow and for a restart, taken or refused |
| RemuxRuns.DispatchedAboveTheListed | internal/worker/remux.go:408-425 | However the old run's last publishes interleave, a dispatched run's region is above every listed one; only a restart may take up its own run's region, and a run whose claim was given back publishes nothing |
| RemuxRuns.OneRunPublishes | internal/worker/remux.go:414-425 | Only the publishes of the run in the record are accepted, and none from the fence's move to the dispatch |
| RemuxRuns.FollowingAgainDoesNothing | internal/worker/remux.go:402-443 | Following the same position right after a successful dispatch does nothing, whatever is published meanwhile |
| RemuxRuns.CoveredInErrorExactly | internal/worker/remux.go:486-504 | After a follow, a position no listed region has and no run will reach counts as covered if and only if it lies in the carried-over length beyond the new look-ahead, or behind a region still marked growing and before the new run's edge |
| RemuxRuns.GapCounts | internal/worker/remux.go:489-496 | A region still marked growing makes everything between its start and the new run count as covered |
| RemuxRuns.SeekBackIsIgnored | internal/worker/remux.go:402-404 | A seek to the hour and back to the half hour: not covered before, covered after, and not followed |
| RemuxRuns.RestartLeavesNoGap | internal/worker/remux.go:608-615 | A restart at the produced edge leaves no position uncovered between what the lost run listed and what the new one will reach |
| RemuxRuns.RestartedOnce | internal/worker/remux.go:708-727 | However many reports there are, at most one restart of a run succeeds |
| RemuxRuns.RestartedTwice | internal/worker/remux.go:587-651 | At most two restarts of one production ever succeed |
| RemuxProgress.FailsOnlyWhenUsedUp | internal/worker/remux.go:708-727 | Over every run: a report gives the claim back only when the run it is about failed with both restarts used |
| RemuxProgress.ReportedExactly | internal/worker/remux.go:677-727 | A report sets the state and length of the current run; a failure with restarts left adds a retry of that run, and one with none left gives the claim back |
| RemuxProgress.RetryPends | internal/worker/remux.go:708-727 | Over every run: after a failure with restarts left its retry stays pending until it gets its turn |
| RemuxProgress.RetryBegins | internal/worker/remux.go:594-651 | When it does, it begins a run with one restart more if the record still names the lost run: at the produced edge, above every listed region, if its region shows something, and otherwise where and as the lost one |
| RemuxProgress.FollowsExactly | internal/worker/remux.go:384-413 | A follow begins a run if and only if the run did not fail and the position is neither in a listed region nor within 45 seconds past what is being made: at that position and above every listed region |
| RemuxProgress.CarriedThrough | internal/worker/remux.go:414-443 | Carried through, a run is dispatched, recorded and the only one whose publishes are accepted, and a restart counts as one |
| RemuxProgress.StartsAFirstRun | internal/worker/remux.go:191-311 | A room with no claim and no run going is given region 0, claimed, fenced and accepted |
| RemuxProgress.PublishListsItsRegion | internal/httpapi/clientmedia.go:587-623 | An accepted publish of a run lists its own region as sent and every other it read, no longer growing, unless that is what it read |
| RemuxProgress.CancelEnds | internal/worker/remux.go:525-547 | A cancel leaves no run, no claim, no fence and nothing whose publishes are accepted |
| HubSeats.LeftIsGood | internal/sync/hub.go:989-1029 | A member who leaves takes exactly their own entries with them and the controls go to whoever has been there longest; other rooms are untouched |
| HubSeats.JoinKeepsExactly | internal/sync/hub.go:627-731 | A join keeps the tables right if and only if the store answered it or it took over no seat |
| HubSeats.ReseatKeepsExactly | internal/sync/hub.go:906-985 | Taking a seat over keeps them right exactly when the room could be read for it |
| HubSeats.HeirIsLongestSeated | internal/sync/hub.go:1015-1026 | The controls pass to the person seated longest, and there is one while anyone is seated |
| HubSeats.DepartedCounts | internal/sync/hub_account.go:86-107 | A decrement of someone counted finds the entry, takes one from it alone and leaves no zero behind |
| HubSeats.TablesAgreeWithSeats | internal/sync/hub.go:627-1045 | After every event the capability, browser and presence tables say exactly what the seats do, no decrement met a missing entry, and while a person is seated the controller is seated |
| HubJoins.NobodyElseTakesASeat | internal/sync/hub.go:627-636 | Over every run: a seat there before and after an event has another socket only if the event was a join that named it and showed its capability, or came from its own browser signed in as its account |
| HubJoins.CapabilityTakesTheSeat | internal/sync/hub.go:866-877 | Whoever names a seat and shows its capability takes it over, and no other seat changes |
| HubJoins.BrowserTakesItsSeat | internal/sync/hub.go:631-635 | Without a capability, the seat's own browser and account take it over |
| HubJoins.StrangersJoinFresh | internal/sync/hub.go:627-698 | A join with neither leaves every seat as it was, but for the browser's other account's, and gets a seat of its own if the store answers and, for a person, the room has space |
| HubJoins.SeatsEndOnlySo | internal/sync/hub.go:812-864 | A seat ends only with its hold run out, by a dismissal, by a failed take-over, or by another account from its browser |
| HubJoins.DropsAndEnds | internal/sync/hub.go:830-864 | A drop of the seat's present socket holds it; a hold run out or a dismissal ends it |
| HubJoins.ControlsPassOnlySo | internal/sync/hub.go:670-685 | The controls pass on only by a transfer to a seat, when their holder's seat goes, or to a person who joins with the owner's token or finds nobody in control |
| HubJoins.NewcomersTakeTheControls | internal/sync/hub.go:670-685 | And who takes a new seat has them exactly then |
| HubJoins.ControlsPassToTheFirst | internal/sync/hub.go:1010-1025 | When their holder goes they pass to whoever joined first of the people left, and to nobody exactly if none is |
| HubRoom.Hub.MarkPresent | internal/sync/hub_account.go:92-99 | One more seat of the account in the room |
| HubRoom.Hub.MarkGone | internal/sync/hub_account.go:101-106 | One less, with the room and then the account gone at zero |
| HubRoom.Hub.RemoveRoom | internal/sync/hub.go:511-525 | Every table forgets the room, and nothing else |
| HubRoom.RoomConn.FirstMember | internal/sync/hub.go:1293-1314 | The person who joined first of those seated |
| HubRoom.RoomConn.Dismiss | internal/sync/hub.go:812-824 | A live or held seat is let go with its entries, and the tables agree again |
| HubRoom.RoomConn.Reseat | internal/sync/hub.go:906-959 | The seat passes to the new socket, or to nobody |
| HubRoom.RoomConn.HandleDisconnect | internal/sync/hub.go:830-848 | The socket that still has its seat leaves it held; any other changes nothing |
| HubRoom.RoomConn.ExpireDetached | internal/sync/hub.go:854-863 | Exactly the seats whose grace has passed are given up, and the tables agree after each |
| HubRoom.RoomConn.HandleJoin | internal/sync/hub.go:627-698 | By capability, by browser, by dismissing the browser's other account, or as a new member |
| HubRoom.RoomConn.Enter | internal/sync/hub.go:639-698 | A new member is refused when the room is full or the store fails, and otherwise takes a seat, its entries and, in a leaderless room, the controls |
| HubRoom.RoomConn.FindOnDevice | internal/sync/hub.go:878-889 | The one seat of a browser, if it has one |
| HubGate.GateLoop.EveryoneReady | internal/sync/gate.go:95-124 | True exactly when each connected member is not waited for, ignored or buffered at the target |
| HubGate.GateLoop.OpenGate | internal/sync/gate.go:63-91 | The room is stored paused at the target, the wait starts over with any ring left behind drained, and a quorum releases at once |
| HubGate.GateLoop.ReleaseGate | internal/sync/gate.go:126-154 | The room plays from the target and the stall cooldown starts |
| HubGate.GateLoop.GateOnStall | internal/sync/gate.go:216-271 | A credible stall stops the room where it is, or pauses it at its end |
| HubGate.GateLoop.HandleState | internal/sync/hub.go:1180-1252 | Each command stores its state, opens the gate or drops it |
| HubGate.GateLoop.HandleIgnore | internal/sync/gate.go:276-295 | The member ignored, the gate is looked at again |
| HubGate.GateLoop.FinalizeLeave | internal/sync/hub.go:989-1045 | The last member's leaving abandons a pending start; any other's lets it be looked at again |
| HubGate.PendingMeansPaused | internal/sync/gate.go:38-91 | A pending start always means the stored state is paused at its target and some connected member is waited for, not ignored and not buffered |
| HubGate.PlaysOnlyWhen | internal/sync/gate.go:93-154 | A pending start ends in playback only with everyone waited for buffered within two seconds of the target and not running dry, or by the wait, the setting or an ungated play |
| HubGate.TimesOutAfterTheWholeWait | internal/sync/gate.go:75-85 | A timeout comes only after the whole wait since the last opening |
| HubGate.TimesOutWhenDue | internal/sync/hub.go:559-615 | Once the wait is over the ring is there and starts the room at the target |
| HubGate.NeverHeldPastTheWait | internal/sync/hub.go:559-615 | A loop that lets no time pass over a wait that has run out, and at most a grain at once, holds no start a grain longer than the wait |
| HubGate.StallsWaitOutTheCooldown | internal/sync/gate.go:233-243 | After a release no stall stops the room before the cooldown is over |
| HubGate.LastToDropReleases | internal/sync/hub.go:830-852 | With the last socket's drop a pending start is released; with the last connected seat given up it is abandoned, though seats may still be held |
| HubGate.CopiesUnlessItFailed | internal/sync/hub_local.go:92-125 | In every reachable state a connected app able to copy a local source it does not produce is taken to, if and only if its present socket has not failed at this generation |
| HubGate.FailedReseatKeepsExactly | internal/sync/hub.go:906-959 | A resume that cannot read the room leaves the pending start right if and only if the seat was not the only one the room was told it waits for |
| HubGate.FailedResumeLeavesNobodyWaited | internal/sync/hub.go:906-959 | A reachable start left pending that way with everyone ready |
| HubGate.RefreshKeepsExactly | internal/sync/hub_local.go:75-84 | Rereading the media leaves it right if and only if the bucket has something to play or an app that plays for itself is not yet buffered |
| HubGate.RereadLeavesNobodyWaited | internal/sync/hub_local.go:75-84 | A reachable start left pending by rereading the source's holder |
| HubPlayback.PlaysOn | internal/sync/position.go:13-25 | A room left alone is where its stored position, rate and the time since put it, to the millisecond and within the range |
| HubPlayback.PlayPlays | internal/sync/hub.go:1180-1252 | A play that is not held back plays from its position at the rate it names or the room's, and gives up a pending start |
| HubPlayback.PausePauses | internal/sync/hub.go:1180-1252 | A pause stands at its position, whoever is there |
| HubPlayback.SeekSeeks | internal/sync/hub.go:1180-1252 | A seek that is not held back goes to its position, playing or not as before |
| HubPlayback.RateKeepsThePosition | internal/sync/hub.go:1180-1252 | A change of rate leaves the room where it is, and a pending start pending |
| HubPlayback.NonsenseIsDropped | internal/sync/hub.go:1180-1252 | A negative position, an impossible rate or a failed write changes nothing |
| HubPlayback.PlayIsHeldBack | internal/sync/gate.go:46-126 | With two people and synchronized starts a play stands at its target, for twenty seconds at most, unless everyone is settled, and then plays at once |
| HubPlayback.SeekIsHeldBack | internal/sync/gate.go:46-126 | So does a seek of a room that plays or waits |
| HubPlayback.StartsExactlyWhenSettled | internal/sync/gate.go:93-154 | Whatever a pending start hears is taken down as said, and it starts if and only if everyone connected is a television, ignored, without anything to play yet or buffered three seconds within two of the target and not running dry |
| HubPlayback.StartsAsSoonAsSettled | internal/sync/gate.go:38-154 | Over every fair run: after each report, departure, ignored member or failed copy the room plays exactly if everyone is settled |
| HubPlayback.TurningOffStarts | internal/sync/gate.go:180-202 | Turning the setting off starts a pending start at its target |
| HubPlayback.ReportStopsExactly | internal/sync/gate.go:216-271 | A report with no start pending stops the room exactly when someone waited for ran dry, the cooldown is over and two people watch, at where it is or at the end of the media, or when nobody produces what it has come to the edge of |
| HubPlayback.SwapStartsOver | internal/sync/hub.go:559-615 | A swap leaves the room paused at the start of the new source |
| HubPlayback.RereadAsStored | internal/sync/hub_local.go:50-84 | The media is local, and in an app alone, as the room's stored status says |
| HubPlayback.ComesBack | internal/sync/hub.go:830-852 | Whoever drops and resumes is who it was, with its last report |
| RelayRotation.RelayFields.SwapRoomRelay | internal/room/relay.go:43-64 | Compare and swap; the first relay is epoch zero and each later move counts |
| RelayRotation.CurrentIsNeverDeleted | internal/moqrelay/moqrelay.go:156-214 | In every run of concurrent requests, rotations and sweeps, the relay a room is on is not deleted |
| RelayRotation.EpochCountsTheMoves | internal/room/relay.go:39-64 | The epoch is the number of relays the room has left behind, all different |
| RelayRotation.RotatedAway | internal/moqrelay/moqrelay.go:106-126 | Once a rotation reports true the room is off the relay it was on then, for good, and at a later epoch |
| RelayRotation.HandedOutWasInstalled | internal/moqrelay/moqrelay.go:84-104 | A relay handed out was the room's own at the epoch handed out with it, never a losing move's |
| RelayRotation.ASlowMoveLosesItsRelay | internal/moqrelay/moqrelay.go:33-35 | A move slower than the sweep's grace can install a relay that is then deleted |
| RelayMoves.RotationMoves | internal/moqrelay/moqrelay.go:106-126 | A rotation by itself moves the room to a new relay, one epoch on, and deletes the one it left |
| RelayMoves.RequestIsAnswered | internal/moqrelay/moqrelay.go:84-104 | A request by itself is answered with the room's relay, made for it if there was none |
| RelayMoves.EndsWell | internal/moqrelay/moqrelay.go:156-180 | Wherever a call is among others, its own next steps end it with the room off the relay it was to leave, or with the room's relay, if nothing it asks for fails |
| RelayMoves.RefusedOnlyOnAFailure | internal/moqrelay/moqrelay.go:156-180 | Over every run: no call comes back without its relay or its move unless something it asked for failed or there was no relay to leave |
| RelayMoves.SweptExactly | internal/moqrelay/moqrelay.go:190-214 | A sweep deletes a relay if and only if it is past the grace and not the room's |
| WindowLimiter.FilterInPlace | internal/httpapi/join.go:209-216 | The hits still in the window are moved to the front of their own array, in order |
| WindowLimiter.KeyedLimiter.SweepHits | internal/httpapi/join.go:201-208 | Exactly the keys with no hit since the window's start are forgotten |
| WindowLimiter.KeyedLimiter.Allow | internal/httpapi/join.go:199-224 | The sweep when due, the filter, the answer and the hit it records |
| WindowLimiter.RemembersTheHeld | internal/httpapi/join.go:204-223 | A key's list is exactly the accepted hits no call served since has filtered out or swept away, in the order served |
| WindowLimiter.ForgettingShowsExactly | internal/httpapi/join.go:199-224 | Served in any order of stamps, an answer differs from the full-history rule if and only if the hits it sees are below the limit and those dropped from its window reach it; and then only by allowing |
| WindowLimiter.OverlooksTheDropped | internal/httpapi/join.go:204-219 | A hit in the window is overlooked exactly when some call served since, or the call's own sweep, dropped it |
| WindowLimiter.ForgettingNeverShows | internal/httpapi/join.go:199-224 | A call no older than all served before it, whose own key was served in order, answers by the full history |
| WindowLimiter.FollowsTheRuleThroughout | internal/httpapi/join.go:186-224 | Answering by the rule throughout is the same as answering as a limiter that never forgets |
| WindowLimiter.OneByOneAnswersPlainly | internal/httpapi/join.go:199-203 | While no two calls overlap between the clock and the lock, every answer is that of a limiter that never forgets |
| WindowLimiter.OvertakingIsServed | internal/httpapi/join.go:200-203 | Stamps are served out of order though the clock never runs back |
| WindowLimiter.OvertakenCallSlipsThrough | internal/httpapi/join.go:200-219 | Stamps 1, 11, 10 with limit 2 and window 10 let the third through against the rule |
| WindowLimiter.NewestCallSlipsThrough | internal/httpapi/join.go:204-211 | A sweep after a key was stamped out of order lets even the newest call through against the rule |
| WindowLimiter.SweepsExactly | internal/httpapi/join.go:201-208 | A sweep comes more than a window after the last and takes exactly the other keys whose last hit is before the window |
| WindowLimiter.QuietKeysAreForgotten | internal/httpapi/join.go:201-223 | Served in order, every key remembered was hit within the last two windows |
| TokenBucket.Bucket.Spend | internal/sync/ratelimit.go:65-77 | Refilled to the burst at most, then a token spent or a refusal announced once |
| TokenBucket.RateLimiter.Allow | internal/sync/ratelimit.go:52-77 | At most thirty-two kinds get a bucket, the rest are refused in silence |
| TokenBucket.BoundedInAnyInterval | internal/sync/ratelimit.go:52-77 | In any interval at most the burst and the interval over the refill time are allowed of a kind |
| TokenBucket.AllowedExactly | internal/sync/ratelimit.go:52-77 | A message is let through if and only if its kind is among the first thirty-two sent and with it no stretch up to now exceeds a full burst and what the time earned |
| TokenBucket.FewKindsServed | internal/sync/ratelimit.go:57-64 | At most thirty-two kinds are ever served |
| TokenBucket.FirstRefusalsAreApart | internal/sync/ratelimit.go:69-77 | Two first refusals of a kind have an allowed message between them |
| TokenBucket.RefusalsWereAnnounced | internal/sync/ratelimit.go:69-77 | A silent refusal of a served kind follows an announced one |
| TokenBucket.AnnouncedExactly | internal/sync/ratelimit.go:69-77 | A refusal is announced if and only if its kind has a bucket and nothing was let through or announced since |
| JobQuota.NeverOverTheLimit | internal/httpapi/quota.go:150-174 | With acquires and releases interleaved step by step, the jobs admitted and not released never exceed the limit |
| JobQuota.SetIsWhatRuns | internal/httpapi/quota.go:150-174 | With no acquire half way and none given up, the stored set is exactly the running jobs |
| JobQuota.AloneRefusedWhenFull | internal/httpapi/quota.go:150-170 | An acquire by itself is refused exactly when the limit is already running, and leaves the set as it was |
| JobQuota.ReleaseFreesAPlace | internal/httpapi/quota.go:150-174 | A job that ends gives its place up: whoever asks next by itself is admitted |
| JobQuota.BothCanBeRefused | internal/httpapi/quota.go:159-167 | Two at once can both be refused the last place |

## Left out

- HTTP, WebSocket, JSON and the clients of Redis, the bucket, Cloudflare and the workers: each call is a step with its outcome given.
- Text scanning: playlists are lists of parsed lines, cues are text and override events. The sanitizer of media playlists, the event-playlist normalizer, the colour and position parsers, the cue settings and the last replacements and trim of an ASS cue are not part of this model.
- Hashes, claims, capabilities and digests are opaque values.
- Redis expiry, room teardown, complete receipts, metadata tokens, track and chapter annotations (but for whether a publish's are refused).
- Numbers are unbounded, except for the clamp of a computed position; sequence numbers above 2^53, which Lua would round, are not modelled.
- Publish: the regions are a map by number, so the order they are stored in is not captured. A lookup answered earlier may serve a master judged later, which only adds behaviours.
- Publish: each read, render and commit of the handler is a step of the machine and not a line of one method; its loops are the methods RenderedRegions, TakeConfirmed and RenderAllMedia.
- WindowLimiter: what a returned slice shares with the next call's array is not modelled; each call filters an array of its own.
- FollowDebounce: timers have a time and a fired state; that a fired callback runs soon is not stated.
- RemuxRuns: leases, job selection, renditions, and the swarm and duration written when a run completes. A start, which nothing of its claim can interleave with, is one step.
- RemuxRuns: a completing publish gives the claim back whichever of the claim's runs sent it, which only adds behaviours.
- HubSeats: two members who joined at the very same instant are ordered by their number, not by the text of their id. Bans, stage requests, screen shares and watch histories are left out, and a kick is the dismissal of each seat it hits.
- HubGate: a state that cannot be read at a release falls back to the gate's rate; that is not modelled. Playback rates are reals.
- The producer-side messages for local sources, chat, titles, spotlight, friends, invites, usage counters and placement: one-branch or easy claims.
