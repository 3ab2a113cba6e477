# EvadePlayer platform: queue, playlists and storyboard, verified

A Dafny model of the parts of the EvadePlayer platform where many things
interact: the transcoding queue shared by any number of workers, the HLS master
playlist from the encoder jobs to the link a player follows, and the geometry of
the preview sprite. `dafny verify dfyconfig.toml` checks everything.

## What is modelled

**The queue.** The `videos` table doubles as the queue. `VideoTable` gives the
effect of each SQL statement on one row, `VideoRepo` is the repository as a class
that updates its table in place, and `WorkerJob` is what a worker writes when a
job is over. `QueueProtocol` runs these statements as atomic steps of any number
of workers under one clock: a claim's reply may be late or lost, a heartbeat or
an outcome write may be lost, a worker may die, a row may be deleted under a live
job, and the write of `ready` may take effect without being acknowledged. The row
records no owner; a ghost count of claims stands for it. Some facts hold in every
run (`QueueHistory`, `QueueReclaim`), others only when replies, heartbeats and
outcome writes are timely (`QueueTiming`, `QueueDrain`); `QueueThreshold` shows that
these timing conditions are exact. `SkipLocked` opens up the claim statement,
`WorkerLoop` the claim loop with its slots, `UploadFanOut` the bounded parallel
upload, and `PublishVideo` the end of a job, when a video becomes ready.

**The playlists.** `Ladder` collects the variants of concurrent codec jobs and
sorts them; `Bandwidth` measures a media playlist, and `MediaPlaylist` says what
that means for the entries of one; `MasterPlaylist` prints the master, and
`MasterReading` and `MasterContents` read it back tag by tag, with the attribute
lists of `AttributeLists`; `ManifestFilter`, `ManifestRewrite` and `ManifestProxy`
are what the manifest proxy does to it, and `FilterLaws` describes the filters on
arbitrary text. `PrintedLines`, `FilterAgreement`, `TrackAgreement`, `AutoselectRule`,
`FilterOrder` and `ServedMaster` prove what the text operations mean on printed
playlists, and for which titles, up to the link that leads back to the proxy. `Strings` has the string operations used.

**The storyboard.** `Storyboard` holds the three independent computations of the
sprite grid and the cues the API derives from the stored one.

## What the proofs show about the code

- `claim reply + heartbeatInterval * (lost beats + 1) + dbTimeout <= staleAfter`
  is exactly the condition under which no live job is taken for dead. With the
  constants of the worker, six lost heartbeats in a row are tolerated if a claim
  is answered within 5 s - with nothing to spare: a seventh lost heartbeat or a
  slower reply admits a run in which a live job is reclaimed.
- Ready and failed are final in all timely runs exactly if that condition holds
  and every write of `ready` is acknowledged. An unacknowledged one on the last
  attempt makes a ready video failed; a live job taken for dead makes a failed
  video ready.
- A reclaim pass that stalls for more than `staleAfter` between its two updates
  can report one video both as requeued and as failed, for every attempt limit
  above one. The `dbTimeout` rules it out.
- An upload whose caller is cancelled can report success with files missing,
  because the goroutines of a cancelled upload drop out silently, and `ready` is
  written all the same. Nil, and a video becoming ready, mean that every file was
  stored exactly if no file was checked after the cancellation.
- The NAMEs of a rendition group are distinct except when a base name equals
  another one followed by a space and its repetition number: "eng", "eng",
  "eng 2" gets "eng 2" twice, although `nameSet` promises uniqueness.
- Choosing an audio track that is not the first of its language, and only that,
  serves DEFAULT=YES next to AUTOSELECT=NO, which RFC 8216 section 4.3.4.1 forbids.
- Titles are printed as they are. A title with the text of a STREAM-INF tag stops
  the fallback of the codec filter, and decides whether the two filters commute; one
  with DEFAULT=NO misdirects the forced default; one with line breaks around a
  STREAM-INF tag makes the codec filter lose a line.

## Model

| member | source | states |
|---|---|---|
| VideoRepository.VideoRepo.CreateWithID | internal/repository/video.go:42-56 | a new video is pending, created now, with its path, no attempts, no progress and no claim; a used id is refused and changes nothing |
| VideoRepository.VideoRepo.DeleteByID | internal/repository/video.go:92-101 | removes the row, or reports that there is none |
| VideoRepository.VideoRepo.UpdateStatus | internal/repository/video.go:133-139 | sets status and message of any existing row and nothing else |
| VideoRepository.VideoRepo.SetProgress | internal/repository/video.go:258-263 | sets the progress of any existing row and nothing else |
| VideoRepository.VideoRepo.ClaimNextPending | internal/repository/video.go:158-178 | takes a pending unlocked row with the least creation time, starts a claim on it column by column and reports its path and attempts; not found exactly when no such row exists |
| VideoRepository.VideoRepo.Heartbeat | internal/repository/video.go:181-187 | renews the heartbeat of a processing row only |
| VideoRepository.VideoRepo.Release | internal/repository/video.go:191-200 | puts a processing row back and returns its attempt |
| VideoRepository.VideoRepo.Requeue | internal/repository/video.go:204-212 | puts a processing row back and keeps the attempt spent |
| VideoRepository.VideoRepo.ReclaimStale | internal/repository/video.go:217-254 | requeues stale rows with attempts left, fails the others, and lists exactly the rows of each kind, each once |
| WorkerJob.MaxAttempts | internal/worker/worker.go:78-80 | the attempt limit is at least one |
| WorkerJob.RunJob | internal/worker/worker.go:151-186 | nothing on success; otherwise release on shutdown, requeue while attempts are left, and fail with the message after that |
| WorkerJob.ReportStepIsRunJob | internal/worker/worker.go:156-186 | in every execution, a report writes what runJob writes for the attempts and limit of its job, whatever other workers did since the job ended |
| WorkerJob.ClaimAndInterrupt | internal/repository/video.go:158-200 | claiming and being interrupted leaves every row as it was, but for the progress |
| WorkerJob.LateReports | internal/worker/worker.go:167-185 | in every execution, a report on a row that is not processing changes it exactly when it is a failure the row does not already record, and then the video used up the smallest limit of claims |
| QueueProtocol.InvHolds | internal/repository/video.go:158-254 | in every execution, with stale jobs and lost replies: row shape, attempt budget, claim epochs, and the snapshot of an owning job equals the attempts of its row |
| QueueProtocol.StepKeepsInv | internal/worker/worker.go:86-203 | each step of any worker keeps that invariant |
| QueueHistory.RowsAreWellFormed | internal/repository/video.go:158-254 | pending rows carry no claim times, processing rows carry both in order, an error message is set exactly for failed rows |
| QueueHistory.AttemptsAreConserved | internal/repository/video.go:159-168 | attempts equal claims minus effective releases, counted over the whole run |
| QueueHistory.ReleaseClampNeverActs | internal/repository/video.go:191-200 | a release takes back exactly one attempt; the clamp at zero is never reached |
| QueueHistory.GradedBudget | internal/worker/worker.go:163-185 | attempts exceed the largest limit by at most the number of stray requeues; a pending row is below it, a processing row has at least one |
| QueueHistory.FailsOnlyAfterMinAttempts | internal/worker/worker.go:174-185 | a failed video was claimed at least as often as the smallest limit says |
| QueueHistory.FinishedIsAbsorbing | internal/repository/video.go:162 | a ready or failed video stays one of the two and is never claimed again |
| QueueHistory.HistoryCounts | internal/repository/video.go:158-212 | the ghost history of a video is the count of its steps in the run |
| QueueHistory.EveryRowWasUploaded | internal/repository/video.go:42-56 | every known video was uploaded by exactly one step |
| QueueHistory.RowsKeepTheirUpload | internal/repository/video.go:42-56 | a row keeps the clock reading and the path of its upload for as long as it exists |
| QueueHistory.ClaimsFollowUploads | internal/repository/video.go:162-167 | in every execution a video can be claimed if and only if it is pending and unlocked and no such video was uploaded at an earlier clock reading |
| QueueHistory.ClaimsStartAfresh | internal/repository/video.go:159-168 | the file a claim refers to is the one uploaded for the video; progress, error and claim times start afresh |
| QueueTiming.ExclusiveHolds | internal/worker/worker.go:151-203 | in every timely execution each live job is the only one of its video, holds the latest claim and beats in time |
| QueueTiming.LiveJobsAreNotReclaimed | internal/repository/video.go:234-249 | no reclaim of any timely execution hits the row of a live job |
| QueueTiming.OneLiveJobPerVideo | internal/worker/worker.go:151-186 | at most one live job per video, up to and including its outcome write, with the attempts of its row |
| QueueTiming.WorkDirsAreDisjoint | internal/worker/worker.go:209 | two live jobs never share a work directory |
| QueueTiming.NoStrayRequeues | internal/worker/worker.go:174-180 | in timely executions only the owner of a claim requeues it |
| QueueTiming.AttemptsStayInBudget | internal/worker/worker.go:174-185 | in timely executions attempts never exceed the largest limit |
| QueueTiming.PendingShowsNoProgress | internal/repository/video.go:191-212 | in timely executions a waiting video shows no progress |
| QueueTiming.ReadyAndFailedAreTerminal | internal/worker/worker.go:318-323 | with acknowledged writes, ready and failed are each final |
| QueueThreshold.ThresholdIsExact | internal/worker/worker.go:30-39 | live jobs are safe if and only if the worst gap between heartbeats fits into staleAfter |
| QueueThreshold.DeployedConstantsAreSafe | internal/worker/worker.go:30-39 | the worker's constants are safe for a 5 s reply and six lost heartbeats, and for nothing more |
| QueueThreshold.LiveJobReclaimed | internal/worker/worker.go:188-203 | beyond the condition, and for every attempt limit, some timely execution reclaims a live job |
| QueueThreshold.FinalityIsExact | internal/worker/worker.go:167-185 | finished statuses are final in all timely executions if and only if the condition holds and writes of `ready` are acknowledged |
| QueueThreshold.ReadyThenFailed | internal/worker/worker.go:182-185 | an unacknowledged write of `ready` on the last attempt is followed by `failed` |
| QueueThreshold.FailedThenReady | internal/worker/worker.go:318-323 | a live job taken for dead in its last attempt turns its failed video into a ready one |
| QueueDrain.WorkDrops | internal/worker/worker.go:98-186 | each claim, requeue, reclaim and finish uses up part of the remaining work |
| QueueDrain.DrainTerminates | internal/worker/worker.go:98-186 | without uploads and releases, n rows admit at most n * Max claims and 2 * n * Max changes of unfinished rows |
| QueueDrain.StuckMeansFinished | internal/worker/worker.go:98-186 | nothing is left to do if and only if no job is live and every row is ready or failed |
| QueueReclaim.PassListsAreDisjoint | internal/repository/video.go:217-254 | a pass no longer than staleAfter never lists a video twice, whatever runs in between |
| QueueReclaim.PassBoundIsExact | internal/repository/video.go:217-254 | for each limit, passes within a bound never list a video twice if and only if the bound is at most staleAfter or the limit is one |
| QueueReclaim.SlowPassCanOverlap | internal/repository/video.go:217-254 | for every limit above one, a longer pass can requeue and fail the same video |
| QueueReclaim.PassMissesNoStaleRow | internal/repository/video.go:217-254 | every row stale at the start has left processing or been heartbeated since, when the pass is over |
| QueueReclaim.OrphanHasHeartbeat | internal/repository/video.go:159-161 | a processing row always has a heartbeat that can go stale |
| QueueReclaim.PassRescuesOrphan | internal/repository/video.go:234-249 | a pass that starts after an orphaned row went stale leaves it pending if attempts are left and failed otherwise |
| QueueReclaim.ReclaimSchedule | internal/worker/worker.go:92-127 | the passes that the loop starts are the scheduled ones |
| QueueReclaim.ScheduleCovers | internal/worker/worker.go:92-102 | scheduled passes start with turns of the loop, at least the interval apart, with none missing between |
| QueueReclaim.PassAfter | internal/worker/worker.go:92-127 | within interval, poll, body and pass time after any moment a pass starts |
| QueueReclaim.NoVideoIsStranded | internal/worker/worker.go:92-147 | while one worker turns its loop, an orphaned video is rescued within that window plus one pass after it went stale |
| WorkerLoop.Concurrency | internal/worker/worker.go:75-77 | there is at least one slot |
| WorkerLoop.InvHolds | internal/worker/worker.go:89-130 | slots, wait group, running and claimed jobs stay in step in every interleaving |
| WorkerLoop.SlotDiscipline | internal/worker/worker.go:105-127 | running jobs never exceed the slots, sends and receives on them never block, no claimed job is dropped, and Run returns only when all jobs are over |
| WorkerLoop.LoopFillsSlots | internal/worker/worker.go:98-127 | the loop waits only with all slots taken or nothing to claim, goes on at every tick and stops only when told to |
| WorkerLoop.ShutdownFinishes | internal/worker/worker.go:121-125 | the wait of a shutdown always makes progress and ends |
| UploadFanOut.FanOutIsBounded | internal/worker/worker.go:350-371 | at most 20 uploads run, and neither the error channel nor the semaphore blocks a goroutine |
| UploadFanOut.FanOutFinishes | internal/worker/worker.go:357-376 | every step brings the end closer, and one is enabled until the result is returned |
| UploadFanOut.NilMeansStored | internal/worker/worker.go:366-376 | the result is nil exactly when no upload failed, and without a cancelled caller exactly when every file was stored |
| UploadFanOut.NilStoredAllExactly | internal/worker/worker.go:363-376 | in every run that returns nil, cancelled or not, all files are stored if and only if none was checked after the cancellation |
| UploadFanOut.CancelledCallerMayGetNil | internal/worker/worker.go:363-365 | for any number of files a cancelled caller can get nil with nothing stored |
| UploadFanOut.TrustworthyOnlyWithoutFiles | internal/worker/worker.go:350-376 | nil means stored in every run if and only if there are no files |
| PublishVideo.Publish | internal/worker/worker.go:297-323 | after a failed upload nothing is written; otherwise the video becomes ready if the write reaches the database |
| PublishVideo.ReadyIsCompleteExactly | internal/worker/worker.go:297-323 | a video that becomes ready has all its files stored if and only if none was checked after the shutdown began |
| PublishVideo.ReadyIsCompleteOnlyWithoutFiles | internal/worker/worker.go:297-323 | over all runs, ready promises stored files only for a video without files |
| SkipLocked.CommitIsAtomicClaim | internal/repository/video.go:158-168 | overlapping claims hold distinct pending rows, and each commit claims the oldest row but for rows that were unavailable, or not yet pending, when it looked |
| SkipLocked.OlderRowsWereUnavailable | internal/repository/video.go:162-167 | every older row of the snapshot was, since then, locked by another claim or statement or no longer pending |
| SkipLocked.EmptyAnswerIsJustified | internal/repository/video.go:171-174 | not found means that every pending row of the snapshot was locked by another claim or statement or no longer pending |
| Ladder.FilterCodecs | internal/ffmpeg/transcoder.go:859-876 | the requested codecs in the order of the request, an error exactly for an unknown name, distinct if the request is |
| Ladder.TranscodeCodec | internal/ffmpeg/transcoder.go:612-618 | a successful codec yields its applicable qualities in configured order |
| Ladder.CollectResults | internal/ffmpeg/transcoder.go:560-574 | an error exactly when a required codec failed, otherwise all produced variants, sorted |
| Ladder.SortVariants | internal/ffmpeg/transcoder.go:580-595 | in place: a permutation in order of codec and quality |
| Ladder.SortedIsUnique | internal/ffmpeg/transcoder.go:580-595 | a sorted list equals every strictly sorted list of the same variants |
| Ladder.SameProduced | internal/ffmpeg/transcoder.go:560-571 | the variants collected are the same, up to order, for every completion order |
| Ladder.ConfiguredIsSorted | internal/ffmpeg/transcoder.go:580-595 | the results in configured order are strictly sorted when names are distinct |
| Ladder.ScheduleIndependence | internal/ffmpeg/transcoder.go:547-574 | every completion order gives the same result: the applicable qualities of each successful codec, in configured order |
| Ladder.TranscodeHLS | internal/ffmpeg/transcoder.go:482-574 | for every order in which the jobs finish: an error for an unknown codec or a failed required one, and otherwise exactly the variants of the requested codecs that succeed and the qualities at most 20% above the source, in configured order |
| Ladder.RunCodecs | internal/ffmpeg/transcoder.go:547-574 | the same for codecs and qualities already resolved |
| Ladder.ResolveOriginals | internal/ffmpeg/transcoder.go:507-517 | qualities called original take the size of the source, the others stay |
| Ladder.VariantsProduced | internal/ffmpeg/transcoder.go:562-571 | a variant is in the result if and only if its codec succeeded and its quality fits |
| Ladder.PickedAll | internal/ffmpeg/transcoder.go:547-560 | results collected in any completion order are the configured ones, up to order |
| Bandwidth.MeasuredBandwidth | internal/ffmpeg/transcoder.go:1070-1122 | one pass yields the ceilings of the largest segment bit rate and of all bits over the total duration; nothing without a playlist, and otherwise exactly when a line is unreadable or no segment has a positive duration |
| MediaPlaylist.MeasurePlaylist | internal/ffmpeg/transcoder.go:1070-1122 | for the text of a playlist of segments, init sections, other tags and blanks: measured if and only if every duration and file can be read and a segment has a positive duration; then the ceiling of the largest segment bit rate and of all bits over the total duration |
| MediaPlaylist.PlaylistIsMeasured | internal/ffmpeg/transcoder.go:1079-1121 | the lemma behind it |
| MediaPlaylist.ExtinfIsRead | internal/ffmpeg/transcoder.go:1082-1091 | the duration of an EXTINF tag is the text up to the first comma, with or without a title |
| MediaPlaylist.MapIsRead | internal/ffmpeg/transcoder.go:1092-1101 | an EXT-X-MAP counts the bytes of its URI, which must be there |
| Bandwidth.PeakBoundsEveryRun | internal/ffmpeg/transcoder.go:1102-1106 | the peak is at least the bit rate of every contiguous run of segments (section 4.1 of RFC 8216) |
| Bandwidth.AverageBounds | internal/ffmpeg/transcoder.go:1119-1121 | the average covers the media's own rate and exceeds the peak by at most the share of the initialisation sections |
| Bandwidth.PeakRate | internal/ffmpeg/transcoder.go:1103-1105 | the peak is the least upper bound of the segments' bit rates, at least zero |
| Bandwidth.AudioMaxima | internal/ffmpeg/transcoder.go:1008-1021 | the running maxima are the heaviest measured audio renditions |
| Bandwidth.HeaviestIsLargest | internal/ffmpeg/transcoder.go:1008-1023 | adding them gives the largest sum over the combinations of the video with one measured audio rendition (section 4.3.4.2 of RFC 8216) |
| MasterPlaylist.NameSet.Unique | internal/ffmpeg/transcoder.go:938-946 | the n-th use of a base name is numbered n, from the second use on |
| MasterPlaylist.NamesAreDistinct | internal/ffmpeg/transcoder.go:936-946 | the names handed out are distinct if and only if no base name equals a numbered one |
| MasterPlaylist.EnglishTracksClash | internal/ffmpeg/transcoder.go:936-946 | three English tracks of which two get the same name |
| MasterPlaylist.OneAutoselectPerLanguage | internal/ffmpeg/transcoder.go:972-978 | the first track of a language, and no other, is selected automatically |
| MasterPlaylist.AudioGroupIsValid | internal/ffmpeg/transcoder.go:960-982 | the printed audio group has one default rendition, its first, selected automatically, and one automatic selection per language |
| MasterPlaylist.SubtitleGroupIsValid | internal/ffmpeg/transcoder.go:984-1001 | the printed subtitle group has one automatic selection per language |
| MasterPlaylist.AdvertisedBandwidth | internal/ffmpeg/transcoder.go:1008-1065 | the printed bandwidth of a measured variant is the largest sum with one measured audio rendition, for peak and average; other variants are estimated from bit rate or height, AV1 at 40%, without an average |
| MasterPlaylist.WriteMasterManifest | internal/ffmpeg/transcoder.go:952-1046 | prints the preamble, both rendition groups, the image stream and every variant, line by line |
| MasterContents.WriteMaster | internal/ffmpeg/transcoder.go:952-1046 | the written text has the preamble, one readable tag for every audio track, subtitle track and variant, in their order, each variant with its address, and the image stream if there is one; every group a variant refers to exists, and the other way round |
| MasterContents.MasterIsDescribed | internal/ffmpeg/transcoder.go:952-1046 | the lemma behind the first half: names, languages, flags, addresses, bandwidths, size, codecs, frame rate and groups read back as given |
| MasterContents.PrintedGroups | internal/ffmpeg/transcoder.go:1032-1037 | a STREAM-INF tag gives AUDIO or SUBTITLES with a group if and only if the playlist has a rendition of that type and group (section 4.3.4.2 of RFC 8216) |
| MasterReading.VariantReads | internal/ffmpeg/transcoder.go:1023-1043 | every attribute of a STREAM-INF tag, and its only value |
| MasterReading.AudioReads | internal/ffmpeg/transcoder.go:979-980 | every attribute of an audio rendition, and its only value |
| MasterReading.SubtitleReads | internal/ffmpeg/transcoder.go:997-998 | every attribute of a subtitle rendition, and its only value |
| AttributeLists.ListGives | internal/ffmpeg/transcoder.go:1024-1043 | reading a printed attribute list, cut at the commas outside of quotes, gives exactly the printed attributes |
| PrintedLines.TagUri | internal/handler/hls_manifest.go:263-275 | the URI attribute found in a printed tag is its last value, and replacing it changes nothing else |
| PrintedLines.TagReplace | internal/handler/hls_manifest.go:278-283 | a replaced text changes only the attribute it occurs in |
| ManifestFilter.FilterMasterByCodec | internal/handler/hls_manifest.go:202-231 | the loop keeps each STREAM-INF line exactly with a following line that lets it through, and falls back to the whole text |
| FilterLaws.CodecFilterMeans | internal/handler/hls_manifest.go:202-231 | for any text: a STREAM-INF line stays if and only if a blank line, a comment or a URL of the codec follows, such a URL goes with its line, all else stays in order; without a marker left the text is unchanged |
| ManifestFilter.FilterMasterByTracks | internal/handler/hls_manifest.go:236-259 | each line is kept, changed or dropped on its own |
| FilterLaws.TrackFilterMeans | internal/handler/hls_manifest.go:236-283 | for any text: which renditions stay, by the first URI of their tag, which one is forced to be the default, and that all other lines stay in order |
| FilterAgreement.CodecFilterAgreesWithPrinting | internal/handler/hls_manifest.go:202-231 | without line breaks in titles: the filter yields, up to blank lines, the playlist printed from the variants of the codec, or the unchanged text if there are none, if and only if some variant matches, there are no variants, or no title contains the marker |
| FilterAgreement.CodecFilterAgreesExactly | internal/handler/hls_manifest.go:202-231 | the exact condition for all titles, line breaks included |
| FilterAgreement.LineBreaksMislead | internal/handler/hls_manifest.go:202-231 | a title with line breaks for which every codec filter that matches loses lines |
| FilterAgreement.CodecOnText | internal/handler/hls_manifest.go:202-231 | the exact filtered text for any head, with the fallback when no marker is left |
| FilterAgreement.CodecOnPrinted | internal/handler/hls_manifest.go:202-231 | the exact filtered text of a printed playlist without line breaks in titles |
| TrackAgreement.TracksOnPrinted | internal/handler/hls_manifest.go:236-283 | on every printed playlist the filter does to the text what choosing renditions by number does to the lines |
| TrackAgreement.TrackFilterAgreesWithPrinting | internal/handler/hls_manifest.go:236-259 | a requested track is the only one kept of its group, an audio track with DEFAULT=YES, and no other line changes |
| TrackAgreement.AudioSegment | internal/handler/hls_manifest.go:263-275 | the URI of an audio rendition contains the segment of a slash-free number exactly for its own number |
| TrackAgreement.SubtitleSegment | internal/handler/hls_manifest.go:263-275 | the same for subtitles |
| TrackAgreement.ForceDefaultExactly | internal/handler/hls_manifest.go:278-283 | forcing the default prints the rendition with DEFAULT=YES and nothing else changed if and only if neither name nor language contains DEFAULT=NO |
| AutoselectRule.ServedBreaksAutoselect | internal/handler/hls_manifest.go:236-259 | the filtered text has an audio tag with DEFAULT=YES and AUTOSELECT=NO if and only if the chosen track is not the first of its language |
| AutoselectRule.SecondEnglishTrack | internal/handler/hls_manifest.go:236-259 | two English tracks for which it happens |
| FilterOrder.FiltersCommute | internal/handler/hls_manifest.go:78-89 | without line breaks in titles, the two filters give the same text in either order if and only if some variant matches, there are no variants, or a marker in the titles survives the track filter |
| ManifestRewrite.ValidManifestPath | internal/handler/hls_manifest.go:110-123 | accepts at most 512 bytes of plain segments that end in .m3u8, and nothing else |
| ManifestRewrite.CheckPath | internal/handler/hls_manifest.go:38-63 | splits the path into video and playlist and refuses malformed ones, in the order of the checks |
| ManifestProxy.ServeManifest | internal/handler/hls_manifest.go:38-105 | a request is answered if and only if it is authorised and names a UUID and an accepted path whose fetch succeeds; an unfiltered answer has the lines of the playlist, each as it was or with its reference merged and led to /hls/ or /hls-proxy/ |
| ManifestProxy.ManifestPathMeans | internal/handler/hls_manifest.go:110-123 | a path is accepted if and only if it ends in .m3u8, has at most 512 bytes, no empty or dot segment and no backslash, question mark, hash or percent sign |
| ManifestProxy.RouteMeans | internal/handler/hls_manifest.go:38-60 | a path is routed to a video and a playlist if and only if it consists of them, the video is a UUID and the playlist is accepted |
| ManifestProxy.LineIsServed | internal/handler/hls_manifest.go:157-195 | what is sent for any line, by its tag or its extension |
| ManifestProxy.TagIsServed | internal/handler/hls_manifest.go:288-307 | the first URI of a tag is led to the merged address, and a tag without one stays |
| ManifestProxy.UriIsFirst | internal/handler/hls_manifest.go:288-303 | the URI that is found is the first one of the tag |
| ManifestProxy.AnswerIsServed | internal/handler/hls_manifest.go:149-198 | the same for all lines of a playlist |
| ManifestProxy.Utf8LengthBounds | internal/handler/hls_manifest.go:111 | the length in bytes is between one and four per character, and one exactly for ASCII |
| ManifestRewrite.RewriteManifest | internal/handler/hls_manifest.go:149-198 | every line is rewritten on its own, with the directory of the playlist |
| ManifestRewrite.LinesStayLines | internal/handler/hls_manifest.go:155-197 | the result has as many lines as the playlist, each the rewritten line at the same place |
| ManifestRewrite.LinksAreMerged | internal/handler/hls_manifest.go:180-194 | the link of a relative reference is the address of the playlist merged with it (section 5.2.3 of RFC 3986), plus the query string |
| ManifestRewrite.RootedRoundTrip | internal/handler/hls_manifest.go:181-184 | the link of a reference from the root leads back to that path of the video, or is refused exactly if the path is not accepted |
| ManifestRewrite.UrlLineIsMerged | internal/handler/hls_manifest.go:179-195 | playlist URLs go through the proxy, media files directly, other lines stay |
| ManifestRewrite.TagUriIsMerged | internal/handler/hls_manifest.go:288-307 | the URI of a tag becomes the merged link, and only an EXT-X-MAP bypasses the proxy |
| ManifestRewrite.MergedPathIsValid | internal/handler/hls_manifest.go:110-123 | a merged path is accepted if and only if the reference consists of plain segments, ends in .m3u8 and the path is not too long |
| ManifestRewrite.LinkRoundTrip | internal/handler/hls_manifest.go:38-60 | parsing the path of a rewritten link gives back the video and the merged path, or the refusal exactly for paths that are not accepted |
| ServedMaster.RewritingPrinted | internal/handler/hls_manifest.go:149-198 | rewriting a printed playlist replaces the references of its lines and nothing else |
| ServedMaster.ServedMaster | internal/handler/hls_manifest.go:76-98 | the whole answer for a printed master and any query |
| ServedMaster.ServedLinksLeadBack | internal/handler/hls_manifest.go:38-98 | every link a player finds in that answer leads back to the same video and to the playlist the line was printed for |
| Storyboard.WithDefaults | internal/ffmpeg/thumbnail.go:37-64 | fields below one are replaced by their defaults |
| Storyboard.SpriteGrid | internal/ffmpeg/thumbnail.go:115-125 | the sprite's tiles cover the duration and its rows hold the tiles, none superfluous |
| Storyboard.ImageStream | internal/ffmpeg/thumbnail.go:165-185 | the image playlist has the same grid, and the target duration is the least whole one that covers |
| Storyboard.SetStoryboard | internal/worker/worker.go:426-440 | the stored metadata describe that grid |
| Storyboard.GetStoryboard | internal/service/video.go:215-251 | the cues of a usable storyboard, not found or a decoding error exactly when there is none |
| Storyboard.CueIsInPlace | internal/service/video.go:235-247 | cue i shows the tile in row-major place i, for its interval but not beyond the video |
| Storyboard.GridsAgree | internal/worker/worker.go:428-440 | sprite, image playlist and metadata have the same grid and tile count |
| Storyboard.CuesTileTheDuration | internal/service/video.go:235-241 | the cues cut the duration without gap or overlap, all of positive length if and only if the duration is positive |
| Storyboard.TimeFallsInItsCue | internal/service/video.go:236-240 | time t is shown by cue floor(t / interval) |
| Storyboard.CueRectanglesAreDisjoint | internal/service/video.go:247 | the rectangles of the cues lie inside the sprite and do not overlap |

## Left out

- The work of ffmpeg and ffprobe, and the loops that drive them: a codec job succeeds or fails arbitrarily, and its error text is a parameter.
- SeaweedFS, HTTP transport, nginx, CORS, configuration: uploads and fetches are arbitrary outcomes.
- Token checks, HMAC, UUID parsing, query escaping and JSON decoding: parameters or outcomes; nothing is proved about them.
- SMALLINT overflow of attempts and progress; numbers are unbounded.
- Floating point: durations and bit rates are reals, so rounding, NaN and infinities of ParseFloat are not covered.
- Statements that the database executes after the client has given up: an abandoned heartbeat or outcome write never takes effect; only a claim and the write of `ready` may take effect unnoticed.
- Columns without a part in the queue: size, segments, duration, tracks, the storyboard itself, updated_at.
- Monotone progress while transcoding: the callbacks run outside the mutex, so it is not guaranteed.
- That shutdown always releases in-flight jobs: a cancelled upload can report success, so a job may end either way once it is cancelled.
- VideoRepository.VideoRepo.ClaimNextPending: database errors other than an empty queue are not modelled; the locked rows are a parameter, explained by `SkipLocked`.
- VideoRepository.VideoRepo.ReclaimStale: the two updates run without interference here; interference is the subject of `QueueReclaim`. Errors of the database are not modelled.
- QueueTiming.ExclusiveHolds: assumes that the database clock and the worker clocks advance alike and that dbTimeout does not exceed the heartbeat interval.
- QueueReclaim.NoVideoIsStranded: the loop's body time (claims, goroutine start) is a parameter, and scheduled passes are assumed to succeed.
- The walk over the directory before an upload, and its errors; files are numbered.
- Ladder.SortVariants: an insertion sort stands for sort.Slice, of which only order and permutation are used.
- Ladder.TranscodeHLS: the goroutines are represented by the order in which they finish; codec, quality and requested names are distinct, the directory is created, and the progress average is not modelled.
- MasterContents.WriteMaster: names and codecs contain no quote and no line break, and the frame rate no comma either.
- MasterPlaylist.WriteMasterManifest: the builder is a list of lines, written to no file; the CODECS value of a variant, the printed frame rate and the measured bandwidths are parameters, and the frame rate is printed by the caller.
- MasterPlaylist.AdvertisedBandwidth: bitrates are numbers; parsing strings such as "5000k" is not modelled.
- Bandwidth.MeasuredBandwidth: the file, the sizes of its segments and the parser of durations are parameters.
- TrackAgreement.TracksOnPrinted: titles and languages contain no line break and no quote and do not end in URI=, and those of audio tracks do not contain DEFAULT=NO; only for the last condition is it shown that it cannot be dropped.
- ManifestRewrite.ValidManifestPath: the length is that of the UTF-8 encoding; strings that are not valid UTF-8 are not modelled.
- ManifestRewrite.LinksAreMerged: absolute URLs are treated as relative references, as the code does.
- ManifestProxy.ServeManifest: the lines of an unfiltered answer are described for ids, paths and query strings without line breaks, which no address can contain.
- ManifestRewrite.LinkRoundTrip: percent-decoding is not modelled; ids and accepted paths contain no percent sign.
- Codec and quality tables, level tables, listing, pagination, tokens, seek positions of previews: easy members only.
