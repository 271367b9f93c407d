# StreamCaptioner core, modelled in Dafny

StreamCaptioner turns live audio into captions. It reads one or more channels of an audio
device, sends 16-bit PCM to a transcription service, and files each transcript into a
named caption *feed*. From there captions go out three ways: to web clients over
WebSockets, to vMix, and to plain text files.

This project models the five stateful parts of that pipeline and proves what they promise:

- **Feed** (`feeds_feed.dfy`, module `Feeds`). The feed is a class with:
  - a bounded FIFO of final captions, which models `deque(maxlen=…)`;
  - a one-slot interim text;
  - a set of subscriber callbacks.

  `Store`, `Ingest` and `IngestAll` are pure specifications that the class's methods are
  proved against. Lemmas on them cover FIFO eviction, the current-text priority rule and
  the history time window. `GetCurrentText` is `CurrentTextOf` applied to the feed's state.
  Its behaviour is stated by `CurrentTextAfterRun` and by the postconditions of
  `Feed.AddTranscript`.
- **FeedManager** (`feeds_manager.dfy`, module `FeedManagement`). The manager holds:
  - the registry of feeds, keyed by id;
  - the insertion order of the dict's keys, which fixes the order `list_feeds` returns;
  - the ordered list of global subscribers.

  A transcript is routed only to a registered, enabled feed.
- **AudioCapture** (`audio_capture.dfy`, module `Audio`). It covers:
  - the channel check made at construction;
  - the start/stop state of the `_running` flag;
  - the rule that the device callback enqueues only while running;
  - one step of the worker loop.

  The pure functions `ExtractMono` and `ProcessBlock` mix the selected channels, convert
  to int16 and lay out the bytes.
- **FileOutput** (`outputs_file_output.dfy`, module `Outputs`). The file system is a map
  from path to text (`Disk`). The module covers:
  - the write-if-changed cache `_last_text`;
  - `clear_all`;
  - the path naming;
  - the `[HH:MM:SS] text` history format.
- **ConnectionManager and the on-connect replay** (`web_server.dfy`, module `Web`). This
  covers:
  - the map from feed id to the set of open sockets;
  - broadcasting, which prunes sockets whose send failed;
  - the message sequence a client receives on connect;
  - the branch that rejects an unknown feed.

`common.dfy` (module `Common`) holds `Option`, `Result`, the JSON value type and small
sequence helpers.

The outside world enters every operation as a parameter:

| Outside input | Modelled as |
|---|---|
| `uuid4()` | a `captionId` parameter |
| `datetime.now()` | a `now` parameter |
| Time | natural numbers of microseconds since Python's naive `datetime.min` |
| Callbacks, sinks and sockets | natural-number identities |
| Whether a callback raises, a send fails or a file cannot be written | a set given to the call (`raising`, `failing`, `unwritable`) |
| Whether the device stream opens | a boolean (`streamOpens`) |

Where the code and its comments disagree, the model follows the code:

- `websocket_endpoint` sends `reversed(history)`.
- `get_history` returns captions oldest first, so clients receive the replay newest first.
- The comments at `src/web/server.py:133` and `:142` say "oldest first".
- `ReplayCarriesReversedHistory` and `ReplayNewestFirst` state the order the code produces.

## Model

| member | source | states |
|---|---|---|
| Common.RemoveFirst | src/feeds/manager.py:129-130 | when the element is listed, its first copy is removed and everything before and after it is kept in order; otherwise the list is unchanged; the result is always a subsequence with one copy fewer |
| Common.RemoveFirstOfAppended | src/feeds/manager.py:113-130 | subscribing a callback that is not listed, then unsubscribing it, restores the list |
| Common.RemoveFirstOfDistinct | src/feeds/manager.py:83-84 | removing a key from a list without repeats leaves exactly the other keys, still without repeats |
| Feeds.Caption.ToDict | src/feeds/feed.py:22-31 | the record is a JSON object from which a client reads back every field of the caption unchanged |
| Feeds.BoundedAppend | src/feeds/feed.py:88-89 | appending to the bounded deque grows it by one below capacity and keeps it at capacity otherwise; the result is always the newest items of the old contents plus the new caption, in order |
| Feeds.Ingest | src/feeds/feed.py:88-92 | one transcript never takes the history above `max_captions` |
| Feeds.IngestAll | src/feeds/feed.py:88-92 | no run of transcripts takes the history above `max_captions` |
| Feeds.BoundedAppendOfNewest | src/feeds/feed.py:64 | appending to a deque that holds the newest n items gives the newest n items of the extended sequence |
| Feeds.HistoryKeepsNewestFinals | src/feeds/feed.py:88-92 | after any run of transcripts, the history is exactly the newest `max_captions` final captions, oldest first; interim transcripts never enter it |
| Feeds.CapacityThreeKeepsLastThree | src/feeds/feed.py:64 | with capacity 3, four finals a, b, c, d leave b, c, d |
| Feeds.NewestStoredIsLastFinal | src/feeds/feed.py:88-90 | the newest stored caption is the last final transcript of the run, or the newest one stored before it |
| Feeds.CurrentTextOf | src/feeds/feed.py:119-123 | a non-empty interim wins; any other result is the newest stored text or ""; the text is "" exactly when there is neither a non-empty interim nor a non-empty newest caption (over a whole run: `CurrentTextAfterRun`) |
| Feeds.CurrentTextAfterRun | src/feeds/feed.py:119-123 | after any run of transcripts, the current text is the newest transcript's text unless that is an empty interim; in that case it is the newest final text, or "" |
| Feeds.Recent | src/feeds/feed.py:109-110 | the window keeps every caption stamped at or after the cutoff, as often as it occurs, keeps nothing older, and keeps storage order |
| Feeds.RecentOfQualifyingIsAll | src/feeds/feed.py:110 | when every caption is recent enough, the window is the whole history |
| Feeds.RecentOfSortedIsSuffix | src/feeds/feed.py:110 | for a history in time order, the window is a suffix of it |
| Feeds.Feed.constructor | src/feeds/feed.py:59-67 | a new feed keeps its id, name, channel and vMix input, is enabled, and has no captions, no interim text and no subscribers |
| Feeds.Feed.AddTranscript | src/feeds/feed.py:79-97 | covers four things: (1) the caption carries the feed id, the fresh id and the transcript's text, finality, timestamp and confidence; (2) a final caption is appended to the bounded history and clears the interim text; (3) an interim transcript only replaces the interim text; (4) the current text that results, and every current subscriber called exactly once |
| Feeds.Feed.NotifySubscribers | src/feeds/feed.py:133-139 | every subscriber in the snapshot is called exactly once with the caption; a subscriber that raises does not stop the others |
| Feeds.Feed.GetHistory | src/feeds/feed.py:99-110 | the captions of the last `minutes` minutes before `now`: exactly the stored ones at or after the cutoff, in storage order |
| Feeds.Feed.GetCurrentText | src/feeds/feed.py:112-123 | the feed's non-empty interim text, else the newest stored caption's text, else "" (after a transcript: the postconditions of `Feed.AddTranscript`) |
| Feeds.Feed.Subscribe | src/feeds/feed.py:125-127 | set insertion: subscribing twice is subscribing once |
| Feeds.Feed.Unsubscribe | src/feeds/feed.py:129-131 | set removal: the callback is gone, and removing an absent one changes nothing |
| Feeds.Feed.SetEnabled | src/feeds/feed.py:146-149 | the flag takes the given value |
| Feeds.Feed.CaptionCount | src/feeds/feed.py:151-154 | the count never exceeds the feed's capacity |
| FeedManagement.ListedFeedsCoverRegistry | src/feeds/manager.py:62 | every registered feed sits at some position of the key order |
| FeedManagement.EnabledOnly | src/feeds/manager.py:71 | the filter keeps exactly the enabled feeds, each as often as it occurs, in their original order |
| FeedManagement.FeedManager.constructor | src/feeds/manager.py:17-20 | no feeds and no global subscribers |
| FeedManagement.FeedManager.CreateFeed | src/feeds/manager.py:22-41 | a fresh feed built from the config, with `enabled` copied, is registered under `config.id` and replaces any feed of that id; other feeds and the subscribers are untouched |
| FeedManagement.FeedManager.GetFeed | src/feeds/manager.py:43-53 | the feed registered under the id, or None when there is none |
| FeedManagement.FeedManager.ListFeeds | src/feeds/manager.py:55-62 | every registered feed exactly once, the i-th being the feed of the i-th registered id |
| FeedManagement.FeedManager.GetEnabledFeeds | src/feeds/manager.py:64-71 | exactly the registered feeds that are enabled, in registry order |
| FeedManagement.FeedManager.RemoveFeed | src/feeds/manager.py:73-86 | returns true and drops the id when it was registered; otherwise returns false; no other feed changes |
| FeedManagement.FeedManager.AddTranscript | src/feeds/manager.py:88-111 | on a missing or disabled feed, returns None and touches nothing; otherwise, only that feed takes the transcript, keeping its subscribers and its enabled flag, and every subscriber it had gets the caption; the caption goes to every global subscriber in list order, raising ones included, and is returned |
| FeedManagement.FeedManager.NotifyGlobal | src/feeds/manager.py:103-108 | the i-th call goes to the i-th listed subscriber with `(feed_id, caption)`, for every entry of the list |
| FeedManagement.FeedManager.SubscribeAll | src/feeds/manager.py:113-120 | appends, so duplicates are kept |
| FeedManagement.FeedManager.UnsubscribeAll | src/feeds/manager.py:122-130 | drops the first listing only, and changes nothing when the callback is not listed |
| FeedManagement.FeedManager.ClearAll | src/feeds/manager.py:141-143 | no feeds remain; the global subscribers stay |
| Audio.FirstInvalidChannel | src/audio/capture.py:49-53 | the check as written: it reports the first channel outside `[0, device channels)`, and reports none exactly when every channel is inside |
| Audio.EmptySelectionPassesCheck | src/audio/capture.py:49-53 | the empty selection passes the check, yet no frame can be mixed from it |
| Audio.ValidateSelection | src/audio/capture.py:49-53 | the corrected check: it passes exactly the non-empty selections inside the device; a failure names the empty selection or the first bad channel |
| Audio.MixFrame | src/audio/capture.py:113-119 | the single-channel shortcut and the multi-channel mean both give the mean of the selected channels; with one channel, that is the channel's own sample |
| Audio.ExtractMono | src/audio/capture.py:113-119 | one sample per frame, each the mean of the selected channels; with one channel, a copy of that column |
| Audio.TwoChannelMeanExample | src/audio/capture.py:117-119 | channels [0, 1] holding 1.0 and 0.0 mix to 0.5 |
| Audio.TruncateTowardZero | src/audio/capture.py:122 | the float-to-integer cast drops the fraction toward zero, for either sign |
| Audio.WrapInt16 | src/audio/capture.py:122 | the int16 reduction is congruent to its input modulo 2^16 and leaves values already in range alone |
| Audio.SampleToInt16 | src/audio/capture.py:122 | the int16 value is congruent modulo 2^16 to the scaled sample truncated toward zero |
| Audio.InRangeSampleDoesNotWrap | src/audio/capture.py:121-122 | a sample in [-1.0, 1.0] becomes its truncated scaled value, in [-32767, 32767], with no wrap-around |
| Audio.SampleBytes | src/audio/capture.py:123 | each sample takes two bytes |
| Audio.EncodeSamples | src/audio/capture.py:123 | the buffer has two bytes per sample |
| Audio.DecodeSamples | src/audio/capture.py:123 | reading 16-bit little-endian PCM gives one sample per two bytes |
| Audio.DecodeEncode | src/audio/capture.py:122-123 | decoding the encoded buffer gives back every sample |
| Audio.ProcessBlock | src/audio/capture.py:113-123 | two bytes per frame, and frame i's two bytes decode to the int16 conversion of frame i's channel mean |
| Audio.AudioCapture.Init | src/audio/capture.py:33-42 | keeps the configuration; not running, with no stream, callback, worker or queued blocks |
| Audio.AudioCapture.Create | src/audio/capture.py:17-53 | construction fails exactly for a selection that cannot be mixed, naming the first bad channel; otherwise the object is idle |
| Audio.AudioCapture.Start | src/audio/capture.py:55-81 | while running, changes nothing; otherwise stores the callback, sets the flag and starts the worker, and the stream is open exactly when the device opens it |
| Audio.AudioCapture.Stop | src/audio/capture.py:83-94 | afterwards not running, with no stream and no worker; a second call is harmless |
| Audio.AudioCapture.OnAudioBlock | src/audio/capture.py:96-103 | the block is queued if and only if the capture is running |
| Audio.AudioCapture.WorkerStep | src/audio/capture.py:105-130 | exits once stopped and idles on an empty queue; otherwise takes the oldest block and hands `ProcessBlock` of it to the callback, and a callback that raises does not end the loop |
| Outputs.CaptionPath | src/outputs/file_output.py:47 | the output directory, `/`, the feed id and `.txt`, with the id readable back at a fixed position |
| Outputs.HistoryPath | src/outputs/file_output.py:96 | the output directory, `/`, the feed id and `_history.txt`, with the id readable back at a fixed position |
| Outputs.CaptionPathInjective | src/outputs/file_output.py:47 | distinct feed ids give distinct text-joined caption paths |
| Outputs.HistoryPathIsCaptionPath | src/outputs/file_output.py:96 | feed f's history file is the caption file of a feed named `f_history` |
| Outputs.WriteSkipsUnchangedText | src/outputs/file_output.py:42-44 | writing the cached text returns false and changes nothing; when the cache agrees with the disk, the file already holds that text |
| Outputs.WriteStep | src/outputs/file_output.py:42-53 | reports a write exactly when the text differs from the cached one and the file can be written; a write puts the text in that feed's file and cache entry and changes no other path or entry; otherwise nothing changes |
| Outputs.WriteIsolation | src/outputs/file_output.py:46-50 | a write for one feed leaves every other feed's cache entry and caption file as they were |
| Outputs.WriteKeepsSynced | src/outputs/file_output.py:29-53 | caption writes keep every cached text equal to its file's contents |
| Outputs.ClearedOn | src/outputs/file_output.py:67-70 | the state `clear_all` leaves: no cache key is added or dropped, feeds outside the cleared set keep their text, and no file disappears; `ClearAllBlanksEveryFeed` states the blanking |
| Outputs.ClearOneMore | src/outputs/file_output.py:67-70 | clearing one more feed of the key snapshot is one `clear_caption` call |
| Outputs.ClearOneMoreWrites | src/outputs/file_output.py:67-70 | the case of a feed with non-empty cached text and a writable file: clearing it is the blanking write |
| Outputs.ClearOneMoreSkips | src/outputs/file_output.py:67-70 | the case of a feed already blank or unwritable: clearing it is the skipped write |
| Outputs.ClearedFilesGrow | src/outputs/file_output.py:67-70 | clearing one more writable, non-blank feed blanks exactly that feed's caption file |
| Outputs.ClearAllBlanksEveryFeed | src/outputs/file_output.py:67-70 | after `clear_all`, every feed in the cache is still there and no feed is added; unless its file cannot be written, each has "" both cached and on disk |
| Outputs.TwoDigits | src/outputs/file_output.py:100 | two decimal digits that read back as the number |
| Outputs.ClockText | src/outputs/file_output.py:100 | `HH:MM:SS` of six decimal digits and two colons, with hours below 24 and minutes and seconds below 60, reading back as the timestamp's second of the day |
| Outputs.ClockFields | src/outputs/file_output.py:100 | a second of the day splits into hours below 24 and minutes and seconds below 60 that add back up to it |
| Outputs.HistoryLine | src/outputs/file_output.py:100-101 | a history line is `[`, the clock text, `] `, then the caption text unchanged |
| Outputs.NoNewlineInHistoryLine | src/outputs/file_output.py:101 | a line holds a newline only if the caption text does |
| Outputs.HistoryLines | src/outputs/file_output.py:98-101 | one line per caption, in input order, proved by induction over the captions |
| Outputs.JoinLines | src/outputs/file_output.py:103 | the joined text starts with the first line and ends with the last one |
| Outputs.SplitLines | src/outputs/file_output.py:103 | splitting on newlines yields at least one line |
| Outputs.SplitAtFirstNewline | src/outputs/file_output.py:103 | the first newline ends the first line |
| Outputs.SplitJoin | src/outputs/file_output.py:103 | joining lines that hold no newline with "\n" and splitting again gives back the lines |
| Outputs.HistoryFileLayout | src/outputs/file_output.py:98-103 | the history file is "" for no captions; otherwise it splits back into exactly one `[HH:MM:SS] text` line per caption, in order, with no trailing newline |
| Outputs.Disk.WriteText | src/outputs/file_output.py:48 | replaces the file's text, or fails and leaves the file system as it was |
| Outputs.FileOutput.constructor | src/outputs/file_output.py:17-27 | nothing cached yet |
| Outputs.FileOutput.GetFilePath | src/outputs/file_output.py:72-82 | the output directory, `/`, the feed id and `.txt`, from which the feed id reads back |
| Outputs.FileOutput.WriteCaption | src/outputs/file_output.py:29-53 | the result, cache and disk are those of the write-if-changed step |
| Outputs.FileOutput.ClearCaption | src/outputs/file_output.py:55-65 | exactly `write_caption(feed_id, "")` |
| Outputs.FileOutput.ClearAll | src/outputs/file_output.py:67-70 | the cache and disk are those after clearing every cached feed |
| Outputs.FileOutput.WriteHistory | src/outputs/file_output.py:84-107 | succeeds exactly when the history file can be written, which then holds the joined history lines; nothing else changes |
| Web.Connected | src/web/server.py:28-30 | the socket joins the feed's set, which is created empty first for an unseen feed; other feeds are untouched |
| Web.Disconnected | src/web/server.py:34-35 | the socket leaves the feed's set; no feed entry is created and other feeds are untouched |
| Web.DisconnectUndoesConnect | src/web/server.py:25-35 | a connect followed by a disconnect of a new socket restores the registry, apart from the empty set of a newly seen feed |
| Web.NewestFirstRecords | src/web/server.py:143-144 | one record per caption, and record i is the record of the i-th newest caption (counting from 0) |
| Web.MarkersAreNotCaptions | src/web/server.py:137-148 | the start and end markers never read as captions |
| Web.ReplayMessages | src/web/server.py:135-148 | no message exactly when the history is empty; otherwise two more messages than captions, opened by the start marker with the count and closed by the end marker |
| Web.ReplayMessageAt | src/web/server.py:135-148 | the message at each position of the replay: the start marker, the caption records newest first, the end marker |
| Web.ReplayPrefix | src/web/server.py:135-148 | messages that agree with the replay position by position, with the end marker only at full length, are a prefix of the replay |
| Web.ReplayCarriesReversedHistory | src/web/server.py:143 | a client reading the replay gets the history window in reverse order |
| Web.ReplayNewestFirst | src/web/server.py:142-143 | for a history in time order, the replayed captions arrive newest first |
| Web.AttemptSends | src/web/server.py:40-45 | every connection of the feed gets exactly one send attempt with the message, and the dead set is exactly the connections whose send failed |
| Web.ConnectionManager.constructor | src/web/server.py:22-23 | no connections |
| Web.ConnectionManager.Connect | src/web/server.py:25-30 | the registry becomes that of `Connected` |
| Web.ConnectionManager.Disconnect | src/web/server.py:32-35 | the registry becomes that of `Disconnected` |
| Web.ConnectionManager.BroadcastToFeed | src/web/server.py:37-49 | an unknown feed changes nothing; otherwise there is one attempt per connection, and the feed's set becomes the old set minus the failed ones, other feeds untouched |
| Web.ConnectionManager.DiscardAll | src/web/server.py:47-49 | the dead connections leave the feed's set and nothing else changes |
| Web.ConnectionManager.BroadcastCaption | src/web/server.py:51-53 | a broadcast of the caption's record |
| Web.SendReplay | src/web/server.py:135-148 | the replay's messages are sent in order; when a send raises, exactly the messages before it were sent |
| Web.WebsocketEndpoint | src/web/server.py:120-165 | an unknown feed is closed with 4004 "Feed not found" and nothing is registered; otherwise the socket is registered and sent the replay of the feed's last five minutes; if a replay send raises, the socket is disconnected again after the messages before it |

## Left out

- Threading and the queue hand-off in `AudioCapture`, plus `sounddevice`. These are concurrency and a foreign library. The worker is one step (`WorkerStep`) and the queue is a sequence. The 0.1 s `get` timeout becomes the `Idle` step, and the 1 s `join` timeout is not modelled.
- The `sounddevice` stream. Its construction and its `.start()` failing are one outcome (`streamOpens` false, no stream recorded). As in the code, the flag and the worker stay set after such a failure, so a later `start` is a no-op.
- `_audio_callback`'s status printing, and every `print`, are not modelled.
- Audio.SampleToInt16: samples are reals, not float32, so float rounding is not modelled. Beyond |x * 32767| >= 2^31 the cast is platform-dependent. The model wraps modulo 2^16 everywhere; only the in-range case (`InRangeSampleDoesNotWrap`) is what all platforms do.
- Audio.EncodeSamples: assumes a little-endian host. `tobytes()` uses native byte order.
- The device's channel count is given to `Create`. `sd.query_devices` is not part of this model.
- `Caption.timestamp.isoformat()` is kept as a time value (`JTime`); the ISO-8601 text is not spelled out.
- Feed.to_dict, `get_all_feeds_info` and the REST routes of `server.py` are not modelled. They only serialise and read.
- FeedManagement.FeedManager.CreateFeed always uses the default capacity of 1000, as the code does. A negative `max_captions` (a `ValueError` in `deque`) cannot arise, because capacities are natural numbers.
- Feeds.Feed.GetHistory: the cutoff is `now` minus the window, in whole microseconds. The `OverflowError` Python raises when the cutoff falls before year 1 is not modelled; a negative cutoff simply keeps everything.
- The keep-alive loop of `websocket_endpoint` (ping/pong, 30 s timeout) and its disconnect handling are not modelled. `ConnectionManager.Disconnect` is the operation that loop ends with. A failing replay send is modelled (`failAt`); a `WebSocketDisconnect` and any other exception both end in the same disconnect.
- The event-loop juggling of `broadcast_caption_async` and the async scheduling of sends are not modelled. A connection that joins while a broadcast iterates its set is not modelled either.
- Subscriber callbacks run to completion before the next one is called. A callback that unsubscribes another during a notification cannot be expressed. As the snapshot in `_notify_subscribers` implies, such a callback would still be called for that caption.
- The `if self._callback` guard of `_process_audio`: the model's invariant makes it always true while running.
- Outputs.FileOutput.WriteCaption: a failing `write_text` is modelled as leaving the file unchanged. A partial write is not modelled.
- `Path` normalisation of the output directory and the directory creation in `FileOutput.__init__` are not modelled. Paths are joined as text with `/`.
- Outputs.CaptionPathInjective: injectivity holds for the text-joined paths, that is for feed ids without `/`, `.` or `..` segments and not absolute. `pathlib` drops `.` segments and lets an absolute id replace the directory, so ids `a` and `./a` share `dir/a.txt` in the program.
- A `write_history` for feed f overwrites the caption file of a feed named `f_history`, if one exists (`HistoryPathIsCaptionPath`). The cache then no longer agrees with that file. `WriteKeepsSynced` covers caption writes only.
- Outputs.HistoryFileLayout: it holds only for caption texts without a newline. A text that contains one splits into several lines.
- Transcription, vMix, configuration loading, device listing, the GUI and `main.py` orchestration are not part of this model.

## Findings

| source | as written | input that shows it | evidently intended | confidence | as-written member | corrected member |
|---|---|---|---|---|---|---|
| src/audio/capture.py:49-53 | only out-of-range channels are rejected, so an empty channel list is accepted | `AudioCapture(device_id, channels=[])`: the check passes, and `_process_audio` then takes `np.mean` over zero columns, which gives NaN samples | a selection must hold at least one channel inside the device | low, not executed (the application always passes a one-element list) | Audio.FirstInvalidChannel, Audio.EmptySelectionPassesCheck | Audio.ValidateSelection, Audio.AudioCapture.Create |
