# Bottle inspection: verified model of the decision logic

The bottle-vision system inspects bottles on a line with two cameras. One camera
photographs the tap (cap) and the other the liquid level; each image lands in its own blob
container. A backend watcher pairs the two images of a bottle by a bottle id derived
from the file names. It hands each new pair to the processor, which classifies both
images, decides PASS or FAIL, increments a global counter and broadcasts the result over a
WebSocket. For a failed bottle it also stores an error report. A browser dashboard keeps
the live feed (with a locally derived alert flag and an offset-corrected
counter), and can switch the backend on and off. A hook that keeps a capped history of
single-image analyses in local storage is defined, but no page uses it: its imports are
commented out in Frontend/src/pages/Index.tsx:8-9. It is modelled as written.

This project models the sequential rules under that plumbing, one Dafny module per
source file:

| module | source | form |
|---|---|---|
| `LiveMonitor` | Frontend/src/hooks/useWebSocket.ts | pure `Step`/`Run` over the hook's state, and the class `WebSocketHook` with one method per callback |
| `Processor` | Backend/app/processor.py | the bottle-id rule and verdict as functions; class `BottleProcessor` for `bottle_counter`, the `bottles` barrier, the broadcasts and the stored reports |
| `BlobWatcher` | Backend/app/blob_watcher.py | the id maps, the sorted pairing and one pass of the loop as functions; class `Watcher` over `processed_blobs` |
| `WebSocketRegistry` | Backend/app/websocket_manager.py | class `WebSocketManager` over the `connections` list, and the function its broadcast loop is proved against |
| `ServerControl` | Backend/app/main.py | the switch as a state machine, and class `Server` over the three globals |
| `ErrorReport` | Backend/app/pdf_generator.py | the report's label decisions as pure functions |
| `SystemToggle` | Frontend/src/hooks/useSystemControl.ts | class `SystemControlHook` and the displayed state over a series of requests |
| `AnalysisHistory` | Frontend/src/hooks/useAnalysisHistory.ts | class `HistoryHook` over the history and the browser storage |
| `AlertPolicy` | useWebSocket.ts with processor.py | how the client's alert flag relates to the backend's verdict |
| `AnalysisTypes`, `Text` | Frontend/src/types/analysis.ts | the records exchanged, plus the string operations the rules use |

Inputs from the outside world are parameters:
- a blob listing, downloaded bytes or a classifier outcome is a `Result`;
- whether a WebSocket send succeeds is a sequence of booleans;
- the watcher's running flag is a function from the index of the read to its value;
- the success of an HTTP request is a `Response`;
- decoding a WebSocket message is an `Option` (`None` when it does not parse).

Two behaviours of the code worth knowing:
- **Second `connect` before the first socket opens.** `connect` guards only against an OPEN socket (useWebSocket.ts:34). So a second call while the first socket is still CONNECTING installs a second socket and never closes the first (`LiveMonitor.ConnectTwiceBeforeOpen`).
- **Events after unmount.** The unmount cleanup (useWebSocket.ts:101-107) closes the socket but does not detach its handlers. A later close event still calls the state setters, but React discards updates to an unmounted component. The Monitor page also calls `disconnect()` in its own effect cleanup (Frontend/src/pages/Monitor.tsx:18-21).

## Model

| member | source | states |
|---|---|---|
| LiveMonitor.AlertFlagIff | Frontend/src/hooks/useWebSocket.ts:21-24 | a label alerts iff it equals `low`, `full` or `tap_missing` up to ASCII case; every other label does not alert |
| LiveMonitor.HasAlertFlag | Frontend/src/hooks/useWebSocket.ts:21-24 | only labels of the vocabulary's lengths can alert |
| LiveMonitor.AlertVocabularyIsLower | Frontend/src/hooks/useWebSocket.ts:22 | the vocabulary is already lower-case, so lower-casing maps onto it exactly |
| LiveMonitor.AlertFlagPositiveExamples | Frontend/src/hooks/useWebSocket.ts:22-23 | `low`, `LOW`, `Full`, `TAP_MISSING` and `tap_missing` alert |
| LiveMonitor.AlertFlagNegativeExamples | Frontend/src/hooks/useWebSocket.ts:22-23 | `ok`, `tap_present`, the empty label, the two timeout labels, `low ` and `lo` do not alert |
| LiveMonitor.Accept | Frontend/src/hooks/useWebSocket.ts:47-57 | a decoded message adds a bottle iff its type is `analysis_result` and it carries data; the added bottle's `hasAlert` is the tap alert OR the level alert, and every other field is the wire's |
| LiveMonitor.WireAlertIgnored | Frontend/src/hooks/useWebSocket.ts:57 | two messages that differ only in the wire's `hasAlert` are accepted identically |
| LiveMonitor.CloseSocket | Frontend/src/hooks/useWebSocket.ts:86 | `close()` moves a connecting or open socket to closing and keeps its identity |
| LiveMonitor.MarkSocket | Frontend/src/hooks/useWebSocket.ts:40-43 | a socket event updates the ready state of the current handle only when it comes from that handle |
| LiveMonitor.Step | Frontend/src/hooks/useWebSocket.ts:33-107 | only `clearResults` moves the offset; only a message or a clear touches the log and the count; only `connect` advances the socket counter, by at most one, and it always leaves a socket installed (partner: `StepInv`) |
| LiveMonitor.Run | Frontend/src/hooks/useWebSocket.ts:27-107 | without a clear the offset is kept; each callback creates at most one socket (partners: `RunInv`, `RunLog`) |
| LiveMonitor.StepInv | Frontend/src/hooks/useWebSocket.ts:33-107 | every callback keeps the invariant: count and offset non-negative, count = max(0, newest bottle's total − offset) (0 with an empty log), handle among the created sockets; the offset never decreases |
| LiveMonitor.RunInv | Frontend/src/hooks/useWebSocket.ts:29-30 | after any sequence of callbacks from a state satisfying the invariant, the invariant holds and the offset has not decreased |
| LiveMonitor.RunLog | Frontend/src/hooks/useWebSocket.ts:60 | the log is the bottles accepted since the last clear, newest first, on top of the initial log when there was no clear |
| LiveMonitor.LogLengthCountsAccepted | Frontend/src/hooks/useWebSocket.ts:50-60 | from mount, the log length equals the number of accepted messages since the last clear, and the count is never negative |
| LiveMonitor.IgnoredMessageChangesNothing | Frontend/src/hooks/useWebSocket.ts:47-65 | a message that did not parse, or has another type, changes no part of the state, the connection included |
| LiveMonitor.ConnectTwiceBeforeOpen | Frontend/src/hooks/useWebSocket.ts:34-38 | `connect` twice before the socket opens installs a second, different socket and never closes the first |
| LiveMonitor.CountStatus | Frontend/src/pages/Monitor.tsx:27-28 | the okCount/failCount filters count at most the log's length |
| LiveMonitor.OkFailPartition | Frontend/src/pages/Monitor.tsx:27-28 | okCount + failCount equals the number of logged bottles |
| LiveMonitor.AlertScenario | Frontend/src/hooks/useWebSocket.ts:40-61 | once connected, a `tap_missing` bottle with total 5 is logged with an alert and shows count 5 at offset 0 |
| LiveMonitor.ClearScenario | Frontend/src/hooks/useWebSocket.ts:53-99 | after that bottle and a clear, a bottle with total 8 shows 3 against offset 5, alone in the log |
| LiveMonitor.WebSocketHook.constructor | Frontend/src/hooks/useWebSocket.ts:27-31 | mount: disconnected, empty log, count and offset 0, no socket |
| LiveMonitor.WebSocketHook.Connect | Frontend/src/hooks/useWebSocket.ts:33-82 | no change when the handle is open; otherwise a new connecting socket becomes the handle and the displayed state is untouched |
| LiveMonitor.WebSocketHook.OnOpen | Frontend/src/hooks/useWebSocket.ts:40-43 | sets connected; log, count and offset unchanged |
| LiveMonitor.WebSocketHook.OnClose | Frontend/src/hooks/useWebSocket.ts:68-71 | sets disconnected; log, count and offset unchanged |
| LiveMonitor.WebSocketHook.OnError | Frontend/src/hooks/useWebSocket.ts:73-76 | sets disconnected; log, count and offset unchanged |
| LiveMonitor.WebSocketHook.OnMessage | Frontend/src/hooks/useWebSocket.ts:45-66 | an accepted bottle is put in front of the log and the count becomes max(0, total − offset); anything else changes nothing; offset and connection untouched |
| LiveMonitor.WebSocketHook.Disconnect | Frontend/src/hooks/useWebSocket.ts:84-90 | with a handle: closes it, drops it and sets disconnected; without one: no change |
| LiveMonitor.WebSocketHook.ClearResults | Frontend/src/hooks/useWebSocket.ts:92-99 | empties the log, shows 0, and adds the shown count to the offset |
| LiveMonitor.WebSocketHook.Unmount | Frontend/src/hooks/useWebSocket.ts:101-107 | closes the handle if there is one; neither drops it nor changes the flag or the log |
| Text.LowerAscii | Frontend/src/hooks/useWebSocket.ts:23 | lower-casing keeps the length and lowers each ASCII letter |
| Text.LastIndexOf | Backend/app/processor.py:52 | the position of the last occurrence, or none when the character is absent |
| Text.ReplaceAll | Backend/app/processor.py:55-57 | removing a pattern never lengthens the string (partners: `ReplaceAbsent`, `ReplaceSplit`) |
| Text.Below | Backend/app/blob_watcher.py:83-85 | the string order is irreflexive (partners: `BelowTransitive`, `BelowTotal`, `BelowAsymmetric`) |
| Text.StripExtension | Backend/app/processor.py:52 | `rsplit(".", 1)[0]`: the prefix before the last dot, or the whole name without a dot |
| Text.StripOneExtension | Backend/app/processor.py:52 | `name + "." + ext` strips to `name` when `ext` holds no dot |
| Text.ReplaceAbsent | Backend/app/processor.py:55 | `replace` of a pattern that does not occur leaves the string unchanged |
| Text.RemoveSuffixPattern | Backend/app/processor.py:55-57 | removing `_tap`/`_level` from a stem that otherwise lacks it gives the stem back |
| Text.ReplaceSplit | Backend/app/processor.py:55 | `replace` of an underscore-led pattern distributes over a boundary before an underscore |
| Text.ContainsSplit | Backend/app/processor.py:54 | an underscore-led pattern occurs in `a + b` iff it occurs in `a` or in `b`, when `b` starts with an underscore |
| Text.Insert | Backend/app/blob_watcher.py:83-85 | inserting into an ascending sequence keeps it ascending, with exactly one more element |
| Text.AscendingUnique | Backend/app/blob_watcher.py:83-85 | two ascending sequences with the same elements are equal: `sorted` has one result |
| Processor.PairedNamesShareId | Backend/app/processor.py:45-58 | for a clean stem, `stem_tap.ext`, `stem_level.ext` and `stem.ext` all map to `stem` |
| Processor.TapStemId | Backend/app/processor.py:54-55 | a clean stem followed by `_tap` maps back to the stem |
| Processor.LevelStemId | Backend/app/processor.py:56-57 | a clean stem followed by `_level` maps back to the stem |
| Processor.DocExamples | Backend/app/processor.py:47-49 | `bottle_000013_tap.jpg` and `bottle_000013_level.jpg` both map to `bottle_000013` |
| Processor.TapInsideStemBreaksPairing | Backend/app/processor.py:54-57 | a stem holding `_tap` (`x_tape`) breaks the pairing: its tap image maps to `xe` and its level image to `xe_level` |
| Processor.Verdict | Backend/app/processor.py:135-137 | PASS iff the tap label is exactly `tap_present` and the level label exactly `ok`, the same condition as the report's error flag |
| Processor.ParallelResult | Backend/app/processor.py:90-109 | the two predictions, the timeout placeholders on timeout, an error iff the prediction raised |
| Processor.TimeoutFails | Backend/app/processor.py:103-106 | a timed-out bottle gets confidence 0 on both checks and fails |
| Processor.ReportName | Backend/app/processor.py:177 | the report file name starts with the bottle id and adds the 17 characters of `_error_report.pdf` |
| Processor.BottleProcessor.constructor | Backend/app/processor.py:27-42 | counter 0, empty barrier, nothing broadcast or uploaded |
| Processor.BottleProcessor.ProcessCompleteBottle | Backend/app/processor.py:112-193 | on a raising prediction nothing changes and the error propagates; otherwise the counter rises by 1, the result carries the new count, the verdict, the labels and blob names and is broadcast, a report named after the bottle is uploaded iff FAIL (always a red one), and the bottle is absent from the barrier |
| Processor.BottleProcessor.ProcessBottleFromBlobs | Backend/app/processor.py:195-215 | a failed download propagates, tap first; with both downloads it fails iff the prediction raised; on any error the counter, barrier, broadcasts and uploads are unchanged; on success the counter rises by 1, the result carries the new count, the verdict and both blob names and is broadcast, the bottle is not in the barrier, and a red report built from both downloaded images is uploaded iff FAIL |
| Processor.GetBottleId | Backend/app/processor.py:45-58 | the id is never longer than the blob name (partners: `PairedNamesShareId`, `DocExamples`) |
| Processor.StemId | Backend/app/processor.py:53-58 | the id is never longer than the stem, and a stem holding neither `_tap` nor `_level` is its own id |
| BlobWatcher.SameBottleId | Backend/app/blob_watcher.py:19-25 | the watcher's copy of the id rule agrees with the processor's on every name |
| BlobWatcher.GetBottleId | Backend/app/blob_watcher.py:19-25 | the id is never longer than the blob name (partner: `SameBottleId`) |
| BlobWatcher.Visit | Backend/app/blob_watcher.py:87-108 | `processed_blobs` only grows; at most one call per complete bottle; a stopped loop saw a false flag at some check in its range (partners: `VisitMarksCalls`, `VisitCallsAreNew`, `VisitCompletedHandlesEveryNew`) |
| BlobWatcher.Pass | Backend/app/blob_watcher.py:69-108 | `processed_blobs` only grows; the pass is idle iff the first flag read is false; a failed listing makes no call (partner: `PassCompletedHandlesEveryNew`) |
| BlobWatcher.Key | Backend/app/blob_watcher.py:54-56 | the entry is the container, a slash and the blob name |
| BlobWatcher.KeyInjective | Backend/app/blob_watcher.py:95-96 | within one container, entries are equal iff the blob names are |
| BlobWatcher.KeyContainersDiffer | Backend/app/blob_watcher.py:95-96 | entries of two different slash-free containers never coincide |
| BlobWatcher.IdMap | Backend/app/blob_watcher.py:80-81 | every id of the dict maps to a listed blob with that id |
| BlobWatcher.IdMapKeys | Backend/app/blob_watcher.py:80-81 | the dict's ids are exactly the ids of the listed blobs |
| BlobWatcher.IdMapLastWins | Backend/app/blob_watcher.py:80-81 | for an id shared by several blobs, the last listed one is kept |
| BlobWatcher.CompleteBottles | Backend/app/blob_watcher.py:83-85 | ascending, and holds exactly the ids present in both dicts |
| BlobWatcher.CompleteBottlesUnique | Backend/app/blob_watcher.py:83-85 | the visiting order is the only ascending arrangement of the common ids |
| BlobWatcher.VisitMarksCalls | Backend/app/blob_watcher.py:98-104 | `processed_blobs` only grows, gaining exactly the two entries of each bottle handed over |
| BlobWatcher.VisitCallsAreNew | Backend/app/blob_watcher.py:92-99 | every bottle handed over is a complete one, with the dicts' blobs, and was not already handled |
| BlobWatcher.VisitCompletedHandlesEveryNew | Backend/app/blob_watcher.py:87-108 | when the loop runs to the end, every complete bottle not already handled is handed over |
| BlobWatcher.PassCompletedHandlesEveryNew | Backend/app/blob_watcher.py:75-108 | a pass that completes hands over every common id whose two entries were not both marked, so a bottle is skipped iff both are marked |
| BlobWatcher.VisitStopsAtFlag | Backend/app/blob_watcher.py:87-90 | once the flag reads false before a bottle, no bottle from there on is handed over and the pass does not complete |
| BlobWatcher.VisitCallsAscending | Backend/app/blob_watcher.py:83-87 | bottles are handed over in strictly ascending id order, each at most once |
| BlobWatcher.PreExistingNeverProcessed | Backend/app/blob_watcher.py:47-56 | after the initial marking, no bottle whose two blobs were both listed at start is processed |
| BlobWatcher.Watcher.constructor | Backend/app/blob_watcher.py:16 | `processed_blobs` starts empty |
| BlobWatcher.Watcher.MarkInitial | Backend/app/blob_watcher.py:47-59 | adds the entry of every listed tap and level blob; a failed listing adds nothing |
| BlobWatcher.Watcher.PollOnce | Backend/app/blob_watcher.py:69-108 | one pass: the calls made, the new `processed_blobs` and how it ended are those of the function `Pass` |
| BlobWatcher.Watcher.VisitAll | Backend/app/blob_watcher.py:87-108 | the loop over the complete bottles equals the function `Visit` |
| WebSocketRegistry.IndexOf | Backend/app/websocket_manager.py:17 | the position of the first occurrence |
| WebSocketRegistry.RemoveFirst | Backend/app/websocket_manager.py:17 | the list loses one entry iff the socket is in it, and nothing new appears (partner: `RemoveFirstSpec`) |
| WebSocketRegistry.AfterBroadcast | Backend/app/websocket_manager.py:21-30 | the list never grows and never gains a socket it did not hold (partner: `BroadcastKeepsSurvivors`) |
| WebSocketRegistry.RemoveFirstSpec | Backend/app/websocket_manager.py:15-19 | `remove` drops only the first occurrence and keeps the rest in order; an absent socket leaves the list as it was |
| WebSocketRegistry.RemoveFirstAfter | Backend/app/websocket_manager.py:17 | removal skips a prefix that does not hold the socket |
| WebSocketRegistry.Survivors | Backend/app/websocket_manager.py:25-30 | the sockets whose send succeeded are among the snapshot |
| WebSocketRegistry.BroadcastPrefix | Backend/app/websocket_manager.py:25-30 | partway through a broadcast over distinct sockets, the list is the survivors so far followed by the untried sockets |
| WebSocketRegistry.BroadcastKeepsSurvivors | Backend/app/websocket_manager.py:25-30 | with distinct sockets, a broadcast leaves exactly those whose send succeeded, in their original order |
| WebSocketRegistry.DuplicateEntryReorders | Backend/app/websocket_manager.py:17-30 | with a socket registered twice, `[1, 2, 1]` with the last send failing ends as `[2, 1]`, not the filter `[1, 2]` |
| WebSocketRegistry.WebSocketManager.constructor | Backend/app/websocket_manager.py:8-9 | no connections |
| WebSocketRegistry.WebSocketManager.Connect | Backend/app/websocket_manager.py:11-13 | appends the socket once the handshake is accepted; nothing when accepting raises |
| WebSocketRegistry.WebSocketManager.Disconnect | Backend/app/websocket_manager.py:15-19 | removes the first occurrence, length down by one; absent socket: no change |
| WebSocketRegistry.WebSocketManager.Broadcast | Backend/app/websocket_manager.py:21-30 | sends to each socket of the starting snapshot exactly once, in order, and removes the failed ones; with distinct sockets the survivors remain in order |
| ServerControl.Launch | Backend/app/main.py:118 | a fresh running task of a new generation becomes the watcher |
| ServerControl.CancelAndAwait | Backend/app/main.py:110-115 | after cancel-and-await the same task is no longer active |
| ServerControl.SwitchOn | Backend/app/main.py:95-121 | already on: same state and "Ya estaba encendido"; otherwise flag and event set and a fresh watcher generation replaces the old task |
| ServerControl.SwitchOff | Backend/app/main.py:124-158 | already off: same state and "El sistema ya estaba apagado"; otherwise flag and event cleared, an active watcher only asked to cancel, and "Sistema apagado correctamente" |
| ServerControl.Step | Backend/app/main.py:43-158 | `on` leaves the flag set, `off` clear, every other command keeps flag and event; a watcher task is created exactly by startup and by an `on` from off (partner: `StepInv`) |
| ServerControl.Run | Backend/app/main.py:28-158 | the number of watcher tasks created never falls and rises at most once per command; without switches the flag is kept (partner: `RunInv`) |
| ServerControl.StepInv | Backend/app/main.py:43-158 | startup, on, off, shutdown and a watcher ending keep the event equal to the flag, and a still-cancelling task implies off |
| ServerControl.RunInv | Backend/app/main.py:28-38 | from the initial state, after any commands, the event is set iff the flag is |
| ServerControl.SwitchesIdempotent | Backend/app/main.py:102-104 | a second identical switch request changes nothing and replies "already" |
| ServerControl.OffThenOnRestartsWatcher | Backend/app/main.py:110-118 | off then on leaves the system running with a newer watcher generation |
| ServerControl.Analyze | Backend/app/main.py:164-187 | an analyze route answers the label and confidence, or a 500 whose detail is the exception text iff something raised |
| ServerControl.Server.constructor | Backend/app/main.py:28-30 | off, event clear, no watcher |
| ServerControl.Server.IsSystemRunning | Backend/app/main.py:33-38 | returns the flag, which equals the event |
| ServerControl.Server.Startup | Backend/app/main.py:44-47 | launches a watcher of a new generation |
| ServerControl.Server.Shutdown | Backend/app/main.py:49-56 | leaves no active watcher |
| ServerControl.Server.WatcherEnded | Backend/app/main.py:50 | the current task is done; flag and event unchanged |
| ServerControl.Server.SystemOn | Backend/app/main.py:95-121 | the new globals and the reply are those of `SwitchOn` |
| ServerControl.Server.SystemOff | Backend/app/main.py:124-158 | the new globals and the reply are those of `SwitchOff` |
| ErrorReport.HasError | Backend/app/pdf_generator.py:30-35 | with no error both result blocks read OK (partners: `Reasons`, empty iff no error; `Processor.Verdict`, FAIL iff error) |
| ErrorReport.Reasons | Backend/app/pdf_generator.py:120-124 | holds the tap reason iff the tap is not `tap_present`, the level reason iff the level is not `ok`, tap first; empty iff no error |
| ErrorReport.ReasonLines | Backend/app/pdf_generator.py:126-130 | the "Cap error detectat" line exactly when there is no error, the reasons otherwise |
| ErrorReport.ResultBlock | Backend/app/pdf_generator.py:57-69 | a block shows OK on light green iff its label is `ok` or `tap_present`, ERROR on salmon otherwise |
| ErrorReport.Image | Backend/app/pdf_generator.py:83-104 | the placeholder iff the bytes are missing or empty; a green border iff the check passed, red otherwise |
| ErrorReport.Plan | Backend/app/pdf_generator.py:30-182 | red header iff error; block verdicts; the no-error line iff no error; tap border green iff `tap_present`, level border green iff `ok`; placeholders for missing bytes |
| ErrorReport.HeaderReasonsBordersAgree | Backend/app/pdf_generator.py:30-35 | the header is red iff some border is red iff some reason is listed |
| ErrorReport.BlockDisagreesWithBorder | Backend/app/pdf_generator.py:58 | a block verdict differs from its border exactly when the tap block gets `ok` or the level block gets `tap_present` |
| SystemToggle.AfterRequest | Frontend/src/hooks/useSystemControl.ts:19-28 | the displayed state becomes the target iff the response is ok, otherwise it stays |
| SystemToggle.Displayed | Frontend/src/hooks/useSystemControl.ts:14-47 | an acknowledged last request decides the state: it is that request's target (partner: `DisplayedIsLastAcknowledged`) |
| SystemToggle.DisplayedIsLastAcknowledged | Frontend/src/hooks/useSystemControl.ts:14-47 | after any requests the state is the target of the latest acknowledged one, or off when none was |
| SystemToggle.ToggleFlipsIffAcknowledged | Frontend/src/hooks/useSystemControl.ts:49-55 | a toggle flips the state iff its request is acknowledged |
| SystemToggle.SystemControlHook.constructor | Frontend/src/hooks/useSystemControl.ts:14-15 | off and not loading |
| SystemToggle.SystemControlHook.Send | Frontend/src/hooks/useSystemControl.ts:17-31 | loading during the request, not loading after, state per `AfterRequest` |
| SystemToggle.SystemControlHook.TurnOn | Frontend/src/hooks/useSystemControl.ts:17-31 | on after an ok response; unchanged after a non-ok response or an exception |
| SystemToggle.SystemControlHook.TurnOff | Frontend/src/hooks/useSystemControl.ts:33-47 | off after an ok response; unchanged otherwise |
| SystemToggle.SystemControlHook.Toggle | Frontend/src/hooks/useSystemControl.ts:49-55 | asks for the opposite of the current state |
| AnalysisHistory.Updated | Frontend/src/hooks/useAnalysisHistory.ts:28 | the new entry first, then the first min(n, 19) old entries in order; at most 20 |
| AnalysisHistory.AddAllNewestFirst | Frontend/src/hooks/useAnalysisHistory.ts:26-32 | after a series of additions the history is the newest 20 of everything added, newest first |
| AnalysisHistory.AddAll | Frontend/src/hooks/useAnalysisHistory.ts:26-32 | a series of additions never exceeds the cap (or the starting length), and the newest result comes first (partner: `AddAllNewestFirst`) |
| AnalysisHistory.Loaded | Frontend/src/hooks/useAnalysisHistory.ts:10-19 | a stored list replaces the history; a missing key or unparsable text leaves it |
| AnalysisHistory.StorageRoundTrip | Frontend/src/hooks/useAnalysisHistory.ts:22-37 | a load reads back what the last addition wrote; after a clear a load leaves the history empty |
| AnalysisHistory.HistoryHook.constructor | Frontend/src/hooks/useAnalysisHistory.ts:8 | an empty history over the stored data |
| AnalysisHistory.HistoryHook.Load | Frontend/src/hooks/useAnalysisHistory.ts:10-20 | the history per `Loaded`, storage unchanged |
| AnalysisHistory.HistoryHook.AddToHistory | Frontend/src/hooks/useAnalysisHistory.ts:26-32 | the history per `Updated`, and storage holds exactly the new list |
| AnalysisHistory.HistoryHook.ClearHistory | Frontend/src/hooks/useAnalysisHistory.ts:34-37 | empty history and the storage key removed |
| AlertPolicy.AlertImpliesFail | Frontend/src/hooks/useWebSocket.ts:53-55 | an alert on either label implies the backend's verdict is FAIL |
| AlertPolicy.TimeoutFailsWithoutAlert | Backend/app/processor.py:103-106 | the timeout placeholders fail the bottle yet raise no alert: the alert policy fails open |
| AlertPolicy.TimedOutBottleNotAlerted | Frontend/src/hooks/useWebSocket.ts:50-57 | a timed-out bottle is logged with no alert, whatever its wire value |

## Left out

- Networking and cloud SDKs: the classifier calls, blob listing, download and upload, and PDF receipt are inputs. Backend/app/azure_client.py, Backend/app/blob_client.py and Backend/app/pdf_receiver.py are not part of this model.
- Concurrency: thread pools, `asyncio.gather`/`wait_for`, the timeout value and task cancellation are not modelled. A cancellation is a status change; cancel-and-await completes at once.
- The watcher's outer `while True`, the event wait and the poll sleep are not modelled. One pass is modelled (`Pass`, `Watcher.PollOnce`); when the event is set but the flag reads false, that pass ends `Idle`.
- Backend/app/config.py is not part of this model: container names are constructor parameters.
- `BlobWatcher.PassCompletedHandlesEveryNew`: assumes the two configured container names differ and contain no slash.
- `first_seen` in `BottlePair` is not modelled. The source never adds to the `bottles` dict: it is declared at processor.py:42 and only read and deleted from at processor.py:183-184. The model keeps it as a set that starts empty, so the deletion has nothing to remove.
- `LiveMonitor.WebSocketHook.Unmount`: the model keeps the hook's state alive after unmount, so later `OnClose`/`OnMessage` calls still change it. In the browser those updates are discarded.
- `Processor.BottleProcessor.ProcessBottleFromBlobs`: when both downloads fail, the tap's error is the one reported. `asyncio.gather` reports whichever raised first in time.
- `Processor.BottleProcessor.ProcessCompleteBottle`: an exception from report generation or upload is not modelled. The report is a `ReportPlan` of its decisions, not ReportLab drawing, fonts or coordinates.
- Confidences are `real` and are only carried. Float formatting and the poll interval are not modelled.
- Timestamps (`datetime.utcnow`, `datetime.now`) and generated ids are parameters; logging is dropped.
- Lower-casing is ASCII only; JavaScript's full Unicode `toLowerCase` is not modelled.
- `JSON.parse` is an `Option` for WebSocket messages. A stored history is either a list or text that does not parse; valid JSON that is not a list, such as `null`, is not modelled.
- `AnalysisHistory.HistoryHook.Load`: an empty stored string is treated like text that does not parse, which matches the source's truthiness test.
- React rendering, StrictMode double effects and `useCallback` dependency capture are not modelled. Overlapping toggle requests are not modelled: each request completes before the next.
- WebSocket endpoint URL construction from the environment and the page location is not modelled.
- The `/ws` endpoint's receive loop is not modelled beyond the registry's `Connect` and `Disconnect`. Connects that happen during a broadcast's awaits are not modelled.
- The UI components in Frontend/src/components and the page rendering are display only and not modelled.
