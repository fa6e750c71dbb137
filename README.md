# isZoomUsingCamera — a Dafny model of the sampling and reaction core

isZoomUsingCamera is a macOS menu-bar utility that watches a video-conferencing
client (Zoom). Once a second a timer fires. Each firing asks three providers
for a fresh classification:

- whether the client is using the camera;
- whether it is sharing the screen;
- whether its process is running.

The two samplers stack-sample the client's process with `/usr/bin/sample` and
`grep` the sample for a sentinel routine name. `Model` stores the three
classifications. Each stored property has an observer that compares the old
and new value and, on the transitions it cares about, turns Do Not Disturb on
or off (through the `dndon`/`dndoff` shortcuts) and runs the user's script for
the event. Both kinds of action are gated by a preference. The earlier
`ZoomStatus`/`SampleProvider` pair does the camera sampling alone and only
shows the result as text.

The model replaces every OS query and command by data:

- the running-application query becomes a sequence of process ids;
- grep's exit code and the output and exit status of `shortcuts list` become parameters;
- every command the app would run, and every timer it schedules or cancels,
  is appended to a ghost log `effects` of `Effects.Effect` values.

Modules, one per component:

- `Wrappers` holds Option and Result.
- `Effects` holds the commands, the log, and the timer ledger: the live timers of a log must be exactly the timer the object holds.
- `SampleResults` holds the enums of `Model.swift`, their display texts and the event script paths.
- `Providers` holds the three providers of `Model.swift` as functions returning the commands they issue and the callbacks they make.
- `Shortcuts` holds the newline split of `shortcuts list` and `ShortcutsListProvider.run`.
- `Reactions` holds the three observers' transition rules, the preference gating, and lemmas about a channel fed a whole sequence of observations.
- `ZoomModel` holds the `Model` class.
- `SampleProvider` holds the earlier `ZoomStatus` class and `SampleProvider`.

## Model

| member | source | states |
|---|---|---|
| SampleResults.CameraText | isZoomUsingCamera/Model.swift:23-31 | every camera classification has a non-blank status line |
| SampleResults.CameraTextInjective | isZoomUsingCamera/Model.swift:23-31 | different camera classifications get different status lines |
| SampleResults.ScreenSharingText | isZoomUsingCamera/Model.swift:39-45 | the screen-sharing text is blank exactly for `noResult` |
| SampleResults.ScreenSharingTextInjective | isZoomUsingCamera/Model.swift:39-45 | the three screen-sharing classifications get three different texts |
| SampleResults.ScriptPath | isZoomUsingCamera/Model.swift:58-65 | every event's script is a `.sh` file directly under `~/.iszoomusingcamera/` (no `/` after the directory) |
| SampleResults.ScriptPathInjective | isZoomUsingCamera/Model.swift:58-65 | different events run different scripts |
| Providers.SampleAndSearch | isZoomUsingCamera/Model.swift:245-251 | a sampler samples the first matching process into its file, then greps that same file for its sentinel |
| Providers.ZoomProcess | isZoomUsingCamera/Model.swift:216-227 | exactly one callback and no command; `appNotRunning` iff no client process is running, `appRunning` otherwise |
| Providers.ScreenSharingUsageSample | isZoomUsingCamera/Model.swift:229-260 | capture host absent: `notScreenSharing` with nothing sampled; otherwise sample then grep; exit 0 gives `screenSharing`, 1 gives `notScreenSharing`, any other exit code gives no callback at all |
| Providers.CameraUsageSample | isZoomUsingCamera/Model.swift:262-296 | exactly one callback, never `noResult`; client absent: `zoomNotRunning` with nothing sampled; otherwise sample then grep; exit 0 gives `usingCamera`, 1 gives `notUsingCamera`, any other gives `errorSampling` |
| Shortcuts.SplitLinesAreLines | isZoomUsingCamera/Model.swift:306 | every shortcut name produced is nonempty and contains no newline |
| Shortcuts.SplitLinesOfOneLine | isZoomUsingCamera/Model.swift:306 | a nonempty, newline-free output is a single name |
| Shortcuts.SplitLinesAtNewline | isZoomUsingCamera/Model.swift:306 | splitting `a + "\n" + b` gives the names of `a` followed by those of `b` |
| Shortcuts.SplitJoin | isZoomUsingCamera/Model.swift:306 | names joined by newlines split back into exactly those names |
| Shortcuts.ListShortcuts | isZoomUsingCamera/Model.swift:300-313 | success iff the exit status is 0, with the newline-split output; otherwise the `canNotRetrieve("Could not retrieve shortcuts list")` error |
| Reactions.Perform | isZoomUsingCamera/Model.swift:170-200 | `enableDND`/`disableDND` issue `shortcuts run dndon`/`dndoff` iff the DND preference is on and the OS is newer than macOS 11.4; `runCustomScript` issues `bash <script path>` iff the scripts preference is on |
| Reactions.PerformAll | isZoomUsingCamera/Model.swift:170-200 | with DND off (or an old OS) only scripts run; with scripts off only shortcuts run; with everything on, every call issues exactly one command |
| Reactions.CameraReactions | isZoomUsingCamera/Model.swift:89-101 | no call when the old value is `noResult` or `zoomNotRunning` or equals the new one; otherwise `enableDND` iff entering `usingCamera`, `disableDND` iff entering `notUsingCamera` or `zoomNotRunning`, nothing for `errorSampling`/`noResult`; the DND call comes first |
| Reactions.CameraTable | isZoomUsingCamera/Model.swift:94-99 | the exact call sequences: `[enableDND, cameraEnabled script]`, `[disableDND, cameraDisabled script]`, `[disableDND]`, `[]` |
| Reactions.ScreenSharingReactions | isZoomUsingCamera/Model.swift:102-112 | no call unless the old value is not `noResult` and differs; then the `screenSharingStarted` script iff entering `screenSharing`, `screenSharingEnded` iff entering `notScreenSharing`; never a DND call |
| Reactions.ProcessReactions | isZoomUsingCamera/Model.swift:114-124 | no call unless the old value is not `noResult` and differs; then the `appStarted` script iff entering `appRunning`, `appEnded` iff entering `appNotRunning` |
| Reactions.Replay | isZoomUsingCamera/Model.swift:147-165 | assigning a sequence of values to a channel leaves the last one stored (the initial one when there are none) |
| ZoomModel.ReplayLogStep | isZoomUsingCamera/Model.swift:89-124 | one more assignment to a channel extends the commands of the replayed sequence by exactly the commands the setter logs for that assignment, so a run of setter calls logs the commands of `Replay` |
| Reactions.ReplayAppend | isZoomUsingCamera/Model.swift:147-165 | replaying two stretches of observations one after the other is replaying them together |
| Reactions.ReplayIgnoresRepeats | isZoomUsingCamera/Model.swift:93 | for an observer that ignores equal values, an observation repeated at once changes neither the calls nor the stored value |
| Reactions.ReplaySteady | isZoomUsingCamera/Model.swift:93 | observing the stored value over and over makes no call |
| Reactions.ReplayBaseline | isZoomUsingCamera/Model.swift:91 | when the initial value suppresses every call, the first observation only sets the baseline |
| Reactions.ObserversIgnoreRepeatsAndBaseline | isZoomUsingCamera/Model.swift:89-124 | all three observers ignore equal values and make no call when leaving `noResult` |
| Reactions.CameraReplay | isZoomUsingCamera/Model.swift:89-101 | camera samples from startup: repeats make no call and the first sample makes none |
| Reactions.ScreenSharingReplay | isZoomUsingCamera/Model.swift:102-112 | screen-sharing samples from startup: repeats make no call and the first sample makes none |
| Reactions.ProcessReplay | isZoomUsingCamera/Model.swift:114-124 | process observations from startup: the first never runs `app_started.sh`, even if the client is already running; repeats make no call |
| Reactions.CameraComesOn | isZoomUsingCamera/Model.swift:95 | with every preference on, `notUsingCamera` to `usingCamera` runs `shortcuts run dndon` and then `camera_enabled.sh`, exactly once each |
| Reactions.ClientQuits | isZoomUsingCamera/Model.swift:97 | when the client quits after a real camera sample, DND is turned off and no script runs |
| ZoomModel.Model.constructor | isZoomUsingCamera/Model.swift:69-131 | all three channels start at `noResult`, with no timer, an empty shortcut list and the initial texts; shortcuts can be shown iff the OS is newer than 11.4 |
| ZoomModel.Model.EnableDND | isZoomUsingCamera/Model.swift:170-178 | logs exactly the commands `Reactions.Perform` gives for `enableDND` and changes nothing else |
| ZoomModel.Model.DisableDND | isZoomUsingCamera/Model.swift:180-188 | logs exactly the commands `Reactions.Perform` gives for `disableDND` and changes nothing else |
| ZoomModel.Model.RunCustomScript | isZoomUsingCamera/Model.swift:192-200 | logs exactly the commands `Reactions.Perform` gives for the event's script and changes nothing else |
| ZoomModel.Model.SetCameraSampleResult | isZoomUsingCamera/Model.swift:89-101 | the new value is always stored; the log grows by the commands of `CameraReactions(old, new)`; nothing else changes |
| ZoomModel.Model.CameraObserver | isZoomUsingCamera/Model.swift:90-100 | the observer body logs the commands of `CameraReactions(old, stored)` and changes no field |
| ZoomModel.Model.SetScreenShareSampleResult | isZoomUsingCamera/Model.swift:102-112 | the new value is always stored; the log grows by the commands of `ScreenSharingReactions(old, new)` |
| ZoomModel.Model.ScreenSharingObserver | isZoomUsingCamera/Model.swift:103-111 | the observer body logs the commands of `ScreenSharingReactions(old, stored)` and changes no field |
| ZoomModel.Model.SetZoomProcess | isZoomUsingCamera/Model.swift:114-124 | the new value is always stored; the log grows by the commands of `ProcessReactions(old, new)` |
| ZoomModel.Model.ProcessObserver | isZoomUsingCamera/Model.swift:115-123 | the observer body logs the commands of `ProcessReactions(old, stored)` and changes no field |
| ZoomModel.Model.ReceiveCameraSample | isZoomUsingCamera/Model.swift:149-152 | stores the camera result through its observer and sets the status text to its display text |
| ZoomModel.Model.ReceiveScreenSharingSample | isZoomUsingCamera/Model.swift:155-158 | stores the screen-sharing result through its observer and sets its display text |
| ZoomModel.Model.CameraStep | isZoomUsingCamera/Model.swift:148-153 | logs the camera provider's commands, then stores its one classification and its text |
| ZoomModel.Model.ScreenSharingStep | isZoomUsingCamera/Model.swift:154-159 | logs the screen provider's commands; without a callback the channel and its text keep their values |
| ZoomModel.Model.ProcessStep | isZoomUsingCamera/Model.swift:160-164 | stores the process provider's classification through its observer |
| ZoomModel.Model.Tick | isZoomUsingCamera/Model.swift:147-165 | one timer firing, the camera and process providers each given their own running-application query: each channel holds its provider's classification, or keeps its value when there is no callback; the log grows by each provider's commands and each observer's commands; timer and preferences are unchanged |
| ZoomModel.Model.FetchShortcutsList | isZoomUsingCamera/Model.swift:133-140 | on exit status 0 the list is the newline-split output, otherwise exactly `["Could not retrieve list of shortcuts"]` |
| ZoomModel.Model.Start | isZoomUsingCamera/Model.swift:142-166 | fetches the shortcuts; schedules a one-second timer only when none is held, so afterwards exactly one timer is live (a second call schedules nothing); no channel is reset |
| ZoomModel.Model.Stop | isZoomUsingCamera/Model.swift:204-207 | invalidates the held timer if there is one and forgets it; afterwards no timer is live, and a second call logs nothing |
| SampleProvider.Sample | isZoomUsingCamera/SampleProvider.swift:54-89 | exactly one callback on every path, never `noResult`; client absent: `zoomNotRunning` with nothing sampled; exit 0 gives `usingCamera`, 1 gives `notUsingCamera`, any other gives `errorSampling` |
| SampleProvider.SampleAgreesWithCameraProvider | isZoomUsingCamera/SampleProvider.swift:60-87 | the earlier provider issues the same commands and gives the same classification as the later camera provider |
| SampleProvider.ResultText | isZoomUsingCamera/SampleProvider.swift:24-30 | every result has a non-blank text, equal to the later `CameraSampleResult.displayText()` of the same case |
| SampleProvider.ResultTextInjective | isZoomUsingCamera/SampleProvider.swift:24-30 | the five results get five different texts |
| SampleProvider.ZoomStatus.constructor | isZoomUsingCamera/SampleProvider.swift:13-16 | starts with the text "No results" and no timer |
| SampleProvider.ZoomStatus.Start | isZoomUsingCamera/SampleProvider.swift:18-34 | schedules a timer only when none is held; afterwards exactly one timer is live |
| SampleProvider.ZoomStatus.Stop | isZoomUsingCamera/SampleProvider.swift:36-39 | invalidates and forgets the held timer; afterwards none is live; repeating it logs nothing |
| SampleProvider.ZoomStatus.Tick | isZoomUsingCamera/SampleProvider.swift:20-33 | one firing: logs the provider's commands and shows the text of its one result |

Two behaviours of Model.swift worth knowing:

- The camera observer also makes no call when the previous value is `zoomNotRunning` (Model.swift:92). So when the client starts, its first camera sample never toggles DND or runs a script.
- When the capture host is not running, screen sharing is classified as `notScreenSharing` (Model.swift:238-241).
- `stop()` followed by `start()` keeps every stored classification. Only a new `Model` starts from `noResult`.

## Left out

- Running-application queries, `/usr/bin/sample`, `/usr/bin/grep`, `shortcuts run`, `shortcuts list` and `bash <script>`: these are parameters (process ids, exit codes, output text) or entries in the ghost log. The sampled file's content is not modelled, since only grep's exit code is read.
- The `print` calls that log command results: not modelled, since they change no state.
- Concurrency (`Timer.scheduledTimer`, the dispatch queues, `Task`, `withCheckedThrowingContinuation`) is left out. A timer firing is the sequential method `Tick`, and each provider's callback is applied right after its commands. Overlapping samples, callbacks arriving after `stop()` and concurrent script runs are not modelled.
- ZoomModel.Model.Tick: applies the three callbacks in one fixed order (camera, screen sharing, process). In the app they arrive in any order, which only reorders the log entries of the three independent channels.
- ZoomModel.Model.Tick: requires a held timer, because the timer's block only runs while the timer is scheduled. The `[weak self]` case of a deallocated model is not modelled.
- ZoomModel.Model.RunCustomScript: logs the script's command when it is called. The script actually runs later on a background queue and its exit status is only printed.
- ZoomModel.Model.FetchShortcutsList: stores the list immediately. The app stores a successful list later on the main queue and the placeholder synchronously.
- ZoomModel.Model.Start: fetches the shortcuts before it schedules the timer. In the app the fetch is a task that completes later.
- `@AppStorage` persistence: the preferences are plain fields given to the constructor. The stored DND shortcut selections (`dndOnShortcutSelection`, `dndOffShortcutSelection`) are not modelled, because Model.swift never reads them.
- `NSAppKitVersion`: becomes the constant `newerThanMacOS11_4`. The macOS 11.4-and-older branches of `enableDND`/`disableDND` are empty TODOs in the source, so they issue nothing in the model.
- The empty `textResult` observer (Model.swift:78-84): not modelled, since it does nothing.
- `deinit` calling `stop()`: object lifetime is not modelled.
- Shortcuts.SplitLines: splits the text at each `'\n'` character. Swift splits a `String` into grapheme clusters, so a `"\r\n"` pair is one `Character` and is not split there. The model does not treat that case the way Swift does.
- The sample duration of 0.1 seconds is written as 100 milliseconds.
- The UI files are left out: `AppDelegate.swift`, `ContentView.swift` and `Views/BannerModifier.swift`.
