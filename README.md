# Beeftext update scheduler and data paths, in Dafny

This project models two pieces of the Beeftext text-expansion application:

- **The update manager** (`update.dfy`, module `Update`). It owns a single-shot
  timer and the persisted time of the last update check. When auto-check is
  enabled, the timer is armed for one second if no check was ever recorded.
  Otherwise it is armed for the time left until 24 hours after the last check,
  and never for less than one second. A check stops the timer, announces that it
  started and hands the network query to a worker. The worker reports one of
  three outcomes, and each outcome becomes its own notification. When the worker
  finishes, the manager announces the end of the check, records "now" as the
  last check and re-arms the timer for 24 hours, whatever the outcome was. Two
  internal-consistency failures throw. These are a finish from a sender that is
  not a worker, and an "update available" with a null version record.
- **Where the application keeps its files** (`globals.dfy`, module `Globals`).
  In portable mode the data directory is `Data` next to the executable, or
  `../../Data/settings` under the PortableApps layout. Outside portable mode it
  is the standard per-user writable location.
  The log, the backups, the user translations and two JSON side files sit
  directly in the data directory under fixed names. A custom backup location is
  used when it is enabled and not empty. The clipboard manager is created lazily,
  once.

`wrappers.dfy` holds the `Option`, `Result` and `Outcome` types.

How the source is represented:

- Time is integer milliseconds; the current time is a parameter `now`.
- The timer is `Stopped` or `Running(intervalMs)`.
- The emitted signals form an append-only event log.
- Each worker, with its thread, is an opaque `WorkerId` token. The manager keeps
  the set of workers that have started and not yet finished.
- The sender of a finish notification is `FromWorker(id)` or `FromOther`. The
  source's `dynamic_cast` test of the sender is modelled as "the sender is a live
  worker". A throw becomes an `Err`/`Fail` result, and the state is left as it
  was before the call.
- Every slot has a pure transition function on a `State` record
  (`Rescheduled`, `UpdateCheckRequested`, `CheckFinished`, …), and the
  properties are proved about those functions. The class `UpdateManager` keeps
  the same state in fields. Each of its methods is proved to perform its
  transition (`Snapshot() == Rescheduled(old(Snapshot()), enabled, now)`).
- `Step` and `Run` replay a sequence of inputs (preference changes, check
  requests, outcomes, finishes), which lets the lemmas talk about whole
  scenarios.
- A path is a sequence of segments. `QDir(dir).absoluteFilePath(name)` appends the
  segments of `name`, split at `/`. Nothing is cleaned, so `..` stays a segment.
  The values Qt and the preferences supply are the fields of an `Environment`.

Two consequences of the code that the model makes explicit:

- A finish re-arms the timer even if auto-check was turned off while the check ran
  (`UpdateManager.cpp:108`); `CheckFinished` does the same.
- Nothing stops two checks from running at once (`UpdateManager.cpp:52-56`);
  `TwoManualChecks` starts two workers.

## Model

| member | source | states |
|---|---|---|
| `Update.NextCheckDelay` | Beeftext/Update/UpdateManager.cpp:69-70 | Uses the constants of `UpdateManager.cpp:21-22`. The delay is never below 1000 ms. It is exactly 1000 ms when no check was recorded. With a recorded check, the timer fires no earlier than 24 h after it. The delay is either 1000 ms or reaches exactly that point. |
| `Update.LaunchDelayExactlyWhenDue` | Beeftext/Update/UpdateManager.cpp:69-70 | The 1000 ms delay is chosen if and only if no check was recorded or `now >= lastCheck + 86 400 000 - 1000` (the check is overdue). |
| `Update.DelayAtMostOneInterval` | Beeftext/Update/UpdateManager.cpp:69-70 | If the last check is not in the future, the wait is at most 24 h. |
| `Update.Rescheduled` | Beeftext/Update/UpdateManager.cpp:62-72 | Only the timer changes. It is running exactly when auto-check is enabled, and then its interval is `NextCheckDelay(lastCheck, now)`. |
| `Update.DisablingOnlyStopsTimer` | Beeftext/Update/UpdateManager.cpp:64-66 | Disabling auto-check gives the old state with the timer stopped: no timestamp write and no signal. |
| `Update.RescheduledForgetsTimer` | Beeftext/Update/UpdateManager.cpp:64 | The timer is stopped first, so the previous timer has no influence on the result. |
| `Update.RescheduledIdempotent` | Beeftext/Update/UpdateManager.cpp:62-72 | Applying the slot twice with the same argument, last check and time gives the same state as applying it once. |
| `Update.WorkerStarted` | Beeftext/Update/UpdateManager.cpp:78-90 | Announces `startedUpdateCheck` once and adds one fresh worker token. The timer and the last check are untouched. Well-formedness is preserved. |
| `Update.UpdateCheckRequested` | Beeftext/Update/UpdateManager.cpp:52-56 | The timer is stopped, exactly one `startedUpdateCheck` is appended, and one worker is added. |
| `Update.RequestAddsOneWorker` | Beeftext/Update/UpdateManager.cpp:52-56 | There is no guard against a check in flight: each request adds one more worker. |
| `Update.CheckFinished` | Beeftext/Update/UpdateManager.cpp:96-109 | A finish succeeds if and only if the sender is a live worker; otherwise it is `InternalError`. On success it retires that worker and appends `finishedUpdateCheck`. It also sets the last check to `now` and runs the timer for exactly 86 400 000 ms. |
| `Update.FinishIgnoresSchedule` | Beeftext/Update/UpdateManager.cpp:106-108 | The result of a finish does not depend on the earlier timer or last check: it re-arms even when auto-check was disabled. |
| `Update.UpdateAvailableNotified` | Beeftext/Update/UpdateManager.cpp:115-123 | A null version record gives `NullVersionInfo`. Otherwise exactly `updateIsAvailable(info)` is appended and nothing else changes. |
| `Update.NoUpdateNotified` | Beeftext/Update/UpdateManager.cpp:129-132 | Only the `noUpdateIsAvailable` signal is appended. Timer, last check and workers are unchanged. |
| `Update.ErrorNotified` | Beeftext/Update/UpdateManager.cpp:138-141 | Only the `updateCheckFailed` signal is appended. Timer, last check and workers are unchanged. |
| `Update.ErrorMessageIgnored` | Beeftext/Update/UpdateManager.cpp:138-141 | The error message has no effect on the state. |
| `Update.OutcomeDelivered` | Beeftext/Update/UpdateManager.cpp:86-88 | Delivering an outcome fails if and only if it is "update available" with a null record. |
| `Update.OutcomesMapToDistinctSignals` | Beeftext/Update/UpdateManager.cpp:115-141 | Each accepted outcome appends exactly one outcome signal and changes nothing else. Outcomes of different kinds give different signals. |
| `Update.Step` | Beeftext/Update/UpdateManager.cpp:43-44 | Every input keeps the state well formed and only appends to the signal log. |
| `Update.RunPreservesWellFormed` | Beeftext/Update/UpdateManager.cpp:78-109 | Any successful run of inputs keeps every live worker token below the next fresh one, and only appends signals. |
| `Update.TimerArmedIffLastToggleEnabled` | Beeftext/Update/UpdateManager.cpp:62-72 | After any non-empty sequence of preference changes, the timer is armed if and only if the last change enabled auto-check, and nothing but the timer changed. |
| `Update.CheckCycle` | Beeftext/Update/UpdateManager.cpp:52-109 | For every accepted outcome, a request, the outcome and the worker's finish produce started, outcome and finished, in that order. They record `now` as the last check, re-arm for 24 h and leave no worker behind. |
| `Update.NullVersionAborts` | Beeftext/Update/UpdateManager.cpp:117-118 | A check whose worker reports "update available" with a null record aborts with `NullVersionInfo`. |
| `Update.FirstLaunchScenario` | Beeftext/Update/UpdateManager.cpp:39-109 | Start disabled with no recorded check, then enable: the timer runs for 1000 ms. A check that then finds no update emits started, no-update and finished, records the finish time and re-arms for 24 h. |
| `Update.OverdueAtLaunchScenario` | Beeftext/Update/UpdateManager.cpp:39-46 | If the last check was 25 h ago, the constructed manager arms the timer for 1000 ms. |
| `Update.UpdateManager.constructor` | Beeftext/Update/UpdateManager.cpp:39-46 | The new manager is in the state reached by applying the auto-check slot, with the current preference, to a stopped timer with no signals and no workers. |
| `Update.UpdateManager.CheckForUpdate` | Beeftext/Update/UpdateManager.cpp:52-56 | Performs `UpdateCheckRequested` on the fields and keeps them well formed. The returned token was not live before and is live afterwards. |
| `Update.UpdateManager.OnAutoCheckForUpdateChanged` | Beeftext/Update/UpdateManager.cpp:62-72 | Performs `Rescheduled` on the fields. |
| `Update.UpdateManager.StartUpdateCheckWorker` | Beeftext/Update/UpdateManager.cpp:78-90 | Performs `WorkerStarted` on the fields and keeps them well formed. The returned token was not live before and is live afterwards. |
| `Update.UpdateManager.OnWorkerFinished` | Beeftext/Update/UpdateManager.cpp:96-109 | Performs `CheckFinished`. On an internal error it reports the failure and leaves every field as it was. |
| `Update.UpdateManager.OnWorkerUpdateIsAvailable` | Beeftext/Update/UpdateManager.cpp:115-123 | Performs `UpdateAvailableNotified`. A null record fails and leaves every field as it was. |
| `Update.UpdateManager.OnWorkerNoUpdateIsAvailable` | Beeftext/Update/UpdateManager.cpp:129-132 | Performs `NoUpdateNotified` on the fields. |
| `Update.UpdateManager.OnWorkerError` | Beeftext/Update/UpdateManager.cpp:138-141 | Performs `ErrorNotified` on the fields. |
| `Update.TwoManualChecks` | Beeftext/Update/UpdateManager.cpp:52-56 | Two checks in a row start two different workers, neither live before, and emit two `startedUpdateCheck` signals. |
| `Globals.Segments` | Beeftext/BeeftextGlobals.cpp:116-117 | Splitting a relative name gives at least one segment, and no segment contains a separator. |
| `Globals.JoinSegments` | Beeftext/BeeftextGlobals.cpp:95-96 | Splitting loses nothing: joining the segments with `/` gives the original name back. |
| `Globals.SegmentsJoin` | Beeftext/BeeftextGlobals.cpp:116-117 | Segments that contain no separator split back into themselves after joining. |
| `Globals.AbsoluteFilePath` | Beeftext/BeeftextGlobals.cpp:64 | The result extends the directory, and the name can be read back from the added segments. A name without a separator adds exactly one segment. |
| `Globals.PortableAppsDataFolderSegments` | Beeftext/BeeftextGlobals.cpp:116 | `../../Data/settings` is the four segments `..`, `..`, `Data`, `settings`. |
| `Globals.PortableModeDataFolderPath` | Beeftext/BeeftextGlobals.cpp:113-118 | With the PortableApps layout the folder is `appDir/../../Data/settings`; otherwise it is `appDir/Data`. |
| `Globals.PortableModeSettingsFilePath` | Beeftext/BeeftextGlobals.cpp:123-126 | The portable settings file is `Settings.ini` in the portable data folder. |
| `Globals.AppDataDir` | Beeftext/BeeftextGlobals.cpp:52-56 | In portable mode this is the portable data folder; otherwise it is the standard writable app-local location. |
| `Globals.TranslationRootFolderPath` | Beeftext/BeeftextGlobals.cpp:62-65 | Built-in translations are `appDir/Translations`, under the executable's folder and not the data directory. |
| `Globals.UserTranslationRootFolderPath` | Beeftext/BeeftextGlobals.cpp:71-74 | User translations are `Translations` in the data directory. |
| `Globals.LogFilePath` | Beeftext/BeeftextGlobals.cpp:80-83 | The log file is `log.txt` in the data directory. |
| `Globals.DefaultBackupFolderPath` | Beeftext/BeeftextGlobals.cpp:103-106 | The default backup folder is `Backup` in the data directory. |
| `Globals.BackupFolderPath` | Beeftext/BeeftextGlobals.cpp:89-97 | The result is the default folder when the custom location is off, or on but empty. When the custom location is on and non-empty, the result spells exactly that location. |
| `Globals.SensitiveApplicationsFilePath` | Beeftext/BeeftextGlobals.cpp:132-135 | The sensitive-applications list is `sensitiveApps.json` in the data directory. |
| `Globals.EmojiExcludedAppsFilePath` | Beeftext/BeeftextGlobals.cpp:141-144 | The emoji-exclusion list is `emojiExcludedApps.json` in the data directory. |
| `Globals.DataDirEntriesDistinct` | Beeftext/BeeftextGlobals.cpp:71-144 | The log file, default backup folder, user translations, sensitive-apps file and emoji-excluded-apps file are five pairwise distinct paths. |
| `Globals.TranslationFoldersCoincideIff` | Beeftext/BeeftextGlobals.cpp:62-74 | The built-in and user translation folders coincide if and only if the data directory is the executable's folder. |
| `Globals.PortableTranslationFoldersDiffer` | Beeftext/BeeftextGlobals.cpp:52-74 | In portable mode the built-in and user translation folders are always different segment sequences (`..` is not resolved). |
| `Globals.ClipboardHolder.constructor` | Beeftext/BeeftextGlobals.cpp:20 | The pointer starts out null. |
| `Globals.ClipboardHolder.ClipboardManager` | Beeftext/BeeftextGlobals.cpp:32-37 | If a manager exists, it is returned and kept. Otherwise a fresh one is created, stored and returned. The stored pointer is non-null afterwards. |
| `Globals.RepeatedCallsShareInstance` | Beeftext/BeeftextGlobals.cpp:32-37 | Every call after the first returns the instance the first call created. |

## Left out

- Thread mechanics: creating the `QThread`, `moveToThread`, `quit`, `wait`, `deleteLater` and deleting the worker (`UpdateManager.cpp:81-89`, `101-105`). This is concurrency and memory management. A worker is only a token that is added at start and removed at finish.
- The Qt signal/slot connections and cross-thread delivery (`UpdateManager.cpp:43-44`, `84-88`). Each slot is a method called directly. A timer timeout is modelled as a call to `CheckForUpdate`.
- Timer expiry and remaining time: `Timer` records only the interval it was started with.
- The singleton accessor `UpdateManager::instance()` (`UpdateManager.cpp:29-33`). The model constructs the manager explicitly.
- `UpdateDialog(...).exec()` and the debug-log message (`UpdateManager.cpp:119-122`). These are UI and text formatting. The version record holds only its major and minor numbers.
- The worker's own network logic, and the preference accessors of `PreferencesManager`. The auto-check preference is a constructor argument and the argument of the slot. The last-check time is a field of the manager.
- `NextCheckDelay`: computed on unbounded integers. The source computes it in `qint64` and passes it to the timer's integer interval. That narrowing matters only if the recorded last check lies more than about 23 days in the future, and it is not modelled.
- `QDateTime` calendar, time-zone and validity rules: a last-check time is absent (null) or an integer.
- `Globals.AbsoluteFilePath`: models relative names only. Every name the core passes is relative. A custom backup location is returned as given, split at `/`. No `..` or `.` cleaning is done, so `PortableAppsDataFolderSegments` keeps `..` as a segment.
- Globals.PortableTranslationFoldersDiffer: holds only for unresolved segment sequences. With `..` resolved, the PortableApps layout and an executable in `X/Data/settings`, the built-in and the user translation folders are the same folder.
- How the real system computes `applicationDirPath`, the standard writable location and the portable-mode flags. These are inputs in `Environment`, because the helpers that compute them are not part of this model.
- `debugLog()` (`BeeftextGlobals.cpp:42-46`): a function-local static with no logic.
- `ClipboardManagerDefault`'s behaviour: the class stands only for the instance that is created.
