# Interval workout timer: a Dafny model

This project models the timing and cue logic of CouchTo25kWebsite. That is a
web app for run/walk interval training. The user enters a run time, a walk
time and a total time in minutes. The app normalises the total to a whole
number of laps, where a lap is one run plus one walk. It then counts seconds
and plays a cue at each phase change: "run" at the start of every lap,
"walk" when the run part ends, and "complete" when the total is reached.
Pause and Stop save the counter as a checkpoint. Stopping posts a history
record. The history page lists the records sorted by date.

The model is split into these modules:

- `Clock` formats `m : s` and `m:s`, and parses the result back.
- `Steps` covers the minute and second conversions of the start step and the confirm step's clock.
- `Session` holds the overview's status machine as a class. It also has the pure transition table, total normalisation and the record built on Stop.
- `InProgress` holds the foreground counter as a class, with the pure cue rule, the lap count and the cue effect's runs.
- `ServiceWorker` holds the background wall-clock scheduler, the buffer table, the message handlers and a pure `Check` function for one check.
- `AudioWorker` holds the dedicated worker's context state, its buffer table and its message handlers.
- `AudioManager` holds the page-side manager's state and its ordered chain of playback strategies, checked against a reference `TryInOrder`. It also has the vibration pattern, chosen by substring.
- `History` holds an in-place insertion sort on an array by date key, the load step and the rows.
- `Arith` holds lemmas about division and remainder.
- `Options` holds the optional value used for nullable fields.

Every browser capability and every outcome of a platform call is a boolean
input. Examples are whether an AudioContext exists, whether a decode
succeeds, whether `play()` resolves, and what the service worker replies. The
clock (`Date.now()`) is an integer parameter. Each firing of a timer is an
explicit method call.

Four facts about the code shape the model:

- The background scheduler does not replay seconds it missed. Each check looks only at the current second, so a cue second between two checks is lost (`ServiceWorker.SkippedSecondsAreLost`).
- The page-side manager vibrates only on the path without a service worker. With the worker relay it vibrates twice: once after the chain and once more when the worker's VIBRATE message arrives (`AudioManager.WorkerRelayVibratesTwice`).
- Nothing validates the configuration. Start accepts any values (`Session.Overview.Start`), and the cue arithmetic only needs a positive lap length.
- The foreground step leaves for Stopped only once the complete cue's playback has started. That is the `completePlayed` input of `InProgress.Timer.OnSecondsChanged`.

## Model

| member | source | states |
|---|---|---|
| Clock.DecimalRoundTrip | Components/InProgressStep.tsx:21-23 | Reading back the decimal digits the formatter prints for a number gives that number. |
| Clock.FormatClockRoundTrip | Components/InProgressStep.tsx:21-23 | The `m : s` and `m:s` texts determine the seconds: parsing `floor(s/60)`, the separator and `s mod 60` gives back s, with the second part below 60. |
| Clock.CompactExample | Components/ConfirmStartStep.tsx:16-18 | 65 seconds is shown as "1:5" on the confirm step and as "1 : 5" elsewhere, with no padding. |
| Clock.DecimalString | Components/InProgressStep.tsx:22 | The decimal text of a number is non-empty and all digits, and it starts with '0' exactly when the number is 0, which is then written "0". |
| Steps.MinutesToSeconds | Components/StartStep.tsx:18-20 | The seconds are a whole multiple of 60 and divide back to the minutes typed. |
| Steps.SecondsToMinutes | Components/StartStep.tsx:21-23 | The minutes shown times 60 equal the stored seconds, with real division. |
| Steps.MinutesRoundTrip | Components/StartStep.tsx:18-27 | Typing m minutes stores seconds that display back as exactly m. |
| Steps.LapMinutes | Components/StartStep.tsx:41 | The lap length shown is the run minutes plus the walk minutes. |
| Steps.LapMinutesOfTypedValues | Components/StartStep.tsx:34-41 | After typing r and w minutes, the lap shown is r + w minutes. |
| Steps.ConfirmClockRoundTrip | Components/ConfirmStartStep.tsx:16-18 | The confirm step's `m:s` text parses back to the seconds it shows. |
| Session.Next | Components/Overview.tsx:102-103 | The transition table, one iff per target status: Start goes NotStarted→ConfirmStart; Yes/No go ConfirmStart→InProgress/NotStarted; Pause goes InProgress→Paused; Stop or the complete cue go to Stopped; Resume goes Paused→InProgress; Stopped has no way out. |
| Session.AtMostOneStop | Components/Overview.tsx:23-41 | Along any sequence of events the session enters Stopped at most once, so at most one record is posted, and none once it is already Stopped. |
| Session.NormalizedTotal | Components/Overview.tsx:59-63 | The normalised total is at most the old total, a multiple of the lap, and within one lap of the old total. |
| Session.NormalizeIdempotent | Components/Overview.tsx:59-63 | Normalising an already normalised total leaves it unchanged. |
| Session.StoppedRecord | Components/Overview.tsx:24-34 | The posted record has date = now, duration = the checkpoint, laps = floor(checkpoint / lap), and the run and walk times. |
| Session.StoppedRecordShowsCheckpoint | Components/Overview.tsx:24-34 | The history row for the posted record shows a duration, run time and walk time that read back as the checkpoint and the two phase lengths, and carries the posting date. |
| Session.Overview.constructor | Components/Overview.tsx:12-16 | A new session is NotStarted with run, walk, total and checkpoint all 0. |
| Session.Overview.OnTimeUpdate | Components/StartStep.tsx:25-27 | An input change stores minutes·60 in the matching field only; everything else is unchanged. |
| Session.Overview.Start | Components/StartStep.tsx:46 | Start moves to ConfirmStart with no validation, and the total becomes the normalised total of Overview.tsx:59-63. |
| Session.Overview.ConfirmLaps | Components/Overview.tsx:59 | The laps the confirm step shows are the whole laps in the total. |
| Session.Overview.Confirm | Components/ConfirmStartStep.tsx:28 | Yes moves to InProgress and changes nothing else. |
| Session.Overview.Decline | Components/ConfirmStartStep.tsx:29 | No moves back to NotStarted and changes nothing else. |
| Session.Overview.InProgressLap | Components/Overview.tsx:88 | Once the session has left the form, the lap the step receives is positive and divides the total. |
| Session.Overview.InProgressTotalLaps | Components/Overview.tsx:89 | The step receives totalLaps = floor(total / lap). |
| Session.Overview.LeaveInProgress | Components/InProgressStep.tsx:25-29 | Pause, Stop or the complete cue store the checkpoint and switch to the status the table gives. Entering Stopped posts exactly the record for that checkpoint. |
| Session.Overview.Resume | Components/Overview.tsx:102 | Resume goes from Paused to InProgress. |
| Session.Overview.StopWhilePaused | Components/Overview.tsx:103 | Stop goes from Paused to Stopped and posts the record for the saved checkpoint. |
| Session.Overview.PostRecord | Components/Overview.tsx:23-41 | The Stopped effect posts one record built from the checkpoint and the lap times. |
| Session.Overview.StoppedSummary | Components/Overview.tsx:117 | The Stopped page shows floor(checkpoint / lap) of floor(total / lap) laps. |
| InProgress.CueMarksPhaseChange | Components/InProgressStep.tsx:45-60 | With both phases non-empty, inside the workout, Run fires exactly when walking turns into running, Walk exactly when running turns into walking, and nothing fires otherwise. |
| InProgress.RunAtEveryLapStart | Components/InProgressStep.tsx:54-55 | Every lap start before the total gives Run, second 0 included, so a resume on a lap boundary replays Run. |
| InProgress.RunBeatsWalk | Components/InProgressStep.tsx:54-59 | When both remainder tests hold, Run wins. |
| InProgress.ForegroundScenario | Components/InProgressStep.tsx:45-60 | With run 60, walk 30 and total 540: Run at 0, nothing at 59, Walk at 60, Run at 90, Complete at 540. |
| InProgress.PredecessorRemainder | Components/InProgressStep.tsx:54-57 | The lap position of s − 1 from that of s, which wraps at a lap start. |
| InProgress.ForegroundCue | Components/InProgressStep.tsx:45-60 | Complete exactly from the total on. Before it, Run exactly at a lap start (s = laps done · lap), and Walk exactly at laps done · lap + run when 0 < run < lap. |
| InProgress.LapsDone | Components/InProgressStep.tsx:66 | The laps shown are the whole laps completed: laps·lap ≤ s < (laps+1)·lap. |
| InProgress.LapsDoneMonotone | Components/InProgressStep.tsx:66 | The laps shown never decrease as the counter grows. |
| InProgress.EffectSecondsAsWritten | Components/InProgressStep.tsx:31-61 | The cue effect runs twice at the starting counter value, on mount and when the interval handle is stored, and then once per tick. |
| InProgress.StartCuePlayedTwiceAsWritten | Components/InProgressStep.tsx:35-61 | Starting the step at a lap boundary before the total selects Run twice for that second. |
| InProgress.FreshStartCuesAsWritten | Components/InProgressStep.tsx:35-61 | On a fresh 60/30/540 start, the first effect runs give Run, Run, then nothing. |
| InProgress.EachSecondCuedOnce | Components/InProgressStep.tsx:32-61 | With the corrected dependencies, no second is seen twice and every second of the visit is seen. |
| InProgress.Timer.constructor | Components/InProgressStep.tsx:18-35 | The counter starts at the checkpoint and the interval is set. |
| InProgress.Timer.Tick | Components/InProgressStep.tsx:32-34 | Each tick adds exactly 1 while the interval is set, and nothing once it is cleared. |
| InProgress.Timer.OnSecondsChanged | Components/InProgressStep.tsx:45-60 | The cue is the rule's cue for the counter. At or past the total, once the complete cue has played, the interval is cleared and the step leaves for Stopped with the counter as the checkpoint. |
| InProgress.Timer.OnButtonClick | Components/InProgressStep.tsx:25-29 | Pause and Stop clear the interval and hand back the current counter with the chosen event. |
| InProgress.Timer.TimeText | Components/InProgressStep.tsx:65 | The two times shown read back as the counter and the total. |
| InProgress.Timer.LapsText | Components/InProgressStep.tsx:66 | The laps part shows the whole laps done of the totalLaps passed in. |
| InProgress.PauseAfterTicks | Components/InProgressStep.tsx:18-34 | A visit of n ticks ending in Pause leaves the session Paused with checkpoint = old checkpoint + n. Run, walk and total are unchanged and nothing is posted. |
| ServiceWorker.Elapsed | public/sw-enhanced.js:100-101 | The elapsed seconds are the floor of (now − start)/1000. |
| ServiceWorker.ElapsedMonotone | public/sw-enhanced.js:100-101 | Elapsed never decreases as the clock advances. |
| ServiceWorker.ElapsedAdvances | public/sw-enhanced.js:100-130 | Two checks at least 1000 ms apart see different seconds. |
| ServiceWorker.JsRemainder | public/sw-enhanced.js:104 | JavaScript's `%`: its magnitude is below the lap, it differs from the dividend by a multiple of the lap, it equals Dafny's `%` for a non-negative dividend, and it is never positive for a negative one. |
| ServiceWorker.NegativeRemainder | public/sw-enhanced.js:104 | For a negative dividend, the JavaScript remainder is 0 exactly when the lap divides it. |
| ServiceWorker.BackgroundCue | public/sw-enhanced.js:103-110 | Never Complete, and nothing without a positive lap. Run exactly at a positive elapsed second on a lap boundary. For a non-negative second, Walk exactly when the lap position equals the run time, except at a boundary after 0 with run 0. A negative second gives Walk exactly when the run time is 0 and the second is on a lap boundary. |
| ServiceWorker.BackgroundAgreesWithForeground | public/sw-enhanced.js:104-110 | Inside the workout, background and foreground agree on every second after 0. At 0 only the foreground plays Run. |
| ServiceWorker.Check | public/sw-enhanced.js:97-130 | Without an active workout a check plays nothing and stops. On an active one it reports completion exactly when elapsed reaches the total, with the elapsed time, and Complete last. Completion is reported exactly when it stops. A rescheduling check never plays Complete. At most two files play, each one of the three cue files. |
| ServiceWorker.CheckPlaysForegroundCue | public/sw-enhanced.js:100-128 | An active check strictly inside the workout reschedules and plays exactly the file of the foreground cue for its second. |
| ServiceWorker.CheckPlaysByRemainder | public/sw-enhanced.js:100-114 | For every active check, the files played are: Run on a lap boundary after second 0; otherwise Walk when the lap position equals the run time (at second 0 or before, only with run 0 on a boundary); nothing without a positive lap; then Complete exactly when the total is reached. |
| ServiceWorker.CheckAtSecondZero | public/sw-enhanced.js:104-110 | A check at second 0 before the total reschedules and plays no Run: only Walk, and only when the run time is 0. |
| ServiceWorker.RunThenCompleteOnBoundary | public/sw-enhanced.js:104-114 | On a check at a lap boundary at or past the total, Run plays and then Complete, because the cue test comes first. |
| ServiceWorker.Chain | public/sw-enhanced.js:97-130 | A chain of checks plays at most two files per check, and each is one of the three cue files. |
| ServiceWorker.ChainPlaysOnlyObservedSeconds | public/sw-enhanced.js:101-130 | Every cue the rescheduling chain plays belongs to a second that some check observed. |
| ServiceWorker.ChainCompleteIsLast | public/sw-enhanced.js:113-127 | Once Complete plays, the chain stops: it is the last cue. |
| ServiceWorker.SkippedSecondsAreLost | public/sw-enhanced.js:101-130 | Checks at 58 s and 95 s of a 60/30 lap play nothing, though seconds 60 (Walk) and 90 (Run) passed in between. |
| ServiceWorker.Globals.constructor | public/sw-enhanced.js:36-38 | There is no context, no buffers and no active workout. |
| ServiceWorker.Globals.InitializeAudio | public/sw-enhanced.js:41-63 | With a context, exactly the files that decoded get a buffer. Without one, nothing changes. |
| ServiceWorker.Globals.PlayAudio | public/sw-enhanced.js:66-90 | Playback fails without a context or without a buffer under that exact key. |
| ServiceWorker.Globals.CheckWorkoutProgress | public/sw-enhanced.js:97-130 | One check plays, reschedules, clears the workout and notifies clients exactly as `Check` on the old state says. |
| ServiceWorker.Globals.StartBackgroundWorkout | public/sw-enhanced.js:93-147 | START stores the workout and runs the first check at once. Its plays, rescheduling, workout and client notification are those `Check` gives for the new workout. The audio state is unchanged. |
| ServiceWorker.Globals.StopBackgroundWorkout | public/sw-enhanced.js:149-151 | STOP clears the workout, so a later check at any time plays nothing and does not reschedule. Nothing else changes. |
| ServiceWorker.Globals.PlayAudioMessage | public/sw-enhanced.js:153-155 | PLAY_AUDIO replies on the supplied port, if any, with the playback result. |
| AudioWorker.Globals.constructor | Components/audioWorker.ts:4-5 | There is no context and the buffer table is empty. |
| AudioWorker.Globals.InitializeAudio | Components/audioWorker.ts:8-39 | Without the class, or when construction throws, the worker reports false and nothing else changes. Otherwise every file is recorded as decoded or null, and it reports true whatever the files did. |
| AudioWorker.Globals.PlayAudioBuffer | Components/audioWorker.ts:42-67 | Buffer playback fails without a context or with a missing or null buffer. A suspended context must resume first, which leaves it running. |
| AudioWorker.Globals.PlayAudioMessage | Components/audioWorker.ts:94-113 | The element fallback is tried exactly when buffer playback failed, and the result is true when buffer playback succeeded or the tried element played. Exactly one VIBRATE message goes out, with the file name and the final result. |
| AudioWorker.Globals.SuspendAudio | Components/audioWorker.ts:115-119 | SUSPEND changes the state only from running, and only when the platform's suspend succeeds. |
| AudioWorker.Globals.ResumeAudio | Components/audioWorker.ts:121-125 | RESUME changes the state only from suspended, and only when the platform's resume succeeds. |
| AudioWorker.NoBufferNoPlayback | Components/audioWorker.ts:43-45 | With no context, or a missing or null buffer, buffer playback never succeeds. |
| AudioManager.ContainsIffOccurs | Components/BackgroundAudioManager.ts:313-317 | The `includes` test holds exactly when the word occurs at some position of the name. |
| AudioManager.MissingLetter | Components/BackgroundAudioManager.ts:313-317 | A name without a word's first letter does not include the word. |
| AudioManager.VibrationPattern | Components/BackgroundAudioManager.ts:309-323 | Whatever the name: one occurring 'run' gives [200]; else an occurring 'walk' gives [200,100,200]; else an occurring 'complete' gives [500,200,500,200,500]. |
| AudioManager.RunPattern | Components/BackgroundAudioManager.ts:313-314 | The run cue, with or without `./`, vibrates [200]. |
| AudioManager.WalkPattern | Components/BackgroundAudioManager.ts:315-316 | The walk cue vibrates [200,100,200]. |
| AudioManager.CompletePattern | Components/BackgroundAudioManager.ts:317-318 | The complete cue vibrates [500,200,500,200,500]. |
| AudioManager.OtherNamesGetNoPulses | Components/BackgroundAudioManager.ts:309-323 | For every name, the pattern is empty exactly when none of 'run', 'walk' and 'complete' occurs in it. |
| AudioManager.Candidates | Components/BackgroundAudioManager.ts:221-283 | The candidates are in strategy order 2 to 5. Each one is offered (worker if present, preloaded element if the name has one, fresh element always, context if present) and carries its own outcome, and every offered strategy is there. |
| AudioManager.TryInOrderSpec | Components/BackgroundAudioManager.ts:222-283 | The reference chain attempts a prefix of the candidates. Every attempt but the last failed. The last succeeded exactly when some candidate can; when none can, all were attempted. |
| AudioManager.TryFirst | Components/BackgroundAudioManager.ts:222-283 | The head candidate is attempted, and the rest only if it failed. |
| AudioManager.WorkerShadowsLaterStrategies | Components/BackgroundAudioManager.ts:222-231 | A worker that accepts the message is the only attempt, and the chain reports success. |
| AudioManager.FreshElementAlwaysTried | Components/BackgroundAudioManager.ts:256-273 | When neither the worker nor the preloaded element succeeded, a fresh element is attempted. |
| AudioManager.TryStrategies | Components/BackgroundAudioManager.ts:196-288 | The imperative chain with its success flag attempts exactly what `TryInOrder` attempts over the candidates: worker if present, preloaded element if the name has one, fresh element, context if present. It succeeds exactly when one of them does. |
| AudioManager.Step | Components/BackgroundAudioManager.ts:221-283 | One strategy of the chain, once run, keeps the chain in step with the reference. |
| AudioManager.Advance | Components/BackgroundAudioManager.ts:221-283 | A strategy that ran, or was skipped by the flag or its precondition, lets the chain go on with the rest. |
| AudioManager.Finish | Components/BackgroundAudioManager.ts:285-288 | After the last strategy, the attempts and the flag are the reference's. |
| AudioManager.Manager.constructor | Components/BackgroundAudioManager.ts:10-32 | Elements are preloaded for run.mp3, walk.mp3 and complete.mp3. There is no worker and no context, and the manager is not initialised. |
| AudioManager.Manager.Initialize | Components/BackgroundAudioManager.ts:35-57 | Once initialised, it returns true and changes nothing. Otherwise a context and a worker are kept when available, and it returns true and sets the flag once the handlers are registered. |
| AudioManager.Manager.PlayAudio | Components/BackgroundAudioManager.ts:191-289 | It initialises first when needed. With a service-worker controller it returns the reply (false on timeout), attempts nothing else and does not vibrate. Otherwise it attempts exactly the reference chain over strategies 2 to 5, returns whether one succeeded, and always vibrates. |
| AudioManager.Manager.Destroy | Components/BackgroundAudioManager.ts:341-372 | Worker and context are dropped, the elements emptied, the flag cleared, and a stop message sent to the controlling service worker if there is one. |
| AudioManager.WorkerRelayVibratesTwice | Components/BackgroundAudioManager.ts:85-91 | With a worker that accepts the message, playAudio vibrates the file's pattern, and the worker's VIBRATE reply issues the same pattern again. |
| History.SwapWithPrevious | Components/History.tsx:14 | Swaps two neighbours, leaves every other slot alone, and keeps the multiset of records. |
| History.SortByDate | Components/History.tsx:14 | After the in-place sort, records are in non-decreasing date order, with a missing date as 0. It is a permutation of the input. |
| History.LoadHistory | Components/History.tsx:11-15 | The shown list is the fetched list, sorted by date, with nothing added or dropped. |
| History.Rows | Components/History.tsx:28-31 | One row per record; row i is numbered i+1 and carries that record's date key. |
| History.RowNumbersDistinct | Components/History.tsx:30 | Row numbers strictly increase, so no two rows share a number. |
| History.ShowClock | Components/History.tsx:21-23 | A shown duration reads back as its seconds. |
| History.RowFor | Components/History.tsx:28-35 | Row index shows number index + 1 and the stored laps. Each present duration, run time and walk time is shown so that it reads back exactly. |
| History.MissingFieldsShowZero | Components/History.tsx:32-35 | Each missing duration, run time or walk time shows as "0 : 0", whatever the other fields hold. |

## Left out

- Rendering, CSS, NavBar, the pages and the training-plan page are declarative UI with nothing to state.
- The history API (`pages/api/history.ts`) does Firebase I/O. POST is modelled as the record the session posts (`posted`), and GET as the `fetched` sequence `LoadHistory` receives.
- The wake lock (`Components/useWakeLock.ts`) and Workbox precache, routing and caching in `public/sw-enhanced.js` are platform plumbing.
- Real audio, fetch, decoding, workers, message channels and `navigator.vibrate` are not modelled. Each availability and outcome is a boolean input. The one-second race between the service worker's reply and the timeout is an `Option` reply, where None means the timer won.
- Visibility, blur, focus and unload handlers, `requestIdleCallback`, the worker's keep-alive interval and the resume of the manager's context on initialisation are event and concurrency plumbing. The registration of the handlers is the `handlersRegistered` input.
- Call order between concurrent asynchronous handlers is not modelled. Each tick, check and message is a separate method call, in a sequence the caller chooses.
- Overlapping scheduler chains are not modelled. A second START while a chain is running starts a new chain beside the old one; the model has only one chain.
- Late resolutions of the complete cue are not modelled. `await audio.play()` resolves once playback starts. Every effect run at or past the total starts its own playback, and each resolution stores its own counter and sets Stopped. A resolution after the first can store a larger counter once the status is already Stopped. `OnSecondsChanged` describes one run of the effect, and the step is left at the first resolution.
- Session.Overview.Valid: ties the posted record to the checkpoint the Stopped page shows (Overview.tsx:116-117). In the code, a late resolution of the kind above can store a checkpoint other than the posted duration, and the model has no event for it.
- `Tick` after unmount: the mount effect's cleanup clears a stale handle, so an interval outlives an unmount that no button caused. The model only leaves the step through the buttons or completion.
- History.SortByDate: does not state stability. JavaScript's `sort` has been stable since ES2019. The insertion sort swaps only on a strictly greater key, so it also keeps equal dates in fetched order. Its contract, however, promises only the date order and a permutation.
- ISO date parsing and `toLocaleString` are not modelled. A date is an integer key, and a missing date is 0.
- JavaScript number edge cases are not modelled: fractional minutes, negative inputs, and NaN or Infinity when run + walk = 0. Seconds are natural numbers, and the foreground rule, normalisation and the record require a positive lap. The background rule models a lap of 0 as no cue, since every remainder is NaN there.
- Session.Overview.Start: requires a positive lap, because the normalisation after Start divides by it. With a lap of 0 the code computes with NaN.
- The constructor of the page-side manager calls `new HTMLAudioElement()`, which browsers reject. The model takes the three keys of line 16 as preloaded.
- The manager's `initializeServiceWorker` registers the service worker and, when it is active, posts INIT_BACKGROUND_AUDIO to it (BackgroundAudioManager.ts:107-108). Registration is folded into `handlersRegistered`. The message's effect is `ServiceWorker.Globals.InitializeAudio`. The `WORKOUT_COMPLETE` listener only logs.
- `startBackgroundWorkout` and `stopBackgroundWorkout` in the manager only post a message when a controller exists. It appears as `stopSent` in `Destroy`, and the messages' effect is `ServiceWorker.Globals.StartBackgroundWorkout` and `StopBackgroundWorkout`.
- The service worker's context resume before playback is folded into `playbackOk`.

## Findings

| source | as written | input that shows it | evidently intended | confidence | as-written member | corrected member |
|---|---|---|---|---|---|---|
| Components/InProgressStep.tsx:35-61 | The cue effect lists the interval handle among its dependencies. Storing the handle right after mount re-runs the effect at the same counter value. | A fresh start with run 60, walk 30, total 540 (counter 0); or a resume from a checkpoint on a lap boundary. Run is selected twice for the starting second. | Each second's cue is selected once: only the counter and the total trigger the effect. | medium, not executed | InProgress.StartCuePlayedTwiceAsWritten | InProgress.EachSecondCuedOnce |
