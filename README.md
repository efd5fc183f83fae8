# Activity tracking and fall alert, modelled in Dafny

This project models the core of a React Native activity-tracking app: the
sudden-movement alert, the sensor windows and feature vectors for the stair,
cycling and walking screens, the activity-time tally, and the arithmetic of
the profile and registration screens.

- **Sudden-movement alert** (`SuddenMovement`, App.js). A gyroscope or
  accelerometer reading with some axis strictly above 23.0 or 22.0 (in
  absolute value) raises an alert, unless the module-level `alertTriggered`
  flag is already set. Each alert dialog has its own vibration and siren,
  which stop only when one of its two buttons is pressed. The flag clears
  itself 2000 ms after the trigger, whatever the user does. The alert logic
  is written as pure transition functions over an `AlertState`, and the
  class `AlertMonitor` has methods proved to act exactly like them.
- **Rolling buffers** (`SampleBuffers`, shared by the stair and cycling
  screens). Each push adds a reading and then drops the oldest once there
  are more than 128. The accelerometer and gyroscope buffers are paired by
  index into `combined`. A missing gyroscope entry becomes three zeros.
- **Feature vector** (`Features`). Each of the two screens defines its own
  `extractFeatures`, and the two copies behave identically. The window is split into six channels. Seven statistics
  per channel give 42 entries, then zeros pad the vector to exactly 562.
  The FFT, mean, deviation and entropy have no definition here: they are
  arbitrary functions of one channel, so only their position in the vector
  is proved. Minimum and maximum are defined and proved in order.
- **Stair screen** (`StairScreen`). A readiness probe makes at most 10
  attempts, 3 s apart. A request is sent when `combined` has exactly 128
  rows, and the buffers are never emptied. Class 5 means climbing. A
  per-second counter runs while climbing, and teardown reports it as
  'upstairs'.
- **Cycling screen** (`CyclingScreen`). A request is sent when `combined`
  has at least 128 rows. The padding loop then adds nothing, and both
  buffers are emptied afterwards. A successful response replaces the shown
  probabilities, and `loading` ends either way.
- **Walking screen** (`WalkingScreen`). A flat window keeps the last 240
  values, three per accelerometer reading. Once it is full, the local model
  runs on it reshaped into 80 triples. Class 5 means walking. A per-second
  counter runs while walking, and teardown reports it as 'walking'.
- **Activity tally** (`ActivityContext`). The tally starts at zero. An
  update adds seconds to exactly one activity, and the record is written
  back only when an email is known. A fetch runs only when an email is
  known, and a missing or falsy field becomes 0.
- **Display and registration** (`TimeDisplay`, `ProfileScreen`,
  `RegisterScreen`). Durations are shown as minutes plus seconds. Each
  activity is shown as a rounded share of a total that is never 0. The
  registration form checks empty fields before it checks that the
  passwords match.

The models are driven by explicit events. Timers become calls to
`AdvanceClock(ms)`, `DurationTick()` and `PredictionTick(...)`, and sensor
callbacks become calls to `OnAccelerometer`/`OnGyroscope`. Network responses,
probe answers, the packaged model's prediction and the model-load outcome are
parameters.

Behaviour of the code worth knowing:
- The feature vector holds 7 statistics per channel, 42 values in all,
  followed by 520 zeros.
- The alert flag is cleared by a timer 2000 ms after the trigger, whether or
  not the user has answered. Neither button does anything beyond stopping
  its own dialog's vibration and siren.
- The readiness probe runs before every stair request.
- Nothing stops two stair requests from being in flight at once. Once the
  buffer is full, every timer tick sends another request.
- The stair buffers are never emptied. Only the cycling screen empties its
  buffers after sending.

## Model

| member | source | states |
|---|---|---|
| `SuddenMovement.SuddenMovementIffSomeAxis` | App.js:22-36 | the detection condition holds iff some gyroscope axis has \|v\| > 23.0 or some accelerometer axis has \|v\| > 22.0; strict, so a value exactly at a threshold does not trigger |
| `SuddenMovement.StepKeepsInv` | App.js:38-43 | every event keeps the invariant "while the flag is set, its reset is pending at most 2000 ms ahead"; only elapsed time moves the clock; alerts are never removed |
| `SuddenMovement.TriggerRaisesOneAlert` | App.js:29-43 | a trigger from the cleared state sets the flag, schedules the reset at now + 2000 and adds exactly one new alert that vibrates and sounds, leaving earlier alerts untouched |
| `SuddenMovement.EachListenerUsesOwnThreshold` | App.js:47-55 | the gyroscope listener pairs its reading with a zero accelerometer reading and vice versa, so each triggers only on its own sensor's threshold |
| `SuddenMovement.GyroZ25TriggersFromIdle` | App.js:31-33 | gyroscope {0, 0, 25} with zero accelerometer raises one vibrating alert from the idle state |
| `SuddenMovement.NoRetriggerBeforeReset` | App.js:30 | while the flag is set, no sequence of readings of any size, button presses and elapsed time short of the deadline raises another alert or clears the flag |
| `SuddenMovement.PressesKeepFlag` | App.js:108-126 | button presses never change the flag, its deadline or the clock |
| `SuddenMovement.ResetFiresAtDeadline` | App.js:41-43 | with no readings arriving, once the elapsed time reaches the pending reset's deadline the flag is cleared, and a cleared flag stays cleared |
| `SuddenMovement.ResetRegardlessOfAnswer` | App.js:41-43 | after a trigger, any mix of button presses and elapsed time totalling at least 2000 ms leaves the flag cleared, whatever was answered and in whatever order |
| `SuddenMovement.RetriggerAfterReset` | App.js:29-43 | once the reset has fired, a reading above a threshold raises a new alert |
| `SuddenMovement.VibratesUntilPressed` | App.js:68-77 | an alert's vibration and siren stay as they are through any events that press none of its own buttons |
| `SuddenMovement.PressStopsOnlyItsAlert` | App.js:108-126 | either button stops its own alert's vibration and siren and records the answer; the flag, the deadline and the other alerts are unchanged |
| `SuddenMovement.AlertMonitor.constructor` | App.js:25 | the flag starts cleared, with no alert shown |
| `SuddenMovement.AlertMonitor.HandleAlert` | App.js:63-133 | shows one new dialog whose vibration and then siren are started |
| `SuddenMovement.AlertMonitor.CheckForSuddenMovement` | App.js:28-45 | updates the state exactly as `Check`; reports a trigger iff the flag was cleared and the readings exceed a threshold |
| `SuddenMovement.AlertMonitor.OnGyroscope` | App.js:47-50 | acts exactly as `GyroStep`: the check with a zero accelerometer reading |
| `SuddenMovement.AlertMonitor.OnAccelerometer` | App.js:52-55 | acts exactly as `AccelStep`: the check with a zero gyroscope reading |
| `SuddenMovement.AlertMonitor.AdvanceClock` | App.js:41-43 | acts exactly as `TimeStep`: the pending reset fires once its deadline is reached |
| `SuddenMovement.AlertMonitor.Press` | App.js:110-124 | acts exactly as `PressStep`: stopVibration then stopSiren on that dialog |
| `SampleBuffers.PushCappedKeepsNewest` | screens/StairScreen.js:92-100 | one push on a buffer of at most 128 keeps it at most 128 long, holding the newest readings |
| `SampleBuffers.PushAllKeepsNewest` | screens/StairScreen.js:92-100 | after any sequence of pushes the buffer is exactly the last min(n, 128) readings in arrival order |
| `SampleBuffers.Combine` | screens/StairScreen.js:103-106 | `combined` has as many rows as the accelerometer buffer |
| `SampleBuffers.CombinedValues` | screens/CyclingScreen.js:83-86 | row i is accel[i]'s three values followed by gyro[i]'s, or by three zeros when gyro[i] is absent |
| `Features.MinOf` | screens/StairScreen.js:55 | the minimum is an element of the channel and no element is smaller |
| `Features.MaxOf` | screens/StairScreen.js:56 | the maximum is an element of the channel and no element is larger |
| `Features.PadOrTruncateShape` | screens/StairScreen.js:71-72 | padding then slicing yields exactly n entries: the input's first ones, then zeros |
| `Features.FeatureVectorLayout` | screens/StairScreen.js:44-73 | the vector has exactly 562 entries; entry 7c + j is statistic j (mean, std, min, max, FFT peak, FFT power, entropy) of channel c (ax, ay, az, gx, gy, gz); entries 42 to 561 are 0 |
| `Features.MinMaxFeatures` | screens/StairScreen.js:55-56 | per channel the min entry is at most the max entry, and both are values of that channel |
| `Features.DeInterleave` | screens/StairScreen.js:45-49 | the forEach loop yields six channels, channel c holding value c of every row in order |
| `Features.ExtractFeatures` | screens/CyclingScreen.js:22-51 | the push loops and padding loop produce exactly `FeatureVector` |
| `StairScreen.WaitUntilBackendIsReady` | screens/StairScreen.js:10-26 | returns at the first attempt whose probe is OK, after waiting 3000 ms per earlier failure; throws iff all 10 attempts fail, after 30000 ms |
| `StairScreen.StairTracker.constructor` | screens/StairScreen.js:29-40 | empty buffers, not climbing, no class shown, duration 0 |
| `StairScreen.StairTracker.OnAccelerometer` | screens/StairScreen.js:92-95 | push then shift: the buffer becomes `PushCapped` of the old one and stays within 128; nothing else changes |
| `StairScreen.StairTracker.OnGyroscope` | screens/StairScreen.js:97-100 | the same for the gyroscope buffer |
| `StairScreen.StairTracker.PredictionTick` | screens/StairScreen.js:102-108 | a feature vector is sent iff `combined` has exactly 128 rows, which under the cap is the same as at least 128, and it is the feature vector of `combined`; the buffers stay as they are |
| `StairScreen.StairTracker.PredictViaApi` | screens/StairScreen.js:75-86 | probe exhaustion gives the not-ready error and no request; on a response the class is shown and climbing == (class == 5); on either error climbing and the shown class are unchanged |
| `StairScreen.StairTracker.DurationTick` | screens/StairScreen.js:110-115 | adds exactly 1 while climbing and nothing otherwise |
| `StairScreen.StairTracker.Teardown` | screens/StairScreen.js:120-126 | reports the accumulated duration as 'upstairs' through updateActivityTime |
| `StairScreen.FullBufferStaysFull` | screens/StairScreen.js:107 | the buffers are never cleared: once full, a buffer stays at 128 whatever arrives, so every later tick dispatches |
| `CyclingScreen.PadRows` | screens/CyclingScreen.js:89-90 | the padding loop keeps the rows and appends zero rows up to n; with at least n rows it adds nothing |
| `CyclingScreen.CyclingTracker.constructor` | screens/CyclingScreen.js:13-20 | empty buffers, no probabilities, loading |
| `CyclingScreen.CyclingTracker.OnAccelerometer` | screens/CyclingScreen.js:71-74 | push then shift on the accelerometer buffer, within 128 |
| `CyclingScreen.CyclingTracker.OnGyroscope` | screens/CyclingScreen.js:76-79 | push then shift on the gyroscope buffer, within 128 |
| `CyclingScreen.CyclingTracker.PredictionTick` | screens/CyclingScreen.js:82-98 | dispatches iff `combined` has at least 128 rows, which under the cap is exactly 128; sends the feature vector of the unpadded window; then both buffers are empty; without a dispatch nothing changes |
| `CyclingScreen.CyclingTracker.PredictProbabilities` | screens/CyclingScreen.js:53-65 | on success the probabilities are replaced by the response, on error they are unchanged; loading is false afterwards either way |
| `WalkingScreen.AppendSample` | screens/WalkingScreen.js:71-77 | the window stays within 240 values and a multiple of 3; prediction is requested iff the appended window reaches 240 values, and it receives exactly the 240 values kept |
| `WalkingScreen.FeedKeepsLastValues` | screens/WalkingScreen.js:70-78 | after any readings the window holds the last min(len, 240) of all values received, in order |
| `WalkingScreen.FlattenChunks` | screens/WalkingScreen.js:47-50 | flattening the reshaped triples gives back the input |
| `WalkingScreen.ChunksAreTriples` | screens/WalkingScreen.js:47-50 | an input whose length is a multiple of 3 becomes len/3 chunks, chunk j being values [3j, 3j + 3) |
| `WalkingScreen.WindowReshapesTo80Triples` | screens/WalkingScreen.js:52 | 240 values become 80 triples, triple j being values [3j, 3j + 3) |
| `WalkingScreen.Reshape` | screens/WalkingScreen.js:47-50 | the `for` loop with step 3 and clamped slices yields exactly `Chunks` of its input |
| `WalkingScreen.WalkingTracker.constructor` | screens/WalkingScreen.js:12-22 | empty window, not walking, no class shown, duration 0, no model |
| `WalkingScreen.WalkingTracker.LoadModel` | screens/WalkingScreen.js:25-41 | the model is present after a successful load; a failed load leaves it as it was |
| `WalkingScreen.WalkingTracker.PredictLocally` | screens/WalkingScreen.js:43-65 | does nothing without a model, for an input other than 240 values, or when prediction throws; otherwise the class is shown and walking == (class == 5) |
| `WalkingScreen.WalkingTracker.OnAccelerometer` | screens/WalkingScreen.js:70-78 | the window becomes `AppendSample`'s; the walking flag and class change only through a prediction on the kept 240 values |
| `WalkingScreen.WalkingTracker.DurationTick` | screens/WalkingScreen.js:80-85 | adds exactly 1 while walking and nothing otherwise |
| `WalkingScreen.WalkingTracker.Teardown` | screens/WalkingScreen.js:95-101 | reports the accumulated duration as 'walking' through updateActivityTime |
| `ActivityContext.AddTime` | context/ActivityContext.js:40-44 | adds the seconds to the named activity, every other activity is unchanged, and with non-negative seconds no activity decreases |
| `ActivityContext.AddTimeAccumulates` | context/ActivityContext.js:40-44 | two updates of one activity add up, and updates of different activities commute |
| `ActivityContext.FetchedTally` | context/ActivityContext.js:23-27 | each fetched field is taken as sent, or 0 when missing or falsy; a tally field is 0 exactly then |
| `ActivityContext.ActivityProvider.constructor` | context/ActivityContext.js:6-13 | the tally starts as walking = running = upstairs = 0, with no email and nothing written |
| `ActivityContext.ActivityProvider.SetUserEmail` | context/ActivityContext.js:13 | replaces the email |
| `ActivityContext.ActivityProvider.FetchData` | context/ActivityContext.js:17-33 | requests iff an email is known; the tally is replaced only when a body arrives, by the defaulted record; otherwise unchanged |
| `ActivityContext.ActivityProvider.UpdateActivityTime` | context/ActivityContext.js:39-55 | the tally becomes `AddTime` of the old one; the updated full record is written to the store iff an email is known |
| `TimeDisplay.FormatTime` | screens/WalkingScreen.js:113-118 | (also screens/ProfileScreen.js:6-10) for s >= 0, minutes * 60 + rest == s with 0 <= rest < 60; for s < 0, floor minutes and a rest in (-60, 0] as JavaScript's `%` gives |
| `ProfileScreen.TotalTime` | screens/ProfileScreen.js:15 | the total is the sum of the three tallies, or 1 when that sum is 0; never 0 |
| `ProfileScreen.Round` | screens/ProfileScreen.js:39 | `Math.round` gives the integer r with r - 0.5 <= x < r + 0.5: the nearest integer, halves rounded up |
| `ProfileScreen.Percent` | screens/ProfileScreen.js:36-39 | round(100 · value / total): in [0, 100] when 0 <= value <= total, 0 for a zero value, 100 when the value is the whole total |
| `ProfileScreen.TotalBoundsTallies` | screens/ProfileScreen.js:38 | with non-negative tallies the total is at least 1 and no tally exceeds it |
| `ProfileScreen.PercentsInRange` | screens/ProfileScreen.js:38-39 | with non-negative tallies every circle's percentage lies in [0, 100] |
| `ProfileScreen.AllZeroShowsZero` | screens/ProfileScreen.js:38-39 | when every tally is 0, every percentage is 0 |
| `RegisterScreen.HandleRegister` | screens/RegisterScreen.js:9-20 | an empty email or password gives the missing-fields error; otherwise differing passwords give the mismatch error; registration (and navigation to LoginScreen) happens iff both fields are non-empty and the passwords match |
| `RegisterScreen.EmptinessTakesPrecedence` | screens/RegisterScreen.js:10-17 | with an empty field the outcome is the missing-fields error whatever the confirmation is |

## Left out

- Floating point: readings, features and percentages are exact `real`s. NaN, infinities and float rounding (for example in `Math.round` of a share on a half) are not modelled.
- The mean, standard deviation, FFT peak, FFT power and entropy have no definition here (`Kernels`), because `Math.sqrt`, `Math.log2` and the `fft-js` transform are foreign numeric code. For a channel summing to zero the entropy divides by zero; that is not modelled.
- `Features.ExtractFeatures` requires a non-empty window. Every caller passes 128 rows, and for an empty window the source's statistics are NaN or infinite.
- Network I/O (the `/`, `/predict`, `/probabilities` and activity endpoints) is modelled only as an abstract success or failure result passed in. A malformed response body (for example a missing `prediction`) is not modelled.
- TensorFlow model loading, `predict` and `argMax` are modelled by a `classify` parameter and a load-success flag.
- Real timers and sensor subscriptions are modelled as explicit events. The interleaving of asynchronous callbacks is concurrency and is not modelled. Examples: a stale `userEmail` captured by a screen's teardown closure, a fetch overwriting a concurrent update, two stair requests finishing out of order, or a button pressed while the siren is still loading, which leaves it playing.
- Audio and vibration are boolean started/stopped flags per dialog. Siren load failures (caught and logged) are not modelled.
- Subscription removal and timer clearing at teardown, and WalkingScreen's `handleGoBack` that does the same before navigating, are not modelled. After teardown no events arrive, so they have nothing to act on in the model.
- `updateActivityTime` with a key other than walking, running or upstairs (which would produce NaN) is not modelled. Only 'upstairs' and 'walking' are ever passed.
- Fetched activity values are integers or absent. Truthy non-numeric values are not modelled.
- LoginScreen, SettingsScreen, googleFitScreen, NotificationService, navigation, JSX and styles are not part of this model.
