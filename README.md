# EqualVolume synchroniser, modelled in Dafny

EqualVolume is an Android app that keeps five audio streams together: ring tone,
music, notifications, system sounds and voice calls. A volume observer polls the
host's stream levels. It compares them with a snapshot and finds the first stream
that changed. It takes the sign of that stream's delta as the direction, and then
asks the activity to synchronise:

1. Every checked stream other than the changed one gets `adjustSteps[s]`
   single-unit adjustments in that direction. The step is 1, or 2 for music.
2. If any checked stream is now at its maximum, every checked stream is set to
   its own maximum. Otherwise, if any checked stream is at 0, every checked
   stream is set to 0.
3. The snapshot is taken again.

The project has four modules:

- `StreamIds` (`stream_ids.dfy`): the app's stream indices 0..4, the host's
  stream constants, and the two translation switches between them.
- `Host` (`audio_host.dfy`): a small `AudioManager` class. It has one level
  array and one maximum array, both indexed by host stream id. It supports
  `setStreamVolume` and `adjustStreamVolume`. A ghost log records every adjust
  call.
- `SyncSpec` (`sync_spec.dfy`): what one poll does, stated on sequences
  (key press, sentinel clamp, change detection, the whole poll). It also holds
  the lemmas about those functions.
- `EqualVolume` (`equal_volume.dfy`): the classes `MainActivity` and
  `VolumeObserver`. Their arrays are updated in place, as the Java classes do.
  Each method is proved against the `SyncSpec` function for the same step.
  `MainActivity.Levels()` reads the five streams' host levels in app-stream
  order, so the methods' postconditions can be stated on values.

### Behaviour kept as written

`getEqualVolumeStreamID` starts from ring tone, and only three cases overwrite
that. The `STREAM_RING` case assigns the parameter instead of the result. Music
and every unrecognised host id leave the result at ring tone. This quirk is
modelled exactly as written:

- The round trip app id → host id → app id is the identity except for music,
  which comes back as ring tone (`RoundTrip`).
- When music changes, the key press skips ring tone rather than music. Music
  then receives its own two adjustments (`MusicChangeSkipsRingTone`).
- Music's delta is taken against the ring-tone snapshot entry (`PollDirection`).

Concretely, take maxima [7,15,7,7,5], all boxes checked and the default steps.
Music moves from 6 to 8 while the other streams stay at 3. One poll then gives
[3,10,4,4,4] (`MusicScenario`). A user would expect a music change to move the
other four streams, giving [4,8,4,4,4]; that is what a ring-tone change gives
(`RingScenario`).

`getOSStreamID` falls back to music (media); `getEqualVolumeStreamID` sends
unknown ids to ring tone.

The host's clamp of `adjustStreamVolume` to [0, max] is not in the application
source. It is Android's documented behaviour, and the `Host` module states it as
an assumption of the mock.

## Model

| member | source | states |
|---|---|---|
| StreamIds.OSStreamID | src/com/csapps/equalvolume/MainActivity.java:116-139 | the result is one of the five tracked host ids, never INVALID_STREAM |
| StreamIds.OSStreamIDTable | src/com/csapps/equalvolume/MainActivity.java:116-139 | 0→RING, 2→NOTIFICATION, 3→SYSTEM, 4→VOICE_CALL; 1 and every int outside 0..4 → MUSIC |
| StreamIds.OSStreamIDInjective | src/com/csapps/equalvolume/MainActivity.java:116-139 | distinct app streams go to distinct host ids |
| StreamIds.TrackedIsImage | src/com/csapps/equalvolume/MainActivity.java:116-139 | the five tracked host ids are exactly the images of the streams 0..4 |
| StreamIds.EqualVolumeStreamID | src/com/csapps/equalvolume/MainActivity.java:87-110 | the result is always an app stream index in [0, 5) |
| StreamIds.EqualVolumeStreamIDTable | src/com/csapps/equalvolume/MainActivity.java:87-110 | NOTIFICATION→2, SYSTEM→3, VOICE_CALL→4; MUSIC, RING and every unrecognised id → 0 |
| StreamIds.RoundTrip | src/com/csapps/equalvolume/MainActivity.java:87-139 | getEqualVolumeStreamID(getOSStreamID(s)) is s for s in {0,2,3,4} and 0 for music |
| StreamIds.ReverseRoundTrip | src/com/csapps/equalvolume/MainActivity.java:87-139 | getOSStreamID(getEqualVolumeStreamID(os)) is os for every tracked id except MUSIC, which gives RING |
| Host.Adjusted | src/com/csapps/equalvolume/MainActivity.java:334 | one ADJUST_RAISE/ADJUST_LOWER moves the level one unit that way or saturates at max/0, and stays in [0, max] |
| Host.AdjustedTimes | src/com/csapps/equalvolume/MainActivity.java:333-335 | any number of unit adjustments keeps the level in [0, max] |
| Host.AdjustedTimesSaturates | src/com/csapps/equalvolume/MainActivity.java:333-335 | n unit adjustments give min(level+n, max) upward and max(level−n, 0) downward |
| Host.AudioManager.SetStreamVolume | src/com/csapps/equalvolume/MainActivity.java:297 | setStreamVolume writes exactly one host level and keeps every level within its maximum |
| Host.AudioManager.AdjustStreamVolume | src/com/csapps/equalvolume/MainActivity.java:334 | adjustStreamVolume changes only that stream's level, by Adjusted, and appends the call to the log |
| SyncSpec.KeyPressLevels | src/com/csapps/equalvolume/MainActivity.java:323-342 | the levels after a key press stay within [0, max] per stream |
| SyncSpec.KeyPressEffect | src/com/csapps/equalvolume/MainActivity.java:327-341 | an unchecked or skipped stream keeps its level; any other moves by its step in the key's direction, saturating at its maximum or 0 |
| SyncSpec.KeyPressCallCount | src/com/csapps/equalvolume/MainActivity.java:327-341 | the key press calls adjust exactly steps[s] times on the host id of each adjusted stream s, and never on an unchecked or skipped stream |
| SyncSpec.StreamCallCount | src/com/csapps/equalvolume/MainActivity.java:332-335 | the inner loop for stream t issues calls only on t's own host id, steps[t] of them when t is adjusted |
| SyncSpec.KeyPressCallDirection | src/com/csapps/equalvolume/MainActivity.java:333-335 | every adjust call goes in the key's direction (raise iff volumeUp), to a tracked host id |
| SyncSpec.ClampedLevels | src/com/csapps/equalvolume/MainActivity.java:272-317 | the levels after the sentinel check stay within [0, max] per stream |
| SyncSpec.ClampEffect | src/com/csapps/equalvolume/MainActivity.java:277-311 | unchecked streams keep their level; a checked stream at max sends every checked stream to its max; otherwise a checked stream at 0 sends every checked stream to 0; otherwise nothing changes |
| SyncSpec.ClampIdempotent | src/com/csapps/equalvolume/MainActivity.java:272-317 | a second sentinel check on the result changes nothing and reports the same sentinel |
| SyncSpec.SyncedLevels | src/com/csapps/equalvolume/MainActivity.java:348-365 | the levels after key press plus sentinel check stay within [0, max] |
| SyncSpec.SyncLeavesUncheckedAlone | src/com/csapps/equalvolume/MainActivity.java:348-365 | an unchecked stream comes out of a synchronisation unchanged |
| SyncSpec.MusicChangeSkipsRingTone | src/com/csapps/equalvolume/MainActivity.java:323-336 | for a music change, ring tone keeps its level and music itself is adjusted by its step |
| SyncSpec.FirstChange | src/com/csapps/equalvolume/VolumeObserver.java:128-139 | None iff current equals snapshot; otherwise the lowest index where they differ |
| SyncSpec.ChangedOSStreamID | src/com/csapps/equalvolume/VolumeObserver.java:123-142 | INVALID_STREAM iff nothing changed, otherwise a tracked host id |
| SyncSpec.PollLevels | src/com/csapps/equalvolume/VolumeObserver.java:61-76 | a poll keeps levels within [0, max] and changes nothing when no stream changed |
| SyncSpec.PollCallDirection | src/com/csapps/equalvolume/VolumeObserver.java:61-76 | a poll that finds no change makes no adjust call; otherwise every call raises iff the first changed stream's delta is positive, and goes to a tracked host id |
| SyncSpec.PollLeavesUncheckedAlone | src/com/csapps/equalvolume/VolumeObserver.java:61-76 | a poll never changes an unchecked stream |
| SyncSpec.PollDirection | src/com/csapps/equalvolume/VolumeObserver.java:102-117 | for a non-music change the delta is nonzero and positive iff the level went up; for music it is measured against the ring-tone entry |
| SyncSpec.MusicScenario | src/com/csapps/equalvolume/VolumeObserver.java:61-76 | music 6→8 with ring tone unchanged ends at [3,10,4,4,4] |
| SyncSpec.RingScenario | src/com/csapps/equalvolume/VolumeObserver.java:61-76 | ring tone 3→4 ends at [4,8,4,4,4] |
| EqualVolume.MainActivity.constructor | src/com/csapps/equalvolume/MainActivity.java:174-220 | each maximum is the host's maximum for the stream's host id; steps are 1 except music's 2; all boxes are checked; the observer's snapshot equals the current levels |
| EqualVolume.MainActivity.SetChecked | src/com/csapps/equalvolume/MainActivity.java:194 | the user's checkbox toggle changes that one box and nothing else |
| EqualVolume.MainActivity.HandleKeyPress | src/com/csapps/equalvolume/MainActivity.java:323-342 | the new levels are KeyPressLevels of the old ones, the log grows by exactly KeyPressCalls, and untracked host streams are unchanged |
| EqualVolume.MainActivity.AdjustStream | src/com/csapps/equalvolume/MainActivity.java:329-337 | one stream's body of the loop: steps[s] adjust calls when s is checked and not skipped, else nothing |
| EqualVolume.MainActivity.CheckForSentinelLevels | src/com/csapps/equalvolume/MainActivity.java:272-317 | the signal is SentinelOf the old levels and the new levels are ClampedLevels of the old ones |
| EqualVolume.MainActivity.SetCheckedStreams | src/com/csapps/equalvolume/MainActivity.java:294-309 | every checked stream is set to its maximum (or 0); unchecked and untracked streams are unchanged |
| EqualVolume.MainActivity.HandleVolumeChange | src/com/csapps/equalvolume/MainActivity.java:348-365 | the new levels are SyncedLevels of the old ones, the snapshot then equals the new levels, untracked host streams are unchanged, and the adjust calls appended to the host's log are exactly KeyPressCalls for volumeUp, skipping the changed stream |
| EqualVolume.VolumeObserver.constructor | src/com/csapps/equalvolume/VolumeObserver.java:45-52 | the snapshot has five entries, and entry s is the host level of getOSStreamID(s) |
| EqualVolume.VolumeObserver.GetChangedOSStreamID | src/com/csapps/equalvolume/VolumeObserver.java:123-142 | INVALID_STREAM iff every stream equals its snapshot entry; otherwise getOSStreamID of the lowest differing stream; changes neither snapshot nor host |
| EqualVolume.VolumeObserver.GetChangedStreamDelta | src/com/csapps/equalvolume/VolumeObserver.java:149-168 | the delta is current(os) minus prev[getEqualVolumeStreamID(os)], and only that entry takes current(os) |
| EqualVolume.VolumeObserver.DeltaTwice | src/com/csapps/equalvolume/VolumeObserver.java:157-160 | two getChangedStreamDelta calls on one id with no host change between: the first gives current minus the old entry, the second gives 0 |
| EqualVolume.VolumeObserver.UpdatePreviousVolumes | src/com/csapps/equalvolume/VolumeObserver.java:171-183 | every snapshot entry equals its stream's current host level, so a following scan returns INVALID_STREAM |
| EqualVolume.VolumeObserver.HandleVolumeChange | src/com/csapps/equalvolume/VolumeObserver.java:102-117 | the activity synchronises with volumeUp iff delta > 0, so a zero delta counts as a decrease: the levels follow SyncedLevels and the host's log gains exactly the KeyPressCalls raising iff delta > 0; untracked host streams are unchanged |
| EqualVolume.VolumeObserver.Run | src/com/csapps/equalvolume/VolumeObserver.java:61-76 | one poll leaves the levels at PollLevels of the old levels and snapshot, the snapshot equal to them, untracked host streams unchanged, and appends PollCalls to the host's log (nothing when no stream changed) |
| EqualVolume.VolumeObserver.RunThenScan | src/com/csapps/equalvolume/VolumeObserver.java:61-76 | after one poll, a scan with no host change in between returns INVALID_STREAM |

## Left out

- ForeverTask and `foreverTaskCallback`: background liveness only; concurrency is not modelled.
- Timer scheduling (`registerVolumeObserverHandler`, `postDelayed`, and the re-registration at the end of `MainActivity.handleVolumeChange` and in the no-change branch of `run`). One poll is the method `VolumeObserver.Run`, which an external driver calls.
- Android lifecycle, notifications and view lookups (`onCreate`, `onResume`, `onPause`, `onDestroy`, `Notification.Builder`).
- Seek-bar updates: `updateCurrentVolumeLevels` and the progress write in `handleKeyPress` display levels but never change them. The toasts are modelled as the `Sentinel` value that `CheckForSentinelLevels` returns.
- Logging, the computed-but-unused `minVol`, and the commented-out step formula.
- The checkbox widgets: a box's state is a `bool` array entry, and `SetChecked` stands for the user ticking or clearing it.
- `AudioManager` internals: the mock's clamp to [0, max] is assumed. `FLAG_VIBRATE` is ignored. Host query failures are not modelled.
- The host stream constants use Android's published values. The proofs depend only on the five being distinct, non-negative, below 6 and different from INVALID_STREAM.
- Java's 32-bit `int`: levels and maxima are small non-negative numbers, so no arithmetic here can overflow, and unbounded integers are used.
- The two write loops of `checkForSentinelLevels` differ only in the value written. They are modelled by one method, `SetCheckedStreams`, with a parameter.
- The observer's `mContext` cast to `MainActivity` is modelled by passing the activity to `VolumeObserver.HandleVolumeChange` and `VolumeObserver.Run`.
- Level changes made by the user between two host calls within one poll are not modelled: the host changes only through the calls shown.
