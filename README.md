# Snooker ball tracker core, modelled in Dafny

This project models the `BallTracker` of snooker-ball-tracker. The tracker is
fed one video image at a time. It detects the balls, gives each ball a colour
identity and follows the balls from image to image. From snapshots of the
table it decides when a shot starts and finishes, and which colour was potted.

The modules follow the structure of `ball_tracker.py`:

- `Types` (types.dfy): blobs, contours and the colour-to-balls dictionary.
  A Python dict becomes a sequence of `Entry(colour, balls)`, in the order the
  dict enumerates its keys.
- `Continuity` (continuity.dfy): `update_balls`. Each observed blob takes over
  the slot of the first known ball within 0.3 diameters of it. The method is
  proved against the left fold `Track`.
- `ColourDetection` (colour_detection.dfy): `perform_colour_detection`,
  `__keypoint_is_ball` and `__keypoint_in_contour`.
  - The colours are tried in ascending ORDER. `sorted` is stable, so equal
    ORDERs keep dictionary order.
  - Each blob goes to the first enabled colour whose mask contours hold it
    strictly inside, or is discarded.
  - The methods are proved against `Classify` and `Detection`.
- `Snapshots` (snapshot.dfy): the three table snapshots the tracker keeps, as a
  class `SnapShot` whose value is a `Snap`.
- `ShotRules` (shot_rules.dfy): `has_ball_moved`, `has_ball_stopped`,
  `has_shot_started`, `has_shot_finished` and the pot scan of `process_image`.
- `Tracker` (ball_tracker.dfy): `process_image`, modelled two ways.
  - A class `BallTracker` whose methods update the counter, the dictionary,
    the in-progress flag and the snapshots in place.
  - A pure state machine `Step` that the class is proved to follow.
  - Every fifth image (image 0 included) runs colour detection and the
    snapshot phase. Every other image only tracks the known balls.

Geometry and image processing are parameters, because the library code is not
part of this model:
- the normalised distance between two blobs (`Distance`);
- OpenCV's point-in-polygon test (`PolygonTest`);
- OpenCV's contour area (`ContourArea`).

A `Frame` carries the blob detector's keypoints and the per-colour mask contours
of one image.

`snapshot.py` is not part of this model. The model assumes the following about it:
- A snapshot holds a count and a list of balls per colour, and a white-ball slot
  with a moving flag.
- `assign_balls_from_dict` sets each count to the list's length. How it fills
  the white slot is a parameter of the tracker (`WhiteSlot`). The only promise
  about it is that a filled slot holds one of the dictionary's WHITE balls. The
  slot may therefore be empty while the white count is positive.
- `assign_balls_from_snapshot` copies the other snapshot's whole value.
- `compare_ball_diff(colour, other)` is this snapshot's count of `colour` minus
  the other's.

Points of the code that the model keeps as written:

- `has_shot_finished` (ball_tracker.py:368-388) answers False whenever the
  temporary snapshot has no white ball. Its fallback `return True`
  (ball_tracker.py:386-387) is reached only when both white counts are equal
  and positive and a white slot is empty. `HasShotFinished` states both cases.
- On a finished shot, the code reports the last non-white colour that lost balls,
  in enumeration order, and only that one. `EarlierPotIsNotReported` states this.
- The moving flag copied from the temporary snapshot into the current-shot
  snapshot (ball_tracker.py:230-231) is overwritten straight after, when the
  current-shot snapshot becomes a copy of the temporary one. The model does both
  steps as the code does.

## Model

| member | source | states |
|---|---|---|
| Continuity.FirstNear | src/snooker_ball_tracker/ball_tracker/ball_tracker.py:124-129 | the first ball of a list within 0.3 of the blob, and none before it is; None when no ball is |
| Continuity.MatchSlot | src/snooker_ball_tracker/ball_tracker/ball_tracker.py:120-131 | the slot a blob takes over is near it, and no slot under an earlier key or earlier in the same list is; None when no known ball is near |
| Continuity.PlaceBall | src/snooker_ball_tracker/ball_tracker/ball_tracker.py:120-131 | placing one blob keeps every key, in order, and the length of every list |
| Continuity.Track | src/snooker_ball_tracker/ball_tracker/ball_tracker.py:120-132 | placing all blobs in detection order keeps every key and every list length |
| Continuity.UpdateBalls | src/snooker_ball_tracker/ball_tracker/ball_tracker.py:104-132 | the nested scans with the `matched` flag and `break` compute exactly the fold `Track` |
| Continuity.MatchSlotIsFirst | src/snooker_ball_tracker/ball_tracker/ball_tracker.py:122-129 | a near slot preceded by no near slot is the one that is overwritten |
| Continuity.UnmatchedBlobChangesNothing | src/snooker_ball_tracker/ball_tracker/ball_tracker.py:120-131 | a blob near no known ball leaves the dictionary unchanged (it is not added) |
| Continuity.MatchedBlobReplacesFirstNear | src/snooker_ball_tracker/ball_tracker/ball_tracker.py:124-129 | a matched blob replaces the first near ball (first match, not closest), and every other slot keeps its ball |
| Continuity.TrackKeepsBallCount | src/snooker_ball_tracker/ball_tracker/ball_tracker.py:104-132 | tracking keeps the keys and the total number of balls |
| ColourDetection.Insert | src/snooker_ball_tracker/ball_tracker/ball_tracker.py:270-271 | inserting a position into a sorted run gives a sorted run with the same elements plus that one |
| ColourDetection.SortPositions | src/snooker_ball_tracker/ball_tracker/ball_tracker.py:270-271 | the result holds each of the first n positions exactly once, sorted by ORDER and then by dictionary position |
| ColourDetection.DetectionOrder | src/snooker_ball_tracker/ball_tracker/ball_tracker.py:270-271 | the colours are tried in a permutation of the settings, ascending in ORDER, stable for equal ORDERs |
| ColourDetection.Biggest | src/snooker_ball_tracker/ball_tracker/ball_tracker.py:304-305 | `max` by contour area: no contour is bigger, and every earlier one is strictly smaller (first maximum) |
| ColourDetection.KeypointInContour | src/snooker_ball_tracker/ball_tracker/ball_tracker.py:316-327 | a blob is in a contour exactly when the polygon test puts it strictly inside; a blob on the edge is not |
| ColourDetection.KeypointIsBall | src/snooker_ball_tracker/ball_tracker/ball_tracker.py:284-327 | answers true exactly when the blob is strictly inside the biggest contour (with the biggest-contour policy and several contours) or inside any contour (otherwise); the blob is appended to its colour exactly when it answers true |
| ColourDetection.ColourContours | src/snooker_ball_tracker/ball_tracker/ball_tracker.py:256-267 | one contour list per colour setting |
| ColourDetection.CollectContours | src/snooker_ball_tracker/ball_tracker/ball_tracker.py:264-267 | the loop collects the mask contours of each detected colour and none for the others |
| ColourDetection.FirstAccepting | src/snooker_ball_tracker/ball_tracker/ball_tracker.py:276-280 | the first colour in the order tried that is detected and holds the blob; no earlier one does; None when none does |
| ColourDetection.Detection | src/snooker_ball_tracker/ball_tracker/ball_tracker.py:252-254 | the dictionary has one key per colour setting, in settings order |
| ColourDetection.AssignKeypoint | src/snooker_ball_tracker/ball_tracker/ball_tracker.py:276-280 | one blob is appended to the colour it is classified under, and the dictionary is unchanged when it is discarded |
| ColourDetection.PerformColourDetection | src/snooker_ball_tracker/ball_tracker/ball_tracker.py:238-282 | the returned dictionary is `Detection` of the blobs: each colour lists the blobs classified under it, in detection order |
| ColourDetection.DetectionStep | src/snooker_ball_tracker/ball_tracker/ball_tracker.py:275-280 | one more blob changes only the list of the colour it is classified under |
| ColourDetection.Classify | src/snooker_ball_tracker/ball_tracker/ball_tracker.py:275-280 | a blob that is not discarded goes to a colour setting that is detected and whose contours hold it |
| ColourDetection.ClassifyIsFirstEnabledMatch | src/snooker_ball_tracker/ball_tracker/ball_tracker.py:270-280 | a blob goes to a detected colour that holds it, and no detected colour that holds it comes earlier in ORDER; it is discarded exactly when no detected colour holds it |
| ColourDetection.DisabledColourStaysEmpty | src/snooker_ball_tracker/ball_tracker/ball_tracker.py:264-267 | a colour whose DETECT flag is off gets no ball |
| ColourDetection.ListedOnlyIfAssigned | src/snooker_ball_tracker/ball_tracker/ball_tracker.py:275-280 | every blob in a colour's list was classified under that colour |
| ColourDetection.ListedUnderOneColour | src/snooker_ball_tracker/ball_tracker/ball_tracker.py:275-280 | no blob is listed under two colours |
| ColourDetection.ClassifiedCount | src/snooker_ball_tracker/ball_tracker/ball_tracker.py:273-280 | at most as many blobs are classified as were detected |
| ColourDetection.DetectionNeverAddsBalls | src/snooker_ball_tracker/ball_tracker/ball_tracker.py:273-282 | the dictionary holds exactly the classified blobs, never more balls than blobs |
| ColourDetection.AssignedKeepsDetectionOrder | src/snooker_ball_tracker/ball_tracker/ball_tracker.py:275-280 | within a colour, blobs keep detection order: the blobs of a longer detection extend those of a prefix |
| Snapshots.Snap.Count | src/snooker_ball_tracker/ball_tracker/ball_tracker.py:357-358 | a colour's count is the length of its ball list |
| Snapshots.FromDict | src/snooker_ball_tracker/ball_tracker/ball_tracker.py:175-176 | the snapshot of a dictionary has the same keys and lists and counts equal to list lengths; a filled white slot holds one of its WHITE balls, so the white count is then positive (also used at line 207) |
| Snapshots.CompareBallDiff | src/snooker_ball_tracker/ball_tracker/ball_tracker.py:215-217 | positive exactly when this snapshot has more balls of the colour, zero exactly when the counts are equal |
| Snapshots.SnapShot.constructor | src/snooker_ball_tracker/ball_tracker/ball_tracker.py:31-33 | a snapshot with one key per colour name, no balls and no white |
| Snapshots.SnapShot.AssignBallsFromDict | src/snooker_ball_tracker/ball_tracker/ball_tracker.py:175-176 | the snapshot afterwards is `FromDict` of the dictionary, and well formed (also called at line 207) |
| Snapshots.SnapShot.AssignBallsFromSnapshot | src/snooker_ball_tracker/ball_tracker/ball_tracker.py:227 | the snapshot afterwards holds what the other held (also called at line 232) |
| ShotRules.HasBallStopped | src/snooker_ball_tracker/ball_tracker/ball_tracker.py:390-401 | a ball has stopped exactly when it is no further than 0.1 away; at exactly 0.1 it has stopped |
| ShotRules.HasBallMoved | src/snooker_ball_tracker/ball_tracker/ball_tracker.py:403-414 | a ball has moved (distance above 0.1) exactly when it has not stopped |
| ShotRules.HasShotStarted | src/snooker_ball_tracker/ball_tracker/ball_tracker.py:346-366 | true exactly when the first snapshot has white balls, both have as many, both white slots are filled and the white moved |
| ShotRules.HasShotFinished | src/snooker_ball_tracker/ball_tracker/ball_tracker.py:368-388 | false without white balls or with unequal white counts; otherwise true when a white slot is empty, and else exactly when the white stopped |
| ShotRules.StartAndFinishExclude | src/snooker_ball_tracker/ball_tracker/ball_tracker.py:346-388 | the same two snapshots never both start and finish a shot |
| ShotRules.LastPotted | src/snooker_ball_tracker/ball_tracker/ball_tracker.py:212-220 | the last non-white colour, among the first n, that lost balls; no later one did; None when none did |
| ShotRules.ReportedPot | src/snooker_ball_tracker/ball_tracker/ball_tracker.py:212-220 | no pot and count 0 when no non-white colour lost balls; otherwise a non-white colour of both snapshots that lost exactly `count` > 0 balls, with no later colour losing any |
| ShotRules.ScanPots | src/snooker_ball_tracker/ball_tracker/ball_tracker.py:212-220 | the loop over the last-shot colours returns exactly `ReportedPot` |
| ShotRules.PotCountBounded | src/snooker_ball_tracker/ball_tracker/ball_tracker.py:212-220 | a reported pot counts between one and the last-shot count of that colour |
| ShotRules.NoPotAgainstCopy | src/snooker_ball_tracker/ball_tracker/ball_tracker.py:212-220 | comparing a snapshot with a copy of itself reports no pot |
| ShotRules.EarlierPotIsNotReported | src/snooker_ball_tracker/ball_tracker/ball_tracker.py:212-220 | when two colours lost balls, the earlier one in enumeration order is not reported |
| Tracker.ShotTick | src/snooker_ball_tracker/ball_tracker/ball_tracker.py:204-232 | one snapshot phase: the current shot becomes the temporary snapshot; a pot is reported only when the tracker goes idle with the old current shot as last shot; the last shot is either kept or replaced by the old current shot |
| Tracker.StartedShotStaysInProgress | src/snooker_ball_tracker/ball_tracker/ball_tracker.py:209-213 | an idle tracker whose white moved starts a shot that does not finish in the same phase, with no pot |
| Tracker.IdleWithoutStartStaysIdle | src/snooker_ball_tracker/ball_tracker/ball_tracker.py:209-212 | an idle tracker whose white did not move stays idle and keeps its last shot |
| Tracker.FinishedShotIsRecorded | src/snooker_ball_tracker/ball_tracker/ball_tracker.py:212-228 | a finishing shot reports the pot against the last shot, promotes the current shot to last shot and goes idle |
| Tracker.RunningShotContinues | src/snooker_ball_tracker/ball_tracker/ball_tracker.py:212-232 | a shot in progress whose white has not stopped stays in progress, keeps its last shot and reports no pot |
| Tracker.NoWhiteFreezesLifecycle | src/snooker_ball_tracker/ball_tracker/ball_tracker.py:204-232 | with no white ball in the temporary snapshot, neither the in-progress flag nor the last shot changes and no pot is reported |
| Tracker.IsTick | src/snooker_ball_tracker/ball_tracker/ball_tracker.py:168 | the sampling images are exactly the multiples of 5; the test `== 0` adds none, since 0 is one (the same test is repeated at line 204) |
| Tracker.Detect | src/snooker_ball_tracker/ball_tracker/ball_tracker.py:168-169 | a detection pass yields one key per colour setting |
| Tracker.SampleStep | src/snooker_ball_tracker/ball_tracker/ball_tracker.py:168-232 | a sampling image: the dictionary is re-detected, the temporary and current-shot snapshots become its snapshot, and the last shot stays well formed with one key per colour |
| Tracker.Step | src/snooker_ball_tracker/ball_tracker/ball_tracker.py:161-236 | process_image keeps the tracker invariant (well-formed snapshots, one key per colour from image 1 on) and moves the counter on by one |
| Tracker.BetweenSamplesOnlyTracking | src/snooker_ball_tracker/ball_tracker/ball_tracker.py:170-172 | on other images the snapshots and the in-progress flag are untouched, no pot is reported and the number of balls is kept |
| Tracker.FirstImageReportsNoPot | src/snooker_ball_tracker/ball_tracker/ball_tracker.py:174-176 | image 0 never reports a pot, because its last shot is taken from the same dictionary |
| Tracker.PotOnlyWhenShotFinishes | src/snooker_ball_tracker/ball_tracker/ball_tracker.py:204-228 | a reported pot comes only from a sampling image on which a started or running shot finished; the tracker is then idle and its last shot is the previous current shot |
| Tracker.BallTracker.constructor | src/snooker_ball_tracker/ball_tracker/ball_tracker.py:15-45 | counter 0, not in a shot, empty dictionary, three distinct well-formed snapshots |
| Tracker.BallTracker.ProcessImage | src/snooker_ball_tracker/ball_tracker/ball_tracker.py:134-236 | the new tracker state and the reported pot are exactly `Step` of the old state and the frame, and the invariant is kept |
| Tracker.BallTracker.TrackingImage | src/snooker_ball_tracker/ball_tracker/ball_tracker.py:170-172 | a non-sampling image follows `Step` |
| Tracker.BallTracker.SamplingImage | src/snooker_ball_tracker/ball_tracker/ball_tracker.py:168-176 | a sampling image follows `Step` |
| Tracker.BallTracker.CompareSnapshots | src/snooker_ball_tracker/ball_tracker/ball_tracker.py:204-232 | the temporary snapshot is rebuilt from the dictionary, and the shot state and the pot follow `ShotTick` |
| Tracker.BallTracker.AdvanceShot | src/snooker_ball_tracker/ball_tracker/ball_tracker.py:209-231 | the in-progress flag, the last shot and the pot follow `ShotTick`; when the shot started or was running and both white slots are filled, the current shot's white takes the temporary snapshot's moving flag, and otherwise it is unchanged |

## Left out

- Drawing is left out, because it produces only pixels, not tracker state. This covers `draw_balls`, `detect_colour`, the output frame and the `show_threshold`, `detect_colour` and `mask_colour` branches of `process_image` (ball_tracker.py:86-102, 178-201, 329-344). `ProcessImage` returns only the pot and the pot count.
- `setup_blob_detector` and the blob detector are left out: the detector's keypoints arrive in the `Frame`.
- `get_mask_contours_for_colour` is left out: its contours arrive in the `Frame`.
- `dist_between_two_balls`, `cv2.pointPolygonTest` and `cv2.contourArea` are parameters, because their geometry is library code. Floating-point rounding in them is not modelled.
- `get_snapshot_report` is left out, because it only formats a text report for the log.
- The console output and the white-status callback of `has_shot_started`, `has_shot_finished` and the pot scan are left out, because they are output only.
- The logger that owns the three snapshots is not part of this model. The constructor creates three fresh snapshots, with one key per colour and no balls.
- snapshot.py is not part of this model. Its behaviour is assumed as described above, and each snapshot copy is assumed to be a deep copy.
- The settings classes are not part of this model: BALL_COLOURS is a sequence of (colour, DETECT, ORDER) in dictionary order. The HSV ranges are left out.
- The in-place mutation of the dictionary passed to `update_balls` and `__keypoint_is_ball` is modelled by value: the methods return the new dictionary and the caller stores it. Aliasing between the dictionary and the snapshots is not modelled.
- `ScanPots`, `CollectContours`, `AssignKeypoint`, `SamplingImage`, `TrackingImage`, `CompareSnapshots` and `AdvanceShot` are parts of the code of `process_image` and `perform_colour_detection`, written as separate methods.
- `Tracker.BallTracker.constructor` requires WHITE among the colour settings, and `Consistent` keeps that requirement. Without it the code raises KeyError at ball_tracker.py:357 (`colours["WHITE"]`) on image 0, and the model does not cover that error.
- The colour settings are fixed when the tracker is built. The code re-reads BALL_COLOURS on every detection pass (ball_tracker.py:252-277), so a change of the settings between images is not modelled.
- Distances are mathematical reals. A NaN distance, which makes both `has_ball_moved` and `has_ball_stopped` answer False, is not modelled: here a ball has always either moved or stopped.
- `KeypointIsBall` models the biggest-contour policy, but `perform_colour_detection` never enables it, so `Detection` uses the any-contour test only.
