/** The tracker: per image it re-detects colours on every fifth image and
    otherwise only tracks known balls, and on those sampling images it drives
    the shot lifecycle (ball_tracker.py, BallTracker and process_image). */
module Tracker {
  import opened Types
  import opened Continuity
  import opened ColourDetection
  import opened Snapshots
  import opened ShotRules

  /** What the tracker gets from one image: the blobs the blob detector finds
      in its binary frame and, per colour, the contours of that colour's mask
      in its HSV frame. */
  datatype Frame = Frame(blobs: seq<KeyPoint>, maskContours: Colour -> seq<Contour>)

  /** Colour detection and the snapshot comparison run on every image whose
      counter is a multiple of this. */
  const SAMPLING_INTERVAL: nat := 5

  /** Image 0 is a sampling image only because 0 is a multiple of the interval:
      the sampling images are exactly the multiples of SAMPLING_INTERVAL. */
  function IsTick(counter: nat): (r: bool)
    ensures r <==> counter % SAMPLING_INTERVAL == 0
  {
    counter == 0 || counter % SAMPLING_INTERVAL == 0
  }

  /** The part of the tracker the shot lifecycle changes: the in-progress flag
      and the last-shot and current-shot snapshots. */
  datatype ShotState = ShotState(inProgress: bool, last: Snap, cur: Snap)

  predicate TickReady(s: ShotState, temp: Snap)
  {
    s.cur.Valid() && Comparable(s.last, temp)
  }

  /** One sampling tick of the shot lifecycle, once `temp` has been rebuilt:
      an idle tracker starts a shot when the white has moved; a shot in progress
      finishes when the white has stopped (or its slot is missing), and then the
      pot is reported against the last shot, the last shot becomes the current
      one and the tracker is idle again. The current shot always becomes `temp`. */
  function ShotTick(dist: Distance, s: ShotState, temp: Snap): (r: (ShotState, Pot))
    requires TickReady(s, temp)
    ensures r.0.cur == temp
    ensures r.1.potted.Some? ==> !r.0.inProgress && r.0.last == s.cur
    ensures r.0.last == s.last || r.0.last == s.cur
  {
    var inProgress := s.inProgress || HasShotStarted(dist, temp, s.cur);
    if inProgress && HasShotFinished(dist, temp, s.cur) then
      (ShotState(false, s.cur, temp), ReportedPot(s.last, temp))
    else
      (ShotState(inProgress, s.last, temp), Pot(None, 0))
  }

  /** An idle tracker whose white moved starts a shot, and that shot does not
      also finish on the same tick. */
  lemma StartedShotStaysInProgress(dist: Distance, s: ShotState, temp: Snap)
    requires TickReady(s, temp) && !s.inProgress && HasShotStarted(dist, temp, s.cur)
    ensures ShotTick(dist, s, temp) == (ShotState(true, s.last, temp), Pot(None, 0))
  {
    StartAndFinishExclude(dist, temp, s.cur);
  }

  /** An idle tracker whose white did not move stays idle and keeps its last shot. */
  lemma IdleWithoutStartStaysIdle(dist: Distance, s: ShotState, temp: Snap)
    requires TickReady(s, temp) && !s.inProgress && !HasShotStarted(dist, temp, s.cur)
    ensures ShotTick(dist, s, temp) == (ShotState(false, s.last, temp), Pot(None, 0))
  {
  }

  /** A shot in progress that finishes reports the pot against the last shot,
      promotes the current shot to last shot and makes the tracker idle. */
  lemma FinishedShotIsRecorded(dist: Distance, s: ShotState, temp: Snap)
    requires TickReady(s, temp) && s.inProgress && HasShotFinished(dist, temp, s.cur)
    ensures ShotTick(dist, s, temp) == (ShotState(false, s.cur, temp), ReportedPot(s.last, temp))
  {
  }

  /** A shot in progress whose white has not stopped stays in progress, keeps
      its last shot and reports nothing. */
  lemma RunningShotContinues(dist: Distance, s: ShotState, temp: Snap)
    requires TickReady(s, temp) && s.inProgress && !HasShotFinished(dist, temp, s.cur)
    ensures ShotTick(dist, s, temp) == (ShotState(true, s.last, temp), Pot(None, 0))
  {
  }

  /** With no white ball in `temp` nothing starts or finishes: the flag and the
      last shot are kept and no pot is reported. */
  lemma NoWhiteFreezesLifecycle(dist: Distance, s: ShotState, temp: Snap)
    requires TickReady(s, temp) && temp.WhiteCount() == 0
    ensures ShotTick(dist, s, temp) == (ShotState(s.inProgress, s.last, temp), Pot(None, 0))
  {
  }

  /** Consecutive snapshots of the same dictionary keys can be compared. */
  lemma SameKeysComparable(last: Snap, temp: Snap)
    requires last.Valid() && temp.Valid() && Colours(last.colours) == Colours(temp.colours)
    ensures Comparable(last, temp)
  {
    forall k | 0 <= k < |last.colours|
      ensures last.colours[k].colour in Colours(temp.colours)
    {
      assert Colours(last.colours)[k] == last.colours[k].colour;
    }
  }

  // ---------------------------------------------------------------------------
  // process_image as a state machine

  /** What a tracker is set up with: the colour settings, the image library's
      primitives and the choice of the snapshots' white ball. */
  datatype Config = Config(settings: Settings, dist: Distance, test: PolygonTest, area: ContourArea,
                           whiteOf: WhiteSlot)

  /** The state process_image reads and updates. */
  datatype TrackerState = TrackerState(keypoints: Keypoints, counter: nat, shots: ShotState, temp: Snap)

  /** The invariant of a tracker: its snapshots are well formed and, from the
      first image on, the dictionary and the shot snapshots have one key per
      colour setting. */
  ghost predicate Consistent(cfg: Config, st: TrackerState)
  {
    && DistinctColours(cfg.settings) && WHITE in Names(cfg.settings) && PicksAWhiteBall(cfg.whiteOf)
    && st.shots.last.Valid() && st.shots.cur.Valid() && st.temp.Valid()
    && (st.counter > 0 ==>
          && Colours(st.keypoints) == Names(cfg.settings)
          && Colours(st.shots.last.colours) == Names(cfg.settings)
          && Colours(st.shots.cur.colours) == Names(cfg.settings))
  }

  /** The dictionary a colour-detection pass builds from `frame`. */
  function Detect(cfg: Config, frame: Frame): (r: Keypoints)
    ensures Colours(r) == Names(cfg.settings)
  {
    Detection(Scene(cfg.settings, ColourContours(cfg.settings, frame.maskContours), cfg.test, cfg.area), frame.blobs)
  }

  /** A sampling image, before the counter moves on: colour detection, on image
      0 the current-shot and last-shot snapshots taken from the new dictionary,
      then the shot lifecycle against the new temporary snapshot. */
  function SampleStep(cfg: Config, st: TrackerState, frame: Frame): (r: (TrackerState, Pot))
    requires Consistent(cfg, st)
    ensures r.0.keypoints == Detect(cfg, frame) && r.0.temp == FromDict(r.0.keypoints, cfg.whiteOf)
    ensures r.0.shots.cur == r.0.temp && r.0.counter == st.counter
    ensures r.0.shots.last.Valid() && Colours(r.0.shots.last.colours) == Names(cfg.settings)
  {
    var kps := Detect(cfg, frame);
    var snap := FromDict(kps, cfg.whiteOf);
    var before := if st.counter == 0 then ShotState(st.shots.inProgress, snap, snap) else st.shots;
    SameKeysComparable(before.last, snap);
    var (shots, pot) := ShotTick(cfg.dist, before, snap);
    (TrackerState(kps, st.counter, shots, snap), pot)
  }

  /** process_image: a sampling image runs SampleStep, any other image only
      tracks the known balls; the counter always moves on. */
  function Step(cfg: Config, st: TrackerState, frame: Frame): (r: (TrackerState, Pot))
    requires Consistent(cfg, st)
    ensures Consistent(cfg, r.0) && r.0.counter == st.counter + 1
  {
    if IsTick(st.counter) then
      var (next, pot) := SampleStep(cfg, st, frame);
      (next.(counter := st.counter + 1), pot)
    else
      TrackKeepsBallCount(cfg.dist, st.keypoints, frame.blobs);
      (st.(keypoints := Track(cfg.dist, st.keypoints, frame.blobs), counter := st.counter + 1), Pot(None, 0))
  }

  /** On a sampling image, Step is SampleStep with the counter moved on. */
  lemma SamplingStep(cfg: Config, st: TrackerState, frame: Frame)
    requires Consistent(cfg, st) && IsTick(st.counter)
    ensures Step(cfg, st, frame) ==
              (SampleStep(cfg, st, frame).0.(counter := st.counter + 1), SampleStep(cfg, st, frame).1)
  {
  }

  /** Between sampling images the shot snapshots and the temporary snapshot are
      left alone, no pot is reported, and the balls keep their number. */
  lemma BetweenSamplesOnlyTracking(cfg: Config, st: TrackerState, frame: Frame)
    requires Consistent(cfg, st) && !IsTick(st.counter)
    ensures Step(cfg, st, frame).0.shots == st.shots && Step(cfg, st, frame).0.temp == st.temp
    ensures Step(cfg, st, frame).1 == Pot(None, 0)
    ensures TotalBalls(Step(cfg, st, frame).0.keypoints) == TotalBalls(st.keypoints)
  {
    TrackKeepsBallCount(cfg.dist, st.keypoints, frame.blobs);
  }

  /** The first image never reports a pot: its last-shot snapshot is the
      temporary snapshot itself. */
  lemma FirstImageReportsNoPot(cfg: Config, st: TrackerState, frame: Frame)
    requires Consistent(cfg, st) && st.counter == 0
    ensures Step(cfg, st, frame).1 == Pot(None, 0)
  {
    NoPotAgainstCopy(FromDict(Detect(cfg, frame), cfg.whiteOf));
  }

  /** A pot is reported only on a sampling image that finishes the shot in
      progress: the tracker is idle afterwards and its last-shot snapshot is the
      current-shot snapshot from before the image. */
  lemma PotOnlyWhenShotFinishes(cfg: Config, st: TrackerState, frame: Frame)
    requires Consistent(cfg, st) && st.counter > 0
    ensures Step(cfg, st, frame).1.potted.Some? ==>
              && IsTick(st.counter)
              && !Step(cfg, st, frame).0.shots.inProgress
              && Step(cfg, st, frame).0.shots.last == st.shots.cur
              && var snap := FromDict(Detect(cfg, frame), cfg.whiteOf);
                 (st.shots.inProgress || HasShotStarted(cfg.dist, snap, st.shots.cur)) &&
                 HasShotFinished(cfg.dist, snap, st.shots.cur)
  {
  }

  class BallTracker {
    const settings: Settings
    const dist: Distance
    const test: PolygonTest
    const area: ContourArea
    const whiteOf: WhiteSlot
    const lastShot: SnapShot
    const curShot: SnapShot
    const temp: SnapShot
    var keypoints: Keypoints
    var imageCounter: nat
    var shotInProgress: bool

    function Cfg(): Config
    {
      Config(settings, dist, test, area, whiteOf)
    }

    /** The value the tracker holds. */
    function State(): TrackerState
      reads this, lastShot, curShot, temp
    {
      TrackerState(keypoints, imageCounter, Shots(), temp.Value())
    }

    /** The shot lifecycle's view of the tracker. */
    function Shots(): ShotState
      reads this`shotInProgress, lastShot, curShot
    {
      ShotState(shotInProgress, lastShot.Value(), curShot.Value())
    }

    ghost predicate Valid()
      reads this, lastShot, curShot, temp
    {
      && lastShot != curShot && curShot != temp && lastShot != temp
      && Consistent(Cfg(), State())
    }

    constructor (settings: Settings, dist: Distance, test: PolygonTest, area: ContourArea, whiteOf: WhiteSlot)
      requires DistinctColours(settings) && WHITE in Names(settings) && PicksAWhiteBall(whiteOf)
      ensures Valid() && Cfg() == Config(settings, dist, test, area, whiteOf)
      ensures keypoints == [] && imageCounter == 0 && !shotInProgress
    {
      this.settings, this.dist, this.test, this.area, this.whiteOf := settings, dist, test, area, whiteOf;
      lastShot := new SnapShot(Names(settings));
      curShot := new SnapShot(Names(settings));
      temp := new SnapShot(Names(settings));
      keypoints := [];
      imageCounter := 0;
      shotInProgress := false;
    }

    /** process_image without its drawing: returns the colour potted, if any,
        and how many balls of it. */
    method ProcessImage(frame: Frame) returns (ballPotted: Option<Colour>, potCount: int)
      requires Valid()
      modifies this, lastShot, curShot, temp
      ensures Valid()
      ensures (State(), Pot(ballPotted, potCount)) == Step(Cfg(), old(State()), frame)
    {
      if imageCounter == 0 || imageCounter % SAMPLING_INTERVAL == 0 {
        ballPotted, potCount := SamplingImage(frame);
      } else {
        ballPotted, potCount := TrackingImage(frame);
      }
    }

    /** process_image on any other image: the known balls are only tracked. */
    method TrackingImage(frame: Frame) returns (ballPotted: Option<Colour>, potCount: int)
      requires Valid() && !IsTick(imageCounter)
      modifies this`keypoints, this`imageCounter
      ensures Valid()
      ensures (State(), Pot(ballPotted, potCount)) == Step(Cfg(), old(State()), frame)
    {
      ghost var after := Step(Cfg(), State(), frame);
      var tracked := UpdateBalls(dist, keypoints, frame.blobs);
      keypoints, imageCounter := tracked, imageCounter + 1;
      ballPotted, potCount := None, 0;
      assert State() == after.0;
    }

    /** process_image on a sampling image (image 0 is one): colour detection,
        the first snapshots on image 0, then the snapshot phase. */
    method SamplingImage(frame: Frame) returns (ballPotted: Option<Colour>, potCount: int)
      requires Valid() && IsTick(imageCounter)
      modifies this`keypoints, this`shotInProgress, this`imageCounter, lastShot, curShot, temp
      ensures Valid()
      ensures (State(), Pot(ballPotted, potCount)) == Step(Cfg(), old(State()), frame)
    {
      ghost var st := State();
      ghost var sampled := SampleStep(Cfg(), st, frame);
      SamplingStep(Cfg(), st, frame);
      keypoints := PerformColourDetection(settings, frame.blobs, frame.maskContours, test, area);
      assert keypoints == sampled.0.keypoints;
      if imageCounter == 0 {
        curShot.AssignBallsFromDict(keypoints, whiteOf);
        lastShot.AssignBallsFromDict(keypoints, whiteOf);
      }
      assert Shots() == if st.counter == 0 then ShotState(st.shots.inProgress, FromDict(keypoints, whiteOf), FromDict(keypoints, whiteOf))
                        else st.shots;
      ballPotted, potCount := CompareSnapshots();
      assert (Shots(), Pot(ballPotted, potCount)) == (sampled.0.shots, sampled.1);
      imageCounter := imageCounter + 1;
      assert State() == sampled.0.(counter := st.counter + 1);
    }

    /** The snapshot phase of process_image: rebuild the temporary snapshot from
        the current dictionary, advance the shot lifecycle against the
        current-shot snapshot, then make the temporary snapshot the current one. */
    method CompareSnapshots() returns (ballPotted: Option<Colour>, potCount: int)
      requires lastShot != curShot && curShot != temp && lastShot != temp
      requires lastShot.Valid() && curShot.Valid() && WHITE in Colours(keypoints)
      requires Colours(lastShot.colours) == Colours(keypoints) && PicksAWhiteBall(whiteOf)
      modifies this`shotInProgress, lastShot, curShot, temp
      ensures temp.Value() == FromDict(keypoints, whiteOf) && TickReady(old(Shots()), temp.Value())
      ensures (Shots(), Pot(ballPotted, potCount)) == ShotTick(dist, old(Shots()), temp.Value())
    {
      temp.AssignBallsFromDict(keypoints, whiteOf);
      var snap := temp.Value();
      SameKeysComparable(lastShot.Value(), snap);
      ballPotted, potCount := AdvanceShot(snap);
      curShot.AssignBallsFromSnapshot(temp);
    }

    /** Start the shot when the white has moved, or finish the shot in progress
        when it has stopped: report the pot against the last-shot snapshot and
        make the current-shot snapshot the last one. */
    method AdvanceShot(snap: Snap) returns (ballPotted: Option<Colour>, potCount: int)
      requires lastShot != curShot && TickReady(Shots(), snap)
      modifies this`shotInProgress, lastShot, curShot`white
      ensures var (next, pot) := ShotTick(dist, old(Shots()), snap);
              shotInProgress == next.inProgress && lastShot.Value() == next.last && Pot(ballPotted, potCount) == pot
      ensures var started := old(shotInProgress) || HasShotStarted(dist, snap, old(curShot.Value()));
              curShot.white == if started && old(curShot.white).Some? && snap.white.Some?
                               then Some(old(curShot.white).value.(isMoving := snap.white.value.isMoving))
                               else old(curShot.white)
    {
      ballPotted, potCount := None, 0;
      var cur := curShot.Value();
      if !shotInProgress {
        shotInProgress := HasShotStarted(dist, snap, cur);
      }
      if shotInProgress {
        if HasShotFinished(dist, snap, cur) {
          ballPotted, potCount := ScanPots(lastShot.Value(), snap);
          lastShot.AssignBallsFromSnapshot(curShot);
          shotInProgress := false;
        }
        if curShot.white.Some? && snap.white.Some? {
          curShot.white := Some(curShot.white.value.(isMoving := snap.white.value.isMoving));
        }
      }
    }
  }
}
