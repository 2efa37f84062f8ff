/** The rules that decide, from two snapshots, whether a shot has started or
    finished and what was potted (ball_tracker.py, has_ball_moved,
    has_ball_stopped, has_shot_started, has_shot_finished and the pot scan of
    process_image). */
module ShotRules {
  import opened Types
  import opened Snapshots

  /** A ball that moved more than this (in ball diameters) between two snapshots is moving. */
  const MOVED_DISTANCE: real := 0.1

  /** has_ball_stopped: the ball has not moved further than the threshold, and
      a ball exactly at the threshold has stopped. */
  function HasBallStopped(dist: Distance, first: KeyPoint, second: KeyPoint): (r: bool)
    ensures r <==> !(dist(first, second) > MOVED_DISTANCE)
    ensures dist(first, second) == MOVED_DISTANCE ==> r
  {
    dist(first, second) <= MOVED_DISTANCE
  }

  /** has_ball_moved: exactly when the ball has not stopped. */
  function HasBallMoved(dist: Distance, first: KeyPoint, second: KeyPoint): (r: bool)
    ensures r == !HasBallStopped(dist, first, second)
  {
    dist(first, second) > MOVED_DISTANCE
  }

  /** Both snapshots have a white ball, and the white of `first` moved away from that of `second`. */
  predicate WhiteMoved(dist: Distance, first: Snap, second: Snap)
  {
    first.white.Some? && second.white.Some? &&
    HasBallMoved(dist, first.white.value.keypoint, second.white.value.keypoint)
  }

  /** Both snapshots have a white ball, and the white of `first` is where that of `second` was. */
  predicate WhiteStopped(dist: Distance, first: Snap, second: Snap)
  {
    first.white.Some? && second.white.Some? &&
    HasBallStopped(dist, first.white.value.keypoint, second.white.value.keypoint)
  }

  /** has_shot_started */
  function HasShotStarted(dist: Distance, first: Snap, second: Snap): (r: bool)
    requires first.Valid() && second.Valid()
    ensures first.WhiteCount() == 0 ==> !r
    ensures first.WhiteCount() != second.WhiteCount() ==> !r
    ensures r ==> WhiteMoved(dist, first, second)
    ensures first.WhiteCount() > 0 && first.WhiteCount() == second.WhiteCount() && WhiteMoved(dist, first, second) ==> r
  {
    if first.WhiteCount() > 0 then
      if first.WhiteCount() == second.WhiteCount() then
        if first.white.Some? && second.white.Some? then
          HasBallMoved(dist, first.white.value.keypoint, second.white.value.keypoint)
        else false
      else false
    else false
  }

  /** has_shot_finished */
  function HasShotFinished(dist: Distance, first: Snap, second: Snap): (r: bool)
    requires first.Valid() && second.Valid()
    ensures first.WhiteCount() == 0 ==> !r
    ensures first.WhiteCount() != second.WhiteCount() ==> !r
    ensures (first.WhiteCount() > 0 && first.WhiteCount() == second.WhiteCount() &&
             (first.white.None? || second.white.None?)) ==> r
    ensures first.white.Some? && second.white.Some? ==>
              (r <==> first.WhiteCount() > 0 && first.WhiteCount() == second.WhiteCount() &&
                      WhiteStopped(dist, first, second))
  {
    if first.WhiteCount() > 0 then
      if first.WhiteCount() == second.WhiteCount() then
        if first.white.Some? && second.white.Some? then
          HasBallStopped(dist, first.white.value.keypoint, second.white.value.keypoint)
        else true
      else false
    else false
  }

  /** The same pair of snapshots never both starts and finishes a shot. */
  lemma StartAndFinishExclude(dist: Distance, first: Snap, second: Snap)
    requires first.Valid() && second.Valid()
    ensures !(HasShotStarted(dist, first, second) && HasShotFinished(dist, first, second))
  {
  }

  // ---------------------------------------------------------------------------
  // The pot scan

  /** Every key of `last` can be looked up in `temp`. */
  predicate Comparable(last: Snap, temp: Snap)
  {
    last.Valid() && temp.Valid() &&
    forall k :: 0 <= k < |last.colours| ==> last.colours[k].colour in Colours(temp.colours)
  }

  /** The count difference of the `k`-th colour of `last`. */
  function Diff(last: Snap, temp: Snap, k: nat): int
    requires Comparable(last, temp) && k < |last.colours|
  {
    CompareBallDiff(last, last.colours[k].colour, temp)
  }

  /** The `k`-th colour of `last` is not white and has fewer balls in `temp`. */
  predicate Potted(last: Snap, temp: Snap, k: nat)
    requires Comparable(last, temp) && k < |last.colours|
  {
    last.colours[k].colour != WHITE && Diff(last, temp, k) > 0
  }

  /** No colour of `last` at a position in [lo, hi) is potted. */
  predicate NonePotted(last: Snap, temp: Snap, lo: nat, hi: nat)
    requires Comparable(last, temp) && hi <= |last.colours|
  {
    forall k :: lo <= k < hi ==> !Potted(last, temp, k)
  }

  /** Position of the last potted colour among the first `n` colours of `last`. */
  function LastPotted(last: Snap, temp: Snap, n: nat): (r: Option<nat>)
    requires Comparable(last, temp) && n <= |last.colours|
    ensures r.Some? ==> r.value < n && Potted(last, temp, r.value) && NonePotted(last, temp, r.value + 1, n)
    ensures r.None? ==> NonePotted(last, temp, 0, n)
  {
    if n == 0 then None
    else if Potted(last, temp, n - 1) then Some(n - 1)
    else
      var r := LastPotted(last, temp, n - 1);
      NonePottedGrows(last, temp, if r.Some? then r.value + 1 else 0, n - 1);
      r
  }

  lemma NonePottedGrows(last: Snap, temp: Snap, lo: nat, hi: nat)
    requires Comparable(last, temp) && hi < |last.colours|
    requires NonePotted(last, temp, lo, hi) && !Potted(last, temp, hi)
    ensures NonePotted(last, temp, lo, hi + 1)
  {
  }

  /** The pot a finished shot reports: a colour and how many of it went down. */
  datatype Pot = Pot(potted: Option<Colour>, count: int)

  /** The pot reported when `temp` is compared with `last`: the last colour, in
      the enumeration order of `last`, that is not white and lost balls. Only
      one colour is reported even when several lost balls. */
  function ReportedPot(last: Snap, temp: Snap): (r: Pot)
    requires Comparable(last, temp)
    ensures r.potted.None? ==> r.count == 0
    ensures r.potted.None? ==> forall k :: 0 <= k < |last.colours| ==> !Potted(last, temp, k)
    ensures r.potted.Some? ==> r.potted.value != WHITE
    ensures r.potted.Some? ==> r.potted.value in Colours(last.colours) && r.potted.value in Colours(temp.colours)
    ensures r.potted.Some? ==> r.count == CompareBallDiff(last, r.potted.value, temp) > 0
    ensures r.potted.Some? ==>
              exists k :: 0 <= k < |last.colours| && last.colours[k].colour == r.potted.value &&
                          forall m :: k < m < |last.colours| ==> !Potted(last, temp, m)
  {
    match LastPotted(last, temp, |last.colours|)
    case None => Pot(None, 0)
    case Some(k) => Pot(Some(last.colours[k].colour), Diff(last, temp, k))
  }

  /** The loop over the colours of `last` in process_image that finds the pot. */
  method ScanPots(last: Snap, temp: Snap) returns (ballPotted: Option<Colour>, potCount: int)
    requires Comparable(last, temp)
    ensures Pot(ballPotted, potCount) == ReportedPot(last, temp)
  {
    ballPotted, potCount := None, 0;
    for k := 0 to |last.colours|
      invariant Pot(ballPotted, potCount) ==
                  match LastPotted(last, temp, k)
                  case None => Pot(None, 0)
                  case Some(m) => Pot(Some(last.colours[m].colour), Diff(last, temp, m))
    {
      var ballColour := last.colours[k].colour;
      var count := CompareBallDiff(last, ballColour, temp);
      if ballColour != WHITE && count > 0 {
        ballPotted := Some(ballColour);
        potCount := count;
      }
    }
  }

  /** A reported pot counts at least one ball and never more balls than the
      last-shot snapshot had of that colour. */
  lemma PotCountBounded(last: Snap, temp: Snap)
    requires Comparable(last, temp) && ReportedPot(last, temp).potted.Some?
    ensures 0 < ReportedPot(last, temp).count <= last.Count(ReportedPot(last, temp).potted.value)
  {
  }

  /** A snapshot compared with a copy of itself reports no pot. */
  lemma NoPotAgainstCopy(s: Snap)
    requires s.Valid()
    ensures Comparable(s, s) && ReportedPot(s, s) == Pot(None, 0)
  {
  }

  /** When two colours lost balls in the same comparison, the earlier one in
      enumeration order is not reported. */
  lemma EarlierPotIsNotReported(last: Snap, temp: Snap, k1: nat, k2: nat)
    requires Comparable(last, temp) && DistinctKeys(last.colours)
    requires k1 < k2 < |last.colours| && Potted(last, temp, k1) && Potted(last, temp, k2)
    ensures ReportedPot(last, temp).potted.Some?
    ensures ReportedPot(last, temp).potted != Some(last.colours[k1].colour)
  {
    var r := LastPotted(last, temp, |last.colours|);
    assert r.Some? && r.value >= k2;
  }
}
