/** Identity continuity between two colour-detection passes: each blob seen in
    the current frame takes over the slot of the first known ball close to it
    (ball_tracker.py, update_balls). */
module Continuity {
  import opened Types

  /** Two blobs no further apart than this (in ball diameters) are the same ball. */
  const SAME_BALL_DISTANCE: real := 0.3

  predicate Near(dist: Distance, observed: KeyPoint, known: KeyPoint)
  {
    dist(observed, known) <= SAME_BALL_DISTANCE
  }

  /** Index of the first ball of `balls` that `observed` is near, if any. */
  function FirstNear(dist: Distance, observed: KeyPoint, balls: seq<KeyPoint>): (r: Option<nat>)
    ensures r.Some? ==> r.value < |balls| && Near(dist, observed, balls[r.value])
    ensures r.Some? ==> forall j :: 0 <= j < r.value ==> !Near(dist, observed, balls[j])
    ensures r.None? ==> forall j :: 0 <= j < |balls| ==> !Near(dist, observed, balls[j])
  {
    if balls == [] then None
    else if Near(dist, observed, balls[0]) then Some(0)
    else match FirstNear(dist, observed, balls[1..])
      case None => None
      case Some(j) => Some(j + 1)
  }

  /** The slot (key position, list index) that `observed` takes over: the first
      known ball it is near, scanning the keys in enumeration order and each
      list in order. None when it is near no known ball. */
  function MatchSlot(dist: Distance, observed: KeyPoint, ks: Keypoints): (r: Option<(nat, nat)>)
    ensures r.Some? ==> r.value.0 < |ks| && r.value.1 < |ks[r.value.0].balls|
    ensures r.Some? ==> Near(dist, observed, ks[r.value.0].balls[r.value.1])
    ensures r.Some? ==> forall c, j :: 0 <= c < r.value.0 && 0 <= j < |ks[c].balls| ==>
                          !Near(dist, observed, ks[c].balls[j])
    ensures r.Some? ==> forall j :: 0 <= j < r.value.1 ==> !Near(dist, observed, ks[r.value.0].balls[j])
    ensures r.None? ==> forall c, j :: 0 <= c < |ks| && 0 <= j < |ks[c].balls| ==>
                          !Near(dist, observed, ks[c].balls[j])
  {
    if ks == [] then None
    else match FirstNear(dist, observed, ks[0].balls)
      case Some(i) => Some((0, i))
      case None =>
        match MatchSlot(dist, observed, ks[1..])
        case None => None
        case Some((c, i)) => Some((c + 1, i))
  }

  /** The dictionary after one observed blob has been placed. */
  function PlaceBall(dist: Distance, ks: Keypoints, observed: KeyPoint): (r: Keypoints)
    ensures SameShape(r, ks)
  {
    match MatchSlot(dist, observed, ks)
    case None => ks
    case Some((c, i)) => ks[c := ks[c].(balls := ks[c].balls[i := observed])]
  }

  /** The dictionary after every observed blob has been placed, in detection order. */
  function Track(dist: Distance, ks: Keypoints, observed: seq<KeyPoint>): (r: Keypoints)
    ensures SameShape(r, ks)
  {
    if observed == [] then ks
    else PlaceBall(dist, Track(dist, ks, observed[..|observed| - 1]), observed[|observed| - 1])
  }

  /** update_balls: nested scans with a `matched` flag, overwriting one slot per
      observed blob at most. */
  method UpdateBalls(dist: Distance, balls: Keypoints, curBalls: seq<KeyPoint>) returns (r: Keypoints)
    ensures r == Track(dist, balls, curBalls)
  {
    r := balls;
    for k := 0 to |curBalls|
      invariant r == Track(dist, balls, curBalls[..k])
    {
      var curBall := curBalls[k];
      ghost var before := r;
      var matched := false;
      var c := 0;
      while c < |r| && !matched
        invariant 0 <= c <= |r| == |before|
        invariant !matched ==> r == before
        invariant !matched ==> forall c', j :: 0 <= c' < c && 0 <= j < |before[c'].balls| ==>
                                 !Near(dist, curBall, before[c'].balls[j])
        invariant matched ==> r == PlaceBall(dist, before, curBall)
      {
        var list := r[c].balls;
        var i := 0;
        while i < |list|
          invariant 0 <= i <= |list|
          invariant forall j :: 0 <= j < i ==> !Near(dist, curBall, list[j])
        {
          if dist(curBall, list[i]) <= SAME_BALL_DISTANCE {
            MatchSlotIsFirst(dist, curBall, before, c, i);
            r := r[c := r[c].(balls := list[i := curBall])];
            matched := true;
            break;
          }
          i := i + 1;
        }
        c := c + 1;
      }
      assert curBalls[..k + 1][..k] == curBalls[..k];
    }
    assert curBalls[..|curBalls|] == curBalls;
  }

  /** A slot that is near and preceded by no near slot is the one MatchSlot picks. */
  lemma MatchSlotIsFirst(dist: Distance, observed: KeyPoint, ks: Keypoints, c: nat, i: nat)
    requires c < |ks| && i < |ks[c].balls| && Near(dist, observed, ks[c].balls[i])
    requires forall c', j :: 0 <= c' < c && 0 <= j < |ks[c'].balls| ==> !Near(dist, observed, ks[c'].balls[j])
    requires forall j :: 0 <= j < i ==> !Near(dist, observed, ks[c].balls[j])
    ensures MatchSlot(dist, observed, ks) == Some((c, i))
  {
  }

  /** An observed blob near no known ball leaves the dictionary as it was. */
  lemma UnmatchedBlobChangesNothing(dist: Distance, ks: Keypoints, observed: KeyPoint)
    requires forall c, j :: 0 <= c < |ks| && 0 <= j < |ks[c].balls| ==> !Near(dist, observed, ks[c].balls[j])
    ensures PlaceBall(dist, ks, observed) == ks
  {
  }

  /** A matched observed blob replaces exactly the first near known ball (first
      match, not best match) and every other slot keeps its ball. */
  lemma MatchedBlobReplacesFirstNear(dist: Distance, ks: Keypoints, observed: KeyPoint, c: nat, i: nat)
    requires c < |ks| && i < |ks[c].balls| && Near(dist, observed, ks[c].balls[i])
    requires forall c', j :: 0 <= c' < c && 0 <= j < |ks[c'].balls| ==> !Near(dist, observed, ks[c'].balls[j])
    requires forall j :: 0 <= j < i ==> !Near(dist, observed, ks[c].balls[j])
    ensures PlaceBall(dist, ks, observed)[c].balls[i] == observed
    ensures forall c', j :: 0 <= c' < |ks| && 0 <= j < |ks[c'].balls| && (c', j) != (c, i) ==>
              PlaceBall(dist, ks, observed)[c'].balls[j] == ks[c'].balls[j]
  {
    MatchSlotIsFirst(dist, observed, ks, c, i);
  }

  /** Tracking neither adds nor removes balls: every key stays, in order, and
      the total number of balls is unchanged. */
  lemma TrackKeepsBallCount(dist: Distance, ks: Keypoints, observed: seq<KeyPoint>)
    ensures Colours(Track(dist, ks, observed)) == Colours(ks)
    ensures TotalBalls(Track(dist, ks, observed)) == TotalBalls(ks)
  {
    var r := Track(dist, ks, observed);
    SameLengthsSameTotal(ks, r);
  }
}
