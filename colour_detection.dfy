/** Colour assignment: every blob of a detection pass goes to the first enabled
    colour, in ascending ORDER, whose mask region holds it, or is discarded
    (ball_tracker.py, perform_colour_detection, __keypoint_is_ball and
    __keypoint_in_contour). */
module ColourDetection {
  import opened Types

  /** One entry of the BALL_COLOURS setting: the colour, its DETECT flag and its ORDER. */
  datatype ColourSetting = ColourSetting(colour: Colour, detect: bool, order: int)

  /** BALL_COLOURS, in the order the settings dictionary enumerates its keys. */
  type Settings = seq<ColourSetting>

  /** Dictionary keys are distinct. */
  predicate DistinctColours(settings: Settings)
  {
    forall p, q :: 0 <= p < q < |settings| ==> settings[p].colour != settings[q].colour
  }

  function Names(settings: Settings): (cs: seq<Colour>)
    ensures |cs| == |settings|
    ensures forall p :: 0 <= p < |settings| ==> cs[p] == settings[p].colour
  {
    seq(|settings|, p requires 0 <= p < |settings| => settings[p].colour)
  }

  // ---------------------------------------------------------------------------
  // The detection order: sorted(BALL_COLOURS, key=ORDER)

  /** Position `p` of the settings precedes position `q` once the keys are sorted
      by ORDER; the sort is stable, so equal ORDERs keep dictionary order. */
  predicate Before(settings: Settings, p: nat, q: nat)
    requires p < |settings| && q < |settings|
  {
    settings[p].order < settings[q].order || (settings[p].order == settings[q].order && p < q)
  }

  predicate Positions(settings: Settings, s: seq<nat>)
  {
    forall k :: 0 <= k < |s| ==> s[k] < |settings|
  }

  predicate InDetectionOrder(settings: Settings, s: seq<nat>)
    requires Positions(settings, s)
  {
    forall k, m :: 0 <= k < m < |s| ==> Before(settings, s[k], s[m])
  }

  /** Insertion of one more position into an already sorted run. */
  function Insert(settings: Settings, p: nat, s: seq<nat>): (r: seq<nat>)
    requires p < |settings| && p !in s
    requires Positions(settings, s) && InDetectionOrder(settings, s)
    ensures |r| == |s| + 1
    ensures forall x :: x in r <==> x == p || x in s
    ensures Positions(settings, r) && InDetectionOrder(settings, r)
  {
    if s == [] then [p]
    else if Before(settings, p, s[0]) then [p] + s
    else
      var t := Insert(settings, p, s[1..]);
      assert forall k :: 0 <= k < |t| ==> t[k] == p || t[k] in s[1..];
      [s[0]] + t
  }

  /** The first `n` settings positions, sorted. */
  function SortPositions(settings: Settings, n: nat): (r: seq<nat>)
    requires n <= |settings|
    ensures |r| == n
    ensures forall x :: x in r <==> 0 <= x < n
    ensures Positions(settings, r) && InDetectionOrder(settings, r)
  {
    if n == 0 then [] else Insert(settings, n - 1, SortPositions(settings, n - 1))
  }

  /** The settings positions in the order the colours are tried. */
  function DetectionOrder(settings: Settings): (r: seq<nat>)
    ensures |r| == |settings|
    ensures forall p :: p in r <==> 0 <= p < |settings|
    ensures Positions(settings, r) && InDetectionOrder(settings, r)
  {
    SortPositions(settings, |settings|)
  }

  // ---------------------------------------------------------------------------
  // Region tests

  /** __keypoint_in_contour: only a point strictly inside counts; the edge does not. */
  function KeypointInContour(test: PolygonTest, kp: KeyPoint, contour: Contour): (r: bool)
    ensures r <==> test(contour, kp.pt) > 0
    ensures test(contour, kp.pt) == 0 ==> !r
  {
    test(contour, kp.pt) == 1
  }

  /** Position of the contour that max(contours, key=contourArea) returns: the
      first one of largest area. */
  function Biggest(area: ContourArea, contours: seq<Contour>): (r: nat)
    requires |contours| > 0
    ensures r < |contours|
    ensures forall j :: 0 <= j < |contours| ==> area(contours[j]) <= area(contours[r])
    ensures forall j :: 0 <= j < r ==> area(contours[j]) < area(contours[r])
  {
    var n := |contours| - 1;
    if n == 0 then 0
    else
      var m := Biggest(area, contours[..n]);
      if area(contours[n]) > area(contours[m]) then n else m
  }

  /** What __keypoint_is_ball answers: with the biggest-contour policy and
      several contours, only the biggest is tried; otherwise any contour holds. */
  predicate InRegion(test: PolygonTest, area: ContourArea, contours: seq<Contour>, kp: KeyPoint, biggestContour: bool)
  {
    if |contours| > 1 && biggestContour then KeypointInContour(test, kp, contours[Biggest(area, contours)])
    else exists j :: 0 <= j < |contours| && KeypointInContour(test, kp, contours[j])
  }

  /** The dictionary with `kp` appended to the list of `colour`. */
  function AppendBall(balls: Keypoints, colour: Colour, kp: KeyPoint): (r: Keypoints)
  {
    seq(|balls|, q requires 0 <= q < |balls| =>
      if balls[q].colour == colour then Entry(colour, balls[q].balls + [kp]) else balls[q])
  }

  /** __keypoint_is_ball: tests `kp` against the contours of `colour` and appends
      it to that colour's list when it is inside. */
  method KeypointIsBall(test: PolygonTest, area: ContourArea, colour: Colour, colourContours: seq<Contour>,
                        kp: KeyPoint, balls: Keypoints, biggestContour: bool)
    returns (found: bool, balls': Keypoints)
    requires colour in Colours(balls)
    ensures found == InRegion(test, area, colourContours, kp, biggestContour)
    ensures balls' == if found then AppendBall(balls, colour, kp) else balls
  {
    balls' := balls;
    if |colourContours| > 1 && biggestContour {
      var colourContour := colourContours[Biggest(area, colourContours)];
      if test(colourContour, kp.pt) == 1 {
        balls' := AppendBall(balls, colour, kp);
        return true, balls';
      }
    } else {
      var j := 0;
      while j < |colourContours|
        invariant 0 <= j <= |colourContours|
        invariant forall m :: 0 <= m < j ==> !KeypointInContour(test, kp, colourContours[m])
      {
        if test(colourContours[j], kp.pt) == 1 {
          balls' := AppendBall(balls, colour, kp);
          return true, balls';
        }
        j := j + 1;
      }
    }
    return false, balls';
  }

  // ---------------------------------------------------------------------------
  // Assignment of blobs to colours

  /** What one detection pass works with: the colour settings, the contours found
      for each setting position (none for a colour that is not detected), and
      the image library's primitives. */
  datatype Scene = Scene(settings: Settings, regions: seq<seq<Contour>>, test: PolygonTest, area: ContourArea)
  {
    predicate WellFormed() { |regions| == |settings| }

    /** Setting position `p` takes `kp`: its colour is detected and its region holds `kp`. */
    predicate Accepts(p: nat, kp: KeyPoint)
      requires WellFormed() && p < |settings|
    {
      settings[p].detect && InRegion(test, area, regions[p], kp, false)
    }
  }

  /** The contours the detection pass collects: the mask contours of every
      detected colour, none for the others. */
  function ColourContours(settings: Settings, maskContours: Colour -> seq<Contour>): (regions: seq<seq<Contour>>)
    ensures |regions| == |settings|
  {
    seq(|settings|, p requires 0 <= p < |settings| =>
      if settings[p].detect then maskContours(settings[p].colour) else [])
  }

  /** Index, within `order`, of the first position that takes `kp`. */
  function FirstAccepting(sc: Scene, order: seq<nat>, kp: KeyPoint): (r: Option<nat>)
    requires sc.WellFormed() && Positions(sc.settings, order)
    ensures r.Some? ==> r.value < |order| && sc.Accepts(order[r.value], kp)
    ensures r.Some? ==> forall k :: 0 <= k < r.value ==> !sc.Accepts(order[k], kp)
    ensures r.None? ==> forall k :: 0 <= k < |order| ==> !sc.Accepts(order[k], kp)
  {
    if order == [] then None
    else if sc.Accepts(order[0], kp) then Some(0)
    else match FirstAccepting(sc, order[1..], kp)
      case None => None
      case Some(k) => Some(k + 1)
  }

  /** The settings position `kp` is assigned to, None when it is discarded. */
  function Classify(sc: Scene, kp: KeyPoint): (r: Option<nat>)
    requires sc.WellFormed()
    ensures r.Some? ==> r.value < |sc.settings| && sc.Accepts(r.value, kp)
  {
    var order := DetectionOrder(sc.settings);
    match FirstAccepting(sc, order, kp)
    case None => None
    case Some(k) => Some(order[k])
  }

  /** The blobs of `kps` assigned to settings position `p`, in detection order. */
  function Assigned(sc: Scene, kps: seq<KeyPoint>, p: nat): (r: seq<KeyPoint>)
    requires sc.WellFormed()
  {
    if kps == [] then []
    else
      var last := kps[|kps| - 1];
      Assigned(sc, kps[..|kps| - 1], p) + if Classify(sc, last) == Some(p) then [last] else []
  }

  /** The dictionary a detection pass returns: one key per colour setting, in
      settings order, each with the blobs assigned to it. */
  function Detection(sc: Scene, kps: seq<KeyPoint>): (r: Keypoints)
    requires sc.WellFormed()
    ensures Colours(r) == Names(sc.settings)
  {
    seq(|sc.settings|, p requires 0 <= p < |sc.settings| => Entry(sc.settings[p].colour, Assigned(sc, kps, p)))
  }

  /** perform_colour_detection, given the blobs the detector found and the
      contours the colour masks give. */
  method PerformColourDetection(settings: Settings, keypoints: seq<KeyPoint>, maskContours: Colour -> seq<Contour>,
                                test: PolygonTest, area: ContourArea)
    returns (balls: Keypoints)
    requires DistinctColours(settings)
    ensures balls == Detection(Scene(settings, ColourContours(settings, maskContours), test, area), keypoints)
  {
    balls := seq(|settings|, p requires 0 <= p < |settings| => Entry(settings[p].colour, []));
    var colourContours := CollectContours(settings, maskContours);
    var sc := Scene(settings, colourContours, test, area);
    var colours := DetectionOrder(settings);
    EmptyDetection(sc, keypoints);
    for k := 0 to |keypoints|
      invariant balls == Detection(sc, keypoints[..k])
    {
      assert keypoints[..k + 1] == keypoints[..k] + [keypoints[k]];
      DetectionStep(sc, keypoints[..k], keypoints[k]);
      balls := AssignKeypoint(sc, colours, keypoints[k], balls);
    }
    assert keypoints[..|keypoints|] == keypoints;
  }

  /** Before any blob is assigned, every colour has an empty list. */
  lemma EmptyDetection(sc: Scene, kps: seq<KeyPoint>)
    requires sc.WellFormed()
    ensures Detection(sc, kps[..0]) ==
              seq(|sc.settings|, p requires 0 <= p < |sc.settings| => Entry(sc.settings[p].colour, []))
  {
    assert kps[..0] == [];
  }

  /** The loop of perform_colour_detection that collects the contours of every
      detected colour. */
  method CollectContours(settings: Settings, maskContours: Colour -> seq<Contour>)
    returns (colourContours: seq<seq<Contour>>)
    ensures colourContours == ColourContours(settings, maskContours)
  {
    colourContours := seq(|settings|, p => []);
    for p := 0 to |settings|
      invariant |colourContours| == |settings|
      invariant forall q :: 0 <= q < |settings| ==>
                  colourContours[q] == if q < p && settings[q].detect then maskContours(settings[q].colour) else []
    {
      if settings[p].detect {
        colourContours := colourContours[p := maskContours(settings[p].colour)];
      }
    }
  }

  /** The inner loop of perform_colour_detection: the colours are tried in
      detection order, skipping those not detected, until one takes the blob. */
  method AssignKeypoint(sc: Scene, colours: seq<nat>, keypoint: KeyPoint, balls: Keypoints)
    returns (balls': Keypoints)
    requires sc.WellFormed() && colours == DetectionOrder(sc.settings)
    requires Colours(balls) == Names(sc.settings)
    ensures balls' == match Classify(sc, keypoint)
                      case None => balls
                      case Some(p) => AppendBall(balls, sc.settings[p].colour, keypoint)
  {
    balls' := balls;
    var j := 0;
    while j < |colours|
      invariant 0 <= j <= |colours|
      invariant balls' == balls
      invariant forall m :: 0 <= m < j ==> !sc.Accepts(colours[m], keypoint)
    {
      var p := colours[j];
      if sc.settings[p].detect {
        var found;
        assert Colours(balls)[p] == sc.settings[p].colour;
        found, balls' := KeypointIsBall(sc.test, sc.area, sc.settings[p].colour, sc.regions[p], keypoint, balls', false);
        if found {
          assert FirstAccepting(sc, colours, keypoint) == Some(j);
          return;
        }
      }
      j := j + 1;
    }
  }

  /** One more blob changes the dictionary only under the colour it is assigned to. */
  lemma DetectionStep(sc: Scene, kps: seq<KeyPoint>, kp: KeyPoint)
    requires sc.WellFormed() && DistinctColours(sc.settings)
    ensures Detection(sc, kps + [kp]) ==
              match Classify(sc, kp)
              case None => Detection(sc, kps)
              case Some(p) => AppendBall(Detection(sc, kps), sc.settings[p].colour, kp)
  {
    var a, b := Detection(sc, kps + [kp]), Detection(sc, kps);
    assert (kps + [kp])[..|kps|] == kps;
    forall q | 0 <= q < |sc.settings|
      ensures a[q].balls == b[q].balls + if Classify(sc, kp) == Some(q) then [kp] else []
    {
    }
    match Classify(sc, kp)
    case None =>
      forall q | 0 <= q < |sc.settings|
        ensures a[q] == b[q]
      {
      }
      assert a == b;
    case Some(p) =>
      var c := AppendBall(b, sc.settings[p].colour, kp);
      forall q | 0 <= q < |sc.settings|
        ensures a[q] == c[q]
      {
        if q != p {
          assert sc.settings[q].colour != sc.settings[p].colour;
        }
      }
      assert a == c;
  }

  // ---------------------------------------------------------------------------
  // Properties of the assignment

  /** A blob goes to an enabled colour whose region holds it, and no enabled
      colour whose region holds it comes earlier in ascending ORDER (equal
      ORDERs in dictionary order); a discarded blob is held by no enabled colour. */
  lemma ClassifyIsFirstEnabledMatch(sc: Scene, kp: KeyPoint)
    requires sc.WellFormed()
    ensures Classify(sc, kp).Some? ==> Classify(sc, kp).value < |sc.settings| && sc.Accepts(Classify(sc, kp).value, kp)
    ensures Classify(sc, kp).Some? ==>
              forall q :: 0 <= q < |sc.settings| && q != Classify(sc, kp).value && sc.Accepts(q, kp) ==>
                Before(sc.settings, Classify(sc, kp).value, q)
    ensures Classify(sc, kp).None? <==> forall q :: 0 <= q < |sc.settings| ==> !sc.Accepts(q, kp)
  {
    var order := DetectionOrder(sc.settings);
    var first := FirstAccepting(sc, order, kp);
    forall q | 0 <= q < |sc.settings| && sc.Accepts(q, kp)
      ensures first.Some? && (q == order[first.value] || Before(sc.settings, order[first.value], q))
    {
      assert q in order;
      var m :| 0 <= m < |order| && order[m] == q;
      assert first.Some?;
      if m != first.value {
        assert first.value < m;
      }
    }
  }

  /** A colour whose DETECT flag is off always ends with an empty list. */
  lemma {:induction false} DisabledColourStaysEmpty(sc: Scene, kps: seq<KeyPoint>, p: nat)
    requires sc.WellFormed() && p < |sc.settings| && !sc.settings[p].detect
    ensures Detection(sc, kps)[p].balls == []
  {
    if kps != [] {
      DisabledColourStaysEmpty(sc, kps[..|kps| - 1], p);
      ClassifyIsFirstEnabledMatch(sc, kps[|kps| - 1]);
    }
  }

  /** Every blob in a colour's list was assigned to that colour. */
  lemma {:induction false} ListedOnlyIfAssigned(sc: Scene, kps: seq<KeyPoint>, p: nat, kp: KeyPoint)
    requires sc.WellFormed() && p < |sc.settings|
    requires kp in Detection(sc, kps)[p].balls
    ensures Classify(sc, kp) == Some(p)
  {
    var n := |kps| - 1;
    if kp in Assigned(sc, kps[..n], p) {
      ListedOnlyIfAssigned(sc, kps[..n], p, kp);
    }
  }

  /** So one blob lies in the list of one colour at most. */
  lemma ListedUnderOneColour(sc: Scene, kps: seq<KeyPoint>, p: nat, q: nat, kp: KeyPoint)
    requires sc.WellFormed() && p < |sc.settings| && q < |sc.settings|
    requires kp in Detection(sc, kps)[p].balls && kp in Detection(sc, kps)[q].balls
    ensures p == q
  {
    ListedOnlyIfAssigned(sc, kps, p, kp);
    ListedOnlyIfAssigned(sc, kps, q, kp);
  }

  /** The number of blobs that some colour takes. */
  function ClassifiedCount(sc: Scene, kps: seq<KeyPoint>): (n: nat)
    requires sc.WellFormed()
    ensures n <= |kps|
  {
    if kps == [] then 0
    else ClassifiedCount(sc, kps[..|kps| - 1]) + if Classify(sc, kps[|kps| - 1]).Some? then 1 else 0
  }

  /** All lists together hold exactly the blobs some colour took, so never more
      balls than the detector found blobs. */
  lemma {:induction false} DetectionNeverAddsBalls(sc: Scene, kps: seq<KeyPoint>)
    requires sc.WellFormed()
    ensures TotalBalls(Detection(sc, kps)) == ClassifiedCount(sc, kps) <= |kps|
  {
    var b := Detection(sc, kps);
    if kps == [] {
      ZeroTotal(b);
    } else {
      var n := |kps| - 1;
      DetectionNeverAddsBalls(sc, kps[..n]);
      var a := Detection(sc, kps[..n]);
      forall q | 0 <= q < |sc.settings|
        ensures b[q].balls == a[q].balls + if Classify(sc, kps[n]) == Some(q) then [kps[n]] else []
      {
      }
      match Classify(sc, kps[n])
      case None =>
        SameLengthsSameTotal(a, b);
      case Some(p) =>
        OneMoreBall(a, b, p);
    }
  }

  /** Within a colour, blobs keep detection order: the blobs of an earlier part
      of the detection come before those of a later part. */
  lemma {:induction false} AssignedKeepsDetectionOrder(sc: Scene, a: seq<KeyPoint>, b: seq<KeyPoint>, p: nat)
    requires sc.WellFormed()
    ensures Assigned(sc, a + b, p) == Assigned(sc, a, p) + Assigned(sc, b, p)
  {
    if b == [] {
      assert a + b == a;
    } else {
      var n := |b| - 1;
      AssignedKeepsDetectionOrder(sc, a, b[..n], p);
      assert (a + b)[..|a + b| - 1] == a + b[..n] && (a + b)[|a + b| - 1] == b[n];
      var tail := if Classify(sc, b[n]) == Some(p) then [b[n]] else [];
      assert Assigned(sc, a + b, p) == Assigned(sc, a + b[..n], p) + tail;
      assert Assigned(sc, b, p) == Assigned(sc, b[..n], p) + tail;
    }
  }
}
