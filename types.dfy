/** Values shared by every part of the ball tracker: detected blobs, colour
    regions, and the colour-to-balls dictionaries the tracker passes around. */
module Types {

  datatype Option<+T> = None | Some(value: T)

  /** An image coordinate. */
  datatype Point = Point(x: real, y: real)

  /** A blob reported by the blob detector: its centre and its diameter. */
  datatype KeyPoint = KeyPoint(pt: Point, size: real)

  /** A closed polygon around one connected region of a colour mask. */
  datatype Contour = Contour(vertices: seq<Point>)

  /** A ball colour name, as used for the keys of the colour settings. */
  type Colour = string

  const WHITE: Colour := "WHITE"

  /** What a point-in-polygon test answers when it is not asked for a distance:
      1 strictly inside, 0 on the edge, -1 outside. */
  type PolygonSide = s: int | -1 <= s <= 1

  /** The distance between two blobs, normalised by their diameters. Its
      geometry is not part of this model: every operation takes it as given. */
  type Distance = (KeyPoint, KeyPoint) -> real

  /** The image library's point-in-polygon test. */
  type PolygonTest = (Contour, Point) -> PolygonSide

  /** The image library's contour area. */
  type ContourArea = Contour -> real

  /** One key of a colour-to-balls dictionary together with its list of balls. */
  datatype Entry = Entry(colour: Colour, balls: seq<KeyPoint>)

  /** A colour-to-balls dictionary. The order of the entries is the order in
      which the dictionary enumerates its keys. */
  type Keypoints = seq<Entry>

  /** The keys of a dictionary, in enumeration order. */
  function Colours(ks: Keypoints): (cs: seq<Colour>)
    ensures |cs| == |ks|
    ensures forall i :: 0 <= i < |ks| ==> cs[i] == ks[i].colour
  {
    seq(|ks|, i requires 0 <= i < |ks| => ks[i].colour)
  }

  /** No key occurs twice, as in every dictionary. */
  predicate DistinctKeys(ks: Keypoints)
  {
    forall i, j :: 0 <= i < j < |ks| ==> ks[i].colour != ks[j].colour
  }

  /** Position of the entry that a lookup by `c` finds. */
  function IndexOf(ks: Keypoints, c: Colour): (r: nat)
    requires c in Colours(ks)
    ensures r < |ks| && ks[r].colour == c
    ensures forall j :: 0 <= j < r ==> ks[j].colour != c
  {
    if ks[0].colour == c then 0 else 1 + IndexOf(ks[1..], c)
  }

  /** Number of balls over all colours. */
  function TotalBalls(ks: Keypoints): nat
  {
    if ks == [] then 0 else TotalBalls(ks[..|ks| - 1]) + |ks[|ks| - 1].balls|
  }

  /** `a` and `b` have the same keys in the same order and the same number of
      balls under every key; only the balls themselves may differ. */
  predicate SameShape(a: Keypoints, b: Keypoints)
  {
    |a| == |b| &&
    forall i :: 0 <= i < |a| ==> a[i].colour == b[i].colour && |a[i].balls| == |b[i].balls|
  }

  /** Adding one ball under key position `p` and nothing else adds one to the total. */
  lemma {:induction false} OneMoreBall(a: Keypoints, b: Keypoints, p: nat)
    requires |a| == |b| && p < |a|
    requires |b[p].balls| == |a[p].balls| + 1
    requires forall q :: 0 <= q < |a| && q != p ==> |b[q].balls| == |a[q].balls|
    ensures TotalBalls(b) == TotalBalls(a) + 1
  {
    var n := |a| - 1;
    if p == n {
      SameLengthsSameTotal(a[..n], b[..n]);
    } else {
      OneMoreBall(a[..n], b[..n], p);
    }
  }

  /** Totals depend only on the number of balls under each key position. */
  lemma {:induction false} SameLengthsSameTotal(a: Keypoints, b: Keypoints)
    requires |a| == |b|
    requires forall q :: 0 <= q < |a| ==> |b[q].balls| == |a[q].balls|
    ensures TotalBalls(a) == TotalBalls(b)
  {
    if a != [] {
      SameLengthsSameTotal(a[..|a| - 1], b[..|b| - 1]);
    }
  }

  /** A dictionary whose lists are all empty holds no ball. */
  lemma {:induction false} ZeroTotal(ks: Keypoints)
    requires forall q :: 0 <= q < |ks| ==> ks[q].balls == []
    ensures TotalBalls(ks) == 0
  {
    if ks != [] {
      ZeroTotal(ks[..|ks| - 1]);
    }
  }
}
