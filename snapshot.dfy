/** The table-state snapshots the tracker compares. The snapshot class itself is
    not part of this model's source files; what the model assumes of it is
    written here: a count and a ball list per colour, a white-ball slot with a
    moving flag, two deep-copying assignments and a count difference. */
module Snapshots {
  import opened Types

  /** The white-ball slot of a snapshot. */
  datatype White = White(keypoint: KeyPoint, isMoving: bool)

  /** The value a snapshot holds. */
  datatype Snap = Snap(colours: Keypoints, counts: seq<int>, white: Option<White>)
  {
    /** Each colour's count equals the length of its list, and WHITE is a key. */
    predicate Valid()
    {
      |counts| == |colours| &&
      (forall i :: 0 <= i < |colours| ==> counts[i] == |colours[i].balls|) &&
      WHITE in Colours(colours)
    }

    /** `colours[colour].count`. */
    function Count(colour: Colour): (n: int)
      requires Valid() && colour in Colours(colours)
      ensures n == |colours[IndexOf(colours, colour)].balls|
    {
      counts[IndexOf(colours, colour)]
    }

    function WhiteCount(): nat
      requires Valid()
    {
      Count(WHITE)
    }
  }

  /** How assign_balls_from_dict fills the white slot from a dictionary. The
      snapshot code is not part of this model, so the slot is a parameter. */
  type WhiteSlot = Keypoints -> Option<White>

  /** The one promise about the white slot: a filled slot holds one of the
      WHITE balls of the dictionary. An empty slot is allowed even when there are
      white balls. */
  ghost predicate PicksAWhiteBall(whiteOf: WhiteSlot)
  {
    forall ks: Keypoints {:trigger whiteOf(ks)} :: WHITE in Colours(ks) && whiteOf(ks).Some? ==>
      whiteOf(ks).value.keypoint in ks[IndexOf(ks, WHITE)].balls
  }

  /** The snapshot assign_balls_from_dict makes of a dictionary. */
  function FromDict(ks: Keypoints, whiteOf: WhiteSlot): (s: Snap)
    requires WHITE in Colours(ks) && PicksAWhiteBall(whiteOf)
    ensures s.Valid() && s.colours == ks
    ensures forall c :: c in Colours(ks) ==> s.Count(c) == |ks[IndexOf(ks, c)].balls|
    ensures s.white.Some? ==> s.white.value.keypoint in ks[IndexOf(ks, WHITE)].balls && s.WhiteCount() > 0
  {
    Snap(ks, seq(|ks|, i requires 0 <= i < |ks| => |ks[i].balls|), whiteOf(ks))
  }

  /** compare_ball_diff: how many balls of `colour` `self` has more than `other`. */
  function CompareBallDiff(self: Snap, colour: Colour, other: Snap): (d: int)
    requires self.Valid() && other.Valid()
    requires colour in Colours(self.colours) && colour in Colours(other.colours)
    ensures d > 0 <==> self.Count(colour) > other.Count(colour)
    ensures d == 0 <==> self.Count(colour) == other.Count(colour)
  {
    self.Count(colour) - other.Count(colour)
  }

  /** A snapshot object. Assignments copy values, so two snapshots never share state. */
  class SnapShot {
    var colours: Keypoints
    var counts: seq<int>
    var white: Option<White>

    function Value(): Snap
      reads this
    {
      Snap(colours, counts, white)
    }

    ghost predicate Valid()
      reads this
    {
      Value().Valid()
    }

    /** A snapshot of a table with no balls of any of `names`. */
    constructor (names: seq<Colour>)
      requires WHITE in names
      ensures Valid()
      ensures Colours(colours) == names && TotalBalls(colours) == 0 && white == None
    {
      var empty := seq(|names|, i requires 0 <= i < |names| => Entry(names[i], []));
      assert Colours(empty) == names;
      ZeroTotal(empty);
      colours := empty;
      counts := seq(|names|, i => 0);
      white := None;
    }

    /** assign_balls_from_dict */
    method AssignBallsFromDict(ks: Keypoints, whiteOf: WhiteSlot)
      requires WHITE in Colours(ks) && PicksAWhiteBall(whiteOf)
      modifies this
      ensures Valid() && Value() == FromDict(ks, whiteOf)
    {
      var s := FromDict(ks, whiteOf);
      colours, counts, white := s.colours, s.counts, s.white;
    }

    /** assign_balls_from_snapshot: afterwards this snapshot holds what `other` held. */
    method AssignBallsFromSnapshot(other: SnapShot)
      requires other.Valid()
      modifies this
      ensures Valid() && Value() == old(other.Value())
    {
      colours, counts, white := other.colours, other.counts, other.white;
    }
  }
}
