/** The value types the markers hold: points, pixel offsets, colours, and the 3-decimal rounding. */
module Geometry {

  /** A Vector3d; the doubles are modelled as reals. */
  datatype Vector3d = Vector3d(x: real, y: real, z: real)

  /** A Vector2i. */
  datatype Vector2i = Vector2i(x: int, y: int)

  /** A java.awt.Color channel: the constructor rejects anything outside 0..255. */
  type Channel = c: int | 0 <= c <= 255

  /** A java.awt.Color with its four channels; alpha is 0 (transparent) to 255 (opaque). */
  datatype Color = Color(red: Channel, green: Channel, blue: Channel, alpha: Channel)

  /** A Line, as the sequence of its points. */
  type Line = seq<Vector3d>

  /**
   * Math.round(v * 1000d) / 1000d: Math.round is floor(x + 1/2), so ties go towards positive
   * infinity. The result is a whole number of thousandths within half a thousandth of v.
   */
  function Round3(v: real): (r: real)
    ensures -0.0005 < r - v <= 0.0005
    ensures (r * 1000.0).Floor as real == r * 1000.0
  {
    (v * 1000.0 + 0.5).Floor as real / 1000.0
  }

  /** Rounding a value that is already a whole number of thousandths changes nothing. */
  lemma Round3Idempotent(v: real)
    ensures Round3(Round3(v)) == Round3(v)
  {
    var r := Round3(v);
    var m := (r * 1000.0).Floor;
    assert r * 1000.0 == m as real;
    assert (r * 1000.0 + 0.5).Floor == m;
  }

  function RoundPoint(p: Vector3d): Vector3d {
    Vector3d(Round3(p.x), Round3(p.y), Round3(p.z))
  }

  /** v is a whole number of thousandths, more than -0.0005 and at most +0.0005 away from w. */
  predicate RoundedNear(v: real, w: real) {
    (v * 1000.0).Floor as real == v * 1000.0 && -0.0005 < v - w <= 0.0005
  }

  /** Every coordinate of q is the rounded form of the matching coordinate of p. */
  predicate PointRoundedNear(q: Vector3d, p: Vector3d) {
    RoundedNear(q.x, p.x) && RoundedNear(q.y, p.y) && RoundedNear(q.z, p.z)
  }

  /** The line with every coordinate rounded to 3 decimals, as a save writes it. */
  function Rounded(line: Line): (r: Line)
    ensures |r| == |line|
    ensures forall i :: 0 <= i < |line| ==> PointRoundedNear(r[i], line[i])
  {
    seq(|line|, i requires 0 <= i < |line| => RoundPoint(line[i]))
  }

  /** Rounding a rounded line again changes nothing, so a second save writes the same coordinates. */
  lemma RoundedIdempotent(line: Line)
    ensures Rounded(Rounded(line)) == Rounded(line)
  {
    forall i | 0 <= i < |line|
      ensures Rounded(Rounded(line))[i] == Rounded(line)[i]
    {
      Round3Idempotent(line[i].x);
      Round3Idempotent(line[i].y);
      Round3Idempotent(line[i].z);
    }
  }
}
