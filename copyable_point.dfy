/**
 * CopyablePoint: a java.awt.Point that can copy itself into a new point
 * or take over another point's coordinates.
 */
module CopyablePoints {
  class CopyablePoint {
    var x: int
    var y: int

    constructor (x: int, y: int)
      ensures this.x == x && this.y == y
    {
      this.x := x;
      this.y := y;
    }

    /** copy(rhs): this point takes rhs's coordinates; rhs is only read. */
    method CopyFrom(rhs: CopyablePoint)
      modifies this
      ensures x == rhs.x && y == rhs.y
      ensures rhs != this ==> unchanged(rhs)
    {
      x := rhs.x;
      y := rhs.y;
    }

    /**
     * copy(): a new point with the same coordinates. Being a new object,
     * later changes to it leave this point as it is.
     */
    method Copy() returns (r: CopyablePoint)
      ensures fresh(r) && r.x == x && r.y == y
    {
      r := new CopyablePoint(x, y);
    }
  }

  /** Moving a copy does not move the original. */
  method MoveCopy(p: CopyablePoint, x: int, y: int) returns (q: CopyablePoint)
    modifies {}
    ensures fresh(q) && q.x == x && q.y == y
    ensures unchanged(p)
  {
    q := p.Copy();
    q.x, q.y := x, y;
  }
}
