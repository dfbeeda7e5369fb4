/**
 * GameLevel.BoardNode: one tile of the board. A tile has a set of
 * attributes (pathable, buildable) and holds at most one tower's sprite.
 */
module GameLevel {
  import opened Base
  import Sprites

  /** BoardNode.Attribute. */
  datatype Attribute = Pathable | Buildable

  class BoardNode {
    var attributes: set<Attribute>
    var tower: Option<Sprites.Sprite>

    /** BoardNode(attributes) and BoardNode(image, attributes): no tower yet; the background image is not modelled. */
    constructor (attributes: set<Attribute>)
      ensures this.attributes == attributes && tower == None
    {
      this.attributes := attributes;
      tower := None;
    }

    /** BoardNode(image): both attributes, EnumSet.range(PATHABLE, BUILDABLE). */
    constructor Open()
      ensures attributes == {Pathable, Buildable} && tower == None
      ensures IsPathable() && CanPlace()
    {
      attributes := {Pathable, Buildable};
      tower := None;
    }

    /** isPathable: no tower stands here and the tile is marked pathable. */
    predicate IsPathable()
      reads this
    {
      tower.None? && Pathable in attributes
    }

    /** Whether placeTower would succeed: the tile is buildable and no tower stands here. */
    predicate CanPlace()
      reads this
    {
      Buildable in attributes && tower.None?
    }

    method SetPathable()
      modifies this
      ensures attributes == old(attributes) + {Pathable} && tower == old(tower)
    {
      attributes := attributes + {Pathable};
    }

    method SetUnpathable()
      modifies this
      ensures attributes == old(attributes) - {Pathable} && tower == old(tower)
      ensures !IsPathable()
    {
      attributes := attributes - {Pathable};
    }

    method SetBuildable()
      modifies this
      ensures attributes == old(attributes) + {Buildable} && tower == old(tower)
    {
      attributes := attributes + {Buildable};
    }

    method SetUnbuildable()
      modifies this
      ensures attributes == old(attributes) - {Buildable} && tower == old(tower)
      ensures !CanPlace()
    {
      attributes := attributes - {Buildable};
    }

    /**
     * placeTower: the sprite `t` (None for null) is stored exactly when the
     * tile is buildable and free; the attributes never change. A real
     * sprite then makes the tile unpathable and refuses a second tower; a
     * null one leaves the tile free.
     */
    method PlaceTower(t: Option<Sprites.Sprite>) returns (r: bool)
      modifies this
      ensures r <==> old(CanPlace())
      ensures attributes == old(attributes)
      ensures tower == (if r then t else old(tower))
      ensures r && t.Some? ==> !IsPathable() && !CanPlace()
    {
      if Buildable in attributes {
        if tower.None? {
          tower := t;
          return true;
        }
      }
      return false;
    }
  }
}
