/**
 * GameLevelST: the single-threaded level's board and its tower placement.
 * Its BoardNode has the same code as GameLevel's and is modelled by
 * GameLevel.BoardNode.
 */
module GameLevelST {
  import opened Base
  import opened GameLevel
  import Sprites

  /** The parts of a Tower that spawnTower looks at: its position, in tiles, and its sprite. */
  datatype Tower = Tower(position: Vector2, sprite: Option<Sprites.Sprite>)

  /** Whether `pos` lies on a board of `width` by `height` tiles. */
  predicate InBounds(pos: Vector2, width: nat, height: nat)
  {
    0.0 <= pos.x < width as real && 0.0 <= pos.y < height as real
  }

  /** The tile coordinates of a position on the board: (int) Math.floor of each coordinate. */
  function TileOf(pos: Vector2, width: nat, height: nat): (r: (nat, nat))
    requires InBounds(pos, width, height)
    ensures r.0 < width && r.1 < height
    ensures r.0 as real <= pos.x < r.0 as real + 1.0 && r.1 as real <= pos.y < r.1 as real + 1.0
  {
    (pos.x.Floor, pos.y.Floor)
  }

  class Level {
    const width: nat
    const height: nat
    const board: seq<seq<BoardNode>>

    /** board[x][y] for every x below the width and y below the height. */
    ghost predicate Shaped()
    {
      |board| == width && forall x :: 0 <= x < width ==> |board[x]| == height
    }

    /** The level over a board that the map loading has filled in. */
    constructor (width: nat, height: nat, board: seq<seq<BoardNode>>)
      requires |board| == width && forall x :: 0 <= x < width ==> |board[x]| == height
      ensures this.width == width && this.height == height && this.board == board && Shaped()
    {
      this.width := width;
      this.height := height;
      this.board := board;
    }

    /** The tile a tower at `pos` stands on. */
    function Tile(pos: Vector2): BoardNode
      requires Shaped() && InBounds(pos, width, height)
    {
      var (x, y) := TileOf(pos, width, height);
      board[x][y]
    }

    /** The tiles spawnTower may change for the tower `t`: its own tile, when it has one. */
    ghost function Touched(t: Option<Tower>): set<BoardNode>
      requires Shaped()
    {
      if t.Some? && InBounds(t.value.position, width, height) then {Tile(t.value.position)} else {}
    }

    /**
     * spawnTower(Tower): a null tower or one off the board is refused and
     * no tile changes; otherwise the answer is that of placeTower on
     * exactly the tile under the tower.
     */
    method SpawnTowerOn(t: Option<Tower>) returns (r: bool)
      requires Shaped()
      modifies Touched(t)
      ensures Touched(t) == {} ==> !r
      ensures t.Some? && InBounds(t.value.position, width, height) ==>
        var n := Tile(t.value.position);
        (r <==> old(n.CanPlace())) && n.attributes == old(n.attributes) &&
        n.tower == (if r then t.value.sprite else old(n.tower))
    {
      if t.None? {
        return false;
      } else if InBounds(t.value.position, width, height) {
        var (x, y) := TileOf(t.value.position, width, height);
        r := board[x][y].PlaceTower(t.value.sprite);
      } else {
        return false;
      }
    }

    /**
     * spawnTower(pos), with `built` the tower Tower.createTower made for
     * `pos`: that tower when it was placed, null otherwise.
     */
    method SpawnTower(built: Option<Tower>) returns (r: Option<Tower>)
      requires Shaped()
      modifies Touched(built)
      ensures r.Some? ==> r == built
      ensures Touched(built) == {} ==> r == None
      ensures built.Some? && InBounds(built.value.position, width, height) ==>
        var n := Tile(built.value.position);
        (r.Some? <==> old(n.CanPlace())) && n.attributes == old(n.attributes) &&
        n.tower == (if r.Some? then built.value.sprite else old(n.tower))
    {
      var placed := SpawnTowerOn(built);
      if placed {
        return built;
      } else {
        return None;
      }
    }
  }
}
