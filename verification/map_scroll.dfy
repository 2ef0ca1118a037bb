/** The map geometry the look-ahead camera consults, and `Game_Map.prototype.canScroll`. */
module MapScroll {
  import opened Directions

  /** What `canScroll` reads from the map: loop flags, size in tiles, the viewport size in tiles
      (`screenTileX/Y`) and the top-left tile of the viewport (`displayX/Y`). */
  datatype Geometry = Geometry(
    loopHorizontal: bool,
    loopVertical: bool,
    width: int,
    height: int,
    screenTileX: real,
    screenTileY: real,
    displayX: real,
    displayY: real)

  /** The map wraps around on the axis of `d`. */
  predicate Loops(g: Geometry, d: Direction)
  {
    (IsVertical(d) && g.loopVertical) || (IsHorizontal(d) && g.loopHorizontal)
  }

  /** canScroll: whether the viewport may move one tile in `d`. The source's default arm
      returns `Direction.NONE`, i.e. 0, which is falsy. */
  function CanScroll(g: Geometry, d: Direction): (ok: bool)
    ensures d == None ==> !ok
    ensures Loops(g, d) ==> ok
    ensures ok ==> d != None
  {
    match d
    case Down => g.loopVertical || (g.height as real >= g.screenTileY && g.displayY < g.height as real - g.screenTileY)
    case Up => g.loopVertical || (g.height as real >= g.screenTileY && g.displayY > 0.0)
    case Left => g.loopHorizontal || (g.width as real >= g.screenTileX && g.displayX > 0.0)
    case Right => g.loopHorizontal || (g.width as real >= g.screenTileX && g.displayX < g.width as real - g.screenTileX)
    case None => false
  }

  /** Map extent along the axis of `d`, in tiles. */
  function Extent(g: Geometry, d: Direction): real
  {
    if IsVertical(d) then g.height as real else g.width as real
  }

  /** Viewport extent along the axis of `d`, in tiles. */
  function Screen(g: Geometry, d: Direction): real
  {
    if IsVertical(d) then g.screenTileY else g.screenTileX
  }

  /** How far the viewport may still travel towards the map edge that `d` points at. */
  function RoomToward(g: Geometry, d: Direction): real
  {
    match d
    case Down => g.height as real - g.screenTileY - g.displayY
    case Up => g.displayY
    case Right => g.width as real - g.screenTileX - g.displayX
    case Left => g.displayX
    case None => 0.0
  }

  /** On a non-looping axis, scrolling towards an edge is possible exactly when the map is at
      least as large as the viewport and there is room left towards that edge. */
  lemma CanScrollMeansRoom(g: Geometry, d: Direction)
    requires d != None && !Loops(g, d)
    ensures CanScroll(g, d) <==> Extent(g, d) >= Screen(g, d) && RoomToward(g, d) > 0.0
  {
  }

  /** The look-ahead's symmetric check: the viewport can move both ways along an axis exactly
      when that axis loops, or the viewport lies strictly inside the map along it. */
  lemma CanScrollBothWays(g: Geometry, d: Direction)
    requires d != None
    ensures CanScroll(g, d) && CanScroll(g, Reverse(d)) <==>
              Loops(g, d) ||
              (Extent(g, d) >= Screen(g, d) && RoomToward(g, d) > 0.0 && RoomToward(g, Reverse(d)) > 0.0)
  {
    if !Loops(g, d) {
      CanScrollMeansRoom(g, d);
      CanScrollMeansRoom(g, Reverse(d));
    }
  }

  /** A non-looping axis on which the map exactly fits the viewport never passes the
      symmetric check, in either direction. */
  lemma ExactFitNeverOffsets(g: Geometry, d: Direction)
    requires d != None && !Loops(g, d) && Extent(g, d) == Screen(g, d)
    ensures !(CanScroll(g, d) && CanScroll(g, Reverse(d)))
  {
    CanScrollBothWays(g, d);
  }
}
