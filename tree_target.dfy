/**
 * Sprite geometry of a wild tree in the lookup overlay (`TreeTarget`): which
 * part of the tree sprite sheet is drawn for a tree, where on screen that
 * sprite lands relative to the tree's tile, and whether a pixel hits it.
 */
module TreeTargets {
  import opened Geometry

  /** `WildTreeGrowthStage` values that this file distinguishes. */
  const SeedStage := 0
  const SproutStage := 1
  const SaplingStage := 2
  /** A fully grown tree; also the bound `growthStage < 5` in `GetSourceRectangle`. */
  const TreeStage := 5

  /** The game's pixel zoom (`Game1.pixelZoom`): screen pixels per sprite pixel. */
  type Zoom = z: int | z > 0 witness 4

  /** The game constants the geometry reads: `Tree.stumpSourceRect`, `Tree.treeTopSourceRect`, `Game1.pixelZoom`. */
  datatype GameConstants = GameConstants(stumpSourceRect: Rect, treeTopSourceRect: Rect, pixelZoom: Zoom)

  /** The state of a wild tree that decides how it is drawn. */
  datatype Tree = Tree(stump: bool, growthStage: int)

  /** `GetSourceRectangle`: the sprite-sheet rectangle drawn for the tree. */
  function SourceRectangle(tree: Tree, game: GameConstants): (src: Rect)
    ensures tree.stump ==> src == game.stumpSourceRect
    ensures !tree.stump && tree.growthStage >= TreeStage ==> src == game.treeTopSourceRect
    ensures !tree.stump && tree.growthStage == SeedStage ==> src == Rect(32, 128, 16, 16)
    ensures !tree.stump && tree.growthStage == SproutStage ==> src == Rect(0, 128, 16, 16)
    ensures !tree.stump && tree.growthStage == SaplingStage ==> src == Rect(16, 128, 16, 16)
    ensures !tree.stump && tree.growthStage < TreeStage && tree.growthStage !in {SeedStage, SproutStage, SaplingStage}
      ==> src == Rect(0, 96, 16, 32)
    // every growing tree is one sprite tile wide and drawn from the rows below the tree top
    ensures !tree.stump && tree.growthStage < TreeStage ==> src.width == 16 && 96 <= src.y && src.y + src.height <= 144
  {
    if tree.stump then game.stumpSourceRect
    else if tree.growthStage < TreeStage then
      match tree.growthStage
      case 0 => Rect(32, 128, 16, 16)
      case 1 => Rect(0, 128, 16, 16)
      case 2 => Rect(16, 128, 16, 16)
      case _ => Rect(0, 96, 16, 32)
    else game.treeTopSourceRect
  }

  /**
   * `GetSpriteArea`: the source rectangle scaled by the pixel zoom, centred
   * horizontally on the tile and standing on the tile's bottom edge.
   */
  function SpriteArea(tile: Rect, tree: Tree, game: GameConstants): (area: Rect)
    ensures area.width == SourceRectangle(tree, game).width * game.pixelZoom
    ensures area.height == SourceRectangle(tree, game).height * game.pixelZoom
    ensures area.Bottom() == tile.Bottom()
    ensures area.CenterX() == tile.CenterX()
  {
    var sprite := SourceRectangle(tree, game);
    var width := sprite.width * game.pixelZoom;
    var height := sprite.height * game.pixelZoom;
    var x := tile.x + Half(tile.width) - Half(width);
    var y := tile.y + tile.height - height;
    Rect(x, y, width, height)
  }

  /**
   * The stump drawn under a grown tree's top, in screen pixels: stump-sized,
   * standing on the sprite area's bottom edge, its left edge half a stump
   * (rounded down to whole sprite pixels) left of the sprite area's horizontal centre.
   */
  function StumpSpriteArea(spriteArea: Rect, game: GameConstants): (stump: Rect)
    ensures stump.width == game.stumpSourceRect.width * game.pixelZoom
    ensures stump.height == game.stumpSourceRect.height * game.pixelZoom
    ensures stump.Bottom() == spriteArea.Bottom()
    ensures stump.x == spriteArea.CenterX() - Half(game.stumpSourceRect.width) * game.pixelZoom
  {
    var zoom := game.pixelZoom;
    var stumpSource := game.stumpSourceRect;
    Rect(spriteArea.CenterX() - Half(stumpSource.width) * zoom,
         spriteArea.y + spriteArea.height - stumpSource.height * zoom,
         stumpSource.width * zoom,
         stumpSource.height * zoom)
  }

  /**
   * `SpriteIntersectsPixel` for a tree. `hit(area, source)` stands for the
   * texture test of the base class: whether the pixel (px, py) falls on an
   * opaque pixel of sprite `source` drawn into `area`.
   */
  function SpriteIntersectsPixel(tree: Tree, game: GameConstants, px: int, py: int, spriteArea: Rect,
                                 hit: (Rect, Rect) -> bool): (r: bool)
    ensures hit(spriteArea, SourceRectangle(tree, game)) ==> r
    ensures tree.growthStage != TreeStage ==> (r <==> hit(spriteArea, SourceRectangle(tree, game)))
    ensures r && !hit(spriteArea, SourceRectangle(tree, game)) ==>
      var stump := StumpSpriteArea(spriteArea, game);
      tree.growthStage == TreeStage && stump.Contains(px, py) && hit(stump, game.stumpSourceRect)
    ensures tree.growthStage == TreeStage &&
      StumpSpriteArea(spriteArea, game).Contains(px, py) && hit(StumpSpriteArea(spriteArea, game), game.stumpSourceRect)
      ==> r
  {
    if hit(spriteArea, SourceRectangle(tree, game)) then true
    else if tree.growthStage == TreeStage then
      var stump := StumpSpriteArea(spriteArea, game);
      stump.Contains(px, py) && hit(stump, game.stumpSourceRect)
    else false
  }

  /** Halving then zooming an even width is the same as zooming then halving it. */
  lemma HalfOfZoomedEven(w: int, zoom: Zoom)
    requires w % 2 == 0
    ensures Half(w * zoom) == Half(w) * zoom
  {
    var h := Half(w);
    assert w == 2 * h;
    assert w * zoom == 2 * (h * zoom);
    assert (w * zoom) % 2 == 0;
  }

  /** A stump of even width is horizontally centred on the sprite area it is attached to. */
  lemma StumpCentredOnSprite(spriteArea: Rect, game: GameConstants)
    requires game.stumpSourceRect.width % 2 == 0
    ensures StumpSpriteArea(spriteArea, game).CenterX() == spriteArea.CenterX()
  {
    HalfOfZoomedEven(game.stumpSourceRect.width, game.pixelZoom);
  }

  /** The sheet layout the stump test relies on: an even, non-empty stump no larger than the tree top. */
  predicate StumpFitsUnderTop(game: GameConstants)
  {
    var stump := game.stumpSourceRect;
    var top := game.treeTopSourceRect;
    0 <= stump.width <= top.width && stump.width % 2 == 0 && 0 <= stump.height <= top.height
  }

  /** With such a layout, the stump rectangle of any tree lies within the tree's sprite area. */
  lemma {:induction false} StumpInsideSpriteArea(tile: Rect, tree: Tree, game: GameConstants)
    requires StumpFitsUnderTop(game)
    requires tree.stump || tree.growthStage >= TreeStage
    ensures StumpSpriteArea(SpriteArea(tile, tree, game), game).Inside(SpriteArea(tile, tree, game))
  {
    var zoom := game.pixelZoom;
    var area := SpriteArea(tile, tree, game);
    var stump := StumpSpriteArea(area, game);
    var sw := game.stumpSourceRect.width;
    var aw := SourceRectangle(tree, game).width;
    var ah := SourceRectangle(tree, game).height;
    assert sw <= aw && game.stumpSourceRect.height <= ah;
    HalfOfZoomedEven(sw, zoom);
    assert sw * zoom <= aw * zoom && 0 <= sw * zoom;
    assert game.stumpSourceRect.height * zoom <= ah * zoom;
    // left edge: half the stump is no more than half the area
    assert Half(sw * zoom) <= Half(aw * zoom);
    // right edge: the other half of the stump is no more than the other half of the area
    assert sw * zoom - Half(sw * zoom) <= aw * zoom - Half(aw * zoom);
  }

  /**
   * For a stump (which keeps the grown stage), the stump re-test looks at the
   * very rectangle already tested, so it never changes the answer.
   */
  lemma StumpRetestRedundant(tile: Rect, tree: Tree, game: GameConstants, px: int, py: int, hit: (Rect, Rect) -> bool)
    requires tree.stump && game.stumpSourceRect.width % 2 == 0
    ensures var area := SpriteArea(tile, tree, game);
      StumpSpriteArea(area, game) == area &&
      (SpriteIntersectsPixel(tree, game, px, py, area, hit) <==> hit(area, game.stumpSourceRect))
  {
    var area := SpriteArea(tile, tree, game);
    HalfOfZoomedEven(game.stumpSourceRect.width, game.pixelZoom);
    assert StumpSpriteArea(area, game).x == area.x;
  }

  /**
   * If the texture test only ever hits inside the area it is given, a tree is
   * only hit at pixels inside its sprite area: the stump test never reaches
   * outside the tree.
   */
  lemma HitStaysInSpriteArea(tile: Rect, tree: Tree, game: GameConstants, px: int, py: int, hit: (Rect, Rect) -> bool)
    requires StumpFitsUnderTop(game)
    requires forall area, source :: hit(area, source) ==> area.Contains(px, py)
    ensures SpriteIntersectsPixel(tree, game, px, py, SpriteArea(tile, tree, game), hit)
      ==> SpriteArea(tile, tree, game).Contains(px, py)
  {
    var area := SpriteArea(tile, tree, game);
    if SpriteIntersectsPixel(tree, game, px, py, area, hit) && !hit(area, SourceRectangle(tree, game)) {
      assert tree.growthStage == TreeStage;
      StumpInsideSpriteArea(tile, tree, game);
      InsideContains(StumpSpriteArea(area, game), area, px, py);
    }
  }
}
