# Chests Anywhere access gating and tree sprite geometry, in Dafny

This project models two pieces of decision logic from a pair of Stardew Valley mods.

**Chests Anywhere** (`chests_anywhere.dfy`, module `ChestsAnywhere`) lets the player open chests from a distance. The model covers the mod entry point's decision logic:
- where remote access is disabled: an exact location name in the configured list, or the `UndergroundMine` wildcard for mine levels;
- how the configured `ChestRange` becomes the range the chest search uses;
- what the open-menu key does, and the order of its guards: no range, then a disabled location, then the chest query, then the choice of chest or of message;
- the chest-management overlay, which follows the game's active menu. It is disposed when a chest menu closes and attached when one opens.

The mod's state (`SelectedInventory`, `ManageChestOverlay`) is a class, `ModEntry`. The game globals it touches (`Game1.activeClickableMenu`, `Game1.currentLocation`, the info messages on screen) are a second class, `Game`. The methods update both.

**Lookup Anything** (`tree_target.dfy`, module `TreeTargets`) shows details for what is under the cursor. For a wild tree, the model covers:
- which sprite-sheet rectangle is drawn for each tree state;
- where that sprite lands on screen: scaled by the pixel zoom, centred horizontally on the tile and standing on its bottom edge;
- the structure of the pixel hit test: the tree sprite, then the stump under a grown tree's top.

`geometry.dfy` holds the XNA `Rectangle` operations used there and C#'s truncating `/ 2`. `wrappers.dfy` holds `Option`, the model's stand-in for a null reference.

The collaborators these files call but do not define are fields of the `Host` record, given as functions:
- `ChestFactory.GetChests` and `ChestFactory.GetChestFromMenu`;
- `ManagedChest.OpenMenu`;
- `IContainer.IsSameAs`;
- the shipping-bin view test;
- whether the Automate mod is loaded.

The texture test of the base `SpriteIntersectsPixel` is the parameter `hit`. The game constants `Tree.stumpSourceRect`, `Tree.treeTopSourceRect` and `Game1.pixelZoom` are the parameter `GameConstants`; the zoom is positive.

The source's `ChestRange.None` is called `NoRange` here, so it does not clash with `Option.None`. The `WildTreeGrowthStage` enum is not part of this model. Its values are taken from the game: Seed 0, Sprout 1, Sapling 2, Tree 5.

## Model

| member | source | states |
|---|---|---|
| `ChestsAnywhere.IsDisabledLocation` | ChestsAnywhere/ModEntry.cs:247-255 | A null disabled list disables nothing. An exact name in the list disables the location. A mine level whose name starts with `UndergroundMine` is disabled when `UndergroundMine` is listed. A location that is not a mine level is disabled exactly when its own name is listed. The wildcard reaches no other location. |
| `ChestsAnywhere.GetCurrentRange` | ChestsAnywhere/ModEntry.cs:258-264 | The range is `None` at a disabled location and the configured range elsewhere. So it is `None` exactly when the configured range is `None` or the location is disabled. World areas and the current location pass through unchanged. |
| `ChestsAnywhere.FirstIndex` | ChestsAnywhere/ModEntry.cs:213 | `FirstOrDefault(p)`: the result satisfies `p` and nothing before it does, or nothing satisfies `p` and there is no result. |
| `ChestsAnywhere.SelectChest` | ChestsAnywhere/ModEntry.cs:213 | The chosen chest is the first one whose container is the selected inventory. If none matches, it is the first chest. There is no choice exactly when the list is empty. |
| `ChestsAnywhere.NoChestsMessage` | ChestsAnywhere/ModEntry.cs:220-223 | The empty-list message says "yet" exactly when the range is `Unlimited`, and "in range" otherwise. |
| `ChestsAnywhere.OpenMenuEffect` | ChestsAnywhere/ModEntry.cs:197-225 | Nothing happens exactly when the range is `None`. Otherwise a disabled location shows only the disabled message. Otherwise the chests are queried with the configured range and `excludeHidden` set. A chest is opened exactly when the query returns one. It is the first returned chest whose container is the selected inventory, or the first returned chest if none matches. An empty query shows the "yet" / "in range" message. |
| `ChestsAnywhere.ModEntry.OpenMenu` | ChestsAnywhere/ModEntry.cs:197-225 | The active menu and the shown messages change exactly as `OpenMenuEffect` says. Nothing else changes. |
| `ChestsAnywhere.ModEntry.ButtonPressed` | ChestsAnywhere/ModEntry.cs:168-194 | The toggle key runs `OpenMenu` when no menu is open, or on the game menu's inventory tab when that page is ready to close. Any other key or menu changes nothing. |
| `ChestsAnywhere.ModEntry.MenuChanged` | ChestsAnywhere/ModEntry.cs:117-155 | Leaving an item-grab menu disposes the current overlay and clears it. Entering an item-grab menu whose chest is known attaches a new overlay. The overlay's chests are queried with the current range, `excludeHidden` set, and the open chest's container as the always-include argument. When shipping-bin support is enabled, a shipping bin that lost its chest view is first reopened and made the active menu. The overlay stays attached only to item-grab menus. |
| `ChestsAnywhere.ModEntry.MenuClosed` | ChestsAnywhere/ModEntry.cs:160-163 | Closing a menu is a change to no menu. It disposes and clears the overlay when the closed menu was an item-grab menu, never creates one, and leaves the active menu alone. |
| `ChestsAnywhere.ModEntry.ChestSelected` | ChestsAnywhere/ModEntry.cs:149-153 | Picking a chest in the overlay remembers its inventory as the selected one and makes its menu the active menu. |
| `ChestsAnywhere.ModEntry.constructor` | ChestsAnywhere/ModEntry.cs:39-57 | After loading, no inventory is selected and no overlay exists. |
| `TreeTargets.SourceRectangle` | LookupAnything/Framework/Targets/TreeTarget.cs:73-97 | A stump always uses the stump rectangle, whatever its stage. A growing tree uses: Seed (32,128,16,16), Sprout (0,128,16,16), Sapling (16,128,16,16), any other stage below 5 (0,96,16,32). Stage 5 and above uses the tree-top rectangle. Every growing tree is 16 pixels wide, from rows 96 to 144 of the sheet. |
| `TreeTargets.SpriteArea` | LookupAnything/Framework/Targets/TreeTarget.cs:23-35 | The sprite area's size is the source size times the pixel zoom. Its bottom edge is the tile's. Its horizontal centre (`Center.X`), under truncating division, is the tile's. |
| `TreeTargets.StumpSpriteArea` | LookupAnything/Framework/Targets/TreeTarget.cs:59 | The stump rectangle has the stump source size times the zoom. It stands on the sprite area's bottom edge. Its left edge is the sprite area's centre minus half the stump width, in whole sprite pixels, times the zoom. |
| `TreeTargets.SpriteIntersectsPixel` | LookupAnything/Framework/Targets/TreeTarget.cs:42-65 | A hit on the tree sprite is a hit. At any stage other than Tree, the answer is that test alone. A grown tree is also hit when the pixel is inside the stump rectangle and the stump sprite is hit there. No other hit exists. |
| `TreeTargets.StumpCentredOnSprite` | LookupAnything/Framework/Targets/TreeTarget.cs:59 | For a stump of even width, the stump rectangle is horizontally centred on the sprite area: its `Center.X` is the sprite area's. |
| `TreeTargets.StumpInsideSpriteArea` | LookupAnything/Framework/Targets/TreeTarget.cs:56-62 | Take a grown tree or a stump, on a sheet whose stump sprite is even-width, non-negative in size and no larger than the tree top. Its stump rectangle lies within its sprite area. |
| `TreeTargets.StumpRetestRedundant` | LookupAnything/Framework/Targets/TreeTarget.cs:52-61 | Take a stump whose stump sprite has an even width. Its stump rectangle is its whole sprite area. So the stump re-test never changes the answer. |
| `TreeTargets.HitStaysInSpriteArea` | LookupAnything/Framework/Targets/TreeTarget.cs:52-64 | Take a sheet whose stump is even-width, non-negative and no larger than the tree top. Suppose the texture test only hits inside the area it is given. Then a tree is only ever hit inside its own sprite area. |

## Left out

- Event subscription, configuration and JSON loading, and the translation check in `Entry` are framework I/O. The constructor models only the state `Entry` leaves behind.
- Game-version validation, logging, error reporting and the hover tooltip are presentation and I/O. That includes the `try`/`catch` around key handling.
- Reading `GameMenu.pages` by reflection calls into game internals. Its result, whether the inventory page is ready to close, is a parameter of `ButtonPressed`.
- The internals of `ChestFactory`, `RangeHandler`, `ShippingBinContainer` and `IContainer` are not part of this model. Each is represented as follows:
  - `ChestFactory.GetChests`, `ChestFactory.GetChestFromMenu` and `IContainer.IsSameAs` are opaque functions in `Host`. The model records only the arguments passed to them.
  - A `RangeHandler` is the datatype of its three constructor arguments. How it decides what is in range is not modelled.
  - Being a `ShippingBinContainer` is the flag `Container.isShippingBin`.
  - `ChestFactory.GetChestFromTile` is used only by the hover tooltip, which is left out above. It does not appear in the model.
- The shipping-bin reopen test reads menu internals: `showReceivingMenu` and the highlight method's target. It is the opaque guard `Host.shippingBinViewLost`.
- Disposing an overlay, and the overlay's own behaviour, are out of scope. A disposal is recorded in `disposedOverlays`. The overlay's scroll controller, translations and configuration are not recorded.
- `ChestsAnywhere.OpenMenuEffect`: the model cannot show that the chest query is skipped when access is disabled or the range is `None`. Queries are pure functions here, so a call that is not made leaves no trace.
- The texture sampling in the base `SpriteIntersectsPixel` is graphics, and so is the reflective fetch of the tree texture. Both are the parameter `hit`.
- Sprite flip effects are left out.
- C#'s 32-bit `int` arithmetic in the sprite geometry is modelled as unbounded integers. This covers the products with the pixel zoom and the sums of coordinates. Screen-sized values never reach the 32-bit bounds.
- `Host.openMenu` gives one menu handle per chest, so opening the same chest twice yields equal menus. The source builds a new `ItemGrabMenu` on every `OpenMenu()` call. The model does not capture the identity of a newly built menu.
- The `float` coordinates of `Vector2`, and their `(int)` casts, are floating point. Pixel positions are integers here.
- C#'s culture-sensitive `string.StartsWith` is modelled as an exact prefix test. The prefix is plain ASCII.
