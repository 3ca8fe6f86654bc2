/**
 * The decision logic of the Chests Anywhere mod entry point: where remote
 * chest access is disabled, which range the chest search uses, what the
 * open-menu key does, and the chest-management overlay that follows the
 * game's active menu.
 */
module ChestsAnywhere {
  import opened Wrappers

  /** A game location: its name, and whether it is a level of the mines (a `MineShaft`). */
  datatype GameLocation = GameLocation(name: string, isMineShaft: bool)

  /** `ChestRange`: how far away chests may be opened. */
  datatype ChestRange = Unlimited | CurrentWorldArea | CurrentLocation | NoRange

  /** The configuration fields read here (`ModConfig`); a null disabled list is `None`. */
  datatype ModConfig = ModConfig(range: ChestRange, disabledInLocations: Option<seq<string>>, enableShippingBin: bool)

  /** The internal settings read here (`ModData`): world-area name to location names. */
  datatype ModData = ModData(worldAreas: map<string, set<string>>)

  /** The arguments a `RangeHandler` is built from. */
  datatype RangeHandler = RangeHandler(worldAreas: map<string, set<string>>, range: ChestRange, currentLocation: GameLocation)

  /** The identity of an in-game item list (`IList<Item>`). */
  type InventoryRef = nat

  /** A chest or chest-like container; `handle` is its identity in the world. */
  datatype Container = Container(handle: nat, inventory: InventoryRef, isShippingBin: bool)

  /** A container with the mod's metadata (`ManagedChest`). */
  datatype ManagedChest = ManagedChest(container: Container, name: string)

  /** The game's active menu, as far as this file tells menus apart. */
  datatype Menu = ItemGrabMenu(handle: nat) | GameMenu(currentTab: int) | OtherMenu(handle: nat)

  /** `GameMenu.inventoryTab`. */
  const InventoryTab := 0

  /** The overlay drawn over a chest menu (`ManageChestOverlay`), by what it was built from. */
  datatype ManageChestOverlay = ManageChestOverlay(menu: Menu, chest: ManagedChest, chests: seq<ManagedChest>, showAutomateOptions: bool)

  /**
   * What this file calls but does not define: `ChestFactory.GetChests(range,
   * excludeHidden, alwaysIncludeContainer)`, `ChestFactory.GetChestFromMenu`,
   * `ManagedChest.OpenMenu` (the handle of the item-grab menu it opens),
   * `IContainer.IsSameAs`, whether an open shipping-bin menu lost its standard
   * chest view, and whether the Automate mod is loaded.
   */
  datatype Host = Host(
    getChests: (RangeHandler, bool, Option<Container>) -> seq<ManagedChest>,
    getChestFromMenu: Menu -> Option<ManagedChest>,
    openMenu: ManagedChest -> nat,
    isSameAs: (Container, Option<InventoryRef>) -> bool,
    shippingBinViewLost: Menu -> bool,
    isAutomateInstalled: bool)

  /** The location-name wildcard that covers every level of the mines. */
  const MineWildcard := "UndergroundMine"

  const DisabledHereMessage := "Remote chest access is disabled here. :)"
  const NoChestsYetMessage := "You don't have any chests yet. :)"
  const NoChestsInRangeMessage := "You don't have any chests in range. :)"

  /** `IsDisabledLocation`: whether remote access is turned off at `location`. */
  function IsDisabledLocation(disabledIn: Option<seq<string>>, location: GameLocation): (disabled: bool)
    ensures disabledIn.None? ==> !disabled
    ensures disabledIn.Some? && location.name in disabledIn.value ==> disabled
    ensures disabledIn.Some? && MineWildcard in disabledIn.value && location.isMineShaft && MineWildcard <= location.name
      ==> disabled
    ensures !location.isMineShaft ==> (disabled <==> disabledIn.Some? && location.name in disabledIn.value)
    // the wildcard reaches no further than mine levels named after it
    ensures disabled && location.name !in disabledIn.value
      ==> location.isMineShaft && MineWildcard <= location.name && MineWildcard in disabledIn.value
  {
    match disabledIn
    case None => false
    case Some(names) =>
      location.name in names
      || (location.isMineShaft && MineWildcard <= location.name && MineWildcard in names)
  }

  /** `GetCurrentRange`: the configured range, overridden to none where access is disabled. */
  function GetCurrentRange(config: ModConfig, data: ModData, currentLocation: GameLocation): (handler: RangeHandler)
    ensures IsDisabledLocation(config.disabledInLocations, currentLocation) ==> handler.range == NoRange
    ensures !IsDisabledLocation(config.disabledInLocations, currentLocation) ==> handler.range == config.range
    ensures handler.range == NoRange <==>
      (config.range == NoRange || IsDisabledLocation(config.disabledInLocations, currentLocation))
    ensures handler.worldAreas == data.worldAreas && handler.currentLocation == currentLocation
  {
    var range := if IsDisabledLocation(config.disabledInLocations, currentLocation) then NoRange else config.range;
    RangeHandler(data.worldAreas, range, currentLocation)
  }

  /** `FirstOrDefault(p)` on a sequence, as an index: the first element satisfying `p`. */
  function FirstIndex<T>(xs: seq<T>, p: T -> bool): (i: Option<nat>)
    ensures i.Some? ==> i.value < |xs| && p(xs[i.value]) && forall j :: 0 <= j < i.value ==> !p(xs[j])
    ensures i.None? ==> forall j :: 0 <= j < |xs| ==> !p(xs[j])
  {
    if xs == [] then None
    else if p(xs[0]) then Some(0)
    else match FirstIndex(xs[1..], p)
      case None => None
      case Some(k) => Some(k + 1)
  }

  /**
   * The chest `OpenMenu` opens, as an index into `chests`: the first chest
   * whose container is the previously selected inventory, else the first chest.
   */
  function SelectChest(chests: seq<ManagedChest>, selected: Option<InventoryRef>,
                       isSameAs: (Container, Option<InventoryRef>) -> bool): (i: Option<nat>)
    ensures i.None? <==> chests == []
    ensures i.Some? ==> i.value < |chests|
    ensures (exists k :: 0 <= k < |chests| && isSameAs(chests[k].container, selected)) ==>
      i.Some? && isSameAs(chests[i.value].container, selected) &&
      forall j :: 0 <= j < i.value ==> !isSameAs(chests[j].container, selected)
    ensures chests != [] && (forall k :: 0 <= k < |chests| ==> !isSameAs(chests[k].container, selected)) ==>
      i == Some(0)
  {
    var isSelected := (c: ManagedChest) => isSameAs(c.container, selected);
    match FirstIndex(chests, isSelected)
    case Some(k) => Some(k)
    case None => if chests == [] then None else Some(0)
  }

  /** The message shown when there is no chest to open. */
  function NoChestsMessage(range: ChestRange): (message: string)
    ensures message == NoChestsYetMessage <==> range == Unlimited
    ensures message == NoChestsInRangeMessage <==> range != Unlimited
  {
    "You don't have any chests " + (if range == Unlimited then "yet" else "in range") + ". :)"
  }

  /** What one call of `OpenMenu` does: nothing, show an info message, or open a chest. */
  datatype OpenMenuOutcome = Ignored | ShowInfo(message: string) | OpenChest(chest: ManagedChest)

  /** The guards of `OpenMenu`, in order, and the chest or message they lead to. */
  function OpenMenuEffect(config: ModConfig, data: ModData, location: GameLocation,
                          selected: Option<InventoryRef>, host: Host): (outcome: OpenMenuOutcome)
    ensures outcome == Ignored <==> config.range == NoRange
    ensures config.range != NoRange && IsDisabledLocation(config.disabledInLocations, location)
      ==> outcome == ShowInfo(DisabledHereMessage)
    ensures config.range != NoRange && !IsDisabledLocation(config.disabledInLocations, location) ==>
      var chests := host.getChests(RangeHandler(data.worldAreas, config.range, location), true, None);
      && (outcome.OpenChest? <==> chests != [])
      && (outcome.OpenChest? ==> outcome.chest in chests)
      && (outcome.OpenChest? ==> SelectChest(chests, selected, host.isSameAs).Some? &&
                                 outcome.chest == chests[SelectChest(chests, selected, host.isSameAs).value])
      && (chests == [] ==> outcome == ShowInfo(if config.range == Unlimited then NoChestsYetMessage else NoChestsInRangeMessage))
  {
    if config.range == NoRange then Ignored
    else if IsDisabledLocation(config.disabledInLocations, location) then ShowInfo(DisabledHereMessage)
    else
      var chests := host.getChests(GetCurrentRange(config, data, location), true, None);
      match SelectChest(chests, selected, host.isSameAs)
      case Some(i) => OpenChest(chests[i])
      case None => ShowInfo(NoChestsMessage(config.range))
  }

  /** The game's state after an `OpenMenu` outcome is applied to it. */
  ghost predicate OutcomeApplied(outcome: OpenMenuOutcome, host: Host,
                                 menuBefore: Option<Menu>, messagesBefore: seq<string>,
                                 menuAfter: Option<Menu>, messagesAfter: seq<string>)
  {
    match outcome
    case Ignored => menuAfter == menuBefore && messagesAfter == messagesBefore
    case ShowInfo(message) => menuAfter == menuBefore && messagesAfter == messagesBefore + [message]
    case OpenChest(chest) => menuAfter == Some(ItemGrabMenu(host.openMenu(chest))) && messagesAfter == messagesBefore
  }

  /** The game globals this file reads and writes (`Game1`). */
  class Game {
    var activeClickableMenu: Option<Menu>
    var currentLocation: GameLocation
    /** The info messages shown so far (`CommonHelper.ShowInfoMessage`). */
    var infoMessages: seq<string>

    constructor (location: GameLocation)
      ensures activeClickableMenu == None && currentLocation == location && infoMessages == []
    {
      activeClickableMenu := None;
      currentLocation := location;
      infoMessages := [];
    }
  }

  /** The mod entry point and the state it keeps between events. */
  class ModEntry {
    const config: ModConfig
    const data: ModData
    const host: Host
    const game: Game
    /** `SelectedInventory`: the inventory of the chest last picked in the overlay. */
    var selectedInventory: Option<InventoryRef>
    /** `ManageChestOverlay`: the overlay on the open chest menu, if any. */
    var overlay: Option<ManageChestOverlay>
    /** The overlays disposed so far, oldest first. */
    var disposedOverlays: seq<ManageChestOverlay>

    /** The object invariant, kept by every method: the overlay is only ever attached to an item-grab (chest) menu. */
    ghost predicate Valid()
      reads this
    {
      overlay.Some? ==> overlay.value.menu.ItemGrabMenu?
    }

    /** `Entry`: the state once the configuration and data are loaded. */
    constructor (config: ModConfig, data: ModData, host: Host, game: Game)
      ensures Valid()
      ensures this.config == config && this.data == data && this.host == host && this.game == game
      ensures selectedInventory == None && overlay == None && disposedOverlays == []
    {
      this.config := config;
      this.data := data;
      this.host := host;
      this.game := game;
      selectedInventory := None;
      overlay := None;
      disposedOverlays := [];
    }

    /** `OpenMenu`: open the selected (or first) chest in range, or say why not. */
    method OpenMenu()
      requires Valid()
      modifies game`activeClickableMenu, game`infoMessages
      ensures Valid()
      ensures OutcomeApplied(OpenMenuEffect(config, data, game.currentLocation, selectedInventory, host), host,
                             old(game.activeClickableMenu), old(game.infoMessages),
                             game.activeClickableMenu, game.infoMessages)
    {
      if config.range == NoRange {
        return;
      }
      if IsDisabledLocation(config.disabledInLocations, game.currentLocation) {
        game.infoMessages := game.infoMessages + [DisabledHereMessage];
        return;
      }
      var range := GetCurrentRange(config, data, game.currentLocation);
      var chests := host.getChests(range, true, None);
      var selected := SelectChest(chests, selectedInventory, host.isSameAs);
      if selected.Some? {
        game.activeClickableMenu := Some(ItemGrabMenu(host.openMenu(chests[selected.value])));
      } else {
        game.infoMessages := game.infoMessages + [NoChestsMessage(config.range)];
      }
    }

    /**
     * `InputEvents_ButtonPressed`: the toggle key opens the menu when no menu
     * is open, or over the inventory tab when that page is ready to close.
     */
    method ButtonPressed(isToggle: bool, inventoryPageReadyToClose: bool)
      requires Valid()
      modifies game`activeClickableMenu, game`infoMessages
      ensures Valid()
      ensures var menu := old(game.activeClickableMenu);
        var opens := isToggle &&
          (menu == None || (menu.value.GameMenu? && menu.value.currentTab == InventoryTab && inventoryPageReadyToClose));
        && (opens ==> OutcomeApplied(OpenMenuEffect(config, data, game.currentLocation, selectedInventory, host), host,
                                     menu, old(game.infoMessages), game.activeClickableMenu, game.infoMessages))
        && (!opens ==> game.activeClickableMenu == menu && game.infoMessages == old(game.infoMessages))
    {
      if isToggle {
        if game.activeClickableMenu == None {
          OpenMenu();
        } else if game.activeClickableMenu.value.GameMenu? && game.activeClickableMenu.value.currentTab == InventoryTab {
          if inventoryPageReadyToClose {
            OpenMenu();
          }
        }
      }
    }

    /**
     * `MenuEvents_MenuChanged`: leaving a chest menu disposes its overlay;
     * entering one attaches a new overlay whose chests are queried in the
     * current range with the open chest's container as the always-include
     * argument, first reopening a shipping bin in the standard chest view when
     * shipping-bin support is enabled and that view was lost.
     */
    method MenuChanged(priorMenu: Option<Menu>, newMenu: Option<Menu>)
      requires Valid()
      modifies this`overlay, this`disposedOverlays, game`activeClickableMenu
      ensures Valid()
      ensures var leaving := priorMenu.Some? && priorMenu.value.ItemGrabMenu?;
        && disposedOverlays == old(disposedOverlays) + (if leaving && old(overlay).Some? then [old(overlay).value] else [])
        && var kept := if leaving then None else old(overlay);
        if newMenu.Some? && newMenu.value.ItemGrabMenu? && host.getChestFromMenu(newMenu.value).Some? then
          var chest := host.getChestFromMenu(newMenu.value).value;
          var reopen := config.enableShippingBin && chest.container.isShippingBin && host.shippingBinViewLost(newMenu.value);
          var menu := if reopen then ItemGrabMenu(host.openMenu(chest)) else newMenu.value;
          var chests := host.getChests(GetCurrentRange(config, data, game.currentLocation), true, Some(chest.container));
          && overlay == Some(ManageChestOverlay(menu, chest, chests, host.isAutomateInstalled))
          && game.activeClickableMenu == (if reopen then Some(menu) else old(game.activeClickableMenu))
        else
          overlay == kept && game.activeClickableMenu == old(game.activeClickableMenu)
    {
      if priorMenu.Some? && priorMenu.value.ItemGrabMenu? {
        if overlay.Some? {
          disposedOverlays := disposedOverlays + [overlay.value];
        }
        overlay := None;
      }
      if newMenu.Some? && newMenu.value.ItemGrabMenu? {
        var chestMenu := newMenu.value;
        var chest := host.getChestFromMenu(chestMenu);
        if chest.None? {
          return;
        }
        if config.enableShippingBin && chest.value.container.isShippingBin && host.shippingBinViewLost(chestMenu) {
          chestMenu := ItemGrabMenu(host.openMenu(chest.value));
          game.activeClickableMenu := Some(chestMenu);
        }
        var range := GetCurrentRange(config, data, game.currentLocation);
        var chests := host.getChests(range, true, Some(chest.value.container));
        overlay := Some(ManageChestOverlay(chestMenu, chest.value, chests, host.isAutomateInstalled));
      }
    }

    /** `MenuEvents_MenuClosed`: a change to no menu; it never attaches an overlay. */
    method MenuClosed(priorMenu: Option<Menu>)
      requires Valid()
      modifies this`overlay, this`disposedOverlays, game`activeClickableMenu
      ensures Valid()
      ensures priorMenu.Some? && priorMenu.value.ItemGrabMenu? ==>
        overlay == None && disposedOverlays == old(disposedOverlays) + (if old(overlay).Some? then [old(overlay).value] else [])
      ensures !(priorMenu.Some? && priorMenu.value.ItemGrabMenu?) ==>
        overlay == old(overlay) && disposedOverlays == old(disposedOverlays)
      ensures game.activeClickableMenu == old(game.activeClickableMenu)
    {
      MenuChanged(priorMenu, None);
    }

    /** The overlay's `OnChestSelected` handler: remember the chest's inventory and open it. */
    method ChestSelected(selected: ManagedChest)
      requires Valid()
      modifies this`selectedInventory, game`activeClickableMenu
      ensures Valid()
      ensures selectedInventory == Some(selected.container.inventory)
      ensures game.activeClickableMenu == Some(ItemGrabMenu(host.openMenu(selected)))
    {
      selectedInventory := Some(selected.container.inventory);
      game.activeClickableMenu := Some(ItemGrabMenu(host.openMenu(selected)));
    }
  }
}
