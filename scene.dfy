/** The game's managers as mutable objects, and the two procedures that change
    them: scene setup and the per-frame input system. Each procedure is tied to
    its value-level counterpart in module Game, whose properties are proved
    there. */
module Scene {
  import opened Grid
  import opened Game

  /** The game singleton. */
  class GameData {
    /** Which entity occupies each grid cell. */
    var grid: map<GridPos, Entity>
    /** The grid cell currently selected by the player. */
    var selected: GridPos
    /** The game cursor in world space; the selection follows it in whole cells. */
    var cursor: Point
    /** Resources the player can still spend. */
    var resourceCount: nat

    /** The singleton as it is registered, before scene setup. */
    constructor ()
      ensures grid == map[] && selected == Origin && cursor == Point(0.0, 0.0, 0.0)
      ensures resourceCount == InitialResourceCount
    {
      grid := map[];
      selected := Origin;
      cursor := Point(0.0, 0.0, 0.0);
      resourceCount := InitialResourceCount;
    }
  }

  /** The store of player-unit components, keyed by entity. */
  class UnitManager {
    var units: map<Entity, PlayerUnit>

    constructor ()
      ensures units == map[]
    {
      units := map[];
    }
  }

  /** The part of the engine's transform store that the game writes: each
      entity's position and uniform scale. */
  class TransformManager {
    var position: map<Entity, Point>
    var scale: map<Entity, real>

    constructor ()
      ensures position == map[] && scale == map[]
    {
      position := map[];
      scale := map[];
    }
  }

  /** The value the three managers hold together. */
  ghost function Snapshot(game: GameData, unitManager: UnitManager, transforms: TransformManager): World
    reads game, unitManager, transforms
  {
    World(game.grid, game.selected, game.cursor, game.resourceCount,
          unitManager.units, transforms.position, transforms.scale)
  }

  /** Registers the already instantiated base entity at the origin cell as a
      level-1 base, centred on that cell and scaled for level 1. */
  method SceneSetup(game: GameData, unitManager: UnitManager, transforms: TransformManager, base: Entity)
    modifies game, unitManager, transforms
    ensures Snapshot(game, unitManager, transforms) == Setup(old(Snapshot(game, unitManager, transforms)), base)
    ensures game.grid == old(game.grid)[Origin := base]
    ensures unitManager.units == old(unitManager.units)[base := Base(1)]
    ensures transforms.position == old(transforms.position)[base := CellCenter(Origin)]
    ensures transforms.scale == old(transforms.scale)[base := BaseScale(1)]
    ensures game.selected == old(game.selected) && game.cursor == old(game.cursor)
    ensures game.resourceCount == old(game.resourceCount)
  {
    game.grid := game.grid[Origin := base];
    unitManager.units := unitManager.units[base := Base(1)];
    transforms.position := transforms.position[base := CellCenter(Origin)];
    transforms.scale := transforms.scale[base := BaseScale(1)];
  }

  /** One frame of the input system: moves the cursor by the mouse delta,
      selects the cell under it and, on a secondary-button press with
      resources left, upgrades the base on that cell. The unit lookup has no
      fallback, so every grid entity must carry a unit. */
  method ManagerUpdate(game: GameData, unitManager: UnitManager, transforms: TransformManager,
                       mouseDx: int, mouseDy: int, secondaryPressed: bool)
    requires Consistent(Snapshot(game, unitManager, transforms))
    modifies game, unitManager, transforms
    ensures Snapshot(game, unitManager, transforms)
      == Step(old(Snapshot(game, unitManager, transforms)), FrameInput(mouseDx, mouseDy, secondaryPressed))
    ensures Consistent(Snapshot(game, unitManager, transforms))
    ensures game.cursor == MoveCursor(old(game.cursor), mouseDx, mouseDy)
    ensures game.selected == FromWorld(game.cursor)
    ensures game.grid == old(game.grid) && transforms.position == old(transforms.position)
    ensures game.resourceCount <= old(game.resourceCount)
    ensures unitManager.units.Keys == old(unitManager.units.Keys)
    ensures forall e :: e in old(unitManager.units) && (game.selected !in game.grid || game.grid[game.selected] != e)
              ==> unitManager.units[e] == old(unitManager.units[e])
  {
    game.cursor := MoveCursor(game.cursor, mouseDx, mouseDy);
    game.selected := FromWorld(game.cursor);

    if secondaryPressed && game.resourceCount > 0 {
      if game.selected in game.grid {
        var entity := game.grid[game.selected];
        match unitManager.units[entity]
        case Base(level) =>
          unitManager.units := unitManager.units[entity := Base(level + 1)];
          game.resourceCount := game.resourceCount - 1;
          transforms.scale := transforms.scale[entity := BaseScale(level + 1)];
        case Turret =>
      }
    }
  }
}
