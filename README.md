# Grid bookkeeping and base upgrade of a grid-based tower-defense game

This project models the gameplay core of a small tower-defense game written
in Rust on top of an entity-component-system engine (`src/lib.rs`). The engine
is not modelled. What remains is:

- **Grid addressing** (module `Grid`, file `grid.dfy`). A `GridPos` names a
  cell of the ground-plane grid. `FromWorld` floors a world point divided by
  the cell size (5 world units). `ToWorld` gives a cell's minimum corner.
  `CellCenter` gives the cell's middle at z = 0. Coordinates are exact `real`s.
  A cell `(x, y)` covers `[x*5, (x+1)*5)` in x and the same band in y.
  The predicate `InCell` states this, and every conversion is proved against it.
- **Game state and one frame of the input system as values** (module `Game`,
  file `game.dfy`). A `World` holds the grid map, the selected cell, the
  cursor, the resource counter, the player-unit store and the transform data
  the game writes (position and uniform scale). A `PlayerUnit` is
  `Base(level)` or `Turret`. `Setup` is scene setup. `Step` is one run of the
  per-frame input system: move the cursor, reselect, then apply the
  secondary-button upgrade. `Run` applies `Step` once per frame.
- **The managers as mutable objects** (module `Scene`, file `scene.dfy`).
  There are three classes: `GameData` (the singleton), `UnitManager` and
  `TransformManager`. The methods `SceneSetup` and `ManagerUpdate` update
  their map fields in place. Each method's postcondition equates the new
  state with `Setup` or `Step` of the old state, and also states its frame
  conditions directly.

The key invariant is `Consistent`: every entity on the grid carries a player
unit. The source looks the unit up with `unwrap()`, so it relies on this. Setup
establishes the invariant and every frame preserves it. From setup on, the
base's level plus the resources in hand always equals 11
(`SessionConservation`). So every resource spent goes into the base, and the
counter never underflows.

In this version of the source, `PlayerUnit::Turret` carries no data, a
secondary press on a turret does nothing, and there is no turret placement,
camera follow, enemy, spawner, alarm or collision code.

## Model

| member | source | states |
|---|---|---|
| Grid.FromWorld | src/lib.rs:152-157 | the cell computed for a point contains that point (cell = half-open square of side 5 at the cell's minimum corner) |
| Grid.ToWorld | src/lib.rs:159-164 | the returned point lies in the cell, has z = 0, and is the cell's minimum corner: no point of the cell has a smaller x or y |
| Grid.CellCenter | src/lib.rs:166-171 | the returned point lies in the cell, has z = 0, and is the minimum corner plus half a cell in x and in y |
| Grid.CellsDisjoint | src/lib.rs:133-137 | no point lies in two different cells |
| Grid.FromWorldIff | src/lib.rs:133-157 | `FromWorld(p) == g` exactly when `p` lies in cell `g` (both directions) |
| Grid.FromWorldContains | src/lib.rs:152-164 | for every point, `ToWorld(FromWorld(p)).x <= p.x < ToWorld(FromWorld(p)).x + 5`, and likewise in y |
| Grid.ToWorldRoundTrip | src/lib.rs:152-164 | `FromWorld(ToWorld(g)) == g` for every cell |
| Grid.CellCenterRoundTrip | src/lib.rs:152-171 | `FromWorld(CellCenter(g)) == g` for every cell |
| Grid.RefloorIdempotent | src/lib.rs:152-164 | re-flooring a point's cell corner gives back the point's cell |
| Game.InitialWorld | src/lib.rs:49-55 | the game singleton and the unit store as first registered: empty grid and units (so the invariant holds), the origin cell selected, the cursor at (0, 0, 0) and 10 resources |
| Game.BaseScale | src/lib.rs:105-108 | the base's uniform scale for a level, `level * CELL_SIZE * BASE_SCALE_PER_LEVEL`; no contract of its own, specified by `BaseScalePerUpgrade` (0.5 per level) and used by `BaseUpgrade` for the write at src/lib.rs:212-215 |
| Game.MoveCursor | src/lib.rs:183 | the cursor plus `(dx*MOUSE_SPEED, -dy*MOUSE_SPEED, 0)`; no contract of its own, specified by `StepMovesCursor` |
| Game.Moved | src/lib.rs:181-185 | the cursor part of a frame: the new selection contains the new cursor, and the grid, units, resources, positions and scales are untouched |
| Game.UpgradeApplies | src/lib.rs:200-205 | the guard of the upgrade: pressed, a resource left, the selected cell occupied, and its unit a base; no contract of its own, tied to spending by the iff in `Upgrade`'s ensures |
| Scene.UnitManager.constructor | src/lib.rs:55 | the unit store starts empty |
| Game.Setup | src/lib.rs:96-109 | setup registers the base at the origin cell as `Base(1)`, leaves every other cell and unit, the cursor, the selection and the resources alone, and keeps the grid/unit invariant |
| Game.SetupState | src/lib.rs:49-109 | from the initial singleton and unit store (lines 49-55), scene setup (lines 96-109) yields grid `{(0,0) -> base}`, units `{base -> Base(1)}`, 10 resources, the origin selected, the cursor at (0, 0, 0), base centred on the origin cell with scale 0.5, and the invariant holds |
| Game.Occupant | src/lib.rs:202-203 | the lookup finds an entity exactly when the selected cell is on the grid, and returns the entity registered there |
| Game.Upgrade | src/lib.rs:199-220 | the button step keeps the invariant, changes neither grid, selection, cursor nor positions, and never adds or removes units. It spends a resource exactly when the button is pressed, a resource is left and the selected cell holds a base. No unit's level drops, and every unit and scale other than the selected one is unchanged |
| Game.Step | src/lib.rs:174-221 | one frame moves the cursor by the scaled mouse delta and selects the cell containing the new cursor. It keeps the invariant, leaves the grid and positions unchanged, never raises the resource count, and never lowers a unit |
| Game.Run | src/lib.rs:57-58 | over any sequence of frames of the registered system: the invariant holds, the grid and unit set are unchanged, resources never rise, and levels never fall |
| Game.StepMovesCursor | src/lib.rs:180-185 | the cursor moves by `(dx*0.1, -dy*0.1, 0)` and afterwards `selected == FromWorld(cursor)` |
| Game.GuardNoOp | src/lib.rs:200-202 | without a secondary press, with no resources, or with the selected cell empty, the grid, units, transforms and resources are unchanged |
| Game.TurretNoOp | src/lib.rs:217 | a turret on the selected cell makes the press change nothing |
| Game.BaseUpgrade | src/lib.rs:204-216 | a press on `Base(l)` with resources left yields `Base(l+1)`, exactly one resource fewer, and that base's scale set to `(l+1)*5*0.1`. All other units and scales are unchanged |
| Game.BaseScalePerUpgrade | src/lib.rs:212-215 | each level adds exactly `CELL_SIZE * BASE_SCALE_PER_LEVEL` (0.5) to the base's uniform scale |
| Game.StepKeepsSingleBase | src/lib.rs:199-216 | when the grid holds only the base, one frame keeps "base level + resources = total" |
| Game.RunKeepsSingleBase | src/lib.rs:199-216 | the same conservation holds over any number of frames (proved by induction on the frames) |
| Game.SessionConservation | src/lib.rs:49-216 | from setup on, the grid stays `{(0,0) -> base}` and the base's level plus resources is always 11 |
| Scene.GameData.constructor | src/lib.rs:49-54 | the singleton starts with an empty grid, the origin selected, the cursor at the world origin and 10 resources |
| Scene.SceneSetup | src/lib.rs:96-109 | the managers afterwards hold `Setup` of their old contents. Spelled out: the grid, unit, position and scale maps each gain exactly the base's entry, and nothing else changes |
| Scene.ManagerUpdate | src/lib.rs:174-221 | the managers afterwards hold `Step` of their old contents. Requires the grid/unit invariant that the unchecked lookup relies on, and re-establishes it. The cursor moves, `selected == FromWorld(cursor)`, the grid and positions are unchanged, resources never rise, the unit set is unchanged, and every unit not on the selected cell is untouched |

## Left out

- `do_main`, the `game_setup!` macro, `game_init` and `game_reload`: engine registration, resource-file loading and hot-reload plumbing. `Run` stands for the engine calling the registered system once per frame.
- Entity creation, model instantiation, the light and the camera made in scene setup: these are engine calls with no behaviour stated in the game. The base entity is a parameter of `Setup` and `SceneSetup`.
- The camera's `set_position` and `look_at`, and the light: these are transform side effects on entities that the game never reads again.
- Debug drawing of the cursor and the selected cell: rendering only.
- Input polling: the mouse delta and the secondary-button state are parameters. The frame's elapsed time is unused by this system and is not a parameter.
- `GridPos::new` is the datatype constructor `GridPos(x, y)`.
- Floating point: coordinates, speeds and scales are exact reals. f32 rounding (0.1 is not exact in f32), NaN, and overflow of the `as isize` cast in `from_world` are not modelled.
- Game.BaseUpgrade: a base's level is an unbounded `nat`, so the `usize` overflow of `*level += 1` at the maximum level is not modelled. From setup the level never exceeds 11, as `SessionConservation` shows.
- Game.MoveCursor: the negation of the vertical mouse delta is taken on an unbounded integer, so overflow at the minimum integer is not modelled.
- The engine's transform store is modelled only as the positions and scales the game writes. A scale is a single real because the game always sets all three axes to the same value.
