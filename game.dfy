/** The game's state as a value, and what one frame of the input system does
    to it. Entities are opaque identifiers handed out by the engine; the
    engine's component stores appear here only as the maps the game reads and
    writes (player units, and the position and uniform scale of transforms). */
module Game {
  import opened Grid

  /** World units the cursor moves per unit of mouse motion. */
  const MouseSpeed: real := 0.1
  /** Uniform scale of the base per level, per world unit of cell size. */
  const BaseScalePerLevel: real := 0.1
  /** Resources the player starts the session with. */
  const InitialResourceCount: nat := 10

  datatype Option<T> = None | Some(value: T)

  /** An engine entity, known only by its identifier. */
  datatype Entity = Entity(id: nat)

  /** The player-owned component of a grid entity. */
  datatype PlayerUnit = Base(level: nat) | Turret

  /** What the engine reports to the input system in one frame. */
  datatype FrameInput = FrameInput(mouseDx: int, mouseDy: int, secondaryPressed: bool)

  /** The game singleton together with the parts of the unit and transform
      stores that the game touches. */
  datatype World = World(
    grid: map<GridPos, Entity>,
    selected: GridPos,
    cursor: Point,
    resourceCount: nat,
    units: map<Entity, PlayerUnit>,
    position: map<Entity, Point>,
    scale: map<Entity, real>)

  /** Every entity placed on the grid carries a player unit; the upgrade step
      looks the unit up without a fallback and relies on this. */
  predicate Consistent(w: World) {
    forall c :: c in w.grid ==> w.grid[c] in w.units
  }

  /** A unit is unchanged, or is a base at the same or a higher level. */
  predicate NotLower(u: PlayerUnit, u': PlayerUnit) {
    u == u' || (u.Base? && u'.Base? && u.level <= u'.level)
  }

  /** The uniform scale a base of the given level is drawn at. */
  function BaseScale(level: nat): real {
    level as real * CellSize * BaseScalePerLevel
  }

  /** The state the game singleton is created with, before scene setup. */
  function InitialWorld(): (w: World)
    ensures Consistent(w) && w.grid == map[] && w.units == map[]
    ensures w.selected == Origin && w.cursor == Point(0.0, 0.0, 0.0)
    ensures w.resourceCount == InitialResourceCount
  {
    World(map[], Origin, Point(0.0, 0.0, 0.0), InitialResourceCount, map[], map[], map[])
  }

  /** Scene setup: the base entity is registered at the origin cell as a
      level-1 base, placed at the cell's center and scaled for level 1. */
  function Setup(w: World, base: Entity): (r: World)
    ensures Consistent(w) ==> Consistent(r)
    ensures r.grid.Keys == w.grid.Keys + {Origin} && r.grid[Origin] == base
    ensures r.units.Keys == w.units.Keys + {base} && r.units[base] == Base(1)
    ensures forall c :: c in w.grid && c != Origin ==> r.grid[c] == w.grid[c]
    ensures forall e :: e in w.units && e != base ==> r.units[e] == w.units[e]
    ensures r.selected == w.selected && r.cursor == w.cursor && r.resourceCount == w.resourceCount
  {
    w.(grid := w.grid[Origin := base],
       units := w.units[base := Base(1)],
       position := w.position[base := CellCenter(Origin)],
       scale := w.scale[base := BaseScale(1)])
  }

  /** The cursor after one frame's mouse motion: x follows the mouse, y
      follows it inverted, z stays. */
  function MoveCursor(cursor: Point, dx: int, dy: int): Point {
    Point(cursor.x + dx as real * MouseSpeed, cursor.y + (-dy) as real * MouseSpeed, cursor.z + 0.0)
  }

  /** The entity on the selected cell, if any. */
  function Occupant(w: World): (o: Option<Entity>)
    ensures o.Some? <==> w.selected in w.grid
    ensures o.Some? ==> w.grid[w.selected] == o.value
  {
    if w.selected in w.grid then Some(w.grid[w.selected]) else None
  }

  /** The secondary button upgrades the selected unit exactly when it is
      pressed, a resource is left and the selected cell holds a base. */
  predicate UpgradeApplies(w: World, pressed: bool)
    requires Consistent(w)
  {
    pressed && w.resourceCount > 0 && w.selected in w.grid && w.units[w.grid[w.selected]].Base?
  }

  /** The secondary-button part of the frame, on the already selected cell. */
  function Upgrade(w: World, pressed: bool): (r: World)
    requires Consistent(w)
    ensures Consistent(r)
    ensures r.grid == w.grid && r.selected == w.selected && r.cursor == w.cursor
    ensures r.position == w.position
    ensures r.units.Keys == w.units.Keys
    ensures r.resourceCount <= w.resourceCount
    ensures r.resourceCount < w.resourceCount <==> UpgradeApplies(w, pressed)
    ensures forall e :: e in w.units ==> NotLower(w.units[e], r.units[e])
    ensures forall e :: e in w.units && Occupant(w) != Some(e) ==> r.units[e] == w.units[e]
    ensures forall e :: e in w.scale && Occupant(w) != Some(e) ==> e in r.scale && r.scale[e] == w.scale[e]
  {
    if pressed && w.resourceCount > 0 && w.selected in w.grid then
      var e := w.grid[w.selected];
      match w.units[e]
      case Base(level) =>
        w.(units := w.units[e := Base(level + 1)],
           resourceCount := w.resourceCount - 1,
           scale := w.scale[e := BaseScale(level + 1)])
      case Turret => w
    else
      w
  }

  /** The world after the cursor part of a frame, before the button part. */
  function Moved(w: World, input: FrameInput): (r: World)
    ensures InCell(r.cursor, r.selected)
    ensures r.grid == w.grid && r.units == w.units && r.resourceCount == w.resourceCount
    ensures r.position == w.position && r.scale == w.scale
  {
    var c := MoveCursor(w.cursor, input.mouseDx, input.mouseDy);
    w.(cursor := c, selected := FromWorld(c))
  }

  /** One frame of the input system: move the cursor, reselect the cell under
      it, then apply the secondary button to that cell. */
  function Step(w: World, input: FrameInput): (r: World)
    requires Consistent(w)
    ensures Consistent(r)
    ensures r.cursor == MoveCursor(w.cursor, input.mouseDx, input.mouseDy)
    ensures InCell(r.cursor, r.selected)
    ensures r.grid == w.grid && r.position == w.position
    ensures r.units.Keys == w.units.Keys
    ensures r.resourceCount <= w.resourceCount
    ensures forall e :: e in w.units ==> NotLower(w.units[e], r.units[e])
  {
    Upgrade(Moved(w, input), input.secondaryPressed)
  }

  /** The engine running the input system once per frame, for a sequence of
      frames. */
  function Run(w: World, inputs: seq<FrameInput>): (r: World)
    requires Consistent(w)
    ensures Consistent(r)
    ensures r.grid == w.grid && r.position == w.position
    ensures r.units.Keys == w.units.Keys
    ensures r.resourceCount <= w.resourceCount
    ensures forall e :: e in w.units ==> NotLower(w.units[e], r.units[e])
    decreases |inputs|
  {
    if inputs == [] then w else Run(Step(w, inputs[0]), inputs[1..])
  }

  /** The cursor moves by the scaled mouse delta, with y inverted, and the
      selection is the cell under the new cursor. */
  lemma StepMovesCursor(w: World, input: FrameInput)
    requires Consistent(w)
    ensures Step(w, input).cursor.x == w.cursor.x + input.mouseDx as real * MouseSpeed
    ensures Step(w, input).cursor.y == w.cursor.y - input.mouseDy as real * MouseSpeed
    ensures Step(w, input).cursor.z == w.cursor.z
    ensures Step(w, input).selected == FromWorld(Step(w, input).cursor)
  {
    FromWorldIff(Step(w, input).cursor, Step(w, input).selected);
  }

  /** Without a press, without resources, or on an empty cell, the frame
      leaves the grid, the units, the transforms and the resources alone. */
  lemma GuardNoOp(w: World, input: FrameInput)
    requires Consistent(w)
    requires !input.secondaryPressed || w.resourceCount == 0 || Moved(w, input).selected !in w.grid
    ensures Step(w, input).grid == w.grid
    ensures Step(w, input).units == w.units
    ensures Step(w, input).scale == w.scale && Step(w, input).position == w.position
    ensures Step(w, input).resourceCount == w.resourceCount
  {
  }

  /** A turret on the selected cell makes the button do nothing. */
  lemma TurretNoOp(w: World, input: FrameInput)
    requires Consistent(w)
    requires Moved(w, input).selected in w.grid
    requires w.units[w.grid[Moved(w, input).selected]] == Turret
    ensures Step(w, input).grid == w.grid
    ensures Step(w, input).units == w.units
    ensures Step(w, input).scale == w.scale
    ensures Step(w, input).resourceCount == w.resourceCount
  {
  }

  /** A press on a base with resources left raises its level by one, spends
      exactly one resource and rescales the base for its new level; every
      other unit and scale stays as it was. */
  lemma BaseUpgrade(w: World, input: FrameInput, level: nat)
    requires Consistent(w)
    requires input.secondaryPressed && w.resourceCount > 0
    requires Moved(w, input).selected in w.grid
    requires w.units[w.grid[Moved(w, input).selected]] == Base(level)
    ensures var e := w.grid[Moved(w, input).selected];
      && Step(w, input).units == w.units[e := Base(level + 1)]
      && Step(w, input).scale == w.scale[e := BaseScale(level + 1)]
      && Step(w, input).resourceCount == w.resourceCount - 1
      && Step(w, input).grid == w.grid
  {
  }

  /** Each upgrade grows the base's scale by the same amount. */
  lemma BaseScalePerUpgrade(level: nat)
    ensures BaseScale(level + 1) == BaseScale(level) + CellSize * BaseScalePerLevel
    ensures BaseScale(level) == level as real * 0.5
  {
  }

  /** The world right after scene setup: only the base, at the origin, at
      level 1, with the starting resources and the origin selected. */
  lemma SetupState(base: Entity)
    ensures var w := Setup(InitialWorld(), base);
      && w.grid == map[Origin := base]
      && w.units == map[base := Base(1)]
      && w.resourceCount == InitialResourceCount
      && w.selected == Origin
      && w.cursor == Point(0.0, 0.0, 0.0)
      && w.position == map[base := CellCenter(Origin)]
      && w.scale == map[base := BaseScale(1)]
      && Consistent(w)
  {
  }

  /** The grid holds only the base, and the base's level plus the resources
      still in hand is `total`. */
  predicate SingleBase(w: World, base: Entity, total: nat) {
    && w.grid == map[Origin := base]
    && w.resourceCount <= total
    && w.units == map[base := Base(total - w.resourceCount)]
  }

  /** One frame keeps the single-base conservation. */
  lemma StepKeepsSingleBase(w: World, base: Entity, total: nat, input: FrameInput)
    requires SingleBase(w, base, total)
    ensures Consistent(w) && SingleBase(Step(w, input), base, total)
  {
  }

  /** Over any number of frames, every resource spent went into the base's
      level, one level per resource. */
  lemma {:induction false} RunKeepsSingleBase(w: World, base: Entity, total: nat, inputs: seq<FrameInput>)
    requires SingleBase(w, base, total)
    ensures Consistent(w) && SingleBase(Run(w, inputs), base, total)
    decreases |inputs|
  {
    if inputs != [] {
      StepKeepsSingleBase(w, base, total, inputs[0]);
      RunKeepsSingleBase(Step(w, inputs[0]), base, total, inputs[1..]);
    }
  }

  /** From scene setup on, the base's level and the resources in hand always
      add up to the starting level plus the starting resources, so the base
      never passes level 11 and the counter never underflows. */
  lemma SessionConservation(base: Entity, inputs: seq<FrameInput>)
    ensures Consistent(Setup(InitialWorld(), base))
    ensures var w := Run(Setup(InitialWorld(), base), inputs);
      && w.grid == map[Origin := base]
      && w.units.Keys == {base}
      && w.units[base].Base?
      && w.units[base].level + w.resourceCount == 1 + InitialResourceCount
  {
    SetupState(base);
    RunKeepsSingleBase(Setup(InitialWorld(), base), base, 1 + InitialResourceCount, inputs);
  }
}
