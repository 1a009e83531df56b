/**
 * The exploration map's registries: entities and triggers keyed by integer
 * tile positions, the camera position and the layer count. An entity's
 * floating-point position is keyed by truncating each coordinate.
 */
module Maps {
  import opened Common

  /** A tile position (`Vector2Int`). */
  type Cell = (int, int)

  /** A trigger object; only its identity matters here. */
  class Trigger {
    constructor ()
    {
    }
  }

  /** A map entity and its world position. */
  class Entity {
    var x: real
    var y: real

    constructor (x: real, y: real)
      ensures this.x == x && this.y == y
    {
      this.x := x;
      this.y := y;
    }
  }

  /** The cell a world position falls in: `new Vector2Int((int)x, (int)y)`. */
  function CellOf(x: real, y: real): (c: Cell)
    ensures x >= 0.0 ==> c.0 as real <= x < c.0 as real + 1.0
    ensures y >= 0.0 ==> c.1 as real <= y < c.1 as real + 1.0
    ensures x < 0.0 ==> c.0 as real - 1.0 < x <= c.0 as real
    ensures y < 0.0 ==> c.1 as real - 1.0 < y <= c.1 as real
  {
    (Truncate(x), Truncate(y))
  }

  /**
   * Truncation sends positions on either side of 0 to the same cell: the
   * origin cell covers the open square from -1 to 1, twice as wide as any
   * other, and cells mirror through the origin.
   */
  lemma CellOfOrigin(x: real, y: real)
    ensures CellOf(x, y) == (0, 0) <==> -1.0 < x < 1.0 && -1.0 < y < 1.0
    ensures CellOf(-x, -y) == (-CellOf(x, y).0, -CellOf(x, y).1)
  {
  }

  /** Registering a value at a cell unless the cell is taken. */
  function Registered<V>(m: map<Cell, V>, c: Cell, v: V): map<Cell, V>
  {
    if c in m then m else m[c := v]
  }

  /**
   * The first registration at a cell wins: a later one changes nothing,
   * registering the same thing twice is registering it once, and removing
   * a fresh registration restores the registry.
   */
  lemma RegisteredFirstWins<V>(m: map<Cell, V>, c: Cell, v: V, w: V)
    ensures c in Registered(m, c, v)
    ensures c in m ==> Registered(m, c, v) == m
    ensures c !in m ==> Registered(m, c, v) == m[c := v]
    ensures Registered(Registered(m, c, v), c, w) == Registered(m, c, v)
    ensures c !in m ==> Registered(m, c, v) - {c} == m
    ensures forall d :: d != c && d in m ==> d in Registered(m, c, v) && Registered(m, c, v)[d] == m[d]
  {
  }

  /** A map: its camera, its entity and trigger registries and its layer count. */
  class Map {
    var camX: int
    var camY: int
    var layerChildren: nat
    var triggers: map<Cell, Trigger>
    var entities: map<Cell, Entity>
    const emptyTrigger: Trigger

    constructor (layerChildren: nat)
      ensures this.layerChildren == layerChildren && triggers == map[] && entities == map[]
      ensures camX == 0 && camY == 0 && fresh(emptyTrigger)
    {
      camX := 0;
      camY := 0;
      this.layerChildren := layerChildren;
      triggers := map[];
      entities := map[];
      emptyTrigger := new Trigger();
    }

    /** `NormalizedLayerCount`: three tilemap children make one layer. */
    function NormalizedLayerCount(): (n: nat)
      reads this
      ensures 3 * n <= layerChildren < 3 * n + 3
    {
      layerChildren / 3
    }

    /** `GetTrigger`: the registered trigger, or the map's one shared empty trigger. */
    function GetTrigger(x: int, y: int): (t: Trigger)
      reads this
      ensures (x, y) in triggers ==> t == triggers[(x, y)]
      ensures (x, y) !in triggers ==> t == emptyTrigger
    {
      if (x, y) in triggers then triggers[(x, y)] else emptyTrigger
    }

    /** `AddTrigger`: a new empty trigger at the cell; a cell already in use throws. */
    method AddTrigger(x: int, y: int) returns (fault: Option<Fault>)
      modifies this
      ensures (x, y) in old(triggers) ==> fault == Some(DuplicateKey) && triggers == old(triggers)
      ensures (x, y) !in old(triggers) ==>
        (fault.None? && (x, y) in triggers && fresh(triggers[(x, y)]) &&
         triggers == old(triggers)[(x, y) := triggers[(x, y)]])
      ensures entities == old(entities) && camX == old(camX) && camY == old(camY)
    {
      if (x, y) in triggers {
        return Some(DuplicateKey);
      }
      var t := new Trigger();
      triggers := triggers[(x, y) := t];
      return None;
    }

    /** `UpdateCameraPosition`. */
    method UpdateCameraPosition(x: int, y: int)
      modifies this
      ensures camX == x && camY == y
      ensures triggers == old(triggers) && entities == old(entities)
    {
      camX := x;
      camY := y;
    }

    /** `AddEntity(entity, position)`: registers the entity unless the cell is taken. */
    method AddEntityAt(entity: Entity, c: Cell)
      modifies this
      ensures entities == Registered(old(entities), c, entity)
      ensures triggers == old(triggers) && camX == old(camX) && camY == old(camY)
    {
      if c in entities {
        return;
      }
      entities := entities[c := entity];
    }

    /** `AddEntity(entity)`: as `AddEntityAt`, at the cell of the entity's position. */
    method AddEntity(entity: Entity)
      modifies this
      ensures entities == Registered(old(entities), CellOf(entity.x, entity.y), entity)
      ensures triggers == old(triggers) && camX == old(camX) && camY == old(camY)
      ensures var c := CellOf(entity.x, entity.y);
        GetEntity(entity.x, entity.y).Some? &&
        GetEntity(entity.x, entity.y).value == (if c in old(entities) then old(entities)[c] else entity)
    {
      var c := CellOf(entity.x, entity.y);
      AddEntityAt(entity, c);
    }

    /** `RemoveEntity`: whatever occupies the entity's cell is removed, this entity or another. */
    method RemoveEntity(entity: Entity)
      modifies this
      ensures entities == old(entities) - {CellOf(entity.x, entity.y)}
      ensures triggers == old(triggers) && camX == old(camX) && camY == old(camY)
    {
      var c := CellOf(entity.x, entity.y);
      if c !in entities {
        return;
      }
      entities := entities - {c};
    }

    /** `GetEntity`: the entity registered at the cell of a world position, if any. */
    function GetEntity(x: real, y: real): (e: Option<Entity>)
      reads this
      ensures e.Some? <==> CellOf(x, y) in entities
      ensures e.Some? ==> e.value == entities[CellOf(x, y)]
    {
      var c := CellOf(x, y);
      if c in entities then Some(entities[c]) else None
    }
  }
}
