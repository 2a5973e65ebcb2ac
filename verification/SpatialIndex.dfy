/** The multi-resolution index of a map: src/map.rs. Every cell of every resolution lists the entities whose
    recorded coordinates lower to it. */
module SpatialIndex {
  type Entity = nat
  datatype Hex = Hex(x: int, y: int)
  datatype Transform = Transform(mapName: string, coords: Hex, facing: nat)
  datatype Option<+T> = None | Some(value: T)

  /** One resolution. A cell without an entry is empty. */
  type Cells = map<Hex, seq<Entity>>

  function At(cells: Cells, c: Hex): seq<Entity> {
    if c in cells then cells[c] else []
  }

  /** How often a cell lists an entity. */
  function Listed(cells: Cells, c: Hex, e: Entity): nat {
    multiset(At(cells, c))[e]
  }

  function AddAt(cells: Cells, e: Entity, c: Hex): Cells {
    if e in At(cells, c) then cells[c := At(cells, c)] else cells[c := At(cells, c) + [e]]
  }

  function Without(es: seq<Entity>, e: Entity): seq<Entity> {
    if es == [] then []
    else if es[0] == e then Without(es[1..], e)
    else [es[0]] + Without(es[1..], e)
  }

  function RemoveAt(cells: Cells, e: Entity, c: Hex): Cells {
    if c in cells then cells[c := Without(cells[c], e)] else cells
  }

  lemma AddListed(cells: Cells, e: Entity, c: Hex)
    ensures forall d, f :: Listed(AddAt(cells, e, c), d, f)
                           == if d == c && f == e && Listed(cells, c, e) == 0 then 1 else Listed(cells, d, f)
  {
  }

  lemma {:induction false} WithoutCounts(es: seq<Entity>, e: Entity)
    ensures forall f :: multiset(Without(es, e))[f] == if f == e then 0 else multiset(es)[f]
  {
    if es != [] {
      WithoutCounts(es[1..], e);
      assert es == [es[0]] + es[1..];
    }
  }

  lemma RemoveListed(cells: Cells, e: Entity, c: Hex)
    ensures forall d, f :: Listed(RemoveAt(cells, e, c), d, f) == if d == c && f == e then 0 else Listed(cells, d, f)
  {
    if c in cells {
      WithoutCounts(cells[c], e);
    }
  }

  function Pow2(n: nat): nat {
    if n == 0 then 1 else 2 * Pow2(n - 1)
  }

  /** `hex_resolutions`: the cell of a hex at a resolution, by the library's `to_lower_res`. */
  function Lower(toLowerRes: (Hex, nat) -> Hex, base: nat, hex: Hex, resolution: nat): Hex {
    toLowerRes(hex, if resolution == 0 then 0 else base * Pow2(resolution - 1))
  }

  /** How a map lowers coordinates: the library's function, and the radius of the first coarse resolution. */
  datatype Lowering = Lowering(toLowerRes: (Hex, nat) -> Hex, base: nat)

  function CellOf(l: Lowering, coords: Hex, i: nat): Hex {
    Lower(l.toLowerRes, l.base, coords, i)
  }

  /** The cells of the finest resolution are single hexes; those of the next one have the radius that is set, and each further
      one doubles it. */
  lemma Radii(l: Lowering, coords: Hex, i: nat)
    ensures CellOf(l, coords, 0) == l.toLowerRes(coords, 0) && CellOf(l, coords, 1) == l.toLowerRes(coords, l.base)
    ensures i > 0 ==> CellOf(l, coords, i + 1) == CellOf(l.(base := 2 * l.base), coords, i)
  {
    if i > 0 {
      Doubled(l.base, Pow2(i - 1));
      assert Pow2(i) == 2 * Pow2(i - 1);
    }
  }

  lemma Doubled(base: nat, power: nat)
    ensures base * (2 * power) == 2 * base * power
  {
  }

  function Expected(l: Lowering, i: nat, entities: map<Entity, Transform>, c: Hex, e: Entity): nat {
    if e in entities && CellOf(l, entities[e].coords, i) == c then 1 else 0
  }

  /** A cell lists an entity once if the entity's coordinates lower to it, and not at all otherwise. */
  ghost predicate Agrees(cells: Cells, l: Lowering, i: nat, entities: map<Entity, Transform>) {
    forall c, e :: Listed(cells, c, e) == Expected(l, i, entities, c, e)
  }

  /** One resolution after an addition. */
  lemma AddAgrees(cells: Cells, l: Lowering, i: nat, entities: map<Entity, Transform>, e: Entity, xform: Transform)
    requires Agrees(cells, l, i, entities)
    ensures Agrees(AddAt(cells, e, CellOf(l, xform.coords, i)), l, i, entities[e := xform])
            <==> (e in entities ==> CellOf(l, entities[e].coords, i) == CellOf(l, xform.coords, i))
  {
    hide AddAt, Listed, Lower;
    var goal := CellOf(l, xform.coords, i);
    AddListed(cells, e, goal);
    if e in entities && CellOf(l, entities[e].coords, i) != goal {
      var from := CellOf(l, entities[e].coords, i);
      assert Listed(AddAt(cells, e, goal), from, e) == 1 && Expected(l, i, entities[e := xform], from, e) == 0;
    } else {
      forall c, f ensures Listed(AddAt(cells, e, goal), c, f) == Expected(l, i, entities[e := xform], c, f) {
        assert Listed(cells, c, f) == Expected(l, i, entities, c, f) && Listed(cells, goal, e) == Expected(l, i, entities, goal, e);
      }
    }
  }

  /** An entity that is added in two cells stays in both. */
  lemma AddedTwice(e: Entity, c: Hex, d: Hex)
    requires c != d
    ensures var cells := AddAt(AddAt(map[], e, c), e, d); Listed(cells, c, e) == 1 == Listed(cells, d, e)
  {
    AddListed(map[], e, c);
    AddListed(AddAt(map[], e, c), e, d);
    assert Listed(AddAt(map[], e, c), c, e) == 1 && Listed(AddAt(map[], e, c), d, e) == 0;
  }

  lemma RemoveAgrees(cells: Cells, l: Lowering, i: nat, entities: map<Entity, Transform>, e: Entity)
    requires Agrees(cells, l, i, entities) && e in entities
    ensures Agrees(RemoveAt(cells, e, CellOf(l, entities[e].coords, i)), l, i, entities - {e})
  {
    hide RemoveAt, Listed, Lower;
    var from := CellOf(l, entities[e].coords, i);
    RemoveListed(cells, e, from);
    forall c, f ensures Listed(RemoveAt(cells, e, from), c, f) == Expected(l, i, entities - {e}, c, f) {
      assert Listed(cells, c, f) == Expected(l, i, entities, c, f);
    }
  }

  lemma MoveAgrees(cells: Cells, l: Lowering, i: nat, entities: map<Entity, Transform>, e: Entity, xform: Transform)
    requires Agrees(cells, l, i, entities) && e in entities
    ensures var from, goal := CellOf(l, entities[e].coords, i), CellOf(l, xform.coords, i);
            Agrees(if from == goal then cells else AddAt(RemoveAt(cells, e, from), e, goal), l, i, entities[e := xform])
  {
    var from, goal := CellOf(l, entities[e].coords, i), CellOf(l, xform.coords, i);
    if from == goal {
      hide Listed, Lower;
      forall c, f ensures Listed(cells, c, f) == Expected(l, i, entities[e := xform], c, f) {
        assert Listed(cells, c, f) == Expected(l, i, entities, c, f);
      }
    } else {
      hide AddAt, RemoveAt, Listed, Lower;
      RemoveAgrees(cells, l, i, entities, e);
      AddAgrees(RemoveAt(cells, e, from), l, i, entities - {e}, e, xform);
      assert (entities - {e})[e := xform] == entities[e := xform];
    }
  }

  class Entities {
    const lowering: Lowering
    const resolutions: nat
    var byCoords: seq<Cells>
    var byId: map<Entity, Transform>

    ghost predicate Valid()
      reads this
    {
      |byCoords| == resolutions && forall i :: 0 <= i < resolutions ==> Agrees(byCoords[i], lowering, i, byId)
    }

    constructor (lower: (Hex, nat) -> Hex, initResPower: nat, extraResolutions: nat)
      ensures Valid() && byId == map[] && resolutions == extraResolutions + 1 && lowering == Lowering(lower, initResPower)
    {
      lowering, resolutions := Lowering(lower, initResPower), extraResolutions + 1;
      byCoords := seq(extraResolutions + 1, _ => map[]);
      byId := map[];
    }

    /** The entities at a hex: those whose coordinates lower to it, each once. */
    method IterAt(coord: Hex, resolution: nat) returns (es: seq<Entity>)
      requires Valid() && resolution < resolutions
      ensures forall e :: multiset(es)[e] == if e in byId && CellOf(lowering, byId[e].coords, resolution) == coord then 1 else 0
    {
      es := if coord in byCoords[resolution] then byCoords[resolution][coord] else [];
      forall e ensures multiset(es)[e] == if e in byId && CellOf(lowering, byId[e].coords, resolution) == coord then 1 else 0 {
        assert Listed(byCoords[resolution], coord, e) == Expected(lowering, resolution, byId, coord, e);
      }
    }

    method AddAtResolution(e: Entity, c: Hex, i: nat)
      requires i < |byCoords|
      modifies this`byCoords
      ensures byCoords == old(byCoords)[i := AddAt(old(byCoords)[i], e, c)]
    {
      var ents := if c in byCoords[i] then byCoords[i][c] else [];
      if e !in ents {
        ents := ents + [e];
      }
      byCoords := byCoords[i := byCoords[i][c := ents]];
    }

    /** `retain`: all entities of a cell but one. */
    method RemoveAtResolution(e: Entity, c: Hex, i: nat)
      requires i < |byCoords|
      modifies this`byCoords
      ensures byCoords == old(byCoords)[i := RemoveAt(old(byCoords)[i], e, c)]
    {
      if c in byCoords[i] {
        var kept := Retain(byCoords[i][c], e);
        byCoords := byCoords[i := byCoords[i][c := kept]];
      }
    }

    method Retain(ents: seq<Entity>, e: Entity) returns (kept: seq<Entity>)
      ensures kept == Without(ents, e)
    {
      kept := [];
      var k := 0;
      while k < |ents|
        invariant 0 <= k <= |ents| && kept + Without(ents[k..], e) == Without(ents, e)
      {
        assert ents[k..][1..] == ents[k + 1..];
        if ents[k] != e {
          kept := kept + [ents[k]];
        }
        k := k + 1;
      }
    }

    /** `add_entity`: right for an entity that is not there yet, and for one that stays in its cells. */
    method AddEntity(e: Entity, xform: Transform)
      requires Valid()
      modifies this
      ensures byId == old(byId)[e := xform]
      ensures Valid() <==> (e in old(byId) ==> forall i :: 0 <= i < resolutions ==>
                              CellOf(lowering, old(byId)[e].coords, i) == CellOf(lowering, xform.coords, i))
    {
      var i := 0;
      while i < resolutions
        invariant 0 <= i <= resolutions == |byCoords| && byId == old(byId)
        invariant forall k :: 0 <= k < resolutions ==>
                    byCoords[k] == if k < i then AddAt(old(byCoords)[k], e, CellOf(lowering, xform.coords, k)) else old(byCoords)[k]
      {
        AddAtResolution(e, Lower(lowering.toLowerRes, lowering.base, xform.coords, i), i);
        i := i + 1;
      }
      byId := byId[e := xform];
      forall k | 0 <= k < resolutions
        ensures Agrees(byCoords[k], lowering, k, byId)
                <==> (e in old(byId) ==> CellOf(lowering, old(byId)[e].coords, k) == CellOf(lowering, xform.coords, k))
      {
        AddAgrees(old(byCoords)[k], lowering, k, old(byId), e, xform);
      }
    }

    method RemoveEntity(e: Entity) returns (prev: Option<Transform>)
      requires Valid()
      modifies this
      ensures Valid() && byId == old(byId) - {e}
      ensures prev == if e in old(byId) then Some(old(byId)[e]) else None
    {
      if e !in byId {
        return None;
      }
      prev := Some(byId[e]);
      byId := byId - {e};
      var i := 0;
      while i < resolutions
        invariant 0 <= i <= resolutions == |byCoords| && byId == old(byId) - {e}
        invariant forall k :: 0 <= k < i ==> Agrees(byCoords[k], lowering, k, byId)
        invariant forall k :: i <= k < resolutions ==> byCoords[k] == old(byCoords)[k]
      {
        RemoveAgrees(byCoords[i], lowering, i, old(byId), e);
        RemoveAtResolution(e, Lower(lowering.toLowerRes, lowering.base, prev.value.coords, i), i);
        i := i + 1;
      }
    }

    /** Moves an entity, or adds one that is not there: only the cells that differ are touched. */
    method MoveEntity(e: Entity, xform: Transform)
      requires Valid()
      modifies this
      ensures Valid() && byId == old(byId)[e := xform]
    {
      if e !in byId {
        AddEntity(e, xform);
        return;
      }
      var prev := byId[e];
      byId := byId[e := xform];
      var i := 0;
      while i < resolutions
        invariant 0 <= i <= resolutions == |byCoords| && byId == old(byId)[e := xform]
        invariant forall k :: 0 <= k < i ==> Agrees(byCoords[k], lowering, k, byId)
        invariant forall k :: i <= k < resolutions ==> byCoords[k] == old(byCoords)[k]
      {
        MoveAgrees(byCoords[i], lowering, i, old(byId), e, xform);
        var from, goal := Lower(lowering.toLowerRes, lowering.base, prev.coords, i), Lower(lowering.toLowerRes, lowering.base, xform.coords, i);
        if from != goal {
          RemoveAtResolution(e, from, i);
          AddAtResolution(e, goal, i);
        }
        i := i + 1;
      }
    }
  }

  /** All maps by name. */
  class Maps {
    const byName: map<string, Entities>

    /** Each map's index is right; an entity is on one map at most, the one its transform names. */
    ghost predicate Valid()
      reads this, byName.Values
    {
      (forall n :: n in byName ==> byName[n].Valid())
      && (forall n, m :: n in byName && m in byName && byName[n] == byName[m] ==> n == m)
      && forall n, e :: n in byName && e in byName[n].byId ==> byName[n].byId[e].mapName == n
    }

    constructor (maps: map<string, Entities>)
      requires forall n :: n in maps ==> maps[n].Valid() && maps[n].byId == map[]
      requires forall n, m :: n in maps && m in maps && maps[n] == maps[m] ==> n == m
      ensures Valid() && byName == maps
    {
      byName := maps;
    }

    /** Where an entity is, according to the maps. */
    ghost predicate On(n: string, e: Entity, xform: Transform)
      reads this, byName.Values
    {
      n in byName && e in byName[n].byId && byName[n].byId[e] == xform
    }

    /** The entity is on the map already, at coordinates that lower to the same cells. */
    ghost predicate InSameCells(n: string, e: Entity, coords: Hex)
      requires n in byName && e in byName[n].byId
      reads this, byName.Values
    {
      forall i :: 0 <= i < byName[n].resolutions ==>
        CellOf(byName[n].lowering, byName[n].byId[e].coords, i) == CellOf(byName[n].lowering, coords, i)
    }

    /** `MapEntitiesMut::move_entity`: on one map, or from one to another. Of all maps only these change, and
        only for this entity. The indexes stay right unless the entity comes to a map that has it already, in
        other cells. */
    method MoveEntity(e: Entity, from: Transform, goal: Transform) returns (moved: bool)
      requires Valid()
      modifies byName.Values
      ensures moved == (from != goal)
      ensures Valid() <==> (from.mapName != goal.mapName && goal.mapName in byName && e in old(byName[goal.mapName].byId)
                            ==> old(InSameCells(goal.mapName, e, goal.coords)))
      ensures moved && goal.mapName in byName ==> On(goal.mapName, e, goal)
      ensures forall n :: n in byName ==>
                byName[n].byId == if !moved then old(byName[n].byId)
                                  else if n == goal.mapName then old(byName[n].byId)[e := goal]
                                  else if n == from.mapName then old(byName[n].byId) - {e}
                                  else old(byName[n].byId)
    {
      if from == goal {
        return false;
      } else if from.mapName == goal.mapName {
        if goal.mapName in byName {
          byName[goal.mapName].MoveEntity(e, goal);
        }
      } else {
        if from.mapName in byName {
          var _ := byName[from.mapName].RemoveEntity(e);
        }
        if goal.mapName in byName {
          byName[goal.mapName].AddEntity(e, goal);
        }
      }
      return true;
    }
  }
}
