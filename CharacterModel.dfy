/**
 * The domain character model and its conversion from the generated
 * ("legacy") client schema. The legacy integers are 32-bit and widen
 * losslessly into the 64-bit integers of the domain model.
 */
module CharacterModel {
  import opened Wrappers
  import opened Ints

  // ---------------------------------------------------------------------------
  // Position
  // ---------------------------------------------------------------------------

  /** A map position. */
  datatype Position = Position(x: i64, y: i64)

  /** `Position::new`: the position whose coordinates are exactly `x` and `y`. */
  function NewPosition(x: i64, y: i64): (p: Position)
    ensures p.x == x && p.y == y
  {
    Position(x, y)
  }

  /** `From<(i64, i64)> for Position`: the first component is `x`, the second `y`. */
  function PositionFromTuple(t: (i64, i64)): (p: Position)
    ensures p == NewPosition(t.0, t.1)
    ensures (p.x, p.y) == t
  {
    Position(t.0, t.1)
  }

  /** `From<Position> for (i64, i64)`: its inverse, in both directions. */
  function PositionToTuple(p: Position): (t: (i64, i64))
    ensures PositionFromTuple(t) == p
    ensures t.0 == p.x && t.1 == p.y
  {
    (p.x, p.y)
  }

  /** Converting a tuple to a position and back yields the tuple. */
  lemma TupleRoundTrip(t: (i64, i64))
    ensures PositionToTuple(PositionFromTuple(t)) == t
  {
    var p := PositionFromTuple(t);
    assert (p.x, p.y) == t;
  }

  /** Two positions that convert to the same tuple are equal. */
  lemma PositionToTupleInjective(p: Position, q: Position)
    requires PositionToTuple(p) == PositionToTuple(q)
    ensures p == q
  {
    assert PositionFromTuple(PositionToTuple(p)) == p;
    assert PositionFromTuple(PositionToTuple(q)) == q;
  }

  // ---------------------------------------------------------------------------
  // Inventory
  // ---------------------------------------------------------------------------

  /** The generated `InventorySlot`. */
  datatype InventorySlot = InventorySlot(slot: i32, code: string, quantity: i32)

  /** The domain inventory entry. */
  datatype Inventory = Inventory(slot: i64, code: string, quantity: i64)

  /** `Inventory::from_legacy`: slot, code and quantity carried over unchanged. */
  function InventoryFromLegacy(legacy: InventorySlot): (inv: Inventory)
    ensures inv.slot as int == legacy.slot as int
    ensures inv.code == legacy.code
    ensures inv.quantity as int == legacy.quantity as int
  {
    Inventory(Widen(legacy.slot), legacy.code, Widen(legacy.quantity))
  }

  /** Distinct legacy slots convert to distinct entries: nothing is lost. */
  lemma InventoryFromLegacyInjective(a: InventorySlot, b: InventorySlot)
    requires InventoryFromLegacy(a) == InventoryFromLegacy(b)
    ensures a == b
  {
    assert a.slot as int == InventoryFromLegacy(a).slot as int == b.slot as int;
    assert a.quantity as int == InventoryFromLegacy(a).quantity as int == b.quantity as int;
  }

  /** `.into_iter().map(Inventory::from_legacy).collect()`: elementwise, order kept. */
  function InventoryList(legacy: seq<InventorySlot>): (list: seq<Inventory>)
    ensures |list| == |legacy|
    ensures forall i :: 0 <= i < |legacy| ==> list[i] == InventoryFromLegacy(legacy[i])
  {
    if legacy == [] then [] else [InventoryFromLegacy(legacy[0])] + InventoryList(legacy[1..])
  }

  /** The total number of items held in a legacy inventory. */
  function LegacyQuantity(legacy: seq<InventorySlot>): int {
    if legacy == [] then 0 else legacy[0].quantity as int + LegacyQuantity(legacy[1..])
  }

  /** The total number of items held in a domain inventory. */
  function Quantity(list: seq<Inventory>): int {
    if list == [] then 0 else list[0].quantity as int + Quantity(list[1..])
  }

  /** Conversion keeps the total item count. */
  lemma {:induction false} InventoryListQuantity(legacy: seq<InventorySlot>)
    ensures Quantity(InventoryList(legacy)) == LegacyQuantity(legacy)
  {
    if legacy != [] {
      var list := InventoryList(legacy);
      assert list[1..] == InventoryList(legacy[1..]);
      InventoryListQuantity(legacy[1..]);
    }
  }

  /** Conversion distributes over concatenation of legacy inventories. */
  lemma InventoryListConcat(a: seq<InventorySlot>, b: seq<InventorySlot>)
    ensures InventoryList(a + b) == InventoryList(a) + InventoryList(b)
  {
    var l, r := InventoryList(a + b), InventoryList(a) + InventoryList(b);
    assert |l| == |r|;
    forall i | 0 <= i < |l| ensures l[i] == r[i] {
      if i < |a| {
        assert (a + b)[i] == a[i];
      } else {
        assert (a + b)[i] == b[i - |a|];
      }
    }
  }

  // ---------------------------------------------------------------------------
  // Character
  // ---------------------------------------------------------------------------

  /** The generated `CharacterSchema`, restricted to the fields this model follows. */
  datatype CharacterSchema = CharacterSchema(
    name: string,
    account: string,
    level: i32,
    xp: i32,
    maxXp: i32,
    gold: i32,
    x: i32,
    y: i32,
    hp: i32,
    maxHp: i32,
    cooldown: i32,
    cooldownExpiration: Option<string>,
    inventoryMaxItems: i32,
    inventory: Option<seq<InventorySlot>>)

  /** The hit points of the domain `Stats`. */
  datatype Stats = Stats(hp: i64, maxHp: i64)

  /** The domain `Character`, restricted like `CharacterSchema`. */
  datatype Character = Character(
    name: string,
    account: string,
    level: i64,
    xp: i64,
    maxXp: i64,
    gold: i64,
    position: Position,
    stats: Stats,
    cooldown: i64,
    cooldownExpiration: Option<string>,
    inventoryMaxItems: i64,
    inventory: seq<Inventory>)

  /** `Option::unwrap_or_default` on an optional list. */
  function UnwrapOrEmpty<T>(o: Option<seq<T>>): (s: seq<T>)
    ensures o.None? ==> s == []
    ensures o.Some? ==> s == o.value
  {
    match o
    case None => []
    case Some(s) => s
  }

  /** `Character::from_legacy`. */
  function CharacterFromLegacy(legacy: CharacterSchema): (c: Character)
    ensures c.name == legacy.name && c.account == legacy.account
    ensures c.level as int == legacy.level as int && c.xp as int == legacy.xp as int
    ensures c.maxXp as int == legacy.maxXp as int && c.gold as int == legacy.gold as int
    ensures c.position.x as int == legacy.x as int && c.position.y as int == legacy.y as int
    ensures c.stats.hp as int == legacy.hp as int && c.stats.maxHp as int == legacy.maxHp as int
    ensures c.cooldown as int == legacy.cooldown as int
    ensures c.cooldownExpiration == legacy.cooldownExpiration
    ensures c.inventoryMaxItems as int == legacy.inventoryMaxItems as int
    ensures legacy.inventory.None? ==> c.inventory == []
    ensures legacy.inventory.Some? ==>
              |c.inventory| == |legacy.inventory.value| &&
              forall i :: 0 <= i < |legacy.inventory.value| ==>
                c.inventory[i] == InventoryFromLegacy(legacy.inventory.value[i])
  {
    Character(
      legacy.name,
      legacy.account,
      Widen(legacy.level),
      Widen(legacy.xp),
      Widen(legacy.maxXp),
      Widen(legacy.gold),
      NewPosition(Widen(legacy.x), Widen(legacy.y)),
      Stats(Widen(legacy.hp), Widen(legacy.maxHp)),
      Widen(legacy.cooldown),
      legacy.cooldownExpiration,
      Widen(legacy.inventoryMaxItems),
      InventoryList(UnwrapOrEmpty(legacy.inventory)))
  }

  /** A missing legacy inventory and an empty one convert alike. */
  lemma MissingInventoryIsEmpty(legacy: CharacterSchema)
    requires legacy.inventory.None?
    ensures CharacterFromLegacy(legacy) == CharacterFromLegacy(legacy.(inventory := Some([])))
  {
    assert InventoryList([]) == [];
  }

  /** The converted character holds as many items as the legacy one. */
  lemma CharacterQuantity(legacy: CharacterSchema)
    ensures Quantity(CharacterFromLegacy(legacy).inventory) == LegacyQuantity(UnwrapOrEmpty(legacy.inventory))
  {
    InventoryListQuantity(UnwrapOrEmpty(legacy.inventory));
  }

  /** The converted position, read back as a tuple, is the legacy `(x, y)`. */
  lemma CharacterPositionTuple(legacy: CharacterSchema)
    ensures PositionToTuple(CharacterFromLegacy(legacy).position) == (Widen(legacy.x), Widen(legacy.y))
  {
  }
}
