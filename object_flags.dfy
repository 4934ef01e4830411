/**
 * Object flag and modifier tables of src/obj-properties.c: the power
 * multipliers a flag or modifier earns in a given equipment slot, the index
 * of the sustain flag of a stat, the table getters, and the mask builder.
 *
 * The tables themselves are generated from list-stats.h,
 * list-object-flags.h and list-object-modifiers.h, which are not part of
 * this model: they enter as values of FlagTable and ModTable whose layout is
 * the one obj-properties.c relies on (see WellFormed and WellFormedMods).
 */
module ObjectFlags {

  /** Stats, in the order of list-stats.h: STR, INT, WIS, DEX, CON. */
  const STAT_DEX: int := 3
  const STAT_MAX: int := 5

  /**
   * Codes of enum object_flag_type and of the OFID_ identification levels.
   * The header that fixes their numeric values is not part of this model;
   * only their distinctness matters here.
   */
  const OFT_NONE: int := 0
  const OFT_SUST: int := 1
  const OFT_PROT: int := 2
  const OFT_MISC: int := 3
  const OFT_LIGHT: int := 4
  const OFT_MELEE: int := 5
  const OFT_BAD: int := 6
  const OFT_DIG: int := 7
  const OFT_MAX: int := 8

  const OFID_NONE: int := 0
  const OFID_NORMAL: int := 1

  /** struct object_flag: index, identification level, type, power, message. */
  datatype ObjectFlag = ObjectFlag(index: int, id: int, kind: int, power: int, message: string)

  /**
   * object_flag_table together with the three flag identities that
   * flag_slot_mult singles out (OF_FEATHER, OF_SLOW_DIGEST, OF_FREE_ACT).
   */
  datatype FlagTable = FlagTable(flags: seq<ObjectFlag>, feather: int, slowDigest: int, freeAct: int)

  /** OF_MAX: the index of the sentinel entry that ends object_flag_table. */
  function OfMax(t: FlagTable): int
  {
    |t.flags| - 1
  }

  /**
   * The layout obj-properties.c relies on: entry k describes flag k, entry 0
   * is OF_NONE, the sustains of the STAT_MAX stats come next (so that the
   * sustain of stat s is entry s + 1), and the table ends with the OF_MAX
   * entry.
   */
  ghost predicate WellFormed(t: FlagTable)
  {
    && |t.flags| >= STAT_MAX + 2
    && (forall k :: 0 <= k < |t.flags| ==> t.flags[k].index == k)
    && t.flags[0] == ObjectFlag(0, OFID_NONE, OFT_NONE, 0, "NONE")
    && (forall k :: 1 <= k <= STAT_MAX ==> t.flags[k].kind == OFT_SUST && t.flags[k].id == OFID_NORMAL)
    && STAT_MAX < t.feather < OfMax(t)
    && STAT_MAX < t.slowDigest < OfMax(t)
    && STAT_MAX < t.freeAct < OfMax(t)
    && t.freeAct != t.feather && t.freeAct != t.slowDigest
  }

  /** The equipment slot types named by the EQUIP_ constants. */
  datatype EquipKind = Weapon | Bow | Ring | Amulet | Light | BodyArmour | Cloak | Shield | Hat | Gloves | Boots

  /**
   * slot_type_is(slot, kind): the player's body gives every slot one type.
   * A slot outside the body is of no type.
   */
  predicate SlotTypeIs(body: seq<EquipKind>, slot: int, kind: EquipKind)
  {
    0 <= slot < |body| && body[slot] == kind
  }

  /**
   * flag_slot_mult: the slot multiplier of a flag's power rating.
   */
  function FlagSlotMult(t: FlagTable, body: seq<EquipKind>, flag: int, slot: int): (r: int)
    requires 0 <= flag < |t.flags|
    ensures r in {0, 1, 2, 5}
    ensures t.flags[flag].kind in {OFT_SUST, OFT_PROT, OFT_BAD, OFT_DIG} ==> r == 1
    ensures r == 0 <==>
      (t.flags[flag].kind == OFT_LIGHT && !SlotTypeIs(body, slot, Light)) ||
      (t.flags[flag].kind == OFT_MELEE && !SlotTypeIs(body, slot, Weapon))
    ensures r == 5 <==>
      t.flags[flag].kind == OFT_MISC && flag == t.freeAct && flag != t.feather && flag != t.slowDigest
      && SlotTypeIs(body, slot, Gloves)
    ensures r == 2 <==>
      (t.flags[flag].kind == OFT_MISC && flag != t.feather && flag != t.slowDigest
       && !SlotTypeIs(body, slot, Weapon) && !SlotTypeIs(body, slot, Bow)
       && !(flag == t.freeAct && SlotTypeIs(body, slot, Gloves)))
  {
    var kind := t.flags[flag].kind;
    if kind == OFT_SUST || kind == OFT_PROT || kind == OFT_BAD || kind == OFT_DIG then 1
    else if kind == OFT_LIGHT then (if SlotTypeIs(body, slot, Light) then 1 else 0)
    else if kind == OFT_MELEE then (if SlotTypeIs(body, slot, Weapon) then 1 else 0)
    else if kind == OFT_MISC then
      if SlotTypeIs(body, slot, Weapon) || SlotTypeIs(body, slot, Bow) then 1
      else if flag == t.feather || flag == t.slowDigest then 1
      else if flag == t.freeAct && SlotTypeIs(body, slot, Gloves) then 5
      else 2
    else 1
  }

  /** flag_power: the base power rating of a flag. */
  function FlagPower(t: FlagTable, flag: int): (r: int)
    requires WellFormed(t) && 0 <= flag < |t.flags|
    ensures forall k :: 0 <= k < |t.flags| && t.flags[k].index == flag ==> r == t.flags[k].power
    ensures flag == 0 ==> r == 0
  {
    t.flags[flag].power
  }

  /** obj_flag_type: the OFT_ type of a flag. */
  function ObjFlagType(t: FlagTable, flag: int): (r: int)
    requires WellFormed(t) && 0 <= flag < |t.flags|
    ensures forall k :: 0 <= k < |t.flags| && t.flags[k].index == flag ==> r == t.flags[k].kind
    ensures flag == 0 ==> r == OFT_NONE
    ensures 1 <= flag <= STAT_MAX ==> r == OFT_SUST
  {
    t.flags[flag].kind
  }

  /**
   * sustain_flag: the flag that sustains a stat, or -1 for a number that is
   * not a stat.
   */
  function SustainFlag(t: FlagTable, stat: int): (r: int)
    requires WellFormed(t)
    ensures r == -1 <==> stat < 0 || stat >= STAT_MAX
    ensures r != -1 ==> r == stat + 1 && 0 < r < OfMax(t) && t.flags[r].kind == OFT_SUST
  {
    if stat < 0 || stat >= STAT_MAX then -1 else t.flags[stat + 1].index
  }

  /** struct object_mod: index, power and weighting of a modifier. */
  datatype ObjectMod = ObjectMod(index: int, power: int, modMult: int)

  /**
   * object_mod_table together with the modifier identities that
   * mod_slot_mult singles out. The stat modifiers come first, so
   * OBJ_MOD_DEX is STAT_DEX.
   */
  datatype ModTable = ModTable(mods: seq<ObjectMod>, blows: int, shots: int, might: int, light: int)

  ghost predicate WellFormedMods(t: ModTable)
  {
    && (forall k :: 0 <= k < |t.mods| ==> t.mods[k].index == k)
    && STAT_MAX <= t.blows < |t.mods| && STAT_MAX <= t.shots < |t.mods|
    && STAT_MAX <= t.might < |t.mods| && STAT_MAX <= t.light < |t.mods|
    && t.blows != t.shots && t.blows != t.might && t.blows != t.light
    && t.shots != t.might && t.shots != t.light && t.might != t.light
  }

  /** mod_power: the base power rating of a modifier. */
  function ModPower(t: ModTable, m: int): (r: int)
    requires WellFormedMods(t) && 0 <= m < |t.mods|
    ensures forall k :: 0 <= k < |t.mods| && t.mods[k].index == m ==> r == t.mods[k].power
  {
    t.mods[m].power
  }

  /** mod_mult: the weighting of a modifier. */
  function ModMult(t: ModTable, m: int): (r: int)
    requires WellFormedMods(t) && 0 <= m < |t.mods|
    ensures forall k :: 0 <= k < |t.mods| && t.mods[k].index == m ==> r == t.mods[k].modMult
  {
    t.mods[m].modMult
  }

  /**
   * mod_slot_mult: the slot multiplier of a modifier's power rating. Ammo is
   * passed slot -1.
   */
  function ModSlotMult(t: ModTable, body: seq<EquipKind>, m: int, slot: int): (r: int)
    requires WellFormedMods(t)
    ensures slot == -1 ==> r == 1
    ensures 0 <= r <= 4
    ensures r == 0 <==>
      (slot != -1 &&
       ((m == t.blows && SlotTypeIs(body, slot, Bow)) ||
        (m == t.shots && SlotTypeIs(body, slot, Weapon)) ||
        (m == t.might && !SlotTypeIs(body, slot, Bow))))
    ensures r == 3 <==>
      (slot != -1 &&
       ((m == t.light && SlotTypeIs(body, slot, Light)) ||
        (m == t.blows && !SlotTypeIs(body, slot, Bow) && !SlotTypeIs(body, slot, Weapon))))
    ensures r == 4 <==> slot != -1 && m == t.shots && !SlotTypeIs(body, slot, Weapon) && !SlotTypeIs(body, slot, Bow)
    ensures r == 2 <==> slot != -1 && m == STAT_DEX && SlotTypeIs(body, slot, Gloves)
  {
    if slot == -1 then 1
    else if m == STAT_DEX && SlotTypeIs(body, slot, Gloves) then 2
    else if m == t.blows then
      if SlotTypeIs(body, slot, Bow) then 0
      else if SlotTypeIs(body, slot, Weapon) then 1
      else 3
    else if m == t.shots then
      if SlotTypeIs(body, slot, Weapon) then 0
      else if SlotTypeIs(body, slot, Bow) then 1
      else 4
    else if m == t.might then
      if SlotTypeIs(body, slot, Bow) then 1 else 0
    else if m == t.light then
      if SlotTypeIs(body, slot, Light) then 3 else 1
    else 1
  }

  /** Does flag entry `of` match one wanted type (or, with `id`, identification level)? */
  predicate Selects(of: ObjectFlag, id: bool, wanted: int)
  {
    (id && of.id == wanted) || (!id && of.kind == wanted)
  }

  /** Is flag k wanted by one of the values in `wanted`? */
  ghost predicate InMask(t: FlagTable, id: bool, wanted: seq<int>, k: int)
    requires 0 <= k < |t.flags|
  {
    exists j :: 0 <= j < |wanted| && Selects(t.flags[k], id, wanted[j])
  }

  /** The position of the OFT_MAX terminator in a variadic argument list. */
  function TerminatorAt(args: seq<int>): (n: nat)
    requires OFT_MAX in args
    ensures n < |args| && args[n] == OFT_MAX && OFT_MAX !in args[..n]
  {
    if args[0] == OFT_MAX then 0 else 1 + TerminatorAt(args[1..])
  }

  /**
   * create_mask: fill `f` with exactly the flags whose type (or, with `id`,
   * identification level) is one of the arguments before the OFT_MAX
   * terminator.
   */
  method CreateMask(f: array<bool>, t: FlagTable, id: bool, args: seq<int>)
    requires WellFormed(t) && f.Length == OfMax(t)
    requires OFT_MAX in args
    modifies f
    ensures forall k :: 0 <= k < f.Length ==> (f[k] <==> InMask(t, id, args[..TerminatorAt(args)], k))
  {
    forall k | 0 <= k < f.Length {
      f[k] := false;
    }
    var n := TerminatorAt(args);
    var j := 0;
    while args[j] != OFT_MAX
      invariant 0 <= j <= n
      invariant forall k :: 0 <= k < f.Length ==> (f[k] <==> InMask(t, id, args[..j], k))
      decreases n - j
    {
      var k := 0;
      while t.flags[k].index < OfMax(t)
        invariant 0 <= k <= OfMax(t)
        invariant forall i :: 0 <= i < k ==> (f[i] <==> InMask(t, id, args[..j + 1], i))
        invariant forall i :: k <= i < f.Length ==> (f[i] <==> InMask(t, id, args[..j], i))
        decreases OfMax(t) - k
      {
        if Selects(t.flags[k], id, args[j]) {
          f[t.flags[k].index] := true;
        }
        InMaskStep(t, id, args, j, k);
        k := k + 1;
      }
      j := j + 1;
    }
  }

  /** Extending the argument prefix by one argument adds exactly the flags it selects. */
  lemma InMaskStep(t: FlagTable, id: bool, args: seq<int>, j: nat, k: int)
    requires j < |args| && 0 <= k < |t.flags|
    ensures InMask(t, id, args[..j + 1], k) <==> InMask(t, id, args[..j], k) || Selects(t.flags[k], id, args[j])
  {
    assert args[..j + 1] == args[..j] + [args[j]];
    if InMask(t, id, args[..j + 1], k) && !Selects(t.flags[k], id, args[j]) {
      var i :| 0 <= i < j + 1 && Selects(t.flags[k], id, args[..j + 1][i]);
      assert i < j && args[..j][i] == args[i];
    }
    if InMask(t, id, args[..j], k) {
      var i :| 0 <= i < j && Selects(t.flags[k], id, args[..j][i]);
      assert args[..j + 1][i] == args[i];
    }
    if Selects(t.flags[k], id, args[j]) {
      assert args[..j + 1][j] == args[j];
    }
  }
}
