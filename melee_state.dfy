/**
 * The state the melee effect handlers of src/mon-blows.c read and change:
 * the player, the attacking monster, the objects in the pack, and the pure
 * arithmetic the handlers perform on them (gold theft, coin splitting,
 * charge drain, experience drain, the bounded pack scan).
 *
 * Collaborators outside mon-blows.c are represented only by what the
 * handlers rely on: take_hit lowers hit points and kills below zero;
 * calls to effect_simple, inven_damage and player_exp_lose are recorded in
 * the player's event log; update_smart_learn is recorded in the monster's
 * lore log; monster_carry adds to what the monster carries.
 */
module MeleeState {

  import opened Wrappers

  /** The GF_/ELEM_ elements the melee handlers use. */
  datatype Element = Acid | Elec | Fire | Cold | Poison | Disenchantment | Chaos

  /** The TMD_ timed effects the melee handlers raise or test. */
  datatype TimedEffect = Blind | Confused | Afraid | Paralyzed | Poisoned | Image

  /** The five stats, STAT_STR .. STAT_CON. */
  datatype Stat = Str | Int | Wis | Dex | Con

  /** The OF_ protection flags passed on to monster learning. */
  datatype Protection = ProtBlind | ProtConf | ProtFear | FreeAct | HoldLife

  /** What update_smart_learn lets the monster note about the player. */
  datatype Observation = SawFlag(flag: Protection) | SawElement(elem: Element)

  /** Object classes the handlers distinguish (tval). */
  datatype Tval = Wand | Staff | Food | Mushroom | Gold | OtherTval

  /** tval_can_have_charges. */
  predicate CanHaveCharges(tv: Tval)
  {
    tv == Wand || tv == Staff
  }

  /** tval_is_edible. */
  predicate IsEdible(tv: Tval)
  {
    tv == Food || tv == Mushroom
  }

  /** Where an object came from; stolen gold is marked with the depth it was stolen at. */
  datatype Origin = OriginOther | OriginStolen(depth: int)

  /** An object: class, level of its kind, pval (charges or coin value), stack size, artifact or not, origin. */
  datatype Item = Item(tval: Tval, level: nat, pval: int, number: int, artifact: bool, origin: Origin)

  /** A call the handlers make into a collaborator outside mon-blows.c. */
  datatype Event =
    | InvenDamage(elem: Element, amount: int)   // inven_damage
    | DrainStat(stat: Stat)                      // effect_simple(EF_DRAIN_STAT)
    | Disenchant                                 // effect_simple(EF_DISENCHANT)
    | DrainLight                                 // effect_simple(EF_DRAIN_LIGHT, "250+1d250")
    | Earthquake                                 // effect_simple(EF_EARTHQUAKE), radius 8
    | ExpLoss(amount: int)                       // player_exp_lose, not permanent

  datatype Pos = Pos(x: int, y: int)

  /** The largest pval one object can hold (a signed 16-bit value). */
  const MAX_PVAL: int := 32767

  function Min(a: int, b: int): int { if a < b then a else b }
  function Max(a: int, b: int): int { if a > b then a else b }

  /** C's integer division, which truncates toward zero. */
  function CDiv(a: int, b: int): (q: int)
    requires b > 0
    ensures a >= 0 ==> 0 <= a - q * b < b
    ensures a < 0 ==> -b < a - q * b <= 0
  {
    if a >= 0 then a / b else -((-a) / b)
  }

  class Player {
    var hp: int
    var isDead: bool
    var au: int
    var timed: map<TimedEffect, int>
    var pos: Pos
    var events: seq<Event>
    const exp: int
    const lev: int
    /** adj_dex_safe[] at the player's dexterity index. */
    const dexSafe: int
    /** state.skills[SKILL_SAVE]. */
    const skillSave: int
    /** player_of_has(OF_HOLD_LIFE). */
    const holdLife: bool
    /** player_resists(ELEM_DISEN). */
    const resistsDisen: bool
    const depth: int
    /** upkeep->inven: the pack, z_info->pack_size slots. */
    const inven: array<Option<Item>>

    ghost predicate Valid()
      reads this, inven
    {
      && au >= 0
      && inven.Length >= 1
      && (forall t: TimedEffect :: t in timed)
      && (forall k :: 0 <= k < inven.Length && inven[k].Some? ==> inven[k].value.number >= 1)
    }

    constructor (hp: int, au: int, timed: map<TimedEffect, int>, pos: Pos, exp: int, lev: int,
                 dexSafe: int, skillSave: int, holdLife: bool, resistsDisen: bool, depth: int,
                 inven: array<Option<Item>>)
      requires au >= 0 && inven.Length >= 1 && (forall t: TimedEffect :: t in timed)
      requires forall k :: 0 <= k < inven.Length && inven[k].Some? ==> inven[k].value.number >= 1
      ensures Valid()
      ensures this.hp == hp && !isDead && this.au == au && this.timed == timed && this.pos == pos
      ensures events == [] && this.exp == exp && this.lev == lev && this.dexSafe == dexSafe
      ensures this.skillSave == skillSave && this.holdLife == holdLife
      ensures this.resistsDisen == resistsDisen && this.depth == depth && this.inven == inven
    {
      this.hp, isDead, this.au, this.timed, this.pos := hp, false, au, timed, pos;
      events := [];
      this.exp, this.lev, this.dexSafe, this.skillSave := exp, lev, dexSafe, skillSave;
      this.holdLife, this.resistsDisen, this.depth, this.inven := holdLife, resistsDisen, depth, inven;
    }

    /** take_hit: lose `dam` hit points; falling below zero kills. */
    method TakeHit(dam: int)
      modifies this
      ensures hp == old(hp) - dam && isDead == (old(isDead) || hp < 0)
      ensures au == old(au) && timed == old(timed) && pos == old(pos) && events == old(events)
    {
      hp := hp - dam;
      if hp < 0 {
        isDead := true;
      }
    }

    /**
     * player_inc_timed: raise timer `kind` by `amount`. What the timer becomes
     * and whether that counts as a change are decided by the collaborator
     * `inc`, which sees the timer's current value.
     */
    method IncTimed(kind: TimedEffect, amount: int, inc: (TimedEffect, int, int) -> TimerResult)
      returns (changed: bool)
      requires Valid()
      modifies this
      ensures Valid()
      ensures timed == old(timed)[kind := inc(kind, old(timed[kind]), amount).value]
      ensures changed == inc(kind, old(timed[kind]), amount).changed
      ensures hp == old(hp) && isDead == old(isDead) && au == old(au) && pos == old(pos) && events == old(events)
    {
      var res := inc(kind, timed[kind], amount);
      timed := timed[kind := res.value];
      changed := res.changed;
    }

    /** A call into a collaborator whose effect this model does not follow. */
    method Record(e: Event)
      modifies this
      ensures events == old(events) + [e]
      ensures hp == old(hp) && isDead == old(isDead) && au == old(au) && timed == old(timed) && pos == old(pos)
    {
      events := events + [e];
    }
  }

  /** What player_inc_timed leaves in the timer, and whether it reports a change. */
  datatype TimerResult = TimerResult(changed: bool, value: int)

  class Monster {
    var hp: int
    const maxhp: int
    /** The objects the monster carries (monster_carry adds to them). */
    var carried: seq<Item>
    /** What update_smart_learn let the monster note, in order. */
    var lore: seq<Observation>

    ghost predicate Valid()
      reads this
    {
      hp <= maxhp
    }

    constructor (hp: int, maxhp: int)
      requires hp <= maxhp
      ensures Valid() && this.hp == hp && this.maxhp == maxhp && carried == [] && lore == []
    {
      this.hp, this.maxhp, carried, lore := hp, maxhp, [], [];
    }
  }

  // ---------------------------------------------------------------------
  // Gold theft.

  /**
   * The amount EAT_GOLD takes from a purse of `au`, given the draws
   * randint1(25) (`small`) and randint1(3000) (`big`): a tenth of the purse
   * plus `small`, at least 2; if that exceeds 5000, a twentieth plus `big`
   * instead; never more than the purse holds.
   */
  function GoldToSteal(au: int, small: int, big: int): (gold: int)
    requires au >= 0 && 1 <= small <= 25 && 1 <= big <= 3000
    ensures 0 <= gold <= au
    ensures gold == 0 <==> au == 0
    ensures gold >= Min(2, au)
    ensures au / 10 + small <= 5000 ==> gold <= Max(2, au / 10 + small)
    ensures au / 10 + small > 5000 ==> gold <= au / 20 + big
  {
    var g := au / 10 + small;
    var g := if g < 2 then 2 else g;
    var g := if g > 5000 then au / 20 + big else g;
    if g > au then au else g
  }

  /** The sum of the pvals of some objects. */
  function PvalSum(items: seq<Item>): int
  {
    if items == [] then 0 else PvalSum(items[..|items| - 1]) + items[|items| - 1].pval
  }

  /** A coin object of the stolen loot, worth `amount`, stolen at `depth`. */
  function Coin(amount: int, depth: int): Item
  {
    Item(Gold, 0, amount, 1, false, OriginStolen(depth))
  }

  /**
   * The while (gold > 0) loop of EAT_GOLD: put the stolen `gold` into coin
   * objects of at most MAX_PVAL each, all full but the last.
   */
  method SplitIntoCoins(gold: int, depth: int) returns (coins: seq<Item>)
    ensures gold > 0 ==> PvalSum(coins) == gold
    ensures gold <= 0 ==> coins == []
    ensures forall i :: 0 <= i < |coins| ==> coins[i] == Coin(coins[i].pval, depth) && 0 < coins[i].pval <= MAX_PVAL
    ensures forall i :: 0 <= i < |coins| - 1 ==> coins[i].pval == MAX_PVAL
  {
    coins := [];
    var left := gold;
    while left > 0
      invariant gold > 0 ==> PvalSum(coins) + left == gold
      invariant gold <= 0 ==> coins == [] && left == gold
      invariant left < 0 ==> gold == left
      invariant forall i :: 0 <= i < |coins| ==> coins[i] == Coin(coins[i].pval, depth) && 0 < coins[i].pval <= MAX_PVAL
      invariant forall i :: 0 <= i < |coins| - 1 ==> coins[i].pval == MAX_PVAL
      invariant |coins| > 0 ==> coins[|coins| - 1].pval == MAX_PVAL || left == 0
    {
      var amt := if left > MAX_PVAL then MAX_PVAL else left;
      assert (coins + [Coin(amt, depth)])[..|coins|] == coins;
      coins := coins + [Coin(amt, depth)];
      left := left - amt;
    }
  }

  // ---------------------------------------------------------------------
  // Charge drain.

  /** How many charges DRAIN_CHARGES takes from an object of kind level `level`. */
  function Unpower(rlev: int, level: nat): (n: int)
    requires rlev >= 1
    ensures n >= 1
    ensures n == 1 <==> rlev < level + 2
  {
    rlev / (level + 2) + 1
  }

  // ---------------------------------------------------------------------
  // Experience drain.

  /**
   * The experience an EXP_ handler takes when the player does not keep hold
   * of their life force: drain = base + (exp / 100) * percent, all of it
   * without HOLD_LIFE and a tenth of it (C division) with HOLD_LIFE.
   */
  function ExpDrained(holdLife: bool, exp: int, base: int, percent: int): (lost: int)
  {
    var drain := base + CDiv(exp, 100) * percent;
    if holdLife then CDiv(drain, 10) else drain
  }

  /** With non-negative inputs no drain is negative, and HOLD_LIFE keeps at least nine tenths of it. */
  lemma ExpDrainedBounds(holdLife: bool, exp: int, base: int, percent: int)
    requires exp >= 0 && base >= 0 && percent >= 0
    ensures var full := base + (exp / 100) * percent;
      && 0 <= ExpDrained(holdLife, exp, base, percent) <= full
      && (!holdLife ==> ExpDrained(holdLife, exp, base, percent) == full)
      && (holdLife ==> 10 * ExpDrained(holdLife, exp, base, percent) <= full < 10 * (ExpDrained(holdLife, exp, base, percent) + 1))
  {
  }

  // ---------------------------------------------------------------------
  // The bounded pack scans of EAT_ITEM, EAT_FOOD and DRAIN_CHARGES.

  /** What a pack scan looks for. */
  datatype Purpose = Theft | Meal | Charges

  /** Would the scan for `purpose` act on this slot? */
  predicate Eligible(purpose: Purpose, slot: Option<Item>)
  {
    match purpose
    case Theft => slot.Some? && !slot.value.artifact
    case Meal => slot.Some? && IsEdible(slot.value.tval)
    case Charges => slot.Some? && CanHaveCharges(slot.value.tval) && slot.value.pval != 0
  }

  /** Every try picks a slot of the pack. */
  ghost predicate PicksInPack(picks: seq<int>, packSize: int)
  {
    forall t :: 0 <= t < |picks| ==> 0 <= picks[t] < packSize
  }

  /**
   * The first try, from try `k` on, whose randomly picked slot is eligible,
   * if any: the outcome of a scan that stops at its first hit. The scan of a
   * handler is ScanFrom(inv, picks, purpose, 0).
   */
  function ScanFrom(inv: seq<Option<Item>>, picks: seq<int>, purpose: Purpose, k: nat): (r: Option<nat>)
    requires PicksInPack(picks, |inv|) && k <= |picks|
    ensures r.Some? ==> k <= r.value < |picks| && Eligible(purpose, inv[picks[r.value]])
    ensures r.Some? ==> forall u :: k <= u < r.value ==> !Eligible(purpose, inv[picks[u]])
    ensures r.None? ==> forall u :: k <= u < |picks| ==> !Eligible(purpose, inv[picks[u]])
    decreases |picks| - k
  {
    if k == |picks| then None
    else if Eligible(purpose, inv[picks[k]]) then Some(k)
    else ScanFrom(inv, picks, purpose, k + 1)
  }

  /**
   * The `for (tries = 0; tries < 10; tries++)` scan: visit the picked slots
   * in order and stop at the first eligible one.
   */
  method FindTarget(inven: array<Option<Item>>, picks: seq<int>, purpose: Purpose) returns (found: Option<nat>)
    requires PicksInPack(picks, inven.Length)
    ensures found == ScanFrom(inven[..], picks, purpose, 0)
  {
    var tries := 0;
    while tries < |picks|
      invariant 0 <= tries <= |picks|
      invariant ScanFrom(inven[..], picks, purpose, 0) == ScanFrom(inven[..], picks, purpose, tries)
    {
      if Eligible(purpose, inven[picks[tries]]) {
        return Some(tries);
      }
      tries := tries + 1;
    }
    return None;
  }

  /**
   * What stays in a slot once gear_object_for_use has handed out one unit:
   * no unit is lost or made, the rest keeps every other property, and no
   * empty stack is left in the pack.
   */
  function TakeOne(it: Item): (rest: Option<Item>)
    requires it.number >= 1
    ensures (if rest.Some? then rest.value.number else 0) + OneUnit(it).number == it.number
    ensures rest.Some? ==> rest.value.(number := it.number) == it && rest.value.number >= 1
  {
    if it.number > 1 then Some(it.(number := it.number - 1)) else None
  }

  /** The single unit gear_object_for_use hands out. */
  function OneUnit(it: Item): (unit: Item)
    ensures unit.number == 1 && unit.(number := it.number) == it
  {
    it.(number := 1)
  }
}
