/**
 * The melee effect handlers of src/mon-blows.c. Each handler receives the
 * one mutable context of the blow and updates it (damage, obvious, blinked,
 * do_break), the player and the attacking monster.
 *
 * Random draws arrive in a Draws record, one field per draw a handler can
 * make, with the draw's range stated by the handler's precondition. The
 * collaborators outside mon-blows.c whose results the handlers use arrive
 * in a World record.
 */
module MeleeEffects {

  import opened Wrappers
  import opened BlowMethods
  import opened MeleeState

  /** The random draws one blow may make. */
  datatype Draws = Draws(
    save: int,         // randint0(100): saving throw, HOLD_LIFE check, theft save
    timer: int,        // randint1(rlev), or randint1(rlev / 2) for HALLU
    blink: int,        // randint0(3): blink after a foiled gold theft
    small: int,        // randint1(25): gold theft
    big: int,          // randint1(3000): gold theft from a fat purse
    dice: int,         // damroll(n, 6): base experience drain
    picks: seq<int>)   // randint0(pack_size) for each of the ten tries of a pack scan

  /** Ranges of the draws every handler shares. */
  ghost predicate DrawsValid(d: Draws, packSize: int)
  {
    && 0 <= d.save < 100
    && 0 <= d.blink < 3
    && 1 <= d.small <= 25
    && 1 <= d.big <= 3000
    && |d.picks| == 10
    && PicksInPack(d.picks, packSize)
  }

  /**
   * Results of collaborators outside mon-blows.c: adjust_dam_armor,
   * player_inc_timed, z_info->life_drain_percent, this blow's adjust_dam
   * (which randomises), what each effect_simple call reports through its
   * ident flag (by call number), and where the earthquake leaves the player.
   */
  datatype World = World(
    adjustDamArmor: (int, int) -> int,
    incTimed: (TimedEffect, int, int) -> TimerResult,
    lifeDrainPercent: int,
    elementalDam: int,
    noticed: nat -> bool,
    quakePos: Pos)

  /** melee_effect_handler_context_t. */
  class BlowContext {
    const p: Player
    const mon: Monster
    const blow: BlowMethod
    const ac: int
    const rlev: int
    var damage: int
    var obvious: bool
    var blinked: bool
    var doBreak: bool

    ghost predicate Valid()
      reads this, p, p.inven, mon
    {
      p.Valid() && mon.Valid() && rlev >= 1
    }

    constructor (p: Player, mon: Monster, blow: BlowMethod, damage: int, ac: int, rlev: int)
      requires p.Valid() && mon.Valid() && rlev >= 1
      ensures Valid()
      ensures this.p == p && this.mon == mon && this.blow == blow
      ensures this.damage == damage && this.ac == ac && this.rlev == rlev
      ensures !obvious && !blinked && !doBreak
    {
      this.p, this.mon, this.blow := p, mon, blow;
      this.damage, this.ac, this.rlev := damage, ac, rlev;
      obvious, blinked, doBreak := false, false, false;
    }

    /** The physical part of an elemental blow: armour (with a bonus of 50) applies, and only to a physical method. */
    function Physical(dam: int, w: World): int
    {
      if blow.phys then w.adjustDamArmor(dam, ac + 50) else 0
    }

    // -------------------------------------------------------------------
    // The four shared families.

    /**
     * melee_effect_elemental: the blow does the larger of its physical and
     * its elemental damage; the pack is damaged only when the elemental
     * damage is positive, by five times that, at most 300; the player is hit
     * only when the final damage is positive.
     */
    twostate predicate ElementalOutcome(elem: Element, pureElement: bool, w: World)
      reads this, p, mon
    {
      && damage == Max(Physical(old(damage), w), w.elementalDam)
      && (!blow.phys && w.elementalDam >= 0 ==> damage == w.elementalDam)
      && p.events == old(p.events) +
           (if w.elementalDam > 0 then [InvenDamage(elem, Min(w.elementalDam * 5, 300))] else [])
      && (damage > 0 ==> p.hp == old(p.hp) - damage && p.isDead == (old(p.isDead) || p.hp < 0))
      && (damage <= 0 ==> p.hp == old(p.hp) && p.isDead == old(p.isDead))
      && p.au == old(p.au) && p.timed == old(p.timed) && p.pos == old(p.pos)
      && obvious == (old(obvious) || pureElement)
      && mon.lore == old(mon.lore) + (if pureElement then [SawElement(elem)] else [])
      && mon.hp == old(mon.hp) && mon.carried == old(mon.carried)
    }

    /** melee_effect_elemental. */
    method Elemental(elem: Element, pureElement: bool, w: World)
      requires Valid()
      modifies this`damage, this`obvious, p, mon
      ensures Valid() && ElementalOutcome(elem, pureElement, w)
    {
      if pureElement {
        obvious := true;
      }
      var physicalDam := Physical(damage, w);
      var elementalDam := w.elementalDam;
      damage := if physicalDam > elementalDam then physicalDam else elementalDam;
      if elementalDam > 0 {
        p.Record(InvenDamage(elem, Min(elementalDam * 5, 300)));
      }
      if damage > 0 {
        p.TakeHit(damage);
      }
      if pureElement {
        mon.lore := mon.lore + [SawElement(elem)];
      }
    }

    /**
     * melee_effect_timed: hit for the raw damage; unless that killed, either
     * the saving throw (when one is allowed) succeeds, which makes the blow
     * obvious and leaves the timer alone, or the timer is raised and the
     * blow is obvious exactly when player_inc_timed reports a change.
     */
    twostate predicate TimedOutcome(kind: TimedEffect, amount: int, flag: Protection, attemptSave: bool, d: Draws, w: World)
      reads this, p, mon
      requires kind in old(p.timed)
    {
      && damage == old(damage)
      && p.hp == old(p.hp) - damage && p.isDead == (old(p.isDead) || p.hp < 0)
      && p.au == old(p.au) && p.pos == old(p.pos) && p.events == old(p.events)
      && mon.hp == old(mon.hp) && mon.carried == old(mon.carried)
      && (p.isDead ==> p.timed == old(p.timed) && obvious == old(obvious) && mon.lore == old(mon.lore))
      && (!p.isDead ==> mon.lore == old(mon.lore) + [SawFlag(flag)])
      && (!p.isDead && attemptSave && d.save < p.skillSave ==> p.timed == old(p.timed) && obvious)
      && (!p.isDead && !(attemptSave && d.save < p.skillSave) ==>
            var res := w.incTimed(kind, old(p.timed[kind]), amount);
            p.timed == old(p.timed)[kind := res.value] && obvious == (old(obvious) || res.changed))
    }

    /** melee_effect_timed. */
    method Timed(kind: TimedEffect, amount: int, flag: Protection, attemptSave: bool, d: Draws, w: World)
      requires Valid() && 0 <= d.save < 100
      modifies this`obvious, p, mon
      ensures Valid() && TimedOutcome(kind, amount, flag, attemptSave, d, w)
    {
      p.TakeHit(damage);
      if p.isDead {
        return;
      }
      if attemptSave && d.save < p.skillSave {
        obvious := true;
      } else {
        var changed := p.IncTimed(kind, amount, w.incTimed);
        if changed {
          obvious := true;
        }
      }
      mon.lore := mon.lore + [SawFlag(flag)];
    }

    /** One effect_simple(EF_DRAIN_STAT) call; `noticed` is what it reports. */
    method DrainOneStat(stat: Stat, noticed: bool)
      requires Valid()
      modifies this`obvious, p
      ensures Valid()
      ensures p.events == old(p.events) + [DrainStat(stat)]
      ensures obvious == (old(obvious) || noticed)
      ensures p.hp == old(p.hp) && p.isDead == old(p.isDead) && p.au == old(p.au)
      ensures p.timed == old(p.timed) && p.pos == old(p.pos)
    {
      p.Record(DrainStat(stat));
      if noticed {
        obvious := true;
      }
    }

    /** melee_effect_stat: hit for the raw damage, then, unless that killed, drain one stat. */
    twostate predicate StatDrainOutcome(stat: Stat, w: World)
      reads this, p, mon
    {
      && damage == old(damage) && mon.lore == old(mon.lore)
      && p.hp == old(p.hp) - damage && p.isDead == (old(p.isDead) || p.hp < 0)
      && p.au == old(p.au) && p.timed == old(p.timed) && p.pos == old(p.pos)
      && (p.isDead ==> p.events == old(p.events) && obvious == old(obvious))
      && (!p.isDead ==> p.events == old(p.events) + [DrainStat(stat)] && obvious == (old(obvious) || w.noticed(0)))
    }

    /** melee_effect_stat. */
    method StatDrain(stat: Stat, w: World)
      requires Valid()
      modifies this`obvious, p
      ensures Valid() && StatDrainOutcome(stat, w)
    {
      p.TakeHit(damage);
      if p.isDead {
        return;
      }
      DrainOneStat(stat, w.noticed(0));
    }

    /**
     * melee_effect_experience: always obvious; hit for the raw damage; the
     * monster always notes HOLD_LIFE; unless the hit killed, a player with
     * HOLD_LIFE who rolls under `chance` keeps everything, and otherwise
     * loses ExpDrained.
     */
    twostate predicate ExperienceOutcome(chance: int, drainAmount: int, d: Draws, w: World)
      reads this, p, mon
    {
      && damage == old(damage)
      && obvious
      && p.hp == old(p.hp) - damage && p.isDead == (old(p.isDead) || p.hp < 0)
      && p.au == old(p.au) && p.timed == old(p.timed) && p.pos == old(p.pos)
      && mon.hp == old(mon.hp) && mon.carried == old(mon.carried)
      && mon.lore == old(mon.lore) + [SawFlag(HoldLife)]
      && (p.isDead || (p.holdLife && d.save < chance) ==> p.events == old(p.events))
      && (!p.isDead && !(p.holdLife && d.save < chance) ==>
            p.events == old(p.events) + [ExpLoss(ExpDrained(p.holdLife, p.exp, drainAmount, w.lifeDrainPercent))])
    }

    /** melee_effect_experience. */
    method Experience(chance: int, drainAmount: int, d: Draws, w: World)
      requires Valid() && 0 <= d.save < 100
      modifies this`obvious, p, mon
      ensures Valid() && ExperienceOutcome(chance, drainAmount, d, w)
    {
      obvious := true;
      p.TakeHit(damage);
      mon.lore := mon.lore + [SawFlag(HoldLife)];
      if p.isDead {
        return;
      }
      if p.holdLife && d.save < chance {
        // The player keeps hold of their life force.
      } else {
        var drain := drainAmount + CDiv(p.exp, 100) * w.lifeDrainPercent;
        if p.holdLife {
          p.Record(ExpLoss(CDiv(drain, 10)));
        } else {
          p.Record(ExpLoss(drain));
        }
      }
    }

    // -------------------------------------------------------------------
    // The handlers.

    /** NONE: an obvious blow that does no damage. */
    twostate predicate NoneOutcome()
      reads this, p, p.inven, mon
    {
      && damage == 0 && obvious
      && p.hp == old(p.hp) && p.isDead == old(p.isDead) && p.events == old(p.events) && mon.lore == old(mon.lore)
    }

    /** melee_effect_handler_NONE. */
    method MeleeNone()
      modifies this`damage, this`obvious
      ensures NoneOutcome()
    {
      obvious := true;
      damage := 0;
    }

    /** HURT: armour reduces the damage, which then hits the player. */
    twostate predicate HurtOutcome(w: World)
      reads this, p, p.inven, mon
      requires old(Valid()) && Valid()
    {
      && mon.lore == old(mon.lore)
      && obvious
      && damage == w.adjustDamArmor(old(damage), ac)
      && p.hp == old(p.hp) - damage && p.isDead == (old(p.isDead) || p.hp < 0)
      && p.au == old(p.au) && p.timed == old(p.timed) && p.pos == old(p.pos) && p.events == old(p.events)
    }

    /** melee_effect_handler_HURT. */
    method MeleeHurt(w: World)
      requires Valid()
      modifies this`damage, this`obvious, p
      ensures Valid() && HurtOutcome(w)
    {
      obvious := true;
      damage := w.adjustDamArmor(damage, ac);
      p.TakeHit(damage);
    }

    /**
     * POISON: an impure poison elemental blow; unless it killed, the poison
     * timer rises by 5 + randint1(rlev) and the monster notes poison.
     */
    twostate predicate PoisonOutcome(d: Draws, w: World)
      reads this, p, p.inven, mon
      requires old(Valid()) && Valid()
    {
      && damage == Max(Physical(old(damage), w), w.elementalDam)
      && (p.events == old(p.events) +
          (if w.elementalDam > 0 then [InvenDamage(Poison, Min(w.elementalDam * 5, 300))] else []))
      && (damage > 0 ==> p.hp == old(p.hp) - damage && p.isDead == (old(p.isDead) || p.hp < 0))
      && (damage <= 0 ==> p.hp == old(p.hp) && p.isDead == old(p.isDead))
      && p.au == old(p.au) && p.pos == old(p.pos)
      && mon.hp == old(mon.hp) && mon.carried == old(mon.carried)
      && (p.isDead ==> p.timed == old(p.timed) && obvious == old(obvious) && mon.lore == old(mon.lore))
      && (!p.isDead ==>
          var res := w.incTimed(Poisoned, old(p.timed[Poisoned]), 5 + d.timer);
          && p.timed == old(p.timed)[Poisoned := res.value]
          && obvious == (old(obvious) || res.changed)
          && mon.lore == old(mon.lore) + [SawElement(Poison)])
    }

    /** melee_effect_handler_POISON. */
    method MeleePoison(d: Draws, w: World)
      requires Valid() && 1 <= d.timer <= rlev
      modifies this`damage, this`obvious, p, mon
      ensures Valid() && PoisonOutcome(d, w)
    {
      Elemental(Poison, false, w);
      if p.isDead {
        return;
      }
      var changed := p.IncTimed(Poisoned, 5 + d.timer, w.incTimed);
      if changed {
        obvious := true;
      }
      mon.lore := mon.lore + [SawElement(Poison)];
    }

    /** DISENCHANT: hit for the raw damage; unless that killed, disenchant a player without the resistance. */
    twostate predicate DisenchantOutcome(w: World)
      reads this, p, p.inven, mon
      requires old(Valid()) && Valid()
    {
      && damage == old(damage)
      && p.hp == old(p.hp) - damage && p.isDead == (old(p.isDead) || p.hp < 0)
      && p.au == old(p.au) && p.timed == old(p.timed) && p.pos == old(p.pos)
      && mon.hp == old(mon.hp) && mon.carried == old(mon.carried)
      && (p.isDead ==> p.events == old(p.events) && obvious == old(obvious) && mon.lore == old(mon.lore))
      && (!p.isDead ==> mon.lore == old(mon.lore) + [SawElement(Disenchantment)])
      && (!p.isDead && p.resistsDisen ==> p.events == old(p.events) && obvious == old(obvious))
      && (!p.isDead && !p.resistsDisen ==>
          p.events == old(p.events) + [Disenchant] && obvious == (old(obvious) || w.noticed(0)))
    }

    /** melee_effect_handler_DISENCHANT. */
    method MeleeDisenchant(w: World)
      requires Valid()
      modifies this`obvious, p, mon
      ensures Valid() && DisenchantOutcome(w)
    {
      p.TakeHit(damage);
      if p.isDead {
        return;
      }
      if !p.resistsDisen {
        p.Record(Disenchant);
        if w.noticed(0) {
          obvious := true;
        }
      }
      mon.lore := mon.lore + [SawElement(Disenchantment)];
    }

    /**
     * DRAIN_CHARGES: hit for the raw damage; unless that killed, scan at most
     * ten picked slots for a charged wand or staff; the first one found loses
     * Unpower charges (never going below zero), the blow is obvious, and the
     * monster heals by rlev * Unpower, but never past its maximum. No other
     * slot is touched.
     */
    twostate predicate DrainChargesOutcome(d: Draws)
      reads this, p, p.inven, mon
      requires old(Valid()) && Valid() && DrawsValid(d, p.inven.Length)
    {
      && damage == old(damage)
      && p.hp == old(p.hp) - damage && p.isDead == (old(p.isDead) || p.hp < 0)
      && p.au == old(p.au) && p.timed == old(p.timed) && p.pos == old(p.pos) && p.events == old(p.events)
      && mon.carried == old(mon.carried) && mon.lore == old(mon.lore)
      && (var hit := ScanFrom(old(p.inven[..]), d.picks, Charges, 0);
          if p.isDead || hit.None? then
            p.inven[..] == old(p.inven[..]) && mon.hp == old(mon.hp) && obvious == old(obvious)
          else
            var slot := d.picks[hit.value];
            var it := old(p.inven[slot]).value;
            var unpower := Unpower(rlev, it.level);
            && p.inven[..] == old(p.inven[..])[slot := Some(it.(pval := Max(it.pval - unpower, 0)))]
            && mon.hp == old(mon.hp) + Min(rlev * unpower, mon.maxhp - old(mon.hp))
            && obvious)
    }

    /** melee_effect_handler_DRAIN_CHARGES. */
    method MeleeDrainCharges(d: Draws)
      requires Valid() && DrawsValid(d, p.inven.Length)
      modifies this`obvious, p, p.inven, mon
      ensures Valid() && DrainChargesOutcome(d)
    {
      p.TakeHit(damage);
      if p.isDead {
        return;
      }
      var hit := FindTarget(p.inven, d.picks, Charges);
      if hit.Some? {
        var slot := d.picks[hit.value];
        var it := p.inven[slot].value;
        var unpower := Unpower(rlev, it.level);
        var newCharge := if it.pval - unpower > 0 then it.pval - unpower else 0;
        p.inven[slot] := Some(it.(pval := newCharge));
        obvious := true;
        var heal := rlev * unpower;
        heal := Min(heal, mon.maxhp - mon.hp);
        mon.hp := mon.hp + heal;
      }
    }

    /**
     * EAT_GOLD: hit for the raw damage; unless that killed, the blow is
     * obvious. A player who is not paralysed and rolls under dexterity
     * bonus plus level keeps their gold (the monster blinks away on a 2-in-3
     * draw). Otherwise GoldToSteal leaves the purse; an empty purse loses
     * nothing and the monster stays; else the loot goes to the monster as
     * coins and the monster blinks away.
     */
    twostate predicate EatGoldOutcome(d: Draws)
      reads this, p, p.inven, mon
      requires old(Valid()) && Valid() && DrawsValid(d, p.inven.Length)
    {
      && damage == old(damage)
      && p.hp == old(p.hp) - damage && p.isDead == (old(p.isDead) || p.hp < 0)
      && p.timed == old(p.timed) && p.pos == old(p.pos) && p.events == old(p.events)
      && mon.hp == old(mon.hp) && mon.lore == old(mon.lore)
      && (p.isDead ==>
          p.au == old(p.au) && mon.carried == old(mon.carried) && obvious == old(obvious) && blinked == old(blinked))
      && (!p.isDead ==> obvious)
      && (!p.isDead && p.timed[Paralyzed] == 0 && d.save < p.dexSafe + p.lev ==>
          p.au == old(p.au) && mon.carried == old(mon.carried) && blinked == (old(blinked) || d.blink != 0))
      && (!p.isDead && !(p.timed[Paralyzed] == 0 && d.save < p.dexSafe + p.lev) ==>
          var gold := GoldToSteal(old(p.au), d.small, d.big);
          && p.au == old(p.au) - gold
          && (gold == 0 ==> mon.carried == old(mon.carried) && blinked == old(blinked))
          && (gold > 0 ==>
                && |mon.carried| > |old(mon.carried)|
                && mon.carried[..|old(mon.carried)|] == old(mon.carried)
                && PvalSum(mon.carried[|old(mon.carried)|..]) == gold
                && (forall i :: |old(mon.carried)| <= i < |mon.carried| ==>
                      mon.carried[i] == Coin(mon.carried[i].pval, p.depth) && 0 < mon.carried[i].pval <= MAX_PVAL)
                && (forall i :: |old(mon.carried)| <= i < |mon.carried| - 1 ==> mon.carried[i].pval == MAX_PVAL)
                && blinked))
    }

    /** melee_effect_handler_EAT_GOLD. */
    method MeleeEatGold(d: Draws)
      requires Valid() && DrawsValid(d, p.inven.Length)
      modifies this`obvious, this`blinked, p, mon
      ensures Valid() && EatGoldOutcome(d)
    {
      p.TakeHit(damage);
      if p.isDead {
        return;
      }
      obvious := true;
      if p.timed[Paralyzed] == 0 && d.save < p.dexSafe + p.lev {
        // The player protects their money pouch; the monster may blink anyway.
        if d.blink != 0 {
          blinked := true;
        }
      } else {
        var gold := GoldToSteal(p.au, d.small, d.big);
        p.au := p.au - gold;
        if gold <= 0 {
          return;
        }
        var coins := SplitIntoCoins(gold, p.depth);
        assert (mon.carried + coins)[..|mon.carried|] == mon.carried;
        assert (mon.carried + coins)[|mon.carried|..] == coins;
        mon.carried := mon.carried + coins;
        blinked := true;
      }
    }

    /**
     * EAT_ITEM: hit for the raw damage; unless that killed, a player who is
     * not paralysed and rolls under dexterity bonus plus level holds on to
     * their pack (the blow is obvious and the monster blinks away).
     * Otherwise at most ten picked slots are scanned for an object that is
     * not an artifact; one unit of the first found passes to the monster,
     * and only then is the blow obvious and the monster blinks away.
     */
    twostate predicate EatItemOutcome(d: Draws)
      reads this, p, p.inven, mon
      requires old(Valid()) && Valid() && DrawsValid(d, p.inven.Length)
    {
      && damage == old(damage)
      && p.hp == old(p.hp) - damage && p.isDead == (old(p.isDead) || p.hp < 0)
      && p.au == old(p.au) && p.timed == old(p.timed) && p.pos == old(p.pos) && p.events == old(p.events)
      && mon.hp == old(mon.hp) && mon.lore == old(mon.lore)
      && (var saved := p.timed[Paralyzed] == 0 && d.save < p.dexSafe + p.lev;
          var hit := ScanFrom(old(p.inven[..]), d.picks, Theft, 0);
          if p.isDead || (!saved && hit.None?) then
            && p.inven[..] == old(p.inven[..]) && mon.carried == old(mon.carried)
            && obvious == old(obvious) && blinked == old(blinked)
          else if saved then
            p.inven[..] == old(p.inven[..]) && mon.carried == old(mon.carried) && obvious && blinked
          else
            var slot := d.picks[hit.value];
            var it := old(p.inven[slot]).value;
            && !it.artifact
            && p.inven[..] == old(p.inven[..])[slot := TakeOne(it)]
            && mon.carried == old(mon.carried) + [OneUnit(it)]
            && obvious && blinked)
    }

    /** melee_effect_handler_EAT_ITEM. */
    method MeleeEatItem(d: Draws)
      requires Valid() && DrawsValid(d, p.inven.Length)
      modifies this`obvious, this`blinked, p, p.inven, mon
      ensures Valid() && EatItemOutcome(d)
    {
      p.TakeHit(damage);
      if p.isDead {
        return;
      }
      if p.timed[Paralyzed] == 0 && d.save < p.dexSafe + p.lev {
        // The player grabs hold of their backpack.
        blinked := true;
        obvious := true;
        return;
      }
      var hit := FindTarget(p.inven, d.picks, Theft);
      if hit.Some? {
        var slot := d.picks[hit.value];
        var it := p.inven[slot].value;
        p.inven[slot] := TakeOne(it);
        mon.carried := mon.carried + [OneUnit(it)];
        obvious := true;
        blinked := true;
      }
    }

    /**
     * EAT_FOOD: hit for the raw damage; unless that killed, at most ten
     * picked slots are scanned for something edible; one unit of the first
     * found is eaten (destroyed, not carried off) and the blow is obvious.
     */
    twostate predicate EatFoodOutcome(d: Draws)
      reads this, p, p.inven, mon
      requires old(Valid()) && Valid() && DrawsValid(d, p.inven.Length)
    {
      && damage == old(damage) && mon.lore == old(mon.lore)
      && p.hp == old(p.hp) - damage && p.isDead == (old(p.isDead) || p.hp < 0)
      && p.au == old(p.au) && p.timed == old(p.timed) && p.pos == old(p.pos) && p.events == old(p.events)
      && (var hit := ScanFrom(old(p.inven[..]), d.picks, Meal, 0);
          if p.isDead || hit.None? then
            p.inven[..] == old(p.inven[..]) && obvious == old(obvious)
          else
            var slot := d.picks[hit.value];
            var it := old(p.inven[slot]).value;
            && IsEdible(it.tval)
            && p.inven[..] == old(p.inven[..])[slot := TakeOne(it)]
            && obvious)
    }

    /** melee_effect_handler_EAT_FOOD. */
    method MeleeEatFood(d: Draws)
      requires Valid() && DrawsValid(d, p.inven.Length)
      modifies this`obvious, p, p.inven
      ensures Valid() && EatFoodOutcome(d)
    {
      p.TakeHit(damage);
      if p.isDead {
        return;
      }
      var hit := FindTarget(p.inven, d.picks, Meal);
      if hit.Some? {
        var slot := d.picks[hit.value];
        var it := p.inven[slot].value;
        p.inven[slot] := TakeOne(it);
        obvious := true;
      }
    }

    /** EAT_LIGHT: hit for the raw damage; unless that killed, drain the light source. */
    twostate predicate EatLightOutcome(w: World)
      reads this, p, p.inven, mon
      requires old(Valid()) && Valid()
    {
      && damage == old(damage) && mon.lore == old(mon.lore)
      && p.hp == old(p.hp) - damage && p.isDead == (old(p.isDead) || p.hp < 0)
      && p.au == old(p.au) && p.timed == old(p.timed) && p.pos == old(p.pos)
      && (p.isDead ==> p.events == old(p.events) && obvious == old(obvious))
      && (!p.isDead ==> p.events == old(p.events) + [DrainLight] && obvious == (old(obvious) || w.noticed(0)))
    }

    /** melee_effect_handler_EAT_LIGHT. */
    method MeleeEatLight(w: World)
      requires Valid()
      modifies this`obvious, p
      ensures Valid() && EatLightOutcome(w)
    {
      p.TakeHit(damage);
      if p.isDead {
        return;
      }
      p.Record(DrainLight);
      if w.noticed(0) {
        obvious := true;
      }
    }

    /** ACID: a pure acid attack, which the monster learns about. */
    method MeleeAcid(w: World)
      requires Valid()
      modifies this`damage, this`obvious, p, mon
      ensures Valid() && ElementalOutcome(Acid, true, w)
    {
      Elemental(Acid, true, w);
    }

    /** ELEC: a pure lightning attack, which the monster learns about. */
    method MeleeElec(w: World)
      requires Valid()
      modifies this`damage, this`obvious, p, mon
      ensures Valid() && ElementalOutcome(Elec, true, w)
    {
      Elemental(Elec, true, w);
    }

    /** FIRE: a pure fire attack, which the monster learns about. */
    method MeleeFire(w: World)
      requires Valid()
      modifies this`damage, this`obvious, p, mon
      ensures Valid() && ElementalOutcome(Fire, true, w)
    {
      Elemental(Fire, true, w);
    }

    /** COLD: a pure frost attack, which the monster learns about. */
    method MeleeCold(w: World)
      requires Valid()
      modifies this`damage, this`obvious, p, mon
      ensures Valid() && ElementalOutcome(Cold, true, w)
    {
      Elemental(Cold, true, w);
    }

    /** BLIND: blind for 10 + randint1(rlev) turns unless protected by ProtBlind, without a saving throw. */
    method MeleeBlind(d: Draws, w: World)
      requires Valid() && 0 <= d.save < 100 && 1 <= d.timer <= rlev
      modifies this`obvious, p, mon
      ensures Valid() && TimedOutcome(Blind, 10 + d.timer, ProtBlind, false, d, w)
    {
      Timed(Blind, 10 + d.timer, ProtBlind, false, d, w);
    }

    /** CONFUSE: confuse for 3 + randint1(rlev) turns unless protected by ProtConf, without a saving throw. */
    method MeleeConfuse(d: Draws, w: World)
      requires Valid() && 0 <= d.save < 100 && 1 <= d.timer <= rlev
      modifies this`obvious, p, mon
      ensures Valid() && TimedOutcome(Confused, 3 + d.timer, ProtConf, false, d, w)
    {
      Timed(Confused, 3 + d.timer, ProtConf, false, d, w);
    }

    /** TERRIFY: terrify for 3 + randint1(rlev) turns unless protected by ProtFear, with a saving throw. */
    method MeleeTerrify(d: Draws, w: World)
      requires Valid() && 0 <= d.save < 100 && 1 <= d.timer <= rlev
      modifies this`obvious, p, mon
      ensures Valid() && TimedOutcome(Afraid, 3 + d.timer, ProtFear, true, d, w)
    {
      Timed(Afraid, 3 + d.timer, ProtFear, true, d, w);
    }

    /** PARALYZE: an already paralysed player takes at least 1 damage; then a timed blow with a saving throw. */
    twostate predicate ParalyzeOutcome(d: Draws, w: World)
      reads this, p, p.inven, mon
      requires old(Valid()) && Valid()
    {
      && damage == (if old(p.timed[Paralyzed]) != 0 && old(damage) < 1 then 1 else old(damage))
      && p.hp == old(p.hp) - damage && p.isDead == (old(p.isDead) || p.hp < 0)
      && p.au == old(p.au) && p.pos == old(p.pos) && p.events == old(p.events)
      && mon.hp == old(mon.hp) && mon.carried == old(mon.carried)
      && (p.isDead ==> p.timed == old(p.timed) && obvious == old(obvious) && mon.lore == old(mon.lore))
      && (!p.isDead ==> mon.lore == old(mon.lore) + [SawFlag(FreeAct)])
      && (!p.isDead && d.save < p.skillSave ==> p.timed == old(p.timed) && obvious)
      && (!p.isDead && d.save >= p.skillSave ==>
          var res := w.incTimed(Paralyzed, old(p.timed[Paralyzed]), 3 + d.timer);
          p.timed == old(p.timed)[Paralyzed := res.value] && obvious == (old(obvious) || res.changed))
    }

    /** melee_effect_handler_PARALYZE. */
    method MeleeParalyze(d: Draws, w: World)
      requires Valid() && 0 <= d.save < 100 && 1 <= d.timer <= rlev
      modifies this`damage, this`obvious, p, mon
      ensures Valid() && ParalyzeOutcome(d, w)
    {
      if p.timed[Paralyzed] != 0 && damage < 1 {
        damage := 1;
      }
      Timed(Paralyzed, 3 + d.timer, FreeAct, true, d, w);
    }

    /** LOSE_STR: drain strength. */
    method MeleeLoseStr(w: World)
      requires Valid()
      modifies this`obvious, p
      ensures Valid() && StatDrainOutcome(Str, w)
    {
      StatDrain(Str, w);
    }

    /** LOSE_INT: drain intelligence. */
    method MeleeLoseInt(w: World)
      requires Valid()
      modifies this`obvious, p
      ensures Valid() && StatDrainOutcome(Int, w)
    {
      StatDrain(Int, w);
    }

    /** LOSE_WIS: drain wisdom. */
    method MeleeLoseWis(w: World)
      requires Valid()
      modifies this`obvious, p
      ensures Valid() && StatDrainOutcome(Wis, w)
    {
      StatDrain(Wis, w);
    }

    /** LOSE_DEX: drain dexterity. */
    method MeleeLoseDex(w: World)
      requires Valid()
      modifies this`obvious, p
      ensures Valid() && StatDrainOutcome(Dex, w)
    {
      StatDrain(Dex, w);
    }

    /** LOSE_CON: drain constitution. */
    method MeleeLoseCon(w: World)
      requires Valid()
      modifies this`obvious, p
      ensures Valid() && StatDrainOutcome(Con, w)
    {
      StatDrain(Con, w);
    }

    /** LOSE_ALL: hit for the raw damage; unless that killed, drain STR, DEX, CON, INT and WIS in turn. */
    twostate predicate LoseAllOutcome(w: World)
      reads this, p, p.inven, mon
      requires old(Valid()) && Valid()
    {
      && damage == old(damage) && mon.lore == old(mon.lore)
      && p.hp == old(p.hp) - damage && p.isDead == (old(p.isDead) || p.hp < 0)
      && p.au == old(p.au) && p.timed == old(p.timed) && p.pos == old(p.pos)
      && (p.isDead ==> p.events == old(p.events) && obvious == old(obvious))
      && (!p.isDead ==>
          && p.events == old(p.events) + [DrainStat(Str), DrainStat(Dex), DrainStat(Con), DrainStat(Int), DrainStat(Wis)]
          && obvious == (old(obvious) || w.noticed(0) || w.noticed(1) || w.noticed(2) || w.noticed(3) || w.noticed(4)))
    }

    /** melee_effect_handler_LOSE_ALL. */
    method MeleeLoseAll(w: World)
      requires Valid()
      modifies this`obvious, p
      ensures Valid() && LoseAllOutcome(w)
    {
      p.TakeHit(damage);
      if p.isDead {
        return;
      }
      DrainOneStat(Str, w.noticed(0));
      DrainOneStat(Dex, w.noticed(1));
      DrainOneStat(Con, w.noticed(2));
      DrainOneStat(Int, w.noticed(3));
      DrainOneStat(Wis, w.noticed(4));
    }

    /**
     * SHATTER: an obvious blow whose damage armour reduces; unless it kills,
     * damage above 23 sets off an earthquake around the monster, and the
     * remaining blows stop exactly when that moved the player.
     */
    twostate predicate ShatterOutcome(w: World)
      reads this, p, p.inven, mon
      requires old(Valid()) && Valid()
    {
      && mon.lore == old(mon.lore)
      && obvious
      && damage == w.adjustDamArmor(old(damage), ac)
      && p.hp == old(p.hp) - damage && p.isDead == (old(p.isDead) || p.hp < 0)
      && p.au == old(p.au) && p.timed == old(p.timed)
      && (p.isDead || damage <= 23 ==>
          p.events == old(p.events) && p.pos == old(p.pos) && doBreak == old(doBreak))
      && (!p.isDead && damage > 23 ==>
          && p.events == old(p.events) + [Earthquake]
          && p.pos == w.quakePos
          && doBreak == (old(doBreak) || w.quakePos != old(p.pos)))
    }

    /** melee_effect_handler_SHATTER. */
    method MeleeShatter(w: World)
      requires Valid()
      modifies this`damage, this`obvious, this`doBreak, p
      ensures Valid() && ShatterOutcome(w)
    {
      obvious := true;
      damage := w.adjustDamArmor(damage, ac);
      p.TakeHit(damage);
      if p.isDead {
        return;
      }
      if damage > 23 {
        var before := p.pos;
        p.Record(Earthquake);
        p.pos := w.quakePos;
        if before != p.pos {
          doBreak := true;
        }
      }
    }

    /** EXP_10: an experience drain of 10d6 that HOLD_LIFE resists on a draw under 95. */
    method MeleeExp10(d: Draws, w: World)
      requires Valid() && 0 <= d.save < 100 && 10 <= d.dice <= 60
      modifies this`obvious, p, mon
      ensures Valid() && ExperienceOutcome(95, d.dice, d, w)
    {
      Experience(95, d.dice, d, w);
    }

    /** EXP_20: an experience drain of 20d6 that HOLD_LIFE resists on a draw under 90. */
    method MeleeExp20(d: Draws, w: World)
      requires Valid() && 0 <= d.save < 100 && 20 <= d.dice <= 120
      modifies this`obvious, p, mon
      ensures Valid() && ExperienceOutcome(90, d.dice, d, w)
    {
      Experience(90, d.dice, d, w);
    }

    /** EXP_40: an experience drain of 40d6 that HOLD_LIFE resists on a draw under 75. */
    method MeleeExp40(d: Draws, w: World)
      requires Valid() && 0 <= d.save < 100 && 40 <= d.dice <= 240
      modifies this`obvious, p, mon
      ensures Valid() && ExperienceOutcome(75, d.dice, d, w)
    {
      Experience(75, d.dice, d, w);
    }

    /** EXP_80: an experience drain of 80d6 that HOLD_LIFE resists on a draw under 50. */
    method MeleeExp80(d: Draws, w: World)
      requires Valid() && 0 <= d.save < 100 && 80 <= d.dice <= 480
      modifies this`obvious, p, mon
      ensures Valid() && ExperienceOutcome(50, d.dice, d, w)
    {
      Experience(50, d.dice, d, w);
    }

    /**
     * HALLU: hit for the raw damage; unless that killed, the hallucination
     * timer rises by 3 + randint1(rlev / 2) and the monster notes chaos.
     */
    twostate predicate HalluOutcome(d: Draws, w: World)
      reads this, p, p.inven, mon
      requires old(Valid()) && Valid()
    {
      && damage == old(damage)
      && p.hp == old(p.hp) - damage && p.isDead == (old(p.isDead) || p.hp < 0)
      && p.au == old(p.au) && p.pos == old(p.pos) && p.events == old(p.events)
      && mon.hp == old(mon.hp) && mon.carried == old(mon.carried)
      && (p.isDead ==> p.timed == old(p.timed) && obvious == old(obvious) && mon.lore == old(mon.lore))
      && (!p.isDead ==>
          var res := w.incTimed(Image, old(p.timed[Image]), 3 + d.timer);
          && p.timed == old(p.timed)[Image := res.value]
          && obvious == (old(obvious) || res.changed)
          && mon.lore == old(mon.lore) + [SawElement(Chaos)])
    }

    /** melee_effect_handler_HALLU. */
    method MeleeHallu(d: Draws, w: World)
      requires Valid() && 1 <= d.timer <= Max(1, rlev / 2)
      modifies this`obvious, p, mon
      ensures Valid() && HalluOutcome(d, w)
    {
      p.TakeHit(damage);
      if p.isDead {
        return;
      }
      var changed := p.IncTimed(Image, 3 + d.timer, w.incTimed);
      if changed {
        obvious := true;
      }
      mon.lore := mon.lore + [SawElement(Chaos)];
    }
  }
}
