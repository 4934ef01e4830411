# Monster melee blows and object properties, modelled in Dafny

This project models two parts of a roguelike game engine.

**Monster melee blows** (`src/mon-blows.c`). When a monster hits the player, the blow's effect is resolved by one of 29 handlers. Each handler receives a single mutable context holding:
- the damage rolled;
- the player's armour class;
- the monster's level `rlev`;
- three flags: `obvious`, `blinked` and `do_break`.

A handler updates that context, the player and the attacking monster. On the player it changes hit points and death, gold, status timers, experience and the pack. On the monster it changes hit points, what it carries and what it has learned. The handlers are grouped around four shared families: elemental, timed, stat drain and experience drain. A registry maps a blow-effect name, compared without regard to case, to its handler. A blow method also picks the action text of the attack message.

**Object properties** (`src/obj-properties.c`). This part covers:
- the slot multipliers for the power rating of object flags and modifiers;
- the sustain flag of a stat;
- the getters of the flag and modifier tables;
- the mask builder over the flag table;
- the operations on an object's list of curses: lookup by name, copy without duplicates, comparison, and append with a power upgrade.

The model follows the form of the code:
- Player, monster, blow context and curse list are classes whose fields the methods update.
- The pack is an array of slots.
- Loops stay loops, each proved against a specification function:
  - the ten-try pack scans;
  - the coin-splitting loop;
  - the registry walk;
  - the curse lookup, copy, append and comparison;
  - the mask builder.
- Pure case analysis is written as functions. This covers the slot multipliers, the getters, the action text and the theft and drain arithmetic.

Random draws (`randint0`, `randint1`, `damroll`) are passed in as values in their ranges. Collaborators outside the two files are parameters:
- `adjust_dam_armor`, `adjust_dam` and `player_inc_timed` (`World`);
- what each `effect_simple` call reports;
- the player's position after an earthquake;
- the curse table;
- the player's body for `slot_type_is`.

The calls the handlers make into `inven_damage`, `effect_simple` and `player_exp_lose` are recorded in the player's event log, in order. Calls to `update_smart_learn` are recorded in the monster's lore log.

Modules:
- `Wrappers`: `Option`.
- `ObjectFlags`: flag and modifier tables, slot multipliers, `create_mask`.
- `Curses`: curse lists.
- `BlowMethods`: `monster_blow_method_action`.
- `MeleeState`: player, monster, items, and the arithmetic of theft and drains.
- `MeleeEffects`: the blow context and its handlers.
- `BlowRegistry`: the name registry and the dispatch from an effect to its handler.

Three behaviours of the code that a reader might not expect, all modelled as written:
- EAT_ITEM: on a successful save the monster always blinks away. The comment at `src/mon-blows.c:495` speaks of an occasional blink, but the assignment below it (`src/mon-blows.c:496`) is unconditional.
- DRAIN_CHARGES: the monster heals by `rlev * unpower` (`src/mon-blows.c:372`), however many charges the wand actually held.
- EAT_GOLD: the "nothing was stolen" branch (`gold <= 0`, `src/mon-blows.c:432`) can only be taken when the purse is already empty. `GoldToSteal` proves that the amount is zero exactly when the purse is.

## Model

| member | source | states |
|---|---|---|
| BlowMethods.MonsterBlowMethodAction | src/mon-blows.c:92-105 | A method's own action text wins whenever it has one. Otherwise INSULT and MOAN (matched exactly) get an entry of their own eight-entry table. There is no text exactly when the method has none and is neither INSULT nor MOAN. |
| MeleeState.CDiv | src/mon-blows.c:247-254 | C integer division truncates toward zero: the remainder a − q·b lies in [0, b) for a non-negative dividend and in (−b, 0] for a negative one. |
| MeleeState.Player.TakeHit | src/mon-blows.c:153-155 | Hit points drop by exactly the damage; the player is dead afterwards exactly when they already were or hit points went below zero; gold, timers, position and event log are unchanged. |
| MeleeState.Player.IncTimed | src/mon-blows.c:192-194 | Only the raised timer changes, to what player_inc_timed leaves, and the result is its "changed" report. |
| MeleeState.GoldToSteal | src/mon-blows.c:427-430 | The theft never takes more than the purse holds and never leaves it negative. It takes nothing exactly when the purse is empty and at least min(2, au) otherwise. Up to 5000 it is at most max(2, a tenth of the purse plus the small draw), the floor of 2 included; when a tenth plus the small draw exceeds 5000 it is at most a twentieth plus the big draw. |
| MeleeState.Coin | src/mon-blows.c:449-460 | One object of the loot: gold of the given value, a single unit, not an artifact, marked as stolen at the player's depth. |
| MeleeState.SplitIntoCoins | src/mon-blows.c:443-465 | The coin objects' pvals sum to the stolen gold. Each coin is gold stolen at the player's depth and holds between 1 and MAX_PVAL. Every coin but the last is full, and no gold means no coins. |
| MeleeState.Unpower | src/mon-blows.c:359 | At least one charge is drained, and exactly one when the monster level is below the object level plus 2. |
| MeleeState.ExpDrained | src/mon-blows.c:247-255 | The loss when the life force is not kept: base + (exp / 100) · percent, all of it without HOLD_LIFE and a tenth with it, both divisions truncating as in C. Its bounds are the contract of ExpDrainedBounds. |
| MeleeState.ExpDrainedBounds | src/mon-blows.c:249-255 | For non-negative inputs the loss is between 0 and the full drain. Without HOLD_LIFE it is the full drain; with it, it is the drain's tenth rounded down. |
| MeleeState.Eligible | src/mon-blows.c:352-359 | The skip tests of the three scans: a slot is a target when it holds an object and, for DRAIN_CHARGES, that object can have charges and has a non-zero pval (352-359); for EAT_ITEM, it is not an artifact (519-522); for EAT_FOOD, it is edible (576-579). |
| MeleeState.ScanFrom | src/mon-blows.c:348-353 | A scan finds the first try whose picked slot is eligible (non-empty and not an artifact, edible, or a charged wand or staff), and finds none exactly when no try's slot is eligible. |
| MeleeState.FindTarget | src/mon-blows.c:348-397 | The ten-try loop returns exactly what ScanFrom specifies. |
| MeleeState.TakeOne | src/mon-blows.c:534-535 | What stays after one unit is handed out: the units left plus the unit handed out (OneUnit) are exactly the units there were; what stays keeps every other property; no empty stack is left in the pack. |
| MeleeState.OneUnit | src/mon-blows.c:534-535 | The unit handed out is the same object with a stack size of one. |
| MeleeEffects.BlowContext.Physical | src/mon-blows.c:139-144 | The physical part of an elemental blow: armour-adjusted with a bonus of 50 to armour class, and 0 for a method that is not physical. |
| MeleeEffects.BlowContext.Elemental | src/mon-blows.c:119-161 | Damage becomes max(armour-adjusted physical, elemental), and physical is 0 for a non-physical method. Pack damage of min(5 · elemental, 300) is recorded only when the elemental damage is positive. The player is hit only when the final damage is positive. A pure element sets `obvious` and teaches the monster that element. |
| MeleeEffects.BlowContext.Timed | src/mon-blows.c:176-201 | The player is hit for the raw damage, and a death stops everything. A successful save sets `obvious` and leaves the timers alone. Otherwise only the raised timer changes, and `obvious` is set exactly when player_inc_timed reports a change. The monster learns the protection flag unless the player died. |
| MeleeEffects.BlowContext.DrainOneStat | src/mon-blows.c:219 | Records one stat drain and sets `obvious` exactly when the drain is noticed. |
| MeleeEffects.BlowContext.StatDrain | src/mon-blows.c:209-220 | The player is hit for the raw damage, then one stat is drained unless the player died. |
| MeleeEffects.BlowContext.Experience | src/mon-blows.c:230-257 | Always obvious. The monster always learns HOLD_LIFE. Nothing is drained when the player died or when HOLD_LIFE resists on a draw under the chance; otherwise ExpDrained is lost. |
| MeleeEffects.BlowContext.MeleeNone | src/mon-blows.c:262-269 | Damage becomes 0 and the blow is obvious. |
| MeleeEffects.BlowContext.MeleeHurt | src/mon-blows.c:274-284 | Armour-adjusted damage hits the player; obvious. |
| MeleeEffects.BlowContext.MeleePoison | src/mon-blows.c:293-308 | An impure poison elemental. Unless it killed, the poison timer rises by 5 + the timer draw, `obvious` follows player_inc_timed, and the monster learns poison. |
| MeleeEffects.BlowContext.MeleeDisenchant | src/mon-blows.c:313-328 | Unless the hit killed, a player without the resistance is disenchanted, and the monster learns disenchantment. |
| MeleeEffects.BlowContext.MeleeDrainCharges | src/mon-blows.c:333-398 | Unless the hit killed, only the first charged wand or staff the scan finds changes: its charges become max(pval − Unpower, 0). The monster heals by min(rlev · Unpower, maxhp − hp) and the blow is obvious. With no such slot nothing changes. Monster hp never exceeds maxhp. |
| MeleeEffects.BlowContext.MeleeEatGold | src/mon-blows.c:403-472 | Unless the hit killed, the blow is obvious. A save keeps the purse, and the monster blinks on a non-zero draw. Otherwise the purse drops by GoldToSteal. An empty purse yields no loot and no blink. Any other loot is appended as coins summing to the stolen amount, each of at most MAX_PVAL and all but the last full, and the monster blinks. |
| MeleeEffects.BlowContext.MeleeEatItem | src/mon-blows.c:477-548 | Unless the hit killed: a save leaves the pack alone and sets `obvious` and `blinked`. Otherwise exactly one unit of the first non-artifact the scan finds moves to the monster and both flags are set. If the scan finds nothing, nothing changes. |
| MeleeEffects.BlowContext.MeleeEatFood | src/mon-blows.c:553-603 | Unless the hit killed, one unit of the first edible object the scan finds is destroyed and the blow is obvious; only that slot changes. |
| MeleeEffects.BlowContext.MeleeEatLight | src/mon-blows.c:608-619 | Unless the hit killed, the light is drained and `obvious` follows the drain being noticed. |
| MeleeEffects.BlowContext.MeleeAcid | src/mon-blows.c:624-627 | The elemental outcome for acid, as a pure element: obvious, and the monster learns acid. |
| MeleeEffects.BlowContext.MeleeElec | src/mon-blows.c:632-635 | The elemental outcome for lightning, as a pure element. |
| MeleeEffects.BlowContext.MeleeFire | src/mon-blows.c:640-643 | The elemental outcome for fire, as a pure element. |
| MeleeEffects.BlowContext.MeleeCold | src/mon-blows.c:648-651 | The elemental outcome for frost, as a pure element. |
| MeleeEffects.BlowContext.MeleeBlind | src/mon-blows.c:656-660 | The timed outcome for the blindness timer, raised by 10 + randint1(rlev), with PROT_BLIND learned and no saving throw. |
| MeleeEffects.BlowContext.MeleeConfuse | src/mon-blows.c:665-669 | The timed outcome for the confusion timer, raised by 3 + randint1(rlev), with PROT_CONF learned and no saving throw. |
| MeleeEffects.BlowContext.MeleeTerrify | src/mon-blows.c:674-678 | The timed outcome for the fear timer, raised by 3 + randint1(rlev), with PROT_FEAR learned and a saving throw. |
| MeleeEffects.BlowContext.MeleeParalyze | src/mon-blows.c:683-691 | An already paralysed player takes at least 1 damage. Then the blow is a timed blow with a saving throw and the FREE_ACT flag. |
| MeleeEffects.BlowContext.MeleeLoseStr | src/mon-blows.c:696-699 | The stat-drain outcome for strength: a raw hit, then, unless it killed, one strength drain with `obvious` following whether it was noticed. |
| MeleeEffects.BlowContext.MeleeLoseInt | src/mon-blows.c:704-707 | The stat-drain outcome for intelligence: a raw hit, then, unless it killed, one intelligence drain with `obvious` following whether it was noticed. |
| MeleeEffects.BlowContext.MeleeLoseWis | src/mon-blows.c:712-715 | The stat-drain outcome for wisdom: a raw hit, then, unless it killed, one wisdom drain with `obvious` following whether it was noticed. |
| MeleeEffects.BlowContext.MeleeLoseDex | src/mon-blows.c:720-723 | The stat-drain outcome for dexterity: a raw hit, then, unless it killed, one dexterity drain with `obvious` following whether it was noticed. |
| MeleeEffects.BlowContext.MeleeLoseCon | src/mon-blows.c:728-731 | The stat-drain outcome for constitution: a raw hit, then, unless it killed, one constitution drain with `obvious` following whether it was noticed. |
| MeleeEffects.BlowContext.MeleeLoseAll | src/mon-blows.c:736-751 | Unless the hit killed, STR, DEX, CON, INT and WIS are drained in that order, and `obvious` is set when any drain is noticed. |
| MeleeEffects.BlowContext.MeleeShatter | src/mon-blows.c:756-783 | Armour-adjusted damage hits the player; obvious. Unless that killed and only when damage exceeds 23, an earthquake moves the player, and `do_break` is set exactly when the position changed. |
| MeleeEffects.BlowContext.MeleeExp10 | src/mon-blows.c:788-791 | The experience outcome with chance 95 and a base drain of 10d6 (between 10 and 60): always obvious, HOLD_LIFE learned, and unless the hit killed or HOLD_LIFE resists, ExpDrained is lost. |
| MeleeEffects.BlowContext.MeleeExp20 | src/mon-blows.c:796-799 | The experience outcome with chance 90 and a base drain of 20d6 (between 20 and 120): always obvious, HOLD_LIFE learned, and unless the hit killed or HOLD_LIFE resists, ExpDrained is lost. |
| MeleeEffects.BlowContext.MeleeExp40 | src/mon-blows.c:804-807 | The experience outcome with chance 75 and a base drain of 40d6 (between 40 and 240): always obvious, HOLD_LIFE learned, and unless the hit killed or HOLD_LIFE resists, ExpDrained is lost. |
| MeleeEffects.BlowContext.MeleeExp80 | src/mon-blows.c:812-815 | The experience outcome with chance 50 and a base drain of 80d6 (between 80 and 480): always obvious, HOLD_LIFE learned, and unless the hit killed or HOLD_LIFE resists, ExpDrained is lost. |
| MeleeEffects.BlowContext.MeleeHallu | src/mon-blows.c:823-839 | Unless the hit killed, the hallucination timer rises by 3 + the timer draw (drawn from rlev / 2), and the monster learns chaos. |
| BlowRegistry.Name | src/mon-blows.c:846-876 | The name each effect is registered under; the `Registry` constant lists the rows in the order of the table. |
| BlowRegistry.RowOf | src/mon-blows.c:845-876 | Every effect has a row of the registry. |
| BlowRegistry.SameIgnoringCase | src/mon-blows.c:881 | `my_stricmp(a, b) == 0`: the names have the same length and the same letters once both are upper-cased. |
| BlowRegistry.SameIgnoringCaseIsUpperEquality | src/mon-blows.c:881 | Two names match, ignoring case, exactly when their upper-cased forms are equal. |
| BlowRegistry.ToUpper | src/mon-blows.c:880 | Upper-casing in the C locale moves exactly the letters a-z, by 32. |
| BlowRegistry.UpperCased | src/mon-blows.c:880 | An upper-cased name keeps its length, has no lower-case letter, and upper-cases each letter. |
| BlowRegistry.SameIgnoringCaseUpper | src/mon-blows.c:880 | A name matches exactly the rows its upper-cased form matches. |
| BlowRegistry.SameIgnoringCaseUpperNames | src/mon-blows.c:880 | Between names without lower-case letters, matching ignoring case is equality. |
| BlowRegistry.NameIsUpperCase | src/mon-blows.c:846-874 | Every registered name is written in upper case. |
| BlowRegistry.NamedInvertsName | src/mon-blows.c:846-874 | The registered names are pairwise different. |
| BlowRegistry.NamesDistinct | src/mon-blows.c:846-874 | No two rows have names that match each other ignoring case, so at most one row matches any name. |
| BlowRegistry.MatchFrom | src/mon-blows.c:879-884 | The walk stops at the first row whose name matches, ignoring case, and at none exactly when no row from there on matches. |
| BlowRegistry.Lookup | src/mon-blows.c:841-888 | A found handler's name matches the query ignoring case. There is no handler exactly when no effect's name matches. |
| BlowRegistry.FindRow | src/mon-blows.c:879-887 | The while loop over the rows returns exactly the row MatchFrom specifies. |
| BlowRegistry.HandlerFor | src/mon-blows.c:841-888 | Returns exactly Lookup's handler. |
| BlowRegistry.LookupName | src/mon-blows.c:846-874 | Every effect is found under its own name. |
| BlowRegistry.MatchFromIgnoresCase | src/mon-blows.c:879-884 | Names that agree once upper-cased stop the walk at the same row. |
| BlowRegistry.LookupIgnoresCase | src/mon-blows.c:841-888 | Names that agree once upper-cased find the same handler. |
| BlowRegistry.Apply | src/mon-blows.c:841-876 | The outcome is exactly that of the handler the registry holds for the effect (HandlerOutcome). Each handler's outcome fixes the blow's damage, `obvious`, hit points, death, the event log and the monster's lore, including leaving them unchanged where the handler does not touch them. For the handlers that only call a family, this includes the element, timer, amount, protection flag, saving throw, stat, chance and dice they pass. Whatever the effect: the three flags only go from false to true, and the event log only grows. Gold and carried objects change only for EAT_GOLD and EAT_ITEM. The pack changes only for the pack handlers, and monster hp only for DRAIN_CHARGES. Timers change only for the timed handlers, and position and `do_break` only for SHATTER. A blow that leaves the player dead changes no gold, timer, position, pack slot, monster hp or loot, and records nothing but pack damage. EAT_GOLD moves gold from the purse to the monster without loss. |
| ObjectFlags.FlagSlotMult | src/obj-properties.c:152-179 | The result is always 0, 1, 2 or 5. SUST, PROT, BAD and DIG give 1. It is 0 exactly for LIGHT off a light slot and MELEE off a weapon slot. It is 5 exactly for FREE_ACT (when distinct from FEATHER and SLOW_DIGEST) on gloves. It is 2 exactly for the remaining MISC flags off weapon and bow slots. |
| ObjectFlags.FlagPower | src/obj-properties.c:185-190 | The power stored in the entry describing that flag; OF_NONE has none. |
| ObjectFlags.ObjFlagType | src/obj-properties.c:195-200 | The type stored in the entry describing that flag; the flags after OF_NONE up to STAT_MAX are sustains. |
| ObjectFlags.SustainFlag | src/obj-properties.c:221-226 | −1 exactly for a number outside [0, STAT_MAX); otherwise stat + 1, a sustain flag below OF_MAX. |
| ObjectFlags.ModPower | src/obj-properties.c:239-244 | The power stored in the entry describing that modifier. |
| ObjectFlags.ModMult | src/obj-properties.c:249-254 | The weighting stored in the entry describing that modifier. |
| ObjectFlags.ModSlotMult | src/obj-properties.c:262-298 | 1 for slot −1, otherwise a value in [0, 4]. It is 0 exactly for BLOWS on a bow, SHOTS on a weapon and MIGHT off a bow. It is 3 exactly for LIGHT on a light and BLOWS off bow and weapon. It is 4 exactly for SHOTS off weapon and bow. It is 2 exactly for DEX on gloves. |
| ObjectFlags.TerminatorAt | src/obj-properties.c:110 | The position of the first OFT_MAX in the argument list. |
| ObjectFlags.CreateMask | src/obj-properties.c:100-120 | Afterwards a flag is set exactly when its type, or with `id` its identification level, is one of the arguments before the terminator. Every other flag is cleared. |
| ObjectFlags.InMaskStep | src/obj-properties.c:110-114 | Processing one more argument adds exactly the flags that argument selects. |
| Curses.FindName | src/obj-properties.c:427-440 | −1 exactly when no entry bears the name; otherwise the first entry bearing it. |
| Curses.LookupCurse | src/obj-properties.c:304-314 | 0 exactly when no named entry from 1 on bears the name; otherwise the smallest such index. Entry 0 is never a match. |
| Curses.HasNameFast | src/obj-properties.c:330-337 | The duplicate check holds exactly when some entry bears the name. |
| Curses.CopyOne | src/obj-properties.c:330-352 | One pass of the outer loop: the curse is prepended unless a curse of its name is already in the list. |
| Curses.Copied | src/obj-properties.c:326-354 | The list copy_curse leaves: the source curses in order, each handled by CopyOne against the list as it stands. |
| Curses.CopiedUnfold | src/obj-properties.c:324-354 | Copying from source position i is copying that curse and then the rest. |
| Curses.CurseList.CopyFrom | src/obj-properties.c:322-355 | The list becomes Copied(old list, source). Each source curse in turn is prepended unless its name is present in the list as it stands at that moment. |
| Curses.Appended | src/obj-properties.c:424-456 | For a name already present, the length is kept, the first such entry's power becomes the larger of the two, the result is true exactly when the power rose, and nothing else changes. For an absent name, one entry is added at the end with the given power and the result is true. |
| Curses.CurseList.Append | src/obj-properties.c:424-456 | The list and result become exactly what Appended specifies for the table entry's name. |
| Curses.CursesAreEqual | src/obj-properties.c:384-415 | True exactly when the lists have the same length and every curse of the first matches the name of exactly one curse of the second. |
| Curses.CopiedKeepsDest | src/obj-properties.c:350-352 | The curses the list held before the copy remain, unchanged, as its tail. |
| Curses.CopiedKeepsName | src/obj-properties.c:341-352 | A name present before a copy is still present after it. |
| Curses.CopiedCoversSource | src/obj-properties.c:322-355 | After the copy every source name is present. |
| Curses.CopiedDistinct | src/obj-properties.c:330-341 | A list with no repeated names still has none after a copy. |
| Curses.CopiedFromEither | src/obj-properties.c:345-352 | Every curse after a copy was in the list before or is a copy of a source curse. |
| Curses.CopiedIdempotent | src/obj-properties.c:330-341 | Copying curses whose names are all present changes nothing. |
| Curses.CopiedTwice | src/obj-properties.c:322-355 | Copying the same source a second time changes nothing: the result equals copying it once. |
| Curses.CopiedLength | src/obj-properties.c:345-352 | With new and pairwise different names, every source curse is copied. |
| Curses.CopyIntoEmptyIsEqual | src/obj-properties.c:322-415 | A list without repeated names, copied into an empty list, compares equal with the original in both directions. |
| Curses.DistinctNameCount | src/obj-properties.c:389-396 | In a list without repeated names each present name is counted once. |
| Curses.AbsentNameCount | src/obj-properties.c:389-396 | An absent name is counted zero times. |
| Curses.SameCursesReflexive | src/obj-properties.c:384-415 | A list without repeated names compares equal with itself. |
| Curses.SameCursesCovers | src/obj-properties.c:384-415 | When two lists compare equal, every name of the first is in the second. |
| Curses.AppendedTwice | src/obj-properties.c:429-439 | Appending the same curse with the same power a second time changes nothing and returns false. |

## Left out

- Messages (`msg`, `object_desc`, the "stolen"/"eaten" texts, save messages): text only.
- Redraw and notice flags (`PR_HEALTH`, `PR_INVEN`, `PR_GOLD`, `PN_COMBINE`): user-interface hints only; pack recombination is not modelled.
- `take_hit` is modelled only as losing hit points and dying below zero. Its other effects (disturbance, messages, the death routine itself) are not part of this model.
- `adjust_dam_armor`, `adjust_dam` and `player_inc_timed` are parameters whose results the model does not constrain. `adjust_dam`'s result is one value per blow, because it depends on a random draw this model does not see.
- The effects of `effect_simple` (stat drain, disenchantment, light drain, earthquake), `inven_damage` and `player_exp_lose` are recorded as events with their arguments, not carried out. Whether each call noticed something is an input. The earthquake's landing position is an input.
- `update_smart_learn` is recorded as an observation in the monster's lore log; what the monster does with it is not part of this model.
- `gear_object_for_use` and `monster_carry` are modelled as removing one unit from a slot and appending one object to the monster's list. Stack merging in the monster's inventory, the known-object copies, the emptied slot's repacking, and the charge split of a stolen wand are left out.
- `money_kind` and `object_prep`: the kind of coin made for the loot is not modelled. Each coin is a gold object whose pval and origin are set as the code sets them.
- MeleeState.GoldToSteal: `s32b` arithmetic is modelled with unbounded integers; purses large enough to overflow 32 bits are not considered.
- MeleeEffects.BlowContext.Experience: `s32b` overflow of `(exp / 100) * life_drain_percent` is not modelled.
- BlowRegistry.SameIgnoringCase: strings are sequences of characters, so a name with an embedded NUL character is compared in full, while my_stricmp would stop at it.
- BlowRegistry.Apply: the handler is chosen by the effect value; the function pointer the C registry returns is represented by that value.
- The copy of a curse's attached object (`c->obj`) in `copy_curse` and `append_curse`: curses are names and powers only.
- `log_flags` (file output), `flag_message` (message only), `flag_name` and `mod_name` (string table lookups), and `free_curse` (memory release).
- The contents of the flag, modifier and stat tables generated from `list-stats.h`, `list-object-flags.h` and `list-object-modifiers.h`. These headers are not part of this model. The tables enter as values with the layout the code relies on: entry k describes flag k, entry 0 is OF_NONE, the sustains sit at 1..STAT_MAX, and the OF_MAX sentinel comes last. The numeric values of the OFT_ and OFID_ codes are placeholders; only their distinctness is used.
- `slot_type_is` is a lookup in the player's body; a slot outside the body is of no type, where the code would read past the body's slot array.
- The global `curses` table is a sequence of optional names, and `z_info->curse_max` is its length.
- `randint0`, `randint1` and `damroll` are not modelled; each draw is an input constrained to its range.
