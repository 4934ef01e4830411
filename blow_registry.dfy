/**
 * The effect registry of src/mon-blows.c: the table that maps a blow
 * effect's name, compared without regard to case, to its handler, and the
 * dispatch from an effect to the handler's behaviour.
 */
module BlowRegistry {

  import opened Wrappers
  import S = MeleeState
  import E = MeleeEffects

  /** The blow effects that have a handler, one per row of the registry. */
  datatype BlowEffect =
    | NoEffect | Hurt | Poison | Disenchant | DrainCharges
    | EatGold | EatItem | EatFood | EatLight
    | Acid | Elec | Fire | Cold
    | Blind | Confuse | Terrify | Paralyze
    | LoseStr | LoseInt | LoseWis | LoseDex | LoseCon | LoseAll
    | Shatter | Exp10 | Exp20 | Exp40 | Exp80 | Hallu

  /** The name an effect is registered under. */
  function Name(e: BlowEffect): string
  {
    match e
    case NoEffect => "NONE"
    case Hurt => "HURT"
    case Poison => "POISON"
    case Disenchant => "DISENCHANT"
    case DrainCharges => "DRAIN_CHARGES"
    case EatGold => "EAT_GOLD"
    case EatItem => "EAT_ITEM"
    case EatFood => "EAT_FOOD"
    case EatLight => "EAT_LIGHT"
    case Acid => "ACID"
    case Elec => "ELEC"
    case Fire => "FIRE"
    case Cold => "COLD"
    case Blind => "BLIND"
    case Confuse => "CONFUSE"
    case Terrify => "TERRIFY"
    case Paralyze => "PARALYZE"
    case LoseStr => "LOSE_STR"
    case LoseInt => "LOSE_INT"
    case LoseWis => "LOSE_WIS"
    case LoseDex => "LOSE_DEX"
    case LoseCon => "LOSE_CON"
    case LoseAll => "LOSE_ALL"
    case Shatter => "SHATTER"
    case Exp10 => "EXP_10"
    case Exp20 => "EXP_20"
    case Exp40 => "EXP_40"
    case Exp80 => "EXP_80"
    case Hallu => "HALLU"
  }

  /** The registry's rows, in the order the lookup visits them. */
  const Registry: seq<BlowEffect> := [
    NoEffect, Hurt, Poison, Disenchant, DrainCharges,
    EatGold, EatItem, EatFood, EatLight,
    Acid, Elec, Fire, Cold,
    Blind, Confuse, Terrify, Paralyze,
    LoseStr, LoseInt, LoseWis, LoseDex, LoseCon, LoseAll,
    Shatter, Exp10, Exp20, Exp40, Exp80, Hallu
  ]

  /** Every effect has a row of the registry. */
  function RowOf(e: BlowEffect): (k: nat)
    ensures k < |Registry| && Registry[k] == e
  {
    match e
    case NoEffect => 0
    case Hurt => 1
    case Poison => 2
    case Disenchant => 3
    case DrainCharges => 4
    case EatGold => 5
    case EatItem => 6
    case EatFood => 7
    case EatLight => 8
    case Acid => 9
    case Elec => 10
    case Fire => 11
    case Cold => 12
    case Blind => 13
    case Confuse => 14
    case Terrify => 15
    case Paralyze => 16
    case LoseStr => 17
    case LoseInt => 18
    case LoseWis => 19
    case LoseDex => 20
    case LoseCon => 21
    case LoseAll => 22
    case Shatter => 23
    case Exp10 => 24
    case Exp20 => 25
    case Exp40 => 26
    case Exp80 => 27
    case Hallu => 28
  }

  // ---------------------------------------------------------------------
  // Case-insensitive names.

  /** toupper in the C locale. */
  function ToUpper(c: char): (u: char)
    ensures 'a' <= c <= 'z' ==> 'A' <= u <= 'Z' && u as int == c as int - 32
    ensures !('a' <= c <= 'z') ==> u == c
  {
    if 'a' <= c <= 'z' then (c as int - 32) as char else c
  }

  /** my_stricmp(a, b) == 0: the same length, and the same letters once both are upper-cased. */
  predicate SameIgnoringCase(a: string, b: string)
  {
    |a| == |b| && forall k :: 0 <= k < |a| ==> ToUpper(a[k]) == ToUpper(b[k])
  }

  /** A string with no lower-case letter. */
  predicate NoLowerCase(s: string)
  {
    forall k :: 0 <= k < |s| ==> !('a' <= s[k] <= 'z')
  }

  /** `s` with every lower-case letter upper-cased. */
  function UpperCased(s: string): (u: string)
    ensures |u| == |s| && NoLowerCase(u)
    ensures forall k :: 0 <= k < |s| ==> u[k] == ToUpper(s[k])
  {
    seq(|s|, k requires 0 <= k < |s| => ToUpper(s[k]))
  }

  /** Two names match, ignoring case, exactly when they are equal once upper-cased. */
  lemma SameIgnoringCaseIsUpperEquality(a: string, b: string)
    ensures SameIgnoringCase(a, b) <==> UpperCased(a) == UpperCased(b)
  {
    if UpperCased(a) == UpperCased(b) {
      forall k | 0 <= k < |a|
        ensures ToUpper(a[k]) == ToUpper(b[k])
      {
        assert UpperCased(a)[k] == UpperCased(b)[k];
      }
    }
  }

  /** Matching ignores case: a name matches exactly what its upper-cased form matches. */
  lemma SameIgnoringCaseUpper(a: string, b: string)
    ensures SameIgnoringCase(a, b) <==> SameIgnoringCase(UpperCased(a), b)
  {
    var u := UpperCased(a);
    forall k | 0 <= k < |a|
      ensures ToUpper(u[k]) == ToUpper(a[k])
    {
    }
  }

  /** Between two names without lower-case letters, matching is plain equality. */
  lemma SameIgnoringCaseUpperNames(a: string, b: string)
    requires NoLowerCase(a) && NoLowerCase(b)
    ensures SameIgnoringCase(a, b) <==> a == b
  {
    if SameIgnoringCase(a, b) {
      forall k | 0 <= k < |a|
        ensures a[k] == b[k]
      {
        assert ToUpper(a[k]) == ToUpper(b[k]);
      }
    }
  }

  // The facts about the 29 names below are proved one group of names at a
  // time (by length, and for eight letters by initial): checking every name
  // at once makes a single proof obligation that is too large for the solver.

  /** The four-letter names are written in upper case. */
  lemma ShortNameIsUpperCase(e: BlowEffect)
    requires |Name(e)| == 4
    ensures NoLowerCase(Name(e))
  {
  }

  /** The eight-letter names are written in upper case. */
  lemma EightLetterNameIsUpperCase(e: BlowEffect)
    requires |Name(e)| == 8
    ensures NoLowerCase(Name(e))
  {
  }

  /** The names of other lengths are written in upper case. */
  lemma OtherNameIsUpperCase(e: BlowEffect)
    requires |Name(e)| != 4 && |Name(e)| != 8
    ensures NoLowerCase(Name(e))
  {
  }

  /** Every registered name is written in upper case. */
  lemma NameIsUpperCase(e: BlowEffect)
    ensures NoLowerCase(Name(e))
  {
    if |Name(e)| == 4 {
      ShortNameIsUpperCase(e);
    } else if |Name(e)| == 8 {
      EightLetterNameIsUpperCase(e);
    } else {
      OtherNameIsUpperCase(e);
    }
  }

  /**
   * The effect whose registered name is exactly `s`, if any; the names are
   * grouped by length so that only names of the same length are compared.
   */
  function Named(s: string): Option<BlowEffect>
  {
    if |s| == 4 then
      if s == "NONE" then Some(NoEffect)
      else if s == "HURT" then Some(Hurt)
      else if s == "ACID" then Some(Acid)
      else if s == "ELEC" then Some(Elec)
      else if s == "FIRE" then Some(Fire)
      else if s == "COLD" then Some(Cold)
      else None
    else if |s| == 5 then
      if s == "BLIND" then Some(Blind)
      else if s == "HALLU" then Some(Hallu)
      else None
    else if |s| == 6 then
      if s == "POISON" then Some(Poison)
      else if s == "EXP_10" then Some(Exp10)
      else if s == "EXP_20" then Some(Exp20)
      else if s == "EXP_40" then Some(Exp40)
      else if s == "EXP_80" then Some(Exp80)
      else None
    else if |s| == 7 then
      if s == "CONFUSE" then Some(Confuse)
      else if s == "TERRIFY" then Some(Terrify)
      else if s == "SHATTER" then Some(Shatter)
      else None
    else if |s| == 8 then
      if s == "EAT_GOLD" then Some(EatGold)
      else if s == "EAT_ITEM" then Some(EatItem)
      else if s == "EAT_FOOD" then Some(EatFood)
      else if s == "PARALYZE" then Some(Paralyze)
      else if s == "LOSE_STR" then Some(LoseStr)
      else if s == "LOSE_INT" then Some(LoseInt)
      else if s == "LOSE_WIS" then Some(LoseWis)
      else if s == "LOSE_DEX" then Some(LoseDex)
      else if s == "LOSE_CON" then Some(LoseCon)
      else if s == "LOSE_ALL" then Some(LoseAll)
      else None
    else if |s| == 9 then
      if s == "EAT_LIGHT" then Some(EatLight)
      else None
    else if |s| == 10 then
      if s == "DISENCHANT" then Some(Disenchant)
      else None
    else if |s| == 13 then
      if s == "DRAIN_CHARGES" then Some(DrainCharges)
      else None
    else None
  }

  /** Named inverts Name on the four-letter names. */
  lemma NamedInvertsShortName(e: BlowEffect)
    requires |Name(e)| == 4
    ensures Named(Name(e)) == Some(e)
  {
  }

  /** Named inverts Name on the LOSE_ names. */
  lemma NamedInvertsLoseName(e: BlowEffect)
    requires |Name(e)| == 8 && Name(e)[0] == 'L'
    ensures Named(Name(e)) == Some(e)
  {
  }

  /** Named inverts Name on the other eight-letter names. */
  lemma NamedInvertsEightLetterName(e: BlowEffect)
    requires |Name(e)| == 8 && Name(e)[0] != 'L'
    ensures Named(Name(e)) == Some(e)
  {
  }

  /** Named inverts Name on the names of other lengths. */
  lemma NamedInvertsOtherName(e: BlowEffect)
    requires |Name(e)| != 4 && |Name(e)| != 8
    ensures Named(Name(e)) == Some(e)
  {
  }

  /** No two effects share a name: Named inverts Name. */
  lemma NamedInvertsName(e: BlowEffect)
    ensures Named(Name(e)) == Some(e)
  {
    if |Name(e)| == 4 {
      NamedInvertsShortName(e);
    } else if |Name(e)| == 8 && Name(e)[0] == 'L' {
      NamedInvertsLoseName(e);
    } else if |Name(e)| == 8 {
      NamedInvertsEightLetterName(e);
    } else {
      NamedInvertsOtherName(e);
    }
  }

  /** No two effects have names that match each other, whatever the case. */
  lemma NamesDistinct(e: BlowEffect, f: BlowEffect)
    requires SameIgnoringCase(Name(e), Name(f))
    ensures e == f
  {
    NameIsUpperCase(e);
    NameIsUpperCase(f);
    SameIgnoringCaseUpperNames(Name(e), Name(f));
    NamedInvertsName(e);
    NamedInvertsName(f);
  }

  // ---------------------------------------------------------------------
  // The lookup.

  /** The first of `rows`, from row `k` on, whose name matches `name` ignoring case. */
  function MatchFrom(rows: seq<BlowEffect>, name: string, k: nat): (r: Option<nat>)
    requires k <= |rows|
    ensures r.Some? ==> k <= r.value < |rows| && SameIgnoringCase(name, Name(rows[r.value]))
    ensures r.Some? ==> forall j :: k <= j < r.value ==> !SameIgnoringCase(name, Name(rows[j]))
    ensures r.None? ==> forall j :: k <= j < |rows| ==> !SameIgnoringCase(name, Name(rows[j]))
    decreases |rows| - k
  {
    if k == |rows| then None
    else if SameIgnoringCase(name, Name(rows[k])) then Some(k)
    else MatchFrom(rows, name, k + 1)
  }

  /** What melee_handler_for_blow_effect returns: the handler of the first matching row, or none. */
  function Lookup(name: string): (r: Option<BlowEffect>)
    ensures r.Some? ==> SameIgnoringCase(name, Name(r.value))
    ensures r.None? <==> forall e: BlowEffect :: !SameIgnoringCase(name, Name(e))
  {
    var m := MatchFrom(Registry, name, 0);
    if m.None? then
      assert forall e: BlowEffect :: !SameIgnoringCase(name, Name(e)) by {
        forall e: BlowEffect
          ensures !SameIgnoringCase(name, Name(e))
        {
          var k := RowOf(e);
        }
      }
      None
    else Some(Registry[m.value])
  }

  /**
   * The walk of melee_handler_for_blow_effect: visit the rows in order and
   * stop at the first whose name matches `name` ignoring case.
   */
  method FindRow(rows: seq<BlowEffect>, name: string) returns (found: Option<nat>)
    ensures found == MatchFrom(rows, name, 0)
  {
    var k := 0;
    while k < |rows|
      invariant 0 <= k <= |rows|
      invariant MatchFrom(rows, name, 0) == MatchFrom(rows, name, k)
    {
      if SameIgnoringCase(name, Name(rows[k])) {
        return Some(k);
      }
      k := k + 1;
    }
    return None;
  }

  /** melee_handler_for_blow_effect: the handler registered under `name`, compared ignoring case. */
  method HandlerFor(name: string) returns (handler: Option<BlowEffect>)
    ensures handler == Lookup(name)
  {
    var row := FindRow(Registry, name);
    handler := if row.Some? then Some(Registry[row.value]) else None;
  }

  /** Every effect is found under its own name. */
  lemma LookupName(e: BlowEffect)
    ensures Lookup(Name(e)) == Some(e)
  {
    var r := Lookup(Name(e));
    assert SameIgnoringCase(Name(e), Name(e));
    assert r.Some?;
    NamesDistinct(e, r.value);
  }

  /** A name matches a row exactly when its upper-cased form does. */
  lemma SameIgnoringCaseRespectsUpper(a: string, b: string, row: string)
    requires UpperCased(a) == UpperCased(b)
    ensures SameIgnoringCase(a, row) <==> SameIgnoringCase(b, row)
  {
    SameIgnoringCaseUpper(a, row);
    SameIgnoringCaseUpper(b, row);
  }

  /** Two names that agree once upper-cased match the same rows from row `k` on. */
  lemma {:induction false} MatchFromIgnoresCase(rows: seq<BlowEffect>, a: string, b: string, k: nat)
    requires UpperCased(a) == UpperCased(b) && k <= |rows|
    ensures MatchFrom(rows, a, k) == MatchFrom(rows, b, k)
    decreases |rows| - k
  {
    if k < |rows| {
      SameIgnoringCaseRespectsUpper(a, b, Name(rows[k]));
      MatchFromIgnoresCase(rows, a, b, k + 1);
    }
  }

  /** The lookup does not see case: names that agree once upper-cased find the same handler. */
  lemma LookupIgnoresCase(a: string, b: string)
    requires UpperCased(a) == UpperCased(b)
    ensures Lookup(a) == Lookup(b)
  {
    MatchFromIgnoresCase(Registry, a, b, 0);
  }

  // ---------------------------------------------------------------------
  // Dispatch.

  /** The ranges of the draws the handler of `e` makes, for a monster of level `rlev`. */
  ghost predicate DrawsFit(e: BlowEffect, d: E.Draws, rlev: int)
  {
    match e
    case Poison | Blind | Confuse | Terrify | Paralyze => 1 <= d.timer <= rlev
    case Hallu => 1 <= d.timer <= S.Max(1, rlev / 2)
    case Exp10 => 10 <= d.dice <= 60
    case Exp20 => 20 <= d.dice <= 120
    case Exp40 => 40 <= d.dice <= 240
    case Exp80 => 80 <= d.dice <= 480
    case _ => true
  }

  /** Does the handler of `e` take things (gold or objects) from the player? */
  predicate Steals(e: BlowEffect)
  {
    e == EatGold || e == EatItem
  }

  /** Does the handler of `e` touch the pack's objects? */
  predicate TouchesPack(e: BlowEffect)
  {
    e == DrainCharges || e == EatItem || e == EatFood
  }

  /** Does the handler of `e` raise a timer? */
  predicate RaisesTimer(e: BlowEffect)
  {
    e == Poison || e == Blind || e == Confuse || e == Terrify || e == Paralyze || e == Hallu
  }

  /**
   * What running the handler of `e` on the blow `ctx` guarantees, whatever
   * the effect: the context's flags only ever go from false to true, the
   * collaborator log only grows, and each part of the state is touched only
   * by the handlers that own it. A blow that leaves the player dead changes
   * nothing but hit points, the flags, the monster's lore and the pack
   * damage of an elemental attack. Gold theft moves gold from the purse to
   * the monster without creating or losing any.
   */
  twostate predicate BlowOutcome(ctx: E.BlowContext, e: BlowEffect)
    reads ctx, ctx.p, ctx.p.inven, ctx.mon
  {
    && ctx.Valid()
    && (old(ctx.obvious) ==> ctx.obvious)
    && (old(ctx.blinked) ==> ctx.blinked)
    && (old(ctx.doBreak) ==> ctx.doBreak)
    && |ctx.p.events| >= |old(ctx.p.events)|
    && ctx.p.events[..|old(ctx.p.events)|] == old(ctx.p.events)
    && (!Steals(e) ==>
          ctx.p.au == old(ctx.p.au) && ctx.mon.carried == old(ctx.mon.carried) && ctx.blinked == old(ctx.blinked))
    && (!TouchesPack(e) ==> ctx.p.inven[..] == old(ctx.p.inven[..]))
    && (e != DrainCharges ==> ctx.mon.hp == old(ctx.mon.hp))
    && (!RaisesTimer(e) ==> ctx.p.timed == old(ctx.p.timed))
    && (e != Shatter ==> ctx.p.pos == old(ctx.p.pos) && ctx.doBreak == old(ctx.doBreak))
    && (ctx.p.isDead ==>
          && ctx.p.au == old(ctx.p.au) && ctx.p.timed == old(ctx.p.timed) && ctx.p.pos == old(ctx.p.pos)
          && ctx.p.inven[..] == old(ctx.p.inven[..])
          && ctx.mon.hp == old(ctx.mon.hp) && ctx.mon.carried == old(ctx.mon.carried)
          && ctx.blinked == old(ctx.blinked) && ctx.doBreak == old(ctx.doBreak)
          && forall i :: |old(ctx.p.events)| <= i < |ctx.p.events| ==> ctx.p.events[i].InvenDamage?)
    && (e == EatGold ==>
          && |ctx.mon.carried| >= |old(ctx.mon.carried)|
          && ctx.mon.carried[..|old(ctx.mon.carried)|] == old(ctx.mon.carried)
          && ctx.p.au + S.PvalSum(ctx.mon.carried[|old(ctx.mon.carried)|..]) == old(ctx.p.au))
  }

  /**
   * What the handler registered for `e` leaves behind: the outcome its
   * method in MeleeEffects states, and for a handler that only calls one of
   * the four families, that family's outcome with the element, timer,
   * amount, protection flag, saving throw, stat, chance or dice the handler
   * passes.
   */
  twostate predicate HandlerOutcome(ctx: E.BlowContext, e: BlowEffect, d: E.Draws, w: E.World)
    reads ctx, ctx.p, ctx.p.inven, ctx.mon
    requires old(ctx.Valid()) && ctx.Valid() && E.DrawsValid(d, ctx.p.inven.Length)
  {
    match e
    case NoEffect => ctx.NoneOutcome()
    case Hurt => ctx.HurtOutcome(w)
    case Poison => ctx.PoisonOutcome(d, w)
    case Disenchant => ctx.DisenchantOutcome(w)
    case DrainCharges => ctx.DrainChargesOutcome(d)
    case EatGold => ctx.EatGoldOutcome(d)
    case EatItem => ctx.EatItemOutcome(d)
    case EatFood => ctx.EatFoodOutcome(d)
    case EatLight => ctx.EatLightOutcome(w)
    case Acid => ctx.ElementalOutcome(S.Acid, true, w)
    case Elec => ctx.ElementalOutcome(S.Elec, true, w)
    case Fire => ctx.ElementalOutcome(S.Fire, true, w)
    case Cold => ctx.ElementalOutcome(S.Cold, true, w)
    case Blind => ctx.TimedOutcome(S.Blind, 10 + d.timer, S.ProtBlind, false, d, w)
    case Confuse => ctx.TimedOutcome(S.Confused, 3 + d.timer, S.ProtConf, false, d, w)
    case Terrify => ctx.TimedOutcome(S.Afraid, 3 + d.timer, S.ProtFear, true, d, w)
    case Paralyze => ctx.ParalyzeOutcome(d, w)
    case LoseStr => ctx.StatDrainOutcome(S.Str, w)
    case LoseInt => ctx.StatDrainOutcome(S.Int, w)
    case LoseWis => ctx.StatDrainOutcome(S.Wis, w)
    case LoseDex => ctx.StatDrainOutcome(S.Dex, w)
    case LoseCon => ctx.StatDrainOutcome(S.Con, w)
    case LoseAll => ctx.LoseAllOutcome(w)
    case Shatter => ctx.ShatterOutcome(w)
    case Exp10 => ctx.ExperienceOutcome(95, d.dice, d, w)
    case Exp20 => ctx.ExperienceOutcome(90, d.dice, d, w)
    case Exp40 => ctx.ExperienceOutcome(75, d.dice, d, w)
    case Exp80 => ctx.ExperienceOutcome(50, d.dice, d, w)
    case Hallu => ctx.HalluOutcome(d, w)
  }

  /** The handlers that take from the pack or the purse, or drain charges. */
  method ApplyToBelongings(ctx: E.BlowContext, e: BlowEffect, d: E.Draws, w: E.World)
    requires e == DrainCharges || e == EatGold || e == EatItem || e == EatFood
    requires ctx.Valid() && E.DrawsValid(d, ctx.p.inven.Length)
    modifies ctx, ctx.p, ctx.p.inven, ctx.mon
    ensures BlowOutcome(ctx, e) && HandlerOutcome(ctx, e, d, w)
  {
    match e
    case DrainCharges => ctx.MeleeDrainCharges(d);
    case EatGold => ctx.MeleeEatGold(d);
    case EatItem => ctx.MeleeEatItem(d);
    case EatFood => ctx.MeleeEatFood(d);
  }

  /** The handlers that raise a timer. */
  method ApplyTimed(ctx: E.BlowContext, e: BlowEffect, d: E.Draws, w: E.World)
    requires RaisesTimer(e)
    requires ctx.Valid() && E.DrawsValid(d, ctx.p.inven.Length) && DrawsFit(e, d, ctx.rlev)
    modifies ctx, ctx.p, ctx.p.inven, ctx.mon
    ensures BlowOutcome(ctx, e) && HandlerOutcome(ctx, e, d, w)
  {
    match e
    case Poison => ctx.MeleePoison(d, w);
    case Blind => ctx.MeleeBlind(d, w);
    case Confuse => ctx.MeleeConfuse(d, w);
    case Terrify => ctx.MeleeTerrify(d, w);
    case Paralyze => ctx.MeleeParalyze(d, w);
    case Hallu => ctx.MeleeHallu(d, w);
  }

  /** The pure elemental handlers. */
  method ApplyElement(ctx: E.BlowContext, e: BlowEffect, d: E.Draws, w: E.World)
    requires e == Acid || e == Elec || e == Fire || e == Cold
    requires ctx.Valid() && E.DrawsValid(d, ctx.p.inven.Length)
    modifies ctx, ctx.p, ctx.p.inven, ctx.mon
    ensures BlowOutcome(ctx, e) && HandlerOutcome(ctx, e, d, w)
  {
    match e
    case Acid => ctx.MeleeAcid(w);
    case Elec => ctx.MeleeElec(w);
    case Fire => ctx.MeleeFire(w);
    case Cold => ctx.MeleeCold(w);
  }

  /** The experience drains. */
  method ApplyExperience(ctx: E.BlowContext, e: BlowEffect, d: E.Draws, w: E.World)
    requires e == Exp10 || e == Exp20 || e == Exp40 || e == Exp80
    requires ctx.Valid() && E.DrawsValid(d, ctx.p.inven.Length) && DrawsFit(e, d, ctx.rlev)
    modifies ctx, ctx.p, ctx.p.inven, ctx.mon
    ensures BlowOutcome(ctx, e) && HandlerOutcome(ctx, e, d, w)
  {
    match e
    case Exp10 => ctx.MeleeExp10(d, w);
    case Exp20 => ctx.MeleeExp20(d, w);
    case Exp40 => ctx.MeleeExp40(d, w);
    case Exp80 => ctx.MeleeExp80(d, w);
  }

  /** The stat drains. */
  method ApplyStatDrain(ctx: E.BlowContext, e: BlowEffect, d: E.Draws, w: E.World)
    requires e == LoseStr || e == LoseInt || e == LoseWis || e == LoseDex || e == LoseCon || e == LoseAll
    requires ctx.Valid() && E.DrawsValid(d, ctx.p.inven.Length)
    modifies ctx, ctx.p, ctx.p.inven, ctx.mon
    ensures BlowOutcome(ctx, e) && HandlerOutcome(ctx, e, d, w)
  {
    match e
    case LoseStr => ctx.MeleeLoseStr(w);
    case LoseInt => ctx.MeleeLoseInt(w);
    case LoseWis => ctx.MeleeLoseWis(w);
    case LoseDex => ctx.MeleeLoseDex(w);
    case LoseCon => ctx.MeleeLoseCon(w);
    case LoseAll => ctx.MeleeLoseAll(w);
  }

  /** The remaining handlers: plain damage, disenchantment, light drain and earthquakes. */
  method ApplyOther(ctx: E.BlowContext, e: BlowEffect, d: E.Draws, w: E.World)
    requires e == NoEffect || e == Hurt || e == Disenchant || e == EatLight || e == Shatter
    requires ctx.Valid() && E.DrawsValid(d, ctx.p.inven.Length)
    modifies ctx, ctx.p, ctx.p.inven, ctx.mon
    ensures BlowOutcome(ctx, e) && HandlerOutcome(ctx, e, d, w)
  {
    match e
    case NoEffect => ctx.MeleeNone();
    case Hurt => ctx.MeleeHurt(w);
    case Disenchant => ctx.MeleeDisenchant(w);
    case EatLight => ctx.MeleeEatLight(w);
    case Shatter => ctx.MeleeShatter(w);
  }

  /**
   * Run the handler that the registry holds for `e` on the blow `ctx`: the
   * outcome is exactly that handler's, and it keeps the guarantees every
   * handler shares.
   */
  method Apply(ctx: E.BlowContext, e: BlowEffect, d: E.Draws, w: E.World)
    requires ctx.Valid() && E.DrawsValid(d, ctx.p.inven.Length) && DrawsFit(e, d, ctx.rlev)
    modifies ctx, ctx.p, ctx.p.inven, ctx.mon
    ensures BlowOutcome(ctx, e) && HandlerOutcome(ctx, e, d, w)
  {
    if e == DrainCharges || e == EatGold || e == EatItem || e == EatFood {
      ApplyToBelongings(ctx, e, d, w);
    } else if RaisesTimer(e) {
      ApplyTimed(ctx, e, d, w);
    } else if e == Acid || e == Elec || e == Fire || e == Cold {
      ApplyElement(ctx, e, d, w);
    } else if e == Exp10 || e == Exp20 || e == Exp40 || e == Exp80 {
      ApplyExperience(ctx, e, d, w);
    } else if e == LoseStr || e == LoseInt || e == LoseWis || e == LoseDex || e == LoseCon || e == LoseAll {
      ApplyStatDrain(ctx, e, d, w);
    } else {
      ApplyOther(ctx, e, d, w);
    }
  }
}
