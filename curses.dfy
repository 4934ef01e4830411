/**
 * Curse lists of src/obj-properties.c. An object's curses form a linked
 * list; here the list is the sequence of its entries from the head, and an
 * object's list is the field of a CurseList that copy_curse and
 * append_curse reassign.
 */
module Curses {

  import opened Wrappers

  /** A curse on an object: its name and its power. */
  datatype Curse = Curse(name: string, power: int)

  /** Some entry of `l` bears `name`. */
  ghost predicate HasName(l: seq<Curse>, name: string)
  {
    exists i :: 0 <= i < |l| && l[i].name == name
  }

  /** No name occurs twice in `l`. */
  ghost predicate DistinctNames(l: seq<Curse>)
  {
    forall i, j :: 0 <= i < j < |l| ==> l[i].name != l[j].name
  }

  /** How many entries of `l` bear `name`. */
  function NameCount(l: seq<Curse>, name: string): nat
  {
    if l == [] then 0
    else NameCount(l[..|l| - 1], name) + (if l[|l| - 1].name == name then 1 else 0)
  }

  /** The position of the first entry of `l` bearing `name`, if any. */
  function FindName(l: seq<Curse>, name: string): (r: int)
    ensures -1 <= r < |l|
    ensures r == -1 <==> !HasName(l, name)
    ensures r >= 0 ==> l[r].name == name && forall i :: 0 <= i < r ==> l[i].name != name
  {
    if l == [] then -1
    else if l[0].name == name then 0
    else
      var r := FindName(l[1..], name);
      assert forall i :: 0 <= i < |l[1..]| ==> l[1..][i] == l[i + 1];
      if r == -1 then -1 else r + 1
  }

  /**
   * lookup_curse: the index of the curse called `name` in the global curse
   * table, or 0 when there is none. Entry 0 of the table is never a
   * candidate, and unnamed entries are skipped.
   */
  method LookupCurse(table: seq<Option<string>>, name: string) returns (idx: int)
    ensures idx == 0 <==> forall k :: 1 <= k < |table| ==> table[k] != Some(name)
    ensures idx != 0 ==> 1 <= idx < |table| && table[idx] == Some(name)
    ensures forall k :: 1 <= k < idx ==> table[k] != Some(name)
  {
    var i := 1;
    while i < |table|
      invariant 1 <= i
      invariant forall k :: 1 <= k < i && k < |table| ==> table[k] != Some(name)
    {
      if table[i].Some? && table[i].value == name {
        return i;
      }
      i := i + 1;
    }
    return 0;
  }

  /** One step of copy_curse: prepend a copy of `c` unless its name is already in `dest`. */
  function CopyOne(dest: seq<Curse>, c: Curse): seq<Curse>
  {
    if HasNameFast(dest, c.name) then dest else [c] + dest
  }

  /** HasName as a computable function, used by the copy specification. */
  function HasNameFast(l: seq<Curse>, name: string): (b: bool)
    ensures b <==> HasName(l, name)
  {
    FindName(l, name) != -1
  }

  /**
   * The list copy_curse leaves in `dest`: the curses of `source`, in order,
   * each prepended unless a curse of that name is already in the list as it
   * stands at that moment.
   */
  function Copied(dest: seq<Curse>, source: seq<Curse>): seq<Curse>
    decreases |source|
  {
    if source == [] then dest else Copied(CopyOne(dest, source[0]), source[1..])
  }

  /** Copying source[i..] is copying source[i] and then source[i + 1..]. */
  lemma CopiedUnfold(dest: seq<Curse>, source: seq<Curse>, i: int)
    requires 0 <= i < |source|
    ensures Copied(dest, source[i..]) == Copied(CopyOne(dest, source[i]), source[i + 1..])
  {
    assert source[i..][0] == source[i];
    assert source[i..][1..] == source[i + 1..];
  }

  /** The list append_curse leaves behind and the value it returns. */
  datatype AppendOutcome = AppendOutcome(curses: seq<Curse>, changed: bool)

  /**
   * append_curse: a curse whose name is already present keeps its place and
   * takes the larger power (the result says whether the power rose); a new
   * name is added at the end of the list.
   */
  function Appended(l: seq<Curse>, name: string, power: int): (r: AppendOutcome)
    ensures HasName(l, name) ==>
      var i := FindName(l, name);
      && |r.curses| == |l|
      && r.curses[i] == Curse(name, if power > l[i].power then power else l[i].power)
      && (r.changed <==> power > l[i].power)
      && (forall k :: 0 <= k < |l| && k != i ==> r.curses[k] == l[k])
    ensures !HasName(l, name) ==> r.curses == l + [Curse(name, power)] && r.changed
  {
    var i := FindName(l, name);
    if i == -1 then AppendOutcome(l + [Curse(name, power)], true)
    else if power > l[i].power then AppendOutcome(l[i := Curse(name, power)], true)
    else AppendOutcome(l, false)
  }

  /**
   * The list of curses on one object (the `struct curse *` that copy_curse
   * and append_curse update through a pointer to it).
   */
  class CurseList {
    var curses: seq<Curse>

    constructor (initial: seq<Curse>)
      ensures curses == initial
    {
      curses := initial;
    }

    /** copy_curse: copy every curse of `source` whose name this list lacks. */
    method CopyFrom(source: seq<Curse>)
      modifies this
      ensures curses == Copied(old(curses), source)
    {
      var i := 0;
      while i < |source|
        invariant 0 <= i <= |source|
        invariant Copied(curses, source[i..]) == Copied(old(curses), source)
      {
        var c := source[i];
        // Check for dupes against the list as it stands now.
        var j := 0;
        var dupe := false;
        while j < |curses|
          invariant 0 <= j <= |curses|
          invariant !dupe ==> forall k :: 0 <= k < j ==> curses[k].name != c.name
          invariant dupe ==> HasName(curses, c.name)
        {
          if curses[j].name == c.name {
            dupe := true;
            break;
          }
          j := j + 1;
        }
        assert dupe == HasNameFast(curses, c.name);
        CopiedUnfold(curses, source, i);
        if !dupe {
          curses := [c] + curses;
        }
        i := i + 1;
      }
    }

    /**
     * append_curse: add curse `pick` of the global table with the given
     * power, or raise the power of the curse of that name already present.
     */
    method Append(table: seq<Option<string>>, pick: int, power: int) returns (changed: bool)
      requires 0 <= pick < |table| && table[pick].Some?
      modifies this
      ensures AppendOutcome(curses, changed) == Appended(old(curses), table[pick].value, power)
    {
      var name := table[pick].value;
      var i := 0;
      while i < |curses|
        invariant 0 <= i <= |curses|
        invariant curses == old(curses)
        invariant forall k :: 0 <= k < i ==> curses[k].name != name
      {
        if curses[i].name == name {
          if power > curses[i].power {
            curses := curses[i := Curse(name, power)];
            return true;
          } else {
            return false;
          }
        }
        i := i + 1;
      }
      curses := curses + [Curse(name, power)];
      return true;
    }
  }

  /**
   * curses_are_equal as its loops compute it: the lists have the same length
   * and every curse of the first matches the name of exactly one curse of
   * the second. Powers are not compared.
   */
  ghost predicate SameCurses(a: seq<Curse>, b: seq<Curse>)
  {
    |a| == |b| && forall i :: 0 <= i < |a| ==> NameCount(b, a[i].name) == 1
  }

  /** curses_are_equal: do two curse lists hold the same curses? */
  method CursesAreEqual(a: seq<Curse>, b: seq<Curse>) returns (eq: bool)
    ensures eq <==> SameCurses(a, b)
  {
    var count, matched := 0, 0;
    var i := 0;
    while i < |a|
      invariant 0 <= i <= |a|
      invariant count == i && matched == i
      invariant forall k :: 0 <= k < i ==> NameCount(b, a[k].name) == 1
    {
      count := count + 1;
      var j := 0;
      while j < |b|
        invariant 0 <= j <= |b|
        invariant matched == i + NameCount(b[..j], a[i].name)
      {
        assert b[..j + 1][..j] == b[..j];
        if b[j].name == a[i].name {
          matched := matched + 1;
        }
        j := j + 1;
      }
      assert b[..|b|] == b;
      // Fail if we did not find exactly one match.
      if matched != count {
        return false;
      }
      i := i + 1;
    }
    // Count back so that b is not strictly longer.
    var j := 0;
    while j < |b|
      invariant 0 <= j <= |b|
      invariant count == |a| - j
    {
      count := count - 1;
      j := j + 1;
    }
    eq := count == 0;
  }

  // ---------------------------------------------------------------------
  // Properties of the copy, append and comparison specifications.

  /** The curses `dest` held before copy_curse stay, unchanged, as the tail of the list. */
  lemma {:induction false} CopiedKeepsDest(dest: seq<Curse>, source: seq<Curse>)
    ensures |Copied(dest, source)| >= |dest|
    ensures Copied(dest, source)[|Copied(dest, source)| - |dest|..] == dest
    decreases |source|
  {
    if source != [] {
      var d1 := CopyOne(dest, source[0]);
      CopiedKeepsDest(d1, source[1..]);
      var r := Copied(d1, source[1..]);
      assert r[|r| - |d1|..] == d1;
      assert d1[|d1| - |dest|..] == dest;
      assert r[|r| - |dest|..] == r[|r| - |d1|..][|d1| - |dest|..];
    }
  }

  /** Once a name is in the list, copying more curses keeps it there. */
  lemma {:induction false} CopiedKeepsName(dest: seq<Curse>, source: seq<Curse>, name: string)
    requires HasName(dest, name)
    ensures HasName(Copied(dest, source), name)
    decreases |source|
  {
    if source != [] {
      var d1 := CopyOne(dest, source[0]);
      var i :| 0 <= i < |dest| && dest[i].name == name;
      if d1 != dest {
        assert d1[i + 1] == dest[i];
      }
      CopiedKeepsName(d1, source[1..], name);
    }
  }

  /** After copy_curse every name of `source` is present in the list. */
  lemma {:induction false} CopiedCoversSource(dest: seq<Curse>, source: seq<Curse>)
    ensures forall i :: 0 <= i < |source| ==> HasName(Copied(dest, source), source[i].name)
    decreases |source|
  {
    if source != [] {
      var d1 := CopyOne(dest, source[0]);
      assert HasName(d1, source[0].name) by {
        if d1 != dest { assert d1[0] == source[0]; }
      }
      CopiedKeepsName(d1, source[1..], source[0].name);
      CopiedCoversSource(d1, source[1..]);
      forall i | 1 <= i < |source|
        ensures HasName(Copied(dest, source), source[i].name)
      {
        assert source[1..][i - 1] == source[i];
      }
    }
  }

  /**
   * copy_curse adds no name twice, and no name `dest` already had: a list
   * whose names are distinct keeps distinct names.
   */
  lemma {:induction false} CopiedDistinct(dest: seq<Curse>, source: seq<Curse>)
    requires DistinctNames(dest)
    ensures DistinctNames(Copied(dest, source))
    decreases |source|
  {
    if source != [] {
      var d1 := CopyOne(dest, source[0]);
      if d1 != dest {
        forall i, j | 0 <= i < j < |d1|
          ensures d1[i].name != d1[j].name
        {
          if i == 0 {
            assert d1[j] == dest[j - 1];
          } else {
            assert d1[i] == dest[i - 1] && d1[j] == dest[j - 1];
          }
        }
      }
      CopiedDistinct(d1, source[1..]);
    }
  }

  /** Every curse copy_curse leaves in the list was in `dest` or is a copy of a curse of `source`. */
  lemma {:induction false} CopiedFromEither(dest: seq<Curse>, source: seq<Curse>)
    ensures forall c :: c in Copied(dest, source) ==> c in dest || c in source
    decreases |source|
  {
    if source != [] {
      var d1 := CopyOne(dest, source[0]);
      CopiedFromEither(d1, source[1..]);
      forall c | c in Copied(dest, source)
        ensures c in dest || c in source
      {
        if c in source[1..] {
          var k :| 0 <= k < |source[1..]| && source[1..][k] == c;
          assert source[k + 1] == c;
        }
      }
    }
  }

  /** Copying a list whose names are all present already leaves the list as it was. */
  lemma {:induction false} CopiedIdempotent(dest: seq<Curse>, source: seq<Curse>)
    requires forall i :: 0 <= i < |source| ==> HasName(dest, source[i].name)
    ensures Copied(dest, source) == dest
    decreases |source|
  {
    if source != [] {
      assert HasName(dest, source[0].name);
      CopiedIdempotent(dest, source[1..]);
    }
  }

  /** Copying the same source a second time changes nothing. */
  lemma CopiedTwice(dest: seq<Curse>, source: seq<Curse>)
    ensures Copied(Copied(dest, source), source) == Copied(dest, source)
  {
    CopiedCoversSource(dest, source);
    CopiedIdempotent(Copied(dest, source), source);
  }

  /** In a list with distinct names, a name present occurs exactly once. */
  lemma {:induction false} DistinctNameCount(l: seq<Curse>, i: int)
    requires DistinctNames(l) && 0 <= i < |l|
    ensures NameCount(l, l[i].name) == 1
    decreases |l|
  {
    var n := l[i].name;
    var init := l[..|l| - 1];
    assert DistinctNames(init);
    if i == |l| - 1 {
      AbsentNameCount(init, n);
    } else {
      assert init[i] == l[i];
      DistinctNameCount(init, i);
    }
  }

  /** A name no entry bears is counted zero times. */
  lemma {:induction false} AbsentNameCount(l: seq<Curse>, name: string)
    requires forall k :: 0 <= k < |l| ==> l[k].name != name
    ensures NameCount(l, name) == 0
    decreases |l|
  {
    if l != [] {
      var init := l[..|l| - 1];
      assert forall k :: 0 <= k < |init| ==> init[k] == l[k];
      AbsentNameCount(init, name);
    }
  }

  /** curses_are_equal holds of a list with distinct names and itself. */
  lemma SameCursesReflexive(l: seq<Curse>)
    requires DistinctNames(l)
    ensures SameCurses(l, l)
  {
    forall i | 0 <= i < |l|
      ensures NameCount(l, l[i].name) == 1
    {
      DistinctNameCount(l, i);
    }
  }

  /** A list that curses_are_equal accepts holds every name of the other. */
  lemma SameCursesCovers(a: seq<Curse>, b: seq<Curse>)
    requires SameCurses(a, b)
    ensures forall i :: 0 <= i < |a| ==> HasName(b, a[i].name)
  {
    forall i | 0 <= i < |a|
      ensures HasName(b, a[i].name)
    {
      if !HasName(b, a[i].name) {
        AbsentNameCount(b, a[i].name);
      }
    }
  }

  /** Appending a curse whose name is present and then its own power again changes nothing. */
  lemma AppendedTwice(l: seq<Curse>, name: string, power: int)
    ensures var r := Appended(l, name, power);
      Appended(r.curses, name, power) == AppendOutcome(r.curses, false)
  {
    var r := Appended(l, name, power);
    if !HasName(l, name) {
      assert r.curses[|l|].name == name;
      assert HasName(r.curses, name);
    } else {
      var i := FindName(l, name);
      assert r.curses[i].name == name;
      assert HasName(r.curses, name);
      assert FindName(r.curses, name) == i;
    }
  }

  /** When no name of `source` is in `dest` and `source` repeats no name, copy_curse copies every curse. */
  lemma {:induction false} CopiedLength(dest: seq<Curse>, source: seq<Curse>)
    requires DistinctNames(source)
    requires forall i :: 0 <= i < |source| ==> !HasName(dest, source[i].name)
    ensures |Copied(dest, source)| == |dest| + |source|
    decreases |source|
  {
    if source != [] {
      var d1 := CopyOne(dest, source[0]);
      assert d1 == [source[0]] + dest;
      forall i | 0 <= i < |source[1..]|
        ensures !HasName(d1, source[1..][i].name)
      {
        assert source[1..][i] == source[i + 1];
      }
      assert DistinctNames(source[1..]) by {
        forall i, j | 0 <= i < j < |source[1..]|
          ensures source[1..][i].name != source[1..][j].name
        {
          assert source[1..][i] == source[i + 1] && source[1..][j] == source[j + 1];
        }
      }
      CopiedLength(d1, source[1..]);
    }
  }

  /**
   * A list that repeats no name, copied into an empty list, compares equal
   * with the original in both directions.
   */
  lemma CopyIntoEmptyIsEqual(source: seq<Curse>)
    requires DistinctNames(source)
    ensures SameCurses(source, Copied([], source)) && SameCurses(Copied([], source), source)
  {
    var c := Copied([], source);
    CopiedLength([], source);
    CopiedDistinct([], source);
    CopiedCoversSource([], source);
    CopiedFromEither([], source);
    forall i | 0 <= i < |source|
      ensures NameCount(c, source[i].name) == 1
    {
      var j :| 0 <= j < |c| && c[j].name == source[i].name;
      DistinctNameCount(c, j);
    }
    forall j | 0 <= j < |c|
      ensures NameCount(source, c[j].name) == 1
    {
      assert c[j] in c;
      var i :| 0 <= i < |source| && source[i] == c[j];
      DistinctNameCount(source, i);
    }
  }
}
