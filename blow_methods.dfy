/**
 * Blow methods of src/mon-blows.c: the action text a blow method adds to
 * the attack message.
 */
module BlowMethods {

  import opened Wrappers

  /** struct blow_method, as far as the melee code reads it. */
  datatype BlowMethod = BlowMethod(name: string, actMsg: Option<string>, phys: bool)

  /** The eight endings of an INSULT message. */
  const Insults: seq<string> := [
    "insults you!",
    "insults your mother!",
    "gives you the finger!",
    "humiliates you!",
    "defiles you!",
    "dances around you!",
    "makes obscene gestures!",
    "moons you!!!"
  ]

  /** The eight endings of a MOAN message. */
  const Moans: seq<string> := [
    "wants his mushrooms back.",
    "tells you to get off his land.",
    "looks for his dogs. ",
    "says 'Did you kill my Fang?' ",
    "asks 'Do you want to buy any mushrooms?' ",
    "seems sad about something.",
    "asks if you have seen his dogs.",
    "mumbles something about mushrooms."
  ]

  /**
   * monster_blow_method_action: the method's own action text when it has
   * one; otherwise, for INSULT and MOAN (compared exactly, case and all),
   * the entry `roll` of their table, where `roll` is the draw randint0(8);
   * otherwise no text.
   */
  function MonsterBlowMethodAction(m: BlowMethod, roll: int): (action: Option<string>)
    requires 0 <= roll < 8
    ensures m.actMsg.Some? ==> action == m.actMsg
    ensures action.None? <==> m.actMsg.None? && m.name != "INSULT" && m.name != "MOAN"
    ensures m.actMsg.None? && action.Some? ==>
      (m.name == "INSULT" && action.value in Insults) || (m.name == "MOAN" && action.value in Moans)
  {
    if m.actMsg.Some? then m.actMsg
    else if m.name == "INSULT" then Some(Insults[roll])
    else if m.name == "MOAN" then Some(Moans[roll])
    else None
  }
}
