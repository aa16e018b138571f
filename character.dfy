/** Contestants of Reality House: a name, a personality and a popularity score. */
module Characters {

  /** The five personalities a contestant can have, in declaration order. */
  datatype PersonalityType = Romantic | Hothead | SocialClimber | Loyalist | Wildcard

  /** Every contestant starts with this (neutral) popularity. */
  const StartingPopularity: int := 50

  /** The personalities listed in declaration order. */
  function AllPersonalities(): seq<PersonalityType>
  {
    [Romantic, Hothead, SocialClimber, Loyalist, Wildcard]
  }

  /**
   * The underlying value of the enumeration member: its position in the
   * declaration. It is how the enumeration is counted: five members, 0 to 4.
   */
  function Ordinal(p: PersonalityType): (k: nat)
    ensures k < |AllPersonalities()| && AllPersonalities()[k] == p
  {
    match p
    case Romantic => 0
    case Hothead => 1
    case SocialClimber => 2
    case Loyalist => 3
    case Wildcard => 4
  }

  /** The enumeration member with underlying value `k`. */
  function FromOrdinal(k: nat): (p: PersonalityType)
    requires k < |AllPersonalities()|
    ensures Ordinal(p) == k
  {
    AllPersonalities()[k]
  }

  /** The enumeration has exactly five members, all different, and every personality is one of them. */
  lemma PersonalityHasFiveValues(p: PersonalityType)
    ensures |AllPersonalities()| == 5
    ensures p in AllPersonalities()
    ensures forall i, j :: 0 <= i < j < 5 ==> AllPersonalities()[i] != AllPersonalities()[j]
  {
  }

  /** A contestant. Event outcomes later change `popularity` in place. */
  class Character {
    var name: string
    var personality: PersonalityType
    /** A signed score with no clamping: in the model an unbounded integer, so it may leave any range such as 0 to 100. */
    var popularity: int

    constructor (name: string, personality: PersonalityType)
      ensures this.name == name && this.personality == personality
      ensures popularity == StartingPopularity
    {
      this.name := name;
      this.personality := personality;
      this.popularity := StartingPopularity;
    }
  }
}
