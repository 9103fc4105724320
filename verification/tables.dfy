/** The fixed tables of the warrior rules: the numeric constants, the eleven
    rank names and the six fight-status labels, together with the typed
    outcome of a fight or a training session and its wording. */
module Tables {

  const ExperiencePerLevel: int := 100
  const ExperienceStart: int := 100
  const LevelsPerRank: int := 10
  const LevelMin: int := 1
  const LevelMax: int := 100

  /** The experience cap, reached exactly at level 100. */
  const ExperienceMax: int := ExperiencePerLevel * LevelMax

  /** Rank names in tier order; tier k covers levels 10k .. 10k+9, and the
      last entry is reached only at level 100. */
  const WarriorRanks: seq<string> := [
    "Pushover", "Novice", "Fighter", "Warrior", "Veteran",
    "Sage", "Elite", "Conqueror", "Champion", "Master", "Greatest"
  ]

  /** Fight-status labels, indexed as the rules use them. */
  const FightStatus: seq<string> := [
    "Invalid level",
    "Easy fight",
    "A good fight",
    "An intense fight",
    "You've been defeated",
    "Not strong enough"
  ]

  /** The closed set of labelled responses of a battle or a refused training. */
  datatype Outcome = InvalidLevel | EasyFight | GoodFight | IntenseFight | Defeated | NotStrongEnough
  {
    /** Position of this outcome's label in the fight-status table. */
    function Index(): (i: nat)
      ensures i < |FightStatus|
    {
      match this
      case InvalidLevel => 0
      case EasyFight => 1
      case GoodFight => 2
      case IntenseFight => 3
      case Defeated => 4
      case NotStrongEnough => 5
    }

    /** The literal wording a caller sees. */
    function Message(): string
    {
      match this
      case InvalidLevel => "Invalid level"
      case EasyFight => "Easy fight"
      case GoodFight => "A good fight"
      case IntenseFight => "An intense fight"
      case Defeated => "You've been defeated"
      case NotStrongEnough => "Not strong enough"
    }
  }

  /** Every outcome's wording is the table entry at its index. */
  lemma MessageIsTableEntry(o: Outcome)
    ensures o.Message() == FightStatus[o.Index()]
  {
  }

  /** Distinct outcomes have distinct labels, so a caller can tell every
      response apart by its wording. */
  lemma MessagesDistinct(a: Outcome, b: Outcome)
    ensures a.Message() == b.Message() <==> a == b
  {
  }

  /** No two tiers share a rank name, so a rank name determines its tier. */
  lemma RanksDistinct(i: int, j: int)
    requires 0 <= i < |WarriorRanks| && 0 <= j < |WarriorRanks|
    ensures WarriorRanks[i] == WarriorRanks[j] <==> i == j
  {
  }

  /** Java's `/` on `int` truncates toward zero; Dafny's `/` is Euclidean. */
  function TruncDiv(a: int, b: int): int
    requires b > 0
  {
    if a >= 0 then a / b else -((-a) / b)
  }
}
