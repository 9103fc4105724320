/** The warrior itself: an immutable record of level, experience, rank and
    achievement log, the stats normaliser, and the two operations that
    change a warrior, `Battle` and `Training`, each returning the new
    warrior together with its response. */
module Warriors {
  import opened Tables

  datatype Warrior = Warrior(level: int, experience: int, rank: string, achievements: seq<string>)

  /** The level of an experience total, `experience / 100` in Java: whole
      hundreds, rounded toward zero for a negative total. */
  function LevelOf(experience: int): (level: int)
    ensures 0 <= experience ==> 0 <= level && level * 100 <= experience < level * 100 + 100
    ensures experience < 0 ==> level <= 0 && level * 100 - 100 < experience <= level * 100
  {
    TruncDiv(experience, ExperiencePerLevel)
  }

  /** The rank tier of a level, `level / 10` in Java: whole tens, rounded
      toward zero for a negative level. */
  function Tier(level: int): (tier: int)
    ensures 0 <= level ==> 0 <= tier && tier * 10 <= level < tier * 10 + 10
    ensures level < 0 ==> tier <= 0 && tier * 10 - 10 < level <= tier * 10
  {
    TruncDiv(level, LevelsPerRank)
  }

  /** Experience values the normaliser can handle: above -1000 the tier index
      `(experience / 100) / 10` stays non-negative under truncating division;
      at or below it the rank lookup falls outside the table. */
  predicate Normalisable(experience: int)
  {
    experience > -(LevelsPerRank * ExperiencePerLevel)
  }

  /** The stats are consistent with the experience: it is capped, the level
      is the experience in whole hundreds, and the rank is the name of the
      level's tier. Every warrior the operations produce satisfies this. */
  predicate Coherent(w: Warrior)
  {
    && Normalisable(w.experience)
    && w.experience <= ExperienceMax
    && w.level == LevelOf(w.experience)
    && 0 <= Tier(w.level) < |WarriorRanks|
    && w.rank == WarriorRanks[Tier(w.level)]
  }

  /** The documented field ranges: experience 100 .. 10000, level 1 .. 100. */
  predicate InRange(w: Warrior)
  {
    && ExperienceStart <= w.experience <= ExperienceMax
    && LevelMin <= w.level <= LevelMax
  }

  /** Re-derives the stats from a raw experience total: caps it at 10000,
      then sets level and rank from it. The log is carried over. */
  function Normalise(experience: int, achievements: seq<string>): (w: Warrior)
    requires Normalisable(experience)
    ensures Coherent(w)
    ensures experience <= ExperienceMax ==> w.experience == experience
    ensures experience > ExperienceMax ==> w.experience == ExperienceMax
    ensures w.achievements == achievements
    ensures ExperienceStart <= experience ==> InRange(w)
  {
    var e := if experience > ExperienceMax then ExperienceMax else experience;
    var level := LevelOf(e);
    Warrior(level, e, WarriorRanks[Tier(level)], achievements)
  }

  /** A fresh warrior. */
  function New(): (w: Warrior)
    ensures w.experience == 100 && w.level == 1 && w.rank == "Pushover"
    ensures w.achievements == []
    ensures Coherent(w) && InRange(w)
  {
    Normalise(ExperienceStart, [])
  }

  /** The award for beating an enemy `diff` levels higher, 20 * diff * diff;
      always positive, so an intense fight never leaves experience below the
      cap unchanged. */
  function IntenseGain(diff: int): (gain: int)
    requires diff >= 1
    ensures gain >= 20 * diff
  {
    assert diff * diff >= diff;
    20 * diff * diff
  }

  /** The greater the difference between levels, the more experience an
      intense fight earns. */
  lemma IntenseGainGrows(d1: int, d2: int)
    requires 1 <= d1 < d2
    ensures IntenseGain(d1) < IntenseGain(d2)
  {
  }

  /** One fight against an enemy of the given level. Invalid, defeated and
      easy fights leave the warrior as it was; good and intense fights add
      experience and re-derive the stats. */
  function Battle(w: Warrior, enemy: int): (res: (Warrior, Outcome))
    requires Normalisable(w.experience)
    ensures res.1 == InvalidLevel <==> enemy < LevelMin || enemy > LevelMax
    ensures res.1 in {InvalidLevel, Defeated, EasyFight} ==> res.0 == w
    ensures res.1 in {GoodFight, IntenseFight} ==> Coherent(res.0) && (res.0.experience > w.experience || res.0.experience == ExperienceMax)
    ensures res.1 != NotStrongEnough
    ensures res.0.achievements == w.achievements
    ensures Coherent(w) ==> Coherent(res.0)
    ensures InRange(w) && Coherent(w) ==> InRange(res.0)
    ensures w.experience <= ExperienceMax ==> w.experience <= res.0.experience
  {
    if enemy < LevelMin || enemy > LevelMax then
      (w, InvalidLevel)
    else if w.level < enemy then
      if Tier(w.level) != Tier(enemy) && enemy - w.level >= 5 then
        (w, Defeated)
      else
        (Normalise(w.experience + IntenseGain(enemy - w.level), w.achievements), IntenseFight)
    else if w.level == enemy then
      (Normalise(w.experience + 10, w.achievements), GoodFight)
    else if w.level - enemy == 1 then
      (Normalise(w.experience + 5, w.achievements), GoodFight)
    else
      (w, EasyFight)
  }

  /** One training session. Below the required level nothing changes and the
      answer is "Not strong enough"; otherwise the description is appended to
      the log, the award is added, the stats are re-derived and the
      description is returned. */
  function Training(w: Warrior, description: string, award: int, requiredLevel: int): (res: (Warrior, string))
    requires w.level < requiredLevel || Normalisable(w.experience + award)
    ensures w.level < requiredLevel ==> res.0 == w && res.1 == NotStrongEnough.Message()
    ensures w.level >= requiredLevel ==>
      && res.1 == description
      && res.0.achievements == w.achievements + [description]
      && Coherent(res.0)
      && res.0.experience == (if w.experience + award > ExperienceMax then ExperienceMax else w.experience + award)
    ensures Coherent(w) ==> Coherent(res.0)
    ensures InRange(w) && Coherent(w) && award >= 0 ==> InRange(res.0) && w.experience <= res.0.experience
  {
    if w.level < requiredLevel then
      (w, NotStrongEnough.Message())
    else
      (Normalise(w.experience + award, w.achievements + [description]), description)
  }
}
