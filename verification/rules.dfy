/** The business rules as the documentation states them, written
    independently of the code paths of `Battle`, and the lemmas that tie the
    operations and the normaliser to them. */
module Rules {
  import opened Tables
  import opened Warriors

  /** The response the battle rules promise for a warrior of level `own`
      meeting an enemy of level `enemy`: out-of-range enemies are invalid; a
      warrior at least one rank tier and at least five levels below the enemy
      is defeated; otherwise a stronger enemy is intense, an equal or
      one-lower enemy is good, and anything weaker is easy. */
  function ExpectedOutcome(own: int, enemy: int): Outcome
  {
    if enemy < LevelMin || LevelMax < enemy then InvalidLevel
    else if Tier(own) < Tier(enemy) && own + 5 <= enemy then Defeated
    else if own < enemy then IntenseFight
    else if own <= enemy + 1 then GoodFight
    else EasyFight
  }

  /** The experience the battle rules award: 20 * diff * diff against a
      stronger enemy, 10 for an equal one, 5 for one a level lower, nothing
      otherwise (and nothing for an invalid or lost battle). */
  function ExpectedGain(own: int, enemy: int): nat
  {
    match ExpectedOutcome(own, enemy)
    case IntenseFight => 20 * (enemy - own) * (enemy - own)
    case GoodFight => if own == enemy then 10 else 5
    case _ => 0
  }

  /** The normaliser leaves a warrior unchanged exactly when its stats are
      already coherent. */
  lemma NormaliseFixesExactlyCoherent(w: Warrior)
    requires Normalisable(w.experience)
    ensures Normalise(w.experience, w.achievements) == w <==> Coherent(w)
  {
  }

  /** Normalising twice is the same as normalising once. */
  lemma NormaliseIdempotent(experience: int, achievements: seq<string>)
    requires Normalisable(experience)
    ensures var w := Normalise(experience, achievements);
      Normalise(w.experience, w.achievements) == w
  {
  }

  /** Each further 100 experience is one more level: a coherent warrior with
      non-negative experience sits in the hundred its level names, and level
      100 is reached exactly at the 10000 cap. */
  lemma LevelTracksExperience(w: Warrior)
    requires Coherent(w) && 0 <= w.experience
    ensures w.level * ExperiencePerLevel <= w.experience < w.level * ExperiencePerLevel + ExperiencePerLevel
    ensures w.level <= LevelMax
    ensures w.level == LevelMax <==> w.experience == ExperienceMax
  {
  }

  /** A warrior in the documented ranges holds the rank of tier k exactly
      when its level lies in 10k .. 10k+9; so levels 1..9 are "Pushover",
      80..89 "Champion", and only level 100 is "Greatest". */
  lemma RankMatchesLevelTier(w: Warrior, k: int)
    requires Coherent(w) && InRange(w)
    requires 0 <= k < |WarriorRanks|
    ensures w.rank == WarriorRanks[k] <==> k * LevelsPerRank <= w.level < k * LevelsPerRank + LevelsPerRank
  {
  }

  /** More experience never means a lower level or a lower rank tier. */
  lemma StatsMonotone(v: Warrior, w: Warrior)
    requires Coherent(v) && Coherent(w)
    requires v.experience <= w.experience
    ensures v.level <= w.level
    ensures Tier(v.level) <= Tier(w.level)
  {
  }

  /** The code's defeat test (enemy higher, different tier, at least five
      levels apart) is the documented one (at least one rank lower and at
      least five levels lower). */
  lemma DefeatTestMatchesRule(own: int, enemy: int)
    ensures (own < enemy && Tier(own) != Tier(enemy) && enemy - own >= 5)
        <==> (Tier(own) < Tier(enemy) && own + 5 <= enemy)
  {
  }

  /** A battle of a coherent warrior gives the documented response, and its
      new state is the old experience plus the documented award, normalised;
      in particular the response depends on the levels alone. */
  lemma BattleFollowsRules(w: Warrior, enemy: int)
    requires Coherent(w)
    ensures Battle(w, enemy).1 == ExpectedOutcome(w.level, enemy)
    ensures Battle(w, enemy).0 == Normalise(w.experience + ExpectedGain(w.level, enemy), w.achievements)
  {
  }

  /** A training call is refused exactly when the level is below the
      requirement; an accepted call adds exactly one log entry, at the end,
      and leaves every earlier entry in place. */
  lemma TrainingAppendsOnly(w: Warrior, description: string, award: int, requiredLevel: int)
    requires w.level < requiredLevel || Normalisable(w.experience + award)
    ensures var (v, answer) := Training(w, description, award, requiredLevel);
      && v.achievements[..|w.achievements|] == w.achievements
      && (|v.achievements| == |w.achievements| + 1 <==> requiredLevel <= w.level)
      && (|v.achievements| == |w.achievements| <==> w.level < requiredLevel)
      && (requiredLevel <= w.level ==> v.achievements[|w.achievements|] == description == answer)
  {
  }

  /** An intense fight that is not lost is against an enemy in the same tier
      or fewer than five levels up, so the level gap is at most 18 (at most 9
      for a warrior in the documented ranges) and the award at most
      20 * 18 * 18 = 6480. */
  lemma IntenseGapBound(w: Warrior, enemy: int)
    requires Normalisable(w.experience)
    ensures Battle(w, enemy).1 == IntenseFight ==> enemy - w.level <= 18
    ensures Battle(w, enemy).1 == IntenseFight && Coherent(w) && InRange(w) ==> enemy - w.level <= 9
  {
  }
}
