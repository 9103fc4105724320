/** Example runs and boundary cases of the rules, on concrete warriors. */
module Scenarios {
  import opened Tables
  import opened Warriors

  /** Enemy levels 0 and 101 are outside the valid range: no battle. */
  lemma InvalidLevelsChangeNothing()
    ensures Battle(New(), 0) == (New(), InvalidLevel)
    ensures Battle(New(), 101) == (New(), InvalidLevel)
  {
  }

  /** A fresh warrior against level 100 is a tier apart and 99 levels below:
      defeated, nothing changes. */
  lemma FreshWarriorDefeatedByLevel100()
    ensures Battle(New(), 100) == (New(), Defeated)
  {
  }

  /** A fresh warrior against level 6 is five levels below but in the same
      tier, so it fights: 20 * 5 * 5 = 500 experience, level 6, still
      "Pushover". */
  lemma SameTierFightIsIntense()
    ensures var (w, o) := Battle(New(), 6);
      o == IntenseFight && w.experience == 600 && w.level == 6 && w.rank == "Pushover"
  {
  }

  /** An equal-level fight at level 5 gives 10 experience and keeps the level. */
  lemma EqualLevelFightIsGood()
    ensures var (w, o) := Battle(Normalise(500, []), 5);
      o == GoodFight && w.experience == 510 && w.level == 5
  {
  }

  /** At the cap an equal fight still reads "A good fight" but the
      experience stays at 10000 and the rank at "Greatest". */
  lemma CappedWarriorStaysCapped()
    ensures var (w, o) := Battle(Normalise(ExperienceMax, []), 100);
      o == GoodFight && w.experience == 10000 && w.level == 100 && w.rank == "Greatest"
  {
  }

  /** Training that meets the requirement is logged and rewarded. */
  lemma SparringAccepted()
    ensures var (w, answer) := Training(New(), "Sparring", 50, 1);
      answer == "Sparring" && w.achievements == ["Sparring"] && w.experience == 150
  {
  }

  /** Training above the warrior's level is refused and not logged. */
  lemma EliteDrillRefused()
    ensures var (w, answer) := Training(New(), "Elite drill", 500, 10);
      answer == "Not strong enough" && w.achievements == [] && w.experience == 100
  {
  }

  /** A negative award may take experience below zero; the level is then
      computed with truncating division, so -50 experience is level 0, not -1. */
  lemma NegativeAwardTruncatesTowardZero()
    ensures var (w, answer) := Training(New(), "Penalty", -150, 1);
      w.experience == -50 && w.level == 0 && w.rank == "Pushover" && answer == "Penalty"
  {
  }
}
