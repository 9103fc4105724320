# Warrior progression rules, modelled in Dafny

The system is one game entity, a warrior. It holds a level, an experience
total, a rank name and a log of training achievements. Two operations change
it. `battle(enemyLevel)` classifies a fight, adds experience and answers with
a fixed label. `training(description, points, requiredLevel)` is gated by a
required level; when it goes ahead it appends the description to the log and
adds the points. After every change a normaliser re-derives the stats. It
caps experience at 10000, sets `level = experience / 100` and sets
`rank = RANKS[level / 10]`.

The model is functional. A warrior is an immutable `Warrior` datatype.
`Normalise`, `Battle` and `Training` are pure functions, and each operation
returns the new warrior together with its answer. The files are:

- `tables.dfy`, module `Tables`: the constants, the eleven rank names, the six
  fight-status labels as a closed `Outcome` datatype with its wording, and
  Java's truncating integer division (`TruncDiv`).
- `warrior.dfy`, module `Warriors`: the `Warrior` record, the level and tier
  derivations (`LevelOf`, `Tier`) and the `Coherent` / `InRange` state
  predicates. It also holds the normaliser, the
  constructor (`New`), `Battle` and `Training`.
- `rules.dfy`, module `Rules`: the battle rules exactly as the class
  documentation words them (`ExpectedOutcome`, `ExpectedGain`). This is a
  reference written independently of the code's branch structure. The lemmas
  tie `Battle` and the normaliser to it.
- `history.dfy`, module `History`: arbitrary sequences of calls, and the
  invariants that hold after any of them.
- `scenarios.dfy`, module `Scenarios`: example runs and boundary cases of the
  rules.

Where the prose description and the code differ, the model follows the code:

- Training accepts any award, including a negative one. So experience can fall
  below 100 and then below 0. The "experience from 100 to 10000" range is
  therefore only kept on paths that add non-negative amounts: every battle,
  and training with a non-negative award.
- For negative experience, the level uses Java's division, which truncates
  toward zero. So -50 experience is level 0, not -1.

The accessors `level()`, `experience()`, `rank()` and `achievements()` are the
fields of the `Warrior` datatype.

## Model

| member | source | states |
|---|---|---|
| `Tables.Outcome.Index` | Warrior.java:44-51 | every outcome has a position inside the six-entry fight-status table |
| `Tables.MessageIsTableEntry` | Warrior.java:44-51 | each outcome's wording is exactly the fight-status table entry the code returns for it |
| `Tables.MessagesDistinct` | Warrior.java:44-51 | two outcomes have the same label exactly when they are the same outcome, so every response can be told apart by its wording |
| `Tables.RanksDistinct` | Warrior.java:55-67 | the eleven rank names are pairwise distinct, so a rank name determines its tier |
| `Warriors.LevelOf` | Warrior.java:141 | the level is the experience in whole hundreds: level * 100 <= experience < level * 100 + 100 for a non-negative total, and Java's rounding toward zero for a negative one |
| `Warriors.Tier` | Warrior.java:142 | the rank tier index is the level in whole tens, with the same rounding toward zero for a negative level |
| `Warriors.Normalise` | Warrior.java:137-143 | experience is capped at 100 * 100 = 10000 and kept otherwise; level and rank are derived from it coherently; the log is untouched; a start of at least 100 gives experience 100..10000 and level 1..100 |
| `Warriors.New` | Warrior.java:92-96 | a new warrior has experience 100, level 1, rank "Pushover" and an empty log |
| `Warriors.IntenseGain` | Warrior.java:200-201 | the award 20 * diff * diff against a stronger enemy is always positive (at least 20 per level of difference) |
| `Warriors.IntenseGainGrows` | Warrior.java:178-180 | the greater the difference between levels, the more experience an intense fight earns |
| `Warriors.Battle` | Warrior.java:191-222 | an enemy outside 1..100 is exactly the "Invalid level" case; invalid, defeated and easy fights change nothing; good and intense fights raise experience or reach the cap; the log never changes; coherence and the 100..10000 range are preserved; experience never decreases |
| `Warriors.Training` | Warrior.java:159-168 | below the required level the warrior is unchanged and the answer is "Not strong enough"; otherwise the description is appended at the end, experience becomes the capped sum, the stats are re-derived and the description is returned |
| `Rules.NormaliseFixesExactlyCoherent` | Warrior.java:137-143 | re-checking the stats is the identity exactly on warriors whose stats are already coherent |
| `Rules.NormaliseIdempotent` | Warrior.java:137-143 | re-checking twice is the same as re-checking once |
| `Rules.LevelTracksExperience` | Warrior.java:15-18 | each 100 experience is one level: level * 100 <= experience < level * 100 + 100; level 100 is reached exactly at the 10000 cap |
| `Rules.RankMatchesLevelTier` | Warrior.java:19-21 | a warrior holds the rank of tier k exactly when its level is in 10k..10k+9, so levels 1..9 are "Pushover" and only level 100 is "Greatest" |
| `Rules.StatsMonotone` | Warrior.java:15-21 | more experience never gives a lower level or a lower rank tier |
| `Rules.DefeatTestMatchesRule` | Warrior.java:196-198 | the code's test (enemy higher, different tier, at least 5 apart) is equivalent to the documented one (at least one rank lower and at least 5 levels lower) |
| `Rules.BattleFollowsRules` | Warrior.java:171-186 | a battle gives the documented response for the two levels. Its new state is the old experience plus the documented award, normalised. The awards are 20 * diff * diff against a stronger enemy, 10 for an equal one, 5 for one level lower, and 0 otherwise |
| `Rules.TrainingAppendsOnly` | Warrior.java:145-153 | earlier log entries are kept; the log grows by exactly one entry iff the level meets the requirement and stays the same length iff it does not; the new entry is the description, which is also the answer |
| `Rules.IntenseGapBound` | Warrior.java:196-204 | an intense fight is against an enemy at most 18 levels higher, and at most 9 for a warrior in the documented ranges, because a larger gap crosses a tier and is a defeat |
| `History.Step` | Warrior.java:159-222 | one call with a non-negative award keeps a warrior coherent and in range, and never lowers its experience |
| `History.Replay` | Warrior.java:25-32 | any sequence of calls with non-negative awards gives one answer per call, keeps experience within 100..10000 and level within 1..100, and never lowers experience |
| `History.StepLog` | Warrior.java:163 | one call appends its description to the log exactly when it is a training call that meets the level requirement, and otherwise leaves the log as it was |
| `History.ReplayKeepsLog` | Warrior.java:159-168 | over any such sequence earlier log entries stay in place and at most one entry is added per training call |
| `History.ReplayAddsOnlyTraining` | Warrior.java:159-168 | every entry any such sequence adds to the log is the description of one of its training calls |
| `History.ReplaySplitsState` | Warrior.java:159-222 | running a call history in two parts, the second from the state the first left, ends in the same warrior as running it at once: the warrior state is all a later call depends on |
| `History.ReplaySplitsAnswers` | Warrior.java:159-222 | running a call history in two parts gives the answers of the first part followed by those of the second, the same as running it at once |
| `Scenarios.InvalidLevelsChangeNothing` | Warrior.java:193-194 | battles against level 0 and level 101 answer "Invalid level" and change nothing |
| `Scenarios.FreshWarriorDefeatedByLevel100` | Warrior.java:196-198 | a fresh warrior against level 100 is defeated and unchanged |
| `Scenarios.SameTierFightIsIntense` | Warrior.java:199-204 | a fresh warrior against level 6 is not defeated (same tier) and reaches experience 600, level 6, "Pushover" |
| `Scenarios.EqualLevelFightIsGood` | Warrior.java:207-210 | a level-5 warrior against level 5 reaches experience 510 and stays level 5 |
| `Scenarios.CappedWarriorStaysCapped` | Warrior.java:138-140 | at the cap an equal fight keeps experience 10000, level 100 and rank "Greatest" |
| `Scenarios.SparringAccepted` | Warrior.java:162-167 | `training("Sparring", 50, 1)` on a fresh warrior answers "Sparring", logs it and reaches experience 150 |
| `Scenarios.EliteDrillRefused` | Warrior.java:160-161 | `training("Elite drill", 500, 10)` on a fresh warrior answers "Not strong enough", logs nothing and keeps experience 100 |
| `Scenarios.NegativeAwardTruncatesTowardZero` | Warrior.java:141 | a fresh warrior trained with -150 points has experience -50 and level 0, because the division truncates toward zero |

## Left out

- Java `int` overflow: the model uses unbounded integers. `this.experience += experience` in training (Warrior.java:164) can wrap around for awards near the `int` limits. The battle path stays far below them: an intense fight has a level gap of at most 18 (`Rules.IntenseGapBound`), so its award is at most 20 * 18 * 18 = 6480.
- Experience of -1000 or less: in that case `level / 10` is negative and the rank lookup at Warrior.java:142 throws. `Normalise`, and `Training` when the level requirement is met, require the new total to be above -1000 (`Normalisable`). `Battle` requires the same of the current experience. This holds for every warrior that `Normalise` produces.
- The static tables (Warrior.java:44-67) are mutable arrays and `achievements()` returns the live list (Warrior.java:130-132). Aliasing is not modelled: the tables are immutable sequences and the log is a `seq<string>` value.
- Accessors and `protected` visibility: the accessors are the datatype's fields and need no separate functions.
- History.Replay: states its invariants only for call sequences whose training awards are non-negative and that start from a coherent warrior in range. Negative awards can lower experience, as the code allows, and they are covered one call at a time by `Warriors.Training`.
- History.Step, History.StepLog, History.ReplayKeepsLog, History.ReplayAddsOnlyTraining, History.ReplaySplitsState, History.ReplaySplitsAnswers: carry the same restriction to non-negative training awards as `History.Replay`, for the same reason.
- Training answers with the description itself. A description that reads "Not strong enough" is therefore indistinguishable from a refusal, as in the source.
