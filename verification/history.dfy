/** Sequences of calls on one warrior, as a caller's game loop issues them,
    and the invariants that survive any such sequence. */
module History {
  import opened Tables
  import opened Warriors

  /** One call on the warrior's public interface. */
  datatype Call =
    | Fight(enemy: int)
    | Train(description: string, award: int, requiredLevel: int)

  /** No training call in the sequence awards a negative amount. The code
      accepts negative awards; the invariants over whole histories below are
      stated only for sequences without them, since a negative award can
      lower experience below 100. */
  predicate AwardsNonNegative(calls: seq<Call>)
  {
    forall i :: 0 <= i < |calls| ==> calls[i].Train? ==> calls[i].award >= 0
  }

  /** Number of training calls in the sequence. */
  function TrainingCount(calls: seq<Call>): (n: nat)
    ensures n <= |calls|
  {
    if calls == [] then 0
    else (if calls[0].Train? then 1 else 0) + TrainingCount(calls[1..])
  }

  /** Whether `d` is the description of some training call in `calls`. */
  predicate TrainedOn(d: string, calls: seq<Call>)
  {
    exists j :: 0 <= j < |calls| && calls[j].Train? && calls[j].description == d
  }

  /** Whether every entry of `log` is the description of some training call
      in `calls`. */
  predicate FromTraining(log: seq<string>, calls: seq<Call>)
  {
    forall i :: 0 <= i < |log| ==> TrainedOn(log[i], calls)
  }

  /** One call and the text it answers with. */
  function Step(w: Warrior, c: Call): (res: (Warrior, string))
    requires Coherent(w) && InRange(w)
    requires c.Train? ==> c.award >= 0
    ensures Coherent(res.0) && InRange(res.0)
    ensures w.experience <= res.0.experience
  {
    match c
    case Fight(enemy) =>
      var (v, outcome) := Battle(w, enemy);
      (v, outcome.Message())
    case Train(description, award, requiredLevel) =>
      Training(w, description, award, requiredLevel)
  }

  /** Runs the calls in order from `w`, collecting one answer per call. Any
      such run keeps experience within 100 .. 10000 and level within
      1 .. 100 and never loses experience. */
  function Replay(w: Warrior, calls: seq<Call>): (res: (Warrior, seq<string>))
    requires Coherent(w) && InRange(w)
    requires AwardsNonNegative(calls)
    ensures |res.1| == |calls|
    ensures Coherent(res.0) && InRange(res.0)
    ensures w.experience <= res.0.experience
    decreases |calls|
  {
    if calls == [] then
      (w, [])
    else
      assert calls[0].Train? ==> calls[0].award >= 0;
      var (v, answer) := Step(w, calls[0]);
      var (u, answers) := Replay(v, calls[1..]);
      (u, [answer] + answers)
  }

  /** What one call does to the log: an accepted training call appends its
      description, every other call leaves the log as it was. */
  lemma StepLog(w: Warrior, c: Call)
    requires Coherent(w) && InRange(w)
    requires c.Train? ==> c.award >= 0
    ensures Step(w, c).0.achievements ==
      if c.Train? && c.requiredLevel <= w.level then w.achievements + [c.description] else w.achievements
  {
  }

  /** A non-empty run is its first call followed by the run of the rest. */
  lemma ReplayFirstCall(w: Warrior, calls: seq<Call>)
    requires Coherent(w) && InRange(w)
    requires AwardsNonNegative(calls) && calls != []
    ensures calls[0].Train? ==> calls[0].award >= 0
    ensures AwardsNonNegative(calls[1..])
    ensures Replay(w, calls).0 == Replay(Step(w, calls[0]).0, calls[1..]).0
  {
    assert calls[0].Train? ==> calls[0].award >= 0;
  }

  /** Any run keeps the log it started with as a prefix and adds at most one
      entry per training call. */
  lemma {:induction false} ReplayKeepsLog(w: Warrior, calls: seq<Call>)
    requires Coherent(w) && InRange(w)
    requires AwardsNonNegative(calls)
    ensures var log := Replay(w, calls).0.achievements;
      && |w.achievements| <= |log| <= |w.achievements| + TrainingCount(calls)
      && log[..|w.achievements|] == w.achievements
    decreases |calls|
  {
    if calls != [] {
      ReplayFirstCall(w, calls);
      var v := Step(w, calls[0]).0;
      StepLog(w, calls[0]);
      ReplayKeepsLog(v, calls[1..]);
      var log := Replay(v, calls[1..]).0.achievements;
      assert log[..|w.achievements|] == log[..|v.achievements|][..|w.achievements|];
    }
  }

  /** If a first call left the log as it was or appended its own training
      description, and the rest of the calls only added training
      descriptions after that, then everything added since the start comes
      from training calls. */
  lemma TrainedTail(before: seq<string>, after: seq<string>, log: seq<string>, calls: seq<Call>)
    requires calls != []
    requires after == before || (calls[0].Train? && after == before + [calls[0].description])
    requires |after| <= |log| && log[..|after|] == after
    requires FromTraining(log[|after|..], calls[1..])
    ensures FromTraining(log[|before|..], calls)
  {
    var tail := log[|before|..];
    var rest := log[|after|..];
    var added := |after| - |before|;
    forall i | 0 <= i < |tail|
      ensures TrainedOn(tail[i], calls)
    {
      if i < added {
        assert tail[i] == after[|before|] == calls[0].description;
      } else {
        assert tail[i] == rest[i - added];
        var j :| 0 <= j < |calls[1..]| && calls[1..][j].Train? && calls[1..][j].description == tail[i];
        assert calls[j + 1].Train? && calls[j + 1].description == tail[i];
      }
    }
  }

  /** Every entry a run adds to the log is the description of one of its
      training calls. */
  lemma {:induction false} ReplayAddsOnlyTraining(w: Warrior, calls: seq<Call>)
    requires Coherent(w) && InRange(w)
    requires AwardsNonNegative(calls)
    ensures |w.achievements| <= |Replay(w, calls).0.achievements|
    ensures FromTraining(Replay(w, calls).0.achievements[|w.achievements|..], calls)
    decreases |calls|
  {
    ReplayKeepsLog(w, calls);
    if calls != [] {
      ReplayFirstCall(w, calls);
      var v := Step(w, calls[0]).0;
      StepLog(w, calls[0]);
      ReplayKeepsLog(v, calls[1..]);
      ReplayAddsOnlyTraining(v, calls[1..]);
      TrainedTail(w.achievements, v.achievements, Replay(v, calls[1..]).0.achievements, calls);
    }
  }

  /** Running a history in two parts, the second from where the first left
      off, ends in the same warrior as running it at once. */
  lemma {:induction false} ReplaySplitsState(w: Warrior, first: seq<Call>, second: seq<Call>)
    requires Coherent(w) && InRange(w)
    requires AwardsNonNegative(first) && AwardsNonNegative(second)
    ensures Replay(w, first + second).0 == Replay(Replay(w, first).0, second).0
    decreases |first|
  {
    if first == [] {
      assert first + second == second;
    } else {
      var all := first + second;
      assert all[0] == first[0];
      assert all[1..] == first[1..] + second;
      ReplaySplitsState(Step(w, first[0]).0, first[1..], second);
    }
  }

  /** Running a history in two parts, the second from where the first left
      off, gives the same answers as running it at once: those of the first
      part followed by those of the second. */
  lemma {:induction false} ReplaySplitsAnswers(w: Warrior, first: seq<Call>, second: seq<Call>)
    requires Coherent(w) && InRange(w)
    requires AwardsNonNegative(first) && AwardsNonNegative(second)
    ensures Replay(w, first + second).1 == Replay(w, first).1 + Replay(Replay(w, first).0, second).1
    decreases |first|
  {
    if first == [] {
      assert first + second == second;
    } else {
      var all := first + second;
      assert all[0] == first[0];
      assert all[1..] == first[1..] + second;
      var (v, answer) := Step(w, first[0]);
      ReplaySplitsAnswers(v, first[1..], second);
      var (x, early) := Replay(v, first[1..]);
      var late := Replay(x, second).1;
      assert [answer] + (early + late) == ([answer] + early) + late;
    }
  }
}
