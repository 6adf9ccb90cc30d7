/**
 * Difficulty progression (lib/difficulty.ts): one answer moves a section's
 * difficulty state. Five right answers in a row promote, three wrong answers
 * in a row demote, within the levels 1..5. At the ceiling (or floor) the
 * streak counter keeps counting without bound.
 */
module Difficulty {
  import opened Types

  const PromoteThreshold: nat := 5
  const DemoteThreshold: nat := 3
  const MaxLevel: int := 5
  const MinLevel: int := 1

  predicate ValidLevel(level: int) {
    MinLevel <= level <= MaxLevel
  }

  /** The next difficulty state after one answer. */
  function UpdateDifficulty(state: DifficultyState, isCorrect: bool): (r: DifficultyState)
    // a right answer clears the wrong streak, a wrong answer the right streak
    ensures isCorrect ==> r.consecutiveWrong == 0
    ensures !isCorrect ==> r.consecutiveCorrect == 0
    ensures r.consecutiveCorrect == 0 || r.consecutiveWrong == 0
    // promotion: exactly when the fifth right answer lands below the ceiling
    ensures isCorrect ==>
      (r.level == state.level + 1 <==> state.consecutiveCorrect + 1 >= PromoteThreshold && state.level < MaxLevel)
    ensures isCorrect && r.level == state.level + 1 ==> r.consecutiveCorrect == 0
    ensures isCorrect && r.level != state.level + 1 ==>
      r.level == state.level && r.consecutiveCorrect == state.consecutiveCorrect + 1
    // demotion: exactly when the third wrong answer lands above the floor
    ensures !isCorrect ==>
      (r.level == state.level - 1 <==> state.consecutiveWrong + 1 >= DemoteThreshold && state.level > MinLevel)
    ensures !isCorrect && r.level == state.level - 1 ==> r.consecutiveWrong == 0
    ensures !isCorrect && r.level != state.level - 1 ==>
      r.level == state.level && r.consecutiveWrong == state.consecutiveWrong + 1
    // the level moves by at most one and stays within bounds
    ensures state.level - 1 <= r.level <= state.level + 1
    ensures ValidLevel(state.level) ==> ValidLevel(r.level)
  {
    if isCorrect then
      var newCorrect := state.consecutiveCorrect + 1;
      var shouldPromote := newCorrect >= PromoteThreshold && state.level < MaxLevel;
      DifficultyState(
        if shouldPromote then state.level + 1 else state.level,
        if shouldPromote then 0 else newCorrect,
        0)
    else
      var newWrong := state.consecutiveWrong + 1;
      var shouldDemote := newWrong >= DemoteThreshold && state.level > MinLevel;
      DifficultyState(
        if shouldDemote then state.level - 1 else state.level,
        0,
        if shouldDemote then 0 else newWrong)
  }

  /** The state after `n` answers that are all right (or all wrong). */
  function AnswerRun(state: DifficultyState, isCorrect: bool, n: nat): DifficultyState
  {
    if n == 0 then state else UpdateDifficulty(AnswerRun(state, isCorrect, n - 1), isCorrect)
  }

  /** The state after a sequence of answers, oldest first. */
  function Replay(state: DifficultyState, answers: seq<bool>): DifficultyState
  {
    if answers == [] then state else UpdateDifficulty(Replay(state, answers[..|answers| - 1]), answers[|answers| - 1])
  }

  /** Below the threshold, each right answer only lengthens the streak. */
  lemma {:induction false} CorrectRunBelowThreshold(state: DifficultyState, n: nat)
    requires 1 <= n && state.consecutiveCorrect + n < PromoteThreshold
    ensures AnswerRun(state, true, n) == DifficultyState(state.level, state.consecutiveCorrect + n, 0)
  {
    if n > 1 {
      CorrectRunBelowThreshold(state, n - 1);
    }
  }

  /** Below the threshold, each wrong answer only lengthens the streak. */
  lemma {:induction false} WrongRunBelowThreshold(state: DifficultyState, n: nat)
    requires 1 <= n && state.consecutiveWrong + n < DemoteThreshold
    ensures AnswerRun(state, false, n) == DifficultyState(state.level, 0, state.consecutiveWrong + n)
  {
    if n > 1 {
      WrongRunBelowThreshold(state, n - 1);
    }
  }

  /**
   * Below the ceiling, the right answers that complete a streak of five
   * promote by one level and leave both counters at zero. From a fresh
   * streak that is five right answers.
   */
  lemma {:induction false} StreakOfFivePromotes(state: DifficultyState)
    requires MinLevel <= state.level < MaxLevel && state.consecutiveCorrect < PromoteThreshold
    ensures AnswerRun(state, true, PromoteThreshold - state.consecutiveCorrect)
            == DifficultyState(state.level + 1, 0, 0)
  {
    var n := PromoteThreshold - state.consecutiveCorrect;
    if n > 1 {
      CorrectRunBelowThreshold(state, n - 1);
    }
  }

  lemma FiveRightAnswersPromote(state: DifficultyState)
    requires MinLevel <= state.level < MaxLevel && state.consecutiveCorrect == 0
    ensures AnswerRun(state, true, 5) == DifficultyState(state.level + 1, 0, 0)
  {
    StreakOfFivePromotes(state);
  }

  /** Above the floor, the wrong answers that complete a streak of three demote by one level. */
  lemma {:induction false} StreakOfThreeDemotes(state: DifficultyState)
    requires MinLevel < state.level <= MaxLevel && state.consecutiveWrong < DemoteThreshold
    ensures AnswerRun(state, false, DemoteThreshold - state.consecutiveWrong)
            == DifficultyState(state.level - 1, 0, 0)
  {
    var n := DemoteThreshold - state.consecutiveWrong;
    if n > 1 {
      WrongRunBelowThreshold(state, n - 1);
    }
  }

  /** At the ceiling, right answers never promote; the streak grows without a cap. */
  lemma {:induction false} CeilingStreakUnbounded(state: DifficultyState, n: nat)
    requires state.level == MaxLevel && n >= 1
    ensures AnswerRun(state, true, n) == DifficultyState(MaxLevel, state.consecutiveCorrect + n, 0)
  {
    if n > 1 {
      CeilingStreakUnbounded(state, n - 1);
    }
  }

  /** At the floor, wrong answers never demote; the streak grows without a cap. */
  lemma {:induction false} FloorStreakUnbounded(state: DifficultyState, n: nat)
    requires state.level == MinLevel && n >= 1
    ensures AnswerRun(state, false, n) == DifficultyState(MinLevel, 0, state.consecutiveWrong + n)
  {
    if n > 1 {
      FloorStreakUnbounded(state, n - 1);
    }
  }

  /** Any sequence of answers keeps a valid level valid, and moves it by at most one per answer. */
  lemma {:induction false} ReplayKeepsLevel(state: DifficultyState, answers: seq<bool>)
    requires ValidLevel(state.level)
    ensures ValidLevel(Replay(state, answers).level)
    ensures state.level - |answers| <= Replay(state, answers).level <= state.level + |answers|
  {
    if answers != [] {
      ReplayKeepsLevel(state, answers[..|answers| - 1]);
    }
  }
}
