/**
 * The practice screen for one section (components/PlayScreen.tsx): fetch a
 * problem, type digits, submit; a right answer earns tokens and shows the
 * celebration, a wrong one shows an explanation and offers a retry. Each
 * answer moves the section's difficulty and is persisted through the
 * session hook.
 *
 * The two network calls are parameters: a problem fetch either yields a
 * problem or fails, and an explanation request yields a response, a
 * non-ok status, or an exception.
 */
module Play {
  import opened Types
  import opened Decimal
  import opened Difficulty
  import opened Constants
  import opened Session
  import opened UseSession

  /** What the explanation request came back with. */
  datatype ExplainOutcome = Explained(response: ExplanationResponse) | NotOk | Threw

  function FallbackExplanation(): ExplanationResponse {
    ExplanationResponse(["Let's try again!"], "You can do it!")
  }

  /** The explanation shown after a wrong answer: the fetched one, or the fixed fallback on any failure. */
  function ExplanationFor(outcome: ExplainOutcome): (e: ExplanationResponse)
    ensures outcome.Explained? ==> e == outcome.response
    ensures !outcome.Explained? ==> e.steps == ["Let's try again!"] && e.encouragement == "You can do it!"
  {
    if outcome.Explained? then outcome.response else FallbackExplanation()
  }

  /** Tokens for a right answer: the retry amount after a try-again, the first-try amount otherwise. */
  function RewardFor(isRetry: bool): (r: int)
    ensures 0 < r
    ensures isRetry ==> r == 1 && r < Rewards().firstTry
    ensures !isRetry ==> r == 3 && r > Rewards().retry
  {
    if isRetry then Rewards().retry else Rewards().firstTry
  }

  /** A digit key: the buffer grows by that digit's character, and its value by one decimal place. */
  function PressDigit(buffer: string, d: nat): (r: string)
    requires d < 10
    ensures |r| == |buffer| + 1 && r[..|buffer|] == buffer && r[|buffer|] == DigitChar(d)
    ensures AllDigits(buffer) ==> AllDigits(r) && ParseDecimal(r) == ParseDecimal(buffer) * 10 + d
  {
    var r := buffer + [DigitChar(d)];
    assert r[..|buffer|] == buffer;
    if AllDigits(buffer) then ParseAppendDigit(buffer, d); r else r
  }

  /** The backspace key: `slice(0, -1)`, which leaves an empty buffer empty. */
  function DropLast(buffer: string): (r: string)
    ensures |buffer| > 0 ==> |r| == |buffer| - 1
    ensures |buffer| == 0 ==> r == []
    ensures r == buffer[..|r|]
    ensures AllDigits(buffer) ==> AllDigits(r)
  {
    if buffer == [] then [] else buffer[..|buffer| - 1]
  }

  /** Backspace undoes a digit key. */
  lemma BackspaceUndoesDigit(buffer: string, d: nat)
    requires d < 10
    ensures DropLast(PressDigit(buffer, d)) == buffer
  {
  }

  /** `parseInt(answer, 10) === problem.answer` on a non-empty digit buffer. */
  predicate IsRight(p: Problem, buffer: string)
    requires AllDigits(buffer) && buffer != []
  {
    ParseDecimal(buffer) == p.answer
  }

  /** Typing the answer's own numeral is judged right, for any answer the pad can type. */
  lemma NumeralIsRight(p: Problem)
    requires p.answer >= 0
    ensures AllDigits(NatToString(p.answer)) && NatToString(p.answer) != []
    ensures IsRight(p, NatToString(p.answer))
  {
    ParseNatToString(p.answer);
  }

  /** Leading zeros do not change the judgement: `parseInt("07", 10)` is 7. */
  lemma {:induction false} LeadingZeroIgnored(buffer: string)
    requires AllDigits(buffer)
    ensures AllDigits(['0'] + buffer) && ParseDecimal(['0'] + buffer) == ParseDecimal(buffer)
  {
    var z := ['0'] + buffer;
    if buffer != [] {
      var init := buffer[..|buffer| - 1];
      assert z[..|z| - 1] == ['0'] + init;
      assert z[|z| - 1] == buffer[|buffer| - 1];
      LeadingZeroIgnored(init);
    } else {
      assert z[..|z| - 1] == [];
    }
  }

  /** The pad has no minus key, so a problem with a negative answer can never be answered right. */
  lemma NegativeNeverRight(p: Problem, buffer: string)
    requires AllDigits(buffer) && buffer != [] && p.answer < 0
    ensures !IsRight(p, buffer)
  {
  }

  class PlayScreen {
    var playState: PlayState
    var problem: Option<Problem>
    var answer: string
    var streak: nat
    var isRetry: bool
    var explanation: Option<ExplanationResponse>
    var rewardTokens: int
    var nextLevel: Option<int>
    const section: MathSection
    const hook: SessionHook

    /**
     * The buffer holds only digits, the hook's record is what the store
     * holds, the section has a difficulty entry, and the celebration and
     * explanation phases have what they display.
     */
    ghost predicate Valid()
      reads this, hook, hook.store
    {
      && AllDigits(answer)
      && hook.Persisted()
      && section in hook.session.sections
      && (playState == Correct ==> problem.Some? && nextLevel.Some?)
      && (playState == Wrong ==> problem.Some? && explanation.Some?)
    }

    function SectionDifficulty(): DifficultyState
      reads this, hook
      requires section in hook.session.sections
    {
      hook.session.sections[section]
    }

    /** The first render: loading, nothing typed, no streak, no retry. */
    constructor(section: MathSection, hook: SessionHook)
      requires hook.Persisted() && section in hook.session.sections
      ensures this.section == section && this.hook == hook
      ensures playState == Loading && problem == None && answer == [] && streak == 0
      ensures !isRetry && explanation == None && rewardTokens == 0 && nextLevel == None
      ensures Valid()
    {
      this.section := section;
      this.hook := hook;
      playState := Loading;
      problem := None;
      answer := [];
      streak := 0;
      isRetry := false;
      explanation := None;
      rewardTokens := 0;
      nextLevel := None;
    }

    /**
     * fetchProblem: enter loading with an empty buffer and no explanation,
     * request a problem at the given level or else the section's current
     * one, then show it; a failed request stays in loading.
     */
    method FetchProblem(level: Option<int>, outcome: Option<Problem>) returns (requested: int)
      requires Valid()
      modifies this
      ensures requested == if level.Some? then level.value else old(SectionDifficulty().level)
      ensures answer == [] && explanation == None
      ensures outcome.Some? ==> problem == outcome && playState == Answering
      ensures outcome.None? ==> problem == old(problem) && playState == Loading
      ensures streak == old(streak) && isRetry == old(isRetry)
      ensures rewardTokens == old(rewardTokens) && nextLevel == old(nextLevel)
      ensures Valid()
    {
      playState := Loading;
      answer := [];
      explanation := None;
      requested := if level.Some? then level.value else SectionDifficulty().level;
      if outcome.Some? {
        problem := outcome;
        playState := Answering;
      }
    }

    method HandleDigit(d: nat)
      requires d < 10 && Valid()
      modifies this
      ensures answer == PressDigit(old(answer), d)
      ensures playState == old(playState) && problem == old(problem) && streak == old(streak)
      ensures isRetry == old(isRetry) && explanation == old(explanation)
      ensures rewardTokens == old(rewardTokens) && nextLevel == old(nextLevel)
      ensures Valid()
    {
      answer := PressDigit(answer, d);
    }

    method HandleBackspace()
      requires Valid()
      modifies this
      ensures answer == DropLast(old(answer))
      ensures playState == old(playState) && problem == old(problem) && streak == old(streak)
      ensures isRetry == old(isRetry) && explanation == old(explanation)
      ensures rewardTokens == old(rewardTokens) && nextLevel == old(nextLevel)
      ensures Valid()
    {
      answer := DropLast(answer);
    }

    /**
     * handleSubmit. With no problem or an empty buffer nothing happens.
     * A right answer credits the reward, extends the streak, promotes
     * the section's difficulty as a right answer does, remembers the new
     * level and celebrates. A wrong answer shows the explanation (or the
     * fallback), clears the streak, moves the difficulty as a wrong answer
     * does and shows the explanation phase. Every change of the record is
     * written to the store.
     */
    method HandleSubmit(explain: ExplainOutcome)
      requires Valid()
      modifies this, hook, hook.store
      ensures Valid()
      ensures problem == old(problem) && answer == old(answer) && isRetry == old(isRetry)
      ensures old(problem).None? || old(answer) == [] ==>
        && playState == old(playState) && streak == old(streak) && explanation == old(explanation)
        && rewardTokens == old(rewardTokens) && nextLevel == old(nextLevel)
        && hook.session == old(hook.session) && hook.store.items == old(hook.store.items)
      ensures old(problem).Some? && old(answer) != [] && IsRight(old(problem).value, old(answer)) ==>
        var promoted := UpdateDifficulty(old(SectionDifficulty()), true);
        && rewardTokens == RewardFor(old(isRetry))
        && hook.session == UpdateSection(AddTokens(old(hook.session), RewardFor(old(isRetry))), section, promoted)
        && streak == old(streak) + 1
        && nextLevel == Some(promoted.level)
        && explanation == old(explanation)
        && playState == Correct
      ensures old(problem).Some? && old(answer) != [] && !IsRight(old(problem).value, old(answer)) ==>
        && explanation == Some(ExplanationFor(explain))
        && hook.session == UpdateSection(old(hook.session), section, UpdateDifficulty(old(SectionDifficulty()), false))
        && streak == 0
        && rewardTokens == old(rewardTokens) && nextLevel == old(nextLevel)
        && playState == Wrong
      ensures old(problem).Some? && old(answer) != [] ==>
        hook.store.items == old(hook.store.items)[SessionKey := Serialize(hook.session)]
    {
      if problem.None? || answer == [] {
        return;
      }
      if IsRight(problem.value, answer) {
        SubmitRight();
      } else {
        SubmitWrong(explain);
      }
    }

    /** The right-answer half of handleSubmit. */
    method SubmitRight()
      requires Valid() && problem.Some?
      modifies this, hook, hook.store
      ensures Valid()
      ensures problem == old(problem) && answer == old(answer) && isRetry == old(isRetry)
      ensures var promoted := UpdateDifficulty(old(SectionDifficulty()), true);
        && rewardTokens == RewardFor(old(isRetry))
        && hook.session == UpdateSection(AddTokens(old(hook.session), RewardFor(old(isRetry))), section, promoted)
        && streak == old(streak) + 1
        && nextLevel == Some(promoted.level)
        && explanation == old(explanation)
        && playState == Correct
      ensures hook.store.items == old(hook.store.items)[SessionKey := Serialize(hook.session)]
    {
      Reward();
      Promote();
    }

    /** The tokens of a right answer: the first-try amount, or the retry amount after a try-again. */
    method Reward()
      requires Valid() && problem.Some?
      modifies this`rewardTokens, hook, hook.store
      ensures Valid()
      ensures rewardTokens == RewardFor(isRetry)
      ensures hook.session == AddTokens(old(hook.session), RewardFor(isRetry))
      ensures hook.store.items == old(hook.store.items)[SessionKey := Serialize(hook.session)]
    {
      var reward := RewardFor(isRetry);
      hook.AddTokensAndSave(reward);
      rewardTokens := reward;
    }

    /** The promotion of a right answer and the move to the celebration. */
    method Promote()
      requires Valid() && problem.Some?
      modifies this`streak, this`nextLevel, this`playState, hook, hook.store
      ensures Valid()
      ensures var promoted := UpdateDifficulty(old(SectionDifficulty()), true);
        && hook.session == UpdateSection(old(hook.session), section, promoted)
        && streak == old(streak) + 1
        && nextLevel == Some(promoted.level)
        && playState == Correct
      ensures hook.store.items == old(hook.store.items)[SessionKey := Serialize(hook.session)]
    {
      var newDifficulty := UpdateDifficulty(SectionDifficulty(), true);
      hook.UpdateSectionAndSave(section, newDifficulty);
      streak, nextLevel, playState := streak + 1, Some(newDifficulty.level), Correct;
    }

    /** The wrong-answer half of handleSubmit. */
    method SubmitWrong(explain: ExplainOutcome)
      requires Valid() && problem.Some?
      modifies this, hook, hook.store
      ensures Valid()
      ensures problem == old(problem) && answer == old(answer) && isRetry == old(isRetry)
      ensures && explanation == Some(ExplanationFor(explain))
        && hook.session == UpdateSection(old(hook.session), section, UpdateDifficulty(old(SectionDifficulty()), false))
        && streak == 0
        && rewardTokens == old(rewardTokens) && nextLevel == old(nextLevel)
        && playState == Wrong
      ensures hook.store.items == old(hook.store.items)[SessionKey := Serialize(hook.session)]
    {
      var difficulty := SectionDifficulty();
      var newDifficulty := UpdateDifficulty(difficulty, false);
      hook.UpdateSectionAndSave(section, newDifficulty);
      explanation, streak, playState := Some(ExplanationFor(explain)), 0, Wrong;
    }

    /** handleTryAgain: same problem, empty buffer, no explanation, retry flag set, answering again. */
    method HandleTryAgain()
      requires Valid()
      modifies this
      ensures answer == [] && explanation == None && isRetry && playState == Answering
      ensures problem == old(problem) && streak == old(streak)
      ensures rewardTokens == old(rewardTokens) && nextLevel == old(nextLevel)
      ensures Valid()
    {
      answer := [];
      explanation := None;
      isRetry := true;
      playState := Answering;
    }

    /**
     * handleCelebrationDismiss: the next problem is a first try again,
     * requested at the level the last right answer produced (or the
     * section's current level), and the remembered level is cleared.
     */
    method HandleCelebrationDismiss(outcome: Option<Problem>) returns (requested: int)
      requires Valid()
      modifies this
      ensures !isRetry && nextLevel == None
      ensures requested == if old(nextLevel).Some? then old(nextLevel).value else old(SectionDifficulty().level)
      ensures answer == [] && explanation == None
      ensures outcome.Some? ==> problem == outcome && playState == Answering
      ensures outcome.None? ==> problem == old(problem) && playState == Loading
      ensures streak == old(streak) && rewardTokens == old(rewardTokens)
      ensures Valid()
    {
      isRetry := false;
      requested := FetchProblem(nextLevel, outcome);
      nextLevel := None;
    }
  }
}
