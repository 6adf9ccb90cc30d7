/**
 * The timed multiplication game (components/fast-multiplication/FastMultiplyScreen.tsx).
 * A round is picked on the mode screen (one table, mixed tables, or the
 * "boss" round over past misses), counts down, and runs until the timer
 * expires; each answer updates the score, streaks, misses and fact
 * weights. The round's end credits tokens, raises best scores and appends
 * the misses to the stored history; if there were misses, a drill over
 * them follows.
 *
 * Timers are events: the end of a countdown, the end of a one-second
 * wrong-answer flash, and the expiry of the round or drill timer.
 * `Math.random()` is a parameter `u` in [0, 1) and `Date.now()` a
 * parameter `now`.
 */
module FastMultiply {
  import opened Types
  import opened MultiplicationEngine
  import opened Session
  import opened UseSession

  const HistoryCap: nat := 50

  /** Tokens for a round: `Math.floor(score / 3)`. */
  function RoundTokens(score: nat): (t: nat)
    ensures 3 * t <= score < 3 * t + 3
  {
    score / 3
  }

  /** `single[table] || 0`: a table never played counts as best 0. */
  function TableBest(single: map<int, int>, t: int): int {
    if t in single then single[t] else 0
  }

  function MaxInt(x: int, y: int): int { if x >= y then x else y }

  /**
   * The best scores after a round: the played slot (the table in single
   * mode, the mixed or boss score otherwise) becomes the larger of its
   * old value and the round's score, and every other slot is kept. A
   * single round without a table records nothing.
   */
  function SettleBest(best: BestScores, mode: MultiplicationGameMode, table: Option<int>, score: int): (r: BestScores)
    ensures mode == Single && table.Some? ==>
      && TableBest(r.single, table.value) == MaxInt(TableBest(best.single, table.value), score)
      && (forall t :: t != table.value ==> TableBest(r.single, t) == TableBest(best.single, t))
      && r.mixed == best.mixed && r.boss == best.boss
    ensures mode == Single && table.None? ==> r == best
    ensures mode == Mixed ==> r.mixed == MaxInt(best.mixed, score) && r.single == best.single && r.boss == best.boss
    ensures mode == Boss ==> r.boss == MaxInt(best.boss, score) && r.single == best.single && r.mixed == best.mixed
  {
    match mode
    case Single =>
      if table.Some? && score > TableBest(best.single, table.value) then
        best.(single := best.single[table.value := score])
      else best
    case Mixed => if score > best.mixed then best.(mixed := score) else best
    case Boss => if score > best.boss then best.(boss := score) else best
  }

  /** No best score ever goes down, and an unbeaten round changes nothing. */
  lemma BestNeverDecreases(best: BestScores, mode: MultiplicationGameMode, table: Option<int>, score: int)
    ensures var r := SettleBest(best, mode, table, score);
      && (forall t :: t in best.single ==> t in r.single && r.single[t] >= best.single[t])
      && r.mixed >= best.mixed && r.boss >= best.boss
    ensures mode == Mixed && score <= best.mixed ==> SettleBest(best, mode, table, score) == best
    ensures mode == Boss && score <= best.boss ==> SettleBest(best, mode, table, score) == best
    ensures mode == Single && table.Some? && score <= TableBest(best.single, table.value) ==>
      SettleBest(best, mode, table, score) == best
  {
    var r := SettleBest(best, mode, table, score);
    forall t | t in best.single
      ensures t in r.single && r.single[t] >= best.single[t]
    {
      if mode == Single && table.Some? && t == table.value {
        assert TableBest(r.single, t) >= TableBest(best.single, t);
      }
    }
  }

  /**
   * isNewBest: the score beats the best recorded for the played slot; a
   * single round without a table never does.
   */
  predicate IsNewBest(best: BestScores, mode: MultiplicationGameMode, table: Option<int>, score: int) {
    match mode
    case Single => table.Some? && score > TableBest(best.single, table.value)
    case Mixed => score > best.mixed
    case Boss => score > best.boss
  }

  /** Judged against the best scores from before the round, a new best is exactly a round that changes them. */
  lemma NewBestIffRecord(best: BestScores, mode: MultiplicationGameMode, table: Option<int>, score: int)
    ensures IsNewBest(best, mode, table, score) <==> SettleBest(best, mode, table, score) != best
  {
    if mode == Single && table.Some? && IsNewBest(best, mode, table, score) {
      var r := SettleBest(best, mode, table, score);
      assert TableBest(r.single, table.value) != TableBest(best.single, table.value);
    }
  }

  /**
   * As written, the summary judges the score against the record after the
   * round was settled into it, and no score beats itself: the banner never
   * shows.
   */
  lemma NewBestAfterSettleAsWritten(s: SessionData, mode: MultiplicationGameMode, table: Option<int>,
                                    score: nat, misses: seq<MultiplicationQuestion>, now: int)
    requires s.multiplicationData.Some?
    ensures var settled := SettleSession(s, mode, table, score, misses, now).multiplicationData.value;
      !IsNewBest(settled.bestScores, mode, table, score)
  {
  }

  /** One history record per round miss, in order, with wrong answer 0 and the round's end time. */
  function MissRecords(misses: seq<MultiplicationQuestion>, now: int): (r: seq<MissRecord>)
    ensures |r| == |misses|
    ensures forall i :: 0 <= i < |r| ==> r[i] == MissRecord(misses[i].a, misses[i].b, 0, now)
  {
    seq(|misses|, i requires 0 <= i < |misses| => MissRecord(misses[i].a, misses[i].b, 0, now))
  }

  /**
   * The miss history after a round: the old history followed by the
   * round's misses, cut to its last 50 records. The round's own misses are all kept
   * when there are at most 50 of them.
   */
  function SettleHistory(history: seq<MissRecord>, misses: seq<MultiplicationQuestion>, now: int): (r: seq<MissRecord>)
    ensures |r| == if |history| + |misses| <= HistoryCap then |history| + |misses| else HistoryCap
    ensures var all := history + MissRecords(misses, now); r == all[|all| - |r|..]
    ensures |misses| <= HistoryCap ==> r[|r| - |misses|..] == MissRecords(misses, now)
    ensures |history| + |misses| <= HistoryCap ==> r[..|history|] == history
  {
    var all := history + MissRecords(misses, now);
    var r := if |all| <= HistoryCap then all else all[|all| - HistoryCap..];
    assert |misses| <= HistoryCap ==> r[|r| - |misses|..] == all[|history|..];
    assert all[|history|..] == MissRecords(misses, now);
    r
  }

  /** The stored multiplication data after a round. */
  function Settle(md: MultiplicationSessionData, mode: MultiplicationGameMode, table: Option<int>,
                  score: nat, misses: seq<MultiplicationQuestion>, now: int): (r: MultiplicationSessionData)
    ensures |r.missHistory| == if |md.missHistory| + |misses| <= HistoryCap then |md.missHistory| + |misses| else HistoryCap
    ensures !IsNewBest(r.bestScores, mode, table, score)
  {
    MultiplicationSessionData(SettleBest(md.bestScores, mode, table, score), SettleHistory(md.missHistory, misses, now))
  }

  /**
   * The learner record after a round: the round's tokens are credited
   * (a zero credit is skipped, which changes nothing) and the multiplication
   * data is settled; nothing else changes.
   */
  function SettleSession(s: SessionData, mode: MultiplicationGameMode, table: Option<int>,
                         score: nat, misses: seq<MultiplicationQuestion>, now: int): (r: SessionData)
    requires s.multiplicationData.Some?
    ensures r.tokens == s.tokens + score / 3
    ensures r.multiplicationData == Some(Settle(s.multiplicationData.value, mode, table, score, misses, now))
    ensures r.(tokens := s.tokens, multiplicationData := s.multiplicationData) == s
  {
    var t := RoundTokens(score);
    var credited := if t > 0 then AddTokens(s, t) else s;
    UpdateMultiplicationData(credited, Settle(s.multiplicationData.value, mode, table, score, misses, now))
  }

  /** Reweighting a pool keeps every fact's question. */
  lemma AdjustKeepsQuestions(pool: seq<WeightedFact>, a: int, b: int, isCorrect: bool, i: nat)
    requires i < |pool|
    ensures i < |AdjustWeights(pool, a, b, isCorrect)|
    ensures QuestionOf(AdjustWeights(pool, a, b, isCorrect)[i]) == QuestionOf(pool[i])
  {
  }

  /** Every pool the mode screen can ask for has a fact to pick: boss needs a non-empty history. */
  lemma PoolNonEmpty(mode: MultiplicationGameMode, table: Option<int>, history: seq<MissRecord>)
    requires mode == Boss ==> |history| > 0
    ensures |FactPool(mode, table, history)| > 0
  {
    match mode
    case Single => if table.Some? { SinglePoolFacts(table.value, history); } else { MixedPoolFacts(mode, table, history); }
    case Mixed => MixedPoolFacts(mode, table, history);
    case Boss =>
      BossPoolFacts(history);
      assert FactPool(mode, table, history) == FactPool(Boss, None, history);
  }

  /** A round with misses gets a drill with at least one question. */
  lemma DrillNonEmpty(misses: seq<MultiplicationQuestion>)
    requires |misses| > 0
    ensures |MultiplicationEngine.MissDrill(misses, DrillMax)| > 0
  {
    MissDrillShape(misses, DrillMax);
  }

  /** The question poses the fact: same factors, same answer. */
  predicate AsksFact(q: MultiplicationQuestion, f: WeightedFact) {
    q.a == f.a && q.b == f.b && q.answer == f.answer
  }

  /** A pool built on the mode screen is non-empty and well formed. */
  lemma FreshPool(mode: MultiplicationGameMode, table: Option<int>, history: seq<MissRecord>)
    requires mode == Boss ==> |history| > 0
    ensures |FactPool(mode, table, history)| > 0 && ValidPool(FactPool(mode, table, history))
  {
    PoolNonEmpty(mode, table, history);
    PoolWeights(mode, table, history);
  }

  /**
   * startCountdown's reset: a fresh round over the mode's pool, asking the
   * fact the weighted pick lands on.
   */
  method StartRound(mode: MultiplicationGameMode, table: Option<int>, history: seq<MissRecord>, u: real)
    returns (r: Round)
    requires mode == Boss ==> |history| > 0
    requires 0.0 <= u < 1.0
    ensures r.pool == FactPool(mode, table, history)
    ensures |r.pool| > 0 && ValidPool(r.pool)
    ensures r == FreshRound(mode, table, r.pool, QuestionOf(r.pool[Picked(r.pool, u)]))
    ensures AsksFact(r.question, r.pool[Picked(r.pool, u)]) && Tallied(r)
  {
    var pool := GetFactPool(mode, table, history);
    FreshPool(mode, table, history);
    var question := PickQuestion(pool, u);
    r := FreshRound(mode, table, pool, question);
  }

  /**
   * The round's state hooks: the chosen mode and table, the pool, the
   * current question, the counters, the misses and the wrong-answer flash.
   */
  datatype Round = Round(
    mode: MultiplicationGameMode,
    selectedTable: Option<int>,
    pool: seq<WeightedFact>,
    question: MultiplicationQuestion,
    score: nat,
    streak: nat,
    bestStreak: nat,
    correctCount: nat,
    totalAnswered: nat,
    roundMisses: seq<MultiplicationQuestion>,
    wrongFlash: Option<MultiplicationQuestion>)

  /** The drill's state hooks: its questions, the current index, the corrected count and the flash. */
  datatype Drill = Drill(
    questions: seq<MultiplicationQuestion>,
    index: nat,
    corrected: nat,
    wrongFlash: Option<MultiplicationQuestion>)

  /**
   * The score is the number of right answers, the misses are the wrong
   * ones, and the best streak bounds the streak and is bounded by the
   * right answers.
   */
  predicate Tallied(r: Round) {
    && r.score == r.correctCount <= r.totalAnswered
    && |r.roundMisses| == r.totalAnswered - r.correctCount
    && r.streak <= r.bestStreak <= r.correctCount
  }

  /** A new round: nothing answered, no flash, the given pool and first question. */
  function FreshRound(mode: MultiplicationGameMode, table: Option<int>,
                      pool: seq<WeightedFact>, question: MultiplicationQuestion): (r: Round)
    ensures Tallied(r) && r.score == 0 && r.roundMisses == [] && r.wrongFlash == None
  {
    Round(mode, table, pool, question, 0, 0, 0, 0, 0, [], None)
  }

  /** The round state of the first render: mixed mode, an empty pool, nothing answered. */
  function Idle(): (r: Round)
    ensures r.mode == Mixed && r.selectedTable == None && r.pool == [] && r.wrongFlash == None
    ensures r.score == 0 && r.streak == 0 && r.bestStreak == 0 && r.roundMisses == []
    ensures r.correctCount == 0 && r.totalAnswered == 0
  {
    Round(Mixed, None, [], MultiplicationQuestion(0, 0, 0, ""), 0, 0, 0, 0, 0, [], None)
  }

  /** The idle round has an empty, hence well-formed, pool. */
  lemma IdlePoolEmpty()
    ensures ValidPool(Idle().pool) && |Idle().pool| == 0
  {
  }

  /** A right answer: one more answered, scored and in the streak; the best streak follows. */
  function Scored(r: Round): (r': Round)
    ensures Tallied(r) ==> Tallied(r')
    ensures r'.score == r.score + 1 && r'.correctCount == r.correctCount + 1
    ensures r'.totalAnswered == r.totalAnswered + 1 && r'.streak == r.streak + 1
    ensures r'.bestStreak >= r'.streak && r'.bestStreak >= r.bestStreak
    ensures r'.roundMisses == r.roundMisses
  {
    r.(score := r.score + 1, correctCount := r.correctCount + 1, totalAnswered := r.totalAnswered + 1,
       streak := r.streak + 1, bestStreak := MaxInt(r.bestStreak, r.streak + 1))
  }

  /** A wrong answer: one more answered, the streak broken, the question recorded as a miss. */
  function Missed(r: Round, q: MultiplicationQuestion): (r': Round)
    ensures Tallied(r) ==> Tallied(r')
    ensures r'.score == r.score && r'.correctCount == r.correctCount && r'.bestStreak == r.bestStreak
    ensures r'.totalAnswered == r.totalAnswered + 1 && r'.streak == 0
    ensures r'.roundMisses == r.roundMisses + [q]
  {
    r.(totalAnswered := r.totalAnswered + 1, streak := 0, roundMisses := r.roundMisses + [q])
  }

  class FastMultiplyScreen {
    var phase: FastMultiplyPhase
    /** Where the running countdown leads: the round or the drill. */
    var countdownTarget: FastMultiplyPhase
    var round: Round
    /** The pool position the current question was picked from. */
    ghost var asked: nat
    /** Wrong-answer flash timeouts scheduled and not yet fired; one outlives the round it was set in. */
    var pendingFlashes: nat
    var drill: Drill
    var pendingDrillFlashes: nat
    const hook: SessionHook

    /**
     * The record has multiplication data; the pool is well formed, and
     * once a round has started it is non-empty and the current question is
     * one of its facts; the round's counters are tallied; a drill in
     * progress has corrected exactly the questions before its index.
     */
    ghost predicate Valid()
      reads this, hook
    {
      && hook.session.multiplicationData.Some?
      && ValidPool(round.pool)
      && (pendingFlashes > 0 || phase != ModeSelect ==> |round.pool| > 0)
      && (|round.pool| > 0 ==> asked < |round.pool| && AsksFact(round.question, round.pool[asked]))
      && Tallied(round)
      && (phase == Countdown ==> countdownTarget == Playing || countdownTarget == MissDrill)
      && drill.index <= |drill.questions| && drill.corrected <= |drill.questions|
      && (InDrill() ==> drill.corrected == drill.index < |drill.questions|)
    }

    /** The drill is running or counting down. */
    predicate InDrill()
      reads this
    {
      phase == MissDrill || (phase == Countdown && countdownTarget == MissDrill)
    }

    function MultData(): MultiplicationSessionData
      reads this, hook
      requires hook.session.multiplicationData.Some?
    {
      hook.session.multiplicationData.value
    }

    /**
     * The summary's `isNewBest`, computed on render from the record's
     * current best scores and the round just played.
     */
    predicate SummaryNewBest(): (b: bool)
      reads this, hook
      requires hook.session.multiplicationData.Some?
      ensures b <==> SettleBest(MultData().bestScores, round.mode, round.selectedTable, round.score) != MultData().bestScores
    {
      NewBestIffRecord(MultData().bestScores, round.mode, round.selectedTable, round.score);
      IsNewBest(MultData().bestScores, round.mode, round.selectedTable, round.score)
    }

    /** The first render: the mode screen, mixed mode, nothing played. */
    constructor(hook: SessionHook)
      requires hook.session.multiplicationData.Some?
      ensures this.hook == hook && phase == ModeSelect
      ensures round.mode == Mixed && round.selectedTable == None && round.pool == []
      ensures round.score == 0 && round.streak == 0 && round.bestStreak == 0 && round.roundMisses == []
      ensures drill == Drill([], 0, 0, None) && pendingFlashes == 0 && pendingDrillFlashes == 0
      ensures Valid()
    {
      this.hook := hook;
      phase := ModeSelect;
      countdownTarget := Playing;
      round := Idle();
      asked := 0;
      pendingFlashes := 0;
      drill := Drill([], 0, 0, None);
      pendingDrillFlashes := 0;
      new;
      IdlePoolEmpty();
    }

    /**
     * handleSelectMode and startCountdown: remember the mode and table,
     * reset the round's counters, build the pool for the mode from the
     * stored miss history, pick the first question and count down to the
     * round. The boss button is disabled while the history is empty.
     */
    method SelectMode(selectedMode: MultiplicationGameMode, table: Option<int>, u: real)
      requires Valid() && phase == ModeSelect
      requires selectedMode == Boss ==> |MultData().missHistory| > 0
      requires 0.0 <= u < 1.0
      modifies this`round, this`asked, this`phase, this`countdownTarget
      ensures round.mode == selectedMode && round.selectedTable == table
      ensures round.pool == FactPool(selectedMode, table, MultData().missHistory) && |round.pool| > 0
      ensures round == FreshRound(selectedMode, table, round.pool, QuestionOf(round.pool[Picked(round.pool, u)]))
      ensures phase == Countdown && countdownTarget == Playing
      ensures Valid()
    {
      round := StartRound(selectedMode, table, MultData().missHistory, u);
      asked := Picked(round.pool, u);
      phase, countdownTarget := Countdown, Playing;
    }

    /** The 3-2-1 countdown has run out: the round or the drill begins. */
    method CountdownFinished()
      requires Valid() && phase == Countdown
      modifies this`phase
      ensures phase == old(countdownTarget)
      ensures phase == Playing || phase == MissDrill
      ensures round == old(round) && drill == old(drill)
      ensures Valid()
    {
      phase := countdownTarget;
    }

    /**
     * handleAnswer, while no flash covers the pad. Every answer counts. A
     * right one scores, extends the streak, lowers the fact's weight and
     * asks the next question at once; a wrong one breaks the streak, is
     * recorded as a miss, raises the fact's weight and starts the flash,
     * whose end asks the next question.
     */
    method Answer(answer: int, u: real)
      requires Valid() && phase == Playing && round.wrongFlash == None
      requires 0.0 <= u < 1.0
      modifies this`round, this`asked, this`pendingFlashes
      ensures var q := old(round).question;
        answer == q.answer ==>
        && round == Scored(old(round)).(pool := round.pool, question := round.question)
        && round.pool == AdjustWeights(old(round).pool, q.a, q.b, true)
        && round.question == QuestionOf(round.pool[Picked(round.pool, u)])
        && pendingFlashes == old(pendingFlashes)
      ensures var q := old(round).question;
        answer != q.answer ==>
        && round == Missed(old(round), q).(pool := round.pool, wrongFlash := Some(q))
        && round.pool == AdjustWeights(old(round).pool, q.a, q.b, false)
        && pendingFlashes == old(pendingFlashes) + 1
      ensures Valid()
    {
      if answer == round.question.answer {
        RightAnswer(u);
      } else {
        WrongAnswer();
      }
    }

    /** The right-answer half of handleAnswer. */
    method RightAnswer(u: real)
      requires Valid() && phase == Playing && round.wrongFlash == None
      requires 0.0 <= u < 1.0
      modifies this`round, this`asked
      ensures var q := old(round).question;
        && round == Scored(old(round)).(pool := round.pool, question := round.question)
        && round.pool == AdjustWeights(old(round).pool, q.a, q.b, true)
        && round.question == QuestionOf(round.pool[Picked(round.pool, u)])
      ensures Valid()
    {
      var q := round.question;
      AdjustKeepsValid(round.pool, q.a, q.b, true);
      var newPool := AdjustWeights(round.pool, q.a, q.b, true);
      var nextQ := PickQuestion(newPool, u);
      asked := Picked(newPool, u);
      round := Scored(round).(pool := newPool, question := nextQ);
    }

    /** The wrong-answer half of handleAnswer. */
    method WrongAnswer()
      requires Valid() && phase == Playing && round.wrongFlash == None
      modifies this`round, this`pendingFlashes
      ensures var q := old(round).question;
        && round == Missed(old(round), q).(pool := round.pool, wrongFlash := Some(q))
        && round.pool == AdjustWeights(old(round).pool, q.a, q.b, false)
        && pendingFlashes == old(pendingFlashes) + 1
      ensures Valid()
    {
      var q := round.question;
      AdjustKeepsValid(round.pool, q.a, q.b, false);
      AdjustKeepsQuestions(round.pool, q.a, q.b, false, asked);
      var newPool := AdjustWeights(round.pool, q.a, q.b, false);
      round := Missed(round, q).(pool := newPool, wrongFlash := Some(q));
      pendingFlashes := pendingFlashes + 1;
    }

    /** A flash timeout fires, in whatever phase: the flash clears and a new question is picked. */
    method FlashFinished(u: real)
      requires Valid() && pendingFlashes > 0
      requires 0.0 <= u < 1.0
      modifies this`round, this`asked, this`pendingFlashes
      ensures pendingFlashes == old(pendingFlashes) - 1 && |round.pool| > 0
      ensures round == old(round).(wrongFlash := None, question := QuestionOf(round.pool[Picked(round.pool, u)]))
      ensures phase == old(phase) && drill == old(drill)
      ensures Valid()
    {
      var nextQ := PickQuestion(round.pool, u);
      asked := Picked(round.pool, u);
      round := round.(wrongFlash := None, question := nextQ);
      pendingFlashes := pendingFlashes - 1;
    }

    /**
     * endRound: credit the round's tokens, settle best scores and miss
     * history into the record, persist it, and show the round's summary.
     * The record's best scores rise exactly when the round beat the best
     * from before it, but the summary judges the score against the settled
     * record, so it never celebrates.
     */
    method EndRound(now: int)
      requires Valid() && phase == Playing
      modifies this`phase, hook, hook.store
      ensures hook.session == SettleSession(old(hook.session), old(round).mode, old(round).selectedTable,
                                            old(round).score, old(round).roundMisses, now)
      ensures hook.store.items == old(hook.store.items)[SessionKey := Serialize(hook.session)]
      ensures hook.Persisted()
      ensures phase == RoundEnd
      ensures Valid()
      ensures MultData().bestScores != old(MultData()).bestScores <==>
        IsNewBest(old(MultData()).bestScores, old(round).mode, old(round).selectedTable, old(round).score)
      ensures !SummaryNewBest()
    {
      ghost var before := hook.session;
      var tokensEarned := RoundTokens(round.score);
      if tokensEarned > 0 {
        hook.AddTokensAndSave(tokensEarned);
      }
      var md := MultData();
      NewBestIffRecord(md.bestScores, round.mode, round.selectedTable, round.score);
      hook.UpdateMultiplicationDataAndSave(Settle(md, round.mode, round.selectedTable, round.score, round.roundMisses, now));
      phase := RoundEnd;
      NewBestAfterSettleAsWritten(before, round.mode, round.selectedTable, round.score, round.roundMisses, now);
    }

    /** endDrill. */
    method EndDrill()
      requires Valid() && phase == MissDrill
      modifies this`phase
      ensures phase == DrillEnd
      ensures Valid()
    {
      phase := DrillEnd;
    }

    /**
     * The round or drill timer reaches zero. It ends the round only while
     * the round is playing and the drill only while the drill runs;
     * otherwise nothing happens.
     */
    method TimeUp(now: int)
      requires Valid()
      modifies this`phase, hook, hook.store
      ensures old(phase) == Playing ==>
        && phase == RoundEnd
        && hook.Persisted()
        && hook.session == SettleSession(old(hook.session), old(round).mode, old(round).selectedTable,
                                         old(round).score, old(round).roundMisses, now)
        && hook.store.items == old(hook.store.items)[SessionKey := Serialize(hook.session)]
      ensures old(phase) == MissDrill ==>
        phase == DrillEnd && hook.session == old(hook.session) && hook.store.items == old(hook.store.items)
      ensures old(phase) != Playing && old(phase) != MissDrill ==>
        phase == old(phase) && hook.session == old(hook.session) && hook.store.items == old(hook.store.items)
      ensures Valid()
      ensures old(phase) == Playing ==> !SummaryNewBest()
    {
      if phase == Playing {
        EndRound(now);
      } else if phase == MissDrill {
        EndDrill();
      }
    }

    /**
     * handleRoundEndContinue: with misses, a countdown to a drill over the
     * distinct missed facts (at most ten, first occurrences, in order);
     * without, back to the mode screen.
     */
    method RoundEndContinue()
      requires Valid() && phase == RoundEnd
      modifies this`phase, this`drill, this`countdownTarget
      ensures |round.roundMisses| > 0 ==>
        && drill == Drill(MultiplicationEngine.MissDrill(round.roundMisses, DrillMax), 0, 0, None)
        && |drill.questions| > 0
        && phase == Countdown && countdownTarget == MissDrill
      ensures |round.roundMisses| == 0 ==> phase == ModeSelect && drill == old(drill)
      ensures round == old(round)
      ensures Valid()
    {
      if |round.roundMisses| > 0 {
        var drillQs := GetMissDrillQuestions(round.roundMisses, DrillMax);
        DrillNonEmpty(round.roundMisses);
        drill := Drill(drillQs, 0, 0, None);
        phase, countdownTarget := Countdown, MissDrill;
      } else {
        phase := ModeSelect;
      }
    }

    /**
     * handleDrillAnswer, while no flash covers the pad. A right answer
     * counts as corrected and moves to the next question, or ends the
     * drill after the last one; a wrong answer keeps the question and
     * flashes the right answer.
     */
    method DrillAnswer(answer: int)
      requires Valid() && phase == MissDrill && drill.wrongFlash == None
      modifies this`phase, this`drill, this`pendingDrillFlashes
      ensures old(drill).index < |drill.questions| && drill.questions == old(drill).questions
      ensures var d := old(drill); var q := d.questions[d.index];
        answer == q.answer ==>
        && drill.corrected == d.corrected + 1 && drill.wrongFlash == None
        && (d.index + 1 < |d.questions| ==> drill.index == d.index + 1 && phase == MissDrill)
        && (d.index + 1 == |d.questions| ==> drill.index == d.index && phase == DrillEnd)
        && pendingDrillFlashes == old(pendingDrillFlashes)
      ensures var d := old(drill); var q := d.questions[d.index];
        answer != q.answer ==>
        && drill == d.(wrongFlash := Some(q)) && phase == MissDrill
        && pendingDrillFlashes == old(pendingDrillFlashes) + 1
      ensures drill.corrected <= |drill.questions| && round == old(round)
      ensures Valid()
    {
      // A running drill always has a current question, so the source's
      // `if (!currentQ) return` never fires.
      var currentQ := drill.questions[drill.index];
      if answer == currentQ.answer {
        if drill.index + 1 >= |drill.questions| {
          EndDrill();
          drill := drill.(corrected := drill.corrected + 1);
        } else {
          drill := drill.(corrected := drill.corrected + 1, index := drill.index + 1);
        }
      } else {
        drill := drill.(wrongFlash := Some(currentQ));
        pendingDrillFlashes := pendingDrillFlashes + 1;
      }
    }

    /** A drill flash timeout fires: only the flash clears. */
    method DrillFlashFinished()
      requires Valid() && pendingDrillFlashes > 0
      modifies this`drill, this`pendingDrillFlashes
      ensures drill == old(drill).(wrongFlash := None) && pendingDrillFlashes == old(pendingDrillFlashes) - 1
      ensures phase == old(phase) && round == old(round)
      ensures Valid()
    {
      drill := drill.(wrongFlash := None);
      pendingDrillFlashes := pendingDrillFlashes - 1;
    }

    /** handleDrillEndContinue: back to the mode screen. */
    method DrillEndContinue()
      requires Valid() && phase == DrillEnd
      modifies this`phase
      ensures phase == ModeSelect && round == old(round) && drill == old(drill)
      ensures Valid()
    {
      phase := ModeSelect;
    }
  }
}
