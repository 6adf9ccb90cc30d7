/**
 * The shared record and enumeration types of the game engine
 * (types/index.ts), as Dafny datatypes.
 */
module Types {

  datatype Option<+T> = None | Some(value: T)

  /** The five practice sections a learner has a difficulty state for. */
  datatype MathSection = Addition | Subtraction | Multiplication | SkipCounting | AreaPerimeter

  /**
   * Adaptive difficulty of one section. `level` is meant to stay in 1..5;
   * the counters are the current streaks of right and wrong answers.
   */
  datatype DifficultyState = DifficultyState(level: int, consecutiveCorrect: nat, consecutiveWrong: nat)

  /** A generated problem; `hint` and the optional shape are not modelled. */
  datatype Problem = Problem(question: string, answer: int)

  datatype ExplanationResponse = ExplanationResponse(steps: seq<string>, encouragement: string)

  datatype CosmeticCategory = Hat | Scarf | Background | Accessory

  datatype ShopItemData = ShopItemData(id: string, name: string, cost: int, category: CosmeticCategory)

  datatype SectionData = SectionData(id: MathSection, name: string)

  datatype RewardAmounts = RewardAmounts(firstTry: int, retry: int)

  /** The phases the play screen uses (FIRST_WRONG, RETRYING and EXPLAINING are declared but never entered). */
  datatype PlayState = Loading | Answering | Correct | FirstWrong | Wrong | Retrying | Explaining

  datatype MultiplicationGameMode = Single | Mixed | Boss

  datatype FastMultiplyPhase = ModeSelect | Countdown | Playing | RoundEnd | MissDrill | DrillEnd

  /** One remembered mistake; `timestamp` is an abstract clock value. */
  datatype MissRecord = MissRecord(a: int, b: int, wrongAnswer: int, timestamp: int)

  /** High-water marks: per table for single-table rounds, overall for mixed and boss rounds. */
  datatype BestScores = BestScores(single: map<int, int>, mixed: int, boss: int)

  datatype MultiplicationSessionData = MultiplicationSessionData(bestScores: BestScores, missHistory: seq<MissRecord>)

  /** A fact in the round's pool with its selection weight. */
  datatype WeightedFact = WeightedFact(a: int, b: int, answer: int, weight: real)

  datatype MultiplicationQuestion = MultiplicationQuestion(a: int, b: int, answer: int, text: string)

  /** The learner's persisted record. Absent optional data is `None`. */
  datatype SessionData = SessionData(
    userName: string,
    tokens: int,
    purchasedItems: seq<string>,
    equipped: map<CosmeticCategory, Option<string>>,
    sections: map<MathSection, DifficultyState>,
    multiplicationData: Option<MultiplicationSessionData>)
}
