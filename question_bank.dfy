/**
 * The static IQ question bank (`IQ_QUESTIONS` in frontend/app.py) and the
 * quiz item that the generator derives from a bank question.
 */
module QuestionBank {

  /** The difficulty tag of a question; the bank uses exactly these three. */
  datatype Difficulty = Easy | Medium | Hard

  /** One bank question: its prompt, its options, the index of the right option, its difficulty. */
  datatype Question = Question(question: string, options: seq<string>, correct: int, difficulty: Difficulty)

  /** One entry of the bank dictionary: a section name and its questions, in declaration order. */
  datatype Section = Section(name: string, questions: seq<Question>)

  /** A question as it appears in a generated quiz: the bank fields plus the section it was drawn from. */
  datatype QuizItem = QuizItem(section: string, question: string, options: seq<string>, correct: int, difficulty: Difficulty)

  /** Tags a bank question with its section, copying every field unchanged. */
  function Tag(section: string, q: Question): QuizItem
  {
    QuizItem(section, q.question, q.options, q.correct, q.difficulty)
  }

  /** The number of options every question offers. */
  const OptionCount: nat := 4

  predicate WellFormedQuestion(q: Question)
  {
    |q.options| == OptionCount && 0 <= q.correct < |q.options|
  }

  /** No two questions of one section share a prompt. */
  predicate DistinctPrompts(qs: seq<Question>)
  {
    forall i, j :: 0 <= i < j < |qs| ==> qs[i].question != qs[j].question
  }

  /** Section names are dictionary keys, hence pairwise different. */
  predicate DistinctNames(bank: seq<Section>)
  {
    forall s, t :: 0 <= s < t < |bank| ==> bank[s].name != bank[t].name
  }

  /**
   * At least two questions (what drawing two of them needs), distinct
   * prompts, four options per question and a valid answer index.
   */
  predicate WellFormedSection(qs: seq<Question>)
  {
    && |qs| >= 2
    && DistinctPrompts(qs)
    && forall j :: 0 <= j < |qs| ==> WellFormedQuestion(qs[j])
  }

  /** The bank's data invariant: distinct section names and well-formed sections. */
  predicate WellFormedBank(bank: seq<Section>)
  {
    && DistinctNames(bank)
    && forall s :: 0 <= s < |bank| ==> WellFormedSection(bank[s].questions)
  }

  const LogicalReasoning: seq<Question> := [
    Question("If all roses are flowers and some flowers fade quickly, then:",
      ["All roses fade quickly", "Some roses might fade quickly", "No roses fade quickly", "All flowers are roses"], 1, Medium),
    Question("Complete the sequence: 2, 6, 12, 20, 30, ?", ["40", "42", "38", "36"], 1, Medium),
    Question("If A = 1, B = 2, C = 3, what is the sum of CAT?", ["24", "23", "22", "25"], 0, Easy),
    Question("If 5 workers take 5 hours to complete 5 tasks, how long for 100 workers to complete 100 tasks?",
      ["100 hours", "20 hours", "5 hours", "1 hour"], 2, Hard),
    Question("What comes next: J, F, M, A, M, ?", ["J", "S", "N", "D"], 0, Medium)
  ]

  const PatternRecognition: seq<Question> := [
    Question("Find the odd one out: 3, 5, 7, 9, 12, 13", ["3", "9", "12", "13"], 2, Easy),
    Question("Complete: 1, 4, 9, 16, 25, ?", ["30", "35", "36", "49"], 2, Easy),
    Question("What's the pattern: AB, CD, EF, GH, ?", ["IJ", "HI", "JK", "IK"], 0, Easy),
    Question("Find the next: 2, 5, 11, 23, 47, ?", ["94", "95", "96", "97"], 1, Hard),
    Question("Complete: Z, X, V, T, R, ?", ["Q", "P", "O", "N"], 1, Medium)
  ]

  const MathematicalAbility: seq<Question> := [
    Question("If x + 5 = 12, what is x?", ["5", "6", "7", "8"], 2, Easy),
    Question("What is 15% of 200?", ["25", "30", "35", "40"], 1, Medium),
    Question("If a shirt costs $80 after a 20% discount, what was the original price?",
      ["$96", "$100", "$104", "$110"], 1, Hard),
    Question("Simplify: (8 + 2) × 5 - 10", ["30", "40", "50", "60"], 1, Medium),
    Question("If 3x = 27, what is x²?", ["9", "27", "81", "243"], 2, Medium)
  ]

  const VerbalReasoning: seq<Question> := [
    Question("Choose the word most similar to 'HAPPY':", ["Sad", "Joyful", "Angry", "Tired"], 1, Easy),
    Question("Complete: Book is to Reading as Fork is to ?", ["Eating", "Cooking", "Kitchen", "Food"], 0, Easy),
    Question("Find the antonym of 'ABUNDANT':", ["Plentiful", "Scarce", "Many", "Rich"], 1, Medium),
    Question("Doctor : Patient :: Teacher : ?", ["School", "Student", "Book", "Class"], 1, Easy),
    Question("Which word doesn't belong: Apple, Banana, Carrot, Orange", ["Apple", "Banana", "Carrot", "Orange"], 2, Easy)
  ]

  const SpatialReasoning: seq<Question> := [
    Question("How many faces does a cube have?", ["4", "6", "8", "12"], 1, Easy),
    Question("If you fold a paper in half 3 times and make one cut, how many pieces will you have?",
      ["4", "6", "8", "9"], 3, Hard),
    Question("A clock shows 3:15. What is the angle between hour and minute hands?",
      ["0°", "7.5°", "15°", "22.5°"], 1, Hard),
    Question("How many edges does a triangular pyramid have?", ["4", "5", "6", "7"], 2, Medium),
    Question("If a square is rotated 90° clockwise, it will look:", ["Different", "The same", "Larger", "Smaller"], 1, Easy)
  ]

  /** The bank, in the dictionary's insertion order. */
  const IqQuestions: seq<Section> := [
    Section("Logical Reasoning", LogicalReasoning),
    Section("Pattern Recognition", PatternRecognition),
    Section("Mathematical Ability", MathematicalAbility),
    Section("Verbal Reasoning", VerbalReasoning),
    Section("Spatial Reasoning", SpatialReasoning)
  ]

  /** The shipped bank has five sections of five questions and meets the bank invariant. */
  lemma IqQuestionsWellFormed()
    ensures |IqQuestions| == 5
    ensures forall s :: 0 <= s < |IqQuestions| ==> |IqQuestions[s].questions| == 5
    ensures WellFormedBank(IqQuestions)
  {
    LogicalReasoningWellFormed();
    PatternRecognitionWellFormed();
    MathematicalAbilityWellFormed();
    VerbalReasoningWellFormed();
    SpatialReasoningWellFormed();
  }

  lemma LogicalReasoningWellFormed()
    ensures |LogicalReasoning| == 5 && WellFormedSection(LogicalReasoning)
  {
  }

  lemma PatternRecognitionWellFormed()
    ensures |PatternRecognition| == 5 && WellFormedSection(PatternRecognition)
  {
  }

  lemma MathematicalAbilityWellFormed()
    ensures |MathematicalAbility| == 5 && WellFormedSection(MathematicalAbility)
  {
  }

  lemma VerbalReasoningWellFormed()
    ensures |VerbalReasoning| == 5 && WellFormedSection(VerbalReasoning)
  {
  }

  lemma SpatialReasoningWellFormed()
    ensures |SpatialReasoning| == 5 && WellFormedSection(SpatialReasoning)
  {
  }
}
