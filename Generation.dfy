/** The pure parts of `fetch_questions` and `fetch_coding_exercises` (main.py): the response
    template whose array holds the requested number of copies of an example item, and the
    fallback to an empty list when the model's answer does not give the expected array. The
    prompt text, the remote call and the JSON parser itself are outside the model; the
    parser's outcome is taken as input. */
module Generation {
  import opened Wrappers
  import Lists
  import Quiz
  import Exercises

  /** The outcome of `json.loads` on the completion: an object with its array-valued fields,
      or a decoding error. */
  datatype Parsed<T> = JsonObject(fields: map<string, seq<T>>) | DecodeError

  const QuizField: string := "mcqs"
  const ExerciseField: string := "exercises"

  /** The example question of the quiz template. */
  const QuestionTemplate: Quiz.Question := Quiz.Question(
    "multiple choice question",
    [Quiz.Choice("a", "choice here"), Quiz.Choice("b", "choice here"),
     Quiz.Choice("c", "choice here"), Quiz.Choice("d", "choice here")],
    "correct choice option in the form of a, b, c or d")

  /** The example exercise of the exercise template. */
  const ExerciseTemplate: Exercises.Exercise := Exercises.Exercise(
    "Description of the programming problem",
    Some("Easy/Medium/Hard"),
    "Example input",
    "Expected output",
    "Example solution code",
    Some("Detailed explanation of the solution"))

  /** RESPONSE_JSON of `fetch_questions`. */
  function QuizResponseTemplate(numQuestions: int): (r: map<string, seq<Quiz.Question>>)
    ensures r.Keys == {QuizField}
    ensures |r[QuizField]| == if numQuestions <= 0 then 0 else numQuestions
    ensures forall i :: 0 <= i < |r[QuizField]| ==> r[QuizField][i] == QuestionTemplate
  {
    map[QuizField := Lists.Replicate(QuestionTemplate, numQuestions)]
  }

  /** RESPONSE_JSON of `fetch_coding_exercises`. */
  function ExerciseResponseTemplate(numExercises: int): (r: map<string, seq<Exercises.Exercise>>)
    ensures r.Keys == {ExerciseField}
    ensures |r[ExerciseField]| == if numExercises <= 0 then 0 else numExercises
    ensures forall i :: 0 <= i < |r[ExerciseField]| ==> r[ExerciseField][i] == ExerciseTemplate
  {
    map[ExerciseField := Lists.Replicate(ExerciseTemplate, numExercises)]
  }

  /** `json.loads(...).get(field, [])`, with `[]` also on a decoding error. */
  function ItemsOrEmpty<T>(parsed: Parsed<T>, field: string): (items: seq<T>)
    ensures items == [] <==> parsed.DecodeError? || field !in parsed.fields || parsed.fields[field] == []
    ensures items != [] ==> parsed.JsonObject? && field in parsed.fields && items == parsed.fields[field]
  {
    match parsed
    case DecodeError => []
    case JsonObject(fields) => if field in fields then fields[field] else []
  }

  /** What `fetch_questions` returns for a given parse outcome. */
  function FetchQuestions(parsed: Parsed<Quiz.Question>): (qs: seq<Quiz.Question>)
    ensures qs == [] <==> parsed.DecodeError? || QuizField !in parsed.fields || parsed.fields[QuizField] == []
    ensures qs != [] ==> qs == parsed.fields[QuizField]
  {
    ItemsOrEmpty(parsed, QuizField)
  }

  /** What `fetch_coding_exercises` returns for a given parse outcome. */
  function FetchExercises(parsed: Parsed<Exercises.Exercise>): (es: seq<Exercises.Exercise>)
    ensures es == [] <==> parsed.DecodeError? || ExerciseField !in parsed.fields || parsed.fields[ExerciseField] == []
    ensures es != [] ==> es == parsed.fields[ExerciseField]
  {
    ItemsOrEmpty(parsed, ExerciseField)
  }

  /** The quiz template holds exactly the requested number of example questions, and an
      answer that echoes it back yields them all. */
  lemma QuizTemplateCount(n: nat)
    ensures |QuizResponseTemplate(n)[QuizField]| == n
    ensures FetchQuestions(JsonObject(QuizResponseTemplate(n))) == Lists.Replicate(QuestionTemplate, n)
  {
  }

  /** The exercise template holds exactly the requested number of example exercises. */
  lemma ExerciseTemplateCount(n: nat)
    ensures |ExerciseResponseTemplate(n)[ExerciseField]| == n
    ensures FetchExercises(JsonObject(ExerciseResponseTemplate(n))) == Lists.Replicate(ExerciseTemplate, n)
  {
  }

  /** The template question's "correct" text is not one of its own option keys: nothing
      forces a generated question's correct key to be among its options. */
  lemma TemplateCorrectIsNotAnOption()
    ensures !Quiz.HasKey(QuestionTemplate, QuestionTemplate.correct)
  {
    forall j | 0 <= j < |QuestionTemplate.options|
      ensures QuestionTemplate.options[j].key != QuestionTemplate.correct
    {
      assert |QuestionTemplate.options[j].key| == 1;
    }
  }
}
