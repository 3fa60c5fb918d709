# intelliQuiz core, modelled in Dafny

intelliQuiz is a single-page app. The user uploads a PDF or pastes text, a language model
writes multiple-choice questions or programming exercises from it, and the page lets the
user answer the quiz and see a score. Almost all of `main.py` is rendering and API calls.
This project models the sequential logic inside it:

- **PdfText**: `extract_text_from_pdf`. The per-page strings are an input. The page loop
  (`ExtractText`) is proved against `JoinPages`. Python's `str.strip()` is modelled exactly,
  with the whole `str.isspace` character set.
- **Lists**: Python's list replication `[x] * n`, used for the answer slots and the
  response templates.
- **Generation**: the response templates of `fetch_questions` and `fetch_coding_exercises`,
  with their constants. Also the `.get(field, [])` fallback over an abstract parse outcome:
  a JSON object or a decoding error.
- **Quiz**: `generate_quiz`. An `AnswerSheet` class holds the questions and an
  `array<Option<string>>` of answer slots. `Select` maps a radio text to a key through the
  first option showing that text. `Submit` runs the scoring loop (`Grade`), which is proved against
  the `Marks` and `Verdicts` functions. Lemmas tie `Marks` to the set of correctly answered positions, to full
  and zero marks, and to a change of one slot.
- **Exercises**: the difficulty-colour lookup with its default, the difficulty fallback to
  the user's selection, and the explanation fallback.
- **Session**: the session fields `content`, `content_processed` and `material_generated`.
  Pure step functions give each guarded transition of `main`. The `Session` class's methods
  are proved against them. `ReachableConsistent` shows an invariant holds after any
  sequence of page runs.
- **Walkthrough**: one session from pasted text to a full-marks quiz.

Two details of the code worth stating:

- The extractor appends `"\n"` after every page, including the last one. The text is not
  only joined by newlines.
- The "Create New Learning Material" button (main.py:199) is drawn only on a run where
  "Submit Quiz" (main.py:171) returned true. A click on it starts a new run, on which
  "Submit Quiz" returns false, so line 199 is not reached and line 200 never runs:
  `material_generated` is never reset this way. `Session.AfterNewMaterial` and
  `Session.Session.StartNewMaterial` model what line 200 would do, and it would not discard
  the stored items or the answers either.

## Model

| member | source | states |
|---|---|---|
| `Lists.Replicate` | main.py:151 | `[x] * n` has max(n, 0) elements, every one equal to x |
| `Lists.ReplicateCharacterised` | main.py:105 | a list is the n-fold replication of x exactly when all its elements are x |
| `PdfText.ExtractText` | main.py:18-21 | the loop's result is `JoinPages(pages)`: each page's text in order, each followed by a newline |
| `PdfText.JoinPagesLength` | main.py:18-21 | the extracted text's length is the sum of the page lengths plus the page count |
| `PdfText.JoinPagesAppend` | main.py:18-21 | the text of pages a + b is the text of a followed by the text of b |
| `PdfText.JoinPagesAt` | main.py:19-20 | page k's text follows the text of pages 0..k-1, is followed by "\n", and then the text of the remaining pages |
| `PdfText.TrimStart` | main.py:282 | removes exactly the leading Python whitespace: the result is a suffix that does not start with whitespace, and what was removed is blank |
| `PdfText.TrimEnd` | main.py:282 | removes exactly the trailing Python whitespace: the result is a prefix that does not end with whitespace, and what was removed is blank |
| `PdfText.Strip` | main.py:282 | `s.strip()` is empty, so the text is rejected, exactly when every character of s is whitespace; a non-empty result neither starts nor ends with whitespace |
| `PdfText.StripIsSlice` | main.py:282 | `s.strip()` is a contiguous slice of s, and what it cuts off on either side is whitespace only |
| `PdfText.JoinPagesBlank` | main.py:18-21 | the extracted text is blank exactly when every page's text is blank, so a PDF is rejected only then |
| `Quiz.IndexOfText` | main.py:166 | `options.index(t)`: a position showing t, with no earlier position showing t |
| `Quiz.IndexOfKey` | main.py:182 | the position `options[k]` reads: the first one whose key is k |
| `Quiz.KeyOfChoice` | main.py:166-167 | the key recorded for radio text t is a key of the question, namely that of the first option showing t |
| `Quiz.TextOfKey` | main.py:182-186 | `question['options'][k]`, read for the chosen key (:182) and the correct key (:186), is the text stored under key k, taken from the first option with that key, and so is one of the question's option texts |
| `Quiz.ChoiceRoundTrip` | main.py:155-167 | with distinct keys, the key recorded for text t is a key of the question, looking it up gives back t, and only the first option showing t has that key |
| `Quiz.Hit` | main.py:188-189 | one question scores 1 exactly when its slot holds the correct key, else 0; an unanswered question scores 0 |
| `Quiz.Marks` | main.py:173-189 | the marks never exceed the number of questions |
| `Quiz.MarksCountsCorrect` | main.py:173-189 | the marks equal the number of positions whose recorded key equals the question's `correct` key |
| `Quiz.MarksFull` | main.py:188-189 | full marks exactly when every slot holds its question's correct key |
| `Quiz.MarksZero` | main.py:188-189 | zero marks exactly when no slot holds its question's correct key |
| `Quiz.MarksUpdate` | main.py:167 | changing one slot changes the marks only by that slot's own score |
| `Quiz.UnansweredCountsWrong` | main.py:181-189 | an unanswered question scores nothing but stays in the total: answering it correctly adds exactly one mark |
| `Quiz.BlankSheetScoresZero` | main.py:151 | submitting with no selection scores zero |
| `Quiz.Percentage` | main.py:196 | for marks no greater than the positive total, the percentage lies in 0..100; it is 100 exactly at full marks and 0 exactly at zero marks |
| `Quiz.VerdictFor` | main.py:179-192 | the verdict is "correct" exactly when the question scores; the chosen text is omitted exactly when the slot is unset or holds the falsy empty key (the truthiness test at :181); the correct text shown is the text stored under the question's `correct` key (:186) and the chosen text, when shown, the text stored under the slot's key (:182), so both are option texts; a correct non-empty key shows the correct text as the chosen one |
| `Quiz.Verdicts` | main.py:175-194 | one results line per question, marked correct exactly at the correctly answered positions |
| `Quiz.Grade` | main.py:173-196 | the submit loop's marks are `Marks` of the questions and answers, its lines are `Verdicts`, and its percentage is marks over the question count |
| `Quiz.AnswerSheet.constructor` | main.py:151 | exactly one slot per question, every slot unset |
| `Quiz.AnswerSheet.Select` | main.py:165-167 | slot i becomes the key at the first position showing the chosen text; every other slot is unchanged; a later choice for the same question overwrites the earlier one |
| `Quiz.AnswerSheet.RecordRadios` | main.py:153-167 | each radio that shows a choice writes that choice's key into its own slot; the slots of radios with no choice keep their value |
| `Quiz.AnswerSheet.Score` | main.py:173-189 | the score is the number of correctly answered positions, at most the number of questions |
| `Quiz.AnswerSheet.Submit` | main.py:173-197 | one results line per question (the chosen text shown only for a non-empty key, the correct text, and the verdict), the marks equal to `Score()`, a line is marked correct exactly when its position is answered correctly, and the percentage is marks over the total number of questions |
| `Exercises.EffectiveDifficulty` | main.py:214 | `exercise.get('difficulty', difficulty)`: the exercise's own level when it has one, else the selected level |
| `Exercises.BadgeColour` | main.py:210-214 | the badge of an exercise is green, orange, red or blue, and blue exactly when its effective difficulty (its own, else the selected one) is not a level the selector offers |
| `Exercises.ColourOf` | main.py:210-214 | Easy→green, Medium→orange, Hard→red, each exactly for that level; blue exactly for any level the selector does not offer |
| `Exercises.MissingDifficultyUsesSelection` | main.py:214 | an exercise without a difficulty gets the colour of the selected difficulty, never the default |
| `Exercises.OwnDifficultyWins` | main.py:214 | an exercise's own difficulty decides its colour whatever the user selected |
| `Exercises.ExplanationText` | main.py:225 | the exercise's explanation if present, else "No detailed explanation available." |
| `Generation.ItemsOrEmpty` | main.py:86-90 | the result is empty exactly on a decoding error, a missing field or an empty array; otherwise it is the field's array |
| `Generation.QuizResponseTemplate` | main.py:26-39 | the quiz template has the single field `mcqs`, holding max(n, 0) entries, each the example question |
| `Generation.ExerciseResponseTemplate` | main.py:95-106 | the exercise template has the single field `exercises`, holding max(n, 0) entries, each the example exercise |
| `Generation.FetchQuestions` | main.py:86-90 | `fetch_questions` returns no questions exactly on a decoding error, a missing `mcqs` field or an empty array; otherwise the `mcqs` array |
| `Generation.FetchExercises` | main.py:142-146 | `fetch_coding_exercises` returns no exercises exactly on a decoding error, a missing `exercises` field or an empty array; otherwise that array |
| `Generation.QuizTemplateCount` | main.py:26-39 | the quiz template's `mcqs` array has exactly `num_questions` copies of the example question, and echoing it back yields them |
| `Generation.ExerciseTemplateCount` | main.py:95-106 | the exercise template's `exercises` array has exactly `num_exercises` copies of the example exercise |
| `Generation.TemplateCorrectIsNotAnOption` | main.py:26-37 | the template's own `correct` text is not one of its option keys: nothing ties a question's correct key to its options, which is why `Submit` must require it (see Left out) |
| `Session.AfterUpload` | main.py:279-287 | the flags change exactly when the file is not the one last processed and its text is not blank; then the content is that text and the file name is remembered; the generated flag never changes |
| `Session.AfterPaste` | main.py:290-291 | the content becomes the pasted text exactly when no file is uploaded and the text is non-empty |
| `Session.AfterGenerate` | main.py:297-303 | material is marked generated exactly when it was already or content is present; with content the processed file name is cleared; without content nothing changes |
| `Session.AfterFetch` | main.py:316-319 | an attempted generation that returns no items resets the generated flag; nothing else changes |
| `Session.AfterNewMaterial` | main.py:199-200 | the generated flag is cleared and the content is kept |
| `Session.BeforeGenerate` | main.py:279-291 | the upload and paste steps never change the generated flag and keep the session consistent |
| `Session.Rerun` | main.py:273-351 | one run keeps the session consistent and never removes content; on a consistent session material ends generated exactly when it was already or Generate was pressed, content is present, and items came back; pressing Generate with content clears the processed file name |
| `Session.ReachableConsistent` | main.py:273-303 | after any sequence of runs, stored content is non-empty, a processed file name implies content, and material is only marked generated with content |
| `Session.ContentNeverCleared` | main.py:283 | once content is stored, no run removes it |
| `Session.UploadTakesPrecedence` | main.py:279-291 | with a file uploaded the paste step never applies: a run leaves either the old content or the file's text |
| `Session.SameNameSkipsExtraction` | main.py:279 | a file whose name is the one last processed is not read again, so the run keeps the stored content |
| `Session.StaleContentAfterReupload` | main.py:279-291 | uploading a file, removing it and pasting text, then uploading the same file again leaves the pasted text as the content |
| `Session.NoContentNoMaterial` | main.py:297-299 | with no file, no pasted text and no stored content, a run changes nothing, even when Generate is pressed |
| `Session.GenerateWithContentSucceeds` | main.py:297-303 | pressing Generate with content and getting items back leaves material generated, and the next run extracts the uploaded file again |
| `Session.ParseFailureResets` | main.py:142-146 | an undecodable completion or one missing the array makes an attempted generation end with material not generated |
| `Session.Session.constructor` | main.py:273-276 | a new session is not generated, has no processed file and no content |
| `Session.Session.ProcessUpload` | main.py:279-287 | the flags become `AfterUpload` of the old ones; the notice is "processed" or "extraction failed" exactly when extraction ran, by whether the text is blank |
| `Session.Session.UsePastedText` | main.py:290-291 | the flags become `AfterPaste` of the old ones; the stored items are unchanged |
| `Session.Session.PressGenerate` | main.py:297-303 | the flags become `AfterGenerate` of the old ones; the "missing content" notice appears exactly when no content is stored |
| `Session.Session.ReceiveQuestions` | main.py:306-327 | the flags become `AfterFetch` of the old ones; the quiz is shown exactly when generation was attempted and returned questions, which are then stored (non-empty); the failure notice appears exactly when it returned none |
| `Session.Session.ReceiveExercises` | main.py:329-344 | the same as for questions, for exercises |
| `Session.LaterNotices` | main.py:297-342 | the messages after the PDF step, each present exactly when its condition holds, none of them a PDF message, at most three |
| `Session.LaterNoticesOrdered` | main.py:297-342 | the messages after the PDF step come in page order: missing content (:299), then the parse failure (:89, :145, reached from :309/:331), then failure to generate (:317, :340) |
| `Session.RunNotices` | main.py:279-342 | on a consistent session, "PDF processed" and "could not extract" appear exactly when the file is extracted and its text is non-blank or blank; "missing content" exactly when Generate is pressed with no content after the upload and paste steps; the fetch function's parse message exactly when generation is attempted and the completion does not decode; "failed to generate" exactly when generation is attempted and returns nothing; at most three messages |
| `Session.RunNoticesOrdered` | main.py:279-342 | on a consistent session the messages of a run come in the order the page shows them, each at most once: the PDF message first, then missing content, parse failure and failure to generate |
| `Session.DecodeErrorShowsBothMessages` | main.py:86-90 | on an attempted run whose completion does not decode, the parse message is followed by "failed to generate" as the run's last two messages |
| `Session.Session.RunPage` | main.py:273-351 | one run of `main`, given each mode's parse outcome, moves the flags by `Rerun` with the count the fetch function returns; the selected mode's items are shown, and stored, exactly when generation is attempted (material already generated or Generate pressed, with content) and the fetch returns some; the other mode's items and, when nothing is shown, the selected mode's items are unchanged; the messages are `RunNotices`, including the parse message |
| `Session.Session.StartNewMaterial` | main.py:199-200 | the flags become `AfterNewMaterial` of the old ones |
| `Walkthrough.PasteAndGenerate` | main.py:290-321 | pasting text, pressing Generate and receiving one question marks material generated and stores that question |
| `Walkthrough.PickTwice` | main.py:165-167 | a second choice for the same question overwrites the first |
| `Walkthrough.LaterPickWins` | main.py:151-197 | answering the one question correctly after a wrong pick gives 1 out of 1 and 100 percent |
| `Walkthrough.PastedTextToFullMarks` | main.py:290-322 | pasting text, generating one question, choosing a wrong option and then the right one, and submitting gives 1 out of 1 and 100 percent |

## Left out

- Rendering with Streamlit is not modelled: markdown, radios, buttons, expanders, spinners,
  `experimental_rerun` and the framework's re-execution of the script on every interaction.
  Selections and submits are explicit method calls. `RunPage` is one run of `main`.
- `Session.Session.StartNewMaterial` models line 200 of main.py, which the program never
  executes. The button at main.py:199 is drawn only inside the branch of "Submit Quiz", and
  its click is never observed, because on the run the click starts "Submit Quiz" returns
  false. The `NewMaterial` events that `Session.ApplyAll` accepts therefore over-approximate
  the program. This is harmless for `Session.ReachableConsistent` and
  `Session.ContentNeverCleared`: they hold over a larger set of event sequences than the
  program produces.
- `@st.cache_data` memoisation (main.py:14, 23, 92) is not modelled, and for the two fetch
  functions it is more than a performance detail. On a decoding error they return `[]`
  (main.py:88-90, 144-146), the cache keeps that `[]`, and a retry of Generate with the same
  text, prompt and settings gets the cached `[]` without calling the model again, so "Please
  try again" (main.py:317, 340) fails again. The model takes the parse outcome of every run
  as a free input, so it allows runs the cache rules out: it over-approximates here.
- Failure of the PDF library is not modelled. `PyPDF2.PdfReader` or the page loop
  (main.py:17-20) raises on a corrupt, non-PDF or some encrypted uploads. Nothing catches it,
  so the run stops at main.py:281, before the paste and Generate steps, and
  `content_processed` is not set. The cache does not store exceptions, so every later run
  stops there while that file stays uploaded, and Generate cannot be reached. In the model
  every `Upload` has its page texts, so no run stops early.
- PyPDF2's page extraction is not modelled. It is a foreign library, so the per-page texts
  are an input.
- The OpenAI call and its sampling parameters are not modelled. The parse outcome of its
  completion is an input to `Session.Session.RunPage` and `Generation.ItemsOrEmpty`; the
  items are an input to `ReceiveQuestions` / `ReceiveExercises`. The parse message records
  only that decoding failed, not the decoder's error text (main.py:145).
- `Session.Rerun` and `Session.Session.RunPage` do not model a generation call that raises.
  `client.chat.completions.create` (main.py:68-81, 129-138) raises on network, rate-limit and
  authentication errors, and `json.loads` raises `TypeError` on a completion whose content
  is None, which `except json.JSONDecodeError` (main.py:88, 144) does not catch. Either way
  the run stops at main.py:309 or 331, after lines 302-303 have set `material_generated` and
  cleared `content_processed`. The cache keeps no exceptions, so every later run calls the
  model again without Generate being pressed. In the model every fetch yields a parse
  outcome, so no run stops there, and `Rerun`'s statement on when material ends up
  generated does not cover this path: there the flags stay as after the Generate step.
- `Quiz.Question` and `Exercises.Exercise` assume every generated item has the template's
  fields. The source indexes them directly: `question['mcq']` (main.py:154),
  `question["options"]` (main.py:155), `question["correct"]` (main.py:177),
  `exercise['problem']` (main.py:216), `['input']` and `['output']` (main.py:220) and
  `["solution"]` (main.py:223). A missing field raises `KeyError`, and an `options` value
  that is not an object raises `AttributeError` at main.py:155. The run then stops in the
  middle of rendering with `material_generated` still true, and since the cache returns the
  same items on every later run, the page fails the same way until the inputs change. The
  model has no such item, so it has no such failure.
- `json.loads` itself is not modelled. A document that parses to something other than an
  object makes `.get` raise an uncaught `AttributeError`. A field that is not an array, and a
  `null` difficulty, are not modelled either. Parse outcomes are JSON objects with
  array-valued fields, or decoding errors.
- The prompt strings and their formatting, `dotenv`, and reading the API key are not
  modelled. They are configuration and text templating.
- The word count in the "PDF processed" message (`len(pdf_text.split())`) is not modelled.
  The notice records only that processing succeeded.
- The `.1f` rounding of the percentage is not modelled. `Quiz.Percentage` is the exact real
  value.
- `Quiz.AnswerSheet.Submit` requires every question's `correct` key to be one of its option
  keys. The source indexes the options by it without checking, which raises `KeyError`.
  It also requires a non-empty question list: the source divides by the list's length, and
  only non-empty lists ever reach the quiz.
- `Quiz.AnswerSheet.Select` requires the chosen text to be one of the question's options.
  The radio offers only those.
