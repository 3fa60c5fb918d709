/** Programming exercises as the results view reads them (main.py,
    `generate_coding_exercises`). `difficulty` and `explanation` are read with `.get` and may
    be missing from the model's answer; the other fields are indexed directly. */
module Exercises {
  import opened Wrappers

  datatype Exercise = Exercise(
    problem: string,
    difficulty: Option<string>,
    input: string,
    output: string,
    solution: string,
    explanation: Option<string>)

  /** The colour table of the difficulty badge. */
  const BadgeColours: map<string, string> := map["Easy" := "green", "Medium" := "orange", "Hard" := "red"]

  /** The colour used for a level that is not in the table. */
  const DefaultColour: string := "blue"

  /** The text shown when an exercise has no explanation. */
  const NoExplanation: string := "No detailed explanation available."

  /** The difficulties the selector offers. */
  const SelectableDifficulties: seq<string> := ["Easy", "Medium", "Hard"]

  /** `exercise.get('difficulty', difficulty)`: the exercise's own level, else the one the user selected. */
  function EffectiveDifficulty(e: Exercise, selected: string): (level: string)
    ensures e.difficulty.Some? ==> level == e.difficulty.value
    ensures e.difficulty.None? ==> level == selected
  {
    match e.difficulty
    case Some(d) => d
    case None => selected
  }

  /** `{...}.get(level, "blue")`. */
  function ColourOf(level: string): (c: string)
    ensures c == "green" <==> level == "Easy"
    ensures c == "orange" <==> level == "Medium"
    ensures c == "red" <==> level == "Hard"
    ensures c == "blue" <==> level !in SelectableDifficulties
  {
    if level in BadgeColours then BadgeColours[level] else DefaultColour
  }

  /** The badge colour of one exercise. */
  function BadgeColour(e: Exercise, selected: string): (c: string)
    ensures c in {"green", "orange", "red", DefaultColour}
    ensures c == DefaultColour <==> EffectiveDifficulty(e, selected) !in SelectableDifficulties
  {
    ColourOf(EffectiveDifficulty(e, selected))
  }

  /** An exercise without its own level takes the selected difficulty's colour, which is
      never the default, since every selectable difficulty has an entry. */
  lemma MissingDifficultyUsesSelection(e: Exercise, selected: string)
    requires e.difficulty.None? && selected in SelectableDifficulties
    ensures BadgeColour(e, selected) == ColourOf(selected)
    ensures BadgeColour(e, selected) != DefaultColour
  {
  }

  /** An exercise that carries a level is coloured by it, whatever the user selected. */
  lemma OwnDifficultyWins(e: Exercise, selected: string, other: string)
    requires e.difficulty.Some?
    ensures BadgeColour(e, selected) == BadgeColour(e, other) == ColourOf(e.difficulty.value)
  {
  }

  /** `exercise.get("explanation", "No detailed explanation available.")`. */
  function ExplanationText(e: Exercise): (s: string)
    ensures e.explanation.Some? ==> s == e.explanation.value
    ensures e.explanation.None? ==> s == NoExplanation
  {
    match e.explanation
    case Some(x) => x
    case None => NoExplanation
  }
}
