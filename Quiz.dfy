/** Multiple-choice quiz answering and scoring (main.py, `generate_quiz`). A question's
    options are the model's `options` object in its own order: a list of key/text pairs. */
module Quiz {
  import opened Wrappers
  import Lists

  datatype Choice = Choice(key: string, text: string)
  datatype Question = Question(mcq: string, options: seq<Choice>, correct: string)

  /** One line of the results view: the text of the chosen option (None where the view
      says that no answer was selected), the text of the correct option, and the verdict. */
  datatype Verdict = Verdict(selectedText: Option<string>, correctText: string, isCorrect: bool)

  predicate HasKey(q: Question, k: string)
  {
    exists j :: 0 <= j < |q.options| && q.options[j].key == k
  }

  predicate HasText(q: Question, t: string)
  {
    exists j :: 0 <= j < |q.options| && q.options[j].text == t
  }

  /** The option keys of a question are distinct, as the keys of a JSON object are. */
  predicate DistinctKeys(q: Question)
  {
    forall j, l :: 0 <= j < l < |q.options| ==> q.options[j].key != q.options[l].key
  }

  /** `options.index(t)`: the first position whose option text is t. */
  function IndexOfText(options: seq<Choice>, t: string): (r: nat)
    requires exists j :: 0 <= j < |options| && options[j].text == t
    ensures r < |options| && options[r].text == t
    ensures forall j :: 0 <= j < r ==> options[j].text != t
  {
    if options[0].text == t then 0
    else
      assert exists j :: 0 <= j < |options[1..]| && options[1..][j].text == t by {
        var j :| 0 <= j < |options| && options[j].text == t;
        assert options[1..][j - 1].text == t;
      }
      1 + IndexOfText(options[1..], t)
  }

  /** The first position whose option key is k: the entry `options[k]` looks up. */
  function IndexOfKey(options: seq<Choice>, k: string): (r: nat)
    requires exists j :: 0 <= j < |options| && options[j].key == k
    ensures r < |options| && options[r].key == k
    ensures forall j :: 0 <= j < r ==> options[j].key != k
  {
    if options[0].key == k then 0
    else
      assert exists j :: 0 <= j < |options[1..]| && options[1..][j].key == k by {
        var j :| 0 <= j < |options| && options[j].key == k;
        assert options[1..][j - 1].key == k;
      }
      1 + IndexOfKey(options[1..], k)
  }

  /** The key recorded when the radio button shows text t: `option_keys[options.index(t)]`. */
  function KeyOfChoice(q: Question, t: string): (k: string)
    requires HasText(q, t)
    ensures HasKey(q, k)
    ensures exists j :: 0 <= j < |q.options| && q.options[j].text == t && q.options[j].key == k &&
              forall l :: 0 <= l < j ==> q.options[l].text != t
  {
    q.options[IndexOfText(q.options, t)].key
  }

  /** `question['options'][k]`. */
  function TextOfKey(q: Question, k: string): (t: string)
    requires HasKey(q, k)
    ensures HasText(q, t)
    ensures exists j :: 0 <= j < |q.options| && q.options[j].key == k && q.options[j].text == t &&
              forall l :: 0 <= l < j ==> q.options[l].key != k
  {
    q.options[IndexOfKey(q.options, k)].text
  }

  /** Choosing a text records a key of that question, and looking that key up gives back
      the chosen text; with distinct keys it is the key of the first option showing t. */
  lemma ChoiceRoundTrip(q: Question, t: string)
    requires HasText(q, t) && DistinctKeys(q)
    ensures HasKey(q, KeyOfChoice(q, t))
    ensures TextOfKey(q, KeyOfChoice(q, t)) == t
    ensures forall j :: 0 <= j < |q.options| && q.options[j].key == KeyOfChoice(q, t) ==>
              j == IndexOfText(q.options, t)
  {
    var j := IndexOfText(q.options, t);
    assert q.options[j].key == KeyOfChoice(q, t);
    var l := IndexOfKey(q.options, KeyOfChoice(q, t));
    assert l == j;
  }

  /** Whether one answer slot scores: the recorded key equals the correct key. */
  function Hit(q: Question, slot: Option<string>): (h: nat)
    ensures h <= 1
    ensures h == 1 <==> slot.Some? && slot.value == q.correct
    ensures slot.None? ==> h == 0
  {
    if slot == Some(q.correct) then 1 else 0
  }

  /** The marks of the submit loop: the number of questions whose slot holds the correct key. */
  function Marks(qs: seq<Question>, slots: seq<Option<string>>): (r: nat)
    requires |slots| == |qs|
    ensures r <= |qs|
  {
    if qs == [] then 0
    else Marks(qs[..|qs| - 1], slots[..|slots| - 1]) + Hit(qs[|qs| - 1], slots[|slots| - 1])
  }

  /** One more question in the prefix adds that question's own score. */
  lemma MarksStep(qs: seq<Question>, slots: seq<Option<string>>, i: nat)
    requires |slots| == |qs| && i < |qs|
    ensures Marks(qs[..i + 1], slots[..i + 1]) == Marks(qs[..i], slots[..i]) + Hit(qs[i], slots[i])
  {
    assert qs[..i + 1][..i] == qs[..i];
    assert slots[..i + 1][..i] == slots[..i];
  }

  /** The questions answered correctly, as a set of positions. */
  function CorrectPositions(qs: seq<Question>, slots: seq<Option<string>>): set<nat>
    requires |slots| == |qs|
  {
    set i: nat | i < |qs| && slots[i] == Some(qs[i].correct)
  }

  /** The marks are the number of positions whose recorded key is the correct one. */
  lemma {:induction false} MarksCountsCorrect(qs: seq<Question>, slots: seq<Option<string>>)
    requires |slots| == |qs|
    ensures Marks(qs, slots) == |CorrectPositions(qs, slots)|
  {
    if qs != [] {
      var n := |qs| - 1;
      var qs', slots' := qs[..n], slots[..n];
      MarksCountsCorrect(qs', slots');
      var before := CorrectPositions(qs', slots');
      if slots[n] == Some(qs[n].correct) {
        assert CorrectPositions(qs, slots) == before + {n};
      } else {
        assert CorrectPositions(qs, slots) == before;
      }
    }
  }

  /** Full marks exactly when every slot holds its question's correct key. */
  lemma {:induction false} MarksFull(qs: seq<Question>, slots: seq<Option<string>>)
    requires |slots| == |qs|
    ensures Marks(qs, slots) == |qs| <==> forall i :: 0 <= i < |qs| ==> slots[i] == Some(qs[i].correct)
  {
    if qs != [] {
      var n := |qs| - 1;
      MarksFull(qs[..n], slots[..n]);
      if forall i :: 0 <= i < |qs| ==> slots[i] == Some(qs[i].correct) {
        assert forall i :: 0 <= i < n ==> slots[..n][i] == Some(qs[..n][i].correct);
      }
    }
  }

  /** Zero marks exactly when no slot holds its question's correct key. */
  lemma {:induction false} MarksZero(qs: seq<Question>, slots: seq<Option<string>>)
    requires |slots| == |qs|
    ensures Marks(qs, slots) == 0 <==> forall i :: 0 <= i < |qs| ==> slots[i] != Some(qs[i].correct)
  {
    if qs != [] {
      var n := |qs| - 1;
      MarksZero(qs[..n], slots[..n]);
      if forall i :: 0 <= i < |qs| ==> slots[i] != Some(qs[i].correct) {
        assert forall i :: 0 <= i < n ==> slots[..n][i] != Some(qs[..n][i].correct);
      }
    }
  }

  /** Changing one slot changes the marks by that slot's score alone. */
  lemma {:induction false} MarksUpdate(qs: seq<Question>, slots: seq<Option<string>>, i: nat, v: Option<string>)
    requires |slots| == |qs| && i < |qs|
    ensures Marks(qs, slots[i := v]) + Hit(qs[i], slots[i]) == Marks(qs, slots) + Hit(qs[i], v)
  {
    var n := |qs| - 1;
    if i < n {
      MarksUpdate(qs[..n], slots[..n], i, v);
      assert slots[i := v][..n] == slots[..n][i := v];
    } else {
      assert slots[i := v][..n] == slots[..n];
    }
  }

  /** An unanswered question never scores yet stays in the denominator: answering it
      correctly would raise the marks by exactly one. */
  lemma UnansweredCountsWrong(qs: seq<Question>, slots: seq<Option<string>>, i: nat)
    requires |slots| == |qs| && i < |qs| && slots[i] == None
    ensures Marks(qs, slots[i := Some(qs[i].correct)]) == Marks(qs, slots) + 1
    ensures Marks(qs, slots) < |qs|
  {
    MarksUpdate(qs, slots, i, Some(qs[i].correct));
  }

  /** A sheet on which nothing is selected scores zero. */
  lemma BlankSheetScoresZero(qs: seq<Question>)
    ensures Marks(qs, Lists.Replicate(None, |qs|)) == 0
  {
    MarksZero(qs, Lists.Replicate(None, |qs|));
  }

  /** `marks / total * 100`, the percentage on the results line (before `.1f` rounding). */
  function Percentage(marks: nat, total: nat): (p: real)
    requires total > 0
    ensures marks <= total ==> 0.0 <= p <= 100.0
    ensures p == 100.0 <==> marks == total
    ensures p == 0.0 <==> marks == 0
  {
    (marks as real / total as real) * 100.0
  }

  /** The results line for one question (main.py, submit loop). A selected key is shown only
      when it is truthy, that is non-empty; the verdict compares the keys themselves. */
  function VerdictFor(q: Question, slot: Option<string>): (v: Verdict)
    requires slot.Some? ==> HasKey(q, slot.value)
    requires HasKey(q, q.correct)
    ensures v.isCorrect <==> Hit(q, slot) == 1
    ensures v.selectedText.None? <==> slot.None? || slot.value == ""
    ensures v.selectedText.Some? ==> HasText(q, v.selectedText.value)
    ensures HasText(q, v.correctText)
    ensures v.correctText == TextOfKey(q, q.correct)
    ensures v.selectedText.Some? ==> v.selectedText.value == TextOfKey(q, slot.value)
    ensures v.isCorrect && q.correct != "" ==> v.selectedText == Some(v.correctText)
  {
    Verdict(if slot.Some? && slot.value != "" then Some(TextOfKey(q, slot.value)) else None,
            TextOfKey(q, q.correct),
            slot == Some(q.correct))
  }

  /** Every recorded key is one of its question's keys. */
  predicate KeysRecorded(qs: seq<Question>, answers: seq<Option<string>>)
    requires |answers| == |qs|
  {
    forall i :: 0 <= i < |qs| && answers[i].Some? ==> HasKey(qs[i], answers[i].value)
  }

  /** Every question's correct key is one of its option keys. */
  predicate CorrectKeysListed(qs: seq<Question>)
  {
    forall i :: 0 <= i < |qs| ==> HasKey(qs[i], qs[i].correct)
  }

  /** The results view: one line per question, in question order. */
  function Verdicts(qs: seq<Question>, answers: seq<Option<string>>): (r: seq<Verdict>)
    requires |answers| == |qs| && KeysRecorded(qs, answers) && CorrectKeysListed(qs)
    ensures |r| == |qs|
    ensures forall i :: 0 <= i < |qs| ==> (r[i].isCorrect <==> i in CorrectPositions(qs, answers))
  {
    seq(|qs|, i requires 0 <= i < |qs| => VerdictFor(qs[i], answers[i]))
  }

  /** One pass of the submit loop keeps the marks and the results lines in step with the
      questions seen so far. */
  lemma GradeStep(qs: seq<Question>, answers: seq<Option<string>>, i: nat, marks: nat, report: seq<Verdict>)
    requires |answers| == |qs| && i < |qs| && KeysRecorded(qs, answers) && CorrectKeysListed(qs)
    requires marks == Marks(qs[..i], answers[..i]) && report == Verdicts(qs, answers)[..i]
    ensures marks + Hit(qs[i], answers[i]) == Marks(qs[..i + 1], answers[..i + 1])
    ensures report + [VerdictFor(qs[i], answers[i])] == Verdicts(qs, answers)[..i + 1]
  {
    MarksStep(qs, answers, i);
  }

  /** The submit loop over the questions and their recorded answers. */
  method Grade(qs: seq<Question>, answers: seq<Option<string>>) returns (marks: nat, report: seq<Verdict>, percentage: real)
    requires |answers| == |qs| && |qs| > 0
    requires KeysRecorded(qs, answers) && CorrectKeysListed(qs)
    ensures marks == Marks(qs, answers)
    ensures report == Verdicts(qs, answers)
    ensures percentage == Percentage(marks, |qs|)
  {
    marks := 0;
    report := [];
    for i := 0 to |qs|
      invariant marks == Marks(qs[..i], answers[..i])
      invariant report == Verdicts(qs, answers)[..i]
    {
      var selectedKey := answers[i];
      var correctKey := qs[i].correct;
      GradeStep(qs, answers, i, marks, report);
      report := report + [VerdictFor(qs[i], selectedKey)];
      if selectedKey == Some(correctKey) {
        marks := marks + 1;
      }
    }
    assert qs[..|qs|] == qs && answers[..|answers|] == answers;
    assert Verdicts(qs, answers)[..|qs|] == Verdicts(qs, answers);
    percentage := Percentage(marks, |qs|);
  }

  /** The answer slots of the quiz (`st.session_state.selected_options`), one per question. */
  class AnswerSheet {
    const questions: seq<Question>
    const slots: array<Option<string>>

    /** One slot per question, and every recorded key is one of its question's keys. */
    ghost predicate Valid()
      reads this, slots
    {
      slots.Length == |questions| && KeysRecorded(questions, slots[..])
    }

    function Answers(): seq<Option<string>>
      reads this, slots
    {
      slots[..]
    }

    /** `[None] * len(questions)`: one unset slot per question. */
    constructor (qs: seq<Question>)
      ensures Valid() && fresh(slots)
      ensures questions == qs
      ensures Answers() == Lists.Replicate(None, |qs|)
    {
      questions := qs;
      slots := new Option<string>[|qs|](_ => None);
      new;
      assert forall i :: 0 <= i < slots.Length ==> slots[i] == None;
    }

    /** The radio for question i shows text t: its key is written into slot i alone. */
    method Select(i: nat, t: string)
      requires Valid() && i < |questions| && HasText(questions[i], t)
      modifies slots
      ensures Valid()
      ensures Answers() == old(Answers())[i := Some(KeyOfChoice(questions[i], t))]
    {
      slots[i] := Some(KeyOfChoice(questions[i], t));
    }

    /** The rendering loop: each radio that shows a choice writes that choice's key into its
        question's slot; the other slots keep what they held. */
    method RecordRadios(choices: seq<Option<string>>)
      requires Valid() && |choices| == |questions|
      requires forall i :: 0 <= i < |choices| && choices[i].Some? ==> HasText(questions[i], choices[i].value)
      modifies slots
      ensures Valid()
      ensures forall i :: 0 <= i < |questions| ==>
                Answers()[i] == if choices[i].Some? then Some(KeyOfChoice(questions[i], choices[i].value))
                                else old(Answers())[i]
    {
      for i := 0 to |questions|
        invariant Valid()
        invariant forall j :: 0 <= j < i ==>
                    slots[j] == if choices[j].Some? then Some(KeyOfChoice(questions[j], choices[j].value))
                                else old(slots[j])
        invariant forall j :: i <= j < |questions| ==> slots[j] == old(slots[j])
      {
        if choices[i].Some? {
          Select(i, choices[i].value);
        }
      }
    }

    /** The quiz score: the number of slots that hold their question's correct key. */
    function Score(): (r: nat)
      reads this, slots
      requires Valid()
      ensures r <= |questions|
      ensures r == |CorrectPositions(questions, Answers())|
    {
      MarksCountsCorrect(questions, slots[..]);
      Marks(questions, slots[..])
    }

    /** "Submit Quiz": one results line per question, the marks and the percentage. */
    method Submit() returns (marks: nat, report: seq<Verdict>, percentage: real)
      requires Valid() && |questions| > 0
      requires CorrectKeysListed(questions)
      ensures marks == Score()
      ensures |report| == |questions|
      ensures forall i :: 0 <= i < |questions| ==> report[i] == VerdictFor(questions[i], slots[i])
      ensures forall i :: 0 <= i < |questions| ==> (report[i].isCorrect <==> i in CorrectPositions(questions, Answers()))
      ensures percentage == Percentage(marks, |questions|)
    {
      marks, report, percentage := Grade(questions, slots[..]);
      MarksCountsCorrect(questions, slots[..]);
    }
  }
}
