/** A client of the model: one session from pasted text to a scored quiz. */
module Walkthrough {
  import opened Wrappers
  import Quiz
  import Session

  const Pasted: string := "Photosynthesis converts light into chemical energy."

  const Photosynthesis: Quiz.Question := Quiz.Question(
    "What does photosynthesis convert?",
    [Quiz.Choice("a", "Heat"), Quiz.Choice("b", "Light into chemical energy"),
     Quiz.Choice("c", "Sound"), Quiz.Choice("d", "Mass")],
    "b")

  /** Paste text, press Generate and receive one question: the question is shown and stored. */
  method PasteAndGenerate() returns (s: Session.Session)
    ensures fresh(s) && s.Valid()
    ensures s.materialGenerated && s.questions == [Photosynthesis]
  {
    s := new Session.Session();
    s.UsePastedText(None, Pasted);
    var notice := s.PressGenerate();
    assert notice.None? && s.materialGenerated;
    var shown;
    notice, shown := s.ReceiveQuestions([Photosynthesis]);
  }

  /** The radio texts "Sound" and "Light into chemical energy" record the keys c and b. */
  lemma KeysOfChoices()
    ensures Quiz.HasText(Photosynthesis, "Sound") && Quiz.KeyOfChoice(Photosynthesis, "Sound") == "c"
    ensures Quiz.HasText(Photosynthesis, "Light into chemical energy")
            && Quiz.KeyOfChoice(Photosynthesis, "Light into chemical energy") == "b"
  {
    assert Photosynthesis.options[2].text == "Sound";
    assert Quiz.IndexOfText(Photosynthesis.options, "Sound") == 2;
    assert Photosynthesis.options[1].text == "Light into chemical energy";
    assert Quiz.IndexOfText(Photosynthesis.options, "Light into chemical energy") == 1;
  }

  /** Pick "Sound" and then the right answer: the later pick replaces the earlier one. */
  method PickTwice(sheet: Quiz.AnswerSheet)
    requires sheet.Valid() && sheet.questions == [Photosynthesis]
    modifies sheet.slots
    ensures sheet.Valid() && sheet.Answers() == [Some("b")]
  {
    KeysOfChoices();
    sheet.Select(0, "Sound");
    assert sheet.Answers() == [Some("c")];
    sheet.Select(0, "Light into chemical energy");
  }

  /** Answer the one question after a wrong first pick and submit: 1 out of 1, 100%. */
  method LaterPickWins(qs: seq<Quiz.Question>) returns (marks: nat, total: nat, percentage: real)
    requires qs == [Photosynthesis]
    ensures marks == 1 && total == 1 && percentage == 100.0
  {
    var sheet := new Quiz.AnswerSheet(qs);
    PickTwice(sheet);
    assert Quiz.CorrectKeysListed(sheet.questions) by {
      assert Photosynthesis.options[1].key == "b";
    }
    var report;
    marks, report, percentage := sheet.Submit();
    total := |sheet.questions|;
    assert Quiz.Marks(sheet.questions, sheet.Answers()) == 1 by {
      Quiz.MarksFull(sheet.questions, sheet.Answers());
    }
  }

  /** The whole session: paste, generate, answer and submit. */
  method PastedTextToFullMarks() returns (marks: nat, total: nat, percentage: real)
    ensures marks == 1 && total == 1 && percentage == 100.0
  {
    var s := PasteAndGenerate();
    marks, total, percentage := LaterPickWins(s.questions);
  }
}
