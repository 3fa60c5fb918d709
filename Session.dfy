/** The session fields that `main` (main.py) reads and writes on every run of the page:
    `content`, `content_processed` and `material_generated`, plus the generated items it
    stores. The widgets' values on a run (the uploaded file, the pasted text, whether the
    Generate button was pressed) and the items the generation call returned are parameters. */
module Session {
  import opened Wrappers
  import PdfText
  import Quiz
  import Exercises
  import Generation

  /** An uploaded file: its name and the text the PDF library extracts from each page. */
  datatype Upload = Upload(name: string, pages: seq<string>)

  datatype Mode = MultipleChoiceQuiz | ProgrammingExercises

  /** The success and error messages the page shows. `ParseFailed` is the message the fetch
      functions show when the completion is not valid JSON. */
  datatype Notice = PdfProcessed | ExtractionFailed | MissingContent | ParseFailed | GenerationFailed

  /** `material_generated`, `content_processed` and `content` (None while unset). */
  datatype Flags = Flags(materialGenerated: bool, contentProcessed: Option<string>, content: Option<string>)

  /** What the values of one run of `main` that touch the flags are: the upload, the pasted
      text, the Generate button, and how many items the generation call returned. */
  datatype RunInput = RunInput(upload: Option<Upload>, pasted: string, generatePressed: bool, fetchedCount: nat)

  /** A run of the page, or a click on "Create New Learning Material". */
  datatype Event = Run(input: RunInput) | NewMaterial

  /** The flags at the start of a session. */
  const Initial: Flags := Flags(false, None, None)

  /** What every reachable session satisfies: stored content is never empty, a processed
      file name implies stored content, and material is only marked generated with content. */
  predicate Consistent(f: Flags)
  {
    (f.content.Some? ==> f.content.value != "") &&
    (f.contentProcessed.Some? ==> f.content.Some?) &&
    (f.materialGenerated ==> f.content.Some?)
  }

  /** The uploaded file is (re)extracted unless it is the one last processed. */
  predicate NeedsExtraction(f: Flags, upload: Option<Upload>)
  {
    upload.Some? && f.contentProcessed != Some(upload.value.name)
  }

  /** The upload step: the file's text replaces the content, and its name is remembered,
      only when the text is not blank after stripping. */
  function AfterUpload(f: Flags, upload: Option<Upload>): (g: Flags)
    ensures g.materialGenerated == f.materialGenerated
    ensures g != f <==> NeedsExtraction(f, upload) && !PdfText.IsBlank(PdfText.JoinPages(upload.value.pages))
    ensures g != f ==> g.content == Some(PdfText.JoinPages(upload.value.pages))
                       && g.contentProcessed == Some(upload.value.name)
    ensures Consistent(f) ==> Consistent(g)
  {
    if NeedsExtraction(f, upload) then
      var text := PdfText.JoinPages(upload.value.pages);
      if PdfText.Strip(text) != "" then
        f.(content := Some(text), contentProcessed := Some(upload.value.name))
      else f
    else f
  }

  /** The paste step: pasted text replaces the content only when no file is uploaded. */
  function AfterPaste(f: Flags, upload: Option<Upload>, pasted: string): (g: Flags)
    ensures g.materialGenerated == f.materialGenerated && g.contentProcessed == f.contentProcessed
    ensures g.content == if upload.None? && pasted != "" then Some(pasted) else f.content
    ensures Consistent(f) ==> Consistent(g)
  {
    if upload.None? && pasted != "" then f.(content := Some(pasted)) else f
  }

  /** The Generate button: with content present, material is marked generated and the
      processed file name is cleared; without content nothing changes. */
  function AfterGenerate(f: Flags): (g: Flags)
    ensures g.content == f.content
    ensures g.materialGenerated <==> f.materialGenerated || (f.content.Some? && f.content.value != "")
    ensures f.content.None? || f.content.value == "" ==> g == f
    ensures f.content.Some? && f.content.value != "" ==> g.contentProcessed.None?
    ensures Consistent(f) ==> Consistent(g)
  {
    if f.content.None? || f.content.value == "" then f
    else f.(materialGenerated := true, contentProcessed := None)
  }

  /** Whether a run calls the generation function. */
  predicate Attempts(f: Flags)
  {
    f.materialGenerated && f.content.Some?
  }

  /** The generation step: an empty item list resets `material_generated`; otherwise the
      flags are left as they are. */
  function AfterFetch(f: Flags, fetchedCount: nat): (g: Flags)
    ensures g.content == f.content && g.contentProcessed == f.contentProcessed
    ensures g.materialGenerated <==> f.materialGenerated && (!Attempts(f) || fetchedCount > 0)
    ensures Consistent(f) ==> Consistent(g)
  {
    if Attempts(f) && fetchedCount == 0 then f.(materialGenerated := false) else f
  }

  /** "Create New Learning Material": material is no longer marked generated. */
  function AfterNewMaterial(f: Flags): (g: Flags)
    ensures !g.materialGenerated && g.content == f.content && g.contentProcessed == f.contentProcessed
    ensures Consistent(f) ==> Consistent(g)
  {
    f.(materialGenerated := false)
  }

  /** The flags once the upload and paste steps of a run are done, before the Generate button. */
  function BeforeGenerate(f: Flags, upload: Option<Upload>, pasted: string): (g: Flags)
    ensures g.materialGenerated == f.materialGenerated
    ensures Consistent(f) ==> Consistent(g)
  {
    AfterPaste(AfterUpload(f, upload), upload, pasted)
  }

  /** One run of `main`: upload, paste, Generate button, generation, in that order. On a
      consistent session, material ends up marked generated exactly when it was already, or
      Generate was pressed, with content present after the upload and paste steps and items
      returned by the generation call. */
  function Rerun(f: Flags, r: RunInput): (g: Flags)
    ensures Consistent(f) ==> Consistent(g)
    ensures g.content == BeforeGenerate(f, r.upload, r.pasted).content
    ensures f.content.Some? ==> g.content.Some?
    ensures Consistent(f) ==>
              (g.materialGenerated <==> (f.materialGenerated || r.generatePressed)
                                        && g.content.Some? && r.fetchedCount > 0)
    ensures Consistent(f) && r.generatePressed && g.content.Some? ==> g.contentProcessed.None?
    ensures !r.generatePressed ==> g.contentProcessed == AfterUpload(f, r.upload).contentProcessed
  {
    var f2 := BeforeGenerate(f, r.upload, r.pasted);
    var f3 := if r.generatePressed then AfterGenerate(f2) else f2;
    AfterFetch(f3, r.fetchedCount)
  }

  function Apply(f: Flags, e: Event): Flags
  {
    match e
    case Run(r) => Rerun(f, r)
    case NewMaterial => AfterNewMaterial(f)
  }

  /** The flags after a sequence of events. */
  function ApplyAll(f: Flags, events: seq<Event>): Flags
  {
    if events == [] then f else Apply(ApplyAll(f, events[..|events| - 1]), events[|events| - 1])
  }

  /** Every session reachable from the start is consistent. */
  lemma {:induction false} ReachableConsistent(events: seq<Event>)
    ensures Consistent(ApplyAll(Initial, events))
  {
    if events != [] {
      ReachableConsistent(events[..|events| - 1]);
    }
  }

  /** Once content is stored it is never removed, only replaced. */
  lemma {:induction false} ContentNeverCleared(f: Flags, events: seq<Event>)
    requires f.content.Some?
    ensures ApplyAll(f, events).content.Some?
  {
    if events != [] {
      ContentNeverCleared(f, events[..|events| - 1]);
    }
  }

  /** With a file uploaded, the paste step never applies: a run leaves either the old content
      or the file's text. */
  lemma UploadTakesPrecedence(f: Flags, r: RunInput)
    requires r.upload.Some?
    ensures Rerun(f, r).content == f.content || Rerun(f, r).content == Some(PdfText.JoinPages(r.upload.value.pages))
  {
  }

  /** A file whose name is the one last processed is not read again: its run keeps whatever
      content is stored, even content that was pasted after that file was processed. */
  lemma SameNameSkipsExtraction(f: Flags, r: RunInput)
    requires r.upload.Some? && f.contentProcessed == Some(r.upload.value.name)
    ensures AfterUpload(f, r.upload) == f
    ensures Rerun(f, r).content == f.content
  {
  }

  /** Upload a file, remove it and paste other text, upload the same file again: the pasted
      text stays the content, because the name recorded by the first upload skips extraction. */
  lemma StaleContentAfterReupload()
    ensures var file := Upload("notes.pdf", ["Cells divide."]);
            var events := [Run(RunInput(Some(file), "", false, 0)),
                           Run(RunInput(None, "Rivers erode valleys.", false, 0)),
                           Run(RunInput(Some(file), "", false, 0))];
            ApplyAll(Initial, events).content == Some("Rivers erode valleys.")
            && ApplyAll(Initial, events[..1]).content == Some(PdfText.JoinPages(file.pages))
  {
    var file := Upload("notes.pdf", ["Cells divide."]);
    var events := [Run(RunInput(Some(file), "", false, 0)),
                   Run(RunInput(None, "Rivers erode valleys.", false, 0)),
                   Run(RunInput(Some(file), "", false, 0))];
    var text := PdfText.JoinPages(file.pages);
    assert text == "Cells divide.\n";
    assert !PdfText.IsSpace(text[0]);
    var f1 := Rerun(Initial, events[0].input);
    assert f1 == Flags(false, Some("notes.pdf"), Some(text));
    assert events[..1] == [events[0]] && events[..1][..0] == [];
    assert ApplyAll(Initial, events[..1]) == f1;
    var f2 := Rerun(f1, events[1].input);
    assert f2 == Flags(false, Some("notes.pdf"), Some("Rivers erode valleys."));
    assert events[..2] == [events[0], events[1]] && events[..2][..1] == events[..1];
    assert ApplyAll(Initial, events[..2]) == f2;
    SameNameSkipsExtraction(f2, events[2].input);
    assert events[..3] == events;
  }

  /** A run with neither a file nor pasted text, on a session without content, changes
      nothing, whether or not Generate is pressed. */
  lemma NoContentNoMaterial(f: Flags, r: RunInput)
    requires Consistent(f) && f.content.None? && r.upload.None? && r.pasted == ""
    ensures Rerun(f, r) == f
  {
  }

  /** A run that presses Generate with content and gets items back leaves material marked
      generated, and the next run extracts the still-uploaded file again. */
  lemma GenerateWithContentSucceeds(f: Flags, r: RunInput, next: Upload)
    requires Consistent(f) && r.generatePressed && r.fetchedCount > 0
    requires AfterPaste(AfterUpload(f, r.upload), r.upload, r.pasted).content.Some?
    ensures Rerun(f, r).materialGenerated
    ensures NeedsExtraction(Rerun(f, r), Some(next))
  {
    var f2 := AfterPaste(AfterUpload(f, r.upload), r.upload, r.pasted);
    assert Consistent(f2);
  }

  /** A completion that is not valid JSON, or lacks the expected array, makes the run end
      with material not marked generated. */
  lemma ParseFailureResets<T>(f: Flags, parsed: Generation.Parsed<T>, field: string)
    requires Attempts(f)
    requires parsed.DecodeError? || field !in parsed.fields
    ensures !AfterFetch(f, |Generation.ItemsOrEmpty(parsed, field)|).materialGenerated
  {
  }

  /** A notice as the messages it adds to the page: none or one. */
  function Listed(n: Option<Notice>): (s: seq<Notice>)
    ensures n.None? ==> s == []
    ensures n.Some? ==> s == [n.value]
  {
    if n.Some? then [n.value] else []
  }

  /** The message of the PDF step: none when the file is not extracted, else success or
      failure by whether the extracted text is blank. */
  function UploadNotice(f: Flags, upload: Option<Upload>): Option<Notice>
  {
    if !NeedsExtraction(f, upload) then None
    else if PdfText.IsBlank(PdfText.JoinPages(upload.value.pages)) then Some(ExtractionFailed)
    else Some(PdfProcessed)
  }

  /** The messages after the PDF step, in order: missing content, the parse failure shown
      by the fetch function, and the failure to generate. */
  function LaterNotices(missing: bool, parseFailed: bool, generationFailed: bool): (s: seq<Notice>)
    ensures MissingContent in s <==> missing
    ensures ParseFailed in s <==> parseFailed
    ensures GenerationFailed in s <==> generationFailed
    ensures PdfProcessed !in s && ExtractionFailed !in s
    ensures missing ==> |s| <= 1 + (if parseFailed || generationFailed then 2 else 0)
    ensures !missing ==> |s| <= 2
  {
    (if missing then [MissingContent] else [])
    + (if parseFailed then [ParseFailed] else [])
    + (if generationFailed then [GenerationFailed] else [])
  }

  /** The messages of one run, in the order the page shows them, given whether the
      completion failed to decode and whether the fetch returned no items. On a consistent
      session each appears exactly in the situation the code guards it with. */
  function RunNotices(f: Flags, upload: Option<Upload>, pasted: string, generatePressed: bool,
                      decodeFailed: bool, fetchedNone: bool): (s: seq<Notice>)
    requires Consistent(f)
    ensures PdfProcessed in s <==>
              NeedsExtraction(f, upload) && !PdfText.IsBlank(PdfText.JoinPages(upload.value.pages))
    ensures ExtractionFailed in s <==>
              NeedsExtraction(f, upload) && PdfText.IsBlank(PdfText.JoinPages(upload.value.pages))
    ensures MissingContent in s <==> generatePressed && BeforeGenerate(f, upload, pasted).content.None?
    ensures ParseFailed in s <==>
              (f.materialGenerated || generatePressed) && BeforeGenerate(f, upload, pasted).content.Some? && decodeFailed
    ensures GenerationFailed in s <==>
              (f.materialGenerated || generatePressed) && BeforeGenerate(f, upload, pasted).content.Some? && fetchedNone
    ensures |s| <= 3
  {
    var ready := BeforeGenerate(f, upload, pasted).content.Some?;
    var attempted := (f.materialGenerated || generatePressed) && ready;
    var pdf := Listed(UploadNotice(f, upload));
    var later := LaterNotices(generatePressed && !ready, attempted && decodeFailed, attempted && fetchedNone);
    assert forall m :: m in pdf + later <==> m in pdf || m in later;
    pdf + later
  }

  /** The place of a message on the page: the PDF step's message first, then the Generate
      button's, then the fetch function's, then the failure to generate. */
  function Rank(n: Notice): nat
  {
    match n
    case PdfProcessed => 0
    case ExtractionFailed => 0
    case MissingContent => 1
    case ParseFailed => 2
    case GenerationFailed => 3
  }

  /** The messages after the PDF step come in page order, none of them a PDF message. */
  lemma LaterNoticesOrdered(missing: bool, parseFailed: bool, generationFailed: bool)
    ensures var s := LaterNotices(missing, parseFailed, generationFailed);
            forall i, j :: 0 <= i < j < |s| ==> 0 < Rank(s[i]) < Rank(s[j])
  {
  }

  /** At most one message of rank 0 followed by messages of strictly increasing positive rank
      are in strictly increasing rank. */
  lemma RankedAfterFirst(first: seq<Notice>, rest: seq<Notice>)
    requires |first| <= 1 && forall i :: 0 <= i < |first| ==> Rank(first[i]) == 0
    requires forall i, j :: 0 <= i < j < |rest| ==> Rank(rest[i]) < Rank(rest[j])
    requires forall i :: 0 <= i < |rest| ==> 0 < Rank(rest[i])
    ensures forall i, j :: 0 <= i < j < |first + rest| ==> Rank((first + rest)[i]) < Rank((first + rest)[j])
  {
  }

  /** The PDF step's message, if any, followed by the later messages, is in page order. */
  lemma NoticeListOrdered(upload: Option<Notice>, missing: bool, parseFailed: bool, generationFailed: bool)
    requires upload.None? || upload == Some(PdfProcessed) || upload == Some(ExtractionFailed)
    ensures var s := Listed(upload) + LaterNotices(missing, parseFailed, generationFailed);
            forall i, j :: 0 <= i < j < |s| ==> Rank(s[i]) < Rank(s[j])
  {
    var first := Listed(upload);
    var rest := LaterNotices(missing, parseFailed, generationFailed);
    LaterNoticesOrdered(missing, parseFailed, generationFailed);
    assert forall i :: 0 <= i < |first| ==> Rank(first[i]) == 0;
    assert forall i :: 0 <= i < |rest| ==> 0 < Rank(rest[i]) by {
      forall i | 0 <= i < |rest| ensures 0 < Rank(rest[i]) {
        assert rest[i] in rest;
      }
    }
    RankedAfterFirst(first, rest);
  }

  /** The messages of a run are the PDF step's message followed by the later ones. */
  lemma RunNoticesSplit(f: Flags, upload: Option<Upload>, pasted: string, generatePressed: bool,
                        decodeFailed: bool, fetchedNone: bool)
    requires Consistent(f)
    ensures var ready := BeforeGenerate(f, upload, pasted).content.Some?;
            var attempted := (f.materialGenerated || generatePressed) && ready;
            RunNotices(f, upload, pasted, generatePressed, decodeFailed, fetchedNone)
            == Listed(UploadNotice(f, upload))
               + LaterNotices(generatePressed && !ready, attempted && decodeFailed, attempted && fetchedNone)
  {
  }

  /** The messages of a run come in the order the page shows them, each at most once. */
  lemma RunNoticesOrdered(f: Flags, upload: Option<Upload>, pasted: string, generatePressed: bool,
                          decodeFailed: bool, fetchedNone: bool)
    requires Consistent(f)
    ensures var s := RunNotices(f, upload, pasted, generatePressed, decodeFailed, fetchedNone);
            forall i, j :: 0 <= i < j < |s| ==> Rank(s[i]) < Rank(s[j])
  {
    var ready := BeforeGenerate(f, upload, pasted).content.Some?;
    var attempted := (f.materialGenerated || generatePressed) && ready;
    RunNoticesSplit(f, upload, pasted, generatePressed, decodeFailed, fetchedNone);
    NoticeListOrdered(UploadNotice(f, upload), generatePressed && !ready, attempted && decodeFailed, attempted && fetchedNone);
  }

  /** On an attempted run, an undecodable completion shows the fetch function's parse message
      and then the failure to generate, as the last two messages of the run. */
  lemma DecodeErrorShowsBothMessages(f: Flags, upload: Option<Upload>, pasted: string, generatePressed: bool)
    requires Consistent(f)
    requires (f.materialGenerated || generatePressed) && BeforeGenerate(f, upload, pasted).content.Some?
    ensures var s := RunNotices(f, upload, pasted, generatePressed, true,
                                Generation.FetchQuestions(Generation.DecodeError) == []);
            |s| >= 2 && s[|s| - 2..] == [ParseFailed, GenerationFailed]
  {
    var s := RunNotices(f, upload, pasted, generatePressed, true, true);
    var pdf := Listed(UploadNotice(f, upload));
    assert s == pdf + [ParseFailed, GenerationFailed];
  }

  /** The session state (`st.session_state`). */
  class Session {
    var materialGenerated: bool
    var contentProcessed: Option<string>
    var content: Option<string>
    var questions: seq<Quiz.Question>
    var exercises: seq<Exercises.Exercise>

    function State(): Flags
      reads this
    {
      Flags(materialGenerated, contentProcessed, content)
    }

    ghost predicate Valid()
      reads this
    {
      Consistent(State())
    }

    /** The first run's initialisation: not generated, nothing processed, no content. */
    constructor ()
      ensures Valid() && State() == Initial
      ensures questions == [] && exercises == []
    {
      materialGenerated, contentProcessed, content := false, None, None;
      questions, exercises := [], [];
    }

    /** The PDF step of `main`. */
    method ProcessUpload(upload: Option<Upload>) returns (notice: Option<Notice>)
      requires Valid()
      modifies this
      ensures Valid() && State() == AfterUpload(old(State()), upload)
      ensures questions == old(questions) && exercises == old(exercises)
      ensures notice == UploadNotice(old(State()), upload)
    {
      notice := None;
      if upload.Some? && contentProcessed != Some(upload.value.name) {
        var text := PdfText.ExtractText(upload.value.pages);
        if PdfText.Strip(text) != "" {
          content := Some(text);
          contentProcessed := Some(upload.value.name);
          notice := Some(PdfProcessed);
        } else {
          notice := Some(ExtractionFailed);
        }
      }
    }

    /** The pasted-text step of `main`. */
    method UsePastedText(upload: Option<Upload>, pasted: string)
      requires Valid()
      modifies this
      ensures Valid() && State() == AfterPaste(old(State()), upload, pasted)
      ensures questions == old(questions) && exercises == old(exercises)
    {
      if upload.None? && pasted != "" {
        content := Some(pasted);
      }
    }

    /** A press of "Generate Learning Material". */
    method PressGenerate() returns (notice: Option<Notice>)
      requires Valid()
      modifies this
      ensures Valid() && State() == AfterGenerate(old(State()))
      ensures questions == old(questions) && exercises == old(exercises)
      ensures notice == Some(MissingContent) <==> old(content).None?
      ensures notice.None? <==> old(content).Some?
    {
      if content.None? || content.value == "" {
        notice := Some(MissingContent);
      } else {
        notice := None;
        materialGenerated := true;
        contentProcessed := None;
      }
    }

    /** The quiz branch of the generation step, given what `fetch_questions` returned. The
        quiz is shown only with a non-empty list, which is then stored. */
    method ReceiveQuestions(fetched: seq<Quiz.Question>) returns (notice: Option<Notice>, showQuiz: bool)
      requires Valid()
      modifies this
      ensures Valid() && State() == AfterFetch(old(State()), |fetched|)
      ensures showQuiz <==> Attempts(old(State())) && fetched != []
      ensures notice == Some(GenerationFailed) <==> Attempts(old(State())) && fetched == []
      ensures notice.None? || notice == Some(GenerationFailed)
      ensures questions == (if showQuiz then fetched else old(questions)) && exercises == old(exercises)
      ensures showQuiz ==> |questions| > 0
    {
      notice, showQuiz := None, false;
      if materialGenerated && content.Some? {
        if fetched == [] {
          notice := Some(GenerationFailed);
          materialGenerated := false;
        } else {
          questions := fetched;
          showQuiz := true;
        }
      }
    }

    /** The exercise branch of the generation step, given what `fetch_coding_exercises` returned. */
    method ReceiveExercises(fetched: seq<Exercises.Exercise>) returns (notice: Option<Notice>, showExercises: bool)
      requires Valid()
      modifies this
      ensures Valid() && State() == AfterFetch(old(State()), |fetched|)
      ensures showExercises <==> Attempts(old(State())) && fetched != []
      ensures notice == Some(GenerationFailed) <==> Attempts(old(State())) && fetched == []
      ensures notice.None? || notice == Some(GenerationFailed)
      ensures exercises == (if showExercises then fetched else old(exercises)) && questions == old(questions)
    {
      notice, showExercises := None, false;
      if materialGenerated && content.Some? {
        if fetched == [] {
          notice := Some(GenerationFailed);
          materialGenerated := false;
        } else {
          exercises := fetched;
          showExercises := true;
        }
      }
    }

    /** One run of `main`, steps in order, given the parse outcome of the completion for
        each mode; the notices shown are collected in order. The items of the selected mode
        are shown, and stored, exactly when generation is attempted and returns some; the
        other mode's items are untouched. */
    method RunPage(mode: Mode, upload: Option<Upload>, pasted: string, generatePressed: bool,
                   parsedQuestions: Generation.Parsed<Quiz.Question>,
                   parsedExercises: Generation.Parsed<Exercises.Exercise>)
      returns (notices: seq<Notice>, shown: bool)
      requires Valid()
      modifies this
      ensures Valid()
      ensures State() == Rerun(old(State()), RunInput(upload, pasted, generatePressed,
                          if mode == MultipleChoiceQuiz then |Generation.FetchQuestions(parsedQuestions)|
                          else |Generation.FetchExercises(parsedExercises)|))
      ensures shown <==> (old(materialGenerated) || generatePressed)
                         && BeforeGenerate(old(State()), upload, pasted).content.Some?
                         && (if mode == MultipleChoiceQuiz then Generation.FetchQuestions(parsedQuestions) != []
                             else Generation.FetchExercises(parsedExercises) != [])
      ensures mode == MultipleChoiceQuiz ==>
                questions == (if shown then Generation.FetchQuestions(parsedQuestions) else old(questions))
                && exercises == old(exercises)
      ensures mode == ProgrammingExercises ==>
                exercises == (if shown then Generation.FetchExercises(parsedExercises) else old(exercises))
                && questions == old(questions)
      ensures mode == MultipleChoiceQuiz && shown ==> |questions| > 0
      ensures notices == RunNotices(old(State()), upload, pasted, generatePressed,
                                    if mode == MultipleChoiceQuiz then parsedQuestions.DecodeError?
                                    else parsedExercises.DecodeError?,
                                    if mode == MultipleChoiceQuiz then Generation.FetchQuestions(parsedQuestions) == []
                                    else Generation.FetchExercises(parsedExercises) == [])
    {
      ghost var f0 := State();
      var uploadNotice := ProcessUpload(upload);
      UsePastedText(upload, pasted);
      ghost var f2 := State();
      assert f2 == BeforeGenerate(f0, upload, pasted);
      var generateNotice := None;
      if generatePressed {
        generateNotice := PressGenerate();
      }
      var attempted := materialGenerated && content.Some?;
      assert attempted <==> (f0.materialGenerated || generatePressed) && f2.content.Some?;
      var decodeFailed, fetchNotice;
      if mode == MultipleChoiceQuiz {
        decodeFailed := parsedQuestions.DecodeError?;
        fetchNotice, shown := ReceiveQuestions(Generation.FetchQuestions(parsedQuestions));
      } else {
        decodeFailed := parsedExercises.DecodeError?;
        fetchNotice, shown := ReceiveExercises(Generation.FetchExercises(parsedExercises));
      }
      assert generateNotice.Some? <==> generatePressed && f2.content.None?;
      assert fetchNotice.Some? <==> attempted && (if mode == MultipleChoiceQuiz then Generation.FetchQuestions(parsedQuestions) == []
                                                  else Generation.FetchExercises(parsedExercises) == []);
      notices := Listed(uploadNotice) + LaterNotices(generateNotice.Some?, attempted && decodeFailed, fetchNotice.Some?);
    }

    /** "Create New Learning Material". */
    method StartNewMaterial()
      requires Valid()
      modifies this
      ensures Valid() && State() == AfterNewMaterial(old(State()))
      ensures questions == old(questions) && exercises == old(exercises)
    {
      materialGenerated := false;
    }
  }
}
