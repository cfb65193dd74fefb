/**
 * The three-step import dialog: content is given (files or text), processed
 * while a progress bar fills in steps of 10, a learning method is chosen,
 * and on the last step the import is handed over and the dialog starts over.
 */
module ImportDialog {
  import opened Opt
  import opened Text
  import ImportPanel

  type FileInfo = ImportPanel.FileInfo

  /** What the dialog hands over: text when the text method is chosen, otherwise the files. */
  datatype ImportContent = TextContent(text: string) | FileContent(files: seq<FileInfo>)
  datatype ImportResult = ImportResult(learningMethod: string, content: ImportContent)

  const DefaultTitleText := "New Learning Content"

  /** The tabs of step 1. */
  const ImportMethods := ["file", "text", "media"]

  /** The learning methods offered on step 2. */
  const SuggestedMethods := ["flashcards", "notes", "quiz"]

  /**
   * `isStepValid`: on step 1 the file method needs a file and the text method
   * text that is not all white space, any other method never passes; later
   * steps always pass.
   */
  predicate StepValid(step: int, importMethod: string, files: seq<FileInfo>, text: string)
  {
    if step == 1 then
      if importMethod == "file" then |files| > 0
      else if importMethod == "text" then |Trim(text)| > 0
      else false
    else true
  }

  /** On step 1 the text method passes exactly when the text has a character that is not white space. */
  lemma TextStepValid(files: seq<FileInfo>, text: string)
    ensures StepValid(1, "text", files, text) <==> !AllSpace(text)
  {
    TrimEmptyIffAllSpace(text);
  }

  /** The title field's default: the first file's name up to its first dot, or "New Learning Content". */
  function DefaultTitle(files: seq<FileInfo>): (title: string)
    ensures files == [] ==> title == DefaultTitleText
    ensures files != [] ==> '.' !in title && title <= files[0].name
    ensures files != [] && '.' in files[0].name ==> files[0].name[|title|] == '.'
  {
    if |files| > 0 then FirstSegment(files[0].name, '.') else DefaultTitleText
  }

  /** A name without a dot is its own default title. */
  lemma DefaultTitleNoDot(f: FileInfo, rest: seq<FileInfo>)
    requires '.' !in f.name
    ensures DefaultTitle([f] + rest) == f.name
  {
    IndexOfAbsent(f.name, '.');
  }

  class Dialog {
    var step: int
    var importMethod: string
    var files: seq<FileInfo>
    var textContent: string
    var isProcessing: bool
    var processingProgress: int
    var selectedMethod: string

    /**
     * Between two handler runs the step is 1, 2 or 3, nothing is processing
     * and the progress is a multiple of 10 between 0 and 100. The method is
     * one of the three tabs and the learning method one of the suggested
     * ones; past step 1 the content given on step 1 still passes its check,
     * since the controls that change it are shown on step 1 only.
     */
    predicate Valid()
      reads this
    {
      1 <= step <= 3 && !isProcessing
      && 0 <= processingProgress <= 100 && processingProgress % 10 == 0
      && importMethod in ImportMethods && selectedMethod in SuggestedMethods
      && (step > 1 ==> StepValid(1, importMethod, files, textContent))
    }

    constructor()
      ensures Valid() && step == 1 && importMethod == "file" && files == [] && textContent == ""
      ensures processingProgress == 0 && selectedMethod == "flashcards"
    {
      step := 1;
      importMethod := "file";
      files := [];
      textContent := "";
      isProcessing := false;
      processingProgress := 0;
      selectedMethod := "flashcards";
    }

    /** Whether the Continue button is enabled. */
    predicate CanContinue()
      reads this
    {
      StepValid(step, importMethod, files, textContent) && !isProcessing
    }

    /** A drop or a file choice replaces the files when it holds at least one file. */
    method ChooseFiles(chosen: seq<FileInfo>)
      requires Valid()
      modifies this
      ensures Valid()
      ensures files == (if chosen == [] then old(files) else chosen)
      ensures step == old(step) && textContent == old(textContent) && importMethod == old(importMethod)
      ensures processingProgress == old(processingProgress) && selectedMethod == old(selectedMethod)
    {
      if |chosen| > 0 {
        files := chosen;
      }
    }

    /** `setImportMethod`: picking a tab on step 1 changes the method and nothing else. */
    method ChangeImportMethod(m: string)
      requires Valid() && step == 1 && m in ImportMethods
      modifies this
      ensures Valid() && importMethod == m
      ensures step == old(step) && files == old(files) && textContent == old(textContent)
      ensures processingProgress == old(processingProgress) && selectedMethod == old(selectedMethod)
    {
      importMethod := m;
    }

    /** `handleTextChange`: typing on step 1 replaces the text and nothing else. */
    method ChangeText(value: string)
      requires Valid() && step == 1
      modifies this
      ensures Valid() && textContent == value
      ensures step == old(step) && files == old(files) && importMethod == old(importMethod)
      ensures processingProgress == old(processingProgress) && selectedMethod == old(selectedMethod)
    {
      textContent := value;
    }

    /** `setSelectedMethod`: clicking a suggested method's card on step 2 chooses it. */
    method ChooseMethod(m: string)
      requires Valid() && step == 2 && m in SuggestedMethods
      modifies this
      ensures Valid() && selectedMethod == m
      ensures step == old(step) && files == old(files) && textContent == old(textContent)
      ensures importMethod == old(importMethod) && processingProgress == old(processingProgress)
    {
      selectedMethod := m;
    }

    /**
     * `handleContinue`, behind the Continue button, which is disabled unless
     * the step is valid and nothing is processing: then nothing happens.
     * Step 1 runs the processing ticks: each tick adds 10 until a tick finds
     * the progress at 100, which ends processing and moves to step 2. Step 2
     * moves to step 3. Step 3 hands over the chosen method with the text or
     * the files and resets step, files, text and progress.
     */
    method Continue() returns (handed: Option<ImportResult>)
      requires Valid()
      modifies this
      ensures Valid()
      ensures importMethod == old(importMethod) && selectedMethod == old(selectedMethod)
      ensures !old(CanContinue()) ==>
        handed == None && step == old(step) && processingProgress == old(processingProgress)
        && files == old(files) && textContent == old(textContent)
      ensures old(CanContinue()) && old(step) == 1 ==>
        step == 2 && processingProgress == 100 && handed == None
        && files == old(files) && textContent == old(textContent)
      ensures old(CanContinue()) && old(step) == 2 ==>
        step == 3 && processingProgress == old(processingProgress) && handed == None
        && files == old(files) && textContent == old(textContent)
      ensures old(CanContinue()) && old(step) == 3 ==>
        handed == Some(ImportResult(old(selectedMethod),
                                    if old(importMethod) == "text" then TextContent(old(textContent))
                                    else FileContent(old(files))))
        && step == 1 && files == [] && textContent == "" && processingProgress == 0
      ensures handed.Some? ==> handed.value.learningMethod in SuggestedMethods
      ensures handed.Some? && handed.value.content.FileContent? ==> handed.value.content.files != []
      ensures handed.Some? && handed.value.content.TextContent? ==> !AllSpace(handed.value.content.text)
    {
      handed := None;
      if !CanContinue() {
        return;
      }
      if step == 1 {
        isProcessing := true;
        while isProcessing
          invariant 0 <= processingProgress <= 100 && processingProgress % 10 == 0
          invariant isProcessing ==> step == 1
          invariant !isProcessing ==> step == 2 && processingProgress == 100
          invariant files == old(files) && textContent == old(textContent)
          invariant importMethod == old(importMethod) && selectedMethod == old(selectedMethod)
          invariant StepValid(1, importMethod, files, textContent)
          decreases 100 - processingProgress, isProcessing
        {
          if processingProgress >= 100 {
            isProcessing := false;
            step := 2;
            processingProgress := 100;
          } else {
            processingProgress := processingProgress + 10;
          }
        }
      } else if step == 2 {
        step := 3;
      } else {
        if importMethod == "text" {
          TextStepValid(files, textContent);
        }
        var content := if importMethod == "text" then TextContent(textContent) else FileContent(files);
        handed := Some(ImportResult(selectedMethod, content));
        step := 1;
        files := [];
        textContent := "";
        processingProgress := 0;
      }
    }

    /** The Back button, shown only past step 1 while nothing is processing. */
    method Back()
      requires Valid()
      modifies this
      ensures Valid()
      ensures step == (if old(step) > 1 then old(step) - 1 else old(step))
      ensures files == old(files) && textContent == old(textContent) && importMethod == old(importMethod)
      ensures processingProgress == old(processingProgress) && selectedMethod == old(selectedMethod)
    {
      if step > 1 && !isProcessing {
        step := step - 1;
      }
    }
  }
}
