/**
 * The home page's learning workflow: content is imported, a learning method
 * is suggested and chosen, material is generated and either opened on the
 * method's study page or scheduled, and the workflow then starts over.
 */
module HomeWorkflow {
  import opened Opt
  import opened Text
  import opened LearningContent
  import ImportPanel
  import ImportDialog
  import ContentGeneration
  import ScheduleSetup

  type FileInfo = ImportPanel.FileInfo
  type Generated = ContentGeneration.Generated

  datatype Step = ImportStep | SuggestStep | GenerateStep | ScheduleStep | CompleteStep

  /** What the workflow knows about the imported content. */
  datatype Imported = Imported(title: string, kind: string)

  /** What an import reports: an optional title and an optional method. */
  datatype ImportData = ImportData(title: Option<string>, methodId: Option<string>)

  const ImportedTitle := "Imported Content"

  /** `handleImportComplete`'s record: absent or empty fields fall back to "Imported Content" and "content". */
  function ImportedOf(data: ImportData): (r: Imported)
    ensures data.title.Some? && data.title.value != "" ==> r.title == data.title.value
    ensures (data.title.None? || data.title.value == "") ==> r.title == ImportedTitle
    ensures data.methodId.Some? && data.methodId.value != "" ==> r.kind == data.methodId.value
    ensures (data.methodId.None? || data.methodId.value == "") ==> r.kind == "content"
  {
    Imported(OrElse(data.title.GetOr(""), ImportedTitle), OrElse(data.methodId.GetOr(""), "content"))
  }

  /** What the import dialog reports: its chosen method and no title. */
  function FromDialog(r: ImportDialog.ImportResult): ImportData
  {
    ImportData(None, Some(r.learningMethod))
  }

  /** An import through the dialog is always titled "Imported Content" and typed by its method. */
  lemma DialogImportTitle(r: ImportDialog.ImportResult)
    ensures ImportedOf(FromDialog(r)).title == ImportedTitle
    ensures r.learningMethod != "" ==> ImportedOf(FromDialog(r)).kind == r.learningMethod
  {
  }

  /** The title of a file import: the first file's name before its first dot, unless that is empty or there is no file. */
  function FileTitle(files: seq<FileInfo>): (title: string)
    ensures files == [] ==> title == ImportedTitle
    ensures files != [] && FirstSegment(files[0].name, '.') != "" ==>
      title == FirstSegment(files[0].name, '.') && '.' !in title && title <= files[0].name
    ensures files != [] && FirstSegment(files[0].name, '.') == "" ==> title == ImportedTitle
  {
    if files == [] then ImportedTitle else OrElse(FirstSegment(files[0].name, '.'), ImportedTitle)
  }

  /** A file whose name has no dot titles the import with its whole name. */
  lemma FileTitleNoDot(f: FileInfo, rest: seq<FileInfo>)
    requires '.' !in f.name && f.name != ""
    ensures FileTitle([f] + rest) == f.name
  {
    IndexOfAbsent(f.name, '.');
  }

  /** The study page each generated kind opens; any other kind opens none. */
  function RouteOfKind(kind: string): (route: Option<string>)
    ensures route.Some? <==> kind in {"flashcards", "quizzes", "gamification", "chatting"}
    ensures kind == "flashcards" ==> route == Some("/flashcards")
    ensures kind == "quizzes" ==> route == Some("/quizzes")
    ensures kind == "gamification" ==> route == Some("/game")
    ensures kind == "chatting" ==> route == Some("/chat")
  {
    match kind
    case "flashcards" => Some("/flashcards")
    case "quizzes" => Some("/quizzes")
    case "gamification" => Some("/game")
    case "chatting" => Some("/chat")
    case _ => None
  }

  /**
   * Generated material opens the same study page as starting the same method
   * from a schedule event, so both routes lead to one page per method.
   */
  lemma GeneratedRouteAgreesWithSchedule(kind: string)
    requires ContentGeneration.MethodOfId(kind).Some?
    ensures RouteOfKind(kind) == Some("/" + MethodName(ContentGeneration.MethodOfId(kind).value))
  {
    assert "/" + "flashcards" == "/flashcards" && "/" + "quizzes" == "/quizzes";
    assert "/" + "game" == "/game" && "/" + "chat" == "/chat";
  }

  /** Where `handleContentGenerated` sends the user, with the material it carries. */
  datatype Navigation = Navigation(route: string, content: Generated)

  datatype HomeState = HomeState(
    showImportDialog: bool, isStudying: bool, currentStudySet: Option<string>,
    isProcessingImport: bool, processingProgress: int, showSchedule: bool,
    importedContent: Option<Imported>, workflowStep: Step, selectedMethod: Option<string>,
    generatedContent: Option<Generated>, scheduleData: Option<seq<ScheduleSetup.Session>>)

  const InitialHome := HomeState(false, false, None, false, 0, false, None, ImportStep, None, None, None)

  /**
   * The data each step renders is there: the generation step reads the
   * selected method (`selectedMethod!`) and the schedule step the generated
   * material (`generatedContent.title`) and, through its back button, the
   * generation step again; no import is processing between
   * handler runs.
   */
  predicate Renderable(s: HomeState)
  {
    (s.workflowStep == GenerateStep ==> s.selectedMethod.Some?)
    && (s.workflowStep == ScheduleStep ==> s.generatedContent.Some? && s.selectedMethod.Some?)
    && !s.isProcessingImport && s.processingProgress == 0
  }

  /** The state after the Done button or the timer of the complete step: back to import with the workflow data cleared. */
  function ResetOf(s: HomeState): (r: HomeState)
    ensures r.workflowStep == ImportStep && r.importedContent == None && r.selectedMethod == None
    ensures r.generatedContent == None && r.scheduleData == None
    ensures r.(workflowStep := s.workflowStep, importedContent := s.importedContent,
               selectedMethod := s.selectedMethod, generatedContent := s.generatedContent,
               scheduleData := s.scheduleData) == s
    ensures Renderable(s) ==> Renderable(r)
  {
    s.(workflowStep := ImportStep, importedContent := None, selectedMethod := None,
       generatedContent := None, scheduleData := None)
  }

  class Home {
    var showImportDialog: bool
    var isStudying: bool
    var currentStudySet: Option<string>
    var isProcessingImport: bool
    var processingProgress: int
    var showSchedule: bool
    var importedContent: Option<Imported>
    var workflowStep: Step
    var selectedMethod: Option<string>
    var generatedContent: Option<Generated>
    var scheduleData: Option<seq<ScheduleSetup.Session>>

    function State(): HomeState
      reads this
    {
      HomeState(showImportDialog, isStudying, currentStudySet, isProcessingImport, processingProgress,
                showSchedule, importedContent, workflowStep, selectedMethod, generatedContent, scheduleData)
    }

    constructor()
      ensures State() == InitialHome && Renderable(State())
    {
      showImportDialog, isStudying, currentStudySet := false, false, None;
      isProcessingImport, processingProgress, showSchedule := false, 0, false;
      importedContent, workflowStep, selectedMethod := None, ImportStep, None;
      generatedContent, scheduleData := None, None;
    }

    method CreateContent()
      modifies this
      ensures State() == old(State()).(showImportDialog := true)
    {
      showImportDialog := true;
    }

    method StudyContent(id: string)
      modifies this
      ensures State() == old(State()).(currentStudySet := Some(id), isStudying := true)
    {
      currentStudySet := Some(id);
      isStudying := true;
    }

    method BackFromStudy()
      modifies this
      ensures State() == old(State()).(isStudying := false, currentStudySet := None)
    {
      isStudying := false;
      currentStudySet := None;
    }

    /** `handleImportComplete`: the content is recorded, the suggestion step shows and the dialog closes. */
    method ImportComplete(data: ImportData)
      requires Renderable(State())
      modifies this
      ensures State() == old(State()).(importedContent := Some(ImportedOf(data)),
                                       workflowStep := SuggestStep, showImportDialog := false)
      ensures Renderable(State())
    {
      importedContent := Some(ImportedOf(data));
      workflowStep := SuggestStep;
      showImportDialog := false;
    }

    /**
     * The processing shared by the file and the text import, with its
     * interval run to the end: progress rises by 10 per tick until a tick
     * finds 100, which resets it, records the content and shows the
     * suggestion step.
     */
    method ProcessImport(imported: Imported)
      requires Renderable(State())
      modifies this
      ensures State() == old(State()).(importedContent := Some(imported), workflowStep := SuggestStep)
      ensures Renderable(State())
    {
      ghost var before := State();
      isProcessingImport := true;
      while isProcessingImport
        invariant 0 <= processingProgress <= 100 && processingProgress % 10 == 0
        invariant isProcessingImport ==> State() == before.(isProcessingImport := true, processingProgress := processingProgress)
        invariant !isProcessingImport ==> State() == before.(importedContent := Some(imported), workflowStep := SuggestStep)
        decreases isProcessingImport, 100 - processingProgress
      {
        if processingProgress >= 100 {
          isProcessingImport := false;
          processingProgress := 0;
          importedContent := Some(imported);
          workflowStep := SuggestStep;
        } else {
          processingProgress := processingProgress + 10;
        }
      }
    }

    /** `handleFileSelect`: a "document" titled after the first file. */
    method FileSelect(files: seq<FileInfo>)
      requires Renderable(State())
      modifies this
      ensures State() == old(State()).(importedContent := Some(Imported(FileTitle(files), "document")),
                                       workflowStep := SuggestStep)
      ensures Renderable(State())
    {
      ProcessImport(Imported(FileTitle(files), "document"));
    }

    /** `handleTextImport`: a "text" titled "Text Content", whatever the text. */
    method TextImport(text: string)
      requires Renderable(State())
      modifies this
      ensures State() == old(State()).(importedContent := Some(Imported("Text Content", "text")),
                                       workflowStep := SuggestStep)
      ensures Renderable(State())
    {
      ProcessImport(Imported("Text Content", "text"));
    }

    method MethodSelect(id: string)
      requires Renderable(State())
      modifies this
      ensures State() == old(State()).(selectedMethod := Some(id))
      ensures Renderable(State())
    {
      selectedMethod := Some(id);
    }

    /** `handleContinueToGeneration`: the generation step shows only once a method is selected. */
    method ContinueToGeneration()
      requires Renderable(State())
      modifies this
      ensures old(selectedMethod).Some? ==> State() == old(State()).(workflowStep := GenerateStep)
      ensures old(selectedMethod).None? ==> State() == old(State())
      ensures Renderable(State())
    {
      if selectedMethod.Some? {
        workflowStep := GenerateStep;
      }
    }

    method BackToSuggestion()
      requires Renderable(State())
      modifies this
      ensures State() == old(State()).(workflowStep := SuggestStep)
      ensures Renderable(State())
    {
      workflowStep := SuggestStep;
    }

    /**
     * `handleContentGenerated`: the material is kept; the four known kinds
     * open their study page with it, any other kind goes on to scheduling.
     */
    method ContentGenerated(content: Generated) returns (navigation: Option<Navigation>)
      requires Renderable(State()) && workflowStep == GenerateStep
      modifies this
      ensures RouteOfKind(content.kind).Some? ==>
        navigation == Some(Navigation(RouteOfKind(content.kind).value, content))
        && State() == old(State()).(generatedContent := Some(content))
      ensures RouteOfKind(content.kind).None? ==>
        navigation == None && State() == old(State()).(generatedContent := Some(content), workflowStep := ScheduleStep)
      ensures Renderable(State())
    {
      generatedContent := Some(content);
      var route := RouteOfKind(content.kind);
      if route.Some? {
        navigation := Some(Navigation(route.value, content));
      } else {
        navigation := None;
        workflowStep := ScheduleStep;
      }
    }

    method BackToGeneration()
      requires Renderable(State()) && workflowStep == ScheduleStep
      modifies this
      ensures State() == old(State()).(workflowStep := GenerateStep)
      ensures Renderable(State())
    {
      workflowStep := GenerateStep;
    }

    /** `handleScheduleComplete`: the schedule is kept and the complete step shows. */
    method ScheduleComplete(schedule: seq<ScheduleSetup.Session>)
      requires Renderable(State())
      modifies this
      ensures State() == old(State()).(scheduleData := Some(schedule), workflowStep := CompleteStep)
      ensures Renderable(State())
    {
      scheduleData := Some(schedule);
      workflowStep := CompleteStep;
    }

    /** The Done button, and the timer the complete step starts. */
    method Reset()
      requires Renderable(State())
      modifies this
      ensures State() == ResetOf(old(State()))
      ensures Renderable(State())
    {
      workflowStep := ImportStep;
      importedContent := None;
      selectedMethod := None;
      generatedContent := None;
      scheduleData := None;
    }

    /** The dashboard tab: the schedule view closes and the import step shows; nothing is cleared. */
    method ShowDashboard()
      requires Renderable(State())
      modifies this
      ensures State() == old(State()).(showSchedule := false, workflowStep := ImportStep)
      ensures Renderable(State())
    {
      showSchedule := false;
      workflowStep := ImportStep;
    }

    /** The library tab and the "view schedule" button. */
    method ShowScheduleView()
      modifies this
      ensures State() == old(State()).(showSchedule := true)
    {
      showSchedule := true;
    }
  }
}
