/**
 * The DevTools panel: a store of projects, each a list of files, with an
 * active project, an active file and an editor buffer; saving, adding
 * files, creating projects and "running" a file pay Dev Coins. Its console
 * keeps the 20 newest lines, newest last.
 */
module DevTools {
  import opened Wrappers
  import Text
  import RollingLog
  import Dashboard

  const ConsoleCap: nat := 20
  const NewProjectReward: int := 10
  const NewFileReward: int := 5
  const SaveReward: int := 3

  datatype FileType = Html | Css | Js | Md
  datatype ProjectKind = HtmlProject | ReactProject | StaticProject

  datatype ProjectFile = ProjectFile(id: string, name: string, content: string, fileType: FileType)

  /** A project (its last-modified date is not modelled). */
  datatype Project = Project(id: string, name: string, kind: ProjectKind, files: seq<ProjectFile>)

  function FileId(f: ProjectFile): string { f.id }
  function ProjectId(p: Project): string { p.id }

  /**
   * `s.map(e => idOf(e) === idOf(x) ? x : e)`: every entry that shares the
   * id of `x` becomes `x`; every other entry is kept, in place.
   */
  function ReplaceById<T>(s: seq<T>, idOf: T -> string, x: T): (r: seq<T>)
    ensures |r| == |s|
    ensures forall i :: 0 <= i < |s| && idOf(s[i]) == idOf(x) ==> r[i] == x
    ensures forall i :: 0 <= i < |s| && idOf(s[i]) != idOf(x) ==> r[i] == s[i]
  {
    if s == [] then []
    else [if idOf(s[0]) == idOf(x) then x else s[0]] + ReplaceById(s[1..], idOf, x)
  }

  /** After a replacement every entry is the new one or an old one, and the new one is present when its id was. */
  lemma ReplaceByIdMembers<T>(s: seq<T>, idOf: T -> string, x: T)
    ensures forall e :: e in ReplaceById(s, idOf, x) ==> e == x || e in s
    ensures (exists e :: e in s && idOf(e) == idOf(x)) ==> x in ReplaceById(s, idOf, x)
  {
    var r := ReplaceById(s, idOf, x);
    forall e | e in r ensures e == x || e in s {
      var i :| 0 <= i < |r| && r[i] == e;
      if idOf(s[i]) != idOf(x) {
        assert e == s[i];
      }
    }
    if exists e :: e in s && idOf(e) == idOf(x) {
      var e :| e in s && idOf(e) == idOf(x);
      var i :| 0 <= i < |s| && s[i] == e;
      assert r[i] == x;
    }
  }

  /** Replacing by id twice with the same entry is replacing once (saving twice changes nothing more). */
  lemma {:induction false} ReplaceByIdIdempotent<T>(s: seq<T>, idOf: T -> string, x: T)
    ensures ReplaceById(ReplaceById(s, idOf, x), idOf, x) == ReplaceById(s, idOf, x)
  {
    if s != [] {
      ReplaceByIdIdempotent(s[1..], idOf, x);
      var r := ReplaceById(s, idOf, x);
      assert r[1..] == ReplaceById(s[1..], idOf, x);
    }
  }

  /** `fileName.split('.').pop()?.toLowerCase()` */
  function Extension(fileName: string): string {
    Text.ToLower(Text.LastField(fileName, '.'))
  }

  /**
   * An extension is the tail of the name after its last dot, lower-cased:
   * no longer than the name, free of dots and of upper-case letters.
   */
  lemma ExtensionShape(fileName: string)
    ensures var e := Extension(fileName);
      && |e| <= |fileName| && '.' !in e
      && (forall i :: 0 <= i < |e| ==> !('A' <= e[i] <= 'Z'))
      && e == Text.ToLower(fileName[|fileName| - |e|..])
  {
    var r := Text.LastField(fileName, '.');
    Text.LastFieldIsLastSegment(fileName, '.');
    Text.ToLowerChars(r);
  }

  /** The type an extension selects: css, js and md name themselves, anything else is html. */
  function TypeOfExtension(ext: string): (t: FileType)
    ensures t == Css <==> ext == "css"
    ensures t == Js <==> ext == "js"
    ensures t == Md <==> ext == "md"
  {
    if ext == "css" then Css else if ext == "js" then Js else if ext == "md" then Md else Html
  }

  /** The type `addNewFile` gives a file name. */
  function Classify(fileName: string): FileType {
    TypeOfExtension(Extension(fileName))
  }

  /** Only the last dot-separated segment counts, whatever its case. */
  lemma ClassifyByLastSegment(base: string, ext: string)
    requires '.' !in ext
    ensures Classify(base + "." + ext) == TypeOfExtension(Text.ToLower(ext))
  {
    Text.LastFieldAfterSeparator(base, '.', ext);
  }

  /** A name without a dot is its own extension: `css` is a stylesheet, `README` is html. */
  lemma ClassifyWithoutDot(fileName: string)
    requires '.' !in fileName
    ensures Classify(fileName) == TypeOfExtension(Text.ToLower(fileName))
  {
    Text.LastFieldWithoutSeparator(fileName, '.');
  }

  lemma ClassifyUpperCaseExtension()
    ensures Classify("style.CSS") == Css
  {
    assert "style.CSS" == "style" + "." + "CSS";
    ClassifyByLastSegment("style", "CSS");
    assert Text.ToLower("CSS") == "css";
  }

  lemma ClassifySeveralDots()
    ensures Classify("archive.min.js") == Js
  {
    assert "archive.min.js" == "archive.min" + "." + "js";
    ClassifyByLastSegment("archive.min", "js");
    assert Text.ToLower("js") == "js";
  }

  lemma ClassifyTrailingDot()
    ensures Classify("notes.") == Html
  {
    assert "notes." == "notes" + "." + "";
    ClassifyByLastSegment("notes", "");
  }

  lemma ClassifyExamplesWithoutDot()
    ensures Classify("README") == Html
    ensures Classify("css") == Css
  {
    ClassifyWithoutDot("README");
    ClassifyWithoutDot("css");
  }

  /**
   * The title a template shows: the name with its first ".md" (markdown)
   * or first ".html" (html) removed; css and js templates show the name.
   */
  function TemplateTitle(t: FileType, fileName: string): string {
    match t
    case Md => Text.RemoveFirst(fileName, ".md")
    case Html => Text.RemoveFirst(fileName, ".html")
    case _ => fileName
  }

  /** A title loses exactly one extension when the name holds one, and nothing otherwise. */
  lemma TemplateTitleLength(t: FileType, fileName: string)
    ensures t == Md && !Text.Contains(fileName, ".md") ==> TemplateTitle(t, fileName) == fileName
    ensures t == Md && Text.Contains(fileName, ".md") ==> |TemplateTitle(t, fileName)| == |fileName| - 3
    ensures t == Html && !Text.Contains(fileName, ".html") ==> TemplateTitle(t, fileName) == fileName
    ensures t == Html && Text.Contains(fileName, ".html") ==> |TemplateTitle(t, fileName)| == |fileName| - 5
    ensures t == Css || t == Js ==> TemplateTitle(t, fileName) == fileName
  {
  }

  /** A name that is a base plus its extension, with the extension nowhere earlier, is titled by its base. */
  lemma TitleDropsExtension(base: string, t: FileType)
    requires t == Md || t == Html
    requires var ext := if t == Md then ".md" else ".html";
      forall j :: 0 <= j < |base| ==> !Text.OccursAt(base + ext, ext, j)
    ensures TemplateTitle(t, base + (if t == Md then ".md" else ".html")) == base
  {
    var ext := if t == Md then ".md" else ".html";
    assert base + ext + "" == base + ext;
    Text.RemoveFirstAt(base, ext, "");
  }

  /** Only the FIRST occurrence is removed: "guide.md.md" is titled "guide.md". */
  lemma TitleRemovesFirstOccurrence(base: string)
    requires '.' !in base
    ensures TemplateTitle(Md, base + ".md" + ".md") == base + ".md"
  {
    var s := base + ".md" + ".md";
    assert s[..|base|] == base;
    Text.NoOccurrenceBefore(s, ".md", |base|);
    Text.RemoveFirstAt(base, ".md", ".md");
  }

  const CssTemplateRest: string :=
    " - Styles for your project */\n\nbody {\n    margin: 0;\n    padding: 0;\n"
    + "    font-family: 'Segoe UI', sans-serif;\n}\n\n/* Add your styles here */\n"
  const JsTemplateRest: string := " loaded successfully');\n\n// Add your JavaScript code here\n"
  const MdTemplateRest: string :=
    "\n\nThis is a markdown file for your project documentation.\n\n## Features\n\n"
    + "- Feature 1\n- Feature 2\n- Feature 3\n\n## Getting Started\n\nInstructions for using your project...\n"
  const HtmlHead: string :=
    "<!DOCTYPE html>\n<html lang=\"en\">\n<head>\n    <meta charset=\"UTF-8\">\n"
    + "    <meta name=\"viewport\" content=\"width=device-width, initial-scale=1.0\">\n    <title>"
  const HtmlTemplateRest: string :=
    "</title>\n</head>\n<body>\n    <h1>New Page</h1>\n    <p>Start building here!</p>\n</body>\n</html>"

  /** `getTemplateContent(type, fileName)` */
  function TemplateContent(t: FileType, fileName: string): string {
    var title := TemplateTitle(t, fileName);
    match t
    case Css => "/* " + fileName + CssTemplateRest
    case Js =>
      "// " + fileName + " - JavaScript functionality\n\nconsole.log('\U{1F4DC} " + fileName + JsTemplateRest
    case Md => "# " + title + MdTemplateRest
    case Html => HtmlHead + title + HtmlTemplateRest
  }

  /** The page a new project starts with. */
  function NewProjectPage(projectName: string): string {
    HtmlHead + projectName + "</title>\n</head>\n<body>\n    <h1>Welcome to " + projectName + "</h1>\n"
    + "    <p>Start building your amazing project here!</p>\n</body>\n</html>"
  }

  /** Coins for running a file: 2 for html, 4 for js, 1 for css and md. */
  function RunReward(t: FileType): (coins: int)
    ensures 1 <= coins <= 4
    ensures coins == 4 <==> t == Js
    ensures coins == 2 <==> t == Html
    ensures coins == 1 <==> t == Css || t == Md
  {
    match t
    case Html => 2
    case Js => 4
    case _ => 1
  }

  /** `type.toUpperCase()` for the types that reach the generic branch of `runCode`. */
  function TypeLabel(t: FileType): string {
    match t
    case Html => "HTML"
    case Css => "CSS"
    case Js => "JS"
    case Md => "MD"
  }

  const JsOutput: string := "JavaScript executed successfully (simulated)"
  const InitialConsole: seq<string> := [
    "\U{1F680} DevTools Suite initialized",
    "\U{1F916} 24-Agent Framework connected",
    "\U{26A1} Neural pathways ready for development"
  ]
  const SaveInsights: seq<string> := [
    "CodeMate: Code structure looks clean! Consider adding comments.",
    "LintWhisperer: Formatting is consistent. Well done!",
    "BugSeer: No obvious issues detected in this code.",
    "PatternGuru: Good use of semantic HTML structure.",
    "Profiler: Code looks optimized for performance."
  ]
  const RunFeedbacks: seq<string> := [
    "Profiler: Code execution completed in 0.23ms",
    "TestTitan: Consider adding unit tests for this function",
    "BugSeer: No runtime errors detected",
    "FlowAnalyzer: Code flow is efficient and readable"
  ]

  function CreatedProjectMessage(projectName: string): string {
    "\U{2728} New project \"" + projectName + "\" created! (+10 Dev Coins)"
  }
  function SavedMessage(fileName: string): string {
    "\U{1F4BE} File \"" + fileName + "\" saved! (+3 Dev Coins)"
  }
  function CreatedFileMessage(fileName: string): string {
    "\U{1F4C4} New file \"" + fileName + "\" created! (+5 Dev Coins)"
  }
  function RunningMessage(fileName: string): string {
    "\U{1F680} Running " + fileName + "..."
  }
  /** The line `runCode` logs once a file of type `t` has run. */
  function RanMessage(t: FileType): string {
    match t
    case Html => "\U{2705} HTML preview generated"
    case Js => "\U{2705} JavaScript executed"
    case _ => "\U{2705} " + TypeLabel(t) + " processed"
  }

  /** The file `addNewFile` creates: typed by its name, filled from its type's template. */
  function NewFile(id: string, fileName: string): ProjectFile {
    var t := Classify(fileName);
    ProjectFile(id, fileName, TemplateContent(t, fileName), t)
  }

  /**
   * A new file is typed by its name, and its template names it: css and js
   * templates quote the whole name, markdown and html ones show its title.
   */
  lemma NewFileShowsTitle(id: string, fileName: string)
    ensures var f := NewFile(id, fileName);
      && f.id == id && f.name == fileName && f.fileType == Classify(fileName)
      && (f.fileType == Css || f.fileType == Js ==> Text.Contains(f.content, fileName))
      && (f.fileType == Md || f.fileType == Html ==> Text.Contains(f.content, TemplateTitle(f.fileType, fileName)))
  {
    var t := Classify(fileName);
    var title := TemplateTitle(t, fileName);
    match t
    case Css => Text.ContainsMiddle("/* ", fileName, CssTemplateRest);
    case Js =>
      var tail := " - JavaScript functionality\n\nconsole.log('\U{1F4DC} " + fileName + JsTemplateRest;
      assert TemplateContent(t, fileName) == "// " + fileName + tail;
      Text.ContainsMiddle("// ", fileName, tail);
    case Md => Text.ContainsMiddle("# ", title, MdTemplateRest);
    case Html => Text.ContainsMiddle(HtmlHead, title, HtmlTemplateRest);
  }

  /** Every file of a new or a starter project carries the type its name selects. */
  lemma ProjectFilesClassified(id: string, projectName: string, html: string, css: string, js: string)
    ensures forall f :: f in NewProject(id, projectName).files ==> f.fileType == Classify(f.name)
    ensures forall f :: f in StarterProject(html, css, js).files ==> f.fileType == Classify(f.name)
  {
    ClassifyIndexPage();
    ClassifyStarterAssets();
    var one := NewProject(id, projectName).files;
    assert one == [ProjectFile("index-html", "index.html", NewProjectPage(projectName), Html)];
    var three := StarterProject(html, css, js).files;
    forall f | f in three ensures f.fileType == Classify(f.name) {
      assert f == three[0] || f == three[1] || f == three[2];
    }
  }

  lemma ClassifyIndexPage()
    ensures Classify("index.html") == Html
  {
    assert "index.html" == "index" + "." + "html";
    ClassifyByLastSegment("index", "html");
    assert Text.ToLower("html") == "html";
  }

  lemma ClassifyStarterAssets()
    ensures Classify("style.css") == Css
    ensures Classify("script.js") == Js
  {
    assert "style.css" == "style" + "." + "css";
    assert "script.js" == "script" + "." + "js";
    ClassifyByLastSegment("style", "css");
    ClassifyByLastSegment("script", "js");
    assert Text.ToLower("css") == "css";
    assert Text.ToLower("js") == "js";
  }

  /** The project `createNewProject` builds: one `index.html` holding the new-project page. */
  function NewProject(id: string, projectName: string): Project {
    Project(id, projectName, HtmlProject, [ProjectFile("index-html", "index.html", NewProjectPage(projectName), Html)])
  }

  /** The starter project the panel loads on mount (file contents are parameters). */
  function StarterProject(html: string, css: string, js: string): Project {
    Project("landing-page", "Neural Landing Page", HtmlProject, [
      ProjectFile("index-html", "index.html", html, Html),
      ProjectFile("style-css", "style.css", css, Css),
      ProjectFile("script-js", "script.js", js, Js)])
  }

  class DevToolsSuite {
    const page: Dashboard.HomePage
    var activeProject: Option<Project>
    var projects: seq<Project>
    var activeFile: Option<ProjectFile>
    var codeInput: string
    var output: string
    var consoleOutput: seq<string>

    /**
     * The console respects its cap; every project has a file; the active
     * project is one of the store's and the active file one of its files;
     * the ledger is not negative.
     */
    ghost predicate Valid()
      reads this, page
    {
      && |consoleOutput| <= ConsoleCap
      && (forall p :: p in projects ==> p.files != [])
      && (activeProject.Some? ==> activeProject.value in projects)
      && (activeFile.Some? ==> activeProject.Some? && activeFile.value in activeProject.value.files)
      && page.Valid()
    }

    constructor (page: Dashboard.HomePage)
      requires page.Valid()
      ensures this.page == page && Valid()
      ensures activeProject == None && projects == [] && activeFile == None
      ensures codeInput == "" && output == "" && consoleOutput == InitialConsole
    {
      this.page := page;
      activeProject := None;
      projects := [];
      activeFile := None;
      codeInput := "";
      output := "";
      consoleOutput := InitialConsole;
    }

    /** The mount effect: the starter project becomes the store, active, with its `index.html` open. */
    method LoadStarterProjects(html: string, css: string, js: string)
      requires Valid()
      modifies this`projects, this`activeProject, this`activeFile, this`codeInput
      ensures Valid()
      ensures projects == [StarterProject(html, css, js)]
      ensures activeProject == Some(StarterProject(html, css, js))
      ensures activeFile == Some(StarterProject(html, css, js).files[0]) && codeInput == html
    {
      var starter := StarterProject(html, css, js);
      projects := [starter];
      activeProject := Some(starter);
      activeFile := Some(starter.files[0]);
      codeInput := starter.files[0].content;
    }

    /** `addToConsole`: the line goes last, the 20 newest lines are kept. */
    method AddToConsole(message: string)
      modifies this`consoleOutput
      ensures consoleOutput == RollingLog.PushBack(old(consoleOutput), message, ConsoleCap)
    {
      consoleOutput := RollingLog.KeepLast(consoleOutput + [message], ConsoleCap);
    }

    /** The console's clear button. */
    method ClearConsole()
      modifies this`consoleOutput
      ensures consoleOutput == []
    {
      consoleOutput := [];
    }

    /** The editor's `onChange`. */
    method EditCode(text: string)
      modifies this`codeInput
      ensures codeInput == text
    {
      codeInput := text;
    }

    /** Clicking a project of the list opens it at its first file. */
    method SelectProject(p: Project)
      requires Valid() && p in projects
      modifies this`activeProject, this`activeFile, this`codeInput
      ensures Valid()
      ensures activeProject == Some(p) && activeFile == Some(p.files[0]) && codeInput == p.files[0].content
    {
      activeProject := Some(p);
      activeFile := Some(p.files[0]);
      codeInput := p.files[0].content;
    }

    /** Clicking a file of the active project opens it in the editor. */
    method SelectFile(f: ProjectFile)
      requires Valid() && activeProject.Some? && f in activeProject.value.files
      modifies this`activeFile, this`codeInput
      ensures Valid()
      ensures activeFile == Some(f) && codeInput == f.content
    {
      activeFile := Some(f);
      codeInput := f.content;
    }

    /**
     * `createNewProject`, with the name the prompt returned ("" for a
     * cancelled prompt) and the id the clock gave. An empty name changes
     * nothing; otherwise one project with a single `index.html` is added at
     * the end and opened, and 10 coins are paid.
     */
    method CreateNewProject(projectName: string, id: string)
      requires Valid()
      modifies this`projects, this`activeProject, this`activeFile, this`codeInput, this`consoleOutput, page`devCoins
      ensures Valid()
      ensures projectName == "" ==>
        && projects == old(projects) && activeProject == old(activeProject) && activeFile == old(activeFile)
        && codeInput == old(codeInput) && consoleOutput == old(consoleOutput) && page.devCoins == old(page.devCoins)
      ensures projectName != "" ==>
        && projects == old(projects) + [NewProject(id, projectName)]
        && activeProject == Some(NewProject(id, projectName))
        && activeFile == Some(NewProject(id, projectName).files[0])
        && codeInput == NewProjectPage(projectName)
        && page.devCoins == old(page.devCoins) + NewProjectReward
        && consoleOutput == RollingLog.PushBack(old(consoleOutput), CreatedProjectMessage(projectName), ConsoleCap)
    {
      if projectName == "" {
        return;
      }
      var newProject := NewProject(id, projectName);
      projects := projects + [newProject];
      activeProject := Some(newProject);
      activeFile := Some(newProject.files[0]);
      codeInput := newProject.files[0].content;
      page.HandleDevCoinUpdate(NewProjectReward);
      AddToConsole(CreatedProjectMessage(projectName));
    }

    /**
     * `saveFile`. Without an active file and project nothing happens.
     * Otherwise the editor text becomes the content of every file of the
     * active project with the active file's id, that project replaces every
     * project with its id, all other files and projects are kept, no file or
     * project is added or removed, and 3 coins are paid. `insight` says the
     * delayed agent insight was scheduled.
     */
    method SaveFile() returns (insight: bool)
      requires Valid()
      modifies this`projects, this`activeProject, this`activeFile, this`consoleOutput, page`devCoins
      ensures Valid()
      ensures old(activeFile).None? || old(activeProject).None? ==>
        && !insight && projects == old(projects) && activeProject == old(activeProject)
        && activeFile == old(activeFile) && consoleOutput == old(consoleOutput) && page.devCoins == old(page.devCoins)
      ensures old(activeFile).Some? && old(activeProject).Some? ==>
        var saved := old(activeFile).value.(content := old(codeInput));
        var ap := old(activeProject).value;
        var updated := ap.(files := ReplaceById(ap.files, FileId, saved));
        && insight
        && |updated.files| == |ap.files|
        && projects == ReplaceById(old(projects), ProjectId, updated) && |projects| == |old(projects)|
        && activeProject == Some(updated) && activeFile == Some(saved)
        && page.devCoins == old(page.devCoins) + SaveReward
        && consoleOutput == RollingLog.PushBack(old(consoleOutput), SavedMessage(saved.name), ConsoleCap)
    {
      if activeFile.None? || activeProject.None? {
        return false;
      }
      var file, ap := activeFile.value, activeProject.value;
      var saved := file.(content := codeInput);
      var updated := ap.(files := ReplaceById(ap.files, FileId, saved));
      ReplaceByIdMembers(ap.files, FileId, saved);
      ReplaceByIdMembers(projects, ProjectId, updated);
      projects := ReplaceById(projects, ProjectId, updated);
      activeProject := Some(updated);
      activeFile := Some(saved);
      page.HandleDevCoinUpdate(SaveReward);
      AddToConsole(SavedMessage(file.name));
      insight := true;
    }

    /** The delayed insight after a save: the `pick`-th insight goes to the console. */
    method SaveInsight(pick: nat)
      requires Valid() && pick < |SaveInsights|
      modifies this`consoleOutput
      ensures Valid()
      ensures consoleOutput == RollingLog.PushBack(old(consoleOutput), "\U{1F916} " + SaveInsights[pick], ConsoleCap)
    {
      AddToConsole("\U{1F916} " + SaveInsights[pick]);
    }

    /**
     * `addNewFile`, with the name the prompt returned ("" for a cancelled
     * prompt) and the id the clock gave. Without an active project, or with
     * an empty name, nothing happens. Otherwise one file, typed by
     * `Classify` and filled from `TemplateContent`, is appended to the active
     * project only, becomes the active file, and 5 coins are paid.
     */
    method AddNewFile(fileName: string, id: string)
      requires Valid()
      modifies this`projects, this`activeProject, this`activeFile, this`codeInput, this`consoleOutput, page`devCoins
      ensures Valid()
      ensures old(activeProject).None? || fileName == "" ==>
        && projects == old(projects) && activeProject == old(activeProject) && activeFile == old(activeFile)
        && codeInput == old(codeInput) && consoleOutput == old(consoleOutput) && page.devCoins == old(page.devCoins)
      ensures old(activeProject).Some? && fileName != "" ==>
        var newFile := NewFile(id, fileName);
        var ap := old(activeProject).value;
        var updated := ap.(files := ap.files + [newFile]);
        && projects == ReplaceById(old(projects), ProjectId, updated)
        && activeProject == Some(updated) && activeFile == Some(newFile)
        && codeInput == newFile.content
        && page.devCoins == old(page.devCoins) + NewFileReward
        && consoleOutput == RollingLog.PushBack(old(consoleOutput), CreatedFileMessage(fileName), ConsoleCap)
    {
      if activeProject.None? || fileName == "" {
        return;
      }
      var newFile := NewFile(id, fileName);
      AttachFile(newFile);
      page.HandleDevCoinUpdate(NewFileReward);
      AddToConsole(CreatedFileMessage(fileName));
    }

    /**
     * The store update of `addNewFile`: `f` is appended to the active
     * project's files, that project replaces every project with its id and
     * stays active, and `f` opens in the editor.
     */
    method AttachFile(f: ProjectFile)
      requires Valid() && activeProject.Some?
      modifies this`projects, this`activeProject, this`activeFile, this`codeInput
      ensures Valid()
      ensures
        var ap := old(activeProject).value;
        var updated := ap.(files := ap.files + [f]);
        && projects == ReplaceById(old(projects), ProjectId, updated)
        && activeProject == Some(updated) && activeFile == Some(f) && codeInput == f.content
    {
      var ap := activeProject.value;
      var updated := ap.(files := ap.files + [f]);
      ReplaceByIdMembers(projects, ProjectId, updated);
      projects := ReplaceById(projects, ProjectId, updated);
      activeProject := Some(updated);
      activeFile := Some(f);
      codeInput := f.content;
    }

    /**
     * `runCode`. Without an active file nothing happens. Otherwise the run
     * is logged, the output is the editor text (html, css, md) or the
     * simulated-execution message (js), `RunReward` coins are paid, and
     * `feedback` says the delayed agent feedback was scheduled.
     */
    method RunCode() returns (feedback: bool)
      requires Valid()
      modifies this`output, this`consoleOutput, page`devCoins
      ensures Valid()
      ensures old(activeFile).None? ==>
        !feedback && output == old(output) && consoleOutput == old(consoleOutput) && page.devCoins == old(page.devCoins)
      ensures old(activeFile).Some? ==>
        var f := old(activeFile).value;
        var running := RollingLog.PushBack(old(consoleOutput), RunningMessage(f.name), ConsoleCap);
        && feedback
        && output == (if f.fileType == Js then JsOutput else codeInput)
        && page.devCoins == old(page.devCoins) + RunReward(f.fileType)
        && consoleOutput == RollingLog.PushBack(running, RanMessage(f.fileType), ConsoleCap)
    {
      if activeFile.None? {
        return false;
      }
      var f := activeFile.value;
      AddToConsole(RunningMessage(f.name));
      if f.fileType == Html {
        output := codeInput;
        AddToConsole(RanMessage(Html));
        page.HandleDevCoinUpdate(2);
      } else if f.fileType == Js {
        output := JsOutput;
        AddToConsole(RanMessage(Js));
        page.HandleDevCoinUpdate(4);
      } else {
        output := codeInput;
        AddToConsole(RanMessage(f.fileType));
        page.HandleDevCoinUpdate(1);
      }
      feedback := true;
    }

    /** The delayed feedback after a run: the `pick`-th feedback goes to the console. */
    method RunFeedback(pick: nat)
      requires Valid() && pick < |RunFeedbacks|
      modifies this`consoleOutput
      ensures Valid()
      ensures consoleOutput == RollingLog.PushBack(old(consoleOutput), "\U{1F916} " + RunFeedbacks[pick], ConsoleCap)
    {
      AddToConsole("\U{1F916} " + RunFeedbacks[pick]);
    }
  }
}
