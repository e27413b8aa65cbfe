/**
 * The MCP bug assistant: the three tools of `MCPBugAssistant._execute_tool`
 * (`analyze_code_syntax`, `detect_common_bugs`, `generate_fix`, and the reply to any other
 * name), and the part of `analyze_file` that detects the language and runs every function
 * call of the model's reply. Python's parser, the model and the file system are inputs.
 */
module BugAssistant {
  import opened Wrappers
  import opened Text
  import opened GenAi
  import opened Seqs

  datatype Severity = High | Medium | Low | Info {
    function Name(): string {
      match this
      case High => "high"
      case Medium => "medium"
      case Low => "low"
      case Info => "info"
    }
  }

  /**
   * One entry of the `bugs` list. Each of the five kinds of entry detect_common_bugs can
   * append has its own constructor; the member functions give the entry's dictionary fields.
   */
  datatype Bug =
    | ExecEvalBug
    | PasswordBug
    | TryBug
    | TodoBug(lineNumber: nat)
    | NoBugsFound
  {
    function Severity(): Severity {
      match this
      case ExecEvalBug => High
      case PasswordBug => High
      case TryBug => Medium
      case TodoBug(_) => Low
      case NoBugsFound => Info
    }

    /** The `type` field. */
    function Category(): string {
      match this
      case ExecEvalBug => "security"
      case PasswordBug => "security"
      case TryBug => "error_handling"
      case TodoBug(_) => "code_quality"
      case NoBugsFound => "info"
    }

    function Message(): string {
      match this
      case ExecEvalBug => "Dangerous use of exec/eval - code injection risk"
      case PasswordBug => "Potential password exposure in logs"
      case TryBug => "Incomplete exception handling"
      case TodoBug(n) => "Unresolved TODO/FIXME at line " + NatToString(n)
      case NoBugsFound => "No common bug patterns detected"
    }

    /** The `recommendation` field, which only the whole-file findings have. */
    function Recommendation(): Option<string> {
      match this
      case ExecEvalBug => Some("Use safer alternatives or validate input")
      case PasswordBug => Some("Never log sensitive credentials")
      case TryBug => Some("Add except blocks for all try statements")
      case _ => None
    }

    /** The `line` field, which only the TODO/FIXME findings have. */
    function Line(): Option<nat> {
      if TodoBug? then Some(lineNumber) else None
    }
  }

  // ---------------------------------------------------------------------------------------
  // The rules of detect_common_bugs

  predicate UsesExecOrEval(code: string) {
    Contains(code, "exec(") || Contains(code, "eval(")
  }

  predicate ExposesPassword(code: string) {
    Contains(Lower(code), "password") && (Contains(code, "print") || Contains(code, "log"))
  }

  predicate UnbalancedTry(code: string) {
    Count(code, "try:") > Count(code, "except")
  }

  predicate HasMarker(line: string) {
    Contains(line, "TODO") || Contains(line, "FIXME")
  }

  /** `code.split('\n')` */
  function Lines(code: string): seq<string> {
    Split(code, "\n")
  }

  /** No rule fires on `code`. */
  predicate NoRuleFires(code: string) {
    && !UsesExecOrEval(code) && !ExposesPassword(code) && !UnbalancedTry(code)
    && forall j :: 0 <= j < |Lines(code)| ==> !HasMarker(Lines(code)[j])
  }

  /** The findings of the three whole-file checks, in the order they are made. */
  function WholeFileFindings(code: string): seq<Bug> {
    (if UsesExecOrEval(code) then [ExecEvalBug] else [])
    + (if ExposesPassword(code) then [PasswordBug] else [])
    + (if UnbalancedTry(code) then [TryBug] else [])
  }

  /** One finding per line carrying a marker, numbered from 1, in line order. */
  function TodoFindings(lines: seq<string>): seq<Bug> {
    if lines == [] then [] else
      TodoFindings(lines[..|lines| - 1])
      + (if HasMarker(lines[|lines| - 1]) then [TodoBug(|lines|)] else [])
  }

  /** What the `bugs` list of detect_common_bugs holds for `code`. */
  function DetectedBugs(code: string): seq<Bug> {
    var found := WholeFileFindings(code) + TodoFindings(Lines(code));
    if found == [] then [NoBugsFound] else found
  }

  /** `len([b for b in bugs if b["severity"] != "info"])` */
  function CountNonInfo(bugs: seq<Bug>): nat {
    if bugs == [] then 0
    else (if bugs[0].Severity() != Info then 1 else 0) + CountNonInfo(bugs[1..])
  }

  // ---------------------------------------------------------------------------------------
  // The other two tools

  /** What Python's parser reports about a syntax error. */
  datatype SyntaxError = SyntaxError(line: nat, msg: string)

  datatype SyntaxIssue = SyntaxIssue(kind: string, message: string, line: Option<nat>)

  /** The `issues` of analyze_code_syntax; `parse` stands for `ast.parse`. */
  function SyntaxIssues(code: string, language: string, parse: string -> Option<SyntaxError>): seq<SyntaxIssue> {
    if language != "python" then []
    else match parse(code)
      case None => [SyntaxIssue("info", "No syntax errors found", None)]
      case Some(e) =>
        [SyntaxIssue("error", "Syntax error at line " + NatToString(e.line) + ": " + e.msg, Some(e.line))]
  }

  /** The rewrite of generate_fix: each `exec(` and then each `eval(` is commented out. */
  function FixedCode(code: string): string {
    Replace(Replace(code, "exec(", "# REMOVED: exec("), "eval(", "# REMOVED: eval(")
  }

  /** The `Line:` entry; a missing, zero or empty `line_number` reads "Multiple lines". */
  function LineLabel(args: Args): string {
    if "line_number" !in args then "Multiple lines"
    else match args["line_number"]
      case Str(s) => if s == "" then "Multiple lines" else s
      case Int(i) => if i == 0 then "Multiple lines" else IntToString(i)
  }

  /** The `fix_suggestion` text of generate_fix. */
  function FixSuggestion(code: string, description: string, lineLabel: string): string {
    Layout(OriginalHeader, code, BugEntry(description), LineEntry(lineLabel), FixSteps, FixedCode(code))
  }

  /** The six sections of the suggestion in order, and a final newline. */
  function Layout(header: string, code: string, bug: string, line: string, steps: string, fixed: string): string {
    header + code + bug + line + steps + fixed + "\n"
  }

  /** The layout quotes the code and the line entry, and ends with the fixed code. */
  lemma LayoutQuotes(header: string, code: string, bug: string, line: string, steps: string, fixed: string)
    ensures Contains(Layout(header, code, bug, line, steps, fixed), code)
    ensures Contains(Layout(header, code, bug, line, steps, fixed), line)
    ensures var s := Layout(header, code, bug, line, steps, fixed);
      |fixed + "\n"| <= |s| && s[|s| - |fixed + "\n"|..] == fixed + "\n"
  {
    SevenPieces(header, code, bug, line, steps, fixed, "\n");
  }

  const OriginalHeader := "\n# Original code with bug:\n"

  function BugEntry(description: string): string {
    "\n\n# Bug: " + description
  }

  function LineEntry(lineLabel: string): string {
    "\n# Line: " + lineLabel + "\n"
  }

  const FixSteps := "\n# Suggested fix:\n# 1. Review the problematic code section\n# 2. Apply proper error handling"
    + "\n# 3. Validate inputs\n# 4. Add unit tests\n\n# Fixed code example:\n"

  // ---------------------------------------------------------------------------------------
  // The dispatcher

  /** The JSON object a tool returns, one variant per shape. */
  datatype ToolResult =
    | SyntaxReport(language: string, issues: seq<SyntaxIssue>)
    | BugReport(bugsFound: nat, bugs: seq<Bug>)
    | FixReport(fixSuggestion: string, confidence: string)
    | ErrorReport(message: string)
  {
    function Status(): string {
      if ErrorReport? then "error" else "success"
    }
  }

  const KnownTools: set<string> := {"analyze_code_syntax", "detect_common_bugs", "generate_fix"}

  /** What `_execute_tool(name, args)` returns. */
  function ToolResponse(name: string, args: Args, parse: string -> Option<SyntaxError>): (r: ToolResult)
    ensures r.Status() == "error" <==> name !in KnownTools
    ensures name !in KnownTools ==> r.message == "Unknown function"
  {
    if name == "analyze_code_syntax" then
      var language := GetString(args, "language", "python");
      SyntaxReport(language, SyntaxIssues(GetString(args, "code", ""), language, parse))
    else if name == "detect_common_bugs" then
      var bugs := DetectedBugs(GetString(args, "code", ""));
      BugReport(CountNonInfo(bugs), bugs)
    else if name == "generate_fix" then
      var code := GetString(args, "code", "");
      FixReport(FixSuggestion(code, GetString(args, "bug_description", ""), LineLabel(args)), "high")
    else
      ErrorReport("Unknown function")
  }

  /** The three whole-file checks of detect_common_bugs, each appending its finding. */
  method WholeFileChecks(code: string) returns (bugs: seq<Bug>)
    ensures bugs == WholeFileFindings(code)
  {
    bugs := [];
    if UsesExecOrEval(code) {
      bugs := bugs + [ExecEvalBug];
    }
    if ExposesPassword(code) {
      bugs := bugs + [PasswordBug];
    }
    if UnbalancedTry(code) {
      bugs := bugs + [TryBug];
    }
  }

  /** The pass over the lines of detect_common_bugs, appending to the findings made so far. */
  method LineChecks(lines: seq<string>, found: seq<Bug>) returns (bugs: seq<Bug>)
    ensures bugs == found + TodoFindings(lines)
  {
    bugs := found;
    for i := 0 to |lines|
      invariant bugs == found + TodoFindings(lines[..i])
    {
      assert lines[..i + 1][..i] == lines[..i];
      if HasMarker(lines[i]) {
        bugs := bugs + [TodoBug(i + 1)];
      }
    }
    assert lines[..|lines|] == lines;
  }

  /** detect_common_bugs: the whole-file checks, the line pass, and the placeholder if nothing was found. */
  method DetectCommonBugs(code: string) returns (r: ToolResult)
    ensures r == BugReport(CountNonInfo(DetectedBugs(code)), DetectedBugs(code))
  {
    var bugs := WholeFileChecks(code);
    bugs := LineChecks(Lines(code), bugs);
    if bugs == [] {
      bugs := [NoBugsFound];
    }
    r := BugReport(CountNonInfo(bugs), bugs);
  }

  /** `_execute_tool`, running detect_common_bugs as the loop above. */
  method ExecuteTool(name: string, args: Args, parse: string -> Option<SyntaxError>) returns (r: ToolResult)
    ensures r == ToolResponse(name, args, parse)
  {
    if name == "detect_common_bugs" {
      r := DetectCommonBugs(GetString(args, "code", ""));
    } else {
      r := ToolResponse(name, args, parse);
    }
  }

  // ---------------------------------------------------------------------------------------
  // analyze_file

  /** The final path component, `Path(path).name`. */
  function FileName(path: string): string {
    match LastIndexOf(path, '/')
    case None => path
    case Some(i) => path[i + 1..]
  }

  /** `Path(path).suffix`: from the last dot of the name, unless that dot starts or ends it. */
  function Suffix(path: string): (ext: string)
    ensures ext == "" || ext[0] == '.'
  {
    var name := FileName(path);
    match LastIndexOf(name, '.')
    case None => ""
    case Some(i) => if 0 < i < |name| - 1 then name[i..] else ""
  }

  /** The `language_map` lookup with default "unknown". */
  function Language(ext: string): (language: string)
    ensures ext == ".py" ==> language == "python"
    ensures ext == ".js" ==> language == "javascript"
    ensures ext == ".java" ==> language == "java"
    ensures ext !in {".py", ".js", ".java"} ==> language == "unknown"
    ensures language != "unknown" <==> ext in {".py", ".js", ".java"}
  {
    var languages := map[".py" := "python", ".js" := "javascript", ".java" := "java"];
    if ext in languages then languages[ext] else "unknown"
  }

  datatype ToolCallRecord = ToolCallRecord(functionName: string, result: ToolResult)

  /** The dictionary analyze_file returns. */
  datatype FileAnalysis =
    | ReadFailed(error: string)
    | Analysis(file: string, language: string, toolCalls: seq<ToolCallRecord>, analysis: string)

  /** The record analyze_file keeps of running one call. */
  function Executed(call: FunctionCall, parse: string -> Option<SyntaxError>): ToolCallRecord {
    ToolCallRecord(call.name, ToolResponse(call.name, call.args, parse))
  }

  /** The first loop of analyze_file: the function calls among the reply's parts. */
  method CollectCalls(reply: seq<Part>) returns (calls: seq<FunctionCall>)
    ensures calls == Calls(reply)
  {
    calls := [];
    for i := 0 to |reply|
      invariant calls == Calls(reply[..i])
    {
      CallsSnoc(reply[..i], reply[i]);
      assert reply[..i + 1] == reply[..i] + [reply[i]];
      if reply[i].CallPart? {
        calls := calls + [reply[i].call];
      }
    }
    assert reply[..|reply|] == reply;
  }

  /** Runs one call through the dispatcher and records its name and result. */
  method ExecuteCall(call: FunctionCall, parse: string -> Option<SyntaxError>) returns (record: ToolCallRecord)
    ensures record == Executed(call, parse)
  {
    var result := ExecuteTool(call.name, call.args, parse);
    record := ToolCallRecord(call.name, result);
  }

  /** Running one call, as a function value. */
  function Runner(parse: string -> Option<SyntaxError>): FunctionCall -> ToolCallRecord {
    call => Executed(call, parse)
  }

  /** The records of running `calls` one after the other. */
  function ExecutedAll(calls: seq<FunctionCall>, parse: string -> Option<SyntaxError>): seq<ToolCallRecord> {
    MapSeq(Runner(parse), calls)
  }

  /** There is one record per call, in the order of the calls. */
  lemma ExecutedAllIndex(calls: seq<FunctionCall>, parse: string -> Option<SyntaxError>)
    ensures |ExecutedAll(calls, parse)| == |calls|
    ensures forall k :: 0 <= k < |calls| ==> ExecutedAll(calls, parse)[k] == Executed(calls[k], parse)
  {
    MapSeqIndex(Runner(parse), calls);
  }

  /** The second loop of analyze_file: every call is executed, in order, and recorded. */
  method RunCalls(calls: seq<FunctionCall>, parse: string -> Option<SyntaxError>)
    returns (toolCalls: seq<ToolCallRecord>)
    ensures toolCalls == ExecutedAll(calls, parse)
  {
    toolCalls := [];
    for k := 0 to |calls|
      invariant toolCalls == ExecutedAll(calls[..k], parse)
    {
      var record := ExecuteCall(calls[k], parse);
      assert calls[..k + 1][..k] == calls[..k];
      assert record == Runner(parse)(calls[k]);
      toolCalls := toolCalls + [record];
    }
    assert calls[..|calls|] == calls;
  }

  /**
   * analyze_file: `contents` is the outcome of reading the file, `reply` the parts of the
   * model's first reply and `replyText` its text, and `followUp` the text of the second
   * reply given the tool results.
   */
  method AnalyzeFile(path: string, contents: Result<string, string>, reply: seq<Part>, replyText: string,
                     followUp: seq<ToolCallRecord> -> string, parse: string -> Option<SyntaxError>)
    returns (r: FileAnalysis)
    ensures contents.Failure? ==> r == ReadFailed("Could not read file: " + contents.error)
    ensures contents.Success? ==> r.Analysis? && r.file == path && r.language == Language(Suffix(path))
    ensures contents.Success? ==> r.toolCalls == ExecutedAll(Calls(reply), parse)
    ensures contents.Success? ==>
      r.analysis == if Calls(reply) == [] then replyText else followUp(r.toolCalls)
  {
    if contents.Failure? {
      return ReadFailed("Could not read file: " + contents.error);
    }
    var language := Language(Suffix(path));
    var calls := CollectCalls(reply);
    var toolCalls := RunCalls(calls, parse);
    var analysis := if calls != [] then followUp(toolCalls) else replyText;
    r := Analysis(path, language, toolCalls, analysis);
  }

  // ---------------------------------------------------------------------------------------
  // Properties of detect_common_bugs

  /** Every TODO finding is a low-severity entry for a marked line, and they rise strictly by line. */
  lemma {:induction false} TodoFindingsShape(lines: seq<string>)
    ensures forall k :: 0 <= k < |TodoFindings(lines)| ==>
      var b := TodoFindings(lines)[k];
      b.TodoBug? && 1 <= b.lineNumber <= |lines| && HasMarker(lines[b.lineNumber - 1])
    ensures forall i, j :: 0 <= i < j < |TodoFindings(lines)| ==>
      TodoFindings(lines)[i].lineNumber < TodoFindings(lines)[j].lineNumber
    decreases |lines|
  {
    if lines != [] {
      var init := lines[..|lines| - 1];
      TodoFindingsShape(init);
      forall k | 0 <= k < |TodoFindings(init)|
        ensures init[TodoFindings(init)[k].lineNumber - 1] == lines[TodoFindings(init)[k].lineNumber - 1]
      {
      }
    }
  }

  /** A line's finding is present exactly when that line carries a marker. */
  lemma {:induction false} TodoFindingsComplete(lines: seq<string>, j: nat)
    requires j < |lines|
    ensures TodoBug(j + 1) in TodoFindings(lines) <==> HasMarker(lines[j])
    decreases |lines|
  {
    var n := |lines|;
    var init := lines[..n - 1];
    TodoFindingsShape(init);
    if j < n - 1 {
      TodoFindingsComplete(init, j);
      assert init[j] == lines[j];
    } else {
      forall k | 0 <= k < |TodoFindings(init)| ensures TodoFindings(init)[k] != TodoBug(n) {
      }
    }
  }

  /** There are no TODO findings exactly when no line carries a marker. */
  lemma TodoFindingsEmpty(lines: seq<string>)
    ensures TodoFindings(lines) == [] <==> forall j :: 0 <= j < |lines| ==> !HasMarker(lines[j])
  {
    TodoFindingsShape(lines);
    if TodoFindings(lines) == [] {
      forall j | 0 <= j < |lines| ensures !HasMarker(lines[j]) {
        TodoFindingsComplete(lines, j);
      }
    }
  }

  /** Every finding of a rule, whole-file or per line, has a severity other than info. */
  lemma RuleFindingsNotInfo(code: string)
    ensures forall b :: b in WholeFileFindings(code) + TodoFindings(Lines(code)) ==> b.Severity() != Info
  {
    TodoFindingsShape(Lines(code));
  }

  /** The count of entries whose severity is not info, for a list where none is info. */
  lemma {:induction false} CountNonInfoAll(bugs: seq<Bug>)
    requires forall b :: b in bugs ==> b.Severity() != Info
    ensures CountNonInfo(bugs) == |bugs|
    decreases |bugs|
  {
    if bugs != [] {
      assert forall b :: b in bugs[1..] ==> b in bugs;
      CountNonInfoAll(bugs[1..]);
    }
  }

  /** The rules find nothing exactly when no rule fires. */
  lemma RuleFindingsEmpty(code: string)
    ensures WholeFileFindings(code) + TodoFindings(Lines(code)) == [] <==> NoRuleFires(code)
  {
    TodoFindingsEmpty(Lines(code));
  }

  /**
   * The `bugs` list is never empty, and the single info placeholder is its content exactly
   * when no rule fired; it never appears beside a real finding.
   */
  lemma PlaceholderExactlyWhenNothingFound(code: string)
    ensures |DetectedBugs(code)| >= 1
    ensures DetectedBugs(code) == [NoBugsFound] <==> NoRuleFires(code)
    ensures NoBugsFound in DetectedBugs(code) <==> NoRuleFires(code)
  {
    var found := WholeFileFindings(code) + TodoFindings(Lines(code));
    RuleFindingsEmpty(code);
    RuleFindingsNotInfo(code);
    if found != [] {
      assert NoBugsFound.Severity() == Info;
      assert NoBugsFound !in found;
      assert DetectedBugs(code) == found;
    }
  }

  /** `bugs_found` counts the entries that are not info: 0 for the placeholder, else all of them. */
  lemma BugsFoundCount(code: string)
    ensures CountNonInfo(DetectedBugs(code)) == if NoRuleFires(code) then 0 else |DetectedBugs(code)|
  {
    RuleFindingsEmpty(code);
    RuleFindingsNotInfo(code);
    if !NoRuleFires(code) {
      CountNonInfoAll(DetectedBugs(code));
    }
  }

  /** A finding of a whole-file rule is in `bugs` exactly when that rule fires. */
  lemma WholeFileEntries(code: string)
    ensures ExecEvalBug in DetectedBugs(code) <==> UsesExecOrEval(code)
    ensures PasswordBug in DetectedBugs(code) <==> ExposesPassword(code)
    ensures TryBug in DetectedBugs(code) <==> UnbalancedTry(code)
  {
    var whole := WholeFileFindings(code);
    var todo := TodoFindings(Lines(code));
    TodoFindingsShape(Lines(code));
    assert forall k :: 0 <= k < |todo| ==> todo[k].TodoBug?;
    assert ExecEvalBug !in todo && PasswordBug !in todo && TryBug !in todo;
    assert whole + todo != [] ==> DetectedBugs(code) == whole + todo;
  }

  /** A high-severity security entry is present exactly when exec/eval is used or a password may be logged. */
  lemma HighSecurityEntry(code: string)
    ensures (exists b :: b in DetectedBugs(code) && b.Severity() == High && b.Category() == "security")
      <==> UsesExecOrEval(code) || ExposesPassword(code)
  {
    TodoFindingsShape(Lines(code));
    WholeFileEntries(code);
  }

  /** Each line's finding is in `bugs` exactly when that line carries TODO or FIXME. */
  lemma TodoEntryPerMarkedLine(code: string)
    ensures forall j :: 0 <= j < |Lines(code)| ==>
      (TodoBug(j + 1) in DetectedBugs(code) <==> HasMarker(Lines(code)[j]))
  {
    var lines := Lines(code);
    TodoFindingsShape(lines);
    forall j | 0 <= j < |lines|
      ensures TodoBug(j + 1) in DetectedBugs(code) <==> HasMarker(lines[j])
    {
      TodoFindingsComplete(lines, j);
    }
  }

  /** A low entry of `whole + todo` comes from `todo` when `whole` has none. */
  lemma LowFromLineFindings(whole: seq<Bug>, todo: seq<Bug>, lines: seq<string>)
    requires forall k :: 0 <= k < |whole| ==> whole[k].Severity() != Low
    requires forall k :: 0 <= k < |todo| ==>
      todo[k].TodoBug? && 1 <= todo[k].lineNumber <= |lines| && HasMarker(lines[todo[k].lineNumber - 1])
    ensures forall b :: b in whole + todo && b.Severity() == Low ==>
      b.TodoBug? && 1 <= b.lineNumber <= |lines| && HasMarker(lines[b.lineNumber - 1])
  {
    forall b | b in whole + todo && b.Severity() == Low
      ensures b.TodoBug? && 1 <= b.lineNumber <= |lines| && HasMarker(lines[b.lineNumber - 1])
    {
      var k :| 0 <= k < |whole + todo| && (whole + todo)[k] == b;
      if k >= |whole| {
        assert todo[k - |whole|] == b;
      }
    }
  }

  /** Every low-severity entry is the finding for a marked line, with that line's 1-based number. */
  lemma LowEntriesAreMarkedLines(code: string)
    ensures forall b :: b in DetectedBugs(code) && b.Severity() == Low ==>
      b.TodoBug? && b.Line() == Some(b.lineNumber) && 1 <= b.lineNumber <= |Lines(code)|
      && HasMarker(Lines(code)[b.lineNumber - 1])
  {
    var lines := Lines(code);
    var whole := WholeFileFindings(code);
    TodoFindingsShape(lines);
    assert forall k :: 0 <= k < |whole| ==> whole[k].Severity() != Low;
    LowFromLineFindings(whole, TodoFindings(lines), lines);
    assert NoBugsFound.Severity() != Low;
  }

  /** Appending line findings in rising line order after entries that are not low keeps the low ones last and ordered. */
  lemma LowAfterOthers(whole: seq<Bug>, todo: seq<Bug>)
    requires forall k :: 0 <= k < |whole| ==> whole[k].Severity() != Low
    requires forall k :: 0 <= k < |todo| ==> todo[k].TodoBug?
    requires forall i, j :: 0 <= i < j < |todo| ==> todo[i].lineNumber < todo[j].lineNumber
    ensures var bugs := whole + todo;
      forall i, j :: 0 <= i < j < |bugs| && bugs[i].Severity() == Low ==>
        bugs[j].Severity() == Low && bugs[i].lineNumber < bugs[j].lineNumber
  {
    var bugs := whole + todo;
    forall i, j | 0 <= i < j < |bugs| && bugs[i].Severity() == Low
      ensures bugs[j].Severity() == Low && bugs[i].lineNumber < bugs[j].lineNumber
    {
      assert bugs[i] == todo[i - |whole|];
      assert bugs[j] == todo[j - |whole|];
    }
  }

  /** Low-severity entries come after all other entries, in strictly increasing line order. */
  lemma LowEntriesLastInLineOrder(code: string)
    ensures forall i, j :: 0 <= i < j < |DetectedBugs(code)| && DetectedBugs(code)[i].Severity() == Low ==>
      DetectedBugs(code)[j].Severity() == Low
      && DetectedBugs(code)[i].lineNumber < DetectedBugs(code)[j].lineNumber
  {
    var whole := WholeFileFindings(code);
    var todo := TodoFindings(Lines(code));
    TodoFindingsShape(Lines(code));
    assert forall k :: 0 <= k < |whole| ==> whole[k].Severity() != Low;
    LowAfterOthers(whole, todo);
  }

  // ---------------------------------------------------------------------------------------
  // Properties of generate_fix and of the language map

  /**
   * The rewrite is Python's `replace` twice, i.e. `"# REMOVED: exec(".join(code.split("exec("))`
   * and likewise for `eval(`; each rewritten occurrence adds 11 characters, and code with
   * neither pattern is returned unchanged.
   */
  lemma FixedCodeSpec(code: string)
    ensures var once := Join(Split(code, "exec("), "# REMOVED: exec(");
      FixedCode(code) == Join(Split(once, "eval("), "# REMOVED: eval(")
    ensures |FixedCode(code)| ==
      |code| + 11 * (Count(code, "exec(") + Count(Replace(code, "exec(", "# REMOVED: exec("), "eval("))
    ensures !UsesExecOrEval(code) ==> FixedCode(code) == code
  {
    var once := Replace(code, "exec(", "# REMOVED: exec(");
    ReplaceIsJoinSplit(code, "exec(", "# REMOVED: exec(");
    ReplaceIsJoinSplit(once, "eval(", "# REMOVED: eval(");
    ReplaceLength(code, "exec(", "# REMOVED: exec(");
    ReplaceLength(once, "eval(", "# REMOVED: eval(");
    if !UsesExecOrEval(code) {
      Absent(code, "exec(", "# REMOVED: exec(");
      Absent(code, "eval(", "# REMOVED: eval(");
    }
  }

  /** The suggestion quotes the original code, the line entry, and ends with the rewritten code. */
  lemma FixSuggestionQuotes(code: string, description: string, lineLabel: string)
    ensures Contains(FixSuggestion(code, description, lineLabel), code)
    ensures Contains(FixSuggestion(code, description, lineLabel), LineEntry(lineLabel))
    ensures var s := FixSuggestion(code, description, lineLabel); var tail := FixedCode(code) + "\n";
      |tail| <= |s| && s[|s| - |tail|..] == tail
  {
    LayoutQuotes(OriginalHeader, code, BugEntry(description), LineEntry(lineLabel), FixSteps, FixedCode(code));
  }

  /** A generate_fix call reports the rewritten code and high confidence. */
  lemma GenerateFixResult(args: Args, parse: string -> Option<SyntaxError>)
    ensures var r := ToolResponse("generate_fix", args, parse);
      r.FixReport? && r.confidence == "high" && r.Status() == "success"
      && ("line_number" !in args ==> Contains(r.fixSuggestion, LineEntry("Multiple lines")))
  {
    var code := GetString(args, "code", "");
    FixSuggestionQuotes(code, GetString(args, "bug_description", ""), LineLabel(args));
  }

  /** analyze_code_syntax reports one issue for Python, an error exactly when parsing fails, and none otherwise. */
  lemma SyntaxIssuesShape(code: string, language: string, parse: string -> Option<SyntaxError>)
    ensures language != "python" ==> SyntaxIssues(code, language, parse) == []
    ensures language == "python" ==> |SyntaxIssues(code, language, parse)| == 1
    ensures language == "python" ==>
      (SyntaxIssues(code, language, parse)[0].kind == "error" <==> parse(code).Some?)
    ensures language == "python" && parse(code).Some? ==>
      SyntaxIssues(code, language, parse)[0].line == Some(parse(code).value.line)
  {
  }

  /** The suffix of `dir/stem.ext` is `.ext`, so e.g. `src/app.py` is Python. */
  lemma SuffixOfSourcePath(dir: string, stem: string, ext: string)
    requires |stem| > 0 && |ext| > 0
    requires forall k :: 0 <= k < |stem| ==> stem[k] != '/'
    requires forall k :: 0 <= k < |ext| ==> ext[k] != '/' && ext[k] != '.'
    ensures Suffix(dir + "/" + stem + "." + ext) == "." + ext
  {
    var path := dir + "/" + stem + "." + ext;
    var name := stem + "." + ext;
    assert path == dir + "/" + name;
    forall k | |dir| < k < |path| ensures path[k] != '/' {
      assert path[k] == name[k - |dir| - 1];
    }
    LastIndexOfAt(path, '/', |dir|);
    assert FileName(path) == name;
    forall k | |stem| < k < |name| ensures name[k] != '.' {
      assert name[k] == ext[k - |stem| - 1];
    }
    LastIndexOfAt(name, '.', |stem|);
    assert name[|stem|..] == "." + ext;
  }

  /** A dot file such as `.py` has no suffix, so its language is unknown. */
  lemma DotFileHasNoLanguage(dir: string, ext: string)
    requires forall k :: 0 <= k < |ext| ==> ext[k] != '/' && ext[k] != '.'
    ensures Language(Suffix(dir + "/." + ext)) == "unknown"
  {
    var path := dir + "/." + ext;
    var name := "." + ext;
    assert path == dir + "/" + name;
    forall k | |dir| < k < |path| ensures path[k] != '/' {
      assert path[k] == name[k - |dir| - 1];
    }
    LastIndexOfAt(path, '/', |dir|);
    assert FileName(path) == name;
    LastIndexOfAt(name, '.', 0);
  }
}
