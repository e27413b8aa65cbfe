/**
 * The advanced tool agent: the two tools of `AdvancedToolAgent._execute_tool` (code
 * generation and code analysis through the Gemini command line, and the reply to any other
 * name), `process_request`, which runs at most the first function call of the model's reply,
 * and the read loop of `interactive_mode`. The command line, the model and the console are
 * inputs.
 */
module ToolAgent {
  import opened Wrappers
  import opened Text
  import opened GenAi

  // ---------------------------------------------------------------------------------------
  // generate_code_with_cli

  /** The prompt handed to the command line for code generation. */
  function GenerationPrompt(complexity: string, language: string, task: string): string {
    "Generate " + complexity + " " + language + " code for: " + task
  }

  /** The fixed template is chosen when the lower-cased task mentions both a REST API and auth. */
  predicate WantsRestApi(task: string) {
    Contains(Lower(task), "rest api") && Contains(Lower(task), "auth")
  }

  /** The first line of the fixed Flask template; the rest of its text is not part of this model. */
  const RestApiTemplate := "# Python REST API with Authentication\n"

  const GeneratedHead := "# Generated "
  const CodeFor := " code for: "
  const ComplexityHead := "\n# Complexity: "

  /** The `main` stub of the generic template, which quotes the `task` argument three times. */
  function MainStub(task: string): string {
    "\n\ndef main():\n    \"\"\"\n    " + task + "\n    \"\"\"\n    # TODO: Implement " + task
    + "\n    print(\"Implementation for: " + task + "\")\n    pass\n\nif __name__ == \"__main__\":\n    main()\n"
  }

  /** The generic template used for every other task. */
  function GenericTemplate(language: string, task: string, complexity: string): string {
    GeneratedHead + language + CodeFor + task + ComplexityHead + complexity + MainStub(task)
  }

  /** The code generate_code_with_cli returns. */
  function GeneratedCode(language: string, task: string, complexity: string): string {
    if WantsRestApi(task) then RestApiTemplate else GenericTemplate(language, task, complexity)
  }

  // ---------------------------------------------------------------------------------------
  // analyze_code_with_cli

  /** `code[:200]` */
  function Head200(code: string): (h: string)
    ensures |h| <= 200 && |h| <= |code| && h == code[..|h|]
    ensures |code| <= 200 ==> h == code
    ensures |code| > 200 ==> |h| == 200
  {
    if |code| <= 200 then code else code[..200]
  }

  /** The prompt handed to the command line for analysis. */
  function AnalysisPrompt(analysisType: string, code: string): string {
    "Analyze this code for " + analysisType + ": " + Head200(code)
  }

  /** The findings, which do not depend on the code. */
  const Findings: seq<string> := [
    "Code structure is well-organized",
    "Consider adding error handling",
    "Performance optimization opportunities found"]

  // ---------------------------------------------------------------------------------------
  // The dispatcher

  /** The JSON object a tool returns, one variant per shape. */
  datatype ToolResult =
    | Generated(language: string, code: string, complexity: string, cliOutput: string)
    | Analyzed(analysisType: string, findings: seq<string>, cliOutput: string)
    | UnknownFunction
  {
    function Status(): string {
      if UnknownFunction? then "error" else "success"
    }

    /** The `message` of an error reply. */
    function Message(): Option<string> {
      if UnknownFunction? then Some("Unknown function") else None
    }
  }

  /** `_execute_tool(name, args)`; `cli` stands for the command line's output for a prompt. */
  function ExecuteTool(name: string, args: Args, cli: string -> string): (r: ToolResult)
    ensures r.Status() == "error" <==> name != "generate_code_with_cli" && name != "analyze_code_with_cli"
    ensures r.Status() == "error" ==> r.Message() == Some("Unknown function")
  {
    if name == "generate_code_with_cli" then
      var task := GetString(args, "task", "");
      var language := GetString(args, "language", "python");
      var complexity := GetString(args, "complexity", "moderate");
      var output := cli(GenerationPrompt(complexity, language, task));
      Generated(language, GeneratedCode(language, task, complexity), complexity, output)
    else if name == "analyze_code_with_cli" then
      var code := GetString(args, "code", "");
      var analysisType := GetString(args, "analysis_type", "all");
      Analyzed(analysisType, Findings, cli(AnalysisPrompt(analysisType, code)))
    else
      UnknownFunction
  }

  /** Generation echoes the resolved language and complexity, and passes the command line's output on verbatim. */
  lemma GenerationResult(args: Args, cli: string -> string)
    ensures var r := ExecuteTool("generate_code_with_cli", args, cli);
      var task := GetString(args, "task", "");
      var language := GetString(args, "language", "python");
      var complexity := GetString(args, "complexity", "moderate");
      r.Generated? && r.Status() == "success"
      && r.language == language && r.complexity == complexity
      && r.code == GeneratedCode(language, task, complexity)
      && r.cliOutput == cli(GenerationPrompt(complexity, language, task))
  {
  }

  /** Without arguments `task` is empty, the language Python and the complexity moderate. */
  lemma GenerationDefaults(cli: string -> string)
    ensures var r := ExecuteTool("generate_code_with_cli", map[], cli);
      r.language == "python" && r.complexity == "moderate"
      && r.cliOutput == cli("Generate moderate python code for: ")
      && r.code == GenericTemplate("python", "", "moderate")
  {
    assert !WantsRestApi("");
    assert GenerationPrompt("moderate", "python", "") == "Generate moderate python code for: ";
  }

  /** The fixed template is used exactly when the `task` argument asks for a REST API with auth, and it differs from the generic one. */
  lemma TemplateChoice(language: string, task: string, complexity: string)
    ensures GeneratedCode(language, task, complexity) == RestApiTemplate <==> WantsRestApi(task)
    ensures !WantsRestApi(task) ==> GeneratedCode(language, task, complexity) == GenericTemplate(language, task, complexity)
  {
    var g := GenericTemplate(language, task, complexity);
    assert g[2] == GeneratedHead[2];
    assert RestApiTemplate[2] != GeneratedHead[2];
  }

  /** The generic template names the language, the `task` argument and the complexity. */
  lemma GenericTemplateMentions(language: string, task: string, complexity: string)
    ensures var t := GenericTemplate(language, task, complexity);
      Contains(t, language) && Contains(t, task) && Contains(t, complexity)
  {
    SevenPieces(GeneratedHead, language, CodeFor, task, ComplexityHead, complexity, MainStub(task));
  }

  /** Analysis defaults the type to "all" and always reports the same three findings. */
  lemma AnalysisResult(args: Args, cli: string -> string)
    ensures var r := ExecuteTool("analyze_code_with_cli", args, cli);
      var analysisType := GetString(args, "analysis_type", "all");
      r.Analyzed? && r.Status() == "success" && r.analysisType == analysisType
      && r.findings == Findings && |r.findings| == 3
      && ("analysis_type" !in args ==> r.analysisType == "all")
      && r.cliOutput == cli(AnalysisPrompt(analysisType, GetString(args, "code", "")))
  {
  }

  /** Only the first 200 characters of the code reach the analysis prompt. */
  lemma AnalysisPromptSeesHead(analysisType: string, code: string, other: string)
    requires |code| >= 200 && |other| >= 200 && code[..200] == other[..200]
    ensures AnalysisPrompt(analysisType, code) == AnalysisPrompt(analysisType, other)
  {
  }

  /** Code of at most 200 characters reaches the prompt whole. */
  lemma AnalysisPromptShortCode(analysisType: string, code: string)
    requires |code| <= 200
    ensures AnalysisPrompt(analysisType, code) == "Analyze this code for " + analysisType + ": " + code
  {
  }

  // ---------------------------------------------------------------------------------------
  // process_request

  /** A tool run by process_request: its name and its result. */
  datatype Execution = Execution(name: string, result: ToolResult)

  /**
   * process_request: `parts` are the parts of the model's first reply and `replyText` its
   * text; `followUp(name, result)` is the text of the model's reply to the tool's result.
   * `executed` lists the tools run, in order.
   */
  method ProcessRequest(parts: seq<Part>, replyText: string, followUp: (string, ToolResult) -> string,
                        cli: string -> string)
    returns (response: string, executed: seq<Execution>)
    ensures |executed| <= 1
    ensures FirstCallIndex(parts).None? ==> response == replyText && executed == []
    ensures FirstCallIndex(parts).Some? ==>
      var call := parts[FirstCallIndex(parts).value].call;
      executed == [Execution(call.name, ExecuteTool(call.name, call.args, cli))]
      && response == followUp(call.name, executed[0].result)
  {
    for i := 0 to |parts|
      invariant forall k :: 0 <= k < i ==> parts[k].TextPart?
    {
      if parts[i].CallPart? {
        var call := parts[i].call;
        var result := ExecuteTool(call.name, call.args, cli);
        return followUp(call.name, result), [Execution(call.name, result)];
      }
    }
    return replyText, [];
  }

  /** The tool that runs is the first of all the calls the reply makes, and one runs exactly when there is a call. */
  lemma ProcessRequestRunsFirstCall(parts: seq<Part>)
    ensures FirstCallIndex(parts).Some? <==> Calls(parts) != []
    ensures Calls(parts) != [] ==> parts[FirstCallIndex(parts).value].call == Calls(parts)[0]
  {
    FirstCallIsFirstOfCalls(parts);
  }

  // ---------------------------------------------------------------------------------------
  // interactive_mode

  /** `user_input.lower() in ['exit', 'quit']` for the stripped input. */
  predicate IsExit(input: string) {
    Lower(input) == "exit" || Lower(input) == "quit"
  }

  /** The requests interactive_mode processes for the lines typed, in order, up to the first exit. */
  function Requests(lines: seq<string>): seq<string>
    decreases |lines|
  {
    if lines == [] then []
    else
      var input := Strip(lines[0]);
      if IsExit(input) then []
      else if input == "" then Requests(lines[1..])
      else [input] + Requests(lines[1..])
  }

  /** Some line typed asks to leave. */
  predicate AsksToExit(lines: seq<string>) {
    exists j :: 0 <= j < |lines| && IsExit(Strip(lines[j]))
  }

  /**
   * The read loop of interactive_mode over the `lines` typed; `respond` stands for
   * process_request. It ends at an exit line, or when the lines run out.
   */
  method InteractiveMode(lines: seq<string>, respond: string -> string)
    returns (requests: seq<string>, responses: seq<string>, exited: bool)
    ensures requests == Requests(lines)
    ensures |responses| == |requests|
    ensures forall k :: 0 <= k < |requests| ==> responses[k] == respond(requests[k])
    ensures exited <==> AsksToExit(lines)
  {
    requests, responses, exited := [], [], false;
    var i := 0;
    while i < |lines|
      invariant 0 <= i <= |lines|
      invariant Requests(lines) == requests + Requests(lines[i..])
      invariant |responses| == |requests|
      invariant forall k :: 0 <= k < |requests| ==> responses[k] == respond(requests[k])
      invariant forall j :: 0 <= j < i ==> !IsExit(Strip(lines[j]))
    {
      var input := Strip(lines[i]);
      assert lines[i..][0] == lines[i] && lines[i..][1..] == lines[i + 1..];
      if IsExit(input) {
        exited := true;
        break;
      }
      i := i + 1;
      if input == "" {
        continue;
      }
      requests := requests + [input];
      responses := responses + [respond(input)];
    }
    if !exited {
      assert lines[i..] == [];
    }
  }

  /** Lines before an exit that asks nothing are read on: the requests of a concatenation. */
  lemma {:induction false} RequestsAppend(prefix: seq<string>, rest: seq<string>)
    requires !AsksToExit(prefix)
    ensures Requests(prefix + rest) == Requests(prefix) + Requests(rest)
    decreases |prefix|
  {
    if prefix != [] {
      var lines := prefix + rest;
      assert lines[0] == prefix[0];
      assert lines[1..] == prefix[1..] + rest;
      assert !AsksToExit(prefix[1..]) by {
        forall j | 0 <= j < |prefix[1..]| ensures !IsExit(Strip(prefix[1..][j])) {
          assert prefix[1..][j] == prefix[j + 1];
          assert !IsExit(Strip(prefix[j + 1]));
        }
      }
      assert !IsExit(Strip(prefix[0]));
      RequestsAppend(prefix[1..], rest);
    } else {
      assert prefix + rest == rest;
    }
  }

  /** An exit line ends the session: nothing typed after it is processed. */
  lemma {:induction false} ExitEndsSession(prefix: seq<string>, line: string, rest: seq<string>)
    requires IsExit(Strip(line))
    ensures Requests(prefix + [line] + rest) == Requests(prefix)
    ensures AsksToExit(prefix + [line] + rest)
    decreases |prefix|
  {
    var lines := prefix + [line] + rest;
    assert lines[|prefix|] == line;
    if prefix != [] {
      assert lines[0] == prefix[0];
      assert lines[1..] == prefix[1..] + [line] + rest;
      ExitEndsSession(prefix[1..], line, rest);
    } else {
      assert lines[0] == line;
    }
  }

  /** A blank line is skipped without being processed. */
  lemma {:induction false} BlankLineSkipped(prefix: seq<string>, line: string, rest: seq<string>)
    requires Strip(line) == ""
    ensures Requests(prefix + [line] + rest) == Requests(prefix + rest)
    decreases |prefix|
  {
    var lines := prefix + [line] + rest;
    if prefix != [] {
      assert lines[0] == prefix[0];
      assert lines[1..] == prefix[1..] + [line] + rest;
      assert (prefix + rest)[0] == prefix[0];
      assert (prefix + rest)[1..] == prefix[1..] + rest;
      BlankLineSkipped(prefix[1..], line, rest);
    } else {
      assert lines[0] == line && lines[1..] == rest;
      assert prefix + rest == rest;
      assert !IsExit("");
    }
  }

  /** Every processed request is stripped, non-empty, and not an exit command. */
  lemma {:induction false} RequestsAreClean(lines: seq<string>)
    ensures forall k :: 0 <= k < |Requests(lines)| ==>
      var r := Requests(lines)[k];
      r != "" && Strip(r) == r && !IsExit(r)
    decreases |lines|
  {
    if lines != [] {
      RequestsAreClean(lines[1..]);
      StripIdempotent(lines[0]);
    }
  }

  /** `s` spells the lower-case `word` with any of its letters in upper case. */
  predicate SpellsInAnyCase(s: string, word: string) {
    |s| == |word| && forall i :: 0 <= i < |s| ==> s[i] == word[i] || s[i] as int == word[i] as int - 32
  }

  /** A character lower-cases to the letter `w` exactly when it is `w` or its capital. */
  lemma LowerCharToLetter(c: char, w: char)
    requires 'a' <= w <= 'z'
    ensures LowerChar(c) == w <==> c == w || c as int == w as int - 32
  {
  }

  /** Lower-casing yields an all-lower-case word exactly when the input spells it in some case. */
  lemma LowerToWord(s: string, word: string)
    requires forall i :: 0 <= i < |word| ==> 'a' <= word[i] <= 'z'
    ensures Lower(s) == word <==> SpellsInAnyCase(s, word)
  {
    if |s| == |word| {
      forall i | 0 <= i < |s|
        ensures Lower(s)[i] == word[i] <==> s[i] == word[i] || s[i] as int == word[i] as int - 32
      {
        LowerCharToLetter(s[i], word[i]);
      }
      if SpellsInAnyCase(s, word) {
        assert forall i :: 0 <= i < |s| ==> Lower(s)[i] == word[i];
      }
    }
  }

  /** Exactly the inputs spelling exit or quit, in any mix of letter cases, end the session. */
  lemma ExitSpellings(input: string)
    ensures IsExit(input) <==> SpellsInAnyCase(input, "exit") || SpellsInAnyCase(input, "quit")
  {
    LowerToWord(input, "exit");
    LowerToWord(input, "quit");
  }
}
