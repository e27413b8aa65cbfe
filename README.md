# Lead research, tool and bug assistant agents — a Dafny model

This project models the deterministic logic of three agents built on the Gemini API. Everything
the hosted model, the Gemini command line, the parsers and the clock supply is a parameter.

- **Bug assistant** (`bug_assistant.py`, module `BugAssistant`). The rule-based
  `detect_common_bugs` tool runs three whole-file checks (exec/eval, password exposure, unbalanced
  `try:`) and a per-line TODO/FIXME scan. When no rule fires it returns a single info placeholder.
  It also reports the number of non-info entries. Also modelled: the `generate_fix` rewrite, the
  unknown-name reply, the suffix-to-language map, and `analyze_file`'s loop over the reply's
  function calls.
- **Lead research agent** (`research_agent.py`, module `LeadResearch`). Covers the code-fence
  stripper applied to replies before JSON parsing, the fallback records, and the search query. The
  `ResearchAgent` class keeps its append-only `researchHistory`. Also modelled: the CSV row
  mapping with its defaults, and the merge of company, research and contacts records in `main`.
- **Advanced tool agent** (`tool_agent.py`, module `ToolAgent`). Covers the two CLI tools with
  their argument defaults, prompts and template choice, and `process_request`, which runs at most
  the first tool call. It also covers the read loop of `interactive_mode`, with its exit and skip
  rules.

Supporting modules:

- `Wrappers`: Option and Result.
- `Text`: Python's `str` operations, among them `in`, `find`, `count`, `split`, `replace`,
  `strip` (with Python's exact whitespace set), `lower` and decimal rendering. Each comes with the
  laws the models rely on.
- `GenAi`: function-call arguments and the parts of a model reply.
- `Seqs`: mapping a function over a sequence, with or without positions. Its index lemmas are proved once, for any function.

## Model

| member | source | states |
|---|---|---|
| Text.Find | Building_E2E_Google_ADK_Agent_application/3.MCP_Tools_Agent_For_Bug_Assistance/bug_assistant.py:117 | the index found is the first occurrence of the pattern; None means it occurs nowhere (Python's `in`) |
| Text.Count | Building_E2E_Google_ADK_Agent_application/3.MCP_Tools_Agent_For_Bug_Assistance/bug_assistant.py:133 | `str.count`, non-overlapping occurrences: specified by Text.SplitCount and Text.ReplaceLength |
| Text.Replace | Building_E2E_Google_ADK_Agent_application/3.MCP_Tools_Agent_For_Bug_Assistance/bug_assistant.py:184 | `str.replace`: specified by Text.ReplaceIsJoinSplit and Text.ReplaceLength |
| Text.Strip | Building_E2E_Google_ADK_Agent_application/2.Advanced_Tool_Agent_Using_Gemini_CLI/tool_agent.py:321 | `str.strip()` with Python's whitespace set: specified by Text.StripSlice, Text.StripEnds and Text.StripIdempotent |
| Text.Lower | Building_E2E_Google_ADK_Agent_application/3.MCP_Tools_Agent_For_Bug_Assistance/bug_assistant.py:125 | `str.lower()` on ASCII letters: keeps the length; specified by ToolAgent.LowerToWord |
| Text.Split | Building_E2E_Google_ADK_Agent_application/3.MCP_Tools_Agent_For_Bug_Assistance/bug_assistant.py:141 | `str.split(sep)` always yields at least one piece |
| Text.JoinSplit | Building_E2E_Google_ADK_Agent_application/3.MCP_Tools_Agent_For_Bug_Assistance/bug_assistant.py:141 | joining the pieces of a split with the separator gives back the original string |
| Text.SplitCount | Building_E2E_Google_ADK_Agent_application/3.MCP_Tools_Agent_For_Bug_Assistance/bug_assistant.py:133-141 | a split yields one piece more than `str.count` counts occurrences |
| Text.ReplaceIsJoinSplit | Building_E2E_Google_ADK_Agent_application/3.MCP_Tools_Agent_For_Bug_Assistance/bug_assistant.py:184 | `str.replace(p, r)` is the split on `p` joined with `r` |
| Text.ReplaceLength | Building_E2E_Google_ADK_Agent_application/3.MCP_Tools_Agent_For_Bug_Assistance/bug_assistant.py:184 | a replacement changes the length by (|r| - |p|) per occurrence counted |
| Text.SplitPiecesFree | Building_E2E_Google_ADK_Agent_application/1.Deep_Research_Agent_For_Lead_Generation/research_agent.py:171-173 | no piece of a split contains the separator |
| Text.SplitSecond | Building_E2E_Google_ADK_Agent_application/1.Deep_Research_Agent_For_Lead_Generation/research_agent.py:171-173 | when the separator occurs, the split has a second piece: the text after the first occurrence up to the next |
| Text.StripSlice | Building_E2E_Google_ADK_Agent_application/2.Advanced_Tool_Agent_Using_Gemini_CLI/tool_agent.py:321 | `str.strip()` removes exactly a run of whitespace at each end |
| Text.StripEnds | Building_E2E_Google_ADK_Agent_application/2.Advanced_Tool_Agent_Using_Gemini_CLI/tool_agent.py:321 | a stripped string is empty or neither starts nor ends with whitespace |
| Text.StripIdempotent | Building_E2E_Google_ADK_Agent_application/2.Advanced_Tool_Agent_Using_Gemini_CLI/tool_agent.py:321 | stripping twice is stripping once |
| Text.StripKeeps | Building_E2E_Google_ADK_Agent_application/1.Deep_Research_Agent_For_Lead_Generation/research_agent.py:169-170 | a pattern without whitespace survives `strip()` |
| Text.ParseNatToString | Building_E2E_Google_ADK_Agent_application/3.MCP_Tools_Agent_For_Bug_Assistance/bug_assistant.py:147 | the decimal rendering of a line number reads back as that number |
| Text.NatToStringInjective | Building_E2E_Google_ADK_Agent_application/3.MCP_Tools_Agent_For_Bug_Assistance/bug_assistant.py:147 | different line numbers render differently |
| GenAi.FirstCallIndex | Building_E2E_Google_ADK_Agent_application/2.Advanced_Tool_Agent_Using_Gemini_CLI/tool_agent.py:272-274 | the index of the first function-call part; every part before it is text; None when no part is a call |
| GenAi.FirstCallIsFirstOfCalls | Building_E2E_Google_ADK_Agent_application/2.Advanced_Tool_Agent_Using_Gemini_CLI/tool_agent.py:272-274 | there is a first call exactly when the reply has a call, and it is the first of all its calls |
| GenAi.CallsSnoc | Building_E2E_Google_ADK_Agent_application/3.MCP_Tools_Agent_For_Bug_Assistance/bug_assistant.py:250-254 | collecting the calls of one more part appends that part's call, if any |
| BugAssistant.ToolResponse | Building_E2E_Google_ADK_Agent_application/3.MCP_Tools_Agent_For_Bug_Assistance/bug_assistant.py:85-193 | the reply has status error exactly for a name outside the three tools, with message "Unknown function" |
| BugAssistant.UsesExecOrEval | Building_E2E_Google_ADK_Agent_application/3.MCP_Tools_Agent_For_Bug_Assistance/bug_assistant.py:117 | the exec/eval condition: specified by BugAssistant.WholeFileEntries and BugAssistant.HighSecurityEntry |
| BugAssistant.ExposesPassword | Building_E2E_Google_ADK_Agent_application/3.MCP_Tools_Agent_For_Bug_Assistance/bug_assistant.py:125 | the password condition: specified by BugAssistant.HighSecurityEntry |
| BugAssistant.UnbalancedTry | Building_E2E_Google_ADK_Agent_application/3.MCP_Tools_Agent_For_Bug_Assistance/bug_assistant.py:133 | more `try:` than `except`: specified by BugAssistant.WholeFileEntries |
| BugAssistant.HasMarker | Building_E2E_Google_ADK_Agent_application/3.MCP_Tools_Agent_For_Bug_Assistance/bug_assistant.py:143 | a TODO or FIXME line: specified by BugAssistant.TodoEntryPerMarkedLine |
| BugAssistant.Lines | Building_E2E_Google_ADK_Agent_application/3.MCP_Tools_Agent_For_Bug_Assistance/bug_assistant.py:141 | the lines of the code: specified by Text.Split and Text.JoinSplit |
| BugAssistant.WholeFileFindings | Building_E2E_Google_ADK_Agent_application/3.MCP_Tools_Agent_For_Bug_Assistance/bug_assistant.py:116-139 | the three whole-file checks: specified by BugAssistant.WholeFileEntries and BugAssistant.WholeFileChecks |
| BugAssistant.TodoFindings | Building_E2E_Google_ADK_Agent_application/3.MCP_Tools_Agent_For_Bug_Assistance/bug_assistant.py:141-149 | the per-line scan: specified by BugAssistant.TodoFindingsShape, BugAssistant.TodoFindingsComplete and BugAssistant.TodoEntryPerMarkedLine |
| BugAssistant.DetectedBugs | Building_E2E_Google_ADK_Agent_application/3.MCP_Tools_Agent_For_Bug_Assistance/bug_assistant.py:114-156 | the bugs list: specified by BugAssistant.PlaceholderExactlyWhenNothingFound, BugAssistant.WholeFileEntries, BugAssistant.TodoEntryPerMarkedLine and BugAssistant.LowEntriesLastInLineOrder |
| BugAssistant.CountNonInfo | Building_E2E_Google_ADK_Agent_application/3.MCP_Tools_Agent_For_Bug_Assistance/bug_assistant.py:160 | `bugs_found`: specified by BugAssistant.BugsFoundCount and BugAssistant.CountNonInfoAll |
| BugAssistant.SyntaxIssues | Building_E2E_Google_ADK_Agent_application/3.MCP_Tools_Agent_For_Bug_Assistance/bug_assistant.py:88-103 | the syntax check: specified by BugAssistant.SyntaxIssuesShape |
| BugAssistant.FixedCode | Building_E2E_Google_ADK_Agent_application/3.MCP_Tools_Agent_For_Bug_Assistance/bug_assistant.py:184 | the fixed code: specified by BugAssistant.FixedCodeSpec |
| BugAssistant.LineLabel | Building_E2E_Google_ADK_Agent_application/3.MCP_Tools_Agent_For_Bug_Assistance/bug_assistant.py:167-175 | the Line entry: specified by BugAssistant.GenerateFixResult |
| BugAssistant.FixSuggestion | Building_E2E_Google_ADK_Agent_application/3.MCP_Tools_Agent_For_Bug_Assistance/bug_assistant.py:170-185 | the suggestion text: specified by BugAssistant.FixSuggestionQuotes |
| BugAssistant.FileName | Building_E2E_Google_ADK_Agent_application/3.MCP_Tools_Agent_For_Bug_Assistance/bug_assistant.py:215 | the name after the last slash: specified by BugAssistant.SuffixOfSourcePath and BugAssistant.DotFileHasNoLanguage |
| BugAssistant.ExecutedAll | Building_E2E_Google_ADK_Agent_application/3.MCP_Tools_Agent_For_Bug_Assistance/bug_assistant.py:256-270 | the records of the calls: specified by BugAssistant.ExecutedAllIndex and BugAssistant.RunCalls |
| BugAssistant.WholeFileChecks | Building_E2E_Google_ADK_Agent_application/3.MCP_Tools_Agent_For_Bug_Assistance/bug_assistant.py:114-139 | the appends of the three whole-file checks produce WholeFileFindings, in order |
| BugAssistant.LineChecks | Building_E2E_Google_ADK_Agent_application/3.MCP_Tools_Agent_For_Bug_Assistance/bug_assistant.py:141-149 | the loop over the lines appends one TODO/FIXME entry per marked line to what was found before |
| BugAssistant.DetectCommonBugs | Building_E2E_Google_ADK_Agent_application/3.MCP_Tools_Agent_For_Bug_Assistance/bug_assistant.py:111-162 | the report holds DetectedBugs(code) and counts its non-info entries |
| BugAssistant.ExecuteTool | Building_E2E_Google_ADK_Agent_application/3.MCP_Tools_Agent_For_Bug_Assistance/bug_assistant.py:85-193 | the dispatcher returns ToolResponse for every name |
| BugAssistant.PlaceholderExactlyWhenNothingFound | Building_E2E_Google_ADK_Agent_application/3.MCP_Tools_Agent_For_Bug_Assistance/bug_assistant.py:151-156 | the bugs list is never empty, and it is the single info placeholder exactly when no rule fires |
| BugAssistant.BugsFoundCount | Building_E2E_Google_ADK_Agent_application/3.MCP_Tools_Agent_For_Bug_Assistance/bug_assistant.py:158-161 | bugs_found is 0 when no rule fires and otherwise the length of the list |
| BugAssistant.CountNonInfoAll | Building_E2E_Google_ADK_Agent_application/3.MCP_Tools_Agent_For_Bug_Assistance/bug_assistant.py:160 | a list without info entries is counted whole |
| BugAssistant.RuleFindingsNotInfo | Building_E2E_Google_ADK_Agent_application/3.MCP_Tools_Agent_For_Bug_Assistance/bug_assistant.py:116-149 | no finding of a rule has severity info |
| BugAssistant.RuleFindingsEmpty | Building_E2E_Google_ADK_Agent_application/3.MCP_Tools_Agent_For_Bug_Assistance/bug_assistant.py:151 | the rules find nothing exactly when none of the four conditions holds |
| BugAssistant.WholeFileEntries | Building_E2E_Google_ADK_Agent_application/3.MCP_Tools_Agent_For_Bug_Assistance/bug_assistant.py:117-139 | the exec/eval, password and try/except entries are each present iff their condition holds |
| BugAssistant.HighSecurityEntry | Building_E2E_Google_ADK_Agent_application/3.MCP_Tools_Agent_For_Bug_Assistance/bug_assistant.py:117-131 | a high-severity security entry is present iff the code uses exec/eval or exposes a password |
| BugAssistant.TodoEntryPerMarkedLine | Building_E2E_Google_ADK_Agent_application/3.MCP_Tools_Agent_For_Bug_Assistance/bug_assistant.py:141-149 | an entry for 1-based line j+1 is present iff line j holds TODO or FIXME |
| BugAssistant.TodoFindingsShape | Building_E2E_Google_ADK_Agent_application/3.MCP_Tools_Agent_For_Bug_Assistance/bug_assistant.py:141-149 | every line entry names a marked line within range, and the entries are in strictly increasing line order |
| BugAssistant.TodoFindingsComplete | Building_E2E_Google_ADK_Agent_application/3.MCP_Tools_Agent_For_Bug_Assistance/bug_assistant.py:142-149 | a line has an entry iff it is marked |
| BugAssistant.TodoFindingsEmpty | Building_E2E_Google_ADK_Agent_application/3.MCP_Tools_Agent_For_Bug_Assistance/bug_assistant.py:141-149 | the loop finds nothing iff no line is marked |
| BugAssistant.LowEntriesAreMarkedLines | Building_E2E_Google_ADK_Agent_application/3.MCP_Tools_Agent_For_Bug_Assistance/bug_assistant.py:141-149 | every low entry carries the 1-based number of a marked line in its line field |
| BugAssistant.LowEntriesLastInLineOrder | Building_E2E_Google_ADK_Agent_application/3.MCP_Tools_Agent_For_Bug_Assistance/bug_assistant.py:116-149 | low entries come after every whole-file entry, in line order |
| BugAssistant.FixedCodeSpec | Building_E2E_Google_ADK_Agent_application/3.MCP_Tools_Agent_For_Bug_Assistance/bug_assistant.py:184 | the fixed code replaces each exec( and then each eval(, grows by 11 characters per replacement, and is the input when neither occurs |
| BugAssistant.FixSuggestionQuotes | Building_E2E_Google_ADK_Agent_application/3.MCP_Tools_Agent_For_Bug_Assistance/bug_assistant.py:170-185 | the suggestion quotes the original code and the Line entry, and ends with the fixed code and a newline |
| BugAssistant.GenerateFixResult | Building_E2E_Google_ADK_Agent_application/3.MCP_Tools_Agent_For_Bug_Assistance/bug_assistant.py:164-191 | generate_fix succeeds with confidence high, and without a line number reads "Multiple lines" |
| BugAssistant.SyntaxIssuesShape | Building_E2E_Google_ADK_Agent_application/3.MCP_Tools_Agent_For_Bug_Assistance/bug_assistant.py:88-103 | non-Python code has no issues; Python code has one issue, an error with the parser's line exactly when parsing fails |
| BugAssistant.Suffix | Building_E2E_Google_ADK_Agent_application/3.MCP_Tools_Agent_For_Bug_Assistance/bug_assistant.py:215 | a suffix is empty or starts with a dot |
| BugAssistant.SuffixOfSourcePath | Building_E2E_Google_ADK_Agent_application/3.MCP_Tools_Agent_For_Bug_Assistance/bug_assistant.py:215 | the suffix of dir/stem.ext is .ext |
| BugAssistant.DotFileHasNoLanguage | Building_E2E_Google_ADK_Agent_application/3.MCP_Tools_Agent_For_Bug_Assistance/bug_assistant.py:215-217 | a name that only starts with a dot has no suffix and so an unknown language |
| BugAssistant.Language | Building_E2E_Google_ADK_Agent_application/3.MCP_Tools_Agent_For_Bug_Assistance/bug_assistant.py:216-217 | .py, .js and .java map to python, javascript and java, every other suffix to unknown; the language is known iff the suffix is one of the three |
| BugAssistant.CollectCalls | Building_E2E_Google_ADK_Agent_application/3.MCP_Tools_Agent_For_Bug_Assistance/bug_assistant.py:250-254 | the loop collects exactly the reply's function calls, in order |
| BugAssistant.ExecuteCall | Building_E2E_Google_ADK_Agent_application/3.MCP_Tools_Agent_For_Bug_Assistance/bug_assistant.py:262-270 | one call is run through the dispatcher and recorded under its name |
| BugAssistant.RunCalls | Building_E2E_Google_ADK_Agent_application/3.MCP_Tools_Agent_For_Bug_Assistance/bug_assistant.py:256-270 | the loop's records are ExecutedAll of the calls: each call run through the dispatcher, in order |
| BugAssistant.ExecutedAllIndex | Building_E2E_Google_ADK_Agent_application/3.MCP_Tools_Agent_For_Bug_Assistance/bug_assistant.py:259-270 | one record per call, the k-th being the dispatcher's result for the k-th call under its name |
| BugAssistant.AnalyzeFile | Building_E2E_Google_ADK_Agent_application/3.MCP_Tools_Agent_For_Bug_Assistance/bug_assistant.py:195-296 | an unreadable file gives the error record; otherwise the file, its language, the records of running the reply's calls in order, and the follow-up analysis exactly when there was a call |
| LeadResearch.Unfence | Building_E2E_Google_ADK_Agent_application/1.Deep_Research_Agent_For_Lead_Generation/research_agent.py:169-173 | the fence stripper: specified by LeadResearch.UnfencedHasNoFence, LeadResearch.UnfenceWithoutFence, LeadResearch.UnfencePlain and LeadResearch.UnfenceJson |
| LeadResearch.Cut | Building_E2E_Google_ADK_Agent_application/1.Deep_Research_Agent_For_Lead_Generation/research_agent.py:171-173 | the text before the first fence: specified by LeadResearch.CutHasNoFence and LeadResearch.CutAtJsonFence |
| LeadResearch.CutHasNoFence | Building_E2E_Google_ADK_Agent_application/1.Deep_Research_Agent_For_Lead_Generation/research_agent.py:171-173 | the text cut before the first fence holds no fence |
| LeadResearch.FenceSurvivesStrip | Building_E2E_Google_ADK_Agent_application/1.Deep_Research_Agent_For_Lead_Generation/research_agent.py:169-172 | the fence tests give the same answer before and after stripping |
| LeadResearch.UnfencedHasNoFence | Building_E2E_Google_ADK_Agent_application/1.Deep_Research_Agent_For_Lead_Generation/research_agent.py:169-173 | whenever the reply had a fence, the extracted text has none |
| LeadResearch.UnfenceWithoutFence | Building_E2E_Google_ADK_Agent_application/1.Deep_Research_Agent_For_Lead_Generation/research_agent.py:169-174 | a reply without fence is only stripped |
| LeadResearch.UnfencePlain | Building_E2E_Google_ADK_Agent_application/1.Deep_Research_Agent_For_Lead_Generation/research_agent.py:172-173 | with a plain fence only, the result is the stripped text between the first and the second fence |
| LeadResearch.UnfenceJson | Building_E2E_Google_ADK_Agent_application/1.Deep_Research_Agent_For_Lead_Generation/research_agent.py:170-171 | for a reply with a json fence and without a run of four backticks, the result is the stripped text after the first json fence up to the next fence |
| LeadResearch.CutAtJsonFence | Building_E2E_Google_ADK_Agent_application/1.Deep_Research_Agent_For_Lead_Generation/research_agent.py:171 | for text without a run of four backticks, cutting at the next json fence and then at the next fence is cutting at the next fence |
| LeadResearch.FourBackticksCutDifferently | Building_E2E_Google_ADK_Agent_application/1.Deep_Research_Agent_For_Lead_Generation/research_agent.py:170-173 | on "````json" the json fence starts one backtick in: cutting at it and then at a fence leaves "`", cutting at the first fence leaves "" |
| LeadResearch.ContactInfoFallback | Building_E2E_Google_ADK_Agent_application/1.Deep_Research_Agent_For_Lead_Generation/research_agent.py:167-183 | a parsed object is returned as is; on failure exactly the six contact keys, all "Not found" |
| LeadResearch.ExtractContactInfo | Building_E2E_Google_ADK_Agent_application/1.Deep_Research_Agent_For_Lead_Generation/research_agent.py:167-183 | the contacts record: specified by LeadResearch.ContactInfoFallback |
| LeadResearch.ParseCompanyList | Building_E2E_Google_ADK_Agent_application/1.Deep_Research_Agent_For_Lead_Generation/research_agent.py:212-227 | the parsed list when parsing succeeds; otherwise three records named Company 1 to Company 3, each with exactly the five keys and website Not available |
| LeadResearch.FallbackCompanies | Building_E2E_Google_ADK_Agent_application/1.Deep_Research_Agent_For_Lead_Generation/research_agent.py:221-227 | three placeholders named Company 1 to Company 3, each with exactly the keys name, website, description, industry and size, and the fixed values Not available, Research data available in detailed report, Various and Unknown |
| LeadResearch.PlaceholderNamesDistinct | Building_E2E_Google_ADK_Agent_application/1.Deep_Research_Agent_For_Lead_Generation/research_agent.py:222 | placeholder names differ for different numbers |
| LeadResearch.SearchQuery | Building_E2E_Google_ADK_Agent_application/1.Deep_Research_Agent_For_Lead_Generation/research_agent.py:50-52 | the search query: specified by LeadResearch.SearchQueryShape |
| LeadResearch.SearchQueryShape | Building_E2E_Google_ADK_Agent_application/1.Deep_Research_Agent_For_Lead_Generation/research_agent.py:50-52 | the query starts with the industry clause and has the location suffix exactly when a non-empty location is given |
| LeadResearch.ChosenIndustry | Building_E2E_Google_ADK_Agent_application/1.Deep_Research_Agent_For_Lead_Generation/research_agent.py:291-293 | the industry is the stripped input, or the default when that is empty; never empty |
| LeadResearch.ResearchRecord | Building_E2E_Google_ADK_Agent_application/1.Deep_Research_Agent_For_Lead_Generation/research_agent.py:128-132 | the research record: specified by LeadResearch.ResearchRecordShape |
| LeadResearch.ResearchRecordShape | Building_E2E_Google_ADK_Agent_application/1.Deep_Research_Agent_For_Lead_Generation/research_agent.py:128-132 | the research record has exactly its three keys with the name, the reply and the time |
| LeadResearch.LeadRow | Building_E2E_Google_ADK_Agent_application/1.Deep_Research_Agent_For_Lead_Generation/research_agent.py:249-265 | each row has exactly the eight field names |
| LeadResearch.FieldNamesDistinct | Building_E2E_Google_ADK_Agent_application/1.Deep_Research_Agent_For_Lead_Generation/research_agent.py:249-250 | the eight field names are distinct |
| LeadResearch.LeadRowCells | Building_E2E_Google_ADK_Agent_application/1.Deep_Research_Agent_For_Lead_Generation/research_agent.py:254-265 | each cell is its source field or its default (`dict.get`, LeadResearch.Get): N/A, Not found, or empty; title comes from decision_maker_title |
| LeadResearch.LeadRowWithoutContacts | Building_E2E_Google_ADK_Agent_application/1.Deep_Research_Agent_For_Lead_Generation/research_agent.py:255-263 | without contacts every contact cell is Not found |
| LeadResearch.Merge | Building_E2E_Google_ADK_Agent_application/1.Deep_Research_Agent_For_Lead_Generation/research_agent.py:318-322 | the merged lead: specified by LeadResearch.MergeOverrides and LeadResearch.MergedRow |
| LeadResearch.MergeOverrides | Building_E2E_Google_ADK_Agent_application/1.Deep_Research_Agent_For_Lead_Generation/research_agent.py:318-322 | research keys override company keys, and contacts is written last |
| LeadResearch.MergedRow | Building_E2E_Google_ADK_Agent_application/1.Deep_Research_Agent_For_Lead_Generation/research_agent.py:315-322 | the row of a merged lead shows the researched name and time and the extracted contacts |
| LeadResearch.CompanyName | Building_E2E_Google_ADK_Agent_application/1.Deep_Research_Agent_For_Lead_Generation/research_agent.py:311-312 | the name researched: specified by LeadResearch.CompanyNameDefault |
| LeadResearch.CompanyNameDefault | Building_E2E_Google_ADK_Agent_application/1.Deep_Research_Agent_For_Lead_Generation/research_agent.py:311-312 | the company's own name, or else Company i, distinct for different positions |
| LeadResearch.ResearchAgent.constructor | Building_E2E_Google_ADK_Agent_application/1.Deep_Research_Agent_For_Lead_Generation/research_agent.py:29-37 | the history starts empty |
| LeadResearch.ResearchAgent.SearchCompanies | Building_E2E_Google_ADK_Agent_application/1.Deep_Research_Agent_For_Lead_Generation/research_agent.py:39-84 | appends exactly one company_search entry with the query and returns the parsed list |
| LeadResearch.ResearchAgent.DeepResearchCompany | Building_E2E_Google_ADK_Agent_application/1.Deep_Research_Agent_For_Lead_Generation/research_agent.py:86-132 | appends exactly one deep_research entry with the company and returns the research record |
| LeadResearch.ResearchAgent.GenerateLeadReport | Building_E2E_Google_ADK_Agent_application/1.Deep_Research_Agent_For_Lead_Generation/research_agent.py:229-276 | one row per company in input order, and the summary counts the companies and carries the history |
| LeadResearch.Researchable | Building_E2E_Google_ADK_Agent_application/1.Deep_Research_Agent_For_Lead_Generation/research_agent.py:311 | at most five companies are researched, all of them when there are fewer |
| LeadResearch.ResearchCompanies | Building_E2E_Google_ADK_Agent_application/1.Deep_Research_Agent_For_Lead_Generation/research_agent.py:309-322 | the merged leads of the first companies in order, and one deep_research history entry per company appended |
| LeadResearch.ResearchOne | Building_E2E_Google_ADK_Agent_application/1.Deep_Research_Agent_For_Lead_Generation/research_agent.py:312-322 | one pass researches the company under its name or default, logs one deep_research entry, and merges company, research and contacts |
| LeadResearch.ResearchedListIndex | Building_E2E_Google_ADK_Agent_application/1.Deep_Research_Agent_For_Lead_Generation/research_agent.py:311-322 | the i-th merged lead is the merge for the i-th company |
| LeadResearch.LoggedListIndex | Building_E2E_Google_ADK_Agent_application/1.Deep_Research_Agent_For_Lead_Generation/research_agent.py:311-315 | the i-th appended entry is deep_research for the i-th company's name |
| ToolAgent.GenerationPrompt | Building_E2E_Google_ADK_Agent_application/2.Advanced_Tool_Agent_Using_Gemini_CLI/tool_agent.py:125 | the generation prompt: specified by ToolAgent.GenerationDefaults and ToolAgent.GenerationResult |
| ToolAgent.WantsRestApi | Building_E2E_Google_ADK_Agent_application/2.Advanced_Tool_Agent_Using_Gemini_CLI/tool_agent.py:129 | the template condition: specified by ToolAgent.TemplateChoice |
| ToolAgent.GenericTemplate | Building_E2E_Google_ADK_Agent_application/2.Advanced_Tool_Agent_Using_Gemini_CLI/tool_agent.py:194-207 | the generic template: specified by ToolAgent.GenericTemplateMentions |
| ToolAgent.GeneratedCode | Building_E2E_Google_ADK_Agent_application/2.Advanced_Tool_Agent_Using_Gemini_CLI/tool_agent.py:129-207 | the code chosen: specified by ToolAgent.TemplateChoice |
| ToolAgent.AnalysisPrompt | Building_E2E_Google_ADK_Agent_application/2.Advanced_Tool_Agent_Using_Gemini_CLI/tool_agent.py:221 | the analysis prompt: specified by ToolAgent.AnalysisPromptSeesHead and ToolAgent.AnalysisPromptShortCode |
| ToolAgent.ExecuteTool | Building_E2E_Google_ADK_Agent_application/2.Advanced_Tool_Agent_Using_Gemini_CLI/tool_agent.py:118-235 | the reply has status error exactly for a name other than the two tools, with message "Unknown function" |
| ToolAgent.GenerationResult | Building_E2E_Google_ADK_Agent_application/2.Advanced_Tool_Agent_Using_Gemini_CLI/tool_agent.py:120-215 | generation succeeds, echoes the resolved language and complexity, carries the chosen code and the CLI output for the prompt |
| ToolAgent.GenerationDefaults | Building_E2E_Google_ADK_Agent_application/2.Advanced_Tool_Agent_Using_Gemini_CLI/tool_agent.py:121-125 | without arguments (`args.get` with its defaults, GenAi.GetString): empty task, python, moderate, and the prompt "Generate moderate python code for: " |
| ToolAgent.TemplateChoice | Building_E2E_Google_ADK_Agent_application/2.Advanced_Tool_Agent_Using_Gemini_CLI/tool_agent.py:129-207 | the REST API template is chosen iff the lower-cased task contains rest api and auth; otherwise the generic one |
| ToolAgent.GenericTemplateMentions | Building_E2E_Google_ADK_Agent_application/2.Advanced_Tool_Agent_Using_Gemini_CLI/tool_agent.py:194-207 | the generic template embeds the language, the `task` argument and the complexity |
| ToolAgent.AnalysisResult | Building_E2E_Google_ADK_Agent_application/2.Advanced_Tool_Agent_Using_Gemini_CLI/tool_agent.py:217-233 | analysis succeeds, defaults the type to all, and always reports the same three findings |
| ToolAgent.Head200 | Building_E2E_Google_ADK_Agent_application/2.Advanced_Tool_Agent_Using_Gemini_CLI/tool_agent.py:221 | `code[:200]`: a prefix of at most 200 characters, the whole code when it is shorter |
| ToolAgent.AnalysisPromptSeesHead | Building_E2E_Google_ADK_Agent_application/2.Advanced_Tool_Agent_Using_Gemini_CLI/tool_agent.py:221 | codes that agree on their first 200 characters give the same prompt |
| ToolAgent.AnalysisPromptShortCode | Building_E2E_Google_ADK_Agent_application/2.Advanced_Tool_Agent_Using_Gemini_CLI/tool_agent.py:221 | code of at most 200 characters reaches the prompt whole |
| ToolAgent.ProcessRequest | Building_E2E_Google_ADK_Agent_application/2.Advanced_Tool_Agent_Using_Gemini_CLI/tool_agent.py:271-311 | at most one tool runs: the first call part's tool, answered by the follow-up; with no call the first reply's text |
| ToolAgent.ProcessRequestRunsFirstCall | Building_E2E_Google_ADK_Agent_application/2.Advanced_Tool_Agent_Using_Gemini_CLI/tool_agent.py:272-309 | a tool runs exactly when the reply has a call, and it is the first of the calls |
| ToolAgent.InteractiveMode | Building_E2E_Google_ADK_Agent_application/2.Advanced_Tool_Agent_Using_Gemini_CLI/tool_agent.py:320-331 | the requests processed are Requests(lines), each answered in order, and the loop exits iff some line asks to |
| ToolAgent.IsExit | Building_E2E_Google_ADK_Agent_application/2.Advanced_Tool_Agent_Using_Gemini_CLI/tool_agent.py:323 | the exit test: specified by ToolAgent.ExitSpellings |
| ToolAgent.Requests | Building_E2E_Google_ADK_Agent_application/2.Advanced_Tool_Agent_Using_Gemini_CLI/tool_agent.py:320-331 | the requests processed: specified by ToolAgent.RequestsAppend, ToolAgent.ExitEndsSession, ToolAgent.BlankLineSkipped and ToolAgent.RequestsAreClean |
| ToolAgent.RequestsAppend | Building_E2E_Google_ADK_Agent_application/2.Advanced_Tool_Agent_Using_Gemini_CLI/tool_agent.py:320-331 | lines before any exit are processed independently of what follows |
| ToolAgent.ExitEndsSession | Building_E2E_Google_ADK_Agent_application/2.Advanced_Tool_Agent_Using_Gemini_CLI/tool_agent.py:323-325 | nothing after an exit or quit line is processed |
| ToolAgent.BlankLineSkipped | Building_E2E_Google_ADK_Agent_application/2.Advanced_Tool_Agent_Using_Gemini_CLI/tool_agent.py:327-328 | a blank line is skipped without being processed |
| ToolAgent.RequestsAreClean | Building_E2E_Google_ADK_Agent_application/2.Advanced_Tool_Agent_Using_Gemini_CLI/tool_agent.py:321-330 | every processed request is stripped, non-empty, and not an exit word |
| ToolAgent.LowerToWord | Building_E2E_Google_ADK_Agent_application/2.Advanced_Tool_Agent_Using_Gemini_CLI/tool_agent.py:323 | lower-casing gives an all-lower-case word exactly when the input spells that word with any of its letters in upper case |
| ToolAgent.ExitSpellings | Building_E2E_Google_ADK_Agent_application/2.Advanced_Tool_Agent_Using_Gemini_CLI/tool_agent.py:323-325 | an input ends the session exactly when it spells exit or quit, in any mix of letter cases |

## Left out

- Model calls, prompts and their wording. Every `generate_content` reply, including the text of a follow-up reply, is a parameter.
- Where json.loads appears, it is a parameter `parse` that may fail. The JSON the tools return is a datatype, not serialised text.
- `ast.parse` in `analyze_code_syntax` is a parameter that reports a syntax error or none.
- The Gemini CLI subprocess (`GeminiCLITool.execute`) is a parameter mapping a prompt to its output. Its timeout and error text are not modelled.
- Not modelled:
  - file reads and writes, `os.makedirs`, the CSV and JSON writers;
  - `generate_report` printing;
  - `argparse`;
  - `rglob` directory walks;
  - the demo requests.
- Timestamps from `datetime.now()` are parameters.
- `input()` is a sequence of lines. End of input, which raises in Python, ends the modelled loop without an exit.
- The pipeline in `agent.py` is not part of this model. It only constructs agent objects of a library whose looping behaviour is not available to model.
- The test scripts drive the live model and assert nothing. They are not part of this model.
- Text.Lower lowers ASCII letters only.
  - For "password", "exit" and "quit" this agrees with Python's `str.lower`.
  - For "rest api" it does not: Python lowers U+0130 to "i" followed by a combining dot, so a task spelled with U+0130 selects the REST template in Python but not in the model.
- ToolAgent.RestApiTemplate is only the first line of the fixed Flask template. The rest of that literal is not modelled.
- GenAi.Render: a non-string argument value is read as its decimal rendering. In several places Python would instead raise (`task.lower()`, `code[:200]`) or print a different form. Only string and integer argument values are modelled.
- BugAssistant.FileName takes the name after the last `/`. `pathlib`'s normalisation of trailing slashes and of `.` components is not modelled.
- LeadResearch.CutAtJsonFence requires text without a run of four backticks. On "````json" the json fence overlaps a fence: cutting at the json fence and then at a fence leaves "`", while cutting at the first fence leaves "" (LeadResearch.FourBackticksCutDifferently).
- LeadResearch.UnfenceJson assumes the reply has no run of four backticks. In that case a `json` fence can overlap a fence, and the two-step cut can differ from "up to the next fence". LeadResearch.UnfencedHasNoFence holds without that assumption.
- BugAssistant.HighSecurityEntry: the code files both the exec/eval rule and the password rule as high-severity security. So a high/security entry is present iff either rule fires, and BugAssistant.WholeFileEntries ties the exec/eval entry alone to exec(/eval(.
- LeadResearch.Record has string values only. Values of other JSON types in parsed records are not modelled.
- LeadResearch.ExtractContactInfo, LeadResearch.ParseCompanyList and LeadResearch.CompanyName take `parse` to yield a record or a list of records. If json.loads returns another top-level shape (a list or a number for the contacts, an object for the company list, or list items that are not objects), `main` crashes at `contacts.get` (research_agent.py:255-263) or at `companies[:5]` and `company.get` (research_agent.py:311-312). That crash is not modelled.
