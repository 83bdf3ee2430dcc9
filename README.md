# FaithLoop orchestration core in Dafny

FaithLoop answers a user's question, optionally about an image, by routing
it through local language models. `run_agent_workflow` in `app.py` works in
phases:
1. the vision model describes the image, if one was given;
2. a router model names one tool: MATLAB, LOGIC, SEARCH or CHAT;
3. the chosen branch runs: generated MATLAB code through the `MATLABTool`
   singleton of `agent_tool.py`, generated Python through `exec`, or a web
   search;
4. a "deep check" critiques the answer against the image;
5. a revision follows when the critique does not pass.

Every phase appends to a log list.

This project models that decision logic and the string processing it rests
on. It has seven modules:
- `Text`: Python's `str.strip` (the exact `str.isspace` set), `str.upper`, `find`, `join`, `split` and clamped slicing.
- `Context`: `get_context`.
- `Fence`: the fenced-block `re.search(r"```tag(.*?)```", ..., re.DOTALL)` and the strip of its group.
- `Search`: the result assembly of `search_web`, including its loop, as a method proved against a specification function.
- `MatlabEngine`: `MATLABTool`, with the Python class object as a Dafny class whose `New` method is `__new__`.
- `Workflow`: `run_agent_workflow`, as a method proved against specification functions of the whole run.
- `Wrappers`: the `Option` type.

Every external call is an input of the model. The `Services` value of the
workflow holds four functions:
- `chat`: from a model name and a prompt to the model's reply;
- `exec`: from a Python script to its outcome, either the printed text or the exception;
- `eval`: from an engine handle and a MATLAB script to the captured streams or the exception;
- `fetch`: from a search query to the HTTP status and the parsed result blocks, or the exception.

Starting the MATLAB engine is an input `StartOutcome`.

What app.py decides, and the model with it:
- Dispatch compares `reply.strip().upper()` for exact equality with `MATLAB`, `LOGIC` and `SEARCH`. Any other reply, including one that names a tool among other words, takes the CHAT branch, whose answer is the visual context (`Workflow.MentionIsNotDispatch`).
- The SEARCH branch answers `Based on search: ` followed by the evidence `search_web` returned, whatever that evidence is.
- `search_web` answers a non-200 status with the fixed text `Search Blocked.`.
- The image feeds the vision description, and through it the routing context. It also gates the deep check and goes with the critique call.

## Model

| member | source | states |
|---|---|---|
| Text.Strip | app.py:102 | `str.strip()`: the result is the slice of the input after its leading whitespace, only whitespace follows it, and it neither starts nor ends with whitespace |
| Text.StripTrimmed | app.py:102 | a string with no whitespace at either end is unchanged by stripping |
| Text.StripIdempotent | app.py:102 | stripping twice is stripping once |
| Text.StripPadded | app.py:102 | padding a trimmed string with whitespace on both sides and stripping gives it back |
| Text.Upper | app.py:102 | `str.upper()` keeps the length and upper-cases each character in place |
| Text.IndexOf | app.py:168 | the first occurrence of the pattern at or after the start, or none at all |
| Text.Contains | app.py:168 | `pat in s` holds exactly when the pattern occurs somewhere in the string |
| Text.Take | app.py:86 | `s[:100]`: the prefix of the string of length min(100, n) |
| Text.Join | app.py:35 | `sep.join(parts)`: empty for no parts, the part itself for one, and always starting with the first part |
| Text.JoinAppend | app.py:55 | joining two non-empty runs of parts puts exactly one separator between their joins; with the one-part case this fixes the join for every separator, including `"\n\n"` |
| Text.StripKeepsNonSpace | app.py:102 | a non-space character of a string lies inside its stripped slice, at the shifted position |
| Text.SplitJoin | app.py:35 | splitting a `"\n".join` of newline-free parts on newlines gives back the parts |
| Context.Render | app.py:35 | a line is the upper-cased role, `: `, then the content; a single-line turn renders without a newline |
| Context.Lines | app.py:35 | one rendered `ROLE: content` line per message, in order |
| Context.Recent | app.py:34 | `messages[-4:]`: the last min(4, n) messages, as a suffix in the original order |
| Context.GetContext | app.py:32-35 | an empty history gives the empty context |
| Context.ContextOfOne | app.py:35 | a one-turn history gives exactly that turn's `ROLE: content` line |
| Context.ContextAppend | app.py:34-35 | within the last four turns, the context of a history is the older part's context, a newline, then the newer part's, whatever the turns contain |
| Context.ContextWithinWindow | app.py:34-35 | a non-empty history of at most four turns is rendered whole, one line per turn joined by newlines |
| Context.LinesAppend | app.py:35 | rendering the turns of two histories one after the other gives the lines of the first, then the lines of the second |
| Context.ContextIgnoresOlder | app.py:34 | messages before the last four never influence the context |
| Context.ContextLines | app.py:34-35 | when the kept turns are single-line, the context splits into exactly min(4, n) lines, each `ROLE.upper(): content` of the kept turns in order, with no trailing newline |
| Fence.Opener | app.py:114 | the opening fence is the three backticks followed by exactly the language tag |
| Fence.Scan | app.py:114 | the regex search: the leftmost opener with a later closer, the group ending at the first closer after it; no match exactly when no opener has a closer after it |
| Fence.MatchFenced | app.py:114 | `re.search` finds no match exactly when no opener of the tag has a closing fence after it; a match spans a range inside the text |
| Fence.Extract | app.py:114-116 | code is found exactly when the regex matches, and it is the stripped text of the matched group |
| Fence.ExtractBlock | app.py:114-116 | for a reply made of text without an opener, the opener, code that runs into no fence, a closer and anything after, the extraction is the stripped code |
| Fence.MatchStartsAtFirstOpener | app.py:114 | a match begins at the first opener in the text |
| Fence.NoMatchWithoutCloserAfterFirstOpener | app.py:114-117 | if the first opener has no closing fence after it, no code is extracted |
| Fence.NoFenceNoMatch | app.py:123-134 | a reply without any fence yields no code, whatever the tag |
| Fence.GroupHasNoFence | app.py:114 | the matched group contains no fence |
| Fence.StripKeepsNoFence | app.py:116 | stripping a fence-free group leaves it fence-free |
| Fence.ExtractAgainFindsNothing | app.py:114-116 | extracted code holds no fence, so extracting from it again finds nothing |
| Search.Scanned | app.py:51 | `find_all(..., limit=3)` hands the loop exactly the first min(3, n) blocks of the page |
| Search.Entry | app.py:54 | an entry is `SOURCE: `, the title, a newline and `FACT: `, then the snippet |
| Search.Contribution | app.py:52-54 | a block adds one entry, its own, exactly when it has both a title and a snippet, and nothing otherwise |
| Search.Complete | app.py:54 | `if t and s`: both the title link and the snippet link were found |
| Search.SearchWeb | app.py:46-56 | the text equals the search specification for every fetch outcome: the exception as `Error: e`, `Search Blocked.` on a non-200 status, the joined entries, or `No results.` |
| Search.CollectResults | app.py:50-54 | the loop over at most three blocks collects exactly the entries of the complete blocks among the first three, in order |
| Search.CollectStep | app.py:51-54 | reading one more block appends exactly that block's contribution |
| Search.Collect | app.py:51-54 | at most one entry per block, and every collected entry starts with `SOURCE: ` |
| Search.SearchText | app.py:46-56 | `search_web` never returns the empty string |
| Search.CollectAppend | app.py:51-54 | the collected entries of a concatenation are the concatenated entries, so block order is kept |
| Search.IncompleteBlockSkipped | app.py:52-54 | a block missing its title or its snippet contributes nothing, wherever it stands |
| Search.CompleteBlockKept | app.py:52-54 | a complete block contributes exactly `SOURCE: t\nFACT: s`, in its place |
| Search.OnlyFirstBlocksRead | app.py:51 | at most three entries are collected, and blocks after the third never change the result |
| Search.SearchTextKinds | app.py:46-56 | the text starts with `SOURCE: ` if and only if the status was 200 and an entry was collected; otherwise it is `Error: e`, `Search Blocked.` or `No results.` by case; with entries, it is exactly the entries joined by a blank line (`"\n\n"`) |
| MatlabEngine.EngineAfter | agent_tool.py:12-17 | after a start attempt the engine is exactly the handle `start_matlab()` returned, and absent when the start raised |
| MatlabEngine.SelectOutput | agent_tool.py:26 | the selection is never empty and is one of the trimmed streams or `[Done]` |
| MatlabEngine.EvalText | agent_tool.py:22-28 | the text of `eval`'s outcome is never empty: after a finished `eval` it is the stdout/stderr/`[Done]` selection, and an exception is reported as `Execution Error: ` followed by its text |
| MatlabEngine.SelectOutputProperties | agent_tool.py:26 | trimmed stdout if non-empty, else trimmed stderr if non-empty, else `[Done]`; the result is already trimmed |
| MatlabEngine.MatlabToolClass.constructor | agent_tool.py:4-6 | the class starts with no instance, no engine and no start attempt |
| MatlabEngine.MatlabToolClass.New | agent_tool.py:8-18 | the first construction creates the instance and attempts the start once, keeping no engine on failure; later ones return the same instance and neither retry nor change the engine |
| MatlabEngine.MatlabTool.constructor | agent_tool.py:10 | an instance belongs to its class object |
| MatlabEngine.MatlabTool.Run | agent_tool.py:20-28 | without an engine, the fixed not-running error and no `eval`; otherwise the output selection, or `Execution Error: ` and the exception text |
| MatlabEngine.RunNeverEmpty | agent_tool.py:20-28 | `run` never returns the empty string |
| MatlabEngine.ConstructTwice | agent_tool.py:8-18 | two constructions give one instance and one start attempt; after a failed first start the instance reports that the engine is not running |
| Workflow.CombinedInput | app.py:89 | `combined_input` holds the history context, the question and the visual evidence, in that order |
| Workflow.VisualContext | app.py:71-85 | without an image the visual context is empty; with one, it is the vision model's description |
| Workflow.RouterIntent | app.py:88-102 | the intent of a run: the stripped, upper-cased router reply to the combined input |
| Workflow.Intent | app.py:102 | the intent is as long as the stripped reply, has no whitespace at either end and no lower-case letter |
| Workflow.MatlabResponse | app.py:108-117 | no tool gives `Error: MATLAB not connected.`; with a tool, `Error: Invalid MATLAB code.` exactly when the reply holds no MATLAB block, and otherwise `**MATLAB Solution:**` and a newline before what `run` returns for the extracted code |
| Workflow.LogicResponse | app.py:119-134 | no Python block gives `Could not generate logic.`; after a finished run the answer is the printed output, already trimmed |
| Workflow.InitialResponse | app.py:105-144 | `Error: MATLAB not connected.` without a tool; with one, the invalid-code error exactly when no block was found and otherwise the `run` text of the extracted code after the header; `Could not generate logic.` without code, and otherwise the LOGIC branch's result on the writer's reply (`LogicResponse`: the trimmed printed output or `Logic Error: e`); `Based on search: ` followed by the `search_web` text for the stripped rewritten query; the visual context for every other intent |
| Workflow.RunInitial | app.py:105-144 | in a whole run, a router reply naming no tool answers with the visual context, which is empty without an image |
| Workflow.RunCritique | app.py:153-164 | the critique of a run is the vision model's reply to the question and the initial response |
| Workflow.DeepCheckRuns | app.py:149 | the deep check never runs for MATLAB or SEARCH, nor with deep check off or no image |
| Workflow.NeedsRevision | app.py:168 | a revision is needed exactly when `PASS` occurs nowhere in the upper-cased critique; so a critique shorter than `PASS` always fails and one that opens with it in any case passes |
| Workflow.FinalResponse | app.py:146-173 | the final response differs from the initial one only if the deep check ran and the critique failed |
| Workflow.CheckLogs | app.py:146-176 | the skip line is logged exactly when deep check is off, the Phase 4 line exactly when the check runs, and `Answer Revised.` exactly when it runs and the critique fails; when the check runs, the lines are, in order, the Phase 4 line and `   Critique: ` with the critique, followed by the Phase 5 line and `Answer Revised.` exactly when the critique fails |
| Workflow.VisionLogs | app.py:76-86 | two Phase 1 lines with an image: the phase, then `   Vision saw: ` with the first 100 characters of the description and `...`; none without |
| Workflow.RouterLogs | app.py:90-103 | the Phase 2 line, then the intent as compared |
| Workflow.ExecLogs | app.py:108-137 | one Phase 3 line for each tool branch, naming that branch (MATLAB, LOGIC or SEARCH), none for the default branch |
| Workflow.WorkflowLogs | app.py:62-179 | the logs of a run have at least three entries, start with the Phase 1 line when there is an image and with the Phase 2 line otherwise, and end with `Process Complete.` |
| Workflow.RunAgentWorkflow | app.py:61-179 | the final response and the logs are those of the run's specification, phase by phase |
| Workflow.Route | app.py:70-103 | phases 1 and 2 yield the visual context, `combined_input`, the intent and their log lines |
| Workflow.Vision | app.py:74-86 | with an image, the vision reply and its two log lines; without one, the empty context and no lines |
| Workflow.Router | app.py:88-103 | `combined_input` as formatted, the intent as the stripped, upper-cased router reply, and its two log lines |
| Workflow.Execute | app.py:105-144 | the branch response chosen by exact comparison of the intent, and that branch's Phase 3 line, none for CHAT |
| Workflow.DeepCheck | app.py:146-176 | the critique runs only when the gate holds; the answer is revised exactly when `PASS` is absent from the upper-cased critique; the skip line is logged only with deep check off |
| Workflow.DispatchIgnoresPaddingAndCase | app.py:102 | whitespace around the router reply and its letter case do not affect dispatch |
| Workflow.MentionIsNotDispatch | app.py:102-144 | for every reply that holds `MATLAB`, `LOGIC` or `SEARCH` together with other non-blank text, the intent equals no label and the answer is the visual context |
| Workflow.MentionSurvivesStrip | app.py:102 | stripping a reply keeps a word that stands amid other non-blank text, at a known offset, and more besides |
| Workflow.MatlabBranchFailures | app.py:110-117 | a reply whose first `matlab` opener is unclosed gives the invalid-code error; with no engine the branch reports it is not running |
| Workflow.LogicBranchFailures | app.py:121-134 | an unclosed first `python` opener gives `Could not generate logic.`; a raised `exec` gives `Logic Error: e`; a finished one gives its trimmed output |
| Workflow.OnlyLogicAndChatAreRevised | app.py:147-149 | for any intent other than LOGIC and CHAT the final response is the initial one and no Phase 4 line is logged |
| Workflow.NoPhaseFourLine | app.py:149-150 | when the gate fails, no log entry is the Phase 4 line |
| Workflow.DeepCheckGate | app.py:149-150 | Phase 4 is logged if and only if deep check is on, an image was given and the intent is LOGIC or CHAT |
| Workflow.RevisionOnlyAfterFailedCritique | app.py:147-173 | the final response differs from the initial one only after a deep check whose critique lacks `PASS`; then it is the revision reply and `Answer Revised.` is logged |
| Workflow.SegmentCounts | app.py:175-178 | over the phase segments, the skip line occurs once with deep check off and never with it on, and the completion line occurs once |
| Workflow.LogLineCounts | app.py:175-179 | in the logs of any run, the skip line appears once exactly when deep check is off, and `Process Complete.` appears once, as the last entry |

## Left out

- The Streamlit UI is not modelled: page setup, sidebar, uploader, chat rendering, session state, and the `status_box` label and write calls (app.py:13, 66-68, 184 onwards). Only the `logs.append` side of `update_status` is modelled.
- The prompt texts sent to the models are not transcribed. Each call's prompt is a `Prompt` constructor holding the values it is built from.
- Exceptions raised by the chat client propagate out of the workflow in the source. The model has every chat call return a reply.
- The image is a presence flag. Its serialisation to bytes and its content are not modelled; the vision reply is an input.
- The HTTP request, its timeout and the HTML parse are not modelled. Their result is a `FetchOutcome` input: the exception text, or the status and the parsed blocks with optional stripped title and snippet.
- `exec` of generated Python is an `ExecOutcome` input. The swap of `sys.stdout` is not modelled. Exceptions that are not `Exception` subclasses, which the source does not catch, are not modelled.
- The MATLAB engine start and `eval` are inputs. The console banners of `__new__` are not modelled.
- `get_matlab_engine`, its result cache and its `ImportError` fallback are not modelled. The workflow takes the tool as a nullable `MatlabTool?`, where null means unavailable.
- `__new__` takes no lock. Concurrent first constructions are not modelled.
- Text.Upper: maps only the ASCII letters. Python's `str.upper` also maps other letters and can lengthen strings (`ß` becomes `SS`). So a reply such as `logıc` with a dotless i, which Python dispatches to LOGIC, routes to CHAT in the model. Likewise the `PASS` test does not see a critique that spells it with `ß`.
- Exception texts are modelled as opaque strings. Python's `str(e)` formatting is not modelled.
