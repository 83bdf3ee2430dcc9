/**
 * `run_agent_workflow` of app.py: vision pre-read, routing on the model's
 * one-word reply, execution of the chosen branch, the optional deep check
 * (critique, then revision), and the log of the phases taken.
 *
 * Every external call is an input held in `Services`: the chat model is a
 * function from the model name and the prompt to its reply, `exec` of the
 * generated Python and MATLAB's `eval` are functions from the script to
 * their outcome, and the web search request is a function from the query to
 * what the request and parse produced.
 */
module Workflow {
  import opened Wrappers
  import opened Text
  import opened Context
  import opened Fence
  import opened Search
  import opened MatlabEngine

  const FastModel: string := "llama3.2"
  const VisionModel: string := "llava-phi3"

  /** What each chat call is asked, by the inputs its prompt is built from. */
  datatype Prompt =
    | DescribeImage(query: string)            // with the image
    | ChooseTool(context: string)             // the router prompt around `combined_input`
    | WriteMatlab(data: string)
    | WriteLogic(data: string)
    | RewriteQuery(context: string)
    | Critique(query: string, answer: string)  // with the image
    | Revise(answer: string, critique: string)

  /** What `exec(code, {}, {})` did: finished, having printed `output`, or raised. */
  datatype ExecOutcome = Printed(output: string) | ExecRaised(error: string)

  /** The external collaborators of the workflow. */
  datatype Services = Services(
    chat: (string, Prompt) -> string,
    exec: string -> ExecOutcome,
    eval: (EngineHandle, string) -> EvalOutcome,
    fetch: string -> FetchOutcome)

  const VisionLine: string := "Phase 1: Vision Model Reading..."
  const RouterLine: string := "Phase 2: Router deciding tool..."
  const MatlabLine: string := "Phase 3: Running MATLAB..."
  const LogicLine: string := "Phase 3: Logic Engine..."
  const SearchLine: string := "Phase 3: Web Search..."
  const DeepCheckLine: string := "Phase 4: Deep Check (VOLCANO Protocol)..."
  const RevisionLine: string := "Phase 5: Final Revision..."
  const RevisedLine: string := "   Answer Revised."
  const SkipLine: string := "   Deep Check Skipped (Turbo Mode)."
  const CompleteLine: string := "Process Complete."

  const NotConnected: string := "Error: MATLAB not connected."
  const InvalidMatlab: string := "Error: Invalid MATLAB code."
  const NoLogic: string := "Could not generate logic."

  /** The objects a MATLAB run reads: the class attributes of the tool, if there is one. */
  function ToolFrame(tool: MatlabTool?): set<object> {
    if tool == null then {} else {tool.cls}
  }

  /** Phase 1: the vision model's description, or "" without an image. */
  function VisualContext(query: string, hasImage: bool, svc: Services): (r: string)
    ensures !hasImage ==> r == ""
    ensures hasImage ==> r == svc.chat(VisionModel, DescribeImage(query))
  {
    if hasImage then svc.chat(VisionModel, DescribeImage(query)) else ""
  }

  /**
   * `combined_input`: the context the router and the code writers see, with
   * the history, the question and the visual evidence in that order.
   */
  function CombinedInput(history: seq<Message>, query: string, visual: string): (r: string)
    ensures var head := "Chat History: " + GetContext(history) + "\nUser Question: ";
      && |head| + |query| <= |r| && r[..|head|] == head && r[|head|..|head| + |query|] == query
    ensures |visual| <= |r| && r[|r| - |visual|..] == visual
  {
    var head := "Chat History: " + GetContext(history) + "\nUser Question: ";
    var front := head + query;
    var back := "\nVisual Evidence: " + visual;
    assert front[..|head|] == head && front[|head|..] == query;
    assert back[|back| - |visual|..] == visual;
    front + back
  }

  /**
   * `reply.strip().upper()`: the intent the branches compare against. It is
   * as long as the stripped reply, has no whitespace at either end and no
   * lower-case letter.
   */
  function Intent(reply: string): (r: string)
    ensures |r| == |Strip(reply)|
    ensures r == [] || (!IsSpace(r[0]) && !IsSpace(r[|r| - 1]))
    ensures forall i :: 0 <= i < |r| ==> !('a' <= r[i] <= 'z')
  {
    Upper(Strip(reply))
  }

  /** Phase 2: the intent the router reply names. */
  function RouterIntent(query: string, hasImage: bool, history: seq<Message>, svc: Services): string {
    var visual := VisualContext(query, hasImage, svc);
    Intent(svc.chat(FastModel, ChooseTool(CombinedInput(history, query, visual))))
  }

  /**
   * The LOGIC branch once the code reply is known: without a block the fixed
   * message; after a finished run the printed output, already trimmed.
   */
  function LogicResponse(codeReply: string, svc: Services): (r: string)
    ensures Extract(codeReply, "python").None? ==> r == NoLogic
    ensures Extract(codeReply, "python").Some? && svc.exec(Extract(codeReply, "python").value).Printed?
      ==> Strip(r) == r
  {
    match Extract(codeReply, "python")
    case None => NoLogic
    case Some(code) =>
      match svc.exec(code)
      case Printed(out) => StripIdempotent(out); Strip(out)
      case ExecRaised(e) => "Logic Error: " + e
  }

  /**
   * The MATLAB branch once the code reply is known: without a tool the
   * not-connected error; with one, the invalid-code error exactly when the
   * reply holds no MATLAB block.
   */
  function MatlabResponse(codeReply: string, tool: MatlabTool?, svc: Services): (r: string)
    reads ToolFrame(tool)
    ensures tool == null ==> r == NotConnected
    ensures tool != null ==> (r == InvalidMatlab <==> Extract(codeReply, "matlab").None?)
    ensures tool != null && Extract(codeReply, "matlab").Some? ==>
      r == "**MATLAB Solution:**\n" + tool.Run(Extract(codeReply, "matlab").value, svc.eval)
  {
    if tool == null then NotConnected
    else
      match Extract(codeReply, "matlab")
      case None => InvalidMatlab
      case Some(code) =>
        var r := "**MATLAB Solution:**\n" + tool.Run(code, svc.eval);
        assert r[0] != InvalidMatlab[0];
        r
  }

  /**
   * Phase 3: `initial_response`, by exact comparison of the intent with each
   * label: the fixed error texts, the search prefix, and the pass-through of
   * the visual context for any other intent.
   */
  function InitialResponse(intent: string, visual: string, combined: string, tool: MatlabTool?, svc: Services)
    : (r: string)
    reads ToolFrame(tool)
    ensures intent == "MATLAB" && tool == null ==> r == NotConnected
    ensures intent == "MATLAB" && tool != null ==>
      (r == InvalidMatlab <==> Extract(svc.chat(FastModel, WriteMatlab(combined)), "matlab").None?)
    ensures intent == "LOGIC" && Extract(svc.chat(FastModel, WriteLogic(combined)), "python").None? ==> r == NoLogic
    ensures intent == "LOGIC" ==> r == LogicResponse(svc.chat(FastModel, WriteLogic(combined)), svc)
    ensures intent == "MATLAB" && tool != null && Extract(svc.chat(FastModel, WriteMatlab(combined)), "matlab").Some? ==>
      r == "**MATLAB Solution:**\n"
           + tool.Run(Extract(svc.chat(FastModel, WriteMatlab(combined)), "matlab").value, svc.eval)
    ensures intent == "SEARCH" ==>
      r == "Based on search: " + SearchText(svc.fetch(Strip(svc.chat(FastModel, RewriteQuery(combined)))))
    ensures intent != "MATLAB" && intent != "LOGIC" && intent != "SEARCH" ==> r == visual
  {
    if intent == "MATLAB" then MatlabResponse(svc.chat(FastModel, WriteMatlab(combined)), tool, svc)
    else if intent == "LOGIC" then LogicResponse(svc.chat(FastModel, WriteLogic(combined)), svc)
    else if intent == "SEARCH" then
      "Based on search: " + SearchText(svc.fetch(Strip(svc.chat(FastModel, RewriteQuery(combined)))))
    else visual
  }

  /**
   * Phase 4 runs only with deep check on, an image, and intent LOGIC or CHAT;
   * the MATLAB and SEARCH answers are never critiqued.
   */
  function DeepCheckRuns(deepCheckMode: bool, hasImage: bool, intent: string): (runs: bool)
    ensures runs ==> intent != "MATLAB" && intent != "SEARCH"
    ensures !deepCheckMode || !hasImage ==> !runs
  {
    deepCheckMode && hasImage && (intent == "LOGIC" || intent == "CHAT")
  }

  /**
   * The critique fails unless "PASS" occurs in it, ignoring case: a critique
   * shorter than "PASS" always fails, one opening with it in any case passes.
   */
  function NeedsRevision(critique: string): (needs: bool)
    ensures needs <==> forall k :: !OccursAt(Upper(critique), "PASS", k)
    ensures |critique| < 4 ==> needs
    ensures "PASS" <= Upper(critique) ==> !needs
  {
    !Contains(Upper(critique), "PASS")
  }

  /**
   * The initial response of a whole run. A router reply that names no tool
   * answers with the visual context, so with no image it is empty.
   */
  function RunInitial(query: string, hasImage: bool, history: seq<Message>, tool: MatlabTool?, svc: Services)
    : (r: string)
    reads ToolFrame(tool)
    ensures var intent := RouterIntent(query, hasImage, history, svc);
      intent != "MATLAB" && intent != "LOGIC" && intent != "SEARCH" ==>
      r == VisualContext(query, hasImage, svc) && (!hasImage ==> r == "")
  {
    var visual := VisualContext(query, hasImage, svc);
    var combined := CombinedInput(history, query, visual);
    InitialResponse(RouterIntent(query, hasImage, history, svc), visual, combined, tool, svc)
  }

  /** The critique of a whole run's initial response. */
  function RunCritique(query: string, hasImage: bool, history: seq<Message>, tool: MatlabTool?, svc: Services): string
    reads ToolFrame(tool)
  {
    svc.chat(VisionModel, Critique(query, RunInitial(query, hasImage, history, tool, svc)))
  }

  /** `final_response` of a whole run: the initial response unless a deep check found fault with it. */
  function FinalResponse(query: string, hasImage: bool, history: seq<Message>, deepCheckMode: bool,
                         tool: MatlabTool?, svc: Services): (r: string)
    reads ToolFrame(tool)
    ensures r != RunInitial(query, hasImage, history, tool, svc) ==>
      && DeepCheckRuns(deepCheckMode, hasImage, RouterIntent(query, hasImage, history, svc))
      && NeedsRevision(RunCritique(query, hasImage, history, tool, svc))
  {
    var initial := RunInitial(query, hasImage, history, tool, svc);
    var critique := RunCritique(query, hasImage, history, tool, svc);
    if DeepCheckRuns(deepCheckMode, hasImage, RouterIntent(query, hasImage, history, svc)) && NeedsRevision(critique)
    then svc.chat(FastModel, Revise(initial, critique))
    else initial
  }

  /** The Phase 1 lines: the phase and what the vision model saw, only with an image. */
  function VisionLogs(hasImage: bool, visual: string): (logs: seq<string>)
    ensures |logs| == if hasImage then 2 else 0
    ensures hasImage ==> logs[0] == VisionLine && "   Vision saw: " <= logs[1]
    ensures hasImage ==> logs[1] == "   Vision saw: " + Take(visual, 100) + "..."
  {
    if hasImage then [VisionLine, "   Vision saw: " + Take(visual, 100) + "..."] else []
  }

  /** The Phase 2 lines: the phase, then the intent as compared. */
  function RouterLogs(intent: string): (logs: seq<string>)
    ensures |logs| == 2 && logs[0] == RouterLine
    ensures logs[1] == "   Intent: " + intent
  {
    [RouterLine, "   Intent: " + intent]
  }

  /** The Phase 3 line: one for each tool branch, none for the default branch. */
  function ExecLogs(intent: string): (logs: seq<string>)
    ensures |logs| <= 1
    ensures logs != [] <==> intent == "MATLAB" || intent == "LOGIC" || intent == "SEARCH"
    ensures intent == "MATLAB" ==> logs == [MatlabLine]
    ensures intent == "LOGIC" ==> logs == [LogicLine]
    ensures intent == "SEARCH" ==> logs == [SearchLine]
  {
    if intent == "MATLAB" then [MatlabLine]
    else if intent == "LOGIC" then [LogicLine]
    else if intent == "SEARCH" then [SearchLine]
    else []
  }

  /**
   * The lines of phases 4 and 5: the skip line exactly when deep check is off,
   * the Phase 4 line exactly when the check runs, and the revised line exactly
   * when it runs and the critique fails.
   */
  function CheckLogs(deepCheckMode: bool, runs: bool, critique: string): (logs: seq<string>)
    ensures SkipLine in logs <==> !deepCheckMode && !runs
    ensures DeepCheckLine in logs <==> runs
    ensures RevisedLine in logs <==> runs && NeedsRevision(critique)
    ensures runs ==> logs == [DeepCheckLine, "   Critique: " + critique]
                             + (if NeedsRevision(critique) then [RevisionLine, RevisedLine] else [])
  {
    if runs then
      var head := [DeepCheckLine, "   Critique: " + critique];
      var tail := if NeedsRevision(critique) then [RevisionLine, RevisedLine] else [];
      assert head[1][3] != SkipLine[3] && head[1][3] != RevisedLine[3];
      assert RevisedLine[3] != SkipLine[3] && RevisionLine[0] != SkipLine[0] && RevisionLine[0] != RevisedLine[0];
      assert DeepCheckLine[0] != SkipLine[0] && DeepCheckLine[0] != RevisedLine[0];
      head + tail
    else if !deepCheckMode then [SkipLine]
    else []
  }

  /** The `logs` list of a whole run, phase by phase; it always ends with "Process Complete.". */
  function WorkflowLogs(query: string, hasImage: bool, history: seq<Message>, deepCheckMode: bool,
                        tool: MatlabTool?, svc: Services): (logs: seq<string>)
    reads ToolFrame(tool)
    ensures |logs| >= 3 && logs[|logs| - 1] == CompleteLine
    ensures hasImage ==> logs[0] == VisionLine
    ensures !hasImage ==> logs[0] == RouterLine
  {
    var intent := RouterIntent(query, hasImage, history, svc);
    var runs := DeepCheckRuns(deepCheckMode, hasImage, intent);
    var v := VisionLogs(hasImage, VisualContext(query, hasImage, svc));
    assert (v + RouterLogs(intent))[0] == if hasImage then VisionLine else RouterLine;
    v
    + RouterLogs(intent)
    + ExecLogs(intent)
    + CheckLogs(deepCheckMode, runs, RunCritique(query, hasImage, history, tool, svc))
    + [CompleteLine]
  }

  /**
   * `run_agent_workflow(user_query, image_input, chat_history, status_box,
   * deep_check_mode)`: one final response and one log list per call. Each
   * `update_status(...)` and `logs.append(...)` appends to `logs` in call order.
   */
  method RunAgentWorkflow(userQuery: string, hasImage: bool, chatHistory: seq<Message>,
                          deepCheckMode: bool, tool: MatlabTool?, svc: Services)
      returns (finalResponse: string, logs: seq<string>)
    ensures finalResponse == FinalResponse(userQuery, hasImage, chatHistory, deepCheckMode, tool, svc)
    ensures logs == WorkflowLogs(userQuery, hasImage, chatHistory, deepCheckMode, tool, svc)
  {
    // Phases 1 and 2: vision, router
    var visualContext, combinedInput, intent;
    visualContext, combinedInput, intent, logs := Route(userQuery, hasImage, chatHistory, svc);

    // Phase 3: execution
    var initialResponse, executed := Execute(intent, visualContext, combinedInput, tool, svc);
    logs := logs + executed;

    // Phases 4 and 5: deep check
    var checked;
    finalResponse, checked := DeepCheck(userQuery, hasImage, deepCheckMode, intent, initialResponse, svc);
    logs := logs + checked;

    logs := logs + [CompleteLine];
  }

  /** Phases 1 and 2 of `run_agent_workflow`: the optional vision read, then the router's intent. */
  method Route(userQuery: string, hasImage: bool, chatHistory: seq<Message>, svc: Services)
      returns (visualContext: string, combinedInput: string, intent: string, logs: seq<string>)
    ensures visualContext == VisualContext(userQuery, hasImage, svc)
    ensures combinedInput == CombinedInput(chatHistory, userQuery, visualContext)
    ensures intent == RouterIntent(userQuery, hasImage, chatHistory, svc)
    ensures logs == VisionLogs(hasImage, visualContext) + RouterLogs(intent)
  {
    var seen, routed;
    visualContext, seen := Vision(userQuery, hasImage, svc);
    combinedInput, intent, routed := Router(userQuery, chatHistory, visualContext, svc);
    logs := seen + routed;
  }

  /** Phase 1: with an image, the vision model's description and its two log lines. */
  method Vision(userQuery: string, hasImage: bool, svc: Services)
      returns (visualContext: string, logs: seq<string>)
    ensures visualContext == VisualContext(userQuery, hasImage, svc)
    ensures logs == VisionLogs(hasImage, visualContext)
  {
    logs := [];
    visualContext := "";
    if hasImage {
      logs := logs + [VisionLine];
      visualContext := svc.chat(VisionModel, DescribeImage(userQuery));
      logs := logs + ["   Vision saw: " + Take(visualContext, 100) + "..."];
    }
  }

  /** Phase 2: the router prompt over history, question and visual evidence, and the intent it names. */
  method Router(userQuery: string, chatHistory: seq<Message>, visualContext: string, svc: Services)
      returns (combinedInput: string, intent: string, logs: seq<string>)
    ensures combinedInput == CombinedInput(chatHistory, userQuery, visualContext)
    ensures intent == Intent(svc.chat(FastModel, ChooseTool(combinedInput)))
    ensures logs == RouterLogs(intent)
  {
    combinedInput := CombinedInput(chatHistory, userQuery, visualContext);
    logs := [RouterLine];
    intent := Upper(Strip(svc.chat(FastModel, ChooseTool(combinedInput))));
    logs := logs + ["   Intent: " + intent];
  }

  /** Phase 3 of `run_agent_workflow`: the branch chosen by exact comparison of the intent. */
  method Execute(intent: string, visualContext: string, combinedInput: string, tool: MatlabTool?, svc: Services)
      returns (initialResponse: string, logs: seq<string>)
    ensures initialResponse == InitialResponse(intent, visualContext, combinedInput, tool, svc)
    ensures logs == ExecLogs(intent)
  {
    logs := [];
    if intent == "MATLAB" {
      logs := logs + [MatlabLine];
      if tool == null {
        initialResponse := NotConnected;
      } else {
        var reply := svc.chat(FastModel, WriteMatlab(combinedInput));
        var code := Extract(reply, "matlab");
        if code.Some? {
          initialResponse := "**MATLAB Solution:**\n" + tool.Run(code.value, svc.eval);
        } else {
          initialResponse := InvalidMatlab;
        }
      }
    } else if intent == "LOGIC" {
      logs := logs + [LogicLine];
      var reply := svc.chat(FastModel, WriteLogic(combinedInput));
      var code := Extract(reply, "python");
      if code.Some? {
        match svc.exec(code.value)
        case Printed(out) =>
          initialResponse := Strip(out);
        case ExecRaised(e) =>
          initialResponse := "Logic Error: " + e;
      } else {
        initialResponse := NoLogic;
      }
    } else if intent == "SEARCH" {
      logs := logs + [SearchLine];
      var searchQuery := Strip(svc.chat(FastModel, RewriteQuery(combinedInput)));
      var evidence := SearchWeb(svc.fetch(searchQuery));
      initialResponse := "Based on search: " + evidence;
    } else {
      initialResponse := visualContext;
    }
  }

  /** Phases 4 and 5 of `run_agent_workflow`: critique, and revision when the critique fails. */
  method DeepCheck(userQuery: string, hasImage: bool, deepCheckMode: bool, intent: string,
                   initialResponse: string, svc: Services)
      returns (finalResponse: string, logs: seq<string>)
    ensures var critique := svc.chat(VisionModel, Critique(userQuery, initialResponse));
      var runs := DeepCheckRuns(deepCheckMode, hasImage, intent);
      && logs == CheckLogs(deepCheckMode, runs, critique)
      && finalResponse == if runs && NeedsRevision(critique)
                          then svc.chat(FastModel, Revise(initialResponse, critique))
                          else initialResponse
  {
    logs := [];
    finalResponse := initialResponse;
    if deepCheckMode && hasImage && (intent == "LOGIC" || intent == "CHAT") {
      logs := logs + [DeepCheckLine];
      var critiqueText := svc.chat(VisionModel, Critique(userQuery, initialResponse));
      logs := logs + ["   Critique: " + critiqueText];
      if !Contains(Upper(critiqueText), "PASS") {
        logs := logs + [RevisionLine];
        finalResponse := svc.chat(FastModel, Revise(initialResponse, critiqueText));
        logs := logs + [RevisedLine];
      }
    } else if !deepCheckMode {
      logs := logs + [SkipLine];
    }
  }

  /** Occurrences of `x` in `xs`. */
  function Count(xs: seq<string>, x: string): nat {
    if xs == [] then 0 else (if xs[0] == x then 1 else 0) + Count(xs[1..], x)
  }

  lemma {:induction false} CountAppend(a: seq<string>, b: seq<string>, x: string)
    ensures Count(a + b, x) == Count(a, x) + Count(b, x)
  {
    if a == [] {
      assert a + b == b;
    } else {
      CountAppend(a[1..], b, x);
      assert (a + b)[1..] == a[1..] + b;
    }
  }

  /** Counting over the five phase segments of a log. */
  lemma CountSegments(v: seq<string>, r: seq<string>, e: seq<string>, c: seq<string>, last: seq<string>, x: string)
    ensures Count(v + r + e + c + last, x) == Count(v, x) + Count(r, x) + Count(e, x) + Count(c, x) + Count(last, x)
  {
    CountAppend(v, r, x);
    CountAppend(v + r, e, x);
    CountAppend(v + r + e, c, x);
    CountAppend(v + r + e + c, last, x);
  }

  /**
   * Dispatch ignores surrounding whitespace and letter case of the router
   * reply, and nothing else: the padded reply routes as its upper-cased core.
   */
  lemma DispatchIgnoresPaddingAndCase(w1: string, word: string, w2: string)
    requires AllSpace(w1) && AllSpace(w2)
    requires word == [] || (!IsSpace(word[0]) && !IsSpace(word[|word| - 1]))
    ensures Intent(w1 + word + w2) == Upper(word)
  {
    StripPadded(w1, word, w2);
  }

  /**
   * Dispatch is exact equality, not containment: a reply that names a tool
   * among other text falls through to the default branch and answers with
   * the visual context.
   */
  lemma MentionIsNotDispatch(pre: string, name: string, post: string,
                             visual: string, combined: string, tool: MatlabTool?, svc: Services)
    requires name == "MATLAB" || name == "LOGIC" || name == "SEARCH"
    requires !AllSpace(pre + post)
    ensures var intent := Intent(pre + name + post);
      intent != "MATLAB" && intent != "LOGIC" && intent != "SEARCH"
    ensures InitialResponse(Intent(pre + name + post), visual, combined, tool, svc) == visual
  {
    MentionSurvivesStrip(pre, name, post);
    var r := Strip(pre + name + post);
    var off := |pre| - LeadingSpaces(pre + name + post);
    assert Intent(pre + name + post)[off] == UpperChar(r[off]) == name[0];
  }

  /**
   * Stripping a reply that holds a word amid other non-blank text keeps the
   * word, at a known offset, and at least one character besides it.
   */
  lemma MentionSurvivesStrip(pre: string, name: string, post: string)
    requires name != [] && !IsSpace(name[0]) && !IsSpace(name[|name| - 1])
    requires !AllSpace(pre + post)
    ensures var off := |pre| - LeadingSpaces(pre + name + post);
      && 0 <= off && off + |name| <= |Strip(pre + name + post)|
      && |Strip(pre + name + post)| > |name|
      && Strip(pre + name + post)[off] == name[0]
  {
    var s := pre + name + post;
    var q :| 0 <= q < |pre + post| && !IsSpace((pre + post)[q]);
    var p := if q < |pre| then q else q + |name|;
    assert s[p] == (pre + post)[q];
    var n := |pre|;
    assert s[n] == name[0] && s[n + |name| - 1] == name[|name| - 1];
    StripKeepsNonSpace(s, p);
    StripKeepsNonSpace(s, n);
    StripKeepsNonSpace(s, n + |name| - 1);
  }

  /**
   * A MATLAB code reply whose first "```matlab" has no closing fence after
   * it yields the invalid-code error; with no engine the run reports that
   * it is not running, without evaluating anything.
   */
  lemma MatlabBranchFailures(codeReply: string, first: nat, tool: MatlabTool, svc: Services)
    ensures OccursAt(codeReply, Opener("matlab"), first)
         && (forall k :: 0 <= k < first ==> !OccursAt(codeReply, Opener("matlab"), k))
         && (forall j :: first + |Opener("matlab")| <= j ==> !OccursAt(codeReply, Fence.Fence, j))
         ==> MatlabResponse(codeReply, tool, svc) == InvalidMatlab
    ensures tool.cls.engine.None? && Extract(codeReply, "matlab").Some? ==>
      MatlabResponse(codeReply, tool, svc) == "**MATLAB Solution:**\n" + NotRunning
  {
    if && OccursAt(codeReply, Opener("matlab"), first)
       && (forall k :: 0 <= k < first ==> !OccursAt(codeReply, Opener("matlab"), k))
       && (forall j :: first + |Opener("matlab")| <= j ==> !OccursAt(codeReply, Fence.Fence, j))
    {
      NoMatchWithoutCloserAfterFirstOpener(codeReply, "matlab", first);
    }
  }

  /**
   * A Python code reply whose first "```python" has no closing fence after
   * it yields the could-not-generate message; with a block, a raised `exec`
   * is reported as a logic error and a finished one by its trimmed output.
   */
  lemma LogicBranchFailures(codeReply: string, first: nat, svc: Services)
    ensures OccursAt(codeReply, Opener("python"), first)
         && (forall k :: 0 <= k < first ==> !OccursAt(codeReply, Opener("python"), k))
         && (forall j :: first + |Opener("python")| <= j ==> !OccursAt(codeReply, Fence.Fence, j))
         ==> LogicResponse(codeReply, svc) == NoLogic
    ensures Extract(codeReply, "python").Some? && svc.exec(Extract(codeReply, "python").value).ExecRaised? ==>
      LogicResponse(codeReply, svc) == "Logic Error: " + svc.exec(Extract(codeReply, "python").value).error
    ensures Extract(codeReply, "python").Some? && svc.exec(Extract(codeReply, "python").value).Printed? ==>
      LogicResponse(codeReply, svc) == Strip(svc.exec(Extract(codeReply, "python").value).output)
  {
    if && OccursAt(codeReply, Opener("python"), first)
       && (forall k :: 0 <= k < first ==> !OccursAt(codeReply, Opener("python"), k))
       && (forall j :: first + |Opener("python")| <= j ==> !OccursAt(codeReply, Fence.Fence, j))
    {
      NoMatchWithoutCloserAfterFirstOpener(codeReply, "python", first);
    }
  }

  /** Deep check never touches the MATLAB and SEARCH answers, nor any unknown intent. */
  lemma OnlyLogicAndChatAreRevised(query: string, hasImage: bool, history: seq<Message>, deepCheckMode: bool,
                                   tool: MatlabTool?, svc: Services)
    requires var intent := RouterIntent(query, hasImage, history, svc); intent != "LOGIC" && intent != "CHAT"
    ensures FinalResponse(query, hasImage, history, deepCheckMode, tool, svc)
         == RunInitial(query, hasImage, history, tool, svc)
    ensures DeepCheckLine !in WorkflowLogs(query, hasImage, history, deepCheckMode, tool, svc)
  {
    var intent := RouterIntent(query, hasImage, history, svc);
    var logs := WorkflowLogs(query, hasImage, history, deepCheckMode, tool, svc);
    assert !DeepCheckRuns(deepCheckMode, hasImage, intent);
    NoPhaseFourLine(query, hasImage, history, deepCheckMode, tool, svc);
  }

  /** Without the deep check, no log line is the Phase 4 line. */
  lemma NoPhaseFourLine(query: string, hasImage: bool, history: seq<Message>, deepCheckMode: bool,
                        tool: MatlabTool?, svc: Services)
    requires !DeepCheckRuns(deepCheckMode, hasImage, RouterIntent(query, hasImage, history, svc))
    ensures DeepCheckLine !in WorkflowLogs(query, hasImage, history, deepCheckMode, tool, svc)
  {
    var intent := RouterIntent(query, hasImage, history, svc);
    var visual := VisualContext(query, hasImage, svc);
    var critique := RunCritique(query, hasImage, history, tool, svc);
    assert DeepCheckLine !in VisionLogs(hasImage, visual) by {
      if hasImage {
        assert ("   Vision saw: " + Take(visual, 100) + "...")[0] != DeepCheckLine[0];
      }
    }
    assert ("   Intent: " + intent)[0] != DeepCheckLine[0];
    assert DeepCheckLine !in RouterLogs(intent);
    assert DeepCheckLine !in ExecLogs(intent);
    assert DeepCheckLine !in CheckLogs(deepCheckMode, false, critique);
  }

  /**
   * Phase 4 is logged exactly when the deep check is on, an image was given,
   * and the intent is LOGIC or CHAT.
   */
  lemma DeepCheckGate(query: string, hasImage: bool, history: seq<Message>, deepCheckMode: bool,
                      tool: MatlabTool?, svc: Services)
    ensures DeepCheckLine in WorkflowLogs(query, hasImage, history, deepCheckMode, tool, svc)
        <==> deepCheckMode && hasImage
             && RouterIntent(query, hasImage, history, svc) in {"LOGIC", "CHAT"}
  {
    var intent := RouterIntent(query, hasImage, history, svc);
    if DeepCheckRuns(deepCheckMode, hasImage, intent) {
      var critique := RunCritique(query, hasImage, history, tool, svc);
      assert DeepCheckLine in CheckLogs(deepCheckMode, true, critique);
    } else {
      NoPhaseFourLine(query, hasImage, history, deepCheckMode, tool, svc);
    }
  }

  /**
   * The answer changes after execution only through a failed critique: the
   * final response differs from the initial one only if the deep check ran
   * and the critique lacks "PASS", and then it is the revision reply, logged
   * as revised.
   */
  lemma RevisionOnlyAfterFailedCritique(query: string, hasImage: bool, history: seq<Message>, deepCheckMode: bool,
                                        tool: MatlabTool?, svc: Services)
    ensures var initial := RunInitial(query, hasImage, history, tool, svc);
            var critique := RunCritique(query, hasImage, history, tool, svc);
            var final := FinalResponse(query, hasImage, history, deepCheckMode, tool, svc);
            var runs := DeepCheckRuns(deepCheckMode, hasImage, RouterIntent(query, hasImage, history, svc));
            && (final != initial ==> runs && NeedsRevision(critique))
            && (runs && NeedsRevision(critique) ==>
                  final == svc.chat(FastModel, Revise(initial, critique))
                  && RevisedLine in WorkflowLogs(query, hasImage, history, deepCheckMode, tool, svc))
  {
    var intent := RouterIntent(query, hasImage, history, svc);
    var critique := RunCritique(query, hasImage, history, tool, svc);
    if DeepCheckRuns(deepCheckMode, hasImage, intent) && NeedsRevision(critique) {
      assert RevisedLine in CheckLogs(deepCheckMode, true, critique);
    }
  }

  lemma {:induction false} CountAbsent(xs: seq<string>, x: string)
    requires x !in xs
    ensures Count(xs, x) == 0
  {
    if xs != [] {
      CountAbsent(xs[1..], x);
    }
  }

  /** The counts of the skip and completion lines over the phase segments, whatever the replies. */
  lemma SegmentCounts(hasImage: bool, visual: string, intent: string, deepCheckMode: bool, runs: bool, critique: string)
    requires runs ==> deepCheckMode
    ensures var logs := VisionLogs(hasImage, visual) + RouterLogs(intent) + ExecLogs(intent)
                        + CheckLogs(deepCheckMode, runs, critique) + [CompleteLine];
      && Count(logs, SkipLine) == (if deepCheckMode then 0 else 1)
      && Count(logs, CompleteLine) == 1
  {
    var v, r, e, c := VisionLogs(hasImage, visual), RouterLogs(intent), ExecLogs(intent),
                      CheckLogs(deepCheckMode, runs, critique);
    CountSegments(v, r, e, c, [CompleteLine], SkipLine);
    CountSegments(v, r, e, c, [CompleteLine], CompleteLine);
    if hasImage {
      assert v[1][3] != SkipLine[3] && v[1][0] != CompleteLine[0];
    }
    CountAbsent(v, SkipLine);
    CountAbsent(v, CompleteLine);
    assert r[1][3] != SkipLine[3] && r[1][0] != CompleteLine[0];
    CountAbsent(r, SkipLine);
    CountAbsent(r, CompleteLine);
    CountAbsent(e, SkipLine);
    CountAbsent(e, CompleteLine);
    if runs {
      assert c[1][3] != SkipLine[3] && c[1][0] != CompleteLine[0];
      CountAbsent(c, SkipLine);
    }
    CountAbsent(c, CompleteLine);
  }

  /**
   * The "Deep Check Skipped" line is logged exactly once when deep check is
   * off and never when it is on, whatever the branch taken; "Process
   * Complete." is logged once, as the last entry.
   */
  lemma LogLineCounts(query: string, hasImage: bool, history: seq<Message>, deepCheckMode: bool,
                      tool: MatlabTool?, svc: Services)
    ensures var logs := WorkflowLogs(query, hasImage, history, deepCheckMode, tool, svc);
      && Count(logs, SkipLine) == (if deepCheckMode then 0 else 1)
      && Count(logs, CompleteLine) == 1
      && logs[|logs| - 1] == CompleteLine
  {
    var intent := RouterIntent(query, hasImage, history, svc);
    SegmentCounts(hasImage, VisualContext(query, hasImage, svc), intent, deepCheckMode,
                  DeepCheckRuns(deepCheckMode, hasImage, intent), RunCritique(query, hasImage, history, tool, svc));
  }
}
