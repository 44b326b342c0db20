/**
 The chat turn `generate_response` (backend.py:401-490) and the single-session
 memory it keeps (backend.py:51-53). The memory is an explicit `State` value that
 goes into a turn and comes back out. The hosted text-generation client is an
 opaque `Gateway`: a function from a call to either generated text or a fault.
 A turn returns every call it made, in order, so contracts can say what was sent.
 */
module Session {
  import opened Wrappers
  import opened Text
  import opened Tasks
  import opened Classifier
  import opened Templates

  /** The module-level memory: `LAST_TASK`, `LAST_PROMPT` and `LAST_OUTPUT`. */
  datatype State = State(lastTask: Option<TaskCategory>, lastPrompt: Option<string>, lastOutput: string)

  /** The memory when the process starts. */
  const Initial: State := State(None, None, "")

  /** One request to the hosted model: model identifier, prompt and new-token budget. */
  datatype Call = Call(model: string, prompt: string, budget: nat)

  /** `call_model`: generated text, or the description of the exception it raised. */
  type Gateway = Call -> Result<string, string>

  /** The per-task entry of a normal reply. */
  datatype TaskReport = TaskReport(task: TaskCategory, output: string, truncated: bool, modelUsed: string)

  /** The three reply shapes of a turn. */
  datatype Response =
    | NormalReply(results: seq<TaskReport>, completed: bool, totalTasks: nat, primaryTask: Option<TaskCategory>)
    | ContinuationReply(output: string, truncated: bool, completed: bool, businessTask: TaskCategory)
    | ErrorReply(output: string, truncated: bool, completed: bool, error: string)

  /** The memory after a turn, its reply and the calls it made. */
  datatype Outcome = Outcome(state: State, response: Response, calls: seq<Call>)

  /** The token budget of a continuation request. */
  const ContinuationBudget: nat := 1000

  /** The apology that opens an error reply. */
  const FaultBanner: string := "Business advisory system temporarily unavailable.\nTechnical details: "

  /** How many characters of the fault description an error reply quotes. */
  const FaultDetailLimit: nat := 100

  /**
   The continuation branch is taken only when the client asks for it and the
   memory holds a task and a non-empty prompt.
   */
  predicate ContinuationTaken(s: State, cont: bool) {
    cont && s.lastTask.Some? && s.lastPrompt.Some? && s.lastPrompt.value != []
  }

  /** The `model_used` field: the bare name of the model a category is sent to. */
  function ModelUsed(t: TaskCategory): string {
    if t == Code then QwenName else LlamaName
  }

  /**
   `MODEL_MAP[task].split('/')[-1]`: the `model_used` field is the part of the
   model identifier after its last `/`, and contains no `/` itself.
   */
  lemma ModelUsedIsLastSegment(t: TaskCategory)
    ensures ModelUsed(t) == LastSegment(ModelFor(t), '/')
    ensures '/' !in ModelUsed(t) && EndsWith(ModelFor(t), ModelUsed(t))
  {
    var owner := if t == Code then QwenOwner else LlamaOwner;
    assert ModelFor(t) == owner + ['/'] + ModelUsed(t);
    LastSegmentAfter(owner, '/', ModelUsed(t));
  }

  /** The request a normal turn sends for one task. */
  function CallFor(t: TaskCategory, input: string): Call {
    Call(ModelFor(t), PromptFor(t, input), BudgetFor(t))
  }

  /** The report a normal turn files for one task's generated text. */
  function Report(t: TaskCategory, out: string): TaskReport {
    TaskReport(t, FormatFor(t, out), IsTruncated(out), ModelUsed(t))
  }

  /** The error reply for a fault: marked complete and not cut off, carrying the fault. */
  function Fault(e: string): (r: Response)
    ensures r.ErrorReply? && r.completed && !r.truncated && r.error == e
  {
    ErrorReply(FaultBanner + TakeAtMost(e, FaultDetailLimit), false, true, e)
  }

  /**
   The message of an error reply is the apology followed by the first (at most)
   100 characters of the fault description.
   */
  lemma FaultMessage(e: string)
    ensures var m := Fault(e).output;
      && StartsWith(m, FaultBanner)
      && |m| == |FaultBanner| + (if |e| <= FaultDetailLimit then |e| else FaultDetailLimit)
      && StartsWith(e, m[|FaultBanner|..])
  {
    var detail := TakeAtMost(e, FaultDetailLimit);
    var m := FaultBanner + detail;
    assert m[..|FaultBanner|] == FaultBanner;
    assert m[|FaultBanner|..] == detail;
  }

  /** The requests a normal turn would send, one per detected task, in order. */
  function Plan(tasks: seq<TaskCategory>, input: string): (p: seq<Call>)
    ensures |p| == |tasks|
    ensures forall i :: 0 <= i < |tasks| ==> p[i] == CallFor(tasks[i], input)
  {
    if tasks == [] then []
    else [CallFor(tasks[0], input)] + Plan(tasks[1..], input)
  }

  /** The outputs of the calls that succeeded, and the fault that stopped the loop, if any. */
  datatype Run = Run(outputs: seq<string>, fault: Option<string>)

  /**
   The loop over the planned calls: call `i` is made only after every earlier
   call succeeded, the first failing call ends the loop, and every successful
   call contributes its output, in order.
   */
  function RunCalls(plan: seq<Call>, gw: Gateway): (r: Run)
    ensures |r.outputs| <= |plan|
    ensures r.fault.None? <==> |r.outputs| == |plan|
    ensures forall i :: 0 <= i < |r.outputs| ==> gw(plan[i]) == Success(r.outputs[i])
    ensures r.fault.Some? ==> gw(plan[|r.outputs|]) == Failure(r.fault.value)
  {
    if plan == [] then Run([], None)
    else
      match gw(plan[0])
      case Failure(e) => Run([], Some(e))
      case Success(out) =>
        var rest := RunCalls(plan[1..], gw);
        Run([out] + rest.outputs, rest.fault)
  }

  /** The text the gateway generated for each of `calls`, all of which succeed. */
  function Answers(calls: seq<Call>, gw: Gateway): (r: seq<string>)
    requires forall i :: 0 <= i < |calls| ==> gw(calls[i]).Success?
    ensures |r| == |calls|
    ensures forall i :: 0 <= i < |calls| ==> gw(calls[i]) == Success(r[i])
  {
    seq(|calls|, i requires 0 <= i < |calls| => gw(calls[i]).value)
  }

  /** The calls a loop over `plan` actually made: the successful ones and the failing one. */
  function CallsMade(plan: seq<Call>, run: Run): seq<Call>
    requires |run.outputs| <= |plan| && (run.fault.Some? ==> |run.outputs| < |plan|)
  {
    plan[..if run.fault.Some? then |run.outputs| + 1 else |run.outputs|]
  }

  /** One report per answered task, in task order. */
  function Reports(tasks: seq<TaskCategory>, outputs: seq<string>): seq<TaskReport>
    requires |outputs| <= |tasks|
  {
    seq(|outputs|, i requires 0 <= i < |outputs| && |outputs| <= |tasks| => Report(tasks[i], outputs[i]))
  }

  /** `all_complete`: no report of the turn is marked as cut off. */
  function AllComplete(reports: seq<TaskReport>): (b: bool)
    ensures b <==> forall i :: 0 <= i < |reports| ==> !reports[i].truncated
  {
    if reports == [] then true
    else
      assert forall i :: 1 <= i < |reports| ==> reports[i] == reports[1..][i - 1];
      !reports[0].truncated && AllComplete(reports[1..])
  }

  /** `combined_text_for_memory`: each output followed by a blank line, in task order. */
  function Memory(outputs: seq<string>): string {
    if outputs == [] then "" else outputs[0] + "\n\n" + Memory(outputs[1..])
  }

  /** The memory text around output `i`: what precedes it and what follows it. */
  lemma {:induction false} MemorySplit(outputs: seq<string>, i: nat) returns (before: string, after: string)
    requires i < |outputs|
    ensures Memory(outputs) == before + outputs[i] + after
  {
    var rest := Memory(outputs[1..]);
    if i == 0 {
      before, after := [], "\n\n" + rest;
    } else {
      var b, a := MemorySplit(outputs[1..], i - 1);
      before, after := outputs[0] + "\n\n" + b, a;
      assert Memory(outputs) == outputs[0] + "\n\n" + (b + outputs[1..][i - 1] + a);
    }
  }

  /** Every output of the turn occurs verbatim in the accumulated memory text. */
  lemma MemoryHoldsOutputs(outputs: seq<string>)
    ensures forall i :: 0 <= i < |outputs| ==> IsSubstring(outputs[i], Memory(outputs))
  {
    forall i | 0 <= i < |outputs| ensures IsSubstring(outputs[i], Memory(outputs)) {
      var before, after := MemorySplit(outputs, i);
      SubstringOfConcat(before, outputs[i], after);
    }
  }

  /** The memory after the first `k` planned calls of a normal turn have been answered. */
  function AfterTasks(s: State, tasks: seq<TaskCategory>, plan: seq<Call>, k: nat): State
    requires k <= |tasks| == |plan|
  {
    if k == 0 then s
    else s.(lastTask := Some(tasks[k - 1]), lastPrompt := Some(plan[k - 1].prompt))
  }

  /**
   The continuation branch: one call to the model of the remembered task with a
   budget of 1000 and a prompt quoting the remembered prompt and output. On
   success the new text is appended to the remembered output after a newline,
   the task and prompt stay, and the turn is complete exactly when the new text
   is not cut off; on a fault the memory is left as it was.
   */
  function ContinueTurn(s: State, gw: Gateway): (o: Outcome)
    requires s.lastTask.Some? && s.lastPrompt.Some?
    ensures |o.calls| == 1
    ensures o.calls[0].model == ModelFor(s.lastTask.value) && o.calls[0].budget == 1000
    ensures o.calls[0].prompt == ContinuationPrompt(s.lastPrompt.value, s.lastOutput)
    ensures IsSubstring(s.lastPrompt.value, o.calls[0].prompt) && IsSubstring(s.lastOutput, o.calls[0].prompt)
    ensures gw(o.calls[0]).Success? ==>
              var out := gw(o.calls[0]).value;
              && o.state == s.(lastOutput := s.lastOutput + "\n" + out)
              && o.response == ContinuationReply(out, IsTruncated(out), !IsTruncated(out), s.lastTask.value)
    ensures gw(o.calls[0]).Failure? ==> o.state == s && o.response == Fault(gw(o.calls[0]).error)
  {
    var t := s.lastTask.value;
    var c := Call(ModelFor(t), ContinuationPrompt(s.lastPrompt.value, s.lastOutput), ContinuationBudget);
    match gw(c)
    case Success(out) =>
      Outcome(s.(lastOutput := s.lastOutput + "\n" + out), ContinuationReply(out, IsTruncated(out), !IsTruncated(out), t), [c])
    case Failure(e) => Outcome(s, Fault(e), [c])
  }

  /**
   The task loop of the normal branch, given the tasks and the request planned
   for each: the requests go out in order until one fails, and the reply is a
   normal reply exactly when none failed.
   */
  function ExecutePlan(s: State, tasks: seq<TaskCategory>, plan: seq<Call>, gw: Gateway): (o: Outcome)
    requires |plan| == |tasks| > 0
    ensures 1 <= |o.calls| <= |plan| && o.calls == plan[..|o.calls|]
    ensures forall i :: 0 <= i < |o.calls| - 1 ==> gw(plan[i]).Success?
    ensures o.response.NormalReply? <==> forall i :: 0 <= i < |o.calls| ==> gw(plan[i]).Success?
    ensures o.response.NormalReply? || o.response.ErrorReply?
  {
    var run := RunCalls(plan, gw);
    var moved := AfterTasks(s, tasks, plan, |run.outputs|);
    match run.fault
    case Some(e) => Outcome(moved, Fault(e), CallsMade(plan, run))
    case None =>
      var reports := Reports(tasks, run.outputs);
      Outcome(moved.(lastOutput := Strip(Memory(run.outputs))),
              NormalReply(reports, AllComplete(reports), |tasks|, Some(tasks[0])),
              plan)
  }

  /**
   When every request succeeds the reply lists one report per task, built from
   that task's output; it is complete exactly when no report is marked as cut
   off, counts the tasks and names the first one. The memory then holds the
   last task, its prompt and the stripped concatenation of all outputs.
   */
  lemma ExecutePlanSucceeds(s: State, tasks: seq<TaskCategory>, plan: seq<Call>, gw: Gateway)
    requires |plan| == |tasks| > 0
    ensures var o := ExecutePlan(s, tasks, plan, gw);
      var n := |tasks|;
      o.response.NormalReply? ==>
        && |o.calls| == n == |o.response.results|
        && (forall i :: 0 <= i < n ==>
              gw(plan[i]).Success? && o.response.results[i] == Report(tasks[i], gw(plan[i]).value))
        && (o.response.completed <==> forall i :: 0 <= i < n ==> !o.response.results[i].truncated)
        && o.response.totalTasks == n
        && o.response.primaryTask == Some(tasks[0])
        && o.state.lastTask == Some(tasks[n - 1])
        && o.state.lastPrompt == Some(plan[n - 1].prompt)
        && o.state.lastOutput == Strip(Memory(Answers(plan, gw)))
  {
    var run := RunCalls(plan, gw);
    if run.fault.None? {
      var n := |tasks|;
      var reports := Reports(tasks, run.outputs);
      var moved := AfterTasks(s, tasks, plan, n);
      var o := ExecutePlan(s, tasks, plan, gw);
      assert o == Outcome(moved.(lastOutput := Strip(Memory(run.outputs))),
                          NormalReply(reports, AllComplete(reports), n, Some(tasks[0])), plan);
      forall i | 0 <= i < n
        ensures gw(plan[i]).Success? && reports[i] == Report(tasks[i], gw(plan[i]).value)
      {
        assert gw(plan[i]) == Success(run.outputs[i]);
      }
      assert Answers(plan, gw) == run.outputs;
    }
  }

  /**
   When request `k` fails the reply is the error reply for its fault, the
   remembered output is untouched, and the remembered task and prompt are those
   of task `k - 1`, or unchanged when the first request failed.
   */
  lemma ExecutePlanFails(s: State, tasks: seq<TaskCategory>, plan: seq<Call>, gw: Gateway)
    requires |plan| == |tasks| > 0
    ensures var o := ExecutePlan(s, tasks, plan, gw);
      var k := |o.calls| - 1;
      o.response.ErrorReply? ==>
        && gw(plan[k]).Failure?
        && o.response == Fault(gw(plan[k]).error)
        && o.state.lastOutput == s.lastOutput
        && (k == 0 ==> o.state == s)
        && (k > 0 ==> o.state.lastTask == Some(tasks[k - 1]) && o.state.lastPrompt == Some(plan[k - 1].prompt))
  {
  }

  /**
   After the loop the remembered task and prompt are those of the last answered
   task (unchanged when none was answered), and a fault leaves the remembered
   output alone.
   */
  lemma ExecutePlanMemory(s: State, tasks: seq<TaskCategory>, plan: seq<Call>, gw: Gateway)
    requires |plan| == |tasks| > 0
    ensures var o := ExecutePlan(s, tasks, plan, gw);
      var moved := AfterTasks(s, tasks, plan, |RunCalls(plan, gw).outputs|);
      && o.state.lastTask == moved.lastTask && o.state.lastPrompt == moved.lastPrompt
      && (o.response.ErrorReply? ==> o.response.completed && o.state.lastOutput == s.lastOutput)
  {
  }

  /**
   `generate_response(user_input, continue_generation)`: the continuation
   branch when the continuation condition holds, otherwise the task loop over
   the detected tasks. Either way it makes one or two calls; a fault never
   leaves the turn incomplete and never touches the remembered output; and
   whenever the remembered task or prompt changes, the new prompt is the one
   built for the new task from this turn's input.
   */
  function GenerateResponse(s: State, input: string, cont: bool, gw: Gateway): (o: Outcome)
    ensures 1 <= |o.calls| <= 2
    ensures ContinuationTaken(s, cont) ==>
              |o.calls| == 1 && o.calls[0].budget == ContinuationBudget
              && o.calls[0].prompt == ContinuationPrompt(s.lastPrompt.value, s.lastOutput)
    ensures !ContinuationTaken(s, cont) ==> o.calls[0] == CallFor(DetectTasks(input)[0], input)
    ensures o.response.ErrorReply? ==> o.response.completed && o.state.lastOutput == s.lastOutput
    ensures o.state.lastTask != s.lastTask || o.state.lastPrompt != s.lastPrompt ==>
              o.state.lastTask.Some? && o.state.lastPrompt == Some(PromptFor(o.state.lastTask.value, input))
  {
    if ContinuationTaken(s, cont) then ContinueTurn(s, gw)
    else
      var tasks := DetectTasks(input);
      var plan := Plan(tasks, input);
      ExecutePlanMemory(s, tasks, plan, gw);
      ExecutePlan(s, tasks, plan, gw)
  }

  /**
   The normal branch sends the detected tasks in classifier order, each with
   its own model, its own prompt and its own budget, stopping at the first
   failure; the reply is a normal reply exactly when no call failed.
   */
  lemma NormalTurnCalls(s: State, input: string, cont: bool, gw: Gateway)
    requires !ContinuationTaken(s, cont)
    ensures var o := GenerateResponse(s, input, cont, gw);
      var tasks := DetectTasks(input);
      && |o.calls| <= |tasks|
      && (forall i :: 0 <= i < |o.calls| ==>
            o.calls[i] == Call(ModelFor(tasks[i]), PromptFor(tasks[i], input), BudgetFor(tasks[i])))
      && (forall i :: 0 <= i < |o.calls| - 1 ==> gw(o.calls[i]).Success?)
      && (o.response.NormalReply? <==> forall i :: 0 <= i < |o.calls| ==> gw(o.calls[i]).Success?)
      && (o.response.NormalReply? || o.response.ErrorReply?)
  {
    var tasks := DetectTasks(input);
    var plan := Plan(tasks, input);
    var o := ExecutePlan(s, tasks, plan, gw);
    assert GenerateResponse(s, input, cont, gw) == o;
    forall i | 0 <= i < |o.calls|
      ensures o.calls[i] == Call(ModelFor(tasks[i]), PromptFor(tasks[i], input), BudgetFor(tasks[i]))
    {
      assert o.calls[i] == plan[i];
    }
  }

  /**
   A normal turn in which every call succeeds reports each task's formatted
   output, is complete exactly when no output is cut off, counts the tasks,
   names the top-priority one, and remembers the last task with its prompt and
   the stripped concatenation of all outputs.
   */
  lemma NormalTurnSucceeds(s: State, input: string, cont: bool, gw: Gateway)
    requires !ContinuationTaken(s, cont)
    ensures var o := GenerateResponse(s, input, cont, gw);
      var tasks := DetectTasks(input);
      var n := |tasks|;
      o.response.NormalReply? ==>
        && |o.calls| == n
        && |o.response.results| == n
        && (forall i :: 0 <= i < n ==>
              gw(o.calls[i]).Success? && o.response.results[i] == Report(tasks[i], gw(o.calls[i]).value))
        && (o.response.completed <==> forall i :: 0 <= i < n ==> !IsTruncated(gw(o.calls[i]).value))
        && o.response.totalTasks == n
        && o.response.primaryTask == Some(tasks[0])
        && o.state.lastTask == Some(tasks[n - 1])
        && o.state.lastPrompt == Some(PromptFor(tasks[n - 1], input))
        && o.state.lastOutput == Strip(Memory(Answers(o.calls, gw)))
  {
    var tasks := DetectTasks(input);
    var plan := Plan(tasks, input);
    ExecutePlanSucceeds(s, tasks, plan, gw);
    var o := ExecutePlan(s, tasks, plan, gw);
    if o.response.NormalReply? {
      assert o.calls == plan;
      forall i | 0 <= i < |tasks| ensures o.response.results[i].truncated == IsTruncated(gw(o.calls[i]).value) {
        assert o.response.results[i] == Report(tasks[i], gw(plan[i]).value);
      }
    }
  }

  /**
   A normal turn whose call for task `k` fails returns the error reply for that
   fault, keeps the remembered output, and remembers task `k - 1` with its
   prompt, or leaves the memory unchanged when the first call failed.
   */
  lemma NormalTurnFails(s: State, input: string, cont: bool, gw: Gateway)
    requires !ContinuationTaken(s, cont)
    ensures var o := GenerateResponse(s, input, cont, gw);
      var tasks := DetectTasks(input);
      var k := |o.calls| - 1;
      o.response.ErrorReply? ==>
        && gw(o.calls[k]).Failure?
        && o.response == Fault(gw(o.calls[k]).error)
        && o.state.lastOutput == s.lastOutput
        && (k == 0 ==> o.state == s)
        && (k > 0 ==> o.state.lastTask == Some(tasks[k - 1])
                      && o.state.lastPrompt == Some(PromptFor(tasks[k - 1], input)))
  {
    var tasks := DetectTasks(input);
    var plan := Plan(tasks, input);
    ExecutePlanFails(s, tasks, plan, gw);
    var o := ExecutePlan(s, tasks, plan, gw);
    assert GenerateResponse(s, input, cont, gw) == o;
    if o.response.ErrorReply? {
      var k := |o.calls| - 1;
      assert o.calls[k] == plan[k];
      assert o.response == Fault(gw(o.calls[k]).error);
      if k > 0 {
        assert plan[k - 1] == CallFor(tasks[k - 1], input);
      }
    }
  }

  /**
   A continuation turn is exactly the continuation branch: one call to the
   remembered task's model, on success a continuation reply, on a fault the
   error reply with the memory unchanged.
   */
  lemma ContinuationTurn(s: State, input: string, cont: bool, gw: Gateway)
    requires ContinuationTaken(s, cont)
    ensures var o := GenerateResponse(s, input, cont, gw);
      && o.calls[0].model == ModelFor(s.lastTask.value)
      && IsSubstring(s.lastPrompt.value, o.calls[0].prompt) && IsSubstring(s.lastOutput, o.calls[0].prompt)
      && (gw(o.calls[0]).Success? <==> o.response.ContinuationReply?)
      && (o.response.ContinuationReply? ==>
            var out := gw(o.calls[0]).value;
            && o.state == s.(lastOutput := s.lastOutput + "\n" + out)
            && o.response.output == out
            && o.response.completed == !IsTruncated(out)
            && o.response.businessTask == s.lastTask.value)
      && (o.response.ErrorReply? ==> o.state == s)
  {
  }

  /**
   The request for a task is exactly what the source assembles from its own
   tables and prompt builder: `MODEL_MAP[task]`, `build_prompt(task, input)` and
   `TOKEN_MAP[task]`, keyed by the task's label.
   */
  lemma CallForUsesTables(t: TaskCategory, input: string)
    ensures Label(t) in ModelMap && Label(t) in TokenMap
    ensures CallFor(t, input) == Call(ModelMap[Label(t)], BuildPrompt(Label(t), input), TokenMap[Label(t)])
  {
    TableLookups(t);
    TemplatesOfLabel(t, input);
  }

  /**
   The report for a task's output is what the source files under the task's
   label: `format_business_output(task, output)`, `is_truncated(output)` and the
   part of `MODEL_MAP[task]` after its last `/`.
   */
  lemma ReportUsesTables(t: TaskCategory, out: string)
    ensures Label(t) in ModelMap
    ensures Report(t, out)
      == TaskReport(t, FormatBusinessOutput(Label(t), out), IsTruncated(out), LastSegment(ModelMap[Label(t)], '/'))
  {
    TableLookups(t);
    TemplatesOfLabel(t, out);
    ModelUsedIsLastSegment(t);
  }

  /**
   Stated with the source's own lookups: every request of a normal turn goes to
   `MODEL_MAP[task]` with `build_prompt(task, input)` and `TOKEN_MAP[task]`, and
   every report of a successful turn carries the formatted output and the model
   name after the last `/`.
   */
  lemma NormalTurnUsesTables(s: State, input: string, cont: bool, gw: Gateway)
    requires !ContinuationTaken(s, cont)
    ensures var o := GenerateResponse(s, input, cont, gw);
      var tasks := DetectTasks(input);
      && |o.calls| <= |tasks|
      && (forall i :: 0 <= i < |o.calls| ==>
            var l := Label(tasks[i]);
            l in ModelMap && l in TokenMap
            && o.calls[i] == Call(ModelMap[l], BuildPrompt(l, input), TokenMap[l]))
      && (o.response.NormalReply? ==>
            |o.calls| == |tasks| == |o.response.results|
            && forall i :: 0 <= i < |tasks| ==>
                 var l := Label(tasks[i]);
                 l in ModelMap && gw(o.calls[i]).Success?
                 && o.response.results[i].output == FormatBusinessOutput(l, gw(o.calls[i]).value)
                 && o.response.results[i].truncated == IsTruncated(gw(o.calls[i]).value)
                 && o.response.results[i].modelUsed == LastSegment(ModelMap[l], '/'))
  {
    NormalTurnCalls(s, input, cont, gw);
    NormalTurnSucceeds(s, input, cont, gw);
    var o := GenerateResponse(s, input, cont, gw);
    var tasks := DetectTasks(input);
    forall i | 0 <= i < |o.calls|
      ensures var l := Label(tasks[i]);
        l in ModelMap && l in TokenMap && o.calls[i] == Call(ModelMap[l], BuildPrompt(l, input), TokenMap[l])
    {
      CallForUsesTables(tasks[i], input);
      assert o.calls[i] == CallFor(tasks[i], input);
    }
    if o.response.NormalReply? {
      forall i | 0 <= i < |tasks|
        ensures var l := Label(tasks[i]);
          l in ModelMap && gw(o.calls[i]).Success?
          && o.response.results[i].output == FormatBusinessOutput(l, gw(o.calls[i]).value)
          && o.response.results[i].truncated == IsTruncated(gw(o.calls[i]).value)
          && o.response.results[i].modelUsed == LastSegment(ModelMap[l], '/')
      {
        ReportUsesTables(tasks[i], gw(o.calls[i]).value);
      }
    }
  }

  /** A continuation turn calls `MODEL_MAP[LAST_TASK]`, looked up by the remembered task's label. */
  lemma ContinuationUsesTable(s: State, input: string, cont: bool, gw: Gateway)
    requires ContinuationTaken(s, cont)
    ensures Label(s.lastTask.value) in ModelMap
    ensures GenerateResponse(s, input, cont, gw).calls[0].model == ModelMap[Label(s.lastTask.value)]
  {
    TableLookups(s.lastTask.value);
    ContinuationTurn(s, input, cont, gw);
  }

  /**
   The memory invariant: a task is remembered exactly when a prompt is, and the
   remembered prompt is the one built for the remembered task from some input.
   */
  ghost predicate Consistent(s: State) {
    && (s.lastTask.Some? <==> s.lastPrompt.Some?)
    && (s.lastTask.Some? ==> exists u :: s.lastPrompt.value == PromptFor(s.lastTask.value, u))
  }

  /** The memory the process starts with is consistent: nothing is remembered. */
  lemma InitialConsistent()
    ensures Consistent(Initial)
    ensures Initial.lastTask.None? && Initial.lastPrompt.None? && Initial.lastOutput == []
  {
  }

  /** Every turn keeps the memory consistent. */
  lemma ConsistentPreserved(s: State, input: string, cont: bool, gw: Gateway)
    requires Consistent(s)
    ensures Consistent(GenerateResponse(s, input, cont, gw).state)
  {
    var o := GenerateResponse(s, input, cont, gw);
    if o.state.lastTask != s.lastTask || o.state.lastPrompt != s.lastPrompt {
      assert o.state.lastPrompt.value == PromptFor(o.state.lastTask.value, input);
    }
  }

  /**
   Under the invariant a remembered prompt is never empty, so a continuation
   request is honoured exactly when some task is remembered.
   */
  lemma ContinuationWhenRemembered(s: State, cont: bool)
    requires Consistent(s)
    ensures ContinuationTaken(s, cont) <==> cont && s.lastTask.Some?
  {
    if s.lastTask.Some? {
      var u :| s.lastPrompt.value == PromptFor(s.lastTask.value, u);
      LabelRoundTrip(s.lastTask.value);
    }
  }

  /**
   After a normal turn that succeeded, a continuation turn calls the model of the
   last detected task and quotes that task's prompt and the stripped memory text.
   */
  lemma ContinueAfterNormal(s: State, input: string, gw: Gateway, gw2: Gateway)
    ensures var first := GenerateResponse(s, input, false, gw);
      first.response.NormalReply? ==>
        var tasks := DetectTasks(input);
        var last := tasks[|tasks| - 1];
        var second := GenerateResponse(first.state, "", true, gw2);
        && ContinuationTaken(first.state, true)
        && second.calls[0].model == ModelFor(last)
        && IsSubstring(PromptFor(last, input), second.calls[0].prompt)
        && IsSubstring(first.state.lastOutput, second.calls[0].prompt)
  {
    NormalTurnSucceeds(s, input, false, gw);
    var first := GenerateResponse(s, input, false, gw);
  }

  /** An empty message sent with no remembered task falls back to the general assistant. */
  lemma EmptyMessageGoesToAssistant(s: State, cont: bool, gw: Gateway)
    requires !ContinuationTaken(s, cont)
    ensures GenerateResponse(s, "", cont, gw).calls[0] == CallFor(Assistant, "")
  {
    assert Lower("") == "";
    assert NoKeyword("") by {
      KeywordsNonEmpty();
    }
    DetectTasksSpec("");
    assert DetectTasks("") == [Assistant];
  }
}
