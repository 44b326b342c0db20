# I2P business-advisory backend in Dafny

This project models the request core of the I2P "ideas to project" business
advisor. A chat message is classified by keyword into at most two business
task categories. Each category is sent to a hosted language model with a
category-specific prompt and token budget. The outputs of five business
categories come back wrapped in banners; the other seven come back as
generated. Every output is flagged when it looks cut off. A single-session memory
lets the next request ask the model to continue the last answer.

Modules, one file each:

- `Wrappers` (wrappers.dfy): `Option` and `Result`.
- `Text` (text.dfy): the Python string operations the backend relies on:
  ASCII `lower()` and `strip()`, substring `in`, `endswith`, `split('/')[-1]`
  and slicing `[:n]`.
- `Ranking` (ranking.dfy): Python's stable `sorted(..., key=...)` as insertion
  sort, and filtering of a reference order. The classifier proof uses the lemma
  that these two views agree.
- `Tasks` (tasks.dfy): the twelve task categories and their labels, the two
  configuration tables `MODEL_MAP` and `TOKEN_MAP`, the keyword lists and the
  priority order.
- `Classifier` (classifier.dfy): `detect_tasks`.
- `Templates` (templates.dfy): `build_prompt`, `is_truncated`,
  `format_business_output` and the continuation prompt.
- `Session` (session.dfy): `generate_response` and the memory
  `LAST_TASK`/`LAST_PROMPT`/`LAST_OUTPUT`.
- `App` (app.dfy): the `/chat` endpoint's request check.

The memory is an explicit `State` value passed into a turn and returned with
the reply. The hosted client `call_model` is a `Gateway` parameter. A gateway
is an arbitrary pure function from a request (model identifier, prompt, token
budget) to generated text or an exception message. Each turn also returns the
list of requests it made, in order, so contracts can state what was sent.

## Model

| member | source | states |
|---|---|---|
| Text.Lower | backend.py:59 | Same length; each upper-case ASCII letter becomes its lower-case form; every other character is kept. |
| Text.LowerIdempotent | backend.py:59 | Lower-casing twice gives the same result as lower-casing once. |
| Text.StripSpec | backend.py:314 | `strip()` gives the empty string exactly when the text is all whitespace. Otherwise the result begins and ends with non-whitespace, is the slice of the text just after the leading whitespace, and only whitespace follows it. |
| Text.StripUnique | backend.py:314 | Whitespace before and after a slice that has non-whitespace at both ends determines `strip()`. |
| Text.StripIgnoresTrailingSpace | backend.py:466 | Appending whitespace does not change the stripped text. |
| Text.TakeAtMost | backend.py:481 | `s[:n]` has length min(n, \|s\|) and is a prefix of `s`. |
| Text.LastSegment | backend.py:454 | `split('/')[-1]` has no separator in it, ends the text, and is either the whole text or preceded by the separator. |
| Text.LastSegmentAfter | backend.py:454 | For text shaped `a/b` with no separator in `b`, the last segment is `b`. |
| Ranking.SortBy | backend.py:97 | `sorted` yields a permutation of its input with non-decreasing keys. |
| Ranking.Insert | backend.py:97 | An insertion step keeps the keys sorted and adds exactly one occurrence of the element. |
| Ranking.SortIsFilter | backend.py:92-97 | Sorting distinct elements of a strictly ordered reference by their positions yields the reference restricted to those elements. |
| Ranking.TopTwoFacts | backend.py:98 | The first two of such a restriction are one or two elements, strictly ordered and all from the set. Every dropped element ranks after every kept one, and nothing is dropped when fewer than two are kept. |
| Ranking.FilterKeepsOrder | backend.py:97 | Restricting a strictly ordered sequence keeps it strictly ordered. |
| Tasks.LabelRoundTrip | backend.py:14-46 | Reading a category's label back gives the category. |
| Tasks.ParseLabelSound | backend.py:14-46 | A string that is recognised is the label of the category it names. |
| Tasks.LabelInjective | backend.py:14-46 | Different categories have different labels. |
| Tasks.TablesTotal | backend.py:14-46 | Both configuration tables have an entry for every category's label and for no other key. |
| Tasks.TableLookups | backend.py:14-46 | The model table gives the coder model for `code` and the Llama model for every other label. The token table gives each category's budget. |
| Tasks.ModelFor | backend.py:14-30 | Every category goes to one of the two hosted models. |
| Tasks.BudgetFor | backend.py:32-46 | Every budget is between 600 and 1800 tokens. |
| Tasks.KeywordsNonEmpty | backend.py:63-86 | No keyword is the empty string. |
| Tasks.DetectionOrderCoversKeywordCategories | backend.py:63-89 | The categories tested in order are exactly those with keywords; only the assistant has none. |
| Tasks.PriorityKeyIsPosition | backend.py:92-97 | Every category is in the priority order, so the 999 fallback key is never used. Each key is the category's position, and keys strictly increase along the order. |
| Tasks.PriorityKeyInjective | backend.py:97 | Distinct categories have distinct sort keys. |
| Classifier.Hits | backend.py:62-86 | The collected list holds exactly the tested categories with a keyword in the text, without repetition. |
| Classifier.HitsEmptyIffNoHit | backend.py:88-89 | The collected list is empty exactly when no category matches. |
| Classifier.CandidateSetShape | backend.py:88-89 | The detected set is never empty. It is the assistant alone when nothing matches, and never contains the assistant otherwise. |
| Classifier.NoKeywordIffNoHit | backend.py:63-89 | No keyword occurs in the text exactly when no tested category matches. |
| Classifier.DetectTasks | backend.py:58-98 | Returns one or two categories. |
| Classifier.DetectTasksSpec | backend.py:58-98 | The result is distinct detected categories in strict priority order, and every dropped category ranks after every kept one. It is the assistant alone exactly when no keyword occurs, and the assistant never appears beside another category. Every result label is in both tables. |
| Classifier.DetectTasksIsPriorityPrefix | backend.py:91-98 | The result is the first two detected categories in priority order. |
| Classifier.DetectTasksCaseInsensitive | backend.py:59 | A text and its lower-cased form are classified alike. |
| Templates.PromptFor | backend.py:104-291 | A category's prompt contains the user text verbatim and is longer than it. |
| Templates.BuildPrompt | backend.py:103-292 | For a known label the prompt contains the user text and is longer than it. An unknown label returns the user text itself. |
| Templates.PromptRoundTrip | backend.py:103-292 | Removing the category's scaffold from its prompt gives back the user text. |
| Templates.BuildPromptInjective | backend.py:103-292 | Different user texts get different prompts for the same category. |
| Templates.IsTruncatedByLastChar | backend.py:312-314 | A text counts as complete exactly when its stripped form ends in `.`, `!`, `?`, `}` or `]`, or ends with a triple backtick. |
| Templates.IsTruncatedIgnoresTrailingSpace | backend.py:312-314 | Trailing whitespace does not change the verdict, and blank text always counts as cut off. |
| Templates.FormatFor | backend.py:322-394 | The five banner categories wrap the output verbatim in a longer text. Every other category returns it unchanged. |
| Templates.FormatBusinessOutput | backend.py:319-396 | Same as above for labels: a banner label wraps the output, and any other label leaves it as it is. |
| Templates.FormatRoundTrip | backend.py:319-396 | Removing the banner heading and advisory block gives back the raw output. |
| Templates.TemplatesOfLabel | backend.py:319-396 | Looking up a category by its label gives that category's prompt and banner. |
| Templates.ContinuationPrompt | backend.py:407-412 | The continuation prompt contains the original prompt and the generated text verbatim and ends with the carry-on instruction. |
| Session.ModelUsedIsLastSegment | backend.py:454 | `model_used` is the part of the model identifier after its last `/`, contains no `/` and ends the identifier. |
| Session.Fault | backend.py:476-490 | An error reply is complete, not cut off, and carries the fault description. |
| Session.FaultMessage | backend.py:481 | The error message is the apology followed by a prefix of the fault description at most 100 characters long. |
| Session.Plan | backend.py:439-445 | One request per detected task, in order, each with that task's model, prompt and budget. |
| Session.RunCalls | backend.py:439-445 | A request goes out only after all earlier ones succeeded, and the first failure stops the loop. Each success contributes its output in order. |
| Session.AllComplete | backend.py:463-464 | `all_complete` holds exactly when no report is marked as cut off. |
| Session.Answers | backend.py:441-457 | The outputs the gateway returned for a sequence of successful calls, one per call and in order. |
| Session.MemorySplit | backend.py:457 | The accumulated memory text has each output at some position. |
| Session.MemoryHoldsOutputs | backend.py:457 | Every output of a turn occurs verbatim in the accumulated memory text. |
| Session.ContinueTurn | backend.py:406-431 | Makes one request: the remembered task's model, budget 1000, and a prompt quoting the remembered prompt and output. On success the new text is appended after a newline and the reply is complete exactly when the text is not cut off. On a fault the memory is unchanged and the reply is the error reply. |
| Session.ExecutePlan | backend.py:433-474 | The requests sent are a prefix of the plan, and all but the last succeeded. The reply is a normal reply exactly when all of them succeeded, and an error reply otherwise. |
| Session.ExecutePlanSucceeds | backend.py:439-474 | When all requests succeed: one report per task built from its output; complete exactly when no report is cut off; the task count and the first task are reported. The memory then holds the last task, its prompt and the stripped concatenation of the gateway's answers. |
| Session.ExecutePlanFails | backend.py:459-461 | When request k fails: the error reply for that fault, and the remembered output is untouched. The memory holds task k-1 and its prompt, or is unchanged when k = 0. |
| Session.ExecutePlanMemory | backend.py:459-466 | After the loop the remembered task and prompt are those of the last answered task. A fault leaves the remembered output alone. |
| Session.GenerateResponse | backend.py:401-490 | Makes one or two requests. The continuation branch makes a single request with budget 1000; otherwise the first request is for the top-priority detected task. A fault never leaves the turn incomplete or touches the remembered output. A changed memory holds the prompt built for the new task from this turn's input. |
| Session.NormalTurnCalls | backend.py:434-445 | The normal branch sends the detected tasks in order, each with its own model, prompt and budget, and stops at the first failure. The reply is normal exactly when no request failed. |
| Session.NormalTurnSucceeds | backend.py:434-474 | A successful normal turn reports each task's formatted output and is complete exactly when no raw output is cut off. It counts the tasks and names the top-priority one. The memory holds the last task, its prompt and the stripped concatenation of the gateway's answers. |
| Session.NormalTurnFails | backend.py:439-461 | A normal turn whose request k fails returns the error reply for that fault and keeps the remembered output. The memory holds task k-1 and its prompt, or is unchanged when k = 0. |
| Session.ContinuationTurn | backend.py:406-431 | A continuation turn uses the remembered task's model and quotes the remembered prompt and output. It gives a continuation reply exactly when the request succeeds. |
| Session.InitialConsistent | backend.py:51-53 | The starting memory remembers no task, no prompt and an empty output, and satisfies the memory invariant. |
| Session.ConsistentPreserved | backend.py:401-490 | Every turn keeps the memory invariant: a task is remembered exactly when a prompt is, and the prompt is that task's prompt for some input. |
| Session.CallForUsesTables | backend.py:440-445 | A task's request is `MODEL_MAP[task]`, `build_prompt(task, input)` and `TOKEN_MAP[task]`, looked up by the task's label. |
| Session.ReportUsesTables | backend.py:448-455 | A task's report is the label's formatted output, `is_truncated` of the raw output, and the part of `MODEL_MAP[task]` after its last `/`. |
| Session.NormalTurnUsesTables | backend.py:439-455 | Each request of a normal turn goes to `MODEL_MAP[task]` with `build_prompt(task, input)` and `TOKEN_MAP[task]`. Each report of a successful turn carries `format_business_output(task, output)`, `is_truncated(output)` and the model name after the last `/`. |
| Session.ContinuationUsesTable | backend.py:414-418 | A continuation turn calls `MODEL_MAP[LAST_TASK]`. |
| Session.ContinuationWhenRemembered | backend.py:406 | Under the invariant, continuation is taken exactly when it is requested and a task is remembered. |
| Session.ContinueAfterNormal | backend.py:406-420 | After a successful normal turn, a continuation request is honoured. It calls the last task's model and quotes that task's prompt and the stored memory. |
| Session.EmptyMessageGoesToAssistant | backend.py:88-89 | Without continuation, an empty message is sent to the general assistant. |
| App.Chat | app.py:14-24 | Refused with status 400 exactly when the message is empty and continuation is not requested. A refusal leaves the memory unchanged and makes no request; anything else is one backend turn. |
| App.EmptyRequestRefused | app.py:16-21 | A body with neither field, or with an empty message only, is refused. |
| App.BareContinue | app.py:18-23 | A continuation request with no message resumes the remembered task, or goes to the assistant when none is remembered. |
| App.ChatKeepsConsistent | app.py:23 | Every exchange keeps the memory invariant. |

## Left out

- Network and process I/O are outside the model: the Hugging Face client, its temperature, the API token, the Flask server, the static page and error logging. `call_model` is the `Gateway` parameter, and any exception is one fault string.
- The module-level memory is a value threaded through turns. Concurrent requests sharing the globals are not modelled.
- Templates.PromptFor: the long instruction lists inside each prompt and banner are shortened to their opening words. The contracts depend only on the user text sitting verbatim between a fixed prefix and a fixed suffix.
- Text.Lower: covers ASCII letters only, while Python's `lower()` covers all of Unicode.
- Text.StripSpec: whitespace is the ASCII characters Python's `isspace()` accepts (codes 9-13 and 28-32); other Unicode whitespace is not stripped.
- Text.StripUnique: same ASCII-only whitespace as Text.StripSpec.
- Text.StripIgnoresTrailingSpace: same ASCII-only whitespace as Text.StripSpec.
- Templates.IsTruncatedByLastChar: the stripped form uses ASCII-only whitespace, so text ending in other Unicode whitespace is judged differently from Python.
- Templates.IsTruncatedIgnoresTrailingSpace: covers trailing ASCII whitespace only.
- The constant reply fields are not modelled: `business_focus`, each report's `task_type` (always its own category), and the error entry's `task_type`.
- Session.NormalReply: holds reports as a list in task order rather than a dictionary keyed by label. The two labels are always distinct, so no entry is overwritten.
- The `primary_task` fallback to `None` for an empty task list cannot happen, because the classifier always returns at least one category.
- App.Request: only string messages and boolean `continue` flags are modelled, and `None` means the field is absent. A malformed or falsy body becomes the empty object and is modelled as `Request(None, None)`. A truthy body that is not an object (a list, a string, a number) makes the field lookup raise, and the server answers with status 500; that path is not modelled.
- App.Request: a `message` that is JSON `null` or not a string is not modelled. Such a message passes the 400 rule when `continue` is set or the value is truthy. Outside the continuation branch, lower-casing it then raises and the turn returns the error reply without any model call. The model has no such value, and it does not conflate `null` with an absent field: `Request(None, ...)` is the absent field only.
- Session.GenerateResponse: for string messages, the only exception modelled is a failed model call. A missing table key cannot happen, because every detected label is in both tables (Classifier.DetectTasksSpec).
