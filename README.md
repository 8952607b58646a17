# Data-analyst agent: the generate–execute–repair loop

This project models the core of an LLM-driven data-analysis service. The
pipeline asks a language model to plan the analysis of a question, then to
write a script for it. It then runs the script in a child process up to
three times. After each failed attempt it asks the model to repair the
script. It returns the first output that parses as JSON. If all three
attempts fail it returns the fixed object
`{"error": "Pipeline failed after retries"}`.

Modules:

- `Wrappers` (`wrappers.dfy`): `Option`, which stands for Python's `None`-or-value.
- `Json` (`json.dfy`): the values `json.loads` can return.
- `Executor` (`executor.dfy`): how `execute_code` turns a finished child
  process into its `(output, error)` pair. This covers timeout, non-zero
  exit, and success with `stdout.strip()`. `Strip` follows Python's
  `str.strip()` over the exact character set of `str.isspace`.
- `Pipeline` (`pipeline.dfy`): `run_pipeline`.
  - `RunPipeline` is an imperative method with the source's loop.
  - `Run` and `Loop` are its reference definition, and the method is proved
    to compute exactly that.
  - The collaborators are oracles gathered in `Services`: the planner, the
    generator, the repairer, the child process and `json.loads`.
  - A ghost trace `calls` records every call to the planner, the generator,
    the child process and the repairer, in order; `json.loads` calls are not
    recorded.
- `PipelineProperties` (`pipeline_properties.dfy`): what a run guarantees,
  proved over `Run`.

Behaviour kept exactly as the code has it:

- The test at `pipeline.py:14` is `if error:`. A non-zero exit with empty
  standard error therefore skips the repair. It passes `None` to
  `json.loads`, and the resulting `TypeError` is not caught. The model ends
  such a run with `RaisedTypeError`: a failed run with empty stderr is never
  repaired.
- The repairer is called after the third failure too, and its answer is
  never run. So three failures give three executions and three repairs.
- `execute_code` receives the question file and the data files but does
  not use them. The model's child-process oracle sees only the code and
  the attempt number.

## Model

| member | source | states |
|---|---|---|
| Executor.Classify | executor.py:20-24 | output is present exactly when the process exited with code 0; at least one of output and error is `None`; a timeout gives the error "Execution timed out"; a non-zero exit gives the captured stderr as the error, whatever stdout holds; a zero exit gives no error and the stripped stdout |
| Executor.IsWhitespace | executor.py:22 | defines the characters `str.strip()` removes: exactly those for which Python's `str.isspace` holds (ASCII blanks and controls 9-13 and 28-31, and the Unicode spaces and separators) |
| Executor.SkipLeading | executor.py:22 | the scan stops at the first non-whitespace character, and everything it passed over is whitespace |
| Executor.SkipTrailing | executor.py:22 | the backward scan stops after the last non-whitespace character, and everything it passed over is whitespace |
| Executor.Strip | executor.py:22 | the stripped text neither starts nor ends with whitespace |
| Executor.StripSpan | executor.py:22 | the stripped text is `s[b..e]` with only whitespace before `b` and after `e` |
| Executor.StripUnique | executor.py:22 | any piece of `s` that has only whitespace around it and no whitespace at its ends is exactly what `strip()` returns |
| Executor.StripIdempotent | executor.py:22 | stripping twice gives the same as stripping once |
| Executor.SuccessOutputIsStripped | executor.py:20-22 | on a zero exit the output is a contiguous substring of stdout, has only whitespace around it, is unchanged by a second strip, and there is no error |
| Executor.StripExample | executor.py:22 | `"  {\"a\":1}\n"` strips to `"{\"a\":1}"` |
| Pipeline.Truthy | pipeline.py:14 | defines `if error:` on the executor's error: it holds exactly when the error is present and not the empty string |
| Pipeline.Judge | pipeline.py:14-20 | defines one attempt's decision on `(output, error)`: a truthy error asks for a repair with that error; otherwise the output is parsed, accepted when it parses, repaired with "Invalid JSON Output" when it does not, and `json.loads(None)` raises when there is no output |
| Pipeline.JudgeVerdicts | pipeline.py:14-20 | a crash happens exactly when the error is falsy and there is no output; acceptance happens exactly when the error is falsy and the output parses, and carries the parsed value; a truthy error asks for a repair with exactly that error; a falsy error with output that does not parse asks for a repair with "Invalid JSON Output"; a repair is never asked with an empty reason |
| Pipeline.Attempt | pipeline.py:13-20 | one attempt: a timeout or a non-zero exit with non-empty stderr asks for a repair with that error; a non-zero exit with empty stderr raises; a zero exit accepts the parsed stripped output, or asks for a repair with "Invalid JSON Output" |
| Pipeline.Loop | pipeline.py:12-21 | reference definition of the loop from a given attempt with the current code: the outcome and the calls made; its properties are the `PipelineProperties` lemmas |
| Pipeline.LoopRetries | pipeline.py:13-20 | helper: one unfolding of `Loop` on a failed attempt, an execution and a repair of the current code followed by the loop at the next attempt with the repaired code (stated for whole runs by `PipelineProperties.FailedAttemptIsRepaired`) |
| Pipeline.Prelude | pipeline.py:9-10 | defines the calls before the loop: plan the question once, then generate once from the plan with the file arguments |
| Pipeline.GeneratedCode | pipeline.py:9-10 | defines the code the loop starts from: the generator's answer for the planner's steps and the file arguments |
| Pipeline.Run | pipeline.py:5-21 | reference definition of `run_pipeline`: the outcome of the loop on the generated code, and the prelude's calls followed by the loop's; `RunPipeline` is proved to compute it and `PipelineProperties` proves what it guarantees |
| Pipeline.RunPipeline | pipeline.py:5-21 | the returned value and the trace of calls are exactly those of the reference definition `Run`, whose properties `PipelineProperties` proves |
| PipelineProperties.FailuresFrom | pipeline.py:12-16 | counting failures from a failed prefix reaches an attempt that does not ask for repair, or the budget of three |
| PipelineProperties.LeadingFailures | pipeline.py:12 | at most three leading failures, and when fewer, the next attempt does not ask for a repair |
| PipelineProperties.CountsAppend | pipeline.py:13-20 | helper for `RoundsCounts` and `ExecutionsOfRun`: execution and repair counts add up over concatenated traces |
| PipelineProperties.CountsOne | pipeline.py:13-20 | helper for `RoundsCounts`: a single call counts as one execution or one repair according to its kind |
| PipelineProperties.RoundsAt | pipeline.py:13-20 | `n` failed attempts leave `2n` calls that alternate: execute attempt `j`'s code, then repair that code with attempt `j`'s reason |
| PipelineProperties.RoundsCounts | pipeline.py:13-20 | `n` failed attempts make exactly `n` executions and `n` repairs |
| PipelineProperties.RoundsOnlyRepairLoop | pipeline.py:13-20 | the failed attempts make only executions and repairs, never a new plan or generation |
| PipelineProperties.LoopAfterFailures | pipeline.py:12-20 | after `n` failed attempts the loop's result and remaining calls are those of attempt `n` run on the `n`-th repaired code |
| PipelineProperties.RunShape | pipeline.py:5-21 | every run is plan, generate, the failed attempts each followed by its repair, then either the attempt that ended the loop (result: its parsed value, or the `TypeError`) or, after three failures, the sentinel |
| PipelineProperties.PlanThenGenerateOnce | pipeline.py:9-13 | planning then generation come first, once each; generation receives the plan and the same file arguments; the first execution runs the generated code; every later call is an execution or a repair |
| PipelineProperties.AtMostThreeExecutions | pipeline.py:12-13 | every run executes code at least once and at most three times, and repairs either as often as it executes or one time fewer |
| PipelineProperties.ExecutionsOfRun | pipeline.py:12-21 | after `n` leading failures the run makes `n` repairs, and `n + 1` executions, or 3 when `n` is 3 |
| PipelineProperties.FirstAcceptedAttemptWins | pipeline.py:12-18 | if attempt `k` is the first whose output parses, the result is exactly the parsed value, after `k + 1` executions and `k` repairs |
| PipelineProperties.FailedAttemptIsRepaired | pipeline.py:13-20 | a failed attempt is followed at once by one repair of the code it ran, with its reason; the repaired code is what the next attempt executes |
| PipelineProperties.ExhaustionGivesSentinel | pipeline.py:12-21 | three failures, whatever their reasons, return `{"error": "Pipeline failed after retries"}` after exactly three executions and three repairs |
| PipelineProperties.FalsyErrorRaises | pipeline.py:14-19 | a non-zero exit with empty stderr is not repaired: the run ends with the uncaught `TypeError` of `json.loads(None)` |
| PipelineProperties.RepairOnceScenario | pipeline.py:9-18 | a script that fails at run time and whose repair prints `{"ok": true}` gives the result `{"ok": true}` after two executions and one repair |

## Left out

- Language-model calls: `analyze_question`, `generate_code` and
  `review_and_debug_code` are oracles. Their prompt wording is not modelled.
  A failure of these calls is not modelled either; in the source it
  propagates out of the pipeline uncaught.
- Reading the question file (`pipeline.py:6-7`) is I/O. The question text is
  an input of `RunPipeline`.
- Launching the child process is left out. So are the temporary directory,
  writing `analysis.py` and enforcing the 100-second deadline
  (`executor.py:6-19`). Only the result is modelled: a timeout, or an exit
  code with the captured stdout and stderr. Any other exception from
  `subprocess.run` is not modelled either: `FileNotFoundError` when no
  `python` is found, or `UnicodeDecodeError` when the child's output does not
  decode under `text=True` (`executor.py:17`). In the source such an error
  propagates out of the pipeline uncaught; `RunResult` cannot express it.
- `json.loads` is an oracle returning `None` where it raises
  `JSONDecodeError`. The JSON grammar, its other exceptions, and floats
  beyond exact reals are not modelled.
- The HTTP layer, upload handling and configuration are not part of this
  model. That covers `main.py`, `config.py` and the API-key setup in
  `llm_utils.py`.
