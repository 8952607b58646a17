/**
 * The agentic pipeline: plan, generate, then up to three rounds of
 * execute-and-repair, returning the first output that parses as JSON or a
 * fixed failure object.
 *
 * The language model, the child process and the JSON parser are oracles,
 * gathered in `Services`. The attempt number given to `run` and `repair`
 * lets two calls with the same arguments answer differently, as a language
 * model or a process may.
 */
module Pipeline {
  import opened Wrappers
  import opened Json
  import Executor

  /** The number of attempts (`range(3)`). */
  const Retries: nat := 3

  /** The reason handed to the repairer when the output is not JSON. */
  const InvalidJsonOutput: string := "Invalid JSON Output"

  /** What the pipeline returns once every attempt has failed. */
  const FailureSentinel: Value := JObject([("error", JString("Pipeline failed after retries"))])

  datatype Services = Services(
    analyze: string -> string,                         // question text -> steps
    generate: (string, string, seq<string>) -> string, // steps, question file, data files -> code
    repair: (nat, string, string) -> string,           // attempt, code, reason -> new code
    run: (nat, string) -> Executor.RunResult,          // attempt, code -> what the child process did
    parse: string -> Option<Value>)                    // json.loads; None when it raises JSONDecodeError

  /** One call the pipeline makes to a collaborator, with its arguments. */
  datatype Call =
    | Planned(question: string)
    | Generated(steps: string, questionFile: string, dataFiles: seq<string>)
    | Executed(code: string)
    | Repaired(code: string, reason: string)

  /** How `run_pipeline` ends: a returned JSON value, or the `TypeError` of `json.loads(None)`. */
  datatype Outcome = Returned(value: Value) | RaisedTypeError

  /** What one attempt decides once its code has run. */
  datatype Verdict = Accept(value: Value) | Retry(reason: string) | Crash

  /** Python truthiness of the executor's error: present and non-empty. */
  predicate Truthy(error: Option<string>) {
    error.Some? && error.value != ""
  }

  /**
   * One attempt's decision on the executor's `(output, error)`: repair with
   * the error when it is truthy; otherwise parse the output, repairing with
   * the fixed reason when it is not JSON. A falsy error with no output
   * reaches `json.loads(None)`, which raises.
   */
  function Judge(out: Executor.ExecOutcome, parse: string -> Option<Value>): (v: Verdict)
  {
    if Truthy(out.error) then Retry(out.error.value)
    else if out.output.None? then Crash
    else match parse(out.output.value)
      case Some(x) => Accept(x)
      case None => Retry(InvalidJsonOutput)
  }

  /**
   * What each verdict means: a crash exactly when the error is falsy and there
   * is no output; acceptance exactly when the error is falsy and the output
   * parses, with the parsed value; a truthy error is the repair's reason, an
   * unparsable output repairs with the fixed reason, and no reason is empty.
   */
  lemma JudgeVerdicts(out: Executor.ExecOutcome, parse: string -> Option<Value>)
    ensures var v := Judge(out, parse);
      && (v.Crash? <==> !Truthy(out.error) && out.output.None?)
      && (v.Accept? <==> !Truthy(out.error) && out.output.Some? && parse(out.output.value).Some?)
      && (v.Accept? ==> parse(out.output.value) == Some(v.value))
      && (Truthy(out.error) ==> v == Retry(out.error.value))
      && (!Truthy(out.error) && out.output.Some? && parse(out.output.value).None? ==> v == Retry(InvalidJsonOutput))
      && (v.Retry? ==> v.reason != "")
  {
  }

  /** The decision of an attempt whose child process did `run`. */
  function Attempt(s: Services, attempt: nat, code: string): (v: Verdict)
    ensures var run := s.run(attempt, code);
      && (run.TimedOut? ==> v == Retry(Executor.TimeoutMessage))
      && (run.Exited? && run.returncode != 0 && run.stderr != "" ==> v == Retry(run.stderr))
      && (run.Exited? && run.returncode != 0 && run.stderr == "" ==> v == Crash)
      && (run.Exited? && run.returncode == 0 ==>
            match s.parse(Executor.Strip(run.stdout))
            case Some(x) => v == Accept(x)
            case None => v == Retry(InvalidJsonOutput))
  {
    Judge(Executor.Classify(s.run(attempt, code)), s.parse)
  }

  /**
   * Reference definition of the loop from attempt `attempt` on with `code`
   * current: the outcome and the calls made.
   */
  function Loop(s: Services, code: string, attempt: nat): (Outcome, seq<Call>)
    requires attempt <= Retries
    decreases Retries - attempt
  {
    if attempt == Retries then (Returned(FailureSentinel), [])
    else match Attempt(s, attempt, code)
      case Accept(x) => (Returned(x), [Executed(code)])
      case Crash => (RaisedTypeError, [Executed(code)])
      case Retry(reason) =>
        var rest := Loop(s, s.repair(attempt, code, reason), attempt + 1);
        (rest.0, [Executed(code), Repaired(code, reason)] + rest.1)
  }

  /** A failed attempt makes one execution and one repair, then the loop goes on with the repaired code. */
  lemma LoopRetries(s: Services, code: string, attempt: nat, reason: string)
    requires attempt < Retries && Attempt(s, attempt, code) == Retry(reason)
    ensures var rest := Loop(s, s.repair(attempt, code, reason), attempt + 1);
      Loop(s, code, attempt).0 == rest.0 &&
      Loop(s, code, attempt).1 == [Executed(code), Repaired(code, reason)] + rest.1
  {
  }

  /** Appending a round call by call is appending it at once. */
  lemma AppendRound(before: seq<Call>, code: string, reason: string, rest: seq<Call>)
    ensures before + ([Executed(code), Repaired(code, reason)] + rest)
         == before + [Executed(code)] + [Repaired(code, reason)] + rest
  {
  }

  /**
   * The step of `RunPipeline`'s loop invariant on a failed attempt: the calls
   * `done` so far, this attempt's execution and repair, then the rest of the loop.
   */
  lemma RetryStep(s: Services, code: string, attempt: nat, reason: string, done: seq<Call>)
    requires attempt < Retries && Attempt(s, attempt, code) == Retry(reason)
    ensures var rest := Loop(s, s.repair(attempt, code, reason), attempt + 1);
      Loop(s, code, attempt).0 == rest.0 &&
      done + Loop(s, code, attempt).1 == done + [Executed(code)] + [Repaired(code, reason)] + rest.1
  {
    LoopRetries(s, code, attempt, reason);
    AppendRound(done, code, reason, Loop(s, s.repair(attempt, code, reason), attempt + 1).1);
  }

  /** The calls made before the loop: plan once, then generate once from the plan. */
  function Prelude(s: Services, question: string, questionFile: string, dataFiles: seq<string>): seq<Call> {
    [Planned(question), Generated(s.analyze(question), questionFile, dataFiles)]
  }

  /** The code the generator returns. */
  function GeneratedCode(s: Services, question: string, questionFile: string, dataFiles: seq<string>): string {
    s.generate(s.analyze(question), questionFile, dataFiles)
  }

  /** Reference definition of `run_pipeline`: its outcome and the calls it makes. */
  function Run(s: Services, question: string, questionFile: string, dataFiles: seq<string>): (Outcome, seq<Call>) {
    var rest := Loop(s, GeneratedCode(s, question, questionFile, dataFiles), 0);
    (rest.0, Prelude(s, question, questionFile, dataFiles) + rest.1)
  }

  /**
   * `run_pipeline` on a question already read from its file. `calls` records
   * every call to the planner, the generator, the child process and the
   * repairer, in order; calls to the JSON parser are not recorded.
   */
  method RunPipeline(s: Services, question: string, questionFile: string, dataFiles: seq<string>)
    returns (result: Outcome, ghost calls: seq<Call>)
    ensures result == Run(s, question, questionFile, dataFiles).0
    ensures calls == Run(s, question, questionFile, dataFiles).1
  {
    var steps := s.analyze(question);
    var code := s.generate(steps, questionFile, dataFiles);
    calls := [Planned(question), Generated(steps, questionFile, dataFiles)];
    ghost var whole := Run(s, question, questionFile, dataFiles);
    var attempt := 0;
    while attempt < Retries
      invariant attempt <= Retries
      invariant whole.0 == Loop(s, code, attempt).0
      invariant whole.1 == calls + Loop(s, code, attempt).1
    {
      var out := Executor.Classify(s.run(attempt, code));
      ghost var verdict := Judge(out, s.parse);
      assert verdict == Attempt(s, attempt, code);
      ghost var before := calls;
      calls := calls + [Executed(code)];
      if Truthy(out.error) {
        RetryStep(s, code, attempt, out.error.value, before);
        calls := calls + [Repaired(code, out.error.value)];
        code := s.repair(attempt, code, out.error.value);
        attempt := attempt + 1;
        continue;
      }
      if out.output.None? {
        assert verdict == Crash;
        result := RaisedTypeError;
        return;
      }
      var parsed := s.parse(out.output.value);
      if parsed.Some? {
        assert verdict == Accept(parsed.value);
        result := Returned(parsed.value);
        return;
      }
      RetryStep(s, code, attempt, InvalidJsonOutput, before);
      calls := calls + [Repaired(code, InvalidJsonOutput)];
      code := s.repair(attempt, code, InvalidJsonOutput);
      attempt := attempt + 1;
    }
    assert Loop(s, code, attempt) == (Returned(FailureSentinel), []);
    assert calls + [] == calls;
    result := Returned(FailureSentinel);
  }
}
