/**
 * What `run_pipeline` guarantees, stated over the reference definition
 * `Pipeline.Run` (which `Pipeline.RunPipeline` is proved to compute): the
 * prelude runs once, at most three attempts are made, each failed attempt is
 * repaired exactly once and the repaired code is what runs next, the first
 * attempt that parses decides the result, and exhaustion yields the sentinel.
 */
module PipelineProperties {
  import opened Wrappers
  import opened Json
  import Executor
  import opened Pipeline

  /** The code run at attempt `k` when every earlier attempt failed: `g`, then each repair's answer. */
  function CodeAt(s: Services, g: string, k: nat): string
    decreases k
  {
    if k == 0 then g
    else
      var prev := CodeAt(s, g, k - 1);
      match Attempt(s, k - 1, prev)
      case Retry(reason) => s.repair(k - 1, prev, reason)
      case _ => prev
  }

  /** The decision of attempt `k`. */
  function StepAt(s: Services, g: string, k: nat): Verdict {
    Attempt(s, k, CodeAt(s, g, k))
  }

  /** Attempts `0 .. n - 1` all asked for a repair. */
  predicate FailedBefore(s: Services, g: string, n: nat) {
    forall j :: 0 <= j < n ==> StepAt(s, g, j).Retry?
  }

  /** The calls of `n` failed attempts: each executes its code, then repairs it. */
  function Rounds(s: Services, g: string, n: nat): seq<Call>
    requires FailedBefore(s, g, n)
    decreases n
  {
    if n == 0 then []
    else
      var c := CodeAt(s, g, n - 1);
      Rounds(s, g, n - 1) + [Executed(c), Repaired(c, StepAt(s, g, n - 1).reason)]
  }

  function FailuresFrom(s: Services, g: string, k: nat): (n: nat)
    requires k <= Retries && FailedBefore(s, g, k)
    decreases Retries - k
    ensures k <= n <= Retries && FailedBefore(s, g, n)
    ensures n < Retries ==> !StepAt(s, g, n).Retry?
  {
    if k == Retries || !StepAt(s, g, k).Retry? then k else FailuresFrom(s, g, k + 1)
  }

  /** How many attempts fail before one stops the loop, capped at the retry budget. */
  function LeadingFailures(s: Services, g: string): (n: nat)
    ensures n <= Retries && FailedBefore(s, g, n)
    ensures n < Retries ==> !StepAt(s, g, n).Retry?
  {
    FailuresFrom(s, g, 0)
  }

  /** The number of executions among `t`. */
  function Executions(t: seq<Call>): nat {
    if t == [] then 0 else Executions(t[..|t| - 1]) + (if t[|t| - 1].Executed? then 1 else 0)
  }

  /** The number of repair calls among `t`. */
  function Repairs(t: seq<Call>): nat {
    if t == [] then 0 else Repairs(t[..|t| - 1]) + (if t[|t| - 1].Repaired? then 1 else 0)
  }

  lemma {:induction false} CountsAppend(a: seq<Call>, b: seq<Call>)
    ensures Executions(a + b) == Executions(a) + Executions(b)
    ensures Repairs(a + b) == Repairs(a) + Repairs(b)
    decreases |b|
  {
    if b == [] {
      assert a + b == a;
    } else {
      var b' := b[..|b| - 1];
      assert (a + b)[..|a + b| - 1] == a + b';
      CountsAppend(a, b');
    }
  }

  lemma CountsOne(x: Call)
    ensures Executions([x]) == (if x.Executed? then 1 else 0)
    ensures Repairs([x]) == (if x.Repaired? then 1 else 0)
  {
    assert [x][..0] == [];
  }

  /** `n` failed attempts make `n` executions and `n` repairs, alternating. */
  lemma {:induction false} RoundsAt(s: Services, g: string, n: nat)
    requires FailedBefore(s, g, n)
    ensures |Rounds(s, g, n)| == 2 * n
    ensures forall j :: 0 <= j < n ==>
      && Rounds(s, g, n)[2 * j] == Executed(CodeAt(s, g, j))
      && Rounds(s, g, n)[2 * j + 1] == Repaired(CodeAt(s, g, j), StepAt(s, g, j).reason)
  {
    if n > 0 {
      RoundsAt(s, g, n - 1);
      var prefix := Rounds(s, g, n - 1);
      forall j | 0 <= j < n - 1
        ensures Rounds(s, g, n)[2 * j] == prefix[2 * j]
        ensures Rounds(s, g, n)[2 * j + 1] == prefix[2 * j + 1]
      {
      }
    }
  }

  lemma {:induction false} RoundsCounts(s: Services, g: string, n: nat)
    requires FailedBefore(s, g, n)
    ensures Executions(Rounds(s, g, n)) == n && Repairs(Rounds(s, g, n)) == n
  {
    if n > 0 {
      RoundsCounts(s, g, n - 1);
      var c := CodeAt(s, g, n - 1);
      var pair := [Executed(c), Repaired(c, StepAt(s, g, n - 1).reason)];
      CountsAppend(Rounds(s, g, n - 1), pair);
      CountsOne(Executed(c));
      CountsOne(pair[1]);
      CountsAppend([Executed(c)], [pair[1]]);
      assert pair == [Executed(c)] + [pair[1]];
    }
  }

  lemma {:induction false} RoundsOnlyRepairLoop(s: Services, g: string, n: nat)
    requires FailedBefore(s, g, n)
    ensures forall i :: 0 <= i < |Rounds(s, g, n)| ==> Rounds(s, g, n)[i].Executed? || Rounds(s, g, n)[i].Repaired?
  {
    if n > 0 {
      RoundsOnlyRepairLoop(s, g, n - 1);
    }
  }

  /** After `n` failed attempts the loop goes on from attempt `n` with the `n`-th repaired code. */
  lemma {:induction false} LoopAfterFailures(s: Services, g: string, n: nat)
    requires n <= Retries && FailedBefore(s, g, n)
    ensures Loop(s, g, 0).0 == Loop(s, CodeAt(s, g, n), n).0
    ensures Loop(s, g, 0).1 == Rounds(s, g, n) + Loop(s, CodeAt(s, g, n), n).1
  {
    if n > 0 {
      LoopAfterFailures(s, g, n - 1);
      var c := CodeAt(s, g, n - 1);
      var reason := StepAt(s, g, n - 1).reason;
      RetryStep(s, c, n - 1, reason, Rounds(s, g, n - 1));
      assert CodeAt(s, g, n) == s.repair(n - 1, c, reason);
    }
  }

  /** How the pipeline ends after `n` leading failures. */
  function Final(s: Services, g: string, n: nat): Outcome
    requires n <= Retries
  {
    if n == Retries then Returned(FailureSentinel)
    else match StepAt(s, g, n)
      case Accept(x) => Returned(x)
      case _ => RaisedTypeError
  }

  /** The attempt that stops the loop early, if one does. */
  function LastExecution(s: Services, g: string, n: nat): seq<Call>
    requires n <= Retries
  {
    if n < Retries then [Executed(CodeAt(s, g, n))] else []
  }

  /**
   * The whole run: plan, generate, the failed attempts each followed by its
   * repair, then either the attempt that ended the loop or the sentinel.
   */
  lemma RunShape(s: Services, question: string, questionFile: string, dataFiles: seq<string>)
    ensures var g := GeneratedCode(s, question, questionFile, dataFiles);
      var n := LeadingFailures(s, g);
      && Run(s, question, questionFile, dataFiles).0 == Final(s, g, n)
      && Run(s, question, questionFile, dataFiles).1
         == Prelude(s, question, questionFile, dataFiles) + Rounds(s, g, n) + LastExecution(s, g, n)
  {
    var g := GeneratedCode(s, question, questionFile, dataFiles);
    var n := LeadingFailures(s, g);
    LoopAfterFailures(s, g, n);
    var rest := Loop(s, CodeAt(s, g, n), n);
    assert rest == (Final(s, g, n), LastExecution(s, g, n));
  }

  /** The attempt after `n` leading failures that stops the loop is the `n`-th. */
  lemma LeadingFailuresIs(s: Services, g: string, n: nat)
    requires n <= Retries && FailedBefore(s, g, n)
    requires n < Retries ==> !StepAt(s, g, n).Retry?
    ensures LeadingFailures(s, g) == n
  {
  }

  /**
   * Planning and generation happen once each, first, in that order; the
   * generator gets the plan and the file arguments; the first execution runs
   * the generated code; everything after the prelude is an execution or a
   * repair.
   */
  lemma PlanThenGenerateOnce(s: Services, question: string, questionFile: string, dataFiles: seq<string>)
    ensures var t := Run(s, question, questionFile, dataFiles).1;
      && |t| >= 3
      && t[0] == Planned(question)
      && t[1] == Generated(s.analyze(question), questionFile, dataFiles)
      && t[2] == Executed(s.generate(s.analyze(question), questionFile, dataFiles))
      && forall i :: 2 <= i < |t| ==> t[i].Executed? || t[i].Repaired?
  {
    RunShape(s, question, questionFile, dataFiles);
    var g := GeneratedCode(s, question, questionFile, dataFiles);
    var n := LeadingFailures(s, g);
    RoundsAt(s, g, n);
    RoundsOnlyRepairLoop(s, g, n);
    var t := Run(s, question, questionFile, dataFiles).1;
    var p := Prelude(s, question, questionFile, dataFiles);
    var r := Rounds(s, g, n);
    var l := LastExecution(s, g, n);
    assert t == p + r + l;
    if n == 0 {
      assert t[2] == l[0];
    } else {
      assert t[2] == r[2 * 0];
    }
    forall i | 2 <= i < |t| ensures t[i].Executed? || t[i].Repaired? {
      if i < 2 + |r| {
        assert t[i] == r[i - 2];
      } else {
        assert t[i] == l[i - 2 - |r|];
      }
    }
  }

  /**
   * Every run executes code at least once and at most three times, and
   * repairs at most as often as it executes; it repairs one time fewer than
   * it executes exactly when an attempt ends the loop early.
   */
  lemma AtMostThreeExecutions(s: Services, question: string, questionFile: string, dataFiles: seq<string>)
    ensures var t := Run(s, question, questionFile, dataFiles).1;
      && 1 <= Executions(t) <= Retries
      && Repairs(t) <= Executions(t) <= Repairs(t) + 1
      && |t| <= 2 + 2 * Retries
  {
    ExecutionsOfRun(s, question, questionFile, dataFiles);
  }

  /** The counts of a run in terms of its leading failures. */
  lemma ExecutionsOfRun(s: Services, question: string, questionFile: string, dataFiles: seq<string>)
    ensures var n := LeadingFailures(s, GeneratedCode(s, question, questionFile, dataFiles));
      var t := Run(s, question, questionFile, dataFiles).1;
      && Executions(t) == (if n < Retries then n + 1 else n)
      && Repairs(t) == n
      && |t| == 2 + 2 * n + (if n < Retries then 1 else 0)
  {
    RunShape(s, question, questionFile, dataFiles);
    var g := GeneratedCode(s, question, questionFile, dataFiles);
    var n := LeadingFailures(s, g);
    RoundsAt(s, g, n);
    RoundsCounts(s, g, n);
    var p := Prelude(s, question, questionFile, dataFiles);
    var r := Rounds(s, g, n);
    var l := LastExecution(s, g, n);
    CountsAppend(p, r);
    CountsAppend(p + r, l);
    assert Executions(p) == 0 && Repairs(p) == 0 by {
      assert p[..1] == [p[0]] && [p[0]][..0] == [];
    }
    if n < Retries {
      assert Executions(l) == 1 && Repairs(l) == 0 by {
        assert l[..0] == [];
      }
    }
  }

  /**
   * If attempt `k` is the first whose output parses, the pipeline returns
   * exactly the parsed value, after `k + 1` executions and `k` repairs.
   */
  lemma FirstAcceptedAttemptWins(s: Services, question: string, questionFile: string, dataFiles: seq<string>, k: nat, x: Value)
    requires k < Retries
    requires FailedBefore(s, GeneratedCode(s, question, questionFile, dataFiles), k)
    requires StepAt(s, GeneratedCode(s, question, questionFile, dataFiles), k) == Accept(x)
    ensures Run(s, question, questionFile, dataFiles).0 == Returned(x)
    ensures Executions(Run(s, question, questionFile, dataFiles).1) == k + 1
    ensures Repairs(Run(s, question, questionFile, dataFiles).1) == k
  {
    LeadingFailuresIs(s, GeneratedCode(s, question, questionFile, dataFiles), k);
    RunShape(s, question, questionFile, dataFiles);
    ExecutionsOfRun(s, question, questionFile, dataFiles);
  }

  /**
   * A failed attempt `j` is followed at once by one repair of the code it ran,
   * with its reason; the repaired code is what attempt `j + 1` runs.
   */
  lemma FailedAttemptIsRepaired(s: Services, question: string, questionFile: string, dataFiles: seq<string>, j: nat)
    requires j < Retries
    requires FailedBefore(s, GeneratedCode(s, question, questionFile, dataFiles), j + 1)
    ensures var g := GeneratedCode(s, question, questionFile, dataFiles);
      var t := Run(s, question, questionFile, dataFiles).1;
      var c := CodeAt(s, g, j);
      var reason := StepAt(s, g, j).reason;
      && 3 + 2 * j < |t|
      && t[2 + 2 * j] == Executed(c)
      && t[3 + 2 * j] == Repaired(c, reason)
      && (j + 1 < Retries ==> 4 + 2 * j < |t| && t[4 + 2 * j] == Executed(s.repair(j, c, reason)))
  {
    var g := GeneratedCode(s, question, questionFile, dataFiles);
    var n := LeadingFailures(s, g);
    RunShape(s, question, questionFile, dataFiles);
    RoundsAt(s, g, n);
    var t := Run(s, question, questionFile, dataFiles).1;
    var p := Prelude(s, question, questionFile, dataFiles);
    var r := Rounds(s, g, n);
    var l := LastExecution(s, g, n);
    assert t == p + r + l;
    assert t[2 + 2 * j] == r[2 * j];
    assert t[3 + 2 * j] == r[2 * j + 1];
    if j + 1 < Retries {
      if j + 1 < n {
        assert t[4 + 2 * j] == r[2 * (j + 1)];
      } else {
        assert t[4 + 2 * j] == l[0];
      }
    }
  }

  /**
   * When all three attempts fail the pipeline returns the fixed sentinel,
   * whatever the reasons, after exactly three executions and three repairs.
   */
  lemma ExhaustionGivesSentinel(s: Services, question: string, questionFile: string, dataFiles: seq<string>)
    requires FailedBefore(s, GeneratedCode(s, question, questionFile, dataFiles), Retries)
    ensures Run(s, question, questionFile, dataFiles).0 == Returned(FailureSentinel)
    ensures Executions(Run(s, question, questionFile, dataFiles).1) == Retries
    ensures Repairs(Run(s, question, questionFile, dataFiles).1) == Retries
    ensures |Run(s, question, questionFile, dataFiles).1| == 2 + 2 * Retries
  {
    LeadingFailuresIs(s, GeneratedCode(s, question, questionFile, dataFiles), Retries);
    RunShape(s, question, questionFile, dataFiles);
    ExecutionsOfRun(s, question, questionFile, dataFiles);
  }

  /**
   * A non-zero exit with empty standard error is not repaired: its error is
   * falsy, so `json.loads(None)` raises and the pipeline ends with the
   * `TypeError`, after `k` repairs.
   */
  lemma FalsyErrorRaises(s: Services, question: string, questionFile: string, dataFiles: seq<string>, k: nat)
    requires k < Retries
    requires FailedBefore(s, GeneratedCode(s, question, questionFile, dataFiles), k)
    requires var run := s.run(k, CodeAt(s, GeneratedCode(s, question, questionFile, dataFiles), k));
      run.Exited? && run.returncode != 0 && run.stderr == ""
    ensures Run(s, question, questionFile, dataFiles).0 == RaisedTypeError
    ensures Executions(Run(s, question, questionFile, dataFiles).1) == k + 1
    ensures Repairs(Run(s, question, questionFile, dataFiles).1) == k
  {
    var g := GeneratedCode(s, question, questionFile, dataFiles);
    assert StepAt(s, g, k) == Crash;
    LeadingFailuresIs(s, g, k);
    RunShape(s, question, questionFile, dataFiles);
    ExecutionsOfRun(s, question, questionFile, dataFiles);
  }

  /** `{"ok": true}` as `json.loads` returns it. */
  const OkTrue: Value := JObject([("ok", JBool(true))])

  /**
   * Collaborators for a worked case: the generated script fails with a
   * traceback, every repair returns a script that prints `{"ok": true}`.
   */
  function RepairOnceServices(broken: string, fixed: string, traceback: string): Services {
    Services(
      question => "steps",
      (steps, questionFile, dataFiles) => broken,
      (attempt, code, reason) => fixed,
      (attempt, code) =>
        if code == broken then Executor.Exited(1, "", traceback)
        else Executor.Exited(0, "{\"ok\": true}\n", ""),
      text => if text == "{\"ok\": true}" then Some(OkTrue) else None)
  }

  /** A worked case: a run-time error, one repair, then `{"ok": true}` is the result. */
  lemma RepairOnceScenario(question: string, questionFile: string, dataFiles: seq<string>,
                           broken: string, fixed: string, traceback: string)
    requires broken != fixed && traceback != ""
    ensures var s := RepairOnceServices(broken, fixed, traceback);
      && Run(s, question, questionFile, dataFiles).0 == Returned(OkTrue)
      && Executions(Run(s, question, questionFile, dataFiles).1) == 2
      && Repairs(Run(s, question, questionFile, dataFiles).1) == 1
  {
    var s := RepairOnceServices(broken, fixed, traceback);
    var g := GeneratedCode(s, question, questionFile, dataFiles);
    assert g == broken;
    assert StepAt(s, g, 0) == Retry(traceback);
    assert CodeAt(s, g, 1) == fixed;
    var printed := "{\"ok\": true}\n";
    assert printed[..0] == [] && printed[12..] == "\n" && printed[0..12] == "{\"ok\": true}";
    Executor.StripUnique(printed, 0, 12);
    assert StepAt(s, g, 1) == Accept(OkTrue);
    FirstAcceptedAttemptWins(s, question, questionFile, dataFiles, 1, OkTrue);
  }
}
