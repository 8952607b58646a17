/**
 * The code executor: how a finished child process is turned into the
 * `(output, error)` pair that the pipeline inspects. Launching the process,
 * the temporary directory and the 100-second deadline are outside the model;
 * what the child process did is given as a `RunResult`.
 */
module Executor {
  import opened Wrappers

  /** What the child process did: ran past its deadline, or exited. */
  datatype RunResult =
    | TimedOut
    | Exited(returncode: int, stdout: string, stderr: string)

  /** The pair `(output, error)` returned by the executor; `None` is Python's `None`. */
  datatype ExecOutcome = ExecOutcome(output: Option<string>, error: Option<string>)

  /** The fixed reason reported when the deadline expires. */
  const TimeoutMessage: string := "Execution timed out"

  /** Python's `str.isspace`: the characters `str.strip()` removes by default. */
  predicate IsWhitespace(c: char) {
    || c == ' '
    || ('\t' <= c <= '\r')
    || ('\U{1C}' <= c <= '\U{1F}')
    || c == '\U{85}'
    || c == '\U{A0}'
    || c == '\U{1680}'
    || ('\U{2000}' <= c <= '\U{200A}')
    || c == '\U{2028}'
    || c == '\U{2029}'
    || c == '\U{202F}'
    || c == '\U{205F}'
    || c == '\U{3000}'
  }

  predicate AllWhitespace(s: string) {
    forall k :: 0 <= k < |s| ==> IsWhitespace(s[k])
  }

  /** Neither starts nor ends with whitespace. */
  predicate IsStripped(s: string) {
    s == [] || (!IsWhitespace(s[0]) && !IsWhitespace(s[|s| - 1]))
  }

  /** The index of the first non-whitespace character of `s` at or after `i`, or `|s|`. */
  function SkipLeading(s: string, i: nat): (n: nat)
    requires i <= |s|
    decreases |s| - i
    ensures i <= n <= |s|
    ensures forall k :: i <= k < n ==> IsWhitespace(s[k])
    ensures n == |s| || !IsWhitespace(s[n])
  {
    if i < |s| && IsWhitespace(s[i]) then SkipLeading(s, i + 1) else i
  }

  /** The end of `s[lo..j]` once its trailing whitespace is dropped. */
  function SkipTrailing(s: string, lo: nat, j: nat): (n: nat)
    requires lo <= j <= |s|
    decreases j
    ensures lo <= n <= j
    ensures forall k :: n <= k < j ==> IsWhitespace(s[k])
    ensures n == lo || !IsWhitespace(s[n - 1])
  {
    if lo < j && IsWhitespace(s[j - 1]) then SkipTrailing(s, lo, j - 1) else j
  }

  /**
   * `s.strip()`: scan for the first non-whitespace character from the left,
   * then for the last one from the right, and keep what lies between.
   */
  function Strip(s: string): (r: string)
    ensures IsStripped(r)
  {
    var b := SkipLeading(s, 0);
    s[b..SkipTrailing(s, b, |s|)]
  }

  /** `Strip(s)` is a contiguous piece of `s` with only whitespace around it. */
  lemma StripSpan(s: string) returns (b: nat, e: nat)
    ensures b <= e <= |s| && Strip(s) == s[b..e]
    ensures forall k :: 0 <= k < b ==> IsWhitespace(s[k])
    ensures forall k :: e <= k < |s| ==> IsWhitespace(s[k])
  {
    b := SkipLeading(s, 0);
    e := SkipTrailing(s, b, |s|);
  }

  lemma WhitespaceOutside(s: string, i: nat, j: nat)
    requires i <= j <= |s|
    requires AllWhitespace(s[..i]) && AllWhitespace(s[j..])
    ensures forall k :: 0 <= k < i ==> IsWhitespace(s[k])
    ensures forall k :: j <= k < |s| ==> IsWhitespace(s[k])
  {
    forall k | 0 <= k < i ensures IsWhitespace(s[k]) {
      assert s[..i][k] == s[k];
    }
    forall k | j <= k < |s| ensures IsWhitespace(s[k]) {
      assert s[j..][k - j] == s[k];
    }
  }

  /** `strip()` keeps exactly the stretch between the outermost non-whitespace characters. */
  lemma StripUnique(s: string, i: nat, j: nat)
    requires i <= j <= |s|
    requires AllWhitespace(s[..i]) && AllWhitespace(s[j..]) && IsStripped(s[i..j])
    ensures Strip(s) == s[i..j]
  {
    var b, e := StripSpan(s);
    WhitespaceOutside(s, i, j);
    if i < j {
      assert !IsWhitespace(s[i]) && !IsWhitespace(s[j - 1]);
      assert b <= i && j <= e;
      assert !IsWhitespace(s[b]) && !IsWhitespace(s[e - 1]);
      assert b == i && e == j;
    }
  }

  /** Stripping a stripped string changes nothing. */
  lemma StripIdempotent(s: string)
    ensures Strip(Strip(s)) == Strip(s)
  {
    var t := Strip(s);
    assert t[..0] == [] && t[|t|..] == [] && t[0..|t|] == t;
    StripUnique(t, 0, |t|);
  }

  /**
   * The classification in `execute_code`: a timeout and a non-zero exit carry
   * no output, a zero exit carries the stripped standard output and no error.
   */
  function Classify(run: RunResult): (r: ExecOutcome)
    ensures r.output.Some? <==> run.Exited? && run.returncode == 0
    ensures r.output.None? || r.error.None?
    ensures run.TimedOut? ==> r.error == Some(TimeoutMessage)
    ensures run.Exited? && run.returncode != 0 ==> r.error == Some(run.stderr)
    ensures r.output.Some? ==> r.error.None? && IsStripped(r.output.value) && r.output.value == Strip(run.stdout)
  {
    match run
    case TimedOut => ExecOutcome(None, Some(TimeoutMessage))
    case Exited(returncode, stdout, stderr) =>
      if returncode != 0 then ExecOutcome(None, Some(stderr))
      else ExecOutcome(Some(Strip(stdout)), None)
  }

  /**
   * A zero exit reports no error and an output that is a contiguous piece of
   * standard output, has whitespace only around it, and is left unchanged by
   * stripping it again; standard error plays no part.
   */
  lemma SuccessOutputIsStripped(run: RunResult)
    requires run.Exited? && run.returncode == 0
    ensures Classify(run).error.None? && Classify(run).output.Some?
    ensures var out := Classify(run).output.value;
      && Strip(out) == out
      && exists i, j :: 0 <= i <= j <= |run.stdout| && out == run.stdout[i..j]
           && AllWhitespace(run.stdout[..i]) && AllWhitespace(run.stdout[j..])
  {
    var out := Classify(run).output.value;
    StripIdempotent(run.stdout);
    var b, e := StripSpan(run.stdout);
    assert AllWhitespace(run.stdout[..b]) by {
      forall k | 0 <= k < b ensures IsWhitespace(run.stdout[..b][k]) {
        assert run.stdout[..b][k] == run.stdout[k];
      }
    }
    assert AllWhitespace(run.stdout[e..]) by {
      forall k | 0 <= k < |run.stdout| - e ensures IsWhitespace(run.stdout[e..][k]) {
        assert run.stdout[e..][k] == run.stdout[e + k];
      }
    }
  }

  /** A worked case: surrounding blanks and the final newline are dropped. */
  lemma StripExample()
    ensures Strip("  {\"a\":1}\n") == "{\"a\":1}"
  {
    var s := "  {\"a\":1}\n";
    assert s[..2] == "  " && s[9..] == "\n" && s[2..9] == "{\"a\":1}";
    StripUnique(s, 2, 9);
  }
}
