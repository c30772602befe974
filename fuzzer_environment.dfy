/**
 * The filter `process_command` applies to a fuzzer's
 * `additional_environment_string` (`bot/tasks/commands.py`): lines of the
 * form `job_name:VAR = VALUE` apply only to the named job; every other line
 * applies to all jobs. Default lines are appended first, then the lines for
 * this job, each behind a newline.
 */
module FuzzerEnvironment {

  /** The index of the first `c` in `s`, or `|s|` when there is none. */
  function IndexOf(s: string, c: char): (i: nat)
    ensures i <= |s|
    ensures i < |s| ==> s[i] == c
  {
    if s == [] then 0
    else if s[0] == c then 0
    else 1 + IndexOf(s[1..], c)
  }

  /** No `c` comes before `IndexOf(s, c)`, and it is `|s|` exactly when `s` has no `c`. */
  lemma {:induction false} IndexOfFirst(s: string, c: char)
    ensures forall j :: 0 <= j < IndexOf(s, c) ==> s[j] != c
    ensures IndexOf(s, c) == |s| <==> c !in s
  {
    if s != [] && s[0] != c {
      IndexOfFirst(s[1..], c);
      assert forall j :: 1 <= j < |s| ==> s[j] == s[1..][j - 1];
      assert c in s <==> c in s[1..];
    }
  }

  /** The first `c` of `s` is at `i`. */
  lemma {:induction false} IndexOfAt(s: string, c: char, i: nat)
    requires i < |s| && s[i] == c
    requires forall j :: 0 <= j < i ==> s[j] != c
    ensures IndexOf(s, c) == i
  {
    if i > 0 {
      IndexOfAt(s[1..], c, i - 1);
    }
  }

  /**
   * `'=' in line and ':' in line.split('=', 1)[0]`: the line has a '=' and its
   * first ':' comes before its first '='.
   */
  predicate IsJobSpecific(line: string) {
    '=' in line && IndexOf(line, ':') < IndexOf(line, '=')
  }

  /** The predicate is the source's test: a ':' in the text before the first '='. */
  lemma IsJobSpecificMeans(line: string)
    ensures IsJobSpecific(line) <==> '=' in line && ':' in line[..IndexOf(line, '=')]
  {
    var eq := IndexOf(line, '=');
    IndexOfFirst(line, '=');
    IndexOfFirst(line, ':');
    if ':' in line[..eq] {
      var k :| 0 <= k < eq && line[..eq][k] == ':';
      assert line[k] == ':';
    }
    if IsJobSpecific(line) {
      assert line[..eq][IndexOf(line, ':')] == ':';
    }
  }

  /** `line.split(':', 1)[0]`, for a line that has a ':' */
  function JobPrefix(line: string): string
    requires ':' in line
  {
    line[..IndexOf(line, ':')]
  }

  /** `line.split(':', 1)[1]`, for a line that has a ':' */
  function Definition(line: string): string
    requires ':' in line
  {
    IndexOfFirst(line, ':');
    line[IndexOf(line, ':') + 1..]
  }

  /** A job-specific line splits at its first ':' into a prefix without ':' and the rest. */
  lemma JobSpecificSplit(line: string)
    requires IsJobSpecific(line)
    ensures ':' in line
    ensures line == JobPrefix(line) + ":" + Definition(line)
    ensures ':' !in JobPrefix(line)
    ensures '=' !in JobPrefix(line)
  {
    var colon := IndexOf(line, ':');
    IndexOfFirst(line, ':');
    IndexOfFirst(line, '=');
    assert line == line[..colon] + [line[colon]] + line[colon + 1..];
  }

  /** The lines that apply to every job, in order. */
  function DefaultLines(lines: seq<string>): seq<string> {
    if lines == [] then []
    else (if IsJobSpecific(lines[0]) then [] else [lines[0]]) + DefaultLines(lines[1..])
  }

  /** The definitions of the lines addressed to `jobName`, in order. */
  function JobLines(lines: seq<string>, jobName: string): seq<string> {
    if lines == [] then []
    else
      var line := lines[0];
      (if IsJobSpecific(line) && JobPrefix(line) == jobName then [Definition(line)] else []) + JobLines(lines[1..], jobName)
  }

  /** Each string behind a newline, concatenated: what `+= '\n%s' % x` builds. */
  function Prefixed(xs: seq<string>): string {
    if xs == [] then "" else "\n" + xs[0] + Prefixed(xs[1..])
  }

  /**
   * The loop of `process_command` over `additional_environment_string.splitlines()`
   * (given as `lines`), followed by the two concatenations onto `environmentString`.
   */
  method AppendFuzzerEnvironment(environmentString: string, lines: seq<string>, jobName: string) returns (r: string)
    ensures r == environmentString + Prefixed(DefaultLines(lines)) + Prefixed(JobLines(lines, jobName))
  {
    var additionalDefaultVariables := "";
    var additionalVariablesForJob := "";
    var i := 0;
    while i < |lines|
      invariant 0 <= i <= |lines|
      invariant additionalDefaultVariables == Prefixed(DefaultLines(lines[..i]))
      invariant additionalVariablesForJob == Prefixed(JobLines(lines[..i], jobName))
    {
      var line := lines[i];
      assert lines[..i + 1] == lines[..i] + [line];
      FilterStep(lines[..i], line, jobName);
      if IsJobSpecific(line) {
        JobSpecificSplit(line);
        var fuzzerJobName, environmentDefinition := JobPrefix(line), Definition(line);
        if fuzzerJobName == jobName {
          additionalVariablesForJob := additionalVariablesForJob + ("\n" + environmentDefinition);
        }
      } else {
        additionalDefaultVariables := additionalDefaultVariables + ("\n" + line);
      }
      i := i + 1;
    }
    assert lines[..i] == lines;
    r := environmentString + additionalDefaultVariables;
    r := r + additionalVariablesForJob;
  }

  /** One more line extends exactly one of the two accumulated strings, or neither. */
  lemma FilterStep(done: seq<string>, line: string, jobName: string)
    ensures Prefixed(DefaultLines(done + [line])) ==
            Prefixed(DefaultLines(done)) + (if IsJobSpecific(line) then "" else "\n" + line)
    ensures Prefixed(JobLines(done + [line], jobName)) ==
            Prefixed(JobLines(done, jobName)) + (if IsJobSpecific(line) && JobPrefix(line) == jobName then "\n" + Definition(line) else "")
  {
    assert [line][1..] == [];
    DefaultLinesAppend(done, [line]);
    JobLinesAppend(done, [line], jobName);
    PrefixedAppend(DefaultLines(done), DefaultLines([line]));
    PrefixedAppend(JobLines(done, jobName), JobLines([line], jobName));
  }

  // ---------------------------------------------------------------------------
  // Properties

  lemma {:induction false} DefaultLinesAppend(a: seq<string>, b: seq<string>)
    ensures DefaultLines(a + b) == DefaultLines(a) + DefaultLines(b)
  {
    if a == [] {
      assert a + b == b;
    } else {
      assert (a + b)[0] == a[0];
      assert (a + b)[1..] == a[1..] + b;
      DefaultLinesAppend(a[1..], b);
    }
  }

  lemma {:induction false} JobLinesAppend(a: seq<string>, b: seq<string>, jobName: string)
    ensures JobLines(a + b, jobName) == JobLines(a, jobName) + JobLines(b, jobName)
  {
    if a == [] {
      assert a + b == b;
    } else {
      assert (a + b)[0] == a[0];
      assert (a + b)[1..] == a[1..] + b;
      JobLinesAppend(a[1..], b, jobName);
    }
  }

  lemma {:induction false} PrefixedAppend(a: seq<string>, b: seq<string>)
    ensures Prefixed(a + b) == Prefixed(a) + Prefixed(b)
  {
    if a == [] {
      assert a + b == b;
    } else {
      assert (a + b)[0] == a[0];
      assert (a + b)[1..] == a[1..] + b;
      PrefixedAppend(a[1..], b);
    }
  }

  /** A line applies to every job exactly when it is not job-specific. */
  lemma {:induction false} DefaultLinesExact(lines: seq<string>, x: string)
    ensures x in DefaultLines(lines) <==> x in lines && !IsJobSpecific(x)
  {
    if lines != [] {
      DefaultLinesExact(lines[1..], x);
      assert x in lines <==> x == lines[0] || x in lines[1..];
    }
  }

  /** A definition is added for the job exactly when some job-specific line names that job and carries it. */
  lemma {:induction false} JobLinesExact(lines: seq<string>, jobName: string, d: string)
    ensures d in JobLines(lines, jobName) <==>
            exists i :: 0 <= i < |lines| && IsJobSpecific(lines[i]) && JobPrefix(lines[i]) == jobName && Definition(lines[i]) == d
  {
    if lines != [] {
      JobLinesExact(lines[1..], jobName, d);
      if d in JobLines(lines[1..], jobName) {
        var i :| 0 <= i < |lines[1..]| && IsJobSpecific(lines[1..][i]) && JobPrefix(lines[1..][i]) == jobName && Definition(lines[1..][i]) == d;
        assert lines[i + 1] == lines[1..][i];
      }
      if exists i :: 0 <= i < |lines| && IsJobSpecific(lines[i]) && JobPrefix(lines[i]) == jobName && Definition(lines[i]) == d {
        var i :| 0 <= i < |lines| && IsJobSpecific(lines[i]) && JobPrefix(lines[i]) == jobName && Definition(lines[i]) == d;
        if i > 0 {
          assert lines[1..][i - 1] == lines[i];
        }
      }
    }
  }

  /** Lines for other jobs contribute nothing: filtering them out first gives the same strings. */
  lemma {:induction false} OtherJobsIgnored(lines: seq<string>, jobName: string, line: string)
    requires IsJobSpecific(line) && JobPrefix(line) != jobName
    ensures DefaultLines(lines + [line]) == DefaultLines(lines)
    ensures JobLines(lines + [line], jobName) == JobLines(lines, jobName)
  {
    DefaultLinesAppend(lines, [line]);
    JobLinesAppend(lines, [line], jobName);
    assert [line][1..] == [];
  }

  // The example lines below are passed as parameters bound by `requires`, so
  // that the verifier reasons about `IndexOf` symbolically rather than by
  // unrolling it over a literal.

  lemma ExampleDefaultLine(line: string)
    requires line == "A = 1"
    ensures !IsJobSpecific(line)
    ensures DefaultLines([line]) == [line] && JobLines([line], "job1") == []
  {
    IndexOfAt(line, '=', 2);
    SingleLine(line, "job1");
  }

  lemma ExampleLineForThisJob(line: string)
    requires line == "job1:B = 2"
    ensures IsJobSpecific(line) && JobPrefix(line) == "job1" && Definition(line) == "B = 2"
    ensures DefaultLines([line]) == [] && JobLines([line], "job1") == ["B = 2"]
  {
    SplitAt(line, 4, 7);
    PrefixIs(line, "job1");
    assert line[5..] == "B = 2";
    SingleLine(line, "job1");
  }

  lemma ExampleLineForOtherJob(line: string)
    requires line == "job2:C = 3"
    ensures IsJobSpecific(line) && JobPrefix(line) == "job2"
    ensures DefaultLines([line]) == [] && JobLines([line], "job1") == []
  {
    SplitAt(line, 4, 7);
    PrefixIs(line, "job2");
    SingleLine(line, "job1");
  }

  lemma ExampleColonAfterEquals(line: string)
    requires line == "D = x:y"
    ensures !IsJobSpecific(line)
    ensures DefaultLines([line]) == [line] && JobLines([line], "job1") == []
  {
    IndexOfAt(line, '=', 2);
    IndexOfAt(line, ':', 5);
    SingleLine(line, "job1");
  }

  /** `p` is how `line` starts. */
  lemma PrefixIs(line: string, p: string)
    requires |p| <= |line| && forall i :: 0 <= i < |p| ==> line[i] == p[i]
    ensures line[..|p|] == p
  {
  }

  /** A line whose first ':' is at `colon` and whose first '=' is later, at `eq`. */
  lemma SplitAt(line: string, colon: nat, eq: nat)
    requires colon < eq < |line| && line[colon] == ':' && line[eq] == '='
    requires forall j :: 0 <= j < eq ==> line[j] != '='
    requires forall j :: 0 <= j < colon ==> line[j] != ':'
    ensures IsJobSpecific(line) && JobPrefix(line) == line[..colon] && Definition(line) == line[colon + 1..]
  {
    IndexOfAt(line, '=', eq);
    IndexOfAt(line, ':', colon);
  }

  /** How a one-line input is filtered. */
  lemma SingleLine(line: string, jobName: string)
    ensures DefaultLines([line]) == if IsJobSpecific(line) then [] else [line]
    ensures JobLines([line], jobName) == if IsJobSpecific(line) && JobPrefix(line) == jobName then [Definition(line)] else []
  {
    assert [line][1..] == [];
  }

  /** A worked case: a default line, then a line for this job. */
  lemma FilterExampleThisJob(first: string, second: string)
    requires first == "A = 1" && second == "job1:B = 2"
    ensures DefaultLines([first, second]) == ["A = 1"]
    ensures JobLines([first, second], "job1") == ["B = 2"]
  {
    ExampleDefaultLine(first);
    ExampleLineForThisJob(second);
    assert [first, second] == [first] + [second];
    DefaultLinesAppend([first], [second]);
    JobLinesAppend([first], [second], "job1");
  }

  /** A worked case: a line for another job, then a default line whose ':' comes after its '='. */
  lemma FilterExampleOtherJob(first: string, second: string)
    requires first == "job2:C = 3" && second == "D = x:y"
    ensures DefaultLines([first, second]) == ["D = x:y"]
    ensures JobLines([first, second], "job1") == []
  {
    ExampleLineForOtherJob(first);
    ExampleColonAfterEquals(second);
    assert [first, second] == [first] + [second];
    DefaultLinesAppend([first], [second]);
    JobLinesAppend([first], [second], "job1");
  }
}
