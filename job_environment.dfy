/**
 * The environment handling of `bot/tasks/commands.py`: the process
 * environment as `environment.get_value` / `set_value` see it, the CPU
 * architecture check `is_supported_cpu_arch_for_job`, and
 * `update_environment_for_job`, which applies a job's variables and builds
 * the environment handed to the uworker.
 */
module JobEnvironment {
  import opened Wrappers
  import opened PyValues

  /**
   * `environment.get_value(key)` over a snapshot of the environment: `None`
   * when unset; a stored string is evaluated as a Python literal
   * (`evaluate`, which falls back to the string itself); a value stored by
   * `set_value` with a non-string is read back as that value (its `str()`
   * evaluates back to it).
   */
  function GetIn(vars: map<string, Value>, evaluate: string -> Value, key: string): (r: Value)
    ensures key !in vars ==> r == VNone
    ensures key in vars && vars[key].VStr? ==> r == evaluate(vars[key].s)
    ensures key in vars && !vars[key].VStr? ==> r == vars[key]
  {
    if key !in vars then VNone
    else match vars[key]
      case VStr(s) => evaluate(s)
      case other => other
  }

  /** The process environment (`os.environ`). */
  class ProcessEnvironment {
    var vars: map<string, Value>
    const evaluate: string -> Value

    constructor (vars: map<string, Value>, evaluate: string -> Value)
      ensures this.vars == vars && this.evaluate == evaluate
    {
      this.vars := vars;
      this.evaluate := evaluate;
    }

    /** `environment.get_value(key)` */
    function GetValue(key: string): Value
      reads this
    {
      GetIn(vars, evaluate, key)
    }

    /** `environment.set_value(key, value)` */
    method SetValue(key: string, value: Value)
      modifies this`vars
      ensures vars == old(vars)[key := value]
      ensures GetValue(key) == GetIn(map[key := value], evaluate, key)
      ensures forall k :: k != key ==> GetValue(k) == old(GetValue(k))
    {
      vars := vars[key := value];
    }
  }

  // ---------------------------------------------------------------------------
  // is_supported_cpu_arch_for_job

  /**
   * `x in list(v)`: a string lists its characters, a list or tuple its
   * items, a dict its keys; any other value is not iterable (TypeError).
   */
  function InPyList(x: Value, v: Value): (r: Result<bool, Exc>)
    ensures r.Failure? <==> !(v.VStr? || v.VList? || v.VDict?)
    ensures r.Failure? ==> r.error == TypeError
    ensures v.VStr? ==> (r == Success(true) <==> x.VStr? && |x.s| == 1 && x.s[0] in v.s)
    ensures v.VList? ==> (r == Success(true) <==> x in v.items)
  {
    match v
    case VStr(s) => Success(x.VStr? && |x.s| == 1 && x.s[0] in s)
    case VList(items) => Success(x in items)
    case VDict(entries) => Success(x.VStr? && x.s in entries)
    case _ => Failure(TypeError)
  }

  /** `is_supported_cpu_arch_for_job()` as written, with `environment.get_cpu_arch()` given as `cpuArch`. */
  function IsSupportedCpuArchAsWritten(env: ProcessEnvironment, cpuArch: Value): (r: Result<bool, Exc>)
    reads env
    ensures !Truthy(cpuArch) || !Truthy(env.GetValue("CPU_ARCH")) ==> r == Success(true)
    ensures Truthy(cpuArch) && env.GetValue("CPU_ARCH").VStr? && env.GetValue("CPU_ARCH").s != "" ==>
              r == Success(cpuArch.VStr? && |cpuArch.s| == 1 && cpuArch.s[0] in env.GetValue("CPU_ARCH").s)
    ensures Truthy(cpuArch) && env.GetValue("CPU_ARCH").VList? && env.GetValue("CPU_ARCH").items != [] ==>
              r == Success(cpuArch in env.GetValue("CPU_ARCH").items)
  {
    if !Truthy(cpuArch) then Success(true)
    else
      var supported := env.GetValue("CPU_ARCH");
      if !Truthy(supported) then Success(true)
      else InPyList(cpuArch, supported)
  }

  /**
   * The check as its comment intends: a single string names one
   * architecture rather than a list of characters.
   */
  function IsSupportedCpuArchForJob(env: ProcessEnvironment, cpuArch: Value): (r: Result<bool, Exc>)
    reads env
    ensures !Truthy(cpuArch) || !Truthy(env.GetValue("CPU_ARCH")) ==> r == Success(true)
    ensures Truthy(cpuArch) && env.GetValue("CPU_ARCH").VStr? && env.GetValue("CPU_ARCH").s != "" ==>
              r == Success(cpuArch == env.GetValue("CPU_ARCH"))
    ensures Truthy(cpuArch) && env.GetValue("CPU_ARCH").VList? && env.GetValue("CPU_ARCH").items != [] ==>
              r == Success(cpuArch in env.GetValue("CPU_ARCH").items)
  {
    if !Truthy(cpuArch) then Success(true)
    else
      var supported := env.GetValue("CPU_ARCH");
      if !Truthy(supported) then Success(true)
      else if supported.VStr? then InPyList(cpuArch, VList([supported]))
      else InPyList(cpuArch, supported)
  }

  /** Where the job lists the architectures, the written and the intended checks agree. */
  lemma CpuArchChecksAgreeOnLists(env: ProcessEnvironment, cpuArch: Value)
    requires !env.GetValue("CPU_ARCH").VStr?
    ensures IsSupportedCpuArchAsWritten(env, cpuArch) == IsSupportedCpuArchForJob(env, cpuArch)
  {
  }

  /**
   * As written, a bot whose architecture name has more than one character is
   * refused by a job that names exactly that architecture as a string.
   */
  lemma CpuArchSingleStringRejected(env: ProcessEnvironment, arch: string)
    requires |arch| > 1
    requires env.GetValue("CPU_ARCH") == VStr(arch)
    ensures IsSupportedCpuArchAsWritten(env, VStr(arch)) == Success(false)
    ensures IsSupportedCpuArchForJob(env, VStr(arch)) == Success(true)
  {
  }

  /** The concrete case: `CPU_ARCH = x86_64` on an x86_64 bot. */
  lemma CpuArchX8664Example(env: ProcessEnvironment)
    requires env.GetValue("CPU_ARCH") == VStr("x86_64")
    ensures IsSupportedCpuArchAsWritten(env, VStr("x86_64")) == Success(false)
    ensures IsSupportedCpuArchForJob(env, VStr("x86_64")) == Success(true)
  {
    CpuArchSingleStringRejected(env, "x86_64");
  }

  // ---------------------------------------------------------------------------
  // update_environment_for_job

  /** The job's variables as `set_value` stores them: strings from the parsed definition. */
  function JobValues(jobEnv: map<string, string>): (r: map<string, Value>)
    ensures r.Keys == jobEnv.Keys
    ensures forall k :: k in jobEnv ==> r[k] == VStr(jobEnv[k])
  {
    map k | k in jobEnv :: VStr(jobEnv[k])
  }

  /** What `update_environment_for_job` leaves behind. */
  datatype EnvUpdate = EnvUpdate(
    /** the process environment afterwards */
    vars: map<string, Value>,
    /** the returned `uworker_env` */
    uworkerEnv: map<string, Value>,
    /** what is passed to `worker_environment.update_environment` on a trusted host */
    forwarded: Option<map<string, Value>>)

  /**
   * `update_environment_for_job(environment_string)` on a snapshot `vars`,
   * with `parse_environment_definition(environment_string)` given as `jobEnv`
   * and `environment.is_trusted_host()` as `trustedHost`.
   */
  function UpdateEnvironmentSpec(vars: map<string, Value>, evaluate: string -> Value,
                                 jobEnv: map<string, string>, trustedHost: bool): EnvUpdate {
    var vars1 := vars + JobValues(jobEnv);
    var uw0 := JobValues(jobEnv);
    var share := Truthy(GetIn(vars1, evaluate, "SHARE_BUILD_WITH_JOB_TYPE"));
    var vars2 := if share then vars1["CUSTOM_BINARY" := VBool(true)] else vars1;
    var uw1 := if share then uw0["CUSTOM_BINARY" := VStr("True")] else uw0;
    var timeout := GetIn(vars2, evaluate, "FUZZ_TEST_TIMEOUT_OVERRIDE");
    var vars3 := if Truthy(timeout) then vars2["FUZZ_TEST_TIMEOUT" := timeout] else vars2;
    var uw2 := if Truthy(timeout) then uw1["FUZZ_TEST_TIMEOUT" := timeout] else uw1;
    var maxTestcases := GetIn(vars3, evaluate, "MAX_TESTCASES_OVERRIDE");
    var vars4 := if Truthy(maxTestcases) then vars3["MAX_TESTCASES" := maxTestcases] else vars3;
    var uw3 := if Truthy(maxTestcases) then uw2["MAX_TESTCASES" := maxTestcases] else uw2;
    var forwarded := if trustedHost then Some(JobValues(jobEnv)["JOB_NAME" := GetIn(vars4, evaluate, "JOB_NAME")]) else None;
    EnvUpdate(vars4, uw3, forwarded)
  }

  /** The loop `for key, value in env.items(): environment.set_value(key, value)`. */
  method SetJobVariables(env: ProcessEnvironment, jobEnv: map<string, string>)
    modifies env`vars
    ensures env.vars == old(env.vars) + JobValues(jobEnv)
  {
    var remaining := jobEnv.Keys;
    while remaining != {}
      invariant remaining <= jobEnv.Keys
      invariant env.vars == old(env.vars) + map k | k in jobEnv && k !in remaining :: VStr(jobEnv[k])
      decreases remaining
    {
      var key :| key in remaining;
      ghost var before := env.vars;
      env.SetValue(key, VStr(jobEnv[key]));
      remaining := remaining - {key};
      assert env.vars == old(env.vars) + map k | k in jobEnv && k !in remaining :: VStr(jobEnv[k]) by {
        assert env.vars == before[key := VStr(jobEnv[key])];
      }
    }
    assert (map k | k in jobEnv && k !in remaining :: VStr(jobEnv[k])) == JobValues(jobEnv);
  }

  /** `update_environment_for_job`, changing the process environment in place. */
  method UpdateEnvironmentForJob(env: ProcessEnvironment, jobEnv: map<string, string>, trustedHost: bool)
    returns (uworkerEnv: map<string, Value>, forwarded: Option<map<string, Value>>)
    modifies env`vars
    ensures var spec := UpdateEnvironmentSpec(old(env.vars), env.evaluate, jobEnv, trustedHost);
            env.vars == spec.vars && uworkerEnv == spec.uworkerEnv && forwarded == spec.forwarded
  {
    SetJobVariables(env, jobEnv);
    uworkerEnv := JobValues(jobEnv);

    if Truthy(env.GetValue("SHARE_BUILD_WITH_JOB_TYPE")) {
      env.SetValue("CUSTOM_BINARY", VBool(true));
      uworkerEnv := uworkerEnv["CUSTOM_BINARY" := VStr("True")];
    }

    var fuzzTestTimeoutOverride := env.GetValue("FUZZ_TEST_TIMEOUT_OVERRIDE");
    if Truthy(fuzzTestTimeoutOverride) {
      env.SetValue("FUZZ_TEST_TIMEOUT", fuzzTestTimeoutOverride);
      uworkerEnv := uworkerEnv["FUZZ_TEST_TIMEOUT" := fuzzTestTimeoutOverride];
    }

    var maxTestcasesOverride := env.GetValue("MAX_TESTCASES_OVERRIDE");
    if Truthy(maxTestcasesOverride) {
      env.SetValue("MAX_TESTCASES", maxTestcasesOverride);
      uworkerEnv := uworkerEnv["MAX_TESTCASES" := maxTestcasesOverride];
    }

    forwarded := None;
    if trustedHost {
      forwarded := Some(JobValues(jobEnv)["JOB_NAME" := env.GetValue("JOB_NAME")]);
    }
  }

  /** The variables `update_environment_for_job` may add on top of the job's own. */
  predicate IsOverrideTarget(k: string) {
    k == "CUSTOM_BINARY" || k == "FUZZ_TEST_TIMEOUT" || k == "MAX_TESTCASES"
  }

  /**
   * The uworker environment holds the job's variables, each as its string,
   * plus only the override targets; and the process environment receives
   * the same job variables.
   */
  lemma UworkerEnvCarriesJobVariables(vars: map<string, Value>, evaluate: string -> Value,
                                      jobEnv: map<string, string>, trustedHost: bool)
    ensures var u := UpdateEnvironmentSpec(vars, evaluate, jobEnv, trustedHost);
            && (forall k :: k in u.uworkerEnv <==> k in jobEnv || (IsOverrideTarget(k) && k in u.uworkerEnv))
            && (forall k :: k in jobEnv && !IsOverrideTarget(k) ==> u.uworkerEnv[k] == VStr(jobEnv[k]) && u.vars[k] == VStr(jobEnv[k]))
            && (forall k :: k !in jobEnv && !IsOverrideTarget(k) ==> k !in u.uworkerEnv && (k in u.vars <==> k in vars))
            && (forall k :: k !in jobEnv && !IsOverrideTarget(k) && k in vars ==> u.vars[k] == vars[k])
  {
    var u := UpdateEnvironmentSpec(vars, evaluate, jobEnv, trustedHost);
    var vars1 := vars + JobValues(jobEnv);
    var uw0 := JobValues(jobEnv);
    var share := Truthy(GetIn(vars1, evaluate, "SHARE_BUILD_WITH_JOB_TYPE"));
    var vars2 := if share then vars1["CUSTOM_BINARY" := VBool(true)] else vars1;
    var uw1 := if share then uw0["CUSTOM_BINARY" := VStr("True")] else uw0;
    var timeout := GetIn(vars2, evaluate, "FUZZ_TEST_TIMEOUT_OVERRIDE");
    var vars3 := if Truthy(timeout) then vars2["FUZZ_TEST_TIMEOUT" := timeout] else vars2;
    var uw2 := if Truthy(timeout) then uw1["FUZZ_TEST_TIMEOUT" := timeout] else uw1;
    var maxTestcases := GetIn(vars3, evaluate, "MAX_TESTCASES_OVERRIDE");
    OverrideKeepsOthers(vars1, share, "CUSTOM_BINARY", VBool(true));
    OverrideKeepsOthers(uw0, share, "CUSTOM_BINARY", VStr("True"));
    OverrideKeepsOthers(vars2, Truthy(timeout), "FUZZ_TEST_TIMEOUT", timeout);
    OverrideKeepsOthers(uw1, Truthy(timeout), "FUZZ_TEST_TIMEOUT", timeout);
    OverrideKeepsOthers(vars3, Truthy(maxTestcases), "MAX_TESTCASES", maxTestcases);
    OverrideKeepsOthers(uw2, Truthy(maxTestcases), "MAX_TESTCASES", maxTestcases);
    assert SameOffTargets(u.vars, vars1) by {
      SameOffTargetsTrans(u.vars, vars3, vars2);
      SameOffTargetsTrans(u.vars, vars2, vars1);
    }
    assert SameOffTargets(u.uworkerEnv, uw0) by {
      SameOffTargetsTrans(u.uworkerEnv, uw2, uw1);
      SameOffTargetsTrans(u.uworkerEnv, uw1, uw0);
    }
  }

  /** Two maps that agree, in keys and values, everywhere but on the override targets. */
  ghost predicate SameOffTargets(a: map<string, Value>, b: map<string, Value>) {
    forall k :: !IsOverrideTarget(k) ==> (k in a <==> k in b) && (k in a ==> a[k] == b[k])
  }

  lemma SameOffTargetsTrans(a: map<string, Value>, b: map<string, Value>, c: map<string, Value>)
    requires SameOffTargets(a, b) && SameOffTargets(b, c)
    ensures SameOffTargets(a, c)
  {
  }

  /** Setting an override target, or not, changes nothing else. */
  lemma OverrideKeepsOthers(m: map<string, Value>, set_: bool, target: string, v: Value)
    requires IsOverrideTarget(target)
    ensures SameOffTargets(if set_ then m[target := v] else m, m)
  {
  }

  /**
   * An override that reads truthy lands, with the value read, in both the
   * process and the uworker environment; a falsy one changes neither.
   */
  lemma TimeoutOverrideCopied(vars: map<string, Value>, evaluate: string -> Value,
                              jobEnv: map<string, string>, trustedHost: bool)
    ensures var u := UpdateEnvironmentSpec(vars, evaluate, jobEnv, trustedHost);
            var vars1 := vars + JobValues(jobEnv);
            var timeout := GetIn(vars1, evaluate, "FUZZ_TEST_TIMEOUT_OVERRIDE");
            && (Truthy(timeout) ==> u.vars["FUZZ_TEST_TIMEOUT"] == timeout && u.uworkerEnv["FUZZ_TEST_TIMEOUT"] == timeout)
            && (!Truthy(timeout) ==>
                  ("FUZZ_TEST_TIMEOUT" in u.uworkerEnv <==> "FUZZ_TEST_TIMEOUT" in jobEnv) &&
                  ("FUZZ_TEST_TIMEOUT" in u.vars <==> "FUZZ_TEST_TIMEOUT" in vars1))
  {
  }

  lemma MaxTestcasesOverrideCopied(vars: map<string, Value>, evaluate: string -> Value,
                                   jobEnv: map<string, string>, trustedHost: bool)
    ensures var u := UpdateEnvironmentSpec(vars, evaluate, jobEnv, trustedHost);
            var vars1 := vars + JobValues(jobEnv);
            var maxTestcases := GetIn(vars1, evaluate, "MAX_TESTCASES_OVERRIDE");
            && (Truthy(maxTestcases) ==> u.vars["MAX_TESTCASES"] == maxTestcases && u.uworkerEnv["MAX_TESTCASES"] == maxTestcases)
            && (!Truthy(maxTestcases) ==>
                  ("MAX_TESTCASES" in u.uworkerEnv <==> "MAX_TESTCASES" in jobEnv) &&
                  ("MAX_TESTCASES" in u.vars <==> "MAX_TESTCASES" in vars1))
  {
  }

  /** A job that shares another job's build is forced to be a custom-binary job on both sides. */
  lemma SharedBuildForcesCustomBinary(vars: map<string, Value>, evaluate: string -> Value,
                                      jobEnv: map<string, string>, trustedHost: bool)
    requires Truthy(GetIn(vars + JobValues(jobEnv), evaluate, "SHARE_BUILD_WITH_JOB_TYPE"))
    ensures var u := UpdateEnvironmentSpec(vars, evaluate, jobEnv, trustedHost);
            u.vars["CUSTOM_BINARY"] == VBool(true) && u.uworkerEnv["CUSTOM_BINARY"] == VStr("True")
  {
  }

  /**
   * Whether the host is trusted changes only what is forwarded to the
   * untrusted runner: the job's variables plus `JOB_NAME` as read from the
   * environment afterwards.
   */
  lemma TrustedHostOnlyForwards(vars: map<string, Value>, evaluate: string -> Value, jobEnv: map<string, string>)
    ensures var t := UpdateEnvironmentSpec(vars, evaluate, jobEnv, true);
            var f := UpdateEnvironmentSpec(vars, evaluate, jobEnv, false);
            && t.vars == f.vars && t.uworkerEnv == f.uworkerEnv
            && f.forwarded == None
            && t.forwarded == Some(JobValues(jobEnv)["JOB_NAME" := GetIn(t.vars, evaluate, "JOB_NAME")])
  {
  }
}
