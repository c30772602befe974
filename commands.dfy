/**
 * `bot/tasks/commands.py`: the older pair of strategies (`TrustedTask`,
 * `UntrustedTask`), the registry `COMMAND_MAP` that `run_command` consults,
 * `should_update_task_status`, and `run_command` with its task-status
 * bookkeeping.
 */
module Commands {
  import opened Wrappers
  import opened PyValues
  import opened Collaborators
  import opened Registry

  /** The strategy objects of this file. */
  datatype CommandTask =
    | TrustedTask(taskModule: string)
    | UntrustedTask(taskModule: string)
  {
    /** The calls `execute(task_argument, job_type, uworker_env)` makes and how it ends. */
    function Run(respond: Call -> Reply, argument: string, jobType: string, uworkerEnv: Value): Outcome {
      match this
      case TrustedTask(m) =>
        var c := ExecuteTaskWithNone(m, argument, jobType);
        Outcome([c], ReturnNone(respond(c)))
      case UntrustedTask(m) =>
        var pre := ModulePreprocess(m, argument, jobType, uworkerEnv);
        var input := respond(pre);
        if input.Raises? then Outcome([pre], input)
        else if !Truthy(input.value) then Outcome([pre], Returned(VBool(false)))
        else
          var urlsCall := GetOutputUploadUrls;
          var urls := respond(urlsCall);
          if urls.Raises? then Outcome([pre, urlsCall], urls)
          else (
            match Unpack2(urls.value)
            case Failure(e) => Outcome([pre, urlsCall], Raises(e))
            case Success(pair) =>
              var rest := UntrustedRemainder(respond, m, jobType, input.value, pair.0, pair.1);
              Outcome([pre, urlsCall] + rest.calls, rest.reply))
    }

    /** `task.execute(task_argument, job_type, uworker_env)` */
    method Execute(host: Host, argument: string, jobType: string, uworkerEnv: Value) returns (r: Reply)
      modifies host`trace
      ensures host.trace == old(host.trace) + Run(host.respond, argument, jobType, uworkerEnv).calls
      ensures r == Run(host.respond, argument, jobType, uworkerEnv).reply
    {
      match this
      case TrustedTask(m) =>
        r := host.Invoke(ExecuteTaskWithNone(m, argument, jobType));
        r := ReturnNone(r);
      case UntrustedTask(m) =>
        var uworkerInput := host.Invoke(ModulePreprocess(m, argument, jobType, uworkerEnv));
        if uworkerInput.Raises? {
          return uworkerInput;
        }
        if !Truthy(uworkerInput.value) {
          return Returned(VBool(false));
        }
        var urls := host.Invoke(GetOutputUploadUrls);
        if urls.Raises? {
          return urls;
        }
        var pair := Unpack2(urls.value);
        if pair.Failure? {
          return Raises(pair.error);
        }
        r := ExecuteRemainder(host, m, jobType, uworkerInput.value, pair.value.0, pair.value.1);
    }
  }

  /** The steps of `UntrustedTask.execute` after the upload URLs are known. */
  method ExecuteRemainder(host: Host, m: string, jobType: string, input: Value, uploadUrl: Value, downloadUrl: Value)
    returns (r: Reply)
    modifies host`trace
    ensures host.trace == old(host.trace) + UntrustedRemainder(host.respond, m, jobType, input, uploadUrl, downloadUrl).calls
    ensures r == UntrustedRemainder(host.respond, m, jobType, input, uploadUrl, downloadUrl).reply
  {
    var inputDownloadUrl := host.Invoke(SerializeAndUploadInput(input, jobType, uploadUrl));
    if inputDownloadUrl.Raises? {
      return inputDownloadUrl;
    }
    var downloaded := host.Invoke(DownloadAndDeserializeInput(inputDownloadUrl.value));
    if downloaded.Raises? {
      return downloaded;
    }
    if !downloaded.value.VDict? {
      return Raises(TypeError);
    }
    var uworkerOutput := host.Invoke(UworkerExecute(m, downloaded.value));
    if uworkerOutput.Raises? {
      return uworkerOutput;
    }
    var uploaded := host.Invoke(SerializeAndUploadOutput(uworkerOutput.value, uploadUrl));
    if uploaded.Raises? {
      return uploaded;
    }
    var output := host.Invoke(DownloadAndDeserializeOutput(downloadUrl));
    if output.Raises? {
      return output;
    }
    if !output.value.VDict? {
      return Raises(TypeError);
    }
    r := host.Invoke(ModulePostprocess(m, output.value));
  }

  /**
   * The part of `UntrustedTask.execute` after the upload URLs are known:
   * upload the input, download it as the uworker would, run `uworker_execute`,
   * upload its output, download it as postprocess would, and run
   * `postprocess_task`. `**kwargs` of a non-dict raises TypeError.
   */
  function UntrustedRemainder(respond: Call -> Reply, m: string, jobType: string, input: Value,
                              uploadUrl: Value, downloadUrl: Value): Outcome {
    var up := SerializeAndUploadInput(input, jobType, uploadUrl);
    var inUrl := respond(up);
    if inUrl.Raises? then Outcome([up], inUrl)
    else
      var down := DownloadAndDeserializeInput(inUrl.value);
      var input' := respond(down);
      if input'.Raises? then Outcome([up, down], input')
      else if !input'.value.VDict? then Outcome([up, down], Raises(TypeError))
      else
        var exec := UworkerExecute(m, input'.value);
        var output := respond(exec);
        if output.Raises? then Outcome([up, down, exec], output)
        else
          var upOut := SerializeAndUploadOutput(output.value, uploadUrl);
          var uploaded := respond(upOut);
          if uploaded.Raises? then Outcome([up, down, exec, upOut], uploaded)
          else
            var downOut := DownloadAndDeserializeOutput(downloadUrl);
            var output' := respond(downOut);
            if output'.Raises? then Outcome([up, down, exec, upOut, downOut], output')
            else if !output'.value.VDict? then Outcome([up, down, exec, upOut, downOut], Raises(TypeError))
            else
              var post := ModulePostprocess(m, output'.value);
              Outcome([up, down, exec, upOut, downOut, post], respond(post))
  }

  /** `COMMAND_MAP` of this file, in its literal's order. */
  const CommandMap: seq<(string, CommandTask)> := [
    ("analyze", UntrustedTask("analyze_task")),
    ("blame", TrustedTask("blame_task")),
    ("corpus_pruning", TrustedTask("corpus_pruning_task")),
    ("fuzz", TrustedTask("fuzz_task")),
    ("impact", TrustedTask("impact_task")),
    ("minimize", TrustedTask("minimize_task")),
    ("progression", TrustedTask("progression_task")),
    ("regression", TrustedTask("regression_task")),
    ("symbolize", TrustedTask("symbolize_task")),
    ("unpack", TrustedTask("unpack_task")),
    ("upload_reports", TrustedTask("upload_reports_task")),
    ("variant", TrustedTask("variant_task"))
  ]

  /** `should_update_task_status(task_name)` */
  function ShouldUpdateTaskStatus(taskName: string): (r: bool)
    ensures r <==> taskName != "fuzz" && taskName != "corpus_pruning"
  {
    taskName !in ["fuzz", "corpus_pruning"]
  }

  /** `' '.join([task_name, task_argument, job_name])` */
  function TaskStateName(taskName: string, argument: string, jobName: string): string {
    taskName + " " + argument + " " + jobName
  }

  /**
   * `run_command(task_name, task_argument, job_name, uworker_env)` over a given
   * registry: the calls it makes and how it ends.
   */
  function RunCommandIn(commandMap: seq<(string, CommandTask)>, respond: Call -> Reply,
                        taskName: string, argument: string, jobName: string, uworkerEnv: Value): Outcome {
    match Lookup(commandMap, taskName)
    case Failure(_) => Outcome([], Returned(VNone))
    case Success(task) =>
      var run := task.Run(respond, argument, jobName, uworkerEnv);
      var stateName := TaskStateName(taskName, argument, jobName);
      // `InvalidTestcaseError` is only logged; control then reaches the success path.
      if run.reply.Raises? && run.reply.error != InvalidTestcaseError then
        if ShouldUpdateTaskStatus(taskName) then
          var update := UpdateTaskStatus(stateName, Error);
          var r := respond(update);
          Outcome(run.calls + [update], if r.Raises? then r else run.reply)
        else Outcome(run.calls, run.reply)
      else if ShouldUpdateTaskStatus(taskName) then
        var update := UpdateTaskStatus(stateName, Finished);
        Outcome(run.calls + [update], ReturnNone(respond(update)))
      else Outcome(run.calls, Returned(VNone))
  }

  /**
   * `run_command(task_name, task_argument, job_name, uworker_env)`, consulting
   * the registry it is given (`CommandMap` in the shipped program).
   */
  method RunCommand(commandMap: seq<(string, CommandTask)>, host: Host,
                    taskName: string, argument: string, jobName: string, uworkerEnv: Value) returns (r: Reply)
    modifies host`trace
    ensures host.trace == old(host.trace) + RunCommandIn(commandMap, host.respond, taskName, argument, jobName, uworkerEnv).calls
    ensures r == RunCommandIn(commandMap, host.respond, taskName, argument, jobName, uworkerEnv).reply
  {
    var found := Lookup(commandMap, taskName);
    if found.Failure? {
      return Returned(VNone);
    }
    var task := found.value;
    var taskStateName := TaskStateName(taskName, argument, jobName);
    var executed := task.Execute(host, argument, jobName, uworkerEnv);
    if executed.Raises? && executed.error != InvalidTestcaseError {
      if ShouldUpdateTaskStatus(taskName) {
        var updated := host.Invoke(UpdateTaskStatus(taskStateName, Error));
        if updated.Raises? {
          return updated;
        }
      }
      return executed;
    }
    r := Returned(VNone);
    if ShouldUpdateTaskStatus(taskName) {
      r := host.Invoke(UpdateTaskStatus(taskStateName, Finished));
      r := ReturnNone(r);
    }
  }

  // ---------------------------------------------------------------------------
  // Properties of the strategies

  /** The steps after the URLs: at most six calls, upload of the input first, postprocess only last and after `uworker_execute`, no status update. */
  lemma RemainderShape(respond: Call -> Reply, m: string, jobType: string, input: Value,
                       uploadUrl: Value, downloadUrl: Value)
    ensures var rest := UntrustedRemainder(respond, m, jobType, input, uploadUrl, downloadUrl);
            && 1 <= |rest.calls| <= 6
            && rest.calls[0] == SerializeAndUploadInput(input, jobType, uploadUrl)
            && (forall i :: 0 <= i < |rest.calls| ==> !rest.calls[i].UpdateTaskStatus?)
            && (forall i :: 0 <= i < |rest.calls| && rest.calls[i].ModulePostprocess? ==>
                  i == 5 && rest.calls[2].UworkerExecute?)
  {
  }

  /** No strategy of this file writes a task status itself. */
  lemma StrategiesNeverUpdateStatus(task: CommandTask, respond: Call -> Reply,
                                    argument: string, jobType: string, env: Value)
    ensures forall c :: c in task.Run(respond, argument, jobType, env).calls ==> !c.UpdateTaskStatus?
  {
    if task.UntrustedTask? {
      var input := respond(ModulePreprocess(task.taskModule, argument, jobType, env));
      var urls := respond(GetOutputUploadUrls);
      if input.Returned? && Truthy(input.value) && urls.Returned? && Unpack2(urls.value).Success? {
        var pair := Unpack2(urls.value).value;
        RemainderShape(respond, task.taskModule, jobType, input.value, pair.0, pair.1);
      }
    }
  }

  /** `TrustedTask.execute` calls `execute_task(task_argument, job_type, None)` once and ignores `uworker_env`. */
  lemma TrustedTaskCallsOnce(m: string, respond: Call -> Reply, argument: string, jobType: string, env: Value, env': Value)
    ensures TrustedTask(m).Run(respond, argument, jobType, env).calls == [ExecuteTaskWithNone(m, argument, jobType)]
    ensures TrustedTask(m).Run(respond, argument, jobType, env) == TrustedTask(m).Run(respond, argument, jobType, env')
  {
  }

  /** A falsy preprocess result makes `UntrustedTask.execute` return False with nothing uploaded, executed or postprocessed. */
  lemma UntrustedStopsOnFalsyInput(m: string, respond: Call -> Reply, argument: string, jobType: string, env: Value)
    requires respond(ModulePreprocess(m, argument, jobType, env)).Returned?
    requires !Truthy(respond(ModulePreprocess(m, argument, jobType, env)).value)
    ensures UntrustedTask(m).Run(respond, argument, jobType, env) ==
            Outcome([ModulePreprocess(m, argument, jobType, env)], Returned(VBool(false)))
  {
  }

  /**
   * When every phase returns normally, `UntrustedTask.execute` makes the eight
   * calls in order, hands each phase's result to the next, uploads the output
   * to the upload URL and downloads it from the paired URL, and returns
   * `postprocess_task`'s result.
   */
  lemma UntrustedHappyPath(m: string, respond: Call -> Reply, argument: string, jobType: string, env: Value,
                           input: Value, uploadUrl: Value, downloadUrl: Value, inUrl: Value,
                           input': map<string, Value>, output: Value, uploaded: Value, output': map<string, Value>)
    requires respond(ModulePreprocess(m, argument, jobType, env)) == Returned(input) && Truthy(input)
    requires respond(GetOutputUploadUrls) == Returned(VList([uploadUrl, downloadUrl]))
    requires respond(SerializeAndUploadInput(input, jobType, uploadUrl)) == Returned(inUrl)
    requires respond(DownloadAndDeserializeInput(inUrl)) == Returned(VDict(input'))
    requires respond(UworkerExecute(m, VDict(input'))) == Returned(output)
    requires respond(SerializeAndUploadOutput(output, uploadUrl)) == Returned(uploaded)
    requires respond(DownloadAndDeserializeOutput(downloadUrl)) == Returned(VDict(output'))
    ensures UntrustedTask(m).Run(respond, argument, jobType, env) ==
            Outcome([ModulePreprocess(m, argument, jobType, env), GetOutputUploadUrls,
                     SerializeAndUploadInput(input, jobType, uploadUrl), DownloadAndDeserializeInput(inUrl),
                     UworkerExecute(m, VDict(input')), SerializeAndUploadOutput(output, uploadUrl),
                     DownloadAndDeserializeOutput(downloadUrl), ModulePostprocess(m, VDict(output'))],
                    respond(ModulePostprocess(m, VDict(output'))))
  {
  }

  /** `UntrustedTask.execute` calls postprocess at most once, as its last call, and only after `uworker_execute`. */
  lemma UntrustedPostprocessNeedsExecute(m: string, respond: Call -> Reply, argument: string, jobType: string, env: Value)
    ensures var run := UntrustedTask(m).Run(respond, argument, jobType, env);
            forall i :: 0 <= i < |run.calls| && run.calls[i].ModulePostprocess? ==>
              i == |run.calls| - 1 && run.calls[i - 3].UworkerExecute?
  {
    var input := respond(ModulePreprocess(m, argument, jobType, env));
    var urls := respond(GetOutputUploadUrls);
    if input.Returned? && Truthy(input.value) && urls.Returned? && Unpack2(urls.value).Success? {
      var pair := Unpack2(urls.value).value;
      RemainderShape(respond, m, jobType, input.value, pair.0, pair.1);
    }
  }

  // ---------------------------------------------------------------------------
  // Properties of the registry and `run_command`

  /** In this file's map only `analyze` is untrusted. */
  lemma ShippedMapEntries()
    ensures forall i :: 0 <= i < |CommandMap| ==> (CommandMap[i].1.UntrustedTask? <==> i == 0)
    ensures CommandMap[0] == ("analyze", UntrustedTask("analyze_task"))
  {
    forall i | 0 <= i < |CommandMap| ensures CommandMap[i].1.UntrustedTask? <==> i == 0 {
      assert i < 12;
    }
  }

  /** The task-status updates in a trace, in order. */
  function StatusUpdates(calls: seq<Call>): (r: seq<Call>)
    ensures forall c :: c in r <==> c in calls && c.UpdateTaskStatus?
  {
    if calls == [] then []
    else (if calls[0].UpdateTaskStatus? then [calls[0]] else []) + StatusUpdates(calls[1..])
  }

  /** A trace without updates, followed by one update, holds exactly that update. */
  lemma {:induction false} StatusUpdatesThenOne(calls: seq<Call>, u: Call)
    requires forall c :: c in calls ==> !c.UpdateTaskStatus?
    requires u.UpdateTaskStatus?
    ensures StatusUpdates(calls) == []
    ensures StatusUpdates(calls + [u]) == [u]
  {
    if calls == [] {
      assert [u][1..] == [];
    } else {
      assert calls[0] in calls;
      assert (calls + [u])[0] == calls[0];
      assert (calls + [u])[1..] == calls[1..] + [u];
      StatusUpdatesThenOne(calls[1..], u);
    }
  }

  /** An unknown task name is rejected before anything runs: no call, no status update, result `None`. */
  lemma UnknownCommandRunsNothing(commandMap: seq<(string, CommandTask)>, respond: Call -> Reply,
                                  taskName: string, argument: string, jobName: string, env: Value)
    requires taskName !in Names(commandMap)
    ensures RunCommandIn(commandMap, respond, taskName, argument, jobName, env) == Outcome([], Returned(VNone))
  {
  }

  /**
   * The name's strategy runs first, with the task argument and job name; what
   * `run_command` adds after it is at most one status update.
   */
  lemma RunCommandRunsTaskFirst(commandMap: seq<(string, CommandTask)>, respond: Call -> Reply,
                                taskName: string, argument: string, jobName: string, env: Value)
    requires taskName in Names(commandMap)
    ensures var task := Lookup(commandMap, taskName).value;
            var run := task.Run(respond, argument, jobName, env);
            var out := RunCommandIn(commandMap, respond, taskName, argument, jobName, env);
            && |run.calls| <= |out.calls| <= |run.calls| + 1
            && out.calls[..|run.calls|] == run.calls
  {
  }

  /** On success a FINISHED update for `"<name> <argument> <job>"` is recorded iff `should_update_task_status`, and never ERROR. */
  lemma RunCommandOnSuccess(commandMap: seq<(string, CommandTask)>, respond: Call -> Reply,
                            taskName: string, argument: string, jobName: string, env: Value)
    requires taskName in Names(commandMap)
    requires Lookup(commandMap, taskName).value.Run(respond, argument, jobName, env).reply.Returned?
    ensures var out := RunCommandIn(commandMap, respond, taskName, argument, jobName, env);
            var update := UpdateTaskStatus(TaskStateName(taskName, argument, jobName), Finished);
            && (StatusUpdates(out.calls) == if ShouldUpdateTaskStatus(taskName) then [update] else [])
            && (out.reply.Raises? <==> (ShouldUpdateTaskStatus(taskName) && respond(update).Raises?))
  {
    var run := Lookup(commandMap, taskName).value.Run(respond, argument, jobName, env);
    StrategiesNeverUpdateStatus(Lookup(commandMap, taskName).value, respond, argument, jobName, env);
    StatusUpdatesThenOne(run.calls, UpdateTaskStatus(TaskStateName(taskName, argument, jobName), Finished));
  }

  /**
   * An `InvalidTestcaseError` from the task is only logged: `run_command` then
   * goes on as on success, recording FINISHED iff `should_update_task_status`
   * (never ERROR), and ends as that update ends.
   */
  lemma RunCommandInvalidTestcaseFinishes(commandMap: seq<(string, CommandTask)>, respond: Call -> Reply,
                                          taskName: string, argument: string, jobName: string, env: Value)
    requires taskName in Names(commandMap)
    requires Lookup(commandMap, taskName).value.Run(respond, argument, jobName, env).reply == Raises(InvalidTestcaseError)
    ensures var out := RunCommandIn(commandMap, respond, taskName, argument, jobName, env);
            var update := UpdateTaskStatus(TaskStateName(taskName, argument, jobName), Finished);
            && (StatusUpdates(out.calls) == if ShouldUpdateTaskStatus(taskName) then [update] else [])
            && (out.reply == if ShouldUpdateTaskStatus(taskName) then ReturnNone(respond(update)) else Returned(VNone))
  {
    var run := Lookup(commandMap, taskName).value.Run(respond, argument, jobName, env);
    StrategiesNeverUpdateStatus(Lookup(commandMap, taskName).value, respond, argument, jobName, env);
    StatusUpdatesThenOne(run.calls, UpdateTaskStatus(TaskStateName(taskName, argument, jobName), Finished));
  }

  /**
   * Any other exception records ERROR iff `should_update_task_status` (never
   * FINISHED) and is re-raised, unless the status update itself raises.
   */
  lemma RunCommandOnOtherError(commandMap: seq<(string, CommandTask)>, respond: Call -> Reply,
                               taskName: string, argument: string, jobName: string, env: Value, e: Exc)
    requires taskName in Names(commandMap)
    requires Lookup(commandMap, taskName).value.Run(respond, argument, jobName, env).reply == Raises(e)
    requires e != InvalidTestcaseError
    ensures var out := RunCommandIn(commandMap, respond, taskName, argument, jobName, env);
            var update := UpdateTaskStatus(TaskStateName(taskName, argument, jobName), Error);
            && (StatusUpdates(out.calls) == if ShouldUpdateTaskStatus(taskName) then [update] else [])
            && out.reply.Raises?
            && (!(ShouldUpdateTaskStatus(taskName) && respond(update).Raises?) ==> out.reply == Raises(e))
  {
    var run := Lookup(commandMap, taskName).value.Run(respond, argument, jobName, env);
    StrategiesNeverUpdateStatus(Lookup(commandMap, taskName).value, respond, argument, jobName, env);
    StatusUpdatesThenOne(run.calls, UpdateTaskStatus(TaskStateName(taskName, argument, jobName), Error));
  }

  /** `fuzz` and `corpus_pruning` never get a status update from `run_command`, whatever happens. */
  lemma ParallelTasksNeverUpdated(commandMap: seq<(string, CommandTask)>, respond: Call -> Reply,
                                  taskName: string, argument: string, jobName: string, env: Value)
    requires taskName == "fuzz" || taskName == "corpus_pruning"
    ensures StatusUpdates(RunCommandIn(commandMap, respond, taskName, argument, jobName, env).calls) == []
  {
    if taskName in Names(commandMap) {
      var run := Lookup(commandMap, taskName).value.Run(respond, argument, jobName, env);
      StrategiesNeverUpdateStatus(Lookup(commandMap, taskName).value, respond, argument, jobName, env);
      StatusUpdatesThenOne(run.calls, UpdateTaskStatus(TaskStateName(taskName, argument, jobName), Error));
    }
  }
}
