/**
 * The execution strategies of `bot/tasks/__init__.py`, its registry
 * `COMMAND_MAP`, and the multi-machine classification queries.
 *
 * The file defines `UTask` twice; Python binds the name to the second
 * definition (preprocess, then main), which is the one modelled here.
 */
module TasksInit {
  import opened Wrappers
  import opened PyValues
  import opened Collaborators
  import opened Registry

  /** A task implementation object: its class and the task module it wraps. */
  datatype Task =
    | TrustedTask(taskModule: string)
    | UTask(taskModule: string)
    | UTaskLocalExecutor(taskModule: string)
    | PostprocessTask(taskModule: string)
    | UworkerMainTask(taskModule: string)
  {
    /** The calls `execute(task_argument, job_type, uworker_env)` makes and how it ends. */
    function Run(respond: Call -> Reply, argument: string, jobType: string, uworkerEnv: Value): Outcome {
      match this
      case TrustedTask(m) =>
        var c := ExecuteTask(m, argument, jobType);
        Outcome([c], ReturnNone(respond(c)))
      case UTask(m) =>
        var pre := TworkerPreprocess(m, argument, jobType, uworkerEnv);
        var r := respond(pre);
        if r.Raises? || r.value == VNone then Outcome([pre], ReturnNone(r))
        else (
          match Unpack2(r.value)
          case Failure(e) => Outcome([pre], Raises(e))
          case Success(urls) =>
            var main := UworkerMain(urls.0);
            Outcome([pre, main], ReturnNone(respond(main))))
      case UTaskLocalExecutor(m) =>
        var pre := TworkerPreprocessNoIo(m, argument, jobType, uworkerEnv);
        var r := respond(pre);
        if r.Raises? || r.value == VNone then Outcome([pre], ReturnNone(r))
        else
          var main := UworkerMainNoIo(m, r.value);
          var r' := respond(main);
          if r'.Raises? || r'.value == VNone then Outcome([pre, main], ReturnNone(r'))
          else
            var post := TworkerPostprocessNoIo(m, r'.value, r.value);
            Outcome([pre, main, post], ReturnNone(respond(post)))
      case PostprocessTask(_) =>
        var c := TworkerPostprocess(VStr(argument));
        Outcome([c], ReturnNone(respond(c)))
      case UworkerMainTask(_) =>
        var c := UworkerMain(VStr(argument));
        Outcome([c], ReturnNone(respond(c)))
    }

    /** `task.execute(task_argument, job_type, uworker_env)` */
    method Execute(host: Host, argument: string, jobType: string, uworkerEnv: Value) returns (r: Reply)
      modifies host`trace
      ensures host.trace == old(host.trace) + Run(host.respond, argument, jobType, uworkerEnv).calls
      ensures r == Run(host.respond, argument, jobType, uworkerEnv).reply
    {
      match this
      case TrustedTask(m) =>
        r := host.Invoke(ExecuteTask(m, argument, jobType));
        r := ReturnNone(r);
      case UTask(m) =>
        var preprocessResult := host.Invoke(TworkerPreprocess(m, argument, jobType, uworkerEnv));
        if preprocessResult.Raises? || preprocessResult.value == VNone {
          return ReturnNone(preprocessResult);
        }
        var urls := Unpack2(preprocessResult.value);
        if urls.Failure? {
          return Raises(urls.error);
        }
        var inputDownloadUrl := urls.value.0;
        r := host.Invoke(UworkerMain(inputDownloadUrl));
        r := ReturnNone(r);
      case UTaskLocalExecutor(m) =>
        var uworkerInput := host.Invoke(TworkerPreprocessNoIo(m, argument, jobType, uworkerEnv));
        if uworkerInput.Raises? || uworkerInput.value == VNone {
          return ReturnNone(uworkerInput);
        }
        var uworkerOutput := host.Invoke(UworkerMainNoIo(m, uworkerInput.value));
        if uworkerOutput.Raises? || uworkerOutput.value == VNone {
          return ReturnNone(uworkerOutput);
        }
        r := host.Invoke(TworkerPostprocessNoIo(m, uworkerOutput.value, uworkerInput.value));
        r := ReturnNone(r);
      case PostprocessTask(_) =>
        r := host.Invoke(TworkerPostprocess(VStr(argument)));
        r := ReturnNone(r);
      case UworkerMainTask(_) =>
        r := host.Invoke(UworkerMain(VStr(argument)));
        r := ReturnNone(r);
    }
  }

  /** `utask_factory(task_module, in_memory=True)` */
  function UtaskFactory(taskModule: string, inMemory: bool := true): (t: Task)
    ensures t.taskModule == taskModule
    ensures inMemory <==> t.UTaskLocalExecutor?
    ensures !inMemory <==> t.UTask?
  {
    if inMemory then UTaskLocalExecutor(taskModule) else UTask(taskModule)
  }

  /** `PostprocessTask(module='none')`: this class keeps the module it is given. */
  function NewPostprocessTask(taskModule: string := "none"): Task {
    PostprocessTask(taskModule)
  }

  /** `UworkerMainTask(module='none')` */
  function NewUworkerMainTask(taskModule: string := "none"): Task {
    UworkerMainTask(taskModule)
  }

  /** `COMMAND_MAP`, in its literal's order. */
  const CommandMap: seq<(string, Task)> := [
    ("analyze", UtaskFactory("analyze_task")),
    ("blame", TrustedTask("blame_task")),
    ("corpus_pruning", UtaskFactory("corpus_pruning_task")),
    ("fuzz", UtaskFactory("fuzz_task")),
    ("impact", TrustedTask("impact_task")),
    ("minimize", UtaskFactory("minimize_task")),
    ("progression", UtaskFactory("progression_task")),
    ("regression", UtaskFactory("regression_task")),
    ("symbolize", TrustedTask("symbolize_task")),
    ("unpack", TrustedTask("unpack_task")),
    ("uworker_postprocess", NewPostprocessTask()),
    ("upload_reports", TrustedTask("upload_reports_task")),
    ("uworker_main", NewUworkerMainTask()),
    ("variant", UtaskFactory("variant_task"))
  ]

  /** `is_multimachine_executed(task_name)` over a given registry. */
  function IsMultimachineExecutedIn(commandMap: seq<(string, Task)>, taskName: string): (r: Result<bool, Exc>)
    ensures r.Failure? <==> taskName !in Names(commandMap)
    ensures r.Failure? ==> r.error == KeyError
    ensures r.Success? ==> (r.value <==> Lookup(commandMap, taskName).value.UTask?)
  {
    var task :- Lookup(commandMap, taskName);
    Success(task.UTask?)
  }

  /** The comprehension in `get_multimachine_tasks`, over the names still to be visited. */
  function MultimachineAmong(commandMap: seq<(string, Task)>, names: seq<string>): Result<seq<string>, Exc> {
    if names == [] then Success([])
    else
      var head :- IsMultimachineExecutedIn(commandMap, names[0]);
      var rest :- MultimachineAmong(commandMap, names[1..]);
      Success(if head then [names[0]] + rest else rest)
  }

  /** `get_multimachine_tasks()` over a given registry. */
  function GetMultimachineTasksIn(commandMap: seq<(string, Task)>): Result<seq<string>, Exc> {
    MultimachineAmong(commandMap, Names(commandMap))
  }

  function IsMultimachineExecuted(taskName: string): Result<bool, Exc> {
    IsMultimachineExecutedIn(CommandMap, taskName)
  }

  function GetMultimachineTasks(): Result<seq<string>, Exc> {
    GetMultimachineTasksIn(CommandMap)
  }

  // ---------------------------------------------------------------------------
  // Properties of the strategies

  /** A trusted task calls `execute_task(task_argument, job_type)` once; `uworker_env` plays no part. */
  lemma TrustedTaskExecutesOnce(m: string, respond: Call -> Reply, argument: string, jobType: string, env: Value, env': Value)
    ensures TrustedTask(m).Run(respond, argument, jobType, env).calls == [ExecuteTask(m, argument, jobType)]
    ensures TrustedTask(m).Run(respond, argument, jobType, env) == TrustedTask(m).Run(respond, argument, jobType, env')
  {
  }

  /** `utask_factory` builds the in-memory executor unless told otherwise. */
  lemma UtaskFactoryChoosesExecutor(m: string)
    ensures UtaskFactory(m) == UTaskLocalExecutor(m)
    ensures UtaskFactory(m, false) == UTask(m)
  {
  }

  /** `UTask`: main runs exactly when preprocess returns a pair, and gets its first component. */
  lemma UTaskMainFollowsPreprocess(m: string, respond: Call -> Reply, argument: string, jobType: string, env: Value)
    ensures var pre := TworkerPreprocess(m, argument, jobType, env);
            var run := UTask(m).Run(respond, argument, jobType, env);
            && run.calls[0] == pre
            && (respond(pre) == Returned(VNone) ==> run == Outcome([pre], Returned(VNone)))
            && (respond(pre).Raises? ==> run == Outcome([pre], respond(pre)))
            && (forall url, path :: respond(pre) == Returned(VList([url, path])) ==>
                  run.calls == [pre, UworkerMain(url)])
            && (forall p :: UworkerMain(p) in run.calls ==> respond(pre).Returned? && respond(pre).value != VNone)
  {
  }

  /** `UTask` never reaches postprocess. */
  lemma UTaskNeverPostprocesses(m: string, respond: Call -> Reply, argument: string, jobType: string, env: Value)
    ensures forall c :: c in UTask(m).Run(respond, argument, jobType, env).calls ==> !c.TworkerPostprocess? && !c.TworkerPostprocessNoIo?
  {
  }

  /**
   * `UTaskLocalExecutor`: a `None` from preprocess stops before main, a `None`
   * from main stops before postprocess, and otherwise postprocess gets
   * `(uworker_output, uworker_input)`; the phases run in the order pre, main, post.
   */
  lemma LocalExecutorPipeline(m: string, respond: Call -> Reply, argument: string, jobType: string, env: Value)
    ensures var pre := TworkerPreprocessNoIo(m, argument, jobType, env);
            var run := UTaskLocalExecutor(m).Run(respond, argument, jobType, env);
            && (respond(pre) == Returned(VNone) ==> run == Outcome([pre], Returned(VNone)))
            && (forall input :: respond(pre) == Returned(input) && input != VNone ==>
                  var main := UworkerMainNoIo(m, input);
                  && (respond(main) == Returned(VNone) ==> run == Outcome([pre, main], Returned(VNone)))
                  && (forall output :: respond(main) == Returned(output) && output != VNone ==>
                        run.calls == [pre, main, TworkerPostprocessNoIo(m, output, input)]))
  {
  }

  /** Whatever the replies, the executor's calls are a prefix of preprocess, main, postprocess. */
  lemma LocalExecutorPhaseOrder(m: string, respond: Call -> Reply, argument: string, jobType: string, env: Value)
    ensures var run := UTaskLocalExecutor(m).Run(respond, argument, jobType, env);
            && 1 <= |run.calls| <= 3
            && run.calls[0].TworkerPreprocessNoIo?
            && (|run.calls| >= 2 ==> run.calls[1].UworkerMainNoIo?)
            && (|run.calls| == 3 ==> run.calls[2].TworkerPostprocessNoIo?)
  {
  }

  /** A fault raised by a phase is the reply of `execute`, and no later phase runs. */
  lemma LocalExecutorPropagatesFaults(m: string, respond: Call -> Reply, argument: string, jobType: string, env: Value, e: Exc)
    ensures var pre := TworkerPreprocessNoIo(m, argument, jobType, env);
            respond(pre) == Raises(e) ==> UTaskLocalExecutor(m).Run(respond, argument, jobType, env) == Outcome([pre], Raises(e))
  {
  }

  /** The standalone postprocess and main tasks pass the argument on unchanged and ignore job type and environment. */
  lemma SinglePhaseTasksPassArgument(m: string, respond: Call -> Reply, argument: string,
                                     jobType: string, env: Value, jobType': string, env': Value)
    ensures PostprocessTask(m).Run(respond, argument, jobType, env).calls == [TworkerPostprocess(VStr(argument))]
    ensures PostprocessTask(m).Run(respond, argument, jobType, env) == PostprocessTask(m).Run(respond, argument, jobType', env')
    ensures UworkerMainTask(m).Run(respond, argument, jobType, env).calls == [UworkerMain(VStr(argument))]
    ensures UworkerMainTask(m).Run(respond, argument, jobType, env) == UworkerMainTask(m).Run(respond, argument, jobType', env')
  {
  }

  // ---------------------------------------------------------------------------
  // Properties of the registry and the classification queries

  /** `is_multimachine_executed` is true exactly for `UTask` objects; a name outside the map is a KeyError. */
  lemma {:induction false} MultimachineExactlyForUTask(commandMap: seq<(string, Task)>, i: nat)
    requires DistinctNames(commandMap) && i < |commandMap|
    ensures IsMultimachineExecutedIn(commandMap, commandMap[i].0) == Success(commandMap[i].1.UTask?)
  {
    LookupEntry(commandMap, i);
  }

  /**
   * The comprehension succeeds and keeps exactly the names the predicate
   * accepts, in the order it visits them.
   */
  lemma {:induction false} MultimachineAmongFilters(commandMap: seq<(string, Task)>, names: seq<string>)
    requires forall n :: n in names ==> n in Names(commandMap)
    ensures MultimachineAmong(commandMap, names).Success?
    ensures forall n :: n in MultimachineAmong(commandMap, names).value <==>
                        n in names && IsMultimachineExecutedIn(commandMap, n) == Success(true)
    ensures Subsequence(MultimachineAmong(commandMap, names).value, names)
  {
    if names != [] {
      MultimachineAmongFilters(commandMap, names[1..]);
      var rest := MultimachineAmong(commandMap, names[1..]).value;
      SubsequenceOfTail(rest, names);
    }
  }

  /** `get_multimachine_tasks()` returns exactly the names `is_multimachine_executed` accepts, in registry order. */
  lemma GetMultimachineTasksExact(commandMap: seq<(string, Task)>)
    ensures GetMultimachineTasksIn(commandMap).Success?
    ensures forall n :: n in GetMultimachineTasksIn(commandMap).value <==>
                        n in Names(commandMap) && IsMultimachineExecutedIn(commandMap, n) == Success(true)
    ensures Subsequence(GetMultimachineTasksIn(commandMap).value, Names(commandMap))
  {
    MultimachineAmongFilters(commandMap, Names(commandMap));
  }

  /** Over a registry without `UTask` entries, the comprehension keeps no name. */
  lemma {:induction false} NoUTaskNoneAmong(commandMap: seq<(string, Task)>, names: seq<string>)
    requires forall i :: 0 <= i < |commandMap| ==> !commandMap[i].1.UTask?
    requires forall n :: n in names ==> n in Names(commandMap)
    ensures MultimachineAmong(commandMap, names) == Success([])
  {
    if names != [] {
      NoUTaskNoneAmong(commandMap, names[1..]);
    }
  }

  /** A registry without `UTask` entries has no multi-machine task. */
  lemma NoUTaskNoMultimachine(commandMap: seq<(string, Task)>)
    requires forall i :: 0 <= i < |commandMap| ==> !commandMap[i].1.UTask?
    ensures forall n :: IsMultimachineExecutedIn(commandMap, n) != Success(true)
    ensures GetMultimachineTasksIn(commandMap) == Success([])
  {
    NoUTaskNoneAmong(commandMap, Names(commandMap));
  }

  /** Built with the in-memory factory, no entry of the shipped `COMMAND_MAP` is a `UTask`. */
  lemma ShippedMapHasNoUTask()
    ensures forall i :: 0 <= i < |CommandMap| ==> !CommandMap[i].1.UTask?
  {
    forall i | 0 <= i < |CommandMap| ensures !CommandMap[i].1.UTask? {
      assert i < 14;
    }
  }

  /** The shipped `COMMAND_MAP` has no multi-machine task. */
  lemma ShippedMapHasNoMultimachineTasks()
    ensures forall n :: IsMultimachineExecuted(n) != Success(true)
    ensures GetMultimachineTasks() == Success([])
  {
    ShippedMapHasNoUTask();
    NoUTaskNoMultimachine(CommandMap);
  }

  /** A map with one trusted, one distributed and one in-memory task lists only the distributed one. */
  lemma MixedRegistryListsDistributedOnly()
    ensures GetMultimachineTasksIn([("a", TrustedTask("m")), ("b", UtaskFactory("m", false)), ("c", UtaskFactory("m"))]) == Success(["b"])
  {
    var t := [("a", TrustedTask("m")), ("b", UtaskFactory("m", false)), ("c", UtaskFactory("m"))];
    assert Names(t) == ["a", "b", "c"];
    assert IsMultimachineExecutedIn(t, "a") == Success(false);
    assert IsMultimachineExecutedIn(t, "b") == Success(true);
    assert IsMultimachineExecutedIn(t, "c") == Success(false);
    assert ["b", "c"][1..] == ["c"];
    assert ["c"][1..] == [];
    assert MultimachineAmong(t, []) == Success([]);
    assert MultimachineAmong(t, ["c"]) == Success([]);
    assert ["b"] + [] == ["b"];
    assert MultimachineAmong(t, ["b", "c"]) == Success(["b"]);
  }
}
