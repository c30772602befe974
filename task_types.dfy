/**
 * `bot/tasks/task_types.py`: the task classes, the registry `COMMAND_TYPES`
 * from task name to class, and the question which tasks run their trusted
 * portion on this machine.
 */
module TaskTypes {
  import opened Wrappers
  import opened PyValues
  import opened Collaborators
  import opened Registry

  /** The task classes of the file; `COMMAND_TYPES` maps names to these, not to instances. */
  datatype TaskClass =
    | TrustedTask
    | UTask
    | UTaskLocalPreprocessAndMain
    | UTaskLocalExecutor
    | PostprocessTask
    | UworkerMainTask

  /** An instance: its class and the `module` attribute `BaseTask.__init__` stored. */
  datatype Task = Task(cls: TaskClass, taskModule: string) {

    /** The calls `execute(task_argument, job_type, uworker_env)` makes and how it ends. */
    function Run(respond: Call -> Reply, argument: string, jobType: string, uworkerEnv: Value): Outcome {
      var m := taskModule;
      match cls
      case TrustedTask =>
        var c := ExecuteTask(m, argument, jobType);
        Outcome([c], ReturnNone(respond(c)))
      case UTask =>
        var pre := TworkerPreprocess(m, argument, jobType, uworkerEnv);
        Outcome([pre], ReturnNone(respond(pre)))
      case UTaskLocalPreprocessAndMain =>
        var pre := TworkerPreprocess(m, argument, jobType, uworkerEnv);
        var r := respond(pre);
        if r.Raises? || r.value == VNone then Outcome([pre], ReturnNone(r))
        else (
          match Unpack2(r.value)
          case Failure(e) => Outcome([pre], Raises(e))
          case Success(urls) =>
            var main := UworkerMain(urls.0);
            Outcome([pre, main], ReturnNone(respond(main))))
      case UTaskLocalExecutor =>
        var pre := TworkerPreprocessNoIo(m, argument, jobType, uworkerEnv);
        var r := respond(pre);
        if r.Raises? || r.value == VNone then Outcome([pre], ReturnNone(r))
        else
          var main := UworkerMainNoIo(m, r.value);
          var r' := respond(main);
          if r'.Raises? || r'.value == VNone then Outcome([pre, main], ReturnNone(r'))
          else
            var post := TworkerPostprocessNoIo(m, r'.value, r.value);
            Outcome([pre, main, post], ReturnNone(respond(post)))
      case PostprocessTask =>
        var c := TworkerPostprocess(VStr(argument));
        Outcome([c], ReturnNone(respond(c)))
      case UworkerMainTask =>
        var c := UworkerMain(VStr(argument));
        Outcome([c], ReturnNone(respond(c)))
    }

    /** `task.execute(task_argument, job_type, uworker_env)` */
    method Execute(host: Host, argument: string, jobType: string, uworkerEnv: Value) returns (r: Reply)
      modifies host`trace
      ensures host.trace == old(host.trace) + Run(host.respond, argument, jobType, uworkerEnv).calls
      ensures r == Run(host.respond, argument, jobType, uworkerEnv).reply
    {
      var m := taskModule;
      match cls
      case TrustedTask =>
        r := host.Invoke(ExecuteTask(m, argument, jobType));
        r := ReturnNone(r);
      case UTask =>
        r := host.Invoke(TworkerPreprocess(m, argument, jobType, uworkerEnv));
        r := ReturnNone(r);
      case UTaskLocalPreprocessAndMain =>
        var preprocessResult := host.Invoke(TworkerPreprocess(m, argument, jobType, uworkerEnv));
        if preprocessResult.Raises? || preprocessResult.value == VNone {
          return ReturnNone(preprocessResult);
        }
        var urls := Unpack2(preprocessResult.value);
        if urls.Failure? {
          return Raises(urls.error);
        }
        r := host.Invoke(UworkerMain(urls.value.0));
        r := ReturnNone(r);
      case UTaskLocalExecutor =>
        var uworkerInput := host.Invoke(TworkerPreprocessNoIo(m, argument, jobType, uworkerEnv));
        if uworkerInput.Raises? || uworkerInput.value == VNone {
          return ReturnNone(uworkerInput);
        }
        var uworkerOutput := host.Invoke(UworkerMainNoIo(m, uworkerInput.value));
        if uworkerOutput.Raises? || uworkerOutput.value == VNone {
          return ReturnNone(uworkerOutput);
        }
        r := host.Invoke(TworkerPostprocessNoIo(m, uworkerOutput.value, uworkerInput.value));
        r := ReturnNone(r);
      case PostprocessTask =>
        r := host.Invoke(TworkerPostprocess(VStr(argument)));
        r := ReturnNone(r);
      case UworkerMainTask =>
        r := host.Invoke(UworkerMain(VStr(argument)));
        r := ReturnNone(r);
    }
  }

  /**
   * `cls(module)`: the postprocess and uworker-main classes discard the module
   * they are given and store `'none'`.
   */
  function Instantiate(cls: TaskClass, taskModule: string): (t: Task)
    ensures t.cls == cls
    ensures cls.PostprocessTask? || cls.UworkerMainTask? ==> t.taskModule == "none"
    ensures !(cls.PostprocessTask? || cls.UworkerMainTask?) ==> t.taskModule == taskModule
  {
    if cls.PostprocessTask? || cls.UworkerMainTask? then Task(cls, "none") else Task(cls, taskModule)
  }

  /** `COMMAND_TYPES`, in its literal's order. */
  const CommandTypes: seq<(string, TaskClass)> := [
    ("analyze", UTaskLocalExecutor),
    ("blame", TrustedTask),
    ("corpus_pruning", UTaskLocalExecutor),
    ("fuzz", UTaskLocalExecutor),
    ("impact", TrustedTask),
    ("minimize", UTaskLocalExecutor),
    ("progression", UTaskLocalExecutor),
    ("regression", UTaskLocalExecutor),
    ("symbolize", TrustedTask),
    ("unpack", TrustedTask),
    ("uworker_postprocess", PostprocessTask),
    ("upload_reports", TrustedTask),
    ("uworker_main", UworkerMainTask),
    ("variant", UTaskLocalExecutor)
  ]

  /** The classes whose work happens on a trusted worker: preprocess of a `UTask`, and postprocess. */
  predicate TrustedPortion(cls: TaskClass) {
    cls == UTask || cls == PostprocessTask
  }

  /**
   * A key `COMMAND_TYPES[...]` can be indexed with: a task name, or (as
   * `get_utask_trusted_portions` does) a task class, which is never one of
   * the dict's keys.
   */
  datatype LookupKey = NameKey(name: string) | ClassKey(cls: TaskClass)

  /** `is_trusted_portion_of_utask(key)` over a given registry, for any key Python would accept. */
  function IsTrustedPortionOfUtaskByKey(commandTypes: seq<(string, TaskClass)>, key: LookupKey): (r: Result<bool, Exc>)
    ensures key.ClassKey? ==> r == Failure(KeyError)
    ensures key.NameKey? ==> (r.Failure? <==> key.name !in Names(commandTypes))
    ensures r.Failure? ==> r.error == KeyError
  {
    match key
    case ClassKey(_) => Failure(KeyError)
    case NameKey(name) =>
      var cls :- Lookup(commandTypes, name);
      Success(TrustedPortion(cls))
  }

  /** `is_trusted_portion_of_utask(task_name)` over a given registry. */
  function IsTrustedPortionOfUtaskIn(commandTypes: seq<(string, TaskClass)>, taskName: string): (r: Result<bool, Exc>)
    ensures r.Failure? <==> taskName !in Names(commandTypes)
    ensures r.Failure? ==> r.error == KeyError
  {
    IsTrustedPortionOfUtaskByKey(commandTypes, NameKey(taskName))
  }

  function IsTrustedPortionOfUtask(taskName: string): Result<bool, Exc> {
    IsTrustedPortionOfUtaskIn(CommandTypes, taskName)
  }

  /**
   * `get_utask_trusted_portions()` as written: the comprehension passes each
   * entry's class, not its name, to `is_trusted_portion_of_utask`.
   */
  function TrustedPortionsAsWritten(commandTypes: seq<(string, TaskClass)>, rest: seq<(string, TaskClass)>): Result<seq<string>, Exc> {
    if rest == [] then Success([])
    else
      var head :- IsTrustedPortionOfUtaskByKey(commandTypes, ClassKey(rest[0].1));
      var tail :- TrustedPortionsAsWritten(commandTypes, rest[1..]);
      Success(if head then [rest[0].0] + tail else tail)
  }

  function GetUtaskTrustedPortionsAsWritten(commandTypes: seq<(string, TaskClass)>): (r: Result<seq<string>, Exc>)
    ensures r == if commandTypes == [] then Success([]) else Failure(KeyError)
  {
    TrustedPortionsAsWritten(commandTypes, commandTypes)
  }

  /** The comprehension as intended: each entry's name is asked about. */
  function TrustedPortionsAmong(commandTypes: seq<(string, TaskClass)>, names: seq<string>): Result<seq<string>, Exc> {
    if names == [] then Success([])
    else
      var head :- IsTrustedPortionOfUtaskIn(commandTypes, names[0]);
      var tail :- TrustedPortionsAmong(commandTypes, names[1..]);
      Success(if head then [names[0]] + tail else tail)
  }

  /** `get_utask_trusted_portions()` as intended, over a given registry. */
  function GetUtaskTrustedPortionsIn(commandTypes: seq<(string, TaskClass)>): Result<seq<string>, Exc> {
    TrustedPortionsAmong(commandTypes, Names(commandTypes))
  }

  function GetUtaskTrustedPortions(): Result<seq<string>, Exc> {
    GetUtaskTrustedPortionsIn(CommandTypes)
  }

  // ---------------------------------------------------------------------------
  // Properties of the strategies

  /** This file's `UTask` runs preprocess and nothing after it, whatever preprocess returns. */
  lemma UTaskRunsOnlyPreprocess(m: string, respond: Call -> Reply, argument: string, jobType: string, env: Value)
    ensures Task(UTask, m).Run(respond, argument, jobType, env).calls == [TworkerPreprocess(m, argument, jobType, env)]
    ensures Task(UTask, m).Run(respond, argument, jobType, env).reply.Returned? <==> respond(TworkerPreprocess(m, argument, jobType, env)).Returned?
  {
  }

  /**
   * `UTaskLocalPreprocessAndMain`: a `None` from preprocess ends the task;
   * otherwise main gets the first element of the pair and postprocess never runs here.
   */
  lemma PreprocessAndMainHandsOverUrl(m: string, respond: Call -> Reply, argument: string, jobType: string, env: Value)
    ensures var pre := TworkerPreprocess(m, argument, jobType, env);
            var run := Task(UTaskLocalPreprocessAndMain, m).Run(respond, argument, jobType, env);
            && (respond(pre) == Returned(VNone) ==> run == Outcome([pre], Returned(VNone)))
            && (respond(pre).Raises? ==> run == Outcome([pre], respond(pre)))
            && (forall url, path :: respond(pre) == Returned(VList([url, path])) ==>
                  run.calls == [pre, UworkerMain(url)])
            && (forall p :: UworkerMain(p) in run.calls ==> respond(pre).Returned? && respond(pre).value != VNone)
            && (forall c :: c in run.calls ==> !c.TworkerPostprocess?)
  {
  }

  /**
   * The local executor: a `None` from preprocess stops before main, a `None`
   * from main stops before postprocess, an exception stops where it is
   * raised, and each later phase gets the earlier phases' results.
   */
  lemma LocalExecutorChainsResults(m: string, respond: Call -> Reply, argument: string, jobType: string, env: Value)
    ensures var run := Task(UTaskLocalExecutor, m).Run(respond, argument, jobType, env);
            && 1 <= |run.calls| <= 3
            && run.calls[0] == TworkerPreprocessNoIo(m, argument, jobType, env)
            && (|run.calls| >= 2 ==> run.calls[1] == UworkerMainNoIo(m, respond(run.calls[0]).value))
            && (|run.calls| == 3 ==> run.calls[2] == TworkerPostprocessNoIo(m, respond(run.calls[1]).value, respond(run.calls[0]).value))
            && (|run.calls| < 3 ==> run.reply == ReturnNone(respond(run.calls[|run.calls| - 1])))
    ensures var pre := TworkerPreprocessNoIo(m, argument, jobType, env);
            var run := Task(UTaskLocalExecutor, m).Run(respond, argument, jobType, env);
            && ((respond(pre).Raises? || respond(pre) == Returned(VNone)) <==> |run.calls| == 1)
            && (respond(pre) == Returned(VNone) ==> run == Outcome([pre], Returned(VNone)))
            && (respond(pre).Raises? ==> run == Outcome([pre], respond(pre)))
    ensures var pre := TworkerPreprocessNoIo(m, argument, jobType, env);
            var run := Task(UTaskLocalExecutor, m).Run(respond, argument, jobType, env);
            forall input :: respond(pre) == Returned(input) && input != VNone ==>
              var main := UworkerMainNoIo(m, input);
              && ((respond(main).Raises? || respond(main) == Returned(VNone)) <==> |run.calls| == 2)
              && (respond(main) == Returned(VNone) ==> run == Outcome([pre, main], Returned(VNone)))
              && (respond(main).Raises? ==> run == Outcome([pre, main], respond(main)))
  {
  }

  /** Instances of the postprocess and uworker-main classes do not depend on the module given to the constructor. */
  lemma SinglePhaseInstancesIgnoreModule(cls: TaskClass, m: string, m': string, respond: Call -> Reply,
                                         argument: string, jobType: string, env: Value)
    requires cls.PostprocessTask? || cls.UworkerMainTask?
    ensures Instantiate(cls, m) == Instantiate(cls, m')
    ensures Instantiate(cls, m).Run(respond, argument, jobType, env).calls ==
            [if cls.PostprocessTask? then TworkerPostprocess(VStr(argument)) else UworkerMain(VStr(argument))]
  {
  }

  // ---------------------------------------------------------------------------
  // Properties of the registry queries

  /** `is_trusted_portion_of_utask` holds exactly for `UTask` and `PostprocessTask` entries. */
  lemma IsTrustedPortionExact(commandTypes: seq<(string, TaskClass)>, i: nat)
    requires DistinctNames(commandTypes) && i < |commandTypes|
    ensures IsTrustedPortionOfUtaskIn(commandTypes, commandTypes[i].0) ==
            Success(commandTypes[i].1 == UTask || commandTypes[i].1 == PostprocessTask)
  {
    LookupEntry(commandTypes, i);
  }

  /** In a table whose only trusted-portion entry is the only one named `commandTypes[j].0`, the query singles out that name. */
  lemma TrustedPortionSingleEntry(commandTypes: seq<(string, TaskClass)>, j: nat, taskName: string)
    requires j < |commandTypes|
    requires forall i :: 0 <= i < |commandTypes| ==> (TrustedPortion(commandTypes[i].1) <==> i == j)
    requires forall i :: 0 <= i < |commandTypes| ==> (commandTypes[i].0 == commandTypes[j].0 <==> i == j)
    ensures IsTrustedPortionOfUtaskIn(commandTypes, taskName) == Success(true) <==> taskName == commandTypes[j].0
  {
    assert Names(commandTypes)[j] == commandTypes[j].0;
    if taskName in Names(commandTypes) {
      var cls := Lookup(commandTypes, taskName).value;
      var i :| 0 <= i < |commandTypes| && commandTypes[i] == (taskName, cls);
    }
  }

  /** In the shipped table `uworker_postprocess` names the eleventh entry only, and only that entry has a trusted-portion class. */
  lemma ShippedTableEntries()
    ensures CommandTypes[10].0 == "uworker_postprocess"
    ensures forall i :: 0 <= i < |CommandTypes| ==> (TrustedPortion(CommandTypes[i].1) <==> i == 10)
    ensures forall i :: 0 <= i < |CommandTypes| ==> (CommandTypes[i].0 == "uworker_postprocess" <==> i == 10)
  {
    forall i | 0 <= i < |CommandTypes|
      ensures TrustedPortion(CommandTypes[i].1) <==> i == 10
      ensures CommandTypes[i].0 == "uworker_postprocess" <==> i == 10
    {
      assert i < 14;
    }
  }

  /** On the shipped table, the only trusted portion is `uworker_postprocess`. */
  lemma ShippedTrustedPortion(taskName: string)
    ensures IsTrustedPortionOfUtask(taskName) == Success(true) <==> taskName == "uworker_postprocess"
  {
    ShippedTableEntries();
    TrustedPortionSingleEntry(CommandTypes, 10, taskName);
  }

  /** As written, the comprehension raises KeyError on any non-empty table. */
  lemma AsWrittenRaisesKeyError(commandTypes: seq<(string, TaskClass)>)
    requires commandTypes != []
    ensures GetUtaskTrustedPortionsAsWritten(commandTypes) == Failure(KeyError)
  {
  }

  /** The shipped table makes the as-written `get_utask_trusted_portions()` raise. */
  lemma ShippedAsWrittenRaises()
    ensures GetUtaskTrustedPortionsAsWritten(CommandTypes) == Failure(KeyError)
  {
    AsWrittenRaisesKeyError(CommandTypes);
  }

  /** The intended comprehension keeps exactly the trusted-portion names, in table order. */
  lemma {:induction false} TrustedPortionsAmongFilters(commandTypes: seq<(string, TaskClass)>, names: seq<string>)
    requires forall n :: n in names ==> n in Names(commandTypes)
    ensures TrustedPortionsAmong(commandTypes, names).Success?
    ensures forall n :: n in TrustedPortionsAmong(commandTypes, names).value <==>
                        n in names && IsTrustedPortionOfUtaskIn(commandTypes, n) == Success(true)
    ensures Subsequence(TrustedPortionsAmong(commandTypes, names).value, names)
  {
    if names != [] {
      TrustedPortionsAmongFilters(commandTypes, names[1..]);
      SubsequenceOfTail(TrustedPortionsAmong(commandTypes, names[1..]).value, names);
    }
  }

  /** `get_utask_trusted_portions()` as intended: the names whose class is a trusted portion, in table order. */
  lemma GetUtaskTrustedPortionsExact(commandTypes: seq<(string, TaskClass)>)
    ensures GetUtaskTrustedPortionsIn(commandTypes).Success?
    ensures forall n :: n in GetUtaskTrustedPortionsIn(commandTypes).value <==>
                        n in Names(commandTypes) && IsTrustedPortionOfUtaskIn(commandTypes, n) == Success(true)
    ensures Subsequence(GetUtaskTrustedPortionsIn(commandTypes).value, Names(commandTypes))
  {
    TrustedPortionsAmongFilters(commandTypes, Names(commandTypes));
  }

  /** A list of names only one of which is accepted: the comprehension keeps exactly that one. */
  lemma {:induction false} TrustedPortionsAmongSingle(commandTypes: seq<(string, TaskClass)>, names: seq<string>, j: nat)
    requires j < |names|
    requires forall i :: 0 <= i < |names| ==> IsTrustedPortionOfUtaskIn(commandTypes, names[i]).Success?
    requires forall i :: 0 <= i < |names| ==> (IsTrustedPortionOfUtaskIn(commandTypes, names[i]) == Success(true) <==> i == j)
    ensures TrustedPortionsAmong(commandTypes, names) == Success([names[j]])
  {
    var tail := names[1..];
    if j == 0 {
      forall i | 0 <= i < |tail|
        ensures IsTrustedPortionOfUtaskIn(commandTypes, tail[i]) == Success(false)
      {
        assert tail[i] == names[i + 1];
      }
      TrustedPortionsAmongNone(commandTypes, tail);
      assert IsTrustedPortionOfUtaskIn(commandTypes, names[0]) == Success(true);
      assert [names[0]] + [] == [names[j]];
    } else {
      forall i | 0 <= i < |tail|
        ensures IsTrustedPortionOfUtaskIn(commandTypes, tail[i]).Success?
        ensures IsTrustedPortionOfUtaskIn(commandTypes, tail[i]) == Success(true) <==> i == j - 1
      {
        assert tail[i] == names[i + 1];
      }
      TrustedPortionsAmongSingle(commandTypes, tail, j - 1);
      assert tail[j - 1] == names[j];
      assert IsTrustedPortionOfUtaskIn(commandTypes, names[0]) == Success(false);
    }
  }

  /** A list of names none of which is accepted: the comprehension is empty. */
  lemma {:induction false} TrustedPortionsAmongNone(commandTypes: seq<(string, TaskClass)>, names: seq<string>)
    requires forall i :: 0 <= i < |names| ==> IsTrustedPortionOfUtaskIn(commandTypes, names[i]) == Success(false)
    ensures TrustedPortionsAmong(commandTypes, names) == Success([])
  {
    if names != [] {
      assert forall i :: 0 <= i < |names| - 1 ==> names[1..][i] == names[i + 1];
      TrustedPortionsAmongNone(commandTypes, names[1..]);
    }
  }

  /** A table whose only trusted-portion entry is the only one named `commandTypes[j].0`: the query returns exactly that name. */
  lemma GetUtaskTrustedPortionsSingle(commandTypes: seq<(string, TaskClass)>, j: nat)
    requires j < |commandTypes|
    requires forall i :: 0 <= i < |commandTypes| ==> (TrustedPortion(commandTypes[i].1) <==> i == j)
    requires forall i :: 0 <= i < |commandTypes| ==> (commandTypes[i].0 == commandTypes[j].0 <==> i == j)
    ensures GetUtaskTrustedPortionsIn(commandTypes) == Success([commandTypes[j].0])
  {
    var names := Names(commandTypes);
    forall i | 0 <= i < |names|
      ensures IsTrustedPortionOfUtaskIn(commandTypes, names[i]).Success?
      ensures IsTrustedPortionOfUtaskIn(commandTypes, names[i]) == Success(true) <==> i == j
    {
      assert names[i] in names;
      TrustedPortionSingleEntry(commandTypes, j, names[i]);
    }
    TrustedPortionsAmongSingle(commandTypes, names, j);
  }

  /** On the shipped table the intended query returns `['uworker_postprocess']`. */
  lemma ShippedTrustedPortions()
    ensures GetUtaskTrustedPortions() == Success(["uworker_postprocess"])
  {
    ShippedTableEntries();
    GetUtaskTrustedPortionsSingle(CommandTypes, 10);
  }
}
