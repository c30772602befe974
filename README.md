# ClusterFuzz task dispatch, modelled in Dafny

This project models the part of a ClusterFuzz bot that turns a task name into
an execution strategy and runs that strategy's phases. It also models the data
handed between the trusted and the untrusted halves of a task.

- **Strategies.** `TrustedTask`, `UTask`, `UTaskLocalExecutor`,
  `UTaskLocalPreprocessAndMain`, `PostprocessTask`, `UworkerMainTask` and the
  older `UntrustedTask` are datatypes. Each has a function `Run` that gives the
  calls it makes into code outside the model and how it ends. Each also has a
  method `Execute` that makes those calls one by one through a `Host`, the
  stand-in for the phase functions, storage and the datastore. The `Host`
  records every call in a trace. Lemmas about `Run` say which phases run, in
  what order and with which arguments.
- **Registries.** `COMMAND_MAP` (in `bot/tasks/__init__.py` and again in
  `bot/tasks/commands.py`) and `COMMAND_TYPES` are ordered tables. Over them the
  model defines the classification queries `is_multimachine_executed`,
  `get_multimachine_tasks`, `is_trusted_portion_of_utask` and
  `get_utask_trusted_portions`.
- **Dispatcher control logic** (`commands.py`). It covers:
  - `run_command` and its task-status bookkeeping;
  - `should_update_task_status`;
  - `is_supported_cpu_arch_for_job`;
  - `update_environment_for_job`, on a `ProcessEnvironment` object whose
    variables it changes in place;
  - the filter `process_command` applies to a fuzzer's additional environment
    lines.
- **Handoff serialisation** (`bot/tasks/utasks/uworker_io.py`). It covers:
  - the I/O path and its collision check;
  - splitting the input and output dicts into `serializable` and `entities`;
  - dropping datetime properties;
  - adding `job_type` and the output URL;
  - rebuilding the dicts on the other side, including applying the recorded
    changes to stored entities.

  `commands.py` holds identical copies of `make_ndb_entity_input_obj_serializable`,
  `serialize_uworker_input` and `serialize_and_upload_uworker_input`. The model
  has one definition of each, and the table below cites one of the two copies
  per member.
- **`UworkerEntityWrapper`.** This class forwards reads to the wrapped entity.
  It writes through to the entity and logs each write in the entity's
  `_wrapped_changed_attributes` dict. The central invariant is that after any
  sequence of writes, the log maps each attribute written to its last written
  value.

A serialised payload is modelled by the JSON document it encodes. `json.dumps`
fails with TypeError on anything that is not JSON data. The base64 encoding of
a serialised ndb key is modelled as a pair of functions (`KeyCodec`). The round
trips assume decode inverts encode.

Modules, one per file:
- `Wrappers`: Option and Result.
- `PyValues`: Python values, keys and exceptions.
- `Collaborators`: calls, replies and the `Host`.
- `Registry`: ordered tables.
- `TasksInit`: `__init__.py`.
- `TaskTypes`: `task_types.py`.
- `Commands`: the strategies, `run_command` and the status logic of
  `commands.py`.
- `JobEnvironment`: the environment handling of `commands.py`.
- `FuzzerEnvironment`: the additional-environment filter.
- `EntityWrapper`: the wrapper.
- `UworkerIo`: serialisation and deserialisation.

Where the system's design documentation and its code disagree, the model follows the code:
- The documentation says dispatching an unregistered name raises an "unknown task" error. `run_command` logs the name and returns `None`, and `Commands.UnknownCommandRunsNothing` states that.
- The documentation asks for parity between the distributed and the in-memory untrusted strategy. In the code the live `UTask` of `__init__.py` runs preprocess and main only, and the `UTask` of `task_types.py` runs preprocess only. The in-memory executor runs all three phases. The lemmas state each strategy as written.
- `__init__.py` defines `UTask` twice. Python binds the name to the second definition, so that one is modelled.

## Model

| member | source | states |
|---|---|---|
| Collaborators.Unpack2 | src/clusterfuzz/_internal/bot/tasks/__init__.py:92 | `first, second = v` succeeds exactly for a two-element list or tuple, giving its items, and for a two-character string, giving its characters; another length, or a dict of another size, is ValueError; a value that is not iterable is TypeError |
| Collaborators.Host.Invoke | src/clusterfuzz/_internal/bot/tasks/__init__.py:47-111 | a call into a collaborator is appended to the trace, nothing else is recorded, and the call ends with the reply the host gives for it |
| Registry.Lookup | src/clusterfuzz/_internal/bot/tasks/__init__.py:172 | `COMMAND_MAP[name]` succeeds exactly when the name is in the table, with an entry bound to it, and is a KeyError otherwise |
| Registry.LookupEntry | src/clusterfuzz/_internal/bot/tasks/__init__.py:150-166 | in a table without repeated names every entry is what its name looks up |
| TasksInit.Task.Execute | src/clusterfuzz/_internal/bot/tasks/__init__.py:47-147 | each strategy's `execute` makes exactly the calls of its specification `Run`, in order, and ends with its reply |
| TasksInit.UtaskFactory | src/clusterfuzz/_internal/bot/tasks/__init__.py:53-62 | the factory keeps the module and builds the in-memory executor iff `in_memory`, the distributed `UTask` otherwise |
| TasksInit.IsMultimachineExecutedIn | src/clusterfuzz/_internal/bot/tasks/__init__.py:169-173 | KeyError iff the name is not registered; otherwise true iff the entry is a `UTask` |
| TasksInit.GetMultimachineTasksIn | src/clusterfuzz/_internal/bot/tasks/__init__.py:176-182 | the comprehension over the map's names; `TasksInit.GetMultimachineTasksExact` states that it lists exactly the `UTask` names in registry order and never fails |
| TasksInit.TrustedTaskExecutesOnce | src/clusterfuzz/_internal/bot/tasks/__init__.py:47-50 | a trusted task calls `execute_task(argument, job_type)` once and nothing else, whatever `uworker_env` is |
| TasksInit.UtaskFactoryChoosesExecutor | src/clusterfuzz/_internal/bot/tasks/__init__.py:53-62 | the default gives `UTaskLocalExecutor`, `in_memory=False` gives `UTask` |
| TasksInit.UTaskMainFollowsPreprocess | src/clusterfuzz/_internal/bot/tasks/__init__.py:84-93 | preprocess runs first; preprocess returning `None` ends the task with `None`; a pair sends its first component to `uworker_main`; main never runs unless preprocess returned a non-`None` value |
| TasksInit.UTaskNeverPostprocesses | src/clusterfuzz/_internal/bot/tasks/__init__.py:80-94 | the live `UTask` never calls a postprocess phase |
| TasksInit.LocalExecutorPipeline | src/clusterfuzz/_internal/bot/tasks/__init__.py:101-111 | `None` from preprocess stops before main; `None` from main stops before postprocess; otherwise postprocess gets `(uworker_output, uworker_input)` |
| TasksInit.LocalExecutorPhaseOrder | src/clusterfuzz/_internal/bot/tasks/__init__.py:101-111 | whatever the replies, the calls are a prefix of preprocess, main, postprocess |
| TasksInit.LocalExecutorPropagatesFaults | src/clusterfuzz/_internal/bot/tasks/__init__.py:103-106 | an exception from preprocess is the task's outcome and no later phase runs |
| TasksInit.SinglePhaseTasksPassArgument | src/clusterfuzz/_internal/bot/tasks/__init__.py:122-147 | the postprocess and uworker-main tasks pass the argument unchanged as the path and do not depend on job type or environment |
| TasksInit.MultimachineExactlyForUTask | src/clusterfuzz/_internal/bot/tasks/__init__.py:169-173 | for every registered entry of a table without repeated names, the query answers whether the entry is a `UTask` |
| TasksInit.MultimachineAmongFilters | src/clusterfuzz/_internal/bot/tasks/__init__.py:179-182 | the comprehension succeeds and keeps exactly the visited names the predicate accepts, as a subsequence |
| TasksInit.GetMultimachineTasksExact | src/clusterfuzz/_internal/bot/tasks/__init__.py:176-182 | `get_multimachine_tasks()` lists exactly the accepted names, in registry order |
| TasksInit.NoUTaskNoneAmong | src/clusterfuzz/_internal/bot/tasks/__init__.py:179-182 | over a table with no `UTask` the comprehension is empty |
| TasksInit.NoUTaskNoMultimachine | src/clusterfuzz/_internal/bot/tasks/__init__.py:169-182 | a table with no `UTask` has no multi-machine name and an empty list |
| TasksInit.ShippedMapHasNoUTask | src/clusterfuzz/_internal/bot/tasks/__init__.py:150-166 | built with the default factory, no entry of the shipped map is a `UTask` |
| TasksInit.ShippedMapHasNoMultimachineTasks | src/clusterfuzz/_internal/bot/tasks/__init__.py:150-182 | on the shipped map no name is multi-machine and `get_multimachine_tasks()` is empty |
| TasksInit.MixedRegistryListsDistributedOnly | src/clusterfuzz/_internal/bot/tasks/__init__.py:169-182 | a table with a trusted, a distributed and an in-memory task lists only the distributed one |
| TaskTypes.Task.Execute | src/clusterfuzz/_internal/bot/tasks/task_types.py:36-126 | each class's `execute` makes exactly the calls of its specification `Run`, in order, and ends with its reply |
| TaskTypes.Instantiate | src/clusterfuzz/_internal/bot/tasks/task_types.py:94-118 | the postprocess and uworker-main constructors discard their module and store `'none'`; the others keep it |
| TaskTypes.IsTrustedPortionOfUtaskByKey | src/clusterfuzz/_internal/bot/tasks/task_types.py:148-154 | indexing with a class is always a KeyError; a name is a KeyError iff unregistered |
| TaskTypes.IsTrustedPortionOfUtaskIn | src/clusterfuzz/_internal/bot/tasks/task_types.py:148-154 | asking by name fails exactly when the name is not in `COMMAND_TYPES`, and then with KeyError |
| TaskTypes.UTaskRunsOnlyPreprocess | src/clusterfuzz/_internal/bot/tasks/task_types.py:46-54 | this file's `UTask` calls only `tworker_preprocess` and fails only if that raises |
| TaskTypes.PreprocessAndMainHandsOverUrl | src/clusterfuzz/_internal/bot/tasks/task_types.py:61-71 | `None` from preprocess ends the task with `None`; an exception from preprocess is the outcome and nothing follows; a pair sends its first component to `uworker_main`; main runs only after a non-`None` preprocess result; postprocess never runs |
| TaskTypes.LocalExecutorChainsResults | src/clusterfuzz/_internal/bot/tasks/task_types.py:78-88 | phases run in order and each later phase gets the earlier results; the task stops after preprocess exactly when it raises or returns `None`, and after main exactly when main raises or returns `None`; a `None` ends the task with `None`, an exception is the outcome |
| TaskTypes.SinglePhaseInstancesIgnoreModule | src/clusterfuzz/_internal/bot/tasks/task_types.py:91-126 | instances of the postprocess and uworker-main classes are the same whatever module is passed, and make the single call with the argument as path |
| TaskTypes.IsTrustedPortionExact | src/clusterfuzz/_internal/bot/tasks/task_types.py:148-154 | for each registered entry the query is true iff its class is `UTask` or `PostprocessTask` |
| TaskTypes.TrustedPortionSingleEntry | src/clusterfuzz/_internal/bot/tasks/task_types.py:148-154 | with exactly one trusted-portion entry, exactly its name is accepted |
| TaskTypes.ShippedTableEntries | src/clusterfuzz/_internal/bot/tasks/task_types.py:129-145 | in the shipped table only `uworker_postprocess` has a trusted-portion class, and the name occurs once |
| TaskTypes.ShippedTrustedPortion | src/clusterfuzz/_internal/bot/tasks/task_types.py:129-154 | on the shipped table the query is true exactly for `uworker_postprocess` |
| TaskTypes.AsWrittenRaisesKeyError | src/clusterfuzz/_internal/bot/tasks/task_types.py:157-161 | as written, passing classes to the name lookup raises KeyError on any non-empty table |
| TaskTypes.ShippedAsWrittenRaises | src/clusterfuzz/_internal/bot/tasks/task_types.py:157-161 | as written, `get_utask_trusted_portions()` raises KeyError on the shipped table |
| TaskTypes.TrustedPortionsAsWritten | src/clusterfuzz/_internal/bot/tasks/task_types.py:157-161 | the comprehension as written, which asks about each entry's class; `TaskTypes.AsWrittenRaisesKeyError` states that it raises KeyError on the first entry |
| TaskTypes.GetUtaskTrustedPortionsAsWritten | src/clusterfuzz/_internal/bot/tasks/task_types.py:157-161 | as written, `get_utask_trusted_portions()` gives `[]` on an empty table and raises KeyError on every other |
| TaskTypes.TrustedPortionsAmongFilters | src/clusterfuzz/_internal/bot/tasks/task_types.py:157-161 | the intended comprehension succeeds and keeps exactly the accepted names, as a subsequence |
| TaskTypes.GetUtaskTrustedPortionsExact | src/clusterfuzz/_internal/bot/tasks/task_types.py:157-161 | the intended query lists exactly the names the predicate accepts, in table order |
| TaskTypes.GetUtaskTrustedPortionsSingle | src/clusterfuzz/_internal/bot/tasks/task_types.py:157-161 | on a table with one trusted-portion entry whose name occurs once, the intended query gives exactly that name |
| TaskTypes.ShippedTrustedPortions | src/clusterfuzz/_internal/bot/tasks/task_types.py:129-161 | on the shipped table the intended query gives `['uworker_postprocess']` |
| Commands.CommandTask.Execute | src/clusterfuzz/_internal/bot/tasks/commands.py:64-278 | each strategy's `execute` makes exactly the calls of its specification `Run`, in order, and ends with its reply |
| Commands.ExecuteRemainder | src/clusterfuzz/_internal/bot/tasks/commands.py:265-278 | the upload, download, main, upload, download and postprocess steps make exactly the calls of their specification, stopping at the first exception |
| Commands.UntrustedRemainder | src/clusterfuzz/_internal/bot/tasks/commands.py:263-278 | the steps of `UntrustedTask.execute` after preprocess, as a specification; `Commands.ExecuteRemainder`, `Commands.RemainderShape` and `Commands.UntrustedHappyPath` state what they do |
| Commands.ShouldUpdateTaskStatus | src/clusterfuzz/_internal/bot/tasks/commands.py:399-410 | false exactly for `fuzz` and `corpus_pruning` |
| Commands.RunCommand | src/clusterfuzz/_internal/bot/tasks/commands.py:424-460 | `run_command` makes exactly the calls of its specification and ends with its reply |
| Commands.RunCommandIn | src/clusterfuzz/_internal/bot/tasks/commands.py:424-460 | the specification of `run_command`; `Commands.UnknownCommandRunsNothing`, `Commands.RunCommandRunsTaskFirst`, `Commands.RunCommandOnSuccess`, `Commands.RunCommandInvalidTestcaseFinishes` and `Commands.RunCommandOnOtherError` state its cases |
| Commands.RemainderShape | src/clusterfuzz/_internal/bot/tasks/commands.py:265-278 | at most six calls; the input upload comes first; no status update; postprocess comes only sixth, after `uworker_execute` |
| Commands.StrategiesNeverUpdateStatus | src/clusterfuzz/_internal/bot/tasks/commands.py:64-278 | no strategy of the file writes a task status itself |
| Commands.TrustedTaskCallsOnce | src/clusterfuzz/_internal/bot/tasks/commands.py:66-67 | one call `execute_task(argument, job_type, None)`; the environment plays no part |
| Commands.UntrustedStopsOnFalsyInput | src/clusterfuzz/_internal/bot/tasks/commands.py:258-261 | a falsy preprocess result returns `False`, and nothing is uploaded, executed or postprocessed |
| Commands.UntrustedHappyPath | src/clusterfuzz/_internal/bot/tasks/commands.py:256-278 | when every step returns, the eight calls happen in order, each result flows to the next step, and the task returns postprocess's result |
| Commands.UntrustedPostprocessNeedsExecute | src/clusterfuzz/_internal/bot/tasks/commands.py:269-278 | postprocess is at most the last call and always comes after `uworker_execute` |
| Commands.ShippedMapEntries | src/clusterfuzz/_internal/bot/tasks/commands.py:281-294 | in this file's map only `analyze` is untrusted |
| Commands.UnknownCommandRunsNothing | src/clusterfuzz/_internal/bot/tasks/commands.py:426-428 | an unknown name makes no call and returns `None` |
| Commands.RunCommandRunsTaskFirst | src/clusterfuzz/_internal/bot/tasks/commands.py:430-443 | the name's strategy runs first, with argument and job name; at most one call follows |
| Commands.RunCommandOnSuccess | src/clusterfuzz/_internal/bot/tasks/commands.py:457-460 | on success the only status update is FINISHED for `"<name> <argument> <job>"`, made iff the status should be updated; the result fails only if that update raises |
| Commands.RunCommandInvalidTestcaseFinishes | src/clusterfuzz/_internal/bot/tasks/commands.py:442-460 | after an `InvalidTestcaseError`, which is only logged, exactly one FINISHED update is made iff `should_update_task_status`, never ERROR, and `run_command` ends as that update ends |
| Commands.RunCommandOnOtherError | src/clusterfuzz/_internal/bot/tasks/commands.py:449-455 | any other exception records ERROR iff the status should be updated (never FINISHED) and is re-raised, unless the update raises first |
| Commands.ParallelTasksNeverUpdated | src/clusterfuzz/_internal/bot/tasks/commands.py:399-460 | `fuzz` and `corpus_pruning` never get a status update, whatever happens |
| JobEnvironment.InPyList | src/clusterfuzz/_internal/bot/tasks/commands.py:340-342 | `x in list(v)`: a string lists its characters, a list its items; a non-iterable is a TypeError |
| JobEnvironment.GetIn | src/clusterfuzz/_internal/bot/tasks/commands.py:335 | `environment.get_value`: an unset variable reads `None`, a stored string reads as its evaluation, any other stored value reads back as itself |
| JobEnvironment.ProcessEnvironment.SetValue | src/clusterfuzz/_internal/bot/tasks/commands.py:351 | `environment.set_value` stores the value under the key, after which the key reads that value and every other key reads as before |
| JobEnvironment.IsSupportedCpuArchForJob | src/clusterfuzz/_internal/bot/tasks/commands.py:327-342 | no arch or no requirement accepts; a single string requirement accepts exactly that arch; a list accepts its members |
| JobEnvironment.IsSupportedCpuArchAsWritten | src/clusterfuzz/_internal/bot/tasks/commands.py:327-342 | as written: no arch or no requirement accepts; a string requirement accepts only a one-character arch found among its characters; a list accepts its members |
| JobEnvironment.CpuArchChecksAgreeOnLists | src/clusterfuzz/_internal/bot/tasks/commands.py:334-342 | where the requirement is not a single string, the written and the intended checks agree |
| JobEnvironment.CpuArchSingleStringRejected | src/clusterfuzz/_internal/bot/tasks/commands.py:339-342 | as written, a job naming the bot's multi-character arch as a string rejects that bot |
| JobEnvironment.CpuArchX8664Example | src/clusterfuzz/_internal/bot/tasks/commands.py:339-342 | `CPU_ARCH = x86_64` rejects an x86_64 bot as written and accepts it as intended |
| JobEnvironment.JobValues | src/clusterfuzz/_internal/bot/tasks/commands.py:348-351 | the job's variables, each stored as its string |
| JobEnvironment.SetJobVariables | src/clusterfuzz/_internal/bot/tasks/commands.py:350-351 | after the loop the environment is the old one overridden by every job variable |
| JobEnvironment.UpdateEnvironmentSpec | src/clusterfuzz/_internal/bot/tasks/commands.py:345-377 | the new process environment, `uworker_env` and forwarded map of `update_environment_for_job`; `JobEnvironment.UworkerEnvCarriesJobVariables`, the override lemmas and `JobEnvironment.TrustedHostOnlyForwards` state what they hold |
| JobEnvironment.UpdateEnvironmentForJob | src/clusterfuzz/_internal/bot/tasks/commands.py:345-377 | the in-place updates leave the environment, the returned `uworker_env` and the forwarded map of `UpdateEnvironmentSpec` |
| JobEnvironment.UworkerEnvCarriesJobVariables | src/clusterfuzz/_internal/bot/tasks/commands.py:348-370 | `uworker_env` holds the job's variables plus only the three override targets; other variables of the process environment are untouched |
| JobEnvironment.TimeoutOverrideCopied | src/clusterfuzz/_internal/bot/tasks/commands.py:361-365 | a truthy `FUZZ_TEST_TIMEOUT_OVERRIDE` lands in both environments; a falsy one changes neither |
| JobEnvironment.MaxTestcasesOverrideCopied | src/clusterfuzz/_internal/bot/tasks/commands.py:367-370 | a truthy `MAX_TESTCASES_OVERRIDE` lands in both environments; a falsy one changes neither |
| JobEnvironment.SharedBuildForcesCustomBinary | src/clusterfuzz/_internal/bot/tasks/commands.py:355-357 | sharing a build sets `CUSTOM_BINARY` to True in the process and to `'True'` in `uworker_env` |
| JobEnvironment.TrustedHostOnlyForwards | src/clusterfuzz/_internal/bot/tasks/commands.py:372-377 | a trusted host changes only what is forwarded: the job's variables plus `JOB_NAME` |
| FuzzerEnvironment.IsJobSpecificMeans | src/clusterfuzz/_internal/bot/tasks/commands.py:595 | a line is job-specific iff it has a `=` and a `:` before its first `=` |
| FuzzerEnvironment.JobSpecificSplit | src/clusterfuzz/_internal/bot/tasks/commands.py:596 | a job-specific line is its job prefix (no `:` and no `=`), a `:`, and its definition |
| FuzzerEnvironment.AppendFuzzerEnvironment | src/clusterfuzz/_internal/bot/tasks/commands.py:587-604 | the environment string gains the default lines, then this job's definitions, each after a newline and in input order |
| FuzzerEnvironment.FilterStep | src/clusterfuzz/_internal/bot/tasks/commands.py:591-601 | one more line extends exactly one of the two accumulations, or neither when it names another job |
| FuzzerEnvironment.DefaultLinesExact | src/clusterfuzz/_internal/bot/tasks/commands.py:595-601 | a line applies to every job iff it is not job-specific |
| FuzzerEnvironment.JobLinesExact | src/clusterfuzz/_internal/bot/tasks/commands.py:595-598 | a definition is added iff some job-specific line names this job and carries it |
| FuzzerEnvironment.OtherJobsIgnored | src/clusterfuzz/_internal/bot/tasks/commands.py:596-599 | a line for another job contributes nothing to either accumulation |
| FuzzerEnvironment.ExampleDefaultLine | src/clusterfuzz/_internal/bot/tasks/commands.py:601 | `A = 1` is a default line |
| FuzzerEnvironment.ExampleLineForThisJob | src/clusterfuzz/_internal/bot/tasks/commands.py:595-598 | `job1:B = 2` gives `B = 2` for `job1` |
| FuzzerEnvironment.ExampleLineForOtherJob | src/clusterfuzz/_internal/bot/tasks/commands.py:595-599 | `job2:C = 3` is dropped for `job1` |
| FuzzerEnvironment.ExampleColonAfterEquals | src/clusterfuzz/_internal/bot/tasks/commands.py:595 | `D = x:y` is a default line, since its `:` follows its `=` |
| FuzzerEnvironment.FilterExampleThisJob | src/clusterfuzz/_internal/bot/tasks/commands.py:591-604 | a default line and a line for this job split into `["A = 1"]` and `["B = 2"]` |
| FuzzerEnvironment.FilterExampleOtherJob | src/clusterfuzz/_internal/bot/tasks/commands.py:591-604 | a line for another job and a default line give `["D = x:y"]` and nothing for the job |
| EntityWrapper.SetAttr | src/clusterfuzz/_internal/bot/tasks/utasks/uworker_io.py:225-231 | a write is logged, then made: the attribute reads back the value, the log gains it, nothing else changes; a log that is neither `None` nor a dict is a TypeError |
| EntityWrapper.InitLog | src/clusterfuzz/_internal/bot/tasks/utasks/uworker_io.py:212-214 | the entity gets a dict log, keeps an existing one, and no other attribute changes |
| EntityWrapper.LastWritesDomain | src/clusterfuzz/_internal/bot/tasks/utasks/uworker_io.py:229 | exactly the attributes written have a last write |
| EntityWrapper.ReplayLogsLastWrites | src/clusterfuzz/_internal/bot/tasks/utasks/uworker_io.py:225-229 | after any writes the log is what it held before plus each written attribute's last value |
| EntityWrapper.ReplayWritesLastValues | src/clusterfuzz/_internal/bot/tasks/utasks/uworker_io.py:219-231 | each written attribute reads back its last write; every unwritten attribute is unchanged |
| EntityWrapper.LogIsLastWrites | src/clusterfuzz/_internal/bot/tasks/utasks/uworker_io.py:219-231 | from a fresh wrapper, the change log is exactly the last write of each attribute |
| EntityWrapper.UnchangedWriteIsRecorded | src/clusterfuzz/_internal/tests/core/bot/tasks/utasks/uworker_io_test.py:67-69 | writing the value an attribute already has is still logged |
| EntityWrapper.TrackingExample | src/clusterfuzz/_internal/tests/core/bot/tasks/utasks/uworker_io_test.py:64-73 | setting `a`, `b`, `c` to 1 on an entity with `a == 1` logs all three |
| EntityWrapper.UnwrittenLogMissing | src/clusterfuzz/_internal/bot/tasks/utasks/uworker_io.py:212-214 | as written, an unwritten wrapper's `_wrapped_changed_attributes` raises AttributeError |
| EntityWrapper.UnwrittenLogEmpty | src/clusterfuzz/_internal/tests/core/bot/tasks/utasks/uworker_io_test.py:57-62 | corrected, an unwritten wrapper's log reads `{}` |
| EntityWrapper.UworkerEntityWrapper.AsWritten | src/clusterfuzz/_internal/bot/tasks/utasks/uworker_io.py:212-214 | the written `__init__` stores the entity and changes nothing on it |
| EntityWrapper.UworkerEntityWrapper.constructor | src/clusterfuzz/_internal/bot/tasks/utasks/uworker_io.py:212-214 | the corrected `__init__` stores the entity and gives it an empty log unless it has one |
| EntityWrapper.UworkerEntityWrapper.Get | src/clusterfuzz/_internal/bot/tasks/utasks/uworker_io.py:216-217 | a read gives the entity's attribute, or AttributeError when the entity lacks it; being a function, it changes nothing |
| EntityWrapper.UworkerEntityWrapper.ChangedAttributes | src/clusterfuzz/_internal/bot/tasks/utasks/uworker_io.py:164-165 | reading the log through the wrapper succeeds iff the entity has one |
| EntityWrapper.UworkerEntityWrapper.SetEntity | src/clusterfuzz/_internal/bot/tasks/utasks/uworker_io.py:220-224 | assigning `_entity` replaces the wrapped entity and logs nothing on either entity |
| EntityWrapper.UworkerEntityWrapper.Set | src/clusterfuzz/_internal/bot/tasks/utasks/uworker_io.py:219-231 | a write through the wrapper leaves the entity as `SetAttr` specifies, or TypeError with the entity unchanged |
| UworkerIo.GetUworkerIoGcsPath | src/clusterfuzz/_internal/bot/tasks/utasks/uworker_io.py:34-41 | RuntimeError naming the file iff the path exists already; otherwise a path not yet in storage |
| UworkerIo.GcsPathParts | src/clusterfuzz/_internal/bot/tasks/utasks/uworker_io.py:41 | the path is `/`, the bucket, `/`, the name |
| UworkerIo.GcsPathInjective | src/clusterfuzz/_internal/bot/tasks/utasks/uworker_io.py:34-41 | different names in one bucket give different paths |
| UworkerIo.GcsPathExample | src/clusterfuzz/_internal/tests/core/bot/tasks/utasks/uworker_io_test.py:97-99 | bucket `UWORKER_IO` and name `new-filename` give `/UWORKER_IO/new-filename` |
| UworkerIo.Dumps | src/clusterfuzz/_internal/bot/tasks/utasks/uworker_io.py:125 | the document is produced iff everything left in it is JSON data; otherwise TypeError |
| UworkerIo.MakeNdbEntityInputObjSerializable | src/clusterfuzz/_internal/bot/tasks/commands.py:117-129 | the deleting loop leaves the entity's key token and its properties without the datetime ones |
| UworkerIo.EntityInputDropsDatetimes | src/clusterfuzz/_internal/bot/tasks/utasks/uworker_io.py:72-84 | the record keeps exactly the non-datetime properties, unchanged |
| UworkerIo.SerializeUworkerInput | src/clusterfuzz/_internal/bot/tasks/commands.py:161-170 | the partitioning loop produces the document of entities and other values |
| UworkerIo.InputPartition | src/clusterfuzz/_internal/bot/tasks/utasks/uworker_io.py:116-125 | every input key lands in exactly one part; non-entities unchanged |
| UworkerIo.SerializeInput | src/clusterfuzz/_internal/bot/tasks/utasks/uworker_io.py:114-124 | serialisation fails only with TypeError, and a produced document splits back into the input's plain values and its entity records |
| UworkerIo.Augment | src/clusterfuzz/_internal/bot/tasks/utasks/uworker_io.py:137-140 | both fields are added with the given values iff both were absent; otherwise AssertionError with the first field kept when only the second check fails; other keys unchanged |
| UworkerIo.UworkerInput.AddRemainingFields | src/clusterfuzz/_internal/bot/tasks/commands.py:180-183 | the in-place asserts and assignments leave the dict and outcome `Augment` specifies |
| UworkerIo.UworkerInput.SerializeAndUpload | src/clusterfuzz/_internal/bot/tasks/utasks/uworker_io.py:132-144 | the fields are added, then the augmented dict is serialised; a failed assert serialises nothing |
| UworkerIo.EntityWithChangedProperties | src/clusterfuzz/_internal/bot/tasks/utasks/uworker_io.py:87-98 | succeeds iff the kind is known and every listed property is an attribute; listed properties get their values, the rest keep the model's defaults |
| UworkerIo.GetEntityWithChangedProperties | src/clusterfuzz/_internal/bot/tasks/utasks/uworker_io.py:94-97 | the checking and setting loop computes `EntityWithChangedProperties` |
| UworkerIo.DeserializeUworkerInput | src/clusterfuzz/_internal/bot/tasks/utasks/uworker_io.py:101-113 | succeeds iff every entity decodes, then gives the plain values plus a wrapper per entity; a failure is one of the possible errors |
| UworkerIo.InputParts | src/clusterfuzz/_internal/bot/tasks/utasks/uworker_io.py:101-103 | the document splits into its `serializable` and `entities` dicts exactly when it is a dict holding both as dicts; otherwise it fails |
| UworkerIo.DecodeEntityStep | src/clusterfuzz/_internal/bot/tasks/utasks/uworker_io.py:105-112 | one entity entry becomes its wrapper, or the first error among key, decoding and properties |
| UworkerIo.DecodeInputEntity | src/clusterfuzz/_internal/bot/tasks/utasks/uworker_io.py:104-110 | a decoded entity is a wrapper whose key is the decoded `key` field, with a usable change log |
| UworkerIo.EntityRecordDecodes | src/clusterfuzz/_internal/bot/tasks/utasks/uworker_io.py:105-112 | an entity's record decodes to a wrapper with the same key and the recorded properties |
| UworkerIo.InputEntitiesDecode | src/clusterfuzz/_internal/bot/tasks/utasks/uworker_io.py:105-112 | every entity record of a transferable input decodes |
| UworkerIo.InputRoundTrip | src/clusterfuzz/_internal/tests/core/bot/tasks/utasks/uworker_io_test.py:131-133 | deserialising serialised input restores each plain value, and each entity as a wrapper with its key and recorded properties |
| UworkerIo.InputSerializes | src/clusterfuzz/_internal/bot/tasks/utasks/uworker_io.py:116-125 | a transferable input always serialises, to its plain values and its entity records |
| UworkerIo.SerializeOutput | src/clusterfuzz/_internal/bot/tasks/utasks/uworker_io.py:152-169 | a wrapper without a change log makes serialisation fail with AttributeError |
| UworkerIo.SerializeUworkerOutput | src/clusterfuzz/_internal/bot/tasks/utasks/uworker_io.py:152-169 | the loop puts wrappers as key plus change log into `entities` and everything else into `serializable` |
| UworkerIo.ApplyChanges | src/clusterfuzz/_internal/bot/tasks/utasks/uworker_io.py:189-191 | every recorded change is set; every other attribute keeps its stored value |
| UworkerIo.DecodeOutputStep | src/clusterfuzz/_internal/bot/tasks/utasks/uworker_io.py:184-191 | one entry becomes the stored entity with its changes, `None` for a missing entity without changes, AttributeError for one with changes |
| UworkerIo.DecodeOutputEntity | src/clusterfuzz/_internal/bot/tasks/utasks/uworker_io.py:184-191 | a decoded entry is `None` or a stored entity whose key is the decoded `key` field and which has every stored attribute |
| UworkerIo.DeserializeUworkerOutput | src/clusterfuzz/_internal/bot/tasks/utasks/uworker_io.py:177-192 | succeeds iff every entity entry decodes, then gives the plain values and each changed entity; a failure is one of the possible errors |
| UworkerIo.ChangeRecordDecodes | src/clusterfuzz/_internal/bot/tasks/utasks/uworker_io.py:184-191 | a wrapper's record decodes to the stored entity with the recorded changes applied |
| UworkerIo.OutputRoundTrip | src/clusterfuzz/_internal/bot/tasks/utasks/uworker_io.py:152-192 | deserialising serialised output restores each plain value and gives each wrapper's stored entity with its changes applied |
| UworkerIo.OutputSerializes | src/clusterfuzz/_internal/bot/tasks/utasks/uworker_io.py:158-169 | a returnable output always serialises, to its plain values and its change records |
| UworkerIo.WritesReachTrustedSide | src/clusterfuzz/_internal/bot/tasks/utasks/uworker_io.py:177-192 | after writes through a fresh wrapper and the full output handoff, each written attribute has its last written value and the rest are as stored |
| UworkerIo.WrapperRoundTrip | src/clusterfuzz/_internal/bot/tasks/utasks/uworker_io.py:152-192 | a wrapper whose change log holds JSON data, around a stored entity, serialises and deserialises to that entity with the logged changes applied over its stored attributes |
| UworkerIo.UnwrittenWrapperBreaksOutput | src/clusterfuzz/_internal/bot/tasks/utasks/uworker_io.py:162-166 | as written, an output holding an unwritten wrapper fails to serialise with AttributeError |
| UworkerIo.UnwrittenWrapperRoundTrips | src/clusterfuzz/_internal/tests/core/bot/tasks/utasks/uworker_io_test.py:57-62 | corrected, an unwritten wrapper round-trips as the stored entity, unchanged |

## Findings

| source | as written | input that shows it | evidently intended | confidence | as-written member | corrected member |
|---|---|---|---|---|---|---|
| src/clusterfuzz/_internal/bot/tasks/commands.py:339-342 | `list(supported_cpu_arch)` splits a string requirement into characters | job `CPU_ARCH = x86_64` on an x86_64 bot gives False | a single string names one architecture (the comment says so), so the bot is accepted | not executed | JobEnvironment.CpuArchX8664Example | JobEnvironment.IsSupportedCpuArchForJob |
| src/clusterfuzz/_internal/bot/tasks/task_types.py:157-161 | the comprehension passes `task_type` (a class) to `is_trusted_portion_of_utask`, which indexes a name-keyed dict | the shipped `COMMAND_TYPES`: the first entry's class raises KeyError | pass `task_name`, giving `['uworker_postprocess']` | not executed | TaskTypes.ShippedAsWrittenRaises | TaskTypes.ShippedTrustedPortions |
| src/clusterfuzz/_internal/bot/tasks/utasks/uworker_io.py:212-214 | `__init__` stores only `_entity`; the change log is created on the first write | a wrapper nothing is written through: the read of `_wrapped_changed_attributes` in `serialize_uworker_output` raises AttributeError, yet the test at uworker_io_test.py:57-62 expects `{}` | the log exists as `{}` from construction | not executed | UworkerIo.UnwrittenWrapperBreaksOutput | UworkerIo.UnwrittenWrapperRoundTrips |

The rest of the model uses the corrected wrapper: `DecodeInputEntity` wraps with `InitLog`, and
`UworkerEntityWrapper.constructor` creates the log. It also uses the intended CPU-architecture check and
the intended `get_utask_trusted_portions`. The as-written versions are kept beside them:
`IsSupportedCpuArchAsWritten`, `GetUtaskTrustedPortionsAsWritten` and `UworkerEntityWrapper.AsWritten`.

## Left out

- Cloud Storage and HTTP. This covers signed URLs, `upload_uworker_input`, the `download_*` functions and temporary files. The upload and download steps of `UntrustedTask` are modelled as calls; the existing storage paths are a parameter of `GetUworkerIoGcsPath`.
- The argument order of `storage.upload_signed_url` differs between the two copies: `(upload_url, output)` in `commands.py` and `(output, upload_url)` in `uworker_io.py`. It is a call into storage and is not modelled.
- The ndb datastore. Keys are opaque values, `key.get()` is a lookup in a map from key to attributes, and the model classes of `data_types` are a map from kind to default attributes.
- JSON and base64. A payload is the JSON document it encodes, and the key encoding is an abstract codec assumed invertible.
- JSON's conversion of non-string keys and tuples is not modelled.
- UUID generation. The fresh file name is a parameter.
- Dict iteration order. The deserialisers are specified by the set of errors they may end with, because which failing entity is met first depends on that order.
- UworkerIo.InputParts: a `serializable` part that is not a dict is a TypeError even when there are no entities. Python would return it unchanged in that case.
- Most of `process_command`. This covers job and testcase queries, platform checks, re-adding tasks, `time.sleep`, the `MINIMIZE_*` overrides and the cpu-architecture retry. Only the additional-environment filter is modelled, with `splitlines()` given as the list of lines.
- `environment.get_value` evaluates a stored string as a Python literal. That evaluation is a parameter (`evaluate`).
- `parse_environment_definition` is a parameter: its result is given as `jobEnv`.
- `is_trusted_host()` is a parameter.
- `environment.get_cpu_arch()` is a parameter.
- `worker_environment.update_environment` is returned as the forwarded map rather than called.
- `cleanup_task_state`, `start_web_server_if_needed` and `set_task_payload`. These are process, filesystem and environment side effects and exception decoration.
- Logging.
- The bodies of the task modules and of the `utasks` phase functions. The `Host` answers every call through an uninterpreted reply function.
- The first `UTask` class of `__init__.py`. The second definition replaces it when the module is imported.
- `get_uworker_output_upload_urls` and `get_uworker_input_urls`. These only pair the path with a signed URL; `UntrustedTask` sees the pair as the reply of one call.
- EntityWrapper.UworkerEntityWrapper.Set: a write to `key` through the wrapper is recorded as an ordinary attribute. The model keeps the entity's `key` field separate, and that write is not reflected in it.
- Aliasing. `get_entity_with_changed_properties`, `deserialize_uworker_input` and `deserialize_uworker_output` build entities as values. The model does not capture that an entity fetched from the ndb cache may alias one held elsewhere.
- EntityWrapper.UworkerEntityWrapper.Get: not modelled for the `_entity` attribute, which Python finds on the wrapper itself.
- Collaborators.Unpack2: a dict of two keys unpacks into its keys in insertion order in Python. A `VDict` does not record that order, so the model treats it as a TypeError.
