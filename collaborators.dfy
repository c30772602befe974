/**
 * The code the dispatch layer calls but does not contain: the task modules
 * (`execute_task`, `preprocess_task`, ...), the `utasks` phase functions,
 * storage, and the datastore's task-status record. Each call is a `Call`
 * value; a `Host` answers it through an uninterpreted reply function and
 * records it in its trace, so that lemmas can say which phases ran, in what
 * order and with which arguments.
 */
module Collaborators {
  import opened Wrappers
  import opened PyValues

  /** The status values `run_command` writes with `data_handler.update_task_status`. */
  datatype TaskState = Finished | Error

  /** One call into code outside the model, with its arguments. */
  datatype Call =
    /** `module.execute_task(task_argument, job_type)` */
    | ExecuteTask(taskModule: string, argument: string, jobType: string)
    /** `module.execute_task(task_argument, job_type, None)` */
    | ExecuteTaskWithNone(taskModule: string, argument: string, jobType: string)
    /** `utasks.tworker_preprocess(module, task_argument, job_type, uworker_env)` */
    | TworkerPreprocess(taskModule: string, argument: string, jobType: string, uworkerEnv: Value)
    /** `utasks.uworker_main(input_path)` */
    | UworkerMain(inputPath: Value)
    /** `utasks.tworker_postprocess(output_path)` */
    | TworkerPostprocess(outputPath: Value)
    /** `utasks.tworker_preprocess_no_io(module, task_argument, job_type, uworker_env)` */
    | TworkerPreprocessNoIo(taskModule: string, argument: string, jobType: string, uworkerEnv: Value)
    /** `utasks.uworker_main_no_io(module, uworker_input)` */
    | UworkerMainNoIo(taskModule: string, uworkerInput: Value)
    /** `utasks.tworker_postprocess_no_io(module, uworker_output, uworker_input)` */
    | TworkerPostprocessNoIo(taskModule: string, uworkerOutput: Value, uworkerInput: Value)
    /** `module.preprocess_task(task_argument, job_type, uworker_env)` */
    | ModulePreprocess(taskModule: string, argument: string, jobType: string, uworkerEnv: Value)
    /** `get_uworker_output_upload_urls()` */
    | GetOutputUploadUrls
    /** `serialize_and_upload_uworker_input(uworker_input, job_type, upload_url)` */
    | SerializeAndUploadInput(uworkerInput: Value, jobType: string, uploadUrl: Value)
    /** `download_and_deserialize_uworker_input(download_url)` */
    | DownloadAndDeserializeInput(downloadUrl: Value)
    /** `module.uworker_execute(**uworker_input)` */
    | UworkerExecute(taskModule: string, uworkerInput: Value)
    /** `serialize_and_upload_uworker_output(uworker_output, upload_url)` */
    | SerializeAndUploadOutput(uworkerOutput: Value, uploadUrl: Value)
    /** `download_and_deserialize_uworker_output(download_url)` */
    | DownloadAndDeserializeOutput(downloadUrl: Value)
    /** `module.postprocess_task(**uworker_output)` */
    | ModulePostprocess(taskModule: string, uworkerOutput: Value)
    /** `data_handler.update_task_status(task_state_name, status)` */
    | UpdateTaskStatus(taskStateName: string, status: TaskState)

  /** What a call did: returned a value or raised an exception. */
  datatype Reply = Returned(value: Value) | Raises(error: Exc)

  /** The calls one `execute` (or `run_command`) makes, and how it ends. */
  datatype Outcome = Outcome(calls: seq<Call>, reply: Reply)

  /** A function that returns nothing: `None`, unless the last call it made raised. */
  function ReturnNone(r: Reply): (result: Reply)
    ensures r.Raises? ==> result == r
    ensures r.Returned? ==> result == Returned(VNone)
  {
    if r.Raises? then r else Returned(VNone)
  }

  /**
   * `first, second = v`. A tuple or list unpacks into its two items and a
   * string into its two characters; any of these, or a dict, with another
   * number of elements raises ValueError; a value that is not iterable
   * raises TypeError. A dict of two keys unpacks into its keys in insertion
   * order, which a `VDict` does not record: it is treated as a TypeError.
   */
  function Unpack2(v: Value): (r: Result<(Value, Value), Exc>)
    ensures r.Success? <==> (v.VList? && |v.items| == 2) || (v.VStr? && |v.s| == 2)
    ensures r.Success? && v.VList? ==> r.value == (v.items[0], v.items[1])
    ensures r.Success? && v.VStr? ==> r.value == (VStr([v.s[0]]), VStr([v.s[1]]))
    ensures (v.VList? && |v.items| != 2) || (v.VStr? && |v.s| != 2) || (v.VDict? && |v.entries| != 2) ==>
              r == Failure(ValueError)
    ensures !(v.VList? || v.VStr? || v.VDict?) ==> r == Failure(TypeError)
  {
    match v
    case VList(items) => if |items| == 2 then Success((items[0], items[1])) else Failure(ValueError)
    case VStr(s) => if |s| == 2 then Success((VStr([s[0]]), VStr([s[1]]))) else Failure(ValueError)
    case VDict(entries) => if |entries| == 2 then Failure(TypeError) else Failure(ValueError)
    case _ => Failure(TypeError)
  }

  /**
   * The code outside the model, as seen from the dispatch layer: it answers
   * every call with `respond` and remembers the calls made so far.
   */
  class Host {
    const respond: Call -> Reply
    var trace: seq<Call>

    constructor (respond: Call -> Reply)
      ensures this.respond == respond && trace == []
    {
      this.respond := respond;
      trace := [];
    }

    /** Make one call into code outside the model. */
    method Invoke(c: Call) returns (r: Reply)
      modifies this`trace
      ensures trace == old(trace) + [c]
      ensures r == respond(c)
    {
      trace := trace + [c];
      r := respond(c);
    }
  }
}
