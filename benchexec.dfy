/** The parts of the BenchExec framework that the Crux tool adapter uses:
    the result categories of `benchexec.result`, the data models of
    `benchexec.tools.sv_benchmarks_util`, and the task a run is given. */
module BenchExec {

  /** The result categories a tool adapter may report. Each stands for one
      `benchexec.result.RESULT_*` constant; `Unknown(suffix)` is
      `RESULT_UNKNOWN` with `suffix` appended, so the plain constant is
      `Unknown("")`. The concrete strings of the constants are not modelled. */
  datatype Verdict =
    | TrueProp
    | FalseFree
    | FalseDeref
    | FalseMemtrack
    | FalseMemcleanup
    | FalseOverflow
    | FalseTermination
    | FalseReach
    | FalseProp
    | Error
    | Unknown(suffix: string)

  /** `RESULT_UNKNOWN`, reported when a tool's output names no result. */
  const PlainUnknown: Verdict := Unknown("")

  /** The two data models of SV-COMP tasks. */
  datatype DataModel = ILP32 | LP64

  /** A verification task: the property file (if any), the data model the
      task declares (if any), and its input files or identifier. */
  datatype Task = Task(propertyFile: Option<string>,
                       dataModel: Option<DataModel>,
                       inputFiles: seq<string>)

  datatype Option<T> = None | Some(value: T)

  /** `get_data_model_from_task(task, params)`: the entry of `params` for the
      task's data model, or none when the task declares no data model or
      `params` has no entry for it. */
  function DataModelFromTask(task: Task, params: map<DataModel, string>): (r: Option<string>)
    ensures r.Some? <==> task.dataModel.Some? && task.dataModel.value in params
    ensures r.Some? ==> r.value == params[task.dataModel.value]
  {
    match task.dataModel
    case None => None
    case Some(dm) => if dm in params then Some(params[dm]) else None
  }
}
