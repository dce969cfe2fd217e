/** The values every other module shares: task states, events and decoded JSON. */
module TaskTypes {

  datatype Option<+T> = None | Some(value: T)

  /** A decoded JSON value. Numbers are integers: no property here looks inside a fraction. */
  datatype Json =
    | JNull
    | JBool(flag: bool)
    | JNum(number: int)
    | JStr(text: string)
    | JArr(items: seq<Json>)
    | JObj(fields: map<string, Json>)

  type JsonMap = map<string, Json>

  /** The string under `key`, or "" when it is missing or not a string. */
  function StringAt(m: JsonMap, key: string): string {
    if key in m && m[key].JStr? then m[key].text else ""
  }

  datatype TaskStatus =
    | Created | PendingLaunch | Launching | Ready | Dispatching
    | Running | AwaitingInput | Completed | Failed | Cancelled
  {
    predicate IsTerminal() {
      Completed? || Failed? || Cancelled?
    }
  }

  datatype EventKind =
    | TaskCreated | TaskRouted | RuntimePendingLaunch | RuntimeLaunching | RuntimeReady
    | TaskDispatching | TaskRunning | TaskAwaitingInput | TaskResumeRequested
    | TaskCancelRequested | TaskCompleted | TaskFailed | TaskCancelled

  datatype EventSource =
    | FromCore | FromAdapter | FromRuntime | FromTransport | FromStorage | FromApi

  /** The status of the durable binding between a proxy task and its destination task. */
  datatype RelayStatus = Pending | Streaming | Reached(state: TaskStatus) | Interrupted
  {
    predicate IsTerminal() {
      Reached? && state.IsTerminal()
    }
  }

  datatype ThreadStatus = Active | Paused | ThreadInterrupted | ThreadCompleted | ThreadFailed | ThreadCancelled

  datatype TaskError = TaskError(reason: string, detail: string)

  /** One row of a task's event log. The random event id and the clock reading are left out. */
  datatype TaskEvent = TaskEvent(
    taskId: string,
    seqNo: int,
    kind: EventKind,
    state: TaskStatus,
    source: EventSource,
    message: string,
    data: JsonMap)

  predicate HasTerminal(events: seq<TaskEvent>) {
    exists i :: 0 <= i < |events| && events[i].state.IsTerminal()
  }

  predicate StrictlyIncreasing(events: seq<TaskEvent>) {
    forall i, j :: 0 <= i < j < |events| ==> events[i].seqNo < events[j].seqNo
  }
}
