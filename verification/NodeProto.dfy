/** The frame that carries a destination event to the origin node, and its import there. */
module NodeProto {
  import opened TaskTypes

  datatype TaskEventFrame = TaskEventFrame(
    originProxyTaskId: string,
    destinationNodeId: string,
    destinationTaskId: string,
    destinationThreadId: string,
    seqNo: int,
    kind: EventKind,
    state: TaskStatus,
    source: EventSource,
    message: string,
    data: JsonMap,
    remoteExecutionId: string,
    remoteSessionId: string)

  /** The parts of a frame that are the same for every event of one stream. */
  datatype Envelope = Envelope(
    originProxyTaskId: string,
    destinationNodeId: string,
    destinationThreadId: string,
    remoteExecutionId: string,
    remoteSessionId: string)

  function FrameOf(env: Envelope, e: TaskEvent): TaskEventFrame {
    TaskEventFrame(env.originProxyTaskId, env.destinationNodeId, e.taskId, env.destinationThreadId,
                   e.seqNo, e.kind, e.state, e.source, e.message, e.data,
                   env.remoteExecutionId, env.remoteSessionId)
  }

  const ReservedKeys := {
    "destination_node_id", "destination_task_id", "destination_thread_id",
    "remote_execution_id", "remote_session_id", "remote_event_seq"
  }

  predicate IsReservedEventDataKey(key: string) {
    key in ReservedKeys
  }

  /** `value` under `key`, unless there is nothing to say. */
  function PutIfSet(data: JsonMap, key: string, value: string): JsonMap {
    if value == "" then data else data[key := JStr(value)]
  }

  /** The ownership fields that the origin writes over whatever the peer sent. */
  function WithOwnership(data: JsonMap, f: TaskEventFrame): JsonMap {
    var d := data["destination_node_id" := JStr(f.destinationNodeId)]
                 ["destination_task_id" := JStr(f.destinationTaskId)]
                 ["remote_event_seq" := JNum(f.seqNo)];
    PutIfSet(PutIfSet(PutIfSet(d, "destination_thread_id", f.destinationThreadId),
                      "remote_execution_id", f.remoteExecutionId),
             "remote_session_id", f.remoteSessionId)
  }

  function LocalData(f: TaskEventFrame): JsonMap {
    WithOwnership(map k | k in f.data && !IsReservedEventDataKey(k) :: f.data[k], f)
  }

  /** The origin's event for a frame, still without a number of its own. */
  function LocalEvent(f: TaskEventFrame, localSeq: int): TaskEvent {
    TaskEvent(f.originProxyTaskId, localSeq, f.kind, f.state, FromTransport, f.message, LocalData(f))
  }

  /** The data of the origin's event: what the peer put under a reserved key never gets in, and nothing else of
      its data is lost; the reserved keys hold the frame's own fields, the three optional ones only when set. */
  ghost predicate ImportedData(d: JsonMap, f: TaskEventFrame) {
    && (forall k :: k !in {"destination_node_id", "destination_task_id", "destination_thread_id",
                           "remote_execution_id", "remote_session_id", "remote_event_seq"}
          ==> (k in d <==> k in f.data) && (k in d ==> d[k] == f.data[k]))
    && "destination_node_id" in d && d["destination_node_id"] == JStr(f.destinationNodeId)
    && "destination_task_id" in d && d["destination_task_id"] == JStr(f.destinationTaskId)
    && "remote_event_seq" in d && d["remote_event_seq"] == JNum(f.seqNo)
    && ("destination_thread_id" in d <==> f.destinationThreadId != "")
    && ("remote_execution_id" in d <==> f.remoteExecutionId != "")
    && ("remote_session_id" in d <==> f.remoteSessionId != "")
    && (f.destinationThreadId != "" ==> d["destination_thread_id"] == JStr(f.destinationThreadId))
    && (f.remoteExecutionId != "" ==> d["remote_execution_id"] == JStr(f.remoteExecutionId))
    && (f.remoteSessionId != "" ==> d["remote_session_id"] == JStr(f.remoteSessionId))
  }

  /** The origin's event for a frame: its kind, state and message, from the transport, with data as above. */
  ghost predicate Imported(e: TaskEvent, f: TaskEventFrame) {
    e.kind == f.kind && e.state == f.state && e.source == FromTransport && e.message == f.message && ImportedData(e.data, f)
  }

  lemma OwnershipCannotBeSpoofed(f: TaskEventFrame, localSeq: int)
    ensures var e := LocalEvent(f, localSeq);
            Imported(e, f) && e.taskId == f.originProxyTaskId && e.seqNo == localSeq
  {
    assert forall k, v, m: JsonMap, key :: k != key ==> (k in PutIfSet(m, key, v) <==> k in m);
  }

  /** Copies the peer's data, then writes the canonical fields. */
  method ToLocalTaskEvent(f: TaskEventFrame, localSeq: int) returns (event: TaskEvent)
    ensures event == LocalEvent(f, localSeq)
    ensures Imported(event, f) && event.taskId == f.originProxyTaskId && event.seqNo == localSeq
  {
    OwnershipCannotBeSpoofed(f, localSeq);
    hide ImportedData;
    var data: JsonMap := map[];
    var todo := f.data.Keys;
    while todo != {}
      invariant todo <= f.data.Keys
      invariant data == map k | k in f.data && k !in todo && !IsReservedEventDataKey(k) :: f.data[k]
    {
      var key :| key in todo;
      todo := todo - {key};
      if IsReservedEventDataKey(key) {
        continue;
      }
      data := data[key := f.data[key]];
    }
    data := WithOwnership(data, f);
    event := TaskEvent(f.originProxyTaskId, localSeq, f.kind, f.state, FromTransport, f.message, data);
  }
}
