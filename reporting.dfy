/** The reporting vocabulary the step engine speaks: item handles, item
    statuses, the start/finish/log request records, and the launch, which is
    modelled as a recorder of the calls it receives, in order. */
module Reporting {

  datatype Option<+T> = None | Some(value: T)

  /** An item handle as the engine sees it (the client's `Maybe<String>`).
      `NoItem` is the empty handle (`Maybe.empty()`), the default parent.
      `Item(k)` is the handle the launch returned for the start call that
      stands at position `k` of its call trace, so two start calls never
      yield the same handle; handles are only ever compared for equality. */
  datatype ItemId = NoItem | Item(handle: nat)

  /** The client's item statuses. */
  datatype ItemStatus = PASSED | FAILED | STOPPED | SKIPPED | INTERRUPTED | CANCELLED | INFO | WARN

  /** `status.name()`. */
  function StatusName(s: ItemStatus): string {
    match s
    case PASSED => "PASSED"
    case FAILED => "FAILED"
    case STOPPED => "STOPPED"
    case SKIPPED => "SKIPPED"
    case INTERRUPTED => "INTERRUPTED"
    case CANCELLED => "CANCELLED"
    case INFO => "INFO"
    case WARN => "WARN"
  }

  /** The two log levels the step engine uses. */
  datatype LogLevel = ERROR | INFO

  /** `level.name()`. */
  function LevelName(l: LogLevel): string {
    if l.ERROR? then "ERROR" else "INFO"
  }

  /** Start-item request; times are milliseconds since the epoch. */
  datatype StartRQ = StartRQ(name: string, itemType: string, hasStats: bool, startTime: int)

  /** Finish-item request: the status name and the end time. */
  datatype FinishRQ = FinishRQ(status: string, endTime: int)

  /** A file handed to a step as an attachment, known by its name. */
  datatype File = File(name: string)

  /** The log-request builders the step engine hands to the logging context.
      Each stands for one of the lambdas `itemId -> SaveLogRQ` it passes to
      `emitLog`: an error log carrying the throwable's stack trace (`None`
      is a null throwable) and possibly a file, or an info log for a file. */
  datatype LogBuilder =
    | ErrorLog(throwable: Option<string>, attachment: Option<File>)
    | FileLog(file: File)

  /** One call received by the launch (or, for `EmitLog`, by the logging
      context of the same run). */
  datatype Call =
    | StartItem(parent: ItemId, rq: StartRQ)
    | FinishItem(item: ItemId, finishRQ: FinishRQ)
    | EmitLog(builder: LogBuilder)

  /** The launch the step engine reports to, as the ordered trace of the
      calls made on it. */
  class Launch {
    var calls: seq<Call>

    constructor ()
      ensures calls == []
    {
      calls := [];
    }

    /** Starts an item under `parent`; the handle names this start call. */
    method StartTestItem(parent: ItemId, rq: StartRQ) returns (id: ItemId)
      modifies this
      ensures calls == old(calls) + [StartItem(parent, rq)]
      ensures id == Item(|old(calls)|)
    {
      id := Item(|calls|);
      calls := calls + [StartItem(parent, rq)];
    }

    method FinishTestItem(item: ItemId, rq: FinishRQ)
      modifies this
      ensures calls == old(calls) + [FinishItem(item, rq)]
    {
      calls := calls + [FinishItem(item, rq)];
    }

    method EmitLog(builder: LogBuilder)
      modifies this
      ensures calls == old(calls) + [Call.EmitLog(builder)]
    {
      calls := calls + [Call.EmitLog(builder)];
    }
  }
}
