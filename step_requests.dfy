/** The requests the step engine builds: the start request of a step, the
    finish request it holds back, and the log requests its builders produce
    once the logging context applies them. */
module StepRequests {
  import opened Reporting

  /** The item type of every manual step. */
  const StepType := "STEP"

  /** The message of an error log whose throwable is null. */
  const NoExceptionMessage := "Test has failed without exception"

  /** `buildStartStepRequest`: `now` is the clock reading taken for it. */
  function BuildStartStepRequest(name: string, now: int): (rq: StartRQ)
    ensures rq.name == name && rq.itemType == "STEP" && !rq.hasStats && rq.startTime == now
  {
    StartRQ(name, StepType, false, now)
  }

  /** `buildFinishTestItemRequest`. */
  function BuildFinishTestItemRequest(status: ItemStatus, endTime: int): (rq: FinishRQ)
    ensures rq.status == StatusName(status) && rq.endTime == endTime
  {
    FinishRQ(StatusName(status), endTime)
  }

  /** What locating and reading an attachment yields: its bytes and media
      type, or an I/O failure. */
  datatype ReadOutcome = Loaded(content: seq<bv8>, contentType: string) | ReadFailed

  /** The attachment part of a log request. */
  datatype FileModel = FileModel(content: seq<bv8>, contentType: string, name: string)

  datatype SaveLogRQ = SaveLogRQ(itemUuid: string, message: string, level: string, logTime: int, file: Option<FileModel>)

  /** The message of an error log: the throwable's stack trace, or the
      fixed text when there is no throwable. */
  function ErrorMessage(throwable: Option<string>): (m: string)
    ensures throwable.None? ==> m == "Test has failed without exception"
    ensures throwable.Some? ==> m == throwable.value
  {
    if throwable.Some? then throwable.value else NoExceptionMessage
  }

  /** `buildSaveLogRequest` with and without a file (`None` is a null
      file). `logTime` is the clock reading it takes when the logging context
      applies the builder; `read` is what reading the file yields and
      `attachmentName` the random name the attachment is given; both matter
      only when a file is present. A read failure is logged and swallowed:
      the request goes out without the attachment. */
  function BuildSaveLogRequest(itemId: string, message: string, level: LogLevel, logTime: int,
                               file: Option<File>, read: ReadOutcome, attachmentName: string): (rq: SaveLogRQ)
    ensures rq.itemUuid == itemId && rq.message == message && rq.logTime == logTime
    ensures rq.level == (if level.ERROR? then "ERROR" else "INFO")
    ensures file.None? ==> rq.file.None?
    ensures file.Some? && read.ReadFailed? ==> rq.file.None?
    ensures file.Some? && read.Loaded? ==> rq.file == Some(FileModel(read.content, read.contentType, attachmentName))
  {
    var attachment :=
      if file.Some? && read.Loaded? then Some(FileModel(read.content, read.contentType, attachmentName))
      else None;
    SaveLogRQ(itemId, message, LevelName(level), logTime, attachment)
  }

  /** The file a builder attaches, if any. */
  function BuilderFile(b: LogBuilder): Option<File> {
    match b
    case ErrorLog(_, file) => file
    case FileLog(file) => Some(file)
  }

  /** Applies a builder to the item id the logging context supplies;
      `logTime` is the clock reading taken while it is applied. An error builder logs at ERROR with the throwable's stack
      trace, or the fixed message for a null throwable; a file builder logs
      the file's name at INFO. Either way the request is produced, and it
      carries an attachment exactly when there is a file and it could be
      read. */
  function BuildLog(b: LogBuilder, itemId: string, logTime: int, read: ReadOutcome, attachmentName: string)
    : (rq: SaveLogRQ)
    ensures rq.itemUuid == itemId && rq.logTime == logTime
    ensures b.ErrorLog? ==> rq.level == "ERROR"
    ensures b.ErrorLog? && b.throwable.None? ==> rq.message == NoExceptionMessage
    ensures b.ErrorLog? && b.throwable.Some? ==> rq.message == b.throwable.value
    ensures b.FileLog? ==> rq.level == "INFO" && rq.message == b.file.name
    ensures rq.file.Some? <==> BuilderFile(b).Some? && read.Loaded?
    ensures rq.file.Some? ==> rq.file.value == FileModel(read.content, read.contentType, attachmentName)
  {
    match b
    case ErrorLog(throwable, file) =>
      BuildSaveLogRequest(itemId, ErrorMessage(throwable), LogLevel.ERROR, logTime, file, read, attachmentName)
    case FileLog(file) =>
      BuildSaveLogRequest(itemId, file.name, LogLevel.INFO, logTime, Some(file), read, attachmentName)
  }
}
