/** The front door (log.go): configuration defaulting in `New`, the level
    filter and routing in `Write`, the non-blocking capacity check in
    `WriteQueue` and the flag-gated header of `formatHeader`. */
module Logging {
  import opened Base
  import opened Queue

  // Flag bits, `1 << iota` in declaration order.
  const L_Time: nat := 1
  const L_LEVEL: nat := 2
  const L_LONG_FILE: nat := 4
  const L_SHORT_FILE: nat := 8
  const L_PID: nat := 16

  // Log types.
  const WRITE_LOG_TYPE_FILE := 1
  const WRITE_LOG_TYPE_AFILE := 2
  const WRITE_LOG_TYPE_KAFKA := 3
  const WRITE_LOG_TYPE_FILE_AND_KAFKA := 4

  const DefaultLog: Bytes := Ascii("log.log")
  const DefaultQueueSize := 10000

  /** `flag & weight != 0` for a one-bit `weight`. Dafny's division by a
      positive number rounds down, so this reads the bit of the
      two's-complement `flag`, negative flags included. */
  predicate Has(flag: int, weight: nat)
    requires weight > 0
  {
    (flag / weight) % 2 == 1
  }

  datatype KafkaConfig = KafkaConfig(
    Brokers: seq<Bytes>,
    Topic: Bytes,
    Version: Bytes,
    Compression: int,
    RequiredAcks: int,
    MaxMessageBytes: int)

  datatype LogConfig = LogConfig(
    Type: int,
    FileFullPath: Bytes,
    QueueSize: int,
    BufferSize: int,
    SplitLogType: int,
    Level: int,
    Flag: int,
    Kafka: KafkaConfig)

  /** The logger fields `New` settles, and the file path it opens or hands on. */
  datatype Settings = Settings(
    logType: int,
    logLevel: int,
    flag: int,
    queueSize: int,
    fileFullPath: Bytes)

  /** The types that go through the queue. */
  predicate IsAsync(logType: int) {
    logType == WRITE_LOG_TYPE_AFILE || logType == WRITE_LOG_TYPE_KAFKA
    || logType == WRITE_LOG_TYPE_FILE_AND_KAFKA
  }

  /** The defaulting of `New`: type, level and flags pass through; a zero
      queue size becomes 10000 for the queued types, so every queued logger
      has a non-zero size; an empty path becomes "log.log" for every type
      but Kafka, so only a Kafka logger can be left without a path. */
  function Configure(cfg: LogConfig): (st: Settings)
    ensures st.logType == cfg.Type && st.logLevel == cfg.Level && st.flag == cfg.Flag
    ensures cfg.QueueSize != 0 ==> st.queueSize == cfg.QueueSize
    ensures cfg.QueueSize == 0 ==> st.queueSize == (if IsAsync(cfg.Type) then 10000 else 0)
    ensures IsAsync(cfg.Type) ==> st.queueSize != 0
    ensures cfg.FileFullPath != [] ==> st.fileFullPath == cfg.FileFullPath
    ensures cfg.FileFullPath == [] ==>
      st.fileFullPath == (if cfg.Type == WRITE_LOG_TYPE_KAFKA then [] else Ascii("log.log"))
    ensures cfg.Type != WRITE_LOG_TYPE_KAFKA ==> st.fileFullPath != []
  {
    var queueSize := if IsAsync(cfg.Type) && cfg.QueueSize == 0 then DefaultQueueSize else cfg.QueueSize;
    var path := if cfg.Type != WRITE_LOG_TYPE_KAFKA && cfg.FileFullPath == [] then DefaultLog else cfg.FileFullPath;
    Settings(cfg.Type, cfg.Level, cfg.Flag, queueSize, path)
  }

  /** Feeding the settled values back into `New` changes nothing. */
  lemma ConfigureIdempotent(cfg: LogConfig)
    ensures var st := Configure(cfg);
      Configure(cfg.(QueueSize := st.queueSize, FileFullPath := st.fileFullPath)) == st
  {
  }

  /** As written, both queued branches build the channel with the
      configured size rather than the defaulted one. */
  function ChannelCapacityAsWritten(cfg: LogConfig): (c: int)
    ensures cfg.QueueSize == 0 ==> c == 0
  {
    cfg.QueueSize
  }

  /** With the default queue size the gate of `WriteQueue` admits a record
      into an empty channel although the channel, built with size 0, has no
      room: the send then waits for the worker instead of failing fast. */
  lemma DefaultQueueSizeAdmitsUnbufferedSend(cfg: LogConfig)
    requires IsAsync(cfg.Type) && cfg.QueueSize == 0
    ensures !(0 >= Configure(cfg).queueSize)
    ensures ChannelCapacityAsWritten(cfg) <= 0
  {
  }

  /** The capacity the channel should have: the defaulted queue size. */
  function QueueCapacity(cfg: LogConfig): (c: nat)
    ensures IsAsync(cfg.Type) && cfg.QueueSize >= 0 ==> c > 0
    ensures cfg.QueueSize > 0 ==> c == cfg.QueueSize
  {
    var q := Configure(cfg).queueSize;
    if q < 0 then 0 else q
  }

  /** With that capacity the gate admits exactly the records the channel has
      room for, so an admitted send never waits. */
  lemma GateMatchesCapacity(cfg: LogConfig, len: nat)
    requires cfg.QueueSize >= 0
    ensures len < Configure(cfg).queueSize <==> len < QueueCapacity(cfg)
    ensures IsAsync(cfg.Type) ==> QueueCapacity(cfg) > 0
  {
  }

  // ----- header -----

  /** The `levelMap` of `defaultLoggerConfig`. */
  const LevelMap: map<int, Bytes> := map[
    0 := Ascii("PANIC"),
    1 := Ascii("FATAL"),
    2 := Ascii("ERROR"),
    3 := Ascii("WARN"),
    4 := Ascii("INFO"),
    5 := Ascii("DEBUG")]

  /** `c.levelMap[lvl]`: a missing key reads as the empty string. */
  function LevelName(lvl: int): Bytes {
    if lvl in LevelMap then LevelMap[lvl] else []
  }

  /** The six levels have six different, non-empty names; every other level
      has the empty name. */
  lemma LevelNames(a: int, b: int)
    ensures LevelName(a) != [] <==> 0 <= a <= 5
    ensures 0 <= a <= 5 && 0 <= b <= 5 && a != b ==> LevelName(a) != LevelName(b)
  {
    if 0 <= a <= 5 && 0 <= b <= 5 && a != b {
      assert LevelName(a)[0] != LevelName(b)[0];
    }
  }

  /** The position of the last '/' at an index in [1, end), or 0 if there is
      none: the backward scan of the short-file loop. */
  function LastSlash(file: Bytes, end: nat): (k: nat)
    requires end <= |file|
    ensures k == 0 || (1 <= k < end && file[k] == Slash)
    ensures forall j :: k < j < end && 1 <= j ==> file[j] != Slash
    decreases end
  {
    if end <= 1 then 0
    else if file[end - 1] == Slash then end - 1
    else LastSlash(file, end - 1)
  }

  /** The short file name: what follows the last '/' found at index 1 or
      later, or the whole name when there is none. */
  function ShortName(file: Bytes): Bytes {
    var k := LastSlash(file, |file|);
    if k == 0 then file else file[k + 1..]
  }

  /** The short-file loop of `formatHeader`. */
  method ShortFile(file: Bytes) returns (short: Bytes)
    ensures short == ShortName(file)
    ensures (forall i :: 1 <= i < |file| ==> file[i] != Slash) ==> short == file
    ensures forall i :: 1 <= i < |file| && file[i] == Slash && (forall j :: i < j < |file| ==> file[j] != Slash)
              ==> short == file[i + 1..]
    ensures forall j :: 1 <= j < |short| ==> short[j] != Slash
  {
    short := file;
    var i := |file| - 1;
    while i > 0
      invariant -1 <= i < |file|
      invariant short == file
      invariant LastSlash(file, |file|) == LastSlash(file, i + 1)
    {
      if file[i] == Slash {
        short := file[i + 1..];
        break;
      }
      i := i - 1;
    }
    var k := LastSlash(file, |file|);
    assert short == ShortName(file);
    if k != 0 {
      assert forall j :: 1 <= j < |short| ==> short[j] == file[k + 1 + j];
    }
  }

  /** Where `runtime.Caller` says the log call was made. */
  datatype CallSite = CallSite(file: Bytes, line: int)

  function TimePart(flag: int, timeText: Bytes): Bytes {
    if Has(flag, L_Time) then timeText + Ascii(" ") else []
  }

  function PidPart(flag: int, pid: int): Bytes {
    if Has(flag, L_PID) then Ascii("[") + Decimal(pid) + Ascii("] ") else []
  }

  function LevelPart(flag: int, lvl: int): Bytes {
    if Has(flag, L_LEVEL) then Ascii("[") + LevelName(lvl) + Ascii("] ") else []
  }

  /** "file:line ", with "???" and 0 when the caller is unknown. */
  function CallerPart(flag: int, caller: Option<CallSite>): Bytes {
    if Has(flag, L_LONG_FILE) || Has(flag, L_SHORT_FILE) then
      var file := if caller.Some? then caller.value.file else Ascii("???");
      var line := if caller.Some? then caller.value.line else 0;
      (if Has(flag, L_SHORT_FILE) then ShortName(file) else file) + Ascii(":") + Decimal(line) + Ascii(" ")
    else []
  }

  /** The header: time, "[pid] ", "[LEVEL] ", "file:line ", in this order,
      each present exactly when its flag is set. */
  function Header(flag: int, timeText: Bytes, pid: int, lvl: int, caller: Option<CallSite>): Bytes {
    TimePart(flag, timeText) + PidPart(flag, pid) + LevelPart(flag, lvl) + CallerPart(flag, caller)
  }

  /** Every part is non-empty when present, so the header is empty exactly
      when none of the five flags is set. */
  lemma HeaderEmptyIffNoFlags(flag: int, timeText: Bytes, pid: int, lvl: int, caller: Option<CallSite>)
    ensures Header(flag, timeText, pid, lvl, caller) == [] <==>
      !Has(flag, L_Time) && !Has(flag, L_PID) && !Has(flag, L_LEVEL)
      && !Has(flag, L_LONG_FILE) && !Has(flag, L_SHORT_FILE)
  {
  }

  // ----- level filter -----

  /** The filter of `Write`: a record is kept when its level is at least the
      configured one. */
  predicate Passes(logLevel: int, level: int) {
    logLevel <= level
  }

  /** With `levelMap` numbering, 0 is PANIC and 5 is DEBUG, so a threshold of
      ERROR (2) keeps DEBUG records and drops PANIC ones. */
  lemma ThresholdKeepsVerboseDropsSevere()
    ensures LevelName(2) == Ascii("ERROR")
    ensures Passes(2, 5) && LevelName(5) == Ascii("DEBUG")
    ensures !Passes(2, 0) && LevelName(0) == Ascii("PANIC")
  {
  }

  datatype WriteError = QueueFull | FileWriteFailed

  datatype Panic = OpenLogFileFailed(path: Bytes) | NegativeQueueSize

  class Logger {
    const logType: int
    const logLevel: int
    const flag: int
    const queueSize: int
    /** The process id `New` records for the "[pid] " part. */
    const pid: int
    /** The queue the queued types write to, shared with the sink. */
    const queue: Channel
    /** What this logger appended to its directly written file. */
    var fileData: Bytes

    /** The channel has room for exactly `queueSize` records. */
    ghost predicate Valid() {
      queue.capacity == if queueSize < 0 then 0 else queueSize
    }

    constructor (st: Settings, pid: int)
      ensures logType == st.logType && logLevel == st.logLevel && flag == st.flag
      ensures queueSize == st.queueSize && this.pid == pid
      ensures Valid() && fresh(queue) && queue.items == [] && fileData == []
    {
      logType, logLevel, flag, queueSize := st.logType, st.logLevel, st.flag, st.queueSize;
      this.pid := pid;
      queue := new Channel(if st.queueSize < 0 then 0 else st.queueSize);
      fileData := [];
    }

    /** `New`: settle the configuration, open the file of the direct types
        (a failed open panics), and build the queue (a negative size
        panics in `make`). The channel gets the defaulted size. */
    static method New(cfg: LogConfig, pid: int, openOk: bool) returns (r: Result<Logger, Panic>)
      ensures var st := Configure(cfg);
        var direct := cfg.Type == WRITE_LOG_TYPE_FILE || cfg.Type == WRITE_LOG_TYPE_FILE_AND_KAFKA;
        && (direct && !openOk ==> r == Err(OpenLogFileFailed(st.fileFullPath)))
        && (!(direct && !openOk) && IsAsync(cfg.Type) && cfg.QueueSize < 0 ==> r == Err(NegativeQueueSize))
        && (r.Ok? <==> !(direct && !openOk) && !(IsAsync(cfg.Type) && cfg.QueueSize < 0))
        && (r.Ok? ==>
              && fresh(r.value) && fresh(r.value.queue) && r.value.Valid()
              && r.value.logType == st.logType && r.value.logLevel == st.logLevel
              && r.value.flag == st.flag && r.value.queueSize == st.queueSize && r.value.pid == pid
              && r.value.queue.items == [] && r.value.fileData == []
              && r.value.queue.capacity == QueueCapacity(cfg))
    {
      var st := Configure(cfg);
      if (cfg.Type == WRITE_LOG_TYPE_FILE || cfg.Type == WRITE_LOG_TYPE_FILE_AND_KAFKA) && !openOk {
        return Err(OpenLogFileFailed(st.fileFullPath));
      }
      if IsAsync(cfg.Type) && cfg.QueueSize < 0 {
        return Err(NegativeQueueSize);
      }
      var logger := new Logger(st, pid);
      r := Ok(logger);
    }

    /** `formatHeader`, built part by part as the source does. */
    method FormatHeader(timeText: Bytes, lvl: int, caller: Option<CallSite>) returns (header: Bytes)
      ensures header == Header(flag, timeText, pid, lvl, caller)
    {
      header := [];
      if Has(flag, L_Time) {
        header := timeText + Ascii(" ");
      }
      assert header == TimePart(flag, timeText);
      if Has(flag, L_PID) {
        header := header + (Ascii("[") + Decimal(pid) + Ascii("] "));
      }
      assert header == TimePart(flag, timeText) + PidPart(flag, pid);
      if Has(flag, L_LEVEL) {
        header := header + (Ascii("[") + LevelName(lvl) + Ascii("] "));
      }
      assert header == TimePart(flag, timeText) + PidPart(flag, pid) + LevelPart(flag, lvl);
      if Has(flag, L_LONG_FILE) || Has(flag, L_SHORT_FILE) {
        var file, line;
        if caller.Some? {
          file, line := caller.value.file, caller.value.line;
        } else {
          file, line := Ascii("???"), 0;
        }
        if Has(flag, L_SHORT_FILE) {
          file := ShortFile(file);
        }
        header := header + (file + Ascii(":") + Decimal(line) + Ascii(" "));
      }
    }

    /** `WriteQueue`: fail at once when the queue holds `queueSize` records
        or more, otherwise append the record at the tail. */
    method WriteQueue(data: Bytes) returns (err: Option<WriteError>)
      requires Valid()
      modifies queue
      ensures err.Some? <==> old(|queue.items|) >= queueSize
      ensures err.Some? ==> err.value == QueueFull && queue.items == old(queue.items)
      ensures err.None? ==> queue.items == old(queue.items) + [data]
    {
      if queue.Len() >= queueSize {
        return Some(QueueFull);
      }
      queue.Send(data);
      err := None;
    }

    /** `c.file.Write(data)`: the operating system either takes the whole
        record or reports an error. */
    method WriteFile(data: Bytes, ok: bool) returns (n: int, err: Option<WriteError>)
      modifies this`fileData
      ensures ok ==> n == |data| && err == None && fileData == old(fileData) + data
      ensures !ok ==> n == 0 && err == Some(FileWriteFailed) && fileData == old(fileData)
    {
      if ok {
        fileData := fileData + data;
        n, err := |data|, None;
      } else {
        n, err := 0, Some(FileWriteFailed);
      }
    }

    /** `Write`: records below the level are dropped; the queued types
        enqueue header+message and report the message length; the direct
        type appends one line break and writes the whole line. */
    method Write(level: int, s: Bytes, timeText: Bytes, caller: Option<CallSite>, fileOk: bool)
      returns (n: int, err: Option<WriteError>)
      requires Valid()
      modifies this`fileData, queue
      ensures var record := Header(flag, timeText, pid, level, caller) + s;
        && (!Passes(logLevel, level) || logType < WRITE_LOG_TYPE_FILE ==>
              n == 0 && err == None && fileData == old(fileData) && queue.items == old(queue.items))
        && (Passes(logLevel, level) && logType > WRITE_LOG_TYPE_FILE ==>
              && n == |s| && fileData == old(fileData)
              && (err.Some? <==> old(|queue.items|) >= queueSize)
              && (err.Some? ==> err.value == QueueFull && queue.items == old(queue.items))
              && (err.None? ==> queue.items == old(queue.items) + [record]))
        && (Passes(logLevel, level) && logType == WRITE_LOG_TYPE_FILE ==>
              && queue.items == old(queue.items)
              && (fileOk ==> n == |record| + 1 && err == None && fileData == old(fileData) + record + Newline)
              && (!fileOk ==> n == 0 && err == Some(FileWriteFailed) && fileData == old(fileData)))
    {
      if logLevel <= level {
        var header := FormatHeader(timeText, level, caller);
        var data := header + s;
        if logType > WRITE_LOG_TYPE_FILE {
          err := WriteQueue(data);
          n := |s|;
          return;
        }
        if logType == WRITE_LOG_TYPE_FILE_AND_KAFKA || logType == WRITE_LOG_TYPE_FILE {
          data := AppendEach(data, Newline);
          n, err := WriteFile(data, fileOk);
          return;
        }
      }
      n, err := 0, None;
    }
  }

  /** The bounded-queue scenario: capacity 3, A, B and C are accepted, D is
      refused, one record is taken, then D is accepted and the queue reads
      B, C, D after A. */
  method QueueScenario(a: Bytes, b: Bytes, c: Bytes, d: Bytes) {
    var cfg := LogConfig(WRITE_LOG_TYPE_AFILE, [], 3, 0, 0, 0, 0, KafkaConfig([], [], [], 0, 0, 0));
    var r := Logger.New(cfg, 1, true);
    var logger := r.value;
    var e1 := logger.WriteQueue(a);
    var e2 := logger.WriteQueue(b);
    var e3 := logger.WriteQueue(c);
    var e4 := logger.WriteQueue(d);
    assert e1 == None && e2 == None && e3 == None && e4 == Some(QueueFull);
    var first := logger.queue.Receive();
    var e5 := logger.WriteQueue(d);
    assert e5 == None;
    assert first == a && logger.queue.items == [b, c, d];
  }
}
