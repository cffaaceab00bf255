/** The buffered file sink (async_file.go). The sink's state is a value of
    `Sink`; each operation of the source is a function on it, and the class
    `AsyncFile` holds the same state in fields that its methods update in
    place, each method proved to do what its function says.

    The file system is a map from path to contents. Every file handle has an
    identity, so that an old handle stays closed when the same path is opened
    again. The write buffer is `bufio.Writer`: bytes wait in `data` until a
    flush appends them to the file of the handle the buffer was made for,
    and a failed flush leaves the buffer failed (bufio's sticky error) until
    a new buffer replaces it. Clock readings and the success of every open
    and flush are inputs. */
module FileSink {
  import opened Base
  import opened Queue

  const SPLIT_LOG_TYPE_NORMAL := 0
  const SPLIT_LOG_TYPE_DAY := 1
  const SPLIT_LOG_TYPE_HOUR := 2

  const DefaultFileDir: Bytes := Ascii("log.log")
  const DefaultBufferSize := 1024 * 1024
  /** The value of `tryTimes` at which the worker reopens the file. */
  const ReopenAt := 10

  datatype Handle = Handle(id: nat, path: Bytes)

  /** A `bufio.Writer` made for `target`; `failed` is its sticky error. */
  datatype Buffer = Buffer(target: Option<Handle>, data: Bytes, failed: bool)

  /** One reading of `time.Now()`: the day of the month, the hour, and the
      time formatted as "20060102" and as "2006010215". */
  datatype Clock = Clock(day: int, hour: int, daySuffix: Bytes, hourSuffix: Bytes)

  /** What the environment answers during one pass of the worker's retry
      loop: the clock, and whether the rotation flush, the rotation open,
      the threshold flush and the forced reopen succeed. */
  datatype Attempt = Attempt(clock: Clock, rotateFlushOk: bool, rotateOpenOk: bool, flushOk: bool, reopenOk: bool)

  datatype Sink = Sink(
    FileDir: Bytes,
    SplitType: int,
    BufferSize: int,
    logTime: int,
    file: Option<Handle>,
    closed: set<nat>,
    nextId: nat,
    buffer: Buffer,
    fs: map<Bytes, Bytes>)

  function FileOf(fs: map<Bytes, Bytes>, path: Bytes): Bytes {
    if path in fs then fs[path] else []
  }

  /** `check`. */
  function Checked(s: Sink): Sink {
    s.(FileDir := if s.FileDir == [] then DefaultFileDir else s.FileDir,
       BufferSize := if s.BufferSize == 0 then DefaultBufferSize else s.BufferSize)
  }

  lemma CheckDefaults(s: Sink)
    ensures Checked(s).FileDir == (if s.FileDir == [] then Ascii("log.log") else s.FileDir)
    ensures Checked(s).BufferSize == (if s.BufferSize == 0 then 1048576 else s.BufferSize)
    ensures Checked(s).(FileDir := s.FileDir, BufferSize := s.BufferSize) == s
    ensures Checked(Checked(s)) == Checked(s)
  {
  }

  // ----- rotation -----

  /** The rotation key: the day for daily files, the hour for hourly files,
      and 0 for any other split type (the switch has no case for it). */
  function RotationKey(splitType: int, c: Clock): int {
    if splitType == SPLIT_LOG_TYPE_DAY then c.day
    else if splitType == SPLIT_LOG_TYPE_HOUR then c.hour
    else 0
  }

  /** The file name suffix; an unknown split type formats with "", which
      gives the empty text. */
  function RotationSuffix(splitType: int, c: Clock): Bytes {
    if splitType == SPLIT_LOG_TYPE_DAY then c.daySuffix
    else if splitType == SPLIT_LOG_TYPE_HOUR then c.hourSuffix
    else []
  }

  datatype SplitResult = SplitResult(sink: Sink, dir: Bytes, needSplit: bool)

  /** `SplitFileFullPath`: only the stored key changes, and afterwards it is
      the current key; a split is reported exactly when splitting is on and
      the key moved, and then the path extends the base path; otherwise the
      base path comes back and nothing changes. */
  function Split(s: Sink, c: Clock): (r: SplitResult)
    ensures r.sink == s.(logTime := r.sink.logTime)
    ensures s.SplitType != SPLIT_LOG_TYPE_NORMAL ==> r.sink.logTime == RotationKey(s.SplitType, c)
    ensures r.needSplit <==> s.SplitType != SPLIT_LOG_TYPE_NORMAL && s.logTime != RotationKey(s.SplitType, c)
    ensures !r.needSplit ==> r.dir == s.FileDir && r.sink == s
    ensures r.needSplit ==> |s.FileDir| < |r.dir| && r.dir[..|s.FileDir|] == s.FileDir
  {
    if s.SplitType == SPLIT_LOG_TYPE_NORMAL then SplitResult(s, s.FileDir, false)
    else
      var now := RotationKey(s.SplitType, c);
      if s.logTime != now then
        SplitResult(s.(logTime := now), s.FileDir + Ascii(".") + RotationSuffix(s.SplitType, c), true)
      else SplitResult(s, s.FileDir, false)
  }

  /** Without splitting the path is always the base path and nothing changes. */
  lemma SplitNormal(s: Sink, c: Clock)
    requires s.SplitType == SPLIT_LOG_TYPE_NORMAL
    ensures Split(s, c) == SplitResult(s, s.FileDir, false)
  {
  }

  /** Daily and hourly files: a split is reported exactly when the stored
      key differs from the current one; it names the suffixed path and
      stores the new key; otherwise the base path comes back and nothing
      changes. */
  lemma SplitOnKeyChange(s: Sink, c: Clock)
    requires s.SplitType == SPLIT_LOG_TYPE_DAY || s.SplitType == SPLIT_LOG_TYPE_HOUR
    ensures var r := Split(s, c);
      var key := if s.SplitType == SPLIT_LOG_TYPE_DAY then c.day else c.hour;
      var suffix := if s.SplitType == SPLIT_LOG_TYPE_DAY then c.daySuffix else c.hourSuffix;
      && (r.needSplit <==> s.logTime != key)
      && (r.needSplit ==> r.dir == s.FileDir + Ascii(".") + suffix && r.sink == s.(logTime := key))
      && (!r.needSplit ==> r.dir == s.FileDir && r.sink == s)
  {
  }

  /** Asking again with the same clock reports no split. */
  lemma SplitTwice(s: Sink, c: Clock)
    ensures var r := Split(Split(s, c).sink, c);
      !r.needSplit && r.dir == s.FileDir
  {
  }

  /** The stored key starts at 0, so the first hourly call at hour 0 reports
      no split and names the base path. */
  lemma HourlyStartAtMidnight(s: Sink, c: Clock)
    requires s.SplitType == SPLIT_LOG_TYPE_HOUR && s.logTime == 0 && c.hour == 0
    ensures Split(s, c) == SplitResult(s, s.FileDir, false)
  {
  }

  /** The hourly key is the hour of the day only: after a rotation at
      some hour, a record at the same hour of a later day (a different
      suffix) reports no split and stays in the earlier file. */
  lemma HourlyKeyRepeatsNextDay(s: Sink, c1: Clock, c2: Clock)
    requires s.SplitType == SPLIT_LOG_TYPE_HOUR && c1.hour == c2.hour && c1.hourSuffix != c2.hourSuffix
    ensures !Split(Split(s, c1).sink, c2).needSplit
  {
  }

  /** An unknown split type never splits while its key is the initial 0. */
  lemma UnknownSplitTypeNeverSplits(s: Sink, c: Clock)
    requires s.SplitType !in {SPLIT_LOG_TYPE_NORMAL, SPLIT_LOG_TYPE_DAY, SPLIT_LOG_TYPE_HOUR} && s.logTime == 0
    ensures Split(s, c) == SplitResult(s, s.FileDir, false)
  {
  }

  // ----- files -----

  datatype Status = Status(sink: Sink, ok: bool)

  /** `CloseFile`: only the set of closed handles changes; the current
      handle is closed afterwards, and closing it a second time reports an
      error. */
  function Close(s: Sink): (r: Status)
    ensures r.sink == s.(closed := r.sink.closed)
    ensures s.file.Some? ==> r.sink.closed == s.closed + {s.file.value.id}
    ensures s.file.None? ==> r == Status(s, true)
    ensures !r.ok <==> s.file.Some? && s.file.value.id in s.closed
  {
    if s.file.None? then Status(s, true)
    else Status(s.(closed := s.closed + {s.file.value.id}), s.file.value.id !in s.closed)
  }

  /** `OpenFile`: on failure nothing changes. On success the previous
      handle is closed and a new handle on `path` is installed; the file is
      created if missing, and no file's contents change. */
  function Open(s: Sink, path: Bytes, ok: bool): (r: Status)
    ensures r.ok == ok
    ensures !ok ==> r.sink == s
    ensures ok ==> && r.sink.file == Some(Handle(s.nextId, path)) && r.sink.nextId == s.nextId + 1
                   && r.sink.buffer == s.buffer && r.sink.logTime == s.logTime
                   && r.sink.FileDir == s.FileDir && r.sink.SplitType == s.SplitType
                   && r.sink.BufferSize == s.BufferSize
    ensures ok && s.file.Some? ==> s.file.value.id in r.sink.closed
    ensures ok ==> path in r.sink.fs
    ensures s.fs.Keys <= r.sink.fs.Keys
    ensures forall p :: FileOf(r.sink.fs, p) == FileOf(s.fs, p)
  {
    if !ok then Status(s, false)
    else
      var c := Close(s).sink;
      Status(c.(file := Some(Handle(c.nextId, path)), nextId := c.nextId + 1, fs := c.fs[path := FileOf(c.fs, path)]), true)
  }

  /** `NewBuffer`: an empty, healthy buffer for the current handle. */
  function FreshBuffer(s: Sink): Sink {
    s.(buffer := Buffer(s.file, [], false))
  }

  /** The buffer's handle exists and is open. */
  predicate Writable(s: Sink) {
    s.buffer.target.Some? && s.buffer.target.value.id !in s.closed
  }

  /** `bufio.Writer.Flush`. It succeeds exactly when the buffer is healthy
      and either empty or bound to an open file that accepts the write. A
      successful flush moves the buffered bytes to the end of that file and
      changes nothing else; a failed one writes nothing and leaves the
      buffer failed. */
  function Flush(s: Sink, ok: bool): (r: Status)
    ensures r.ok <==> !s.buffer.failed && (s.buffer.data == [] || (Writable(s) && ok))
    ensures r.ok && s.buffer.data == [] ==> r.sink == s
    ensures r.ok && s.buffer.data != [] ==>
      && s.buffer.target.Some?
      && var p := s.buffer.target.value.path;
      && r.sink == s.(buffer := s.buffer.(data := []), fs := s.fs[p := FileOf(s.fs, p) + s.buffer.data])
    ensures !r.ok ==> r.sink == s.(buffer := s.buffer.(failed := true))
  {
    if s.buffer.failed then Status(s, false)
    else if s.buffer.data == [] then Status(s, true)
    else if !Writable(s) || !ok then Status(s.(buffer := s.buffer.(failed := true)), false)
    else
      var p := s.buffer.target.value.path;
      Status(s.(buffer := s.buffer.(data := []), fs := s.fs[p := FileOf(s.fs, p) + s.buffer.data]), true)
  }

  /** A failed buffer fails every later flush, whatever the file system would
      answer. */
  lemma FlushSticky(s: Sink, ok1: bool, ok2: bool)
    requires !Flush(s, ok1).ok
    ensures Flush(Flush(s, ok1).sink, ok2) == Status(Flush(s, ok1).sink, false)
  {
  }

  /** `FlushBuffer`: flush only when something is buffered. */
  function FlushIfBuffered(s: Sink, ok: bool): Sink {
    if |s.buffer.data| > 0 then Flush(s, ok).sink else s
  }

  /** `bufio.Writer.Write`: only the buffer's bytes change; a healthy
      buffer keeps what it held and takes `data` after it, and a failed one
      takes nothing. */
  function Put(s: Sink, data: Bytes): (r: Sink)
    ensures r == s.(buffer := r.buffer)
    ensures r.buffer == s.buffer.(data := r.buffer.data)
    ensures |s.buffer.data| <= |r.buffer.data| && r.buffer.data[..|s.buffer.data|] == s.buffer.data
    ensures !s.buffer.failed ==> r.buffer.data[|s.buffer.data|..] == data
    ensures s.buffer.failed ==> r == s
  {
    if s.buffer.failed then s else s.(buffer := s.buffer.(data := s.buffer.data + data))
  }

  // ----- the worker's retry loop for one record -----

  /** The state after one pass of the retry loop; `done` is the `break`. */
  datatype Pass = Pass(sink: Sink, data: Bytes, tryTimes: int, done: bool, reopened: bool)

  /** The rotation step of a pass: on a new key, flush what is buffered
      (best effort), open the new path and start a fresh buffer. The
      buffered bytes reach the old file exactly when that flush succeeds; a
      successful open installs a new handle on the new path and closes the
      old one, and a failed open keeps the old handle, so the fresh buffer
      is then bound to the old file although the key has moved on. */
  function Rotate(s: Sink, a: Attempt): (r: SplitResult)
    ensures r.dir == Split(s, a.clock).dir && r.needSplit == Split(s, a.clock).needSplit
    ensures !r.needSplit ==> r.sink == s
    ensures r.needSplit ==> r.sink.buffer == Buffer(r.sink.file, [], false)
    ensures r.needSplit ==> r.sink.logTime == RotationKey(s.SplitType, a.clock)
    ensures r.needSplit && a.rotateOpenOk ==> r.sink.file == Some(Handle(s.nextId, r.dir))
    ensures r.needSplit && a.rotateOpenOk && s.file.Some? ==> s.file.value.id in r.sink.closed
    ensures r.needSplit && !a.rotateOpenOk ==> r.sink.file == s.file
    ensures r.needSplit && (s.buffer.data == [] || !Flush(s, a.rotateFlushOk).ok) ==>
      forall p :: FileOf(r.sink.fs, p) == FileOf(s.fs, p)
    ensures r.needSplit && s.buffer.data != [] && Flush(s, a.rotateFlushOk).ok ==>
      && s.buffer.target.Some?
      && var q := s.buffer.target.value.path;
      && FileOf(r.sink.fs, q) == FileOf(s.fs, q) + s.buffer.data
      && forall p :: p != q ==> FileOf(r.sink.fs, p) == FileOf(s.fs, p)
  {
    var sp := Split(s, a.clock);
    if sp.needSplit then
      SplitResult(FreshBuffer(Open(FlushIfBuffered(sp.sink, a.rotateFlushOk), sp.dir, a.rotateOpenOk).sink), sp.dir, true)
    else sp
  }

  /** One pass: rotate if the clock says so, append a line break to the
      record, flush first when the record would not fit, and on a failed
      flush count the attempt, reopening the path at the tenth. A pass ends
      the loop or counts one attempt; it reopens, with a fresh buffer,
      exactly when a failing attempt finds the counter at 10. */
  function Iterate(s: Sink, data: Bytes, tryTimes: int, a: Attempt): (p: Pass)
    ensures p.data == data + Newline
    ensures p.done ==> p.tryTimes == tryTimes && !p.reopened
    ensures !p.done ==> p.tryTimes == tryTimes + 1 && (p.reopened <==> tryTimes == ReopenAt)
    ensures p.reopened ==> p.sink.buffer == Buffer(p.sink.file, [], false)
  {
    var rot := Rotate(s, a);
    var s1 := rot.sink;
    var d := data + Newline;
    if |s1.buffer.data| + |d| > s1.BufferSize then
      var f := Flush(s1, a.flushOk);
      if !f.ok then
        var reopen := tryTimes == ReopenAt;
        Pass(if reopen then FreshBuffer(Open(f.sink, rot.dir, a.reopenOk).sink) else f.sink, d, tryTimes + 1, false, reopen)
      else Pass(Put(f.sink, d), d, tryTimes, true, false)
    else Pass(Put(s1, d), d, tryTimes, true, false)
  }

  /** The write decision of a pass, after its rotation step: the threshold
      flush happens only when the record and its line break do not fit; the
      loop ends exactly when the record fits or that flush succeeds, and the
      record then goes to the buffer; a pass that does not end leaves no
      new byte in any file, and, without a reopen, leaves the buffer as it
      was but failed. */
  lemma PassWriteDecision(s: Sink, data: Bytes, tryTimes: int, a: Attempt)
    ensures var s1 := Rotate(s, a).sink;
      var p := Iterate(s, data, tryTimes, a);
      var fits := |s1.buffer.data| + |data| + 1 <= s1.BufferSize;
      var f := Flush(s1, a.flushOk);
      && (p.done <==> fits || f.ok)
      && (fits ==> p.sink == Put(s1, data + Newline))
      && (!fits && f.ok ==> p.sink == Put(f.sink, data + Newline))
      && (!p.done && !p.reopened ==> p.sink == s1.(buffer := s1.buffer.(failed := true)))
      && (!p.done ==> forall path :: FileOf(p.sink.fs, path) == FileOf(s1.fs, path))
  {
  }

  /** After a failed flush the buffer refuses every write, and the source
      ignores the error of that write: a record that fits ends the loop as
      if written, yet is in neither the buffer nor any file. */
  lemma StickyBufferLosesRecord(s: Sink, data: Bytes, tryTimes: int, a: Attempt)
    requires s.buffer.failed && !Split(s, a.clock).needSplit
    requires |s.buffer.data| + |data| + 1 <= s.BufferSize
    ensures var p := Iterate(s, data, tryTimes, a);
      p.done && p.sink == s
  {
  }

  /** The forced reopen uses the path of the current pass, and without a
      rotation in that pass this is the base path even when daily or hourly
      files are in use: the records that follow go to `FileDir` itself. */
  lemma ReopenOpensBasePath(s: Sink, data: Bytes, a: Attempt)
    requires s.SplitType != SPLIT_LOG_TYPE_NORMAL && s.logTime == RotationKey(s.SplitType, a.clock)
    requires a.reopenOk
    ensures var p := Iterate(s, data, ReopenAt, a);
      p.reopened ==> p.sink.file == Some(Handle(s.nextId, s.FileDir))
  {
  }

  /** The rotation boundary: when the clock moves to a new key and the
      environment cooperates, the old buffer is flushed into the old file,
      the old handle is closed, the suffixed file is opened, and the fresh
      buffer holds only the new record and its line break. */
  lemma RotationFlushesThenSwitches(s: Sink, data: Bytes, tryTimes: int, a: Attempt)
    requires Split(s, a.clock).needSplit && a.rotateFlushOk && a.rotateOpenOk
    requires Writable(s) && !s.buffer.failed && s.file == s.buffer.target
    requires |data| + 1 <= s.BufferSize
    ensures var p := Iterate(s, data, tryTimes, a);
      var old_path := s.buffer.target.value.path;
      var new_path := Split(s, a.clock).dir;
      && p.done
      && s.file.value.id in p.sink.closed
      && p.sink.file == Some(Handle(s.nextId, new_path))
      && p.sink.buffer == Buffer(Some(Handle(s.nextId, new_path)), data + Newline, false)
      && (old_path != new_path ==> FileOf(p.sink.fs, old_path) == FileOf(s.fs, old_path) + s.buffer.data)
  {
  }

  /** The state after the retry loop has used up `env` or ended;
      `reopens` counts the forced reopens. */
  datatype Run = Run(sink: Sink, data: Bytes, tryTimes: int, done: bool, reopens: nat)

  /** The retry loop for one record, one pass per element of `env`. The
      counter only grows; a loop that ends does so within `env`, and one
      that does not has failed every pass. Every pass appends a line break,
      so the record carries one line break per pass. */
  function WriteRun(s: Sink, data: Bytes, tryTimes: int, env: seq<Attempt>): (r: Run)
    ensures tryTimes <= r.tryTimes
    ensures r.done ==> r.tryTimes - tryTimes < |env|
    ensures !r.done ==> r.tryTimes - tryTimes == |env|
    ensures r.data == data + Newlines(r.tryTimes - tryTimes + (if r.done then 1 else 0))
    decreases |env|
  {
    if env == [] then Run(s, data, tryTimes, false, 0)
    else
      var p := Iterate(s, data, tryTimes, env[0]);
      if p.done then
        NewlinesSucc(0);
        Run(p.sink, p.data, p.tryTimes, true, 0)
      else
        var r := WriteRun(p.sink, p.data, p.tryTimes, env[1..]);
        NewlinesSucc(r.tryTimes - p.tryTimes + (if r.done then 1 else 0));
        r.(reopens := r.reopens + if p.reopened then 1 else 0)
  }

  /** The forced reopen happens at most once per record: exactly when the
      attempt counter passes 10. */
  lemma {:induction false} RunReopens(s: Sink, data: Bytes, tryTimes: int, env: seq<Attempt>)
    ensures var r := WriteRun(s, data, tryTimes, env);
      r.reopens == if tryTimes <= ReopenAt < r.tryTimes then 1 else 0
    decreases |env|
  {
    if env != [] {
      var p := Iterate(s, data, tryTimes, env[0]);
      if !p.done {
        RunReopens(p.sink, p.data, p.tryTimes, env[1..]);
      }
    }
  }

  /** The record as first handed to the loop: `failures` failed attempts
      mean `failures + 1` line breaks and one reopen if `failures` reached
      10. */
  lemma RecordOutcome(s: Sink, record: Bytes, env: seq<Attempt>)
    ensures var r := WriteRun(s, record, 1, env);
      var failures := r.tryTimes - 1;
      && failures >= 0
      && (r.done ==> r.data == record + Newlines(failures + 1))
      && (r.done ==> failures < |env|)
      && r.reopens == (if failures >= ReopenAt then 1 else 0)
  {
    RunReopens(s, record, 1, env);
  }

  /** A pass that starts from an empty, healthy buffer always ends: a
      flush of nothing succeeds, so the record goes into the buffer. */
  lemma FreshPassEnds(s: Sink, data: Bytes, tryTimes: int, a: Attempt)
    requires s.buffer.data == [] && !s.buffer.failed
    ensures Iterate(s, data, tryTimes, a).done
  {
  }

  /** The forced reopen bounds the loop: from an attempt counter of at most
      10, the loop ends within the passes left until the reopen, plus the
      pass on the fresh buffer. */
  lemma {:induction false} EndsWithin(s: Sink, data: Bytes, tryTimes: int, env: seq<Attempt>)
    requires tryTimes <= ReopenAt && |env| >= ReopenAt - tryTimes + 2
    ensures WriteRun(s, data, tryTimes, env).done
    ensures WriteRun(s, data, tryTimes, env).tryTimes <= ReopenAt + 1
    decreases |env|
  {
    var p := Iterate(s, data, tryTimes, env[0]);
    if !p.done {
      if p.reopened {
        FreshPassEnds(p.sink, p.data, p.tryTimes, env[1..][0]);
      } else {
        EndsWithin(p.sink, p.data, p.tryTimes, env[1..]);
      }
    }
  }

  /** A record is in the buffer after at most 11 passes: ten failed
      flushes, the reopen, and one pass on the fresh buffer. */
  lemma RecordEndsWithinElevenPasses(s: Sink, record: Bytes, env: seq<Attempt>)
    requires |env| >= ReopenAt + 1
    ensures WriteRun(s, record, 1, env).done
    ensures WriteRun(s, record, 1, env).tryTimes <= ReopenAt + 1
  {
    EndsWithin(s, record, 1, env);
  }

  /** The outcome of the retry loop as written: the reopen pass locks the
      old buffer, replaces it and then unlocks the new buffer, whose mutex
      was never locked; Go ends the process on that unlock. */
  datatype Outcome = Ended(r: Run) | Crashed

  function WriteRunAsWritten(s: Sink, data: Bytes, tryTimes: int, env: seq<Attempt>): Outcome
    decreases |env|
  {
    if env == [] then Ended(Run(s, data, tryTimes, false, 0))
    else
      var p := Iterate(s, data, tryTimes, env[0]);
      if p.reopened then Crashed
      else if p.done then Ended(Run(p.sink, p.data, p.tryTimes, true, 0))
      else WriteRunAsWritten(p.sink, p.data, p.tryTimes, env[1..])
  }

  /** As written, the process ends exactly when a record reaches its tenth
      failed flush; otherwise the loop agrees with `WriteRun`, which then
      makes no reopen, so no record is written after 10 or more failures. */
  lemma {:induction false} AsWrittenCrashesAtTenthFailure(s: Sink, data: Bytes, tryTimes: int, env: seq<Attempt>)
    requires tryTimes <= ReopenAt
    ensures var o := WriteRunAsWritten(s, data, tryTimes, env);
      var r := WriteRun(s, data, tryTimes, env);
      && (o.Crashed? <==> r.tryTimes > ReopenAt)
      && (o.Ended? ==> o.r == r && r.tryTimes <= ReopenAt && r.reopens == 0)
    decreases |env|
  {
    if env != [] {
      var p := Iterate(s, data, tryTimes, env[0]);
      if !p.reopened && !p.done {
        AsWrittenCrashesAtTenthFailure(p.sink, p.data, p.tryTimes, env[1..]);
      }
    }
  }

  /** When the loop ends, the record sits at the end of the buffer, unless
      the buffer was already failed and silently dropped it (see
      `StickyBufferLosesRecord`). */
  lemma {:induction false} WrittenRecordIsBuffered(s: Sink, data: Bytes, tryTimes: int, env: seq<Attempt>)
    ensures var r := WriteRun(s, data, tryTimes, env);
      r.done && !r.sink.buffer.failed ==>
        |r.data| <= |r.sink.buffer.data| && r.sink.buffer.data[|r.sink.buffer.data| - |r.data|..] == r.data
    decreases |env|
  {
    if env != [] {
      var p := Iterate(s, data, tryTimes, env[0]);
      if !p.done {
        WrittenRecordIsBuffered(p.sink, p.data, p.tryTimes, env[1..]);
      }
    }
  }

  /** A poll of `SignQuite`: flush, then close when the queue is empty. */
  function Poll(s: Sink, ok: bool, queueEmpty: bool): Sink {
    var f := FlushIfBuffered(s, ok);
    if queueEmpty then Close(f).sink else f
  }

  /** Polls while the queue stays non-empty. */
  function Polls(s: Sink, oks: seq<bool>): Sink
    decreases |oks|
  {
    if oks == [] then s else Polls(FlushIfBuffered(s, oks[0]), oks[1..])
  }

  lemma {:induction false} PollsAppend(s: Sink, oks: seq<bool>, ok: bool)
    ensures Polls(s, oks + [ok]) == FlushIfBuffered(Polls(s, oks), ok)
    decreases |oks|
  {
    if oks != [] {
      assert (oks + [ok])[1..] == oks[1..] + [ok];
      PollsAppend(FlushIfBuffered(s, oks[0]), oks[1..], ok);
    }
  }

  /** A poll that finds the queue empty leaves the file closed, after a
      flush that, when it succeeds, leaves nothing in the buffer. */
  lemma DrainClosesAfterFlush(s: Sink, ok: bool)
    requires s.file.Some?
    ensures var q := Poll(s, ok, true);
      && s.file.value.id in q.closed
      && q.file == s.file
      && (!s.buffer.failed && (s.buffer.data == [] || (Writable(s) && ok)) ==> q.buffer.data == [])
  {
  }

  datatype Panic = OpenFileFailed(path: Bytes)

  class AsyncFile {
    var FileDir: Bytes
    var SplitType: int
    var BufferSize: int
    var logTime: int
    var file: Option<Handle>
    var closed: set<nat>
    var nextId: nat
    var buffer: Buffer
    var fs: map<Bytes, Bytes>
    /** The queue this sink drains. */
    const logQueue: Channel

    function State(): Sink
      reads this
    {
      Sink(FileDir, SplitType, BufferSize, logTime, file, closed, nextId, buffer, fs)
    }

    constructor (fileDir: Bytes, splitType: int, bufferSize: int, q: Channel, fs: map<Bytes, Bytes>)
      ensures State() == Sink(fileDir, splitType, bufferSize, 0, None, {}, 0, Buffer(None, [], false), fs)
      ensures logQueue == q
    {
      FileDir, SplitType, BufferSize := fileDir, splitType, bufferSize;
      logTime, file, closed, nextId := 0, None, {}, 0;
      buffer := Buffer(None, [], false);
      this.fs := fs;
      logQueue := q;
    }

    /** `newAsyncFile`: check, open the path for the starting clock (a
        failed open panics) and make the first buffer. The two worker
        goroutines are not started; their steps are `ServeNext` and
        `FlushBuffer`. */
    static method NewAsyncFile(fileDir: Bytes, splitType: int, bufferSize: int, q: Channel,
                               fs: map<Bytes, Bytes>, c: Clock, openOk: bool)
      returns (r: Result<AsyncFile, Panic>)
      ensures var s0 := Checked(Sink(fileDir, splitType, bufferSize, 0, None, {}, 0, Buffer(None, [], false), fs));
        var sp := Split(s0, c);
        var o := Open(sp.sink, sp.dir, openOk);
        && (r.Ok? <==> o.ok)
        && (r.Err? ==> r.error == OpenFileFailed(sp.dir))
        && (r.Ok? ==> fresh(r.value) && r.value.logQueue == q && r.value.State() == FreshBuffer(o.sink))
    {
      var al := new AsyncFile(fileDir, splitType, bufferSize, q, fs);
      al.Check();
      var fileFullPath, _ := al.SplitFileFullPath(c);
      var ok := al.OpenFile(fileFullPath, openOk);
      if !ok {
        return Err(OpenFileFailed(fileFullPath));
      }
      al.NewBuffer();
      r := Ok(al);
    }

    /** `check`. */
    method Check()
      modifies this
      ensures State() == Checked(old(State()))
    {
      if FileDir == [] {
        FileDir := DefaultFileDir;
      }
      if BufferSize == 0 {
        BufferSize := DefaultBufferSize;
      }
    }

    /** `SplitFileFullPath` for the clock reading `c`. */
    method SplitFileFullPath(c: Clock) returns (dir: Bytes, needCreate: bool)
      modifies this
      ensures SplitResult(State(), dir, needCreate) == Split(old(State()), c)
    {
      dir := FileDir;
      needCreate := false;
      if SplitType == SPLIT_LOG_TYPE_NORMAL {
        return;
      }
      var nowTime := 0;
      var format: Bytes := [];
      if SplitType == SPLIT_LOG_TYPE_DAY {
        nowTime, format := c.day, c.daySuffix;
      } else if SplitType == SPLIT_LOG_TYPE_HOUR {
        nowTime, format := c.hour, c.hourSuffix;
      }
      if logTime != nowTime {
        dir := FileDir + Ascii(".") + format;
        needCreate := true;
        logTime := nowTime;
      }
    }

    /** `CloseFile`. */
    method CloseFile() returns (ok: bool)
      modifies this
      ensures Status(State(), ok) == Close(old(State()))
    {
      ok := true;
      if file.Some? {
        ok := file.value.id !in closed;
        closed := closed + {file.value.id};
      }
    }

    /** `OpenFile`; `openOk` is the answer of the operating system. */
    method OpenFile(fileDir: Bytes, openOk: bool) returns (ok: bool)
      modifies this
      ensures Status(State(), ok) == Open(old(State()), fileDir, openOk)
    {
      if !openOk {
        return false;
      }
      var _ := CloseFile();
      file := Some(Handle(nextId, fileDir));
      nextId := nextId + 1;
      fs := fs[fileDir := FileOf(fs, fileDir)];
      ok := true;
    }

    /** `NewBuffer`. */
    method NewBuffer()
      modifies this
      ensures State() == FreshBuffer(old(State()))
    {
      buffer := Buffer(file, [], false);
    }

    /** `c.buffer.B.Flush()`; `flushOk` is the answer of the file. */
    method BufferFlush(flushOk: bool) returns (ok: bool)
      modifies this
      ensures Status(State(), ok) == Flush(old(State()), flushOk)
    {
      if buffer.failed {
        return false;
      }
      if buffer.data == [] {
        return true;
      }
      if buffer.target.None? || buffer.target.value.id in closed || !flushOk {
        buffer := buffer.(failed := true);
        return false;
      }
      var p := buffer.target.value.path;
      fs := fs[p := FileOf(fs, p) + buffer.data];
      buffer := buffer.(data := []);
      ok := true;
    }

    /** `c.buffer.B.Write(data)`, whose error the source ignores. */
    method BufferWrite(data: Bytes)
      modifies this
      ensures State() == Put(old(State()), data)
    {
      if !buffer.failed {
        buffer := buffer.(data := buffer.data + data);
      }
    }

    /** `FlushBuffer`, also the step of the one-second flush ticker. */
    method FlushBuffer(flushOk: bool)
      modifies this
      ensures State() == FlushIfBuffered(old(State()), flushOk)
    {
      if |buffer.data| > 0 {
        var _ := BufferFlush(flushOk);
      }
    }

    /** The rotation step of a pass: on a new key, flush, open the new
        path and start a fresh buffer. */
    method RotateFile(a: Attempt) returns (fileDir: Bytes)
      modifies this
      ensures var rot := Rotate(old(State()), a);
        State() == rot.sink && fileDir == rot.dir
    {
      var needSplit;
      fileDir, needSplit := SplitFileFullPath(a.clock);
      if needSplit {
        FlushBuffer(a.rotateFlushOk);
        var _ := OpenFile(fileDir, a.rotateOpenOk);
        NewBuffer();
      }
    }

    /** One pass of the retry loop of `TickerWriteBuffer`; `done` is the
        `break`, and a pass that does not end counts one attempt. */
    method WritePass(record: Bytes, tryTimes: int, a: Attempt) returns (done: bool, tries: int, data: Bytes)
      modifies this
      ensures var p := Iterate(old(State()), record, tryTimes, a);
        State() == p.sink && done == p.done && tries == p.tryTimes && data == p.data
    {
      tries := tryTimes;
      var fileDir := RotateFile(a);
      data := AppendEach(record, Newline);
      if |buffer.data| + |data| > BufferSize {
        var ok := BufferFlush(a.flushOk);
        if !ok {
          if tries == ReopenAt {
            var _ := OpenFile(fileDir, a.reopenOk);
            NewBuffer();
          }
          tries := tries + 1;
          return false, tries, data;
        }
      }
      BufferWrite(data);
      done := true;
    }

    /** The retry loop of `TickerWriteBuffer` for one dequeued record, one
        pass per element of `env` until the loop ends; the source retries
        without bound. */
    method WriteRecord(record: Bytes, env: seq<Attempt>) returns (done: bool, tryTimes: int, data: Bytes)
      modifies this
      ensures var r := WriteRun(old(State()), record, 1, env);
        State() == r.sink && done == r.done && tryTimes == r.tryTimes && data == r.data
    {
      ghost var r0 := WriteRun(State(), record, 1, env);
      data, tryTimes, done := record, 1, false;
      var i := 0;
      while i < |env| && !done
        invariant 0 <= i <= |env|
        invariant !done ==> WriteRun(State(), data, tryTimes, env[i..]).(reopens := 0) == r0.(reopens := 0)
        invariant done ==> State() == r0.sink && data == r0.data && tryTimes == r0.tryTimes && r0.done
        decreases |env| - i
      {
        assert env[i..][0] == env[i] && env[i..][1..] == env[i + 1..];
        done, tryTimes, data := WritePass(data, tryTimes, env[i]);
        i := i + 1;
      }
    }

    /** One turn of the worker: take the oldest record, if any, and run the
        retry loop on it. */
    method ServeNext(env: seq<Attempt>) returns (record: Option<Bytes>, done: bool)
      modifies this, logQueue
      ensures old(logQueue.items) == [] ==> record == None && !done && State() == old(State())
                                             && logQueue.items == old(logQueue.items)
      ensures old(logQueue.items) != [] ==>
        && record == Some(old(logQueue.items)[0])
        && logQueue.items == old(logQueue.items)[1..]
        && var r := WriteRun(old(State()), record.value, 1, env);
           State() == r.sink && done == r.done
    {
      if logQueue.items == [] {
        return None, false;
      }
      var data := logQueue.Receive();
      var w, _, _ := WriteRecord(data, env);
      record, done := Some(data), w;
    }

    /** `SignQuite`, one element of `polls` per tick: flush, and once the
        queue is empty close the file and report completion. Nothing drains
        the queue during the call, so a non-empty queue means every poll
        just flushes. */
    method SignQuite(polls: seq<bool>) returns (done: bool)
      modifies this
      ensures done <==> |polls| > 0 && logQueue.items == []
      ensures done ==> State() == Poll(old(State()), polls[0], true)
      ensures !done ==> State() == Polls(old(State()), polls)
    {
      var i := 0;
      while i < |polls|
        invariant 0 <= i <= |polls|
        invariant i > 0 ==> logQueue.items != []
        invariant State() == Polls(old(State()), polls[..i])
      {
        FlushBuffer(polls[i]);
        PollsAppend(old(State()), polls[..i], polls[i]);
        assert polls[..i + 1] == polls[..i] + [polls[i]];
        if logQueue.Len() == 0 {
          var _ := CloseFile();
          return true;
        }
        i := i + 1;
      }
      assert polls[..i] == polls;
      done := false;
    }
  }
}
