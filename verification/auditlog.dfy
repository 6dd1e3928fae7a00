/**
 The append-only, level-filtered audit log (`openLog`, `shallLog`,
 `writeLog` and `candidateLogMessage` in payouts-substitutor/main.go).

 The file is modelled by the lines appended to it during one batch; each
 write appends the message followed by a newline.
 */
module AuditLog {
  import opened Wrappers
  import opened LogLevels
  import opened Addresses

  /** No log file configured (Go's nil `*os.File`), or an open file and the
      lines written to it so far. */
  datatype LogFile = Disabled | Open(written: seq<string>)

  /** The operating system's answers: whether the file opens, and whether a
      write of `message` succeeds after `written` has been appended. */
  datatype LogIo = LogIo(opens: bool, accepts: (seq<string>, string) -> bool)

  datatype LogError = OpenFailed | WriteFailed(message: string)

  /** A record before filtering: its severity and its text. */
  datatype Entry = Entry(level: string, message: string)

  /** `f` grows into `g` by appending only. */
  predicate Extends(f: LogFile, g: LogFile) {
    (f.Disabled? ==> g.Disabled?) && (f.Open? ==> g.Open? && f.written <= g.written)
  }

  ghost predicate AcceptsAll(io: LogIo) {
    forall written, message :: io.accepts(written, message)
  }

  /** An empty path disables logging; otherwise the file is opened. */
  function OpenLog(path: string, io: LogIo): (r: Result<LogFile, LogError>)
    ensures r.Success? && r.value.Open? ==> r.value.written == []
    ensures r.Success? <==> path == "" || io.opens
    ensures r.Success? ==> (r.value.Open? <==> path != "")
  {
    if |path| > 0 then
      if io.opens then Success(Open([])) else Failure(OpenFailed)
    else
      Success(Disabled)
  }

  /** Append `message` when a file is open and `level` passes the threshold. */
  function WriteLog(configured: string, io: LogIo, f: LogFile, message: string, level: string)
    : (r: Result<LogFile, LogError>)
    ensures r.Success? ==> Extends(f, r.value)
    ensures r.Failure? <==> f.Open? && ShallLog(configured, level) && !io.accepts(f.written, message)
    ensures r.Success? && f.Open? && ShallLog(configured, level) ==>
              r.value.written == f.written + [message + "\n"]
    ensures r.Success? && !(f.Open? && ShallLog(configured, level)) ==> r.value == f
  {
    if f.Open? && ShallLog(configured, level) then
      if io.accepts(f.written, message) then Success(Open(f.written + [message + "\n"]))
      else Failure(WriteFailed(message))
    else
      Success(f)
  }

  /** The outcome of writing several records: the first write error, if
      any, and the log as it stands after the writes that succeeded. */
  datatype Appended = Appended(error: Option<LogError>, log: LogFile)

  /** Write records in order, stopping at the first write that fails. */
  function WriteEntries(configured: string, io: LogIo, f: LogFile, entries: seq<Entry>): (r: Appended)
    ensures Extends(f, r.log)
    ensures r.error.None? ==> r.log == AfterWrites(configured, f, entries)
    ensures r.error.None? <==> AcceptsInTurn(configured, io, f, entries)
    decreases |entries|
  {
    if entries == [] then
      assert f.Open? ==> f.written + Filter(configured, []) == f.written;
      Appended(None, f)
    else
      match WriteLog(configured, io, f, entries[0].message, entries[0].level)
      case Failure(e) => Appended(Some(e), f)
      case Success(g) =>
        assert g == AfterWrites(configured, f, [entries[0]]);
        AfterWritesAppend(configured, f, [entries[0]], entries[1..]);
        assert [entries[0]] + entries[1..] == entries;
        WriteEntries(configured, io, g, entries[1..])
  }

  /** Every record of `entries` that passes the threshold is accepted by
      the file, each after the lines of the records before it. */
  ghost predicate AcceptsInTurn(configured: string, io: LogIo, f: LogFile, entries: seq<Entry>)
    decreases |entries|
  {
    || f.Disabled?
    || entries == []
    || (&& (ShallLog(configured, entries[0].level) ==> io.accepts(f.written, entries[0].message))
        && AcceptsInTurn(configured, io, AfterWrites(configured, f, [entries[0]]), entries[1..]))
  }

  /** Accepting a concatenation in turn is accepting its first part, and
      then its second part after the first part's lines. */
  lemma {:induction false} AcceptsInTurnAppend(configured: string, io: LogIo, f: LogFile, a: seq<Entry>, b: seq<Entry>)
    ensures AcceptsInTurn(configured, io, f, a + b)
            <==> AcceptsInTurn(configured, io, f, a)
                 && AcceptsInTurn(configured, io, AfterWrites(configured, f, a), b)
    decreases |a|
  {
    if f.Disabled? {
    } else if a == [] {
      assert a + b == b;
      assert f.written + Filter(configured, []) == f.written;
    } else {
      assert (a + b)[0] == a[0];
      assert (a + b)[1..] == a[1..] + b;
      var g := AfterWrites(configured, f, [a[0]]);
      AcceptsInTurnAppend(configured, io, g, a[1..], b);
      AfterWritesAppend(configured, f, [a[0]], a[1..]);
      assert [a[0]] + a[1..] == a;
    }
  }

  /** The lines a sequence of records leaves in an open file that accepts
      every write. */
  function Filter(configured: string, entries: seq<Entry>): (lines: seq<string>)
    ensures |lines| <= |entries|
  {
    if entries == [] then []
    else
      (if ShallLog(configured, entries[0].level) then [entries[0].message + "\n"] else [])
      + Filter(configured, entries[1..])
  }

  lemma {:induction false} FilterAppend(configured: string, a: seq<Entry>, b: seq<Entry>)
    ensures Filter(configured, a + b) == Filter(configured, a) + Filter(configured, b)
    decreases |a|
  {
    if a == [] {
      assert a + b == b;
    } else {
      assert (a + b)[1..] == a[1..] + b;
      FilterAppend(configured, a[1..], b);
    }
  }

  /** What a log holds after the lines of `entries` that pass the filter. */
  function AfterWrites(configured: string, f: LogFile, entries: seq<Entry>): LogFile {
    if f.Open? then Open(f.written + Filter(configured, entries)) else Disabled
  }

  lemma AfterWritesAppend(configured: string, f: LogFile, a: seq<Entry>, b: seq<Entry>)
    ensures AfterWrites(configured, AfterWrites(configured, f, a), b) == AfterWrites(configured, f, a + b)
  {
    FilterAppend(configured, a, b);
    if f.Open? {
      assert f.written + Filter(configured, a) + Filter(configured, b)
             == f.written + (Filter(configured, a) + Filter(configured, b));
    }
  }

  /** A log that takes every write (or no log at all) receives exactly the
      records that pass the threshold, and no write fails. */
  lemma {:induction false} WriteEntriesComplete(configured: string, io: LogIo, f: LogFile, entries: seq<Entry>)
    requires f.Disabled? || AcceptsAll(io)
    ensures WriteEntries(configured, io, f, entries) == Appended(None, AfterWrites(configured, f, entries))
    decreases |entries|
  {
    if entries == [] {
      assert f.Open? ==> f.written + Filter(configured, []) == f.written;
    } else {
      var e := entries[0];
      var g := WriteLog(configured, io, f, e.message, e.level);
      assert g.Success?;
      assert g.value == AfterWrites(configured, f, [e]);
      WriteEntriesComplete(configured, io, g.value, entries[1..]);
      AfterWritesAppend(configured, f, [e], entries[1..]);
      assert [e] + entries[1..] == entries;
    }
  }

  /** When every record passes (for instance at threshold `debug`), every
      record is written, in order. */
  lemma {:induction false} FilterKeepsAll(configured: string, entries: seq<Entry>)
    requires forall i :: 0 <= i < |entries| ==> ShallLog(configured, entries[i].level)
    ensures |Filter(configured, entries)| == |entries|
    ensures forall i :: 0 <= i < |entries| ==> Filter(configured, entries)[i] == entries[i].message + "\n"
  {
    if entries != [] {
      FilterKeepsAll(configured, entries[1..]);
    }
  }

  /** A per-candidate line is prefixed with the candidate's source. */
  function CandidateLogMessage(source: Address, message: string): (line: string)
    ensures source <= line
    ensures |line| == |source| + 2 + |message|
    ensures line[|source| + 2..] == message
  {
    source + ": " + message
  }
}
