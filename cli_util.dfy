/**
 * The command line's `util` module (`src/cli.rs`): the error report printed on failure,
 * the mapping from `-v` occurrences to the logger's maximum level, and the logger's
 * choice of stream and line prefix.
 */
module CliUtil {
  import opened Wrappers
  import opened RustStr
  import opened Process

  // ---------------------------------------------------------------------------
  // `pretty_error`

  function CauseLine(cause: string): string {
    "Caused by: " + cause
  }

  /** The causes' report lines, one per cause, in chain order, each ended by a newline. */
  function CauseText(causes: seq<string>): string
    decreases |causes|
  {
    if causes == [] then []
    else CauseText(causes[..|causes| - 1]) + CauseLine(causes[|causes| - 1]) + "\n"
  }

  /** The report `pretty_error` builds for an error whose text is `msg` and whose causes are `causes`. */
  function PrettyText(msg: string, causes: seq<string>): string {
    "Error: " + msg + "\n" + CauseText(causes)
  }

  /** The report's lines: the error's, then one per cause. */
  function ReportLines(msg: string, causes: seq<string>): (lines: seq<string>)
    ensures |lines| == |causes| + 1
  {
    ["Error: " + msg] + seq(|causes|, k requires 0 <= k < |causes| => CauseLine(causes[k]))
  }

  /** `pretty_error`: the string grows by one line per cause. */
  method PrettyError(msg: string, causes: seq<string>) returns (pretty: string)
    ensures pretty == PrettyText(msg, causes)
  {
    pretty := "Error: ";
    pretty := pretty + msg;
    pretty := pretty + "\n";
    for i := 0 to |causes|
      invariant pretty == "Error: " + msg + "\n" + CauseText(causes[..i])
    {
      pretty := pretty + "Caused by: ";
      pretty := pretty + causes[i];
      pretty := pretty + "\n";
      assert causes[..i + 1][..i] == causes[..i];
    }
    assert causes[..|causes|] == causes;
  }

  /** The report is its lines joined by newlines, with a newline after the last one. */
  lemma {:induction false} PrettyJoin(msg: string, causes: seq<string>)
    ensures PrettyText(msg, causes) == Join(ReportLines(msg, causes), '\n') + "\n"
    decreases |causes|
  {
    if causes != [] {
      var init := causes[..|causes| - 1];
      var last := causes[|causes| - 1];
      PrettyJoin(msg, init);
      assert ReportLines(msg, causes) == ReportLines(msg, init) + [CauseLine(last)];
      JoinAppend(ReportLines(msg, init), [CauseLine(last)], '\n');
    }
  }

  /**
   * Reading the report back line by line: when neither the message nor a cause holds a
   * newline, it has one line for the error and one per cause, in chain order, and ends
   * with a newline (the last piece of the split is empty).
   */
  lemma PrettyErrorLines(msg: string, causes: seq<string>)
    requires Free(msg, '\n')
    requires forall k :: 0 <= k < |causes| ==> Free(causes[k], '\n')
    ensures Split(PrettyText(msg, causes), '\n') == ReportLines(msg, causes) + [""]
    ensures |Split(PrettyText(msg, causes), '\n')| == |causes| + 2
  {
    var lines := ReportLines(msg, causes);
    PrettyJoin(msg, causes);
    JoinAppend(lines, [""], '\n');
    assert Join(lines + [""], '\n') == PrettyText(msg, causes);
    forall k | 0 <= k < |lines + [""]|
      ensures Free((lines + [""])[k], '\n')
    {
      if 1 <= k < |lines| {
        assert (lines + [""])[k] == "Caused by: " + causes[k - 1];
      }
    }
    SplitJoin(lines + [""], '\n');
  }

  // ---------------------------------------------------------------------------
  // Levels

  /** `log::Level`, most severe first. */
  datatype Level = Error | Warn | Info | Debug | Trace

  /** `log::LevelFilter`: nothing, or everything up to a level. */
  datatype LevelFilter = Off | UpTo(level: Level)

  function Rank(l: Level): nat {
    match l
    case Error => 1
    case Warn => 2
    case Info => 3
    case Debug => 4
    case Trace => 5
  }

  /** Whether a record of `level` passes the maximum level `filter`. */
  predicate Enabled(level: Level, filter: LevelFilter) {
    filter.UpTo? && Rank(level) <= Rank(filter.level)
  }

  /** The maximum level `init_logger` sets for a number of `-v` occurrences. */
  function VerbosityFilter(verbosity: nat): Level {
    if verbosity == 0 then Info
    else if verbosity == 1 then Debug
    else Trace
  }

  /**
   * More `-v` never hides a record that fewer showed, no setting hides information,
   * warnings or errors, and only no `-v` at all selects the terse Info mode.
   */
  lemma VerbosityMonotone(v: nat, w: nat, level: Level)
    requires v <= w
    ensures Enabled(level, UpTo(VerbosityFilter(v))) ==> Enabled(level, UpTo(VerbosityFilter(w)))
    ensures Rank(level) <= Rank(Info) ==> Enabled(level, UpTo(VerbosityFilter(v)))
    ensures VerbosityFilter(v) == Info <==> v == 0
    ensures Enabled(Trace, UpTo(VerbosityFilter(v))) <==> v >= 2
  {
  }

  // ---------------------------------------------------------------------------
  // `Logger::log`

  /**
   * A line the logger writes: the terse Info-mode form, or the detailed form whose
   * timestamp and source location are not modelled.
   */
  datatype LogLine = Prefixed(prefix: string, message: string) | Stamped(level: Level, message: string)

  datatype Emitted = Emitted(stream: Stream, line: LogLine)

  /** Informational records go to standard output and all others to standard error, in both modes. */
  function Route(level: Level): Stream {
    if level == Info then Stdout else Stderr
  }

  /** The Info-mode prefix; only the three levels that Info mode lets through have one. */
  function InfoPrefix(level: Level): (p: string)
    requires Rank(level) <= Rank(Info)
    ensures |p| == 4
  {
    match level
    case Info => "  - "
    case Warn => "!!! "
    case Error => "xxx "
  }

  /** What one `log!` call writes under the maximum level `filter`, if anything. */
  function Emit(filter: LevelFilter, level: Level, msg: string): Option<Emitted> {
    if !Enabled(level, filter) then None
    else if filter == UpTo(Info) then Some(Emitted(Route(level), Prefixed(InfoPrefix(level), msg)))
    else Some(Emitted(Route(level), Stamped(level, msg)))
  }

  /**
   * What a record turns into: nothing when its level is filtered out, otherwise one line
   * on standard output exactly for informational records; in Info mode the line is the
   * message behind the level's prefix.
   */
  lemma EmitCases(filter: LevelFilter, level: Level, msg: string)
    ensures Emit(filter, level, msg).Some? <==> Enabled(level, filter)
    ensures Emit(filter, level, msg).Some? ==> (Emit(filter, level, msg).value.stream == Stdout <==> level == Info)
    ensures Emit(filter, level, msg).Some? && filter == UpTo(Info) ==>
      Emit(filter, level, msg).value.line.Prefixed? &&
      Emit(filter, level, msg).value.line.prefix == (if level == Info then "  - " else if level == Warn then "!!! " else "xxx ")
    ensures Emit(filter, level, msg).Some? && filter != UpTo(Info) ==>
      Emit(filter, level, msg).value.line == Stamped(level, msg)
  {
  }

  /** An Info-mode line gives back its level and its message: the three prefixes differ and have one length. */
  lemma InfoLineRecoverable(l1: Level, m1: string, l2: Level, m2: string)
    requires Rank(l1) <= Rank(Info) && Rank(l2) <= Rank(Info)
    requires InfoPrefix(l1) + m1 == InfoPrefix(l2) + m2
    ensures l1 == l2 && m1 == m2
  {
    var s := InfoPrefix(l1) + m1;
    assert s[..4] == InfoPrefix(l1) && s[..4] == InfoPrefix(l2);
    assert s[4..] == m1 && s[4..] == m2;
    assert InfoPrefix(l1)[0] == InfoPrefix(l2)[0];
  }

  /** The process-wide logging state of the `log` crate, with what the logger has written. */
  class Logger {
    var installed: bool
    var maxLevel: LevelFilter
    var written: seq<Emitted>

    constructor ()
      ensures !installed && maxLevel == Off && written == []
    {
      installed := false;
      maxLevel := Off;
      written := [];
    }

    /** A `log!` call: the macro's level check, then `Logger::log`. */
    method Log(level: Level, msg: string)
      modifies this
      ensures installed == old(installed) && maxLevel == old(maxLevel)
      ensures written == old(written) + match Emit(maxLevel, level, msg) case Some(e) => [e] case None => []
    {
      if Enabled(level, maxLevel) {
        var line := if maxLevel == UpTo(Info) then Prefixed(InfoPrefix(level), msg) else Stamped(level, msg);
        written := written + [Emitted(Route(level), line)];
      }
    }

    /**
     * `init_logger`: installs the logger (installing twice is a panic), sets the maximum
     * level from the verbosity and logs the verbosity at debug level, which shows only
     * when at least one `-v` was given.
     */
    method InitLogger(verbosity: nat)
      requires !installed
      modifies this
      ensures installed && maxLevel == UpTo(VerbosityFilter(verbosity))
      ensures written == old(written) +
        if verbosity == 0 then [] else [Emitted(Stderr, Stamped(Debug, "verbosity=" + Decimal(verbosity)))]
    {
      installed := true;
      if verbosity == 0 {
        maxLevel := UpTo(Info);
      } else if verbosity == 1 {
        maxLevel := UpTo(Debug);
      } else {
        maxLevel := UpTo(Trace);
      }
      Log(Debug, "verbosity=" + Decimal(verbosity));
    }
  }
}
