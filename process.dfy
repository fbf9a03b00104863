/**
 * Running one external command: `spawn_and_indent_with_stdin` and `spawn_and_indent`
 * in `src/lib.rs`, and the `std::process::Command` builder they consume.
 *
 * The operating system is a `Host`: an oracle `behaviour` that says, for each invocation,
 * how the child behaves (whether it spawns, whether each pipe is captured, how many stdin
 * bytes it takes before the pipe breaks, the lines it prints on each stream, what `wait`
 * returns). The host keeps a log of the invocations it was asked to spawn and the lines
 * forwarded to the output sink. The two drain threads are run one after the other
 * (stdout, then stderr): what is modelled is the order within each stream.
 */
module Process {
  import opened Wrappers
  import opened Errors
  import opened RustStr

  datatype Stream = Stdout | Stderr

  /** One line handed to the output sink (`output!` for stdout, `eoutput!` for stderr). */
  datatype Record = Record(stream: Stream, text: string)

  /** `ExitStatus`: `code` is absent when a signal ended the child. */
  datatype ExitStatus = ExitStatus(code: Option<i32>) {
    predicate Success() {
      code == Some(0)
    }
  }

  /** One item of `BufReader::lines()`: a line, or a read/decode failure. */
  datatype LineRead = Line(text: string) | ReadFailure(readError: IoError)

  /** The child's stdin: it takes `capacity` bytes (all, if none) and then the pipe breaks. */
  datatype StdinPipe = StdinPipe(capacity: Option<nat>, brokenPipe: IoError)

  /** What the operating system and the child do when an invocation is spawned. */
  datatype ChildBehaviour = ChildBehaviour(
    spawnError: Option<IoError>,
    stdinPiped: bool,
    stdoutPiped: bool,
    stderrPiped: bool,
    stdin: StdinPipe,
    stdoutLines: seq<LineRead>,
    stderrLines: seq<LineRead>,
    wait: Result<ExitStatus, IoError>)

  /**
   * A command as spawned: program, arguments, environment overrides, and the chunks the
   * stdin closure writes with `write_all`, in order.
   */
  datatype Invocation = Invocation(program: string, args: seq<string>, env: map<string, string>, stdin: seq<string>)

  /** The bytes the stdin closure means to deliver. */
  function Payload(inv: Invocation): string {
    Concat(inv.stdin)
  }

  /** `std::process::Command`, grown one argument or variable at a time. */
  class Command {
    const program: string
    var args: seq<string>
    var envs: map<string, string>

    constructor (program: string)
      ensures this.program == program && args == [] && envs == map[]
    {
      this.program := program;
      args := [];
      envs := map[];
    }

    /** `Command::arg`. */
    method Arg(a: string)
      modifies this
      ensures args == old(args) + [a] && envs == old(envs)
    {
      args := args + [a];
    }

    /** `Command::env`: a later value for the same key replaces the earlier one. */
    method Env(key: string, val: string)
      modifies this
      ensures envs == old(envs)[key := val] && args == old(args)
    {
      envs := envs[key := val];
    }

    function ToInvocation(stdin: seq<string>): Invocation
      reads this
    {
      Invocation(program, args, envs, stdin)
    }
  }

  // ---------------------------------------------------------------------------
  // Feeding stdin

  /** The stdin closure's `write_all` calls, `written` bytes into the pipe; the first failure ends it. */
  function WriteChunks(chunks: seq<string>, pipe: StdinPipe, written: nat): Result<(), CmdError>
    decreases |chunks|
  {
    if chunks == [] then Ok(())
    else if pipe.capacity.Some? && pipe.capacity.value < written + |chunks[0]| then Err(StdinWrite(pipe.brokenPipe))
    else WriteChunks(chunks[1..], pipe, written + |chunks[0]|)
  }

  predicate StdinOverflows(c: ChildBehaviour, inv: Invocation) {
    c.stdin.capacity.Some? && c.stdin.capacity.value < |Payload(inv)|
  }

  /**
   * Feeding stdin fails, with the broken-pipe error, exactly when the payload is longer
   * than what the child takes; how it is cut into `write_all` calls does not matter.
   */
  lemma {:induction false} WriteChunksFailsIff(chunks: seq<string>, pipe: StdinPipe, written: nat)
    requires pipe.capacity.Some? ==> written <= pipe.capacity.value
    ensures WriteChunks(chunks, pipe, written) ==
      if pipe.capacity.Some? && pipe.capacity.value < written + |Concat(chunks)|
      then Err(StdinWrite(pipe.brokenPipe)) else Ok(())
    decreases |chunks|
  {
    if chunks != [] {
      assert Concat(chunks) == chunks[0] + Concat(chunks[1..]);
      if !(pipe.capacity.Some? && pipe.capacity.value < written + |chunks[0]|) {
        WriteChunksFailsIff(chunks[1..], pipe, written + |chunks[0]|);
      }
    }
  }

  // ---------------------------------------------------------------------------
  // Draining an output stream

  /** The texts a drain thread forwards: every line up to the first failed read. */
  function Forwarded(lines: seq<LineRead>): seq<string>
    decreases |lines|
  {
    if lines == [] then []
    else match lines[0]
      case Line(t) => [t] + Forwarded(lines[1..])
      case ReadFailure(_) => []
  }

  /** The drain thread panics (`expect`) when some read fails. */
  predicate Panics(lines: seq<LineRead>) {
    exists i :: 0 <= i < |lines| && lines[i].ReadFailure?
  }

  /** Index of the first failed read, or the number of lines if none fails. */
  function FirstFailure(lines: seq<LineRead>): (k: nat)
    ensures k <= |lines|
    decreases |lines|
  {
    if lines == [] || lines[0].ReadFailure? then 0 else 1 + FirstFailure(lines[1..])
  }

  /**
   * A drain forwards exactly the lines before the first failed read, once each and in
   * order, and panics exactly when there is such a failure.
   */
  lemma {:induction false} ForwardedUpToFailure(lines: seq<LineRead>)
    ensures |Forwarded(lines)| == FirstFailure(lines)
    ensures forall i :: 0 <= i < FirstFailure(lines) ==> lines[i].Line? && Forwarded(lines)[i] == lines[i].text
    ensures Panics(lines) <==> FirstFailure(lines) < |lines|
    ensures FirstFailure(lines) < |lines| ==> lines[FirstFailure(lines)].ReadFailure?
    decreases |lines|
  {
    if lines != [] && lines[0].Line? {
      ForwardedUpToFailure(lines[1..]);
      var k := FirstFailure(lines);
      forall i | 0 <= i < k ensures lines[i].Line? && Forwarded(lines)[i] == lines[i].text {
        if i > 0 {
          assert lines[i] == lines[1..][i - 1];
        }
      }
      if Panics(lines) {
        var j :| 0 <= j < |lines| && lines[j].ReadFailure?;
        assert lines[1..][j - 1].ReadFailure?;
      }
      if k < |lines| {
        assert lines[k] == lines[1..][k - 1];
      }
    }
  }

  function Tagged(stream: Stream, texts: seq<string>): (rs: seq<Record>)
  {
    seq(|texts|, i requires 0 <= i < |texts| => Record(stream, texts[i]))
  }

  /** The texts of the records from one stream, in order. */
  function Only(stream: Stream, records: seq<Record>): seq<string>
    decreases |records|
  {
    if records == [] then []
    else (if records[0].stream == stream then [records[0].text] else []) + Only(stream, records[1..])
  }

  lemma {:induction false} OnlyAppend(stream: Stream, a: seq<Record>, b: seq<Record>)
    ensures Only(stream, a + b) == Only(stream, a) + Only(stream, b)
    decreases |a|
  {
    if a == [] {
      assert a + b == b;
    } else {
      assert (a + b)[1..] == a[1..] + b;
      OnlyAppend(stream, a[1..], b);
    }
  }

  lemma {:induction false} OnlyTagged(stream: Stream, from: Stream, texts: seq<string>)
    ensures Only(stream, Tagged(from, texts)) == if stream == from then texts else []
    decreases |texts|
  {
    if texts != [] {
      assert Tagged(from, texts)[1..] == Tagged(from, texts[1..]);
      OnlyTagged(stream, from, texts[1..]);
    }
  }

  // ---------------------------------------------------------------------------
  // The verdict and the output of one run

  /** Spawned, stdin captured and fed, stdout captured: the point where the stdout drain starts. */
  predicate DrainsStdout(c: ChildBehaviour, inv: Invocation) {
    c.spawnError.None? && c.stdinPiped && WriteChunks(inv.stdin, c.stdin, 0).Ok? && c.stdoutPiped
  }

  /** `spawn_and_indent_with_stdin`'s result: the first failing check, in the order the code makes them. */
  function RunVerdict(c: ChildBehaviour, inv: Invocation): Result<ExitStatus, CmdError> {
    if c.spawnError.Some? then Err(Spawn(inv.program, c.spawnError.value))
    else if !c.stdinPiped then Err(StreamCapture("stdin"))
    else if WriteChunks(inv.stdin, c.stdin, 0).Err? then Err(WriteChunks(inv.stdin, c.stdin, 0).error)
    else if !c.stdoutPiped then Err(StreamCapture("stdout"))
    else if !c.stderrPiped then Err(StreamCapture("stderr"))
    else if Panics(c.stdoutLines) then Err(Thread("stdout"))
    else if Panics(c.stderrLines) then Err(Thread("stderr"))
    else match c.wait
      case Ok(status) => Ok(status)
      case Err(e) => Err(ChildWait(e))
  }

  /** The lines forwarded to the sink during one run: each drain that was started runs to its end. */
  function RunOutput(c: ChildBehaviour, inv: Invocation): seq<Record> {
    if !DrainsStdout(c, inv) then []
    else Tagged(Stdout, Forwarded(c.stdoutLines))
         + (if c.stderrPiped then Tagged(Stderr, Forwarded(c.stderrLines)) else [])
  }

  /** Nothing goes wrong before `wait`. */
  predicate Clean(c: ChildBehaviour, inv: Invocation) {
    c.spawnError.None? && c.stdinPiped && c.stdoutPiped && c.stderrPiped
    && !StdinOverflows(c, inv) && !Panics(c.stdoutLines) && !Panics(c.stderrLines)
  }

  /** A run yields a status exactly when nothing goes wrong, and then it is the one `wait` returned. */
  lemma RunSucceedsIff(c: ChildBehaviour, inv: Invocation)
    ensures RunVerdict(c, inv).Ok? <==> Clean(c, inv) && c.wait.Ok?
    ensures RunVerdict(c, inv).Ok? ==> RunVerdict(c, inv).value == c.wait.value
  {
    WriteChunksFailsIff(inv.stdin, c.stdin, 0);
  }

  /**
   * Error precedence: spawn, capture of stdin, the stdin writer, capture of stdout, of
   * stderr, the stdout thread, the stderr thread, and only then `wait`, although `wait`
   * is called before the threads are joined.
   */
  lemma RunErrorPrecedence(c: ChildBehaviour, inv: Invocation)
    ensures c.spawnError.Some? ==> RunVerdict(c, inv) == Err(Spawn(inv.program, c.spawnError.value))
    ensures c.spawnError.None? && !c.stdinPiped ==> RunVerdict(c, inv) == Err(StreamCapture("stdin"))
    ensures c.spawnError.None? && c.stdinPiped && StdinOverflows(c, inv) ==>
      RunVerdict(c, inv) == Err(StdinWrite(c.stdin.brokenPipe))
    ensures c.spawnError.None? && c.stdinPiped && !StdinOverflows(c, inv) ==>
      (!c.stdoutPiped ==> RunVerdict(c, inv) == Err(StreamCapture("stdout")))
      && (c.stdoutPiped && !c.stderrPiped ==> RunVerdict(c, inv) == Err(StreamCapture("stderr")))
      && (c.stdoutPiped && c.stderrPiped && Panics(c.stdoutLines) ==> RunVerdict(c, inv) == Err(Thread("stdout")))
      && (c.stdoutPiped && c.stderrPiped && !Panics(c.stdoutLines) && Panics(c.stderrLines) ==>
            RunVerdict(c, inv) == Err(Thread("stderr")))
    ensures Clean(c, inv) && c.wait.Err? ==> RunVerdict(c, inv) == Err(ChildWait(c.wait.error))
  {
    WriteChunksFailsIff(inv.stdin, c.stdin, 0);
  }

  /**
   * Per stream, the sink receives exactly the lines that stream's drain forwards, in order;
   * a run that gets as far as both drains forwards every line of a stream without read
   * failures, so N + M lines in all.
   */
  lemma RunOutputPerStream(c: ChildBehaviour, inv: Invocation)
    ensures Only(Stdout, RunOutput(c, inv)) == if DrainsStdout(c, inv) then Forwarded(c.stdoutLines) else []
    ensures Only(Stderr, RunOutput(c, inv)) ==
      if DrainsStdout(c, inv) && c.stderrPiped then Forwarded(c.stderrLines) else []
    ensures Clean(c, inv) ==> |RunOutput(c, inv)| == |c.stdoutLines| + |c.stderrLines|
  {
    WriteChunksFailsIff(inv.stdin, c.stdin, 0);
    if DrainsStdout(c, inv) {
      var outs := Tagged(Stdout, Forwarded(c.stdoutLines));
      var errs := if c.stderrPiped then Tagged(Stderr, Forwarded(c.stderrLines)) else [];
      OnlyAppend(Stdout, outs, errs);
      OnlyAppend(Stderr, outs, errs);
      OnlyTagged(Stdout, Stdout, Forwarded(c.stdoutLines));
      OnlyTagged(Stderr, Stdout, Forwarded(c.stdoutLines));
      OnlyTagged(Stdout, Stderr, Forwarded(c.stderrLines));
      OnlyTagged(Stderr, Stderr, Forwarded(c.stderrLines));
      ForwardedUpToFailure(c.stdoutLines);
      ForwardedUpToFailure(c.stderrLines);
    }
  }

  // ---------------------------------------------------------------------------
  // The host and the runner

  /** The operating system as the program sees it, with a log of what it was asked to do. */
  class Host {
    const behaviour: Invocation -> ChildBehaviour
    /** Invocations handed to `spawn`, in order. */
    var commands: seq<Invocation>
    /** Lines handed to the output sink, in order. */
    var output: seq<Record>

    constructor (behaviour: Invocation -> ChildBehaviour)
      ensures this.behaviour == behaviour && commands == [] && output == []
    {
      this.behaviour := behaviour;
      commands := [];
      output := [];
    }
  }

  /** The drain thread: forward each line of the stream until one cannot be read. */
  method Drain(host: Host, stream: Stream, lines: seq<LineRead>) returns (panicked: bool)
    modifies host
    ensures host.commands == old(host.commands)
    ensures host.output == old(host.output) + Tagged(stream, Forwarded(lines))
    ensures panicked == Panics(lines)
  {
    var i := 0;
    while i < |lines|
      invariant 0 <= i <= |lines|
      invariant host.commands == old(host.commands)
      invariant forall k :: 0 <= k < i ==> lines[k].Line?
      invariant host.output + Tagged(stream, Forwarded(lines[i..])) == old(host.output) + Tagged(stream, Forwarded(lines))
    {
      match lines[i]
      case ReadFailure(_) =>
        assert Forwarded(lines[i..]) == [];
        return true;
      case Line(text) =>
        assert lines[i..][1..] == lines[i + 1..];
        assert Tagged(stream, [text] + Forwarded(lines[i + 1..])) == [Record(stream, text)] + Tagged(stream, Forwarded(lines[i + 1..]));
        host.output := host.output + [Record(stream, text)];
        i := i + 1;
    }
    return false;
  }

  /** `spawn_and_indent_with_stdin`: the stdin closure is the list of chunks it writes. */
  method SpawnAndIndentWithStdin(host: Host, cmd: Command, stdin: seq<string>) returns (r: Result<ExitStatus, CmdError>)
    modifies host
    ensures var inv := cmd.ToInvocation(stdin);
      && host.commands == old(host.commands) + [inv]
      && host.output == old(host.output) + RunOutput(host.behaviour(inv), inv)
      && r == RunVerdict(host.behaviour(inv), inv)
  {
    var inv := cmd.ToInvocation(stdin);
    host.commands := host.commands + [inv];
    var child := host.behaviour(inv);
    if child.spawnError.Some? {
      return Err(Spawn(inv.program, child.spawnError.value));
    }
    if !child.stdinPiped {
      return Err(StreamCapture("stdin"));
    }
    var fed := WriteChunks(stdin, child.stdin, 0);
    if fed.Err? {
      return Err(fed.error);
    }
    if !child.stdoutPiped {
      return Err(StreamCapture("stdout"));
    }
    var stdoutPanicked := Drain(host, Stdout, child.stdoutLines);
    if !child.stderrPiped {
      return Err(StreamCapture("stderr"));
    }
    var stderrPanicked := Drain(host, Stderr, child.stderrLines);
    var status := child.wait;
    if stdoutPanicked {
      return Err(Thread("stdout"));
    }
    if stderrPanicked {
      return Err(Thread("stderr"));
    }
    match status
    case Ok(s) => r := Ok(s);
    case Err(e) => r := Err(ChildWait(e));
  }

  /** `spawn_and_indent`: the same with a stdin closure that writes nothing. */
  method SpawnAndIndent(host: Host, cmd: Command) returns (r: Result<ExitStatus, CmdError>)
    modifies host
    ensures var inv := cmd.ToInvocation([]);
      && host.commands == old(host.commands) + [inv]
      && host.output == old(host.output) + RunOutput(host.behaviour(inv), inv)
      && r == RunVerdict(host.behaviour(inv), inv)
  {
    r := SpawnAndIndentWithStdin(host, cmd, []);
  }
}
