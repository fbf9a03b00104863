/**
 * The default gateway, read from `netstat -r -n -f inet`: the first output line that
 * starts with `default`, its second whitespace-separated column, parsed as an IP address.
 * `src/lib.rs` and `src/cli.rs` each have this chain; they differ only in the wording of
 * the two parse errors, which `src/cli.rs` prefixes with `netstat `.
 */
module Gateway {
  import opened Wrappers
  import opened Errors
  import opened RustStr

  const NetstatProgram: string := "netstat"
  const NetstatArgs: seq<string> := ["-r", "-n", "-f", "inet"]
  const DefaultPrefix: string := "default"

  /** Running `netstat`: it could not be run, its stdout was not UTF-8, or its stdout as text. */
  datatype NetstatRun = RunError(ioError: IoError) | NotUtf8 | Stdout(text: string)

  datatype GatewayError =
    | Cmd(cmdError: IoError)
    | IpAddr(rejected: string)
    | NetstatParse(message: string)
    | Utf8

  /** The first line that starts with `default`, with its index. */
  function FindDefault(lines: seq<string>): (r: Option<nat>)
    ensures r.None? <==> forall k :: 0 <= k < |lines| ==> !StartsWith(lines[k], DefaultPrefix)
    ensures r.Some? ==> r.value < |lines| && StartsWith(lines[r.value], DefaultPrefix)
    ensures r.Some? ==> forall k :: 0 <= k < r.value ==> !StartsWith(lines[k], DefaultPrefix)
    decreases |lines|
  {
    if lines == [] then None
    else if StartsWith(lines[0], DefaultPrefix) then Some(0)
    else
      match FindDefault(lines[1..])
      case None => None
      case Some(k) => Some(k + 1)
  }

  /**
   * The parse chain on netstat's text. `wording` is prefixed to both parse messages;
   * `isIp` stands for `IpAddr`'s parser, which is not modelled.
   */
  function ParseGateway(text: string, wording: string, isIp: string -> bool): Result<string, GatewayError> {
    var lines := Lines(text);
    match FindDefault(lines)
    case None => Err(NetstatParse(wording + "default line not found"))
    case Some(k) =>
      var columns := Tokens(lines[k]);
      if |columns| < 2 then Err(NetstatParse(wording + "second column not found on default line"))
      else if isIp(columns[1]) then Ok(columns[1])
      else Err(IpAddr(columns[1]))
  }

  function GatewayAddr(run: NetstatRun, wording: string, isIp: string -> bool): Result<string, GatewayError> {
    match run
    case RunError(e) => Err(Cmd(e))
    case NotUtf8 => Err(Utf8)
    case Stdout(text) => ParseGateway(text, wording, isIp)
  }

  /** `netstat_gateway_addr` in `src/lib.rs`. */
  function LibNetstatGatewayAddr(run: NetstatRun, isIp: string -> bool): Result<string, GatewayError> {
    GatewayAddr(run, "", isIp)
  }

  /** `netstat_gateway_addr` in `src/cli.rs`. */
  function CliNetstatGatewayAddr(run: NetstatRun, isIp: string -> bool): Result<string, GatewayError> {
    GatewayAddr(run, "netstat ", isIp)
  }

  /**
   * What the chain finds: without a line starting with `default` it reports so; otherwise
   * it reads the first such line, fails when that has fewer than two columns, and else
   * returns its second column (a non-empty word without whitespace) when that is an address.
   */
  lemma ParseGatewayCases(text: string, wording: string, isIp: string -> bool)
    ensures var lines := Lines(text);
      var r := ParseGateway(text, wording, isIp);
      && ((forall k :: 0 <= k < |lines| ==> !StartsWith(lines[k], DefaultPrefix)) <==>
            r == Err(NetstatParse(wording + "default line not found")))
      && (forall k :: (0 <= k < |lines| && StartsWith(lines[k], DefaultPrefix)
            && (forall j :: 0 <= j < k ==> !StartsWith(lines[j], DefaultPrefix))) ==>
              && (|Tokens(lines[k])| < 2 <==> r == Err(NetstatParse(wording + "second column not found on default line")))
              && (|Tokens(lines[k])| >= 2 ==> r == if isIp(Tokens(lines[k])[1]) then Ok(Tokens(lines[k])[1]) else Err(IpAddr(Tokens(lines[k])[1]))))
    ensures ParseGateway(text, wording, isIp).Ok? ==>
      var g := ParseGateway(text, wording, isIp).value;
      g != [] && isIp(g) && forall i :: 0 <= i < |g| ==> !IsAsciiWhitespace(g[i])
  {
    var lines := Lines(text);
    var r := ParseGateway(text, wording, isIp);
    match FindDefault(lines)
    case None =>
    case Some(k) =>
      forall k' | 0 <= k' < |lines| && StartsWith(lines[k'], DefaultPrefix)
          && (forall j :: 0 <= j < k' ==> !StartsWith(lines[j], DefaultPrefix))
        ensures k' == k
      {
      }
      TokensWellFormed(lines[k]);
      if |Tokens(lines[k])| >= 2 {
        assert r != Err(NetstatParse(wording + "second column not found on default line"));
      }
      assert r != Err(NetstatParse(wording + "default line not found")) by {
        if |Tokens(lines[k])| < 2 {
          assert |wording + "second column not found on default line"| != |wording + "default line not found"|;
        }
      }
  }

  /** An error of the chain with `wording` put in front of a parse message; other results unchanged. */
  function Reword(r: Result<string, GatewayError>, wording: string): (t: Result<string, GatewayError>)
    ensures t.Ok? <==> r.Ok?
    ensures r.Ok? || !r.error.NetstatParse? ==> t == r
    ensures r.Err? && r.error.NetstatParse? ==> t == Err(NetstatParse(wording + r.error.message))
  {
    if r.Err? && r.error.NetstatParse? then Err(NetstatParse(wording + r.error.message)) else r
  }

  lemma ParseWording(text: string, wording: string, isIp: string -> bool)
    ensures ParseGateway(text, wording, isIp) == Reword(ParseGateway(text, "", isIp), wording)
  {
    var lines := Lines(text);
    match FindDefault(lines)
    case None =>
      assert "" + "default line not found" == "default line not found";
    case Some(k) =>
      assert "" + "second column not found on default line" == "second column not found on default line";
  }

  /**
   * The two copies of the chain agree: the same address, the same command, UTF-8 and
   * address errors, and each parse error of `src/cli.rs` is the library's with `netstat `
   * in front.
   */
  lemma VariantsAgree(run: NetstatRun, isIp: string -> bool)
    ensures CliNetstatGatewayAddr(run, isIp) == Reword(LibNetstatGatewayAddr(run, isIp), "netstat ")
  {
    if run.Stdout? {
      ParseWording(run.text, "netstat ", isIp);
    }
  }
}
