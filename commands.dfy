/**
 * The commands the provisioning runs, from `src/lib.rs`: the `iocage create` and
 * `iocage exec <jail> sh` invocations, the four scripts fed to the jail's shell, the
 * exit-status rule, the package-list JSON, and the methods that run each step.
 */
module Commands {
  import opened Wrappers
  import opened Errors
  import opened RustStr
  import opened Identity
  import opened Process

  const Iocage: string := "iocage"

  /** `iocage` is a Python program; this keeps its output unbuffered so lines arrive live. */
  const UnbufferedEnv: map<string, string> := map["PYTHONUNBUFFERED" := "true"]

  /** Written to the jail's shell before every script, so the shell stops at the first failure. */
  const Prelude: string := "set -eu\n\n"

  /** The jail to create. Addresses are kept as the text their `Display` prints. */
  datatype JailConfig = JailConfig(name: string, ip: string, gateway: string, release: string, thick: bool)

  // ---------------------------------------------------------------------------
  // `iocage create`

  function CreateArgs(j: JailConfig, pkglist: string): seq<string> {
    ["--force", "create", "--name", j.name, "--release", j.release, "--pkglist", pkglist]
    + (if j.thick then ["--thickjail"] else [])
    + ["vnet=on", "ip4_addr=vnet0|" + j.ip, "defaultrouter=" + j.gateway, "resolver=none", "boot=on"]
  }

  function CreateInvocation(j: JailConfig, pkglist: string): Invocation {
    Invocation(Iocage, CreateArgs(j, pkglist), UnbufferedEnv, [])
  }

  /** Reads a jail configuration and package-list path back out of a create argv. */
  function ParseCreateArgs(args: seq<string>): Option<(JailConfig, string)> {
    if |args| != 13 && |args| != 14 then None
    else
      var thick := |args| == 14;
      var tail := args[|args| - 5..];
      if args[..3] != ["--force", "create", "--name"] || args[4] != "--release" || args[6] != "--pkglist"
         || (thick && args[8] != "--thickjail")
         || tail[0] != "vnet=on" || !StartsWith(tail[1], "ip4_addr=vnet0|")
         || !StartsWith(tail[2], "defaultrouter=") || tail[3] != "resolver=none" || tail[4] != "boot=on"
      then None
      else Some((JailConfig(args[3], tail[1][15..], tail[2][14..], args[5], thick), args[7]))
  }

  /**
   * The create argv carries every field of the configuration where it can be read back:
   * `--thickjail` is the ninth argument exactly when a thick jail is asked for, and the
   * five VNET settings always close the list.
   */
  lemma CreateArgsRoundTrip(j: JailConfig, pkglist: string)
    ensures |CreateArgs(j, pkglist)| == if j.thick then 14 else 13
    ensures CreateArgs(j, pkglist)[8] == "--thickjail" <==> j.thick
    ensures ParseCreateArgs(CreateArgs(j, pkglist)) == Some((j, pkglist))
  {
    var args := CreateArgs(j, pkglist);
    var tail := args[|args| - 5..];
    assert tail == ["vnet=on", "ip4_addr=vnet0|" + j.ip, "defaultrouter=" + j.gateway, "resolver=none", "boot=on"];
    assert ("ip4_addr=vnet0|" + j.ip)[..15] == "ip4_addr=vnet0|";
    assert ("ip4_addr=vnet0|" + j.ip)[15..] == j.ip;
    assert ("defaultrouter=" + j.gateway)[..14] == "defaultrouter=";
    assert ("defaultrouter=" + j.gateway)[14..] == j.gateway;
  }

  // ---------------------------------------------------------------------------
  // `iocage exec <jail> sh` and its scripts

  function ExecInvocation(jail: string, script: string): Invocation {
    Invocation(Iocage, ["exec", jail, "sh"], UnbufferedEnv, [Prelude, script])
  }

  /** The jail's shell reads `set -eu`, an empty line, and then the script's own lines. */
  lemma ExecPayloadLines(jail: string, script: string)
    ensures Payload(ExecInvocation(jail, script)) == Prelude + script
    ensures Split(Payload(ExecInvocation(jail, script)), '\n') == ["set -eu", ""] + Split(script, '\n')
  {
    var inv := ExecInvocation(jail, script);
    assert Concat(inv.stdin) == Prelude + Concat([script]);
    assert Concat([script]) == script + Concat([]);
    PreludeSplit(script);
  }

  /** The prelude contributes its own line and an empty one before the script's lines. */
  lemma PreludeSplit(script: string)
    ensures Split(Prelude + script, '\n') == ["set -eu", ""] + Split(script, '\n')
  {
    assert Prelude == "set -eu" + "\n\n";
    LineThenBlank("set -eu", script);
  }

  /** A newline-free line, a blank line, then a text: the split gives the line, an empty piece, then the text's pieces. */
  lemma LineThenBlank(line: string, rest: string)
    requires Free(line, '\n')
    ensures Split(line + "\n\n" + rest, '\n') == [line, ""] + Split(rest, '\n')
  {
    assert line + "\n\n" + rest == line + ['\n'] + ([] + ['\n'] + rest);
    SplitAround(line, [] + ['\n'] + rest, '\n');
    SplitAround([], rest, '\n');
    SplitFree(line, '\n');
  }

  const SudoScript: string := "echo '%wheel ALL=(ALL) NOPASSWD: ALL' >/usr/local/etc/sudoers.d/wheel"

  function GroupScript(g: Group): string {
    "pw groupadd -n '" + g.name + "' -g '" + Decimal(g.gid as nat) + "'"
  }

  function UserScript(u: User, g: Group): string {
    "pw useradd -n '" + u.name + "' -u '" + Decimal(u.uid as nat)
    + ("' -g '" + g.name + "' -G wheel -m -s '" + u.shell + "'")
  }

  const SshScript: string := "sysrc -f /etc/rc.conf sshd_enable=\"YES\" && service sshd start"

  /** `Decimal` never prints a quote. */
  lemma DecimalQuoteFree(n: nat)
    ensures Free(Decimal(n), '\'')
  {
    DecimalDigits(n);
  }

  /** Every piece of a quoted command line is free of the quote character. */
  predicate QuoteFreeWords(words: seq<string>) {
    forall k :: 0 <= k < |words| ==> Free(words[k], '\'')
  }

  function GroupWords(g: Group): seq<string> {
    ["pw groupadd -n ", g.name, " -g ", Decimal(g.gid as nat), ""]
  }

  /** The group script is its words joined by single quotes. */
  lemma GroupScriptJoin(g: Group)
    ensures GroupScript(g) == Join(GroupWords(g), '\'')
  {
    var q := '\'';
    var digits := Decimal(g.gid as nat);
    var j3 := Join([digits, ""], q);
    JoinCons(digits, [""], q);
    assert j3 == digits + [q];
    var j2 := Join([" -g ", digits, ""], q);
    JoinCons(" -g ", [digits, ""], q);
    var j1 := Join([g.name, " -g ", digits, ""], q);
    JoinCons(g.name, [" -g ", digits, ""], q);
    JoinCons("pw groupadd -n ", [g.name, " -g ", digits, ""], q);
    assert Join(GroupWords(g), q) == "pw groupadd -n " + [q] + (g.name + [q] + (" -g " + [q] + (digits + [q])));
    assert "pw groupadd -n '" == "pw groupadd -n " + [q];
    assert "' -g '" == [q] + " -g " + [q];
  }

  /**
   * When the group name holds no single quote, the shell sees the name and the gid as
   * the two quoted words of `pw groupadd`, and the gid reads back as the group's gid.
   */
  lemma GroupScriptFields(g: Group)
    requires Free(g.name, '\'')
    ensures Split(GroupScript(g), '\'') == ["pw groupadd -n ", g.name, " -g ", Decimal(g.gid as nat), ""]
    ensures DecimalValue(Split(GroupScript(g), '\'')[3]) == g.gid as int
  {
    var words := GroupWords(g);
    DecimalQuoteFree(g.gid as nat);
    DecimalRoundTrip(g.gid as nat);
    assert Free(words[0], '\'') && Free(words[2], '\'') && Free(words[4], '\'');
    assert QuoteFreeWords(words);
    GroupScriptJoin(g);
    SplitJoin(words, '\'');
  }

  function UserWords(u: User, g: Group): seq<string> {
    ["pw useradd -n ", u.name, " -u ", Decimal(u.uid as nat), " -g ", g.name, " -G wheel -m -s ", u.shell, ""]
  }

  lemma UserHeadJoin(name: string, uid: string)
    ensures Join(["pw useradd -n ", name, " -u ", uid], '\'') == "pw useradd -n '" + name + "' -u '" + uid
  {
    var q := '\'';
    JoinCons(" -u ", [uid], q);
    JoinCons(name, [" -u ", uid], q);
    JoinCons("pw useradd -n ", [name, " -u ", uid], q);
    assert "pw useradd -n '" == "pw useradd -n " + [q];
    assert "' -u '" == [q] + " -u " + [q];
  }

  lemma UserTailJoin(group: string, shell: string)
    ensures ['\''] + Join([" -g ", group, " -G wheel -m -s ", shell, ""], '\'')
      == "' -g '" + group + "' -G wheel -m -s '" + shell + "'"
  {
    var q := '\'';
    JoinCons(shell, [""], q);
    JoinCons(" -G wheel -m -s ", [shell, ""], q);
    JoinCons(group, [" -G wheel -m -s ", shell, ""], q);
    JoinCons(" -g ", [group, " -G wheel -m -s ", shell, ""], q);
    assert "' -g '" == [q] + " -g " + [q];
    assert "' -G wheel -m -s '" == [q] + " -G wheel -m -s " + [q];
  }

  /** The user script is its words joined by single quotes. */
  lemma UserScriptJoin(u: User, g: Group)
    ensures UserScript(u, g) == Join(UserWords(u, g), '\'')
  {
    var q := '\'';
    var uid := Decimal(u.uid as nat);
    var tail := [" -g ", g.name, " -G wheel -m -s ", u.shell, ""];
    var head := ["pw useradd -n ", u.name, " -u ", uid];
    assert UserWords(u, g) == head + tail;
    JoinAppend(head, tail, q);
    UserHeadJoin(u.name, uid);
    UserTailJoin(g.name, u.shell);
  }

  /**
   * When no name or shell holds a single quote, the shell sees user name, uid, group
   * name and shell as the four quoted words of `pw useradd`, in that order.
   */
  lemma UserScriptFields(u: User, g: Group)
    requires Free(u.name, '\'') && Free(g.name, '\'') && Free(u.shell, '\'')
    ensures Split(UserScript(u, g), '\'') ==
      ["pw useradd -n ", u.name, " -u ", Decimal(u.uid as nat), " -g ", g.name, " -G wheel -m -s ", u.shell, ""]
  {
    var words := UserWords(u, g);
    DecimalQuoteFree(u.uid as nat);
    assert Free(words[0], '\'') && Free(words[2], '\'') && Free(words[4], '\'') && Free(words[6], '\'');
    assert QuoteFreeWords(words);
    UserScriptJoin(u, g);
    SplitJoin(words, '\'');
  }

  // ---------------------------------------------------------------------------
  // Exit statuses and steps

  /** A successful exit is `Ok`; any other is `Failed` with its code, or -1 when there is none. */
  function StatusVerdict(s: ExitStatus): (r: Result<(), CmdError>)
    ensures r.Ok? <==> s.code == Some(0)
    ensures r.Err? ==> r.error == Failed(s.code.GetOr(-1))
  {
    if s.Success() then Ok(()) else Err(Failed(s.code.GetOr(-1)))
  }

  /** The verdict of one command: the runner's error, or the exit-status rule on its status. */
  function StepVerdict(c: ChildBehaviour, inv: Invocation): Result<(), CmdError> {
    match RunVerdict(c, inv)
    case Err(e) => Err(e)
    case Ok(s) => StatusVerdict(s)
  }

  /**
   * A command succeeds exactly when nothing goes wrong running it and it exits with
   * code 0; a command that runs cleanly but exits otherwise fails with its code (or -1).
   */
  lemma StepSucceedsIff(c: ChildBehaviour, inv: Invocation)
    ensures StepVerdict(c, inv).Ok? <==> Clean(c, inv) && c.wait == Ok(ExitStatus(Some(0)))
    ensures Clean(c, inv) && c.wait.Ok? && !c.wait.value.Success() ==>
      StepVerdict(c, inv) == Err(Failed(c.wait.value.code.GetOr(-1)))
  {
    RunSucceedsIff(c, inv);
  }

  /** The workflow's steps, each with its own error variant. */
  datatype Step = Create | SudoConfig | CreateGroup | CreateUser | SshService

  /** Attributes a command failure to the step that ran the command. */
  function Wrap(step: Step, e: CmdError): Error {
    match step
    case Create => IocageCreate(e)
    case SudoConfig => Error.ExecSudoConfig(IocageExecError(e))
    case CreateGroup => Error.ExecCreateGroup(IocageExecError(e))
    case CreateUser => Error.ExecCreateUser(IocageExecError(e))
    case SshService => Error.ExecSshService(IocageExecError(e))
  }

  /** The step an error names, if it names one. */
  function StepOf(e: Error): Option<(Step, CmdError)> {
    match e
    case IocageCreate(c) => Some((Create, c))
    case ExecSudoConfig(x) => Some((SudoConfig, x.cause))
    case ExecCreateGroup(x) => Some((CreateGroup, x.cause))
    case ExecCreateUser(x) => Some((CreateUser, x.cause))
    case ExecSshService(x) => Some((SshService, x.cause))
    case _ => None
  }

  /** Wrapping loses nothing: the step and the underlying failure can be read back. */
  lemma WrapAttributes(step: Step, e: CmdError)
    ensures StepOf(Wrap(step, e)) == Some((step, e))
    ensures Wrap(step, e) !in {NotRoot} && !Wrap(step, e).NoUser? && !Wrap(step, e).NoGid?
  {
  }

  function Lift(step: Step, v: Result<(), CmdError>): Result<(), Error> {
    match v
    case Ok(_) => Ok(())
    case Err(e) => Err(Wrap(step, e))
  }

  // ---------------------------------------------------------------------------
  // The package list

  /** Keeps the normal components of a path: no empty pieces and no `.`. */
  function NormalParts(parts: seq<string>): (ps: seq<string>)
    ensures forall k :: 0 <= k < |ps| ==> ps[k] != "" && ps[k] != "."
    ensures forall k :: 0 <= k < |ps| ==> exists i :: 0 <= i < |parts| && parts[i] == ps[k]
    decreases |parts|
  {
    if parts == [] then []
    else
      var rest := NormalParts(parts[1..]);
      assert forall k :: 0 <= k < |rest| ==> exists i :: 0 <= i < |parts| && parts[i] == rest[k] by {
        forall k | 0 <= k < |rest| ensures exists i :: 0 <= i < |parts| && parts[i] == rest[k] {
          var i :| 0 <= i < |parts[1..]| && parts[1..][i] == rest[k];
          assert parts[i + 1] == rest[k];
        }
      }
      if parts[0] == "" || parts[0] == "." then rest else [parts[0]] + rest
  }

  /** `Path::file_name`: the last component, unless the path ends in `..`, is a root, or is empty. */
  function FileName(path: string): (r: Option<string>)
    ensures r.Some? ==> r.value != "" && r.value != "." && r.value != ".." && Free(r.value, '/')
  {
    var ps := NormalParts(Split(path, '/'));
    if ps == [] || ps[|ps| - 1] == ".." then None
    else
      SplitPiecesFree(path, '/');
      Some(ps[|ps| - 1])
  }

  /** Keeping the normal components distributes over concatenation. */
  lemma {:induction false} NormalPartsAppend(a: seq<string>, b: seq<string>)
    ensures NormalParts(a + b) == NormalParts(a) + NormalParts(b)
    decreases |a|
  {
    if a != [] {
      assert (a + b)[0] == a[0];
      assert (a + b)[1..] == a[1..] + b;
      NormalPartsAppend(a[1..], b);
    } else {
      assert a + b == b;
    }
  }

  /** The normal components of a `/`-free piece: the piece itself, unless it is empty or `.`. */
  lemma NormalPartsSingle(w: string)
    ensures NormalParts([w]) == if w == "" || w == "." then [] else [w]
  {
    assert [w][1..] == [];
  }

  /**
   * A path without `/` is its own base name, except that the empty path, `.` and `..`
   * have none.
   */
  lemma FileNameSingle(base: string)
    requires Free(base, '/')
    ensures FileName(base) == if base == "" || base == "." || base == ".." then None else Some(base)
  {
    SplitFree(base, '/');
    NormalPartsSingle(base);
  }

  /**
   * The base name of `dir/last` is decided by `last` alone: a normal `last` is the base
   * name, `..` leaves none, and an empty or `.` last piece (a trailing `/` or `/.`) is
   * skipped, so the base name is that of `dir`. With `FileNameSingle` this determines
   * `FileName` of every path.
   */
  lemma FileNameLast(dir: string, last: string)
    requires Free(last, '/')
    ensures FileName(dir + "/" + last) ==
      if last == ".." then None
      else if last == "" || last == "." then FileName(dir)
      else Some(last)
  {
    SplitAround(dir, last, '/');
    SplitFree(last, '/');
    NormalPartsAppend(Split(dir, '/'), [last]);
    NormalPartsSingle(last);
    assert dir + "/" + last == dir + ['/'] + last;
    if last == "" || last == "." {
      assert NormalParts(Split(dir, '/') + [last]) == NormalParts(Split(dir, '/'));
    }
  }

  /** The shell's base name, `""` when there is none. */
  function ShellName(u: User): string {
    FileName(u.shell).GetOr("")
  }

  function PkglistJson(user: Option<User>): string {
    match user
    case None => "{\"pkgs\":[]}"
    case Some(u) => if ShellName(u) == "bash" then "{\"pkgs\":[\"sudo\",\"bash\"]}" else "{\"pkgs\":[\"sudo\"]}"
  }

  /** The packages a jail gets: `sudo` for a user, and `bash` too when that is the user's shell. */
  function Packages(user: Option<User>): seq<string> {
    match user
    case None => []
    case Some(u) => ["sudo"] + (if ShellName(u) == "bash" then ["bash"] else [])
  }

  function QuotedList(pkgs: seq<string>): string {
    if pkgs == [] then []
    else if |pkgs| == 1 then "\"" + pkgs[0] + "\""
    else "\"" + pkgs[0] + "\"," + QuotedList(pkgs[1..])
  }

  /** The JSON document `{"pkgs":[...]}` listing `pkgs`. */
  function RenderPkglist(pkgs: seq<string>): string {
    "{\"pkgs\":[" + QuotedList(pkgs) + "]}"
  }

  /**
   * The literal chosen by `create_pkglist_json` is the JSON rendering of the package list:
   * none without a user, `sudo` and `bash` when the shell's base name is exactly `bash`,
   * and `sudo` alone for every other base name, including a missing one.
   */
  lemma PkglistJsonRendersPackages(user: Option<User>)
    ensures PkglistJson(user) == RenderPkglist(Packages(user))
    ensures user.None? ==> Packages(user) == []
    ensures user.Some? && ShellName(user.value) == "bash" ==> Packages(user) == ["sudo", "bash"]
    ensures user.Some? && ShellName(user.value) != "bash" ==> Packages(user) == ["sudo"]
    ensures user.Some? && FileName(user.value.shell).None? ==> Packages(user) == ["sudo"]
  {
    RenderedLists();
  }

  /** The three package lists as JSON. */
  lemma RenderedLists()
    ensures RenderPkglist([]) == "{\"pkgs\":[]}"
    ensures RenderPkglist(["sudo"]) == "{\"pkgs\":[\"sudo\"]}"
    ensures RenderPkglist(["sudo", "bash"]) == "{\"pkgs\":[\"sudo\",\"bash\"]}"
  {
    assert ["sudo", "bash"][1..] == ["bash"];
    assert QuotedList(["sudo", "bash"]) == "\"sudo\"," + QuotedList(["bash"]);
  }

  /** A package-list file: where it was created and what was written to it. */
  datatype TempFile = TempFile(path: string, contents: string)

  /** `create_pkglist_json`: the temp file is an input (its path, or the I/O error creating or writing it). */
  function CreatePkglistJson(tmp: Result<string, IoError>, user: Option<User>): (r: Result<TempFile, IoError>)
    ensures tmp.Err? ==> r == Err(tmp.error)
    ensures tmp.Ok? ==> r.Ok? && r.value.path == tmp.value && r.value.contents == RenderPkglist(Packages(user))
  {
    PkglistJsonRendersPackages(user);
    match tmp
    case Err(e) => Err(e)
    case Ok(path) => Ok(TempFile(path, PkglistJson(user)))
  }

  // ---------------------------------------------------------------------------
  // Running the steps

  /** The first chain of `arg` calls in `run_iocage_create`: the jail's name, release and package list. */
  method AddCreateHead(cmd: Command, j: JailConfig, pkglist: string)
    modifies cmd
    ensures cmd.args == old(cmd.args) + ["--force", "create", "--name", j.name, "--release", j.release, "--pkglist", pkglist]
    ensures cmd.envs == old(cmd.envs)
  {
    cmd.Arg("--force");
    cmd.Arg("create");
    cmd.Arg("--name");
    cmd.Arg(j.name);
    cmd.Arg("--release");
    cmd.Arg(j.release);
    cmd.Arg("--pkglist");
    cmd.Arg(pkglist);
  }

  /** The last chain of `arg` calls in `run_iocage_create`: the VNET network settings. */
  method AddCreateTail(cmd: Command, j: JailConfig)
    modifies cmd
    ensures cmd.args == old(cmd.args) + ["vnet=on", "ip4_addr=vnet0|" + j.ip, "defaultrouter=" + j.gateway, "resolver=none", "boot=on"]
    ensures cmd.envs == old(cmd.envs)
  {
    cmd.Arg("vnet=on");
    cmd.Arg("ip4_addr=vnet0|" + j.ip);
    cmd.Arg("defaultrouter=" + j.gateway);
    cmd.Arg("resolver=none");
    cmd.Arg("boot=on");
  }

  /** The `Command` that `run_iocage_create` builds. */
  method CreateCommand(j: JailConfig, pkglist: string) returns (cmd: Command)
    ensures fresh(cmd) && cmd.ToInvocation([]) == CreateInvocation(j, pkglist)
  {
    cmd := new Command(Iocage);
    AddCreateHead(cmd, j, pkglist);
    if j.thick {
      cmd.Arg("--thickjail");
    }
    AddCreateTail(cmd, j);
    cmd.Env("PYTHONUNBUFFERED", "true");
  }

  /** `run_iocage_create`. */
  method RunIocageCreate(host: Host, j: JailConfig, pkglist: string) returns (r: Result<(), Error>)
    modifies host
    ensures var inv := CreateInvocation(j, pkglist);
      && host.commands == old(host.commands) + [inv]
      && host.output == old(host.output) + RunOutput(host.behaviour(inv), inv)
      && r == Lift(Create, StepVerdict(host.behaviour(inv), inv))
  {
    var cmd := CreateCommand(j, pkglist);
    var status := SpawnAndIndent(host, cmd);
    if status.Err? {
      return Err(IocageCreate(status.error));
    }
    if status.value.Success() {
      return Ok(());
    }
    return Err(IocageCreate(Failed(status.value.code.GetOr(-1))));
  }

  /** `iocage_exec`: the script goes to the jail's shell on stdin after the prelude. */
  method IocageExec(host: Host, jail: string, script: string) returns (r: Result<(), IocageExecError>)
    modifies host
    ensures var inv := ExecInvocation(jail, script);
      && host.commands == old(host.commands) + [inv]
      && host.output == old(host.output) + RunOutput(host.behaviour(inv), inv)
      && r == match StepVerdict(host.behaviour(inv), inv)
              case Ok(_) => Ok(())
              case Err(e) => Err(IocageExecError(e))
  {
    var cmd := new Command(Iocage);
    cmd.Arg("exec");
    cmd.Arg(jail);
    cmd.Arg("sh");
    cmd.Env("PYTHONUNBUFFERED", "true");
    assert cmd.ToInvocation([Prelude, script]) == ExecInvocation(jail, script);

    var status := SpawnAndIndentWithStdin(host, cmd, [Prelude, script]);
    if status.Err? {
      return Err(IocageExecError(status.error));
    }
    if status.value.Success() {
      return Ok(());
    }
    return Err(IocageExecError(Failed(status.value.code.GetOr(-1))));
  }

  /** Runs one exec step and attributes its failure to the step. */
  method ExecStep(host: Host, step: Step, jail: string, script: string) returns (r: Result<(), Error>)
    requires step != Create
    modifies host
    ensures var inv := ExecInvocation(jail, script);
      && host.commands == old(host.commands) + [inv]
      && host.output == old(host.output) + RunOutput(host.behaviour(inv), inv)
      && r == Lift(step, StepVerdict(host.behaviour(inv), inv))
  {
    var done := IocageExec(host, jail, script);
    match done
    case Ok(_) => r := Ok(());
    case Err(e) => r := Err(Wrap(step, e.cause));
  }

  /** `exec_sudo_config`. */
  method ExecSudoConfig(host: Host, jail: string) returns (r: Result<(), Error>)
    modifies host
    ensures var inv := ExecInvocation(jail, SudoScript);
      && host.commands == old(host.commands) + [inv]
      && host.output == old(host.output) + RunOutput(host.behaviour(inv), inv)
      && r == Lift(SudoConfig, StepVerdict(host.behaviour(inv), inv))
  {
    r := ExecStep(host, SudoConfig, jail, SudoScript);
  }

  /** `exec_create_group`. */
  method ExecCreateGroup(host: Host, jail: string, g: Group) returns (r: Result<(), Error>)
    modifies host
    ensures var inv := ExecInvocation(jail, GroupScript(g));
      && host.commands == old(host.commands) + [inv]
      && host.output == old(host.output) + RunOutput(host.behaviour(inv), inv)
      && r == Lift(CreateGroup, StepVerdict(host.behaviour(inv), inv))
  {
    r := ExecStep(host, CreateGroup, jail, GroupScript(g));
  }

  /** `exec_create_user`. */
  method ExecCreateUser(host: Host, jail: string, u: User, g: Group) returns (r: Result<(), Error>)
    modifies host
    ensures var inv := ExecInvocation(jail, UserScript(u, g));
      && host.commands == old(host.commands) + [inv]
      && host.output == old(host.output) + RunOutput(host.behaviour(inv), inv)
      && r == Lift(CreateUser, StepVerdict(host.behaviour(inv), inv))
  {
    r := ExecStep(host, CreateUser, jail, UserScript(u, g));
  }

  /** `exec_ssh_service`. */
  method ExecSshService(host: Host, jail: string) returns (r: Result<(), Error>)
    modifies host
    ensures var inv := ExecInvocation(jail, SshScript);
      && host.commands == old(host.commands) + [inv]
      && host.output == old(host.output) + RunOutput(host.behaviour(inv), inv)
      && r == Lift(SshService, StepVerdict(host.behaviour(inv), inv))
  {
    r := ExecStep(host, SshService, jail, SshScript);
  }
}
