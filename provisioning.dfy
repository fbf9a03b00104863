/**
 * `provision_jail` from `src/lib.rs`: look up the user, write the package list, create the
 * jail, then (for a user) configure sudo and create the group and the user, then
 * (optionally) enable SSH. The first failure stops the run and names its step.
 */
module Provisioning {
  import opened Wrappers
  import opened Errors
  import opened Identity
  import opened Process
  import opened Commands
  import opened RustStr

  /** The arguments of `provision_jail`. */
  datatype Request = Request(jail: JailConfig, user: Option<string>, ssh: bool)

  /** What a run returns, which commands it started, and what it forwarded to the terminal. */
  datatype Outcome = Outcome(result: Result<(), Error>, commands: seq<Invocation>, output: seq<Record>)

  /** One command of the workflow and the step its failure is attributed to. */
  datatype Planned = Planned(step: Step, inv: Invocation)

  function UserSteps(jail: string, u: User, g: Group): seq<Planned> {
    [ Planned(SudoConfig, ExecInvocation(jail, SudoScript)),
      Planned(CreateGroup, ExecInvocation(jail, GroupScript(g))),
      Planned(CreateUser, ExecInvocation(jail, UserScript(u, g))) ]
  }

  function SshSteps(jail: string, ssh: bool): seq<Planned> {
    if ssh then [Planned(SshService, ExecInvocation(jail, SshScript))] else []
  }

  /** Every command a run may start, in order: create, then the user's three steps, then SSH. */
  function Plan(q: Request, pkglist: string, account: Option<(User, Group)>): seq<Planned> {
    [Planned(Create, CreateInvocation(q.jail, pkglist))]
    + (if account.Some? then UserSteps(q.jail.name, account.value.0, account.value.1) else [])
    + SshSteps(q.jail.name, q.ssh)
  }

  function Invocations(steps: seq<Planned>): (invs: seq<Invocation>)
    ensures |invs| == |steps|
    ensures forall k :: 0 <= k < |steps| ==> invs[k] == steps[k].inv
  {
    seq(|steps|, k requires 0 <= k < |steps| => steps[k].inv)
  }

  lemma InvocationsCons(steps: seq<Planned>)
    requires steps != []
    ensures Invocations(steps) == [steps[0].inv] + Invocations(steps[1..])
  {
  }

  /** What running one command amounts to: its verdict and the lines it forwarded. */
  datatype Effect = Effect(verdict: Result<(), CmdError>, output: seq<Record>)

  /** The effect of each command on a host whose children behave as `beh`. */
  function Effects(beh: Invocation -> ChildBehaviour): Invocation -> Effect {
    inv => Effect(StepVerdict(beh(inv), inv), RunOutput(beh(inv), inv))
  }

  /** Nothing run, nothing failed. */
  const Done: Outcome := Outcome(Ok(()), [], [])

  /** Runs one command; on success the run goes on with `rest`, on failure it stops there. */
  function Chain(run: Invocation -> Effect, p: Planned, rest: Outcome): Outcome {
    var e := run(p.inv);
    match e.verdict
    case Err(err) => Outcome(Err(Wrap(p.step, err)), [p.inv], e.output)
    case Ok(_) => Outcome(rest.result, [p.inv] + rest.commands, e.output + rest.output)
  }

  /** Runs the steps in order until the first one that fails. */
  function RunSteps(run: Invocation -> Effect, steps: seq<Planned>): Outcome
    decreases |steps|
  {
    if steps == [] then Done else Chain(run, steps[0], RunSteps(run, steps[1..]))
  }

  /** The terminal output of a list of commands, one after the other. */
  function Outputs(run: Invocation -> Effect, invs: seq<Invocation>): seq<Record>
    decreases |invs|
  {
    if invs == [] then [] else run(invs[0]).output + Outputs(run, invs[1..])
  }

  predicate StepOk(run: Invocation -> Effect, p: Planned) {
    run(p.inv).verdict.Ok?
  }

  predicate IsPrefix<T(==)>(a: seq<T>, b: seq<T>) {
    |a| <= |b| && a == b[..|a|]
  }

  /** A run of steps starts the first of them, in order, and forwards exactly their output. */
  lemma {:induction false} RunStepsPrefix(run: Invocation -> Effect, steps: seq<Planned>)
    ensures IsPrefix(RunSteps(run, steps).commands, Invocations(steps))
    ensures RunSteps(run, steps).output == Outputs(run, RunSteps(run, steps).commands)
    decreases |steps|
  {
    if steps != [] {
      var p := steps[0];
      var rest := RunSteps(run, steps[1..]);
      RunStepsPrefix(run, steps[1..]);
      var o := RunSteps(run, steps);
      InvocationsCons(steps);
      if StepOk(run, p) {
        assert o.commands == [p.inv] + rest.commands;
        assert o.commands[1..] == rest.commands;
      } else {
        assert o.commands == [p.inv];
        assert Outputs(run, [p.inv]) == run(p.inv).output + Outputs(run, []);
      }
    }
  }

  /** A run of steps succeeds exactly when every step does, and then it has started them all. */
  lemma {:induction false} RunStepsOkIff(run: Invocation -> Effect, steps: seq<Planned>)
    ensures RunSteps(run, steps).result.Ok? <==> forall k :: 0 <= k < |steps| ==> StepOk(run, steps[k])
    ensures RunSteps(run, steps).result.Ok? ==> RunSteps(run, steps).commands == Invocations(steps)
    decreases |steps|
  {
    if steps != [] {
      var p := steps[0];
      RunStepsOkIff(run, steps[1..]);
      InvocationsCons(steps);
      if forall k :: 0 <= k < |steps| ==> StepOk(run, steps[k]) {
        assert StepOk(run, p);
        forall k | 0 <= k < |steps[1..]| ensures StepOk(run, steps[1..][k]) {
          assert steps[1..][k] == steps[k + 1];
        }
      } else if StepOk(run, p) {
        var k :| 0 <= k < |steps| && !StepOk(run, steps[k]);
        assert steps[k] == steps[1..][k - 1];
      }
    }
  }

  /**
   * A failed run stops at the first failing step: every earlier step succeeded, and the
   * error is that step's command failure attributed to the step.
   */
  lemma {:induction false} RunStepsFailure(run: Invocation -> Effect, steps: seq<Planned>)
    requires RunSteps(run, steps).result.Err?
    ensures var n := |RunSteps(run, steps).commands|;
      && 1 <= n <= |steps|
      && (forall k :: 0 <= k < n - 1 ==> StepOk(run, steps[k]))
      && !StepOk(run, steps[n - 1])
      && RunSteps(run, steps).result == Lift(steps[n - 1].step, run(steps[n - 1].inv).verdict)
    decreases |steps|
  {
    var p := steps[0];
    var rest := RunSteps(run, steps[1..]);
    if StepOk(run, p) {
      RunStepsFailure(run, steps[1..]);
      var n := |RunSteps(run, steps).commands|;
      assert n == |rest.commands| + 1;
      forall k | 0 <= k < n - 1 ensures StepOk(run, steps[k]) {
        if k > 0 {
          assert steps[k] == steps[1..][k - 1];
        }
      }
      assert steps[n - 1] == steps[1..][n - 2];
    }
  }

  /**
   * The specification of `provision_jail`. A missing user or a package-list file that
   * cannot be written stops the run before any command; a missing primary group is noticed
   * only after the jail has been created.
   */
  function Provision(beh: Invocation -> ChildBehaviour, db: UserDb, tmp: Result<string, IoError>, q: Request): Outcome {
    match FindUser(db, q.user)
    case Err(e) => Outcome(Err(e), [], [])
    case Ok(user) =>
      match Commands.CreatePkglistJson(tmp, user)
      case Err(e) => Outcome(Err(Error.CreatePkglistJson(e)), [], [])
      case Ok(file) => ProvisionAs(beh, db, q, user, file.path)
  }

  /** The commands part of `provision_jail`, once the user (if any) is known and the package list written: create the jail, then the rest. */
  function ProvisionAs(beh: Invocation -> ChildBehaviour, db: UserDb, q: Request, user: Option<User>, path: string): Outcome {
    Chain(Effects(beh), Planned(Create, CreateInvocation(q.jail, path)), AfterCreate(beh, db, q, user))
  }

  /** What follows a successful create: the user's account (once the primary group is found), then SSH. */
  function AfterCreate(beh: Invocation -> ChildBehaviour, db: UserDb, q: Request, user: Option<User>): Outcome {
    match user
    case None => RunSteps(Effects(beh), SshSteps(q.jail.name, q.ssh))
    case Some(u) =>
      match FindGroup(db, u.primaryGid)
      case Err(e) => Outcome(Err(e), [], [])
      case Ok(g) => RunSteps(Effects(beh), UserSteps(q.jail.name, u, g) + SshSteps(q.jail.name, q.ssh))
  }

  /** The account a request provisions, when the user and the primary group both exist. */
  function Account(db: UserDb, q: Request): Option<(User, Group)> {
    if q.user.Some? && q.user.value in db.users && db.users[q.user.value].primaryGid in db.groups
    then Some((db.users[q.user.value], db.groups[db.users[q.user.value].primaryGid]))
    else None
  }

  /** A name asked for that the host lacks fails with `NoUser` before any command runs. */
  lemma ProvisionNoUser(beh: Invocation -> ChildBehaviour, db: UserDb, tmp: Result<string, IoError>, q: Request)
    requires q.user.Some? && q.user.value !in db.users
    ensures Provision(beh, db, tmp, q) == Outcome(Err(NoUser(q.user.value)), [], [])
  {
  }

  /** A package list that cannot be written fails with `CreatePkglistJson` before any command runs. */
  lemma ProvisionNoTempFile(beh: Invocation -> ChildBehaviour, db: UserDb, tmp: Result<string, IoError>, q: Request)
    requires q.user.None? || q.user.value in db.users
    requires tmp.Err?
    ensures Provision(beh, db, tmp, q) == Outcome(Err(Error.CreatePkglistJson(tmp.error)), [], [])
  {
  }

  /**
   * A user whose primary group the host lacks still gets the jail created: the run starts
   * the create command alone and, if that succeeds, fails with `NoGid`.
   */
  lemma ProvisionNoGid(beh: Invocation -> ChildBehaviour, db: UserDb, path: string, q: Request)
    requires q.user.Some? && q.user.value in db.users
    requires db.users[q.user.value].primaryGid !in db.groups
    ensures var inv := CreateInvocation(q.jail, path);
      var v := StepVerdict(beh(inv), inv);
      Provision(beh, db, Ok(path), q) ==
        Outcome(if v.Ok? then Err(NoGid(db.users[q.user.value].primaryGid)) else Lift(Create, v),
                [inv], RunOutput(beh(inv), inv))
  {
    AsNoGid(beh, db, q, db.users[q.user.value], path);
  }

  lemma AsNoGid(beh: Invocation -> ChildBehaviour, db: UserDb, q: Request, u: User, path: string)
    requires u.primaryGid !in db.groups
    ensures var inv := CreateInvocation(q.jail, path);
      var v := StepVerdict(beh(inv), inv);
      ProvisionAs(beh, db, q, Some(u), path) ==
        Outcome(if v.Ok? then Err(NoGid(u.primaryGid)) else Lift(Create, v), [inv], RunOutput(beh(inv), inv))
  {
  }


  /** Once the user (if any) and the group are found, provisioning runs the plan for that account. */
  lemma ProvisionRunsPlan(beh: Invocation -> ChildBehaviour, db: UserDb, path: string, q: Request)
    requires q.user.None? || (q.user.value in db.users && db.users[q.user.value].primaryGid in db.groups)
    ensures Provision(beh, db, Ok(path), q) == RunSteps(Effects(beh), Plan(q, path, Account(db, q)))
  {
    var p := Planned(Create, CreateInvocation(q.jail, path));
    var rest := (if Account(db, q).Some? then UserSteps(q.jail.name, Account(db, q).value.0, Account(db, q).value.1) else [])
      + SshSteps(q.jail.name, q.ssh);
    assert Plan(q, path, Account(db, q)) == [p] + rest;
    RunStepsCons(Effects(beh), p, rest);
    if q.user.None? {
      assert rest == SshSteps(q.jail.name, q.ssh);
    }
  }

  /**
   * Once the user (if any) and the group are found, the run starts a prefix of the plan,
   * succeeds exactly when every planned command succeeds, and then has started
   * 1 + 3 (with a user) + 1 (with SSH) commands.
   */
  lemma ProvisionFollowsPlan(beh: Invocation -> ChildBehaviour, db: UserDb, path: string, q: Request)
    requires q.user.None? || (q.user.value in db.users && db.users[q.user.value].primaryGid in db.groups)
    ensures var plan := Plan(q, path, Account(db, q));
      var o := Provision(beh, db, Ok(path), q);
      && IsPrefix(o.commands, Invocations(plan))
      && (o.result.Ok? <==> forall k :: 0 <= k < |plan| ==> StepOk(Effects(beh), plan[k]))
      && (o.result.Ok? ==> |o.commands| == 1 + (if q.user.Some? then 3 else 0) + (if q.ssh then 1 else 0))
  {
    ProvisionRunsPlan(beh, db, path, q);
    RunStepsPrefix(Effects(beh), Plan(q, path, Account(db, q)));
    RunStepsOkIff(Effects(beh), Plan(q, path, Account(db, q)));
  }

  /** Whatever happens, the commands a run starts are, in order, the first ones of some plan. */
  lemma ProvisionNeverSkips(beh: Invocation -> ChildBehaviour, db: UserDb, path: string, q: Request)
    ensures var plan := Plan(q, path, Account(db, q));
      var o := Provision(beh, db, Ok(path), q);
      IsPrefix(o.commands, Invocations(plan))
  {
    var plan := Plan(q, path, Account(db, q));
    RunStepsPrefix(Effects(beh), plan);
    if q.user.Some? && q.user.value in db.users && db.users[q.user.value].primaryGid !in db.groups {
      ProvisionNoGid(beh, db, path, q);
      assert Invocations(plan)[0] == CreateInvocation(q.jail, path);
    } else if q.user.None? || q.user.value in db.users {
      ProvisionRunsPlan(beh, db, path, q);
    }
  }

  /** Running a list that starts with `p`: `p`'s command, then either the rest or `p`'s failure. */
  lemma RunStepsCons(run: Invocation -> Effect, p: Planned, rest: seq<Planned>)
    ensures StepOk(run, p) ==>
      (RunSteps(run, [p] + rest) ==
       Outcome(RunSteps(run, rest).result, [p.inv] + RunSteps(run, rest).commands,
               run(p.inv).output + RunSteps(run, rest).output))
    ensures !StepOk(run, p) ==>
      (RunSteps(run, [p] + rest) ==
       Outcome(Lift(p.step, run(p.inv).verdict), [p.inv], run(p.inv).output))
  {
    assert ([p] + rest)[1..] == rest;
  }

  /** An outcome preceded by commands already run and output already forwarded. */
  function After(ran: seq<Invocation>, shown: seq<Record>, o: Outcome): Outcome {
    Outcome(o.result, ran + o.commands, shown + o.output)
  }

  /** Running two lists of steps one after the other: the second runs only if the first succeeds. */
  lemma {:induction false} RunStepsAppend(run: Invocation -> Effect, a: seq<Planned>, b: seq<Planned>)
    ensures var first := RunSteps(run, a);
      RunSteps(run, a + b) == if first.result.Err? then first else After(first.commands, first.output, RunSteps(run, b))
    decreases |a|
  {
    if a == [] {
      assert a + b == b;
    } else {
      var p, a' := a[0], a[1..];
      assert a + b == [p] + (a' + b);
      assert [p] + a' == a;
      RunStepsCons(run, p, a' + b);
      RunStepsCons(run, p, a');
      if StepOk(run, p) {
        RunStepsAppend(run, a', b);
        var first' := RunSteps(run, a');
        if first'.result.Ok? {
          assert [p.inv] + (first'.commands + RunSteps(run, b).commands)
              == ([p.inv] + first'.commands) + RunSteps(run, b).commands;
          assert run(p.inv).output + (first'.output + RunSteps(run, b).output)
              == (run(p.inv).output + first'.output) + RunSteps(run, b).output;
        }
      }
    }
  }

  /** A step that succeeds moves its command and output from the pending run to what has run. */
  lemma Advance(beh: Invocation -> ChildBehaviour, p: Planned, rest: seq<Planned>,
                ran: seq<Invocation>, shown: seq<Record>, total: Outcome)
    requires total == After(ran, shown, RunSteps(Effects(beh), [p] + rest))
    requires StepVerdict(beh(p.inv), p.inv).Ok?
    ensures total == After(ran + [p.inv], shown + RunOutput(beh(p.inv), p.inv), RunSteps(Effects(beh), rest))
  {
    RunStepsCons(Effects(beh), p, rest);
  }

  /** A step that fails ends the run with its command's failure attributed to it. */
  lemma Stop(beh: Invocation -> ChildBehaviour, p: Planned, rest: seq<Planned>,
             ran: seq<Invocation>, shown: seq<Record>, total: Outcome)
    requires total == After(ran, shown, RunSteps(Effects(beh), [p] + rest))
    requires StepVerdict(beh(p.inv), p.inv).Err?
    ensures total == Outcome(Lift(p.step, StepVerdict(beh(p.inv), p.inv)), ran + [p.inv], shown + RunOutput(beh(p.inv), p.inv))
  {
    RunStepsCons(Effects(beh), p, rest);
  }

  /** The body of `if let Some(user)` in `provision_jail`: sudo config, then the group, then the user. */
  method ProvisionAccount(host: Host, jail: string, u: User, g: Group) returns (r: Result<(), Error>)
    modifies host
    ensures var o := RunSteps(Effects(host.behaviour), UserSteps(jail, u, g));
      && host.commands == old(host.commands) + o.commands
      && host.output == old(host.output) + o.output
      && r == o.result
  {
    ghost var beh := host.behaviour;
    ghost var steps := UserSteps(jail, u, g);
    ghost var o := RunSteps(Effects(beh), steps);
    ghost var p0, p1, p2 := steps[0], steps[1], steps[2];
    assert p0 == Planned(SudoConfig, ExecInvocation(jail, SudoScript));
    assert p1 == Planned(CreateGroup, ExecInvocation(jail, GroupScript(g)));
    assert p2 == Planned(CreateUser, ExecInvocation(jail, UserScript(u, g)));
    assert steps == [p0] + ([p1] + ([p2] + []));
    assert o == After([], [], RunSteps(Effects(beh), steps));

    ghost var c0, s0 := host.commands, host.output;
    ghost var out0, out1, out2 := RunOutput(beh(p0.inv), p0.inv), RunOutput(beh(p1.inv), p1.inv), RunOutput(beh(p2.inv), p2.inv);

    r := Commands.ExecSudoConfig(host, jail);
    if r.Err? {
      Stop(beh, p0, [p1] + ([p2] + []), [], [], o);
      return;
    }
    Advance(beh, p0, [p1] + ([p2] + []), [], [], o);
    assert host.output == s0 + out0;

    r := Commands.ExecCreateGroup(host, jail, g);
    AppendAssoc(c0, [p0.inv], [p1.inv]);
    AppendAssoc(s0, out0, out1);
    if r.Err? {
      Stop(beh, p1, [p2] + [], [p0.inv], out0, o);
      return;
    }
    Advance(beh, p1, [p2] + [], [p0.inv], out0, o);

    r := Commands.ExecCreateUser(host, jail, u, g);
    AppendAssoc(c0, [p0.inv] + [p1.inv], [p2.inv]);
    AppendAssoc(s0, out0 + out1, out2);
    if r.Err? {
      Stop(beh, p2, [], [p0.inv] + [p1.inv], out0 + out1, o);
      return;
    }
    Advance(beh, p2, [], [p0.inv] + [p1.inv], out0 + out1, o);
    assert o == After([p0.inv] + [p1.inv] + [p2.inv], out0 + out1 + out2, Done);
  }

  /** The `if ssh_service` block of `provision_jail`. */
  method ProvisionSsh(host: Host, jail: string, ssh: bool) returns (r: Result<(), Error>)
    modifies host
    ensures var o := RunSteps(Effects(host.behaviour), SshSteps(jail, ssh));
      && host.commands == old(host.commands) + o.commands
      && host.output == old(host.output) + o.output
      && r == o.result
  {
    ghost var beh := host.behaviour;
    ghost var steps := SshSteps(jail, ssh);
    ghost var o := RunSteps(Effects(beh), steps);
    if ssh {
      ghost var p := steps[0];
      assert steps == [p] + [];
      assert o == After([], [], RunSteps(Effects(beh), [p] + []));
      r := Commands.ExecSshService(host, jail);
      if r.Err? {
        Stop(beh, p, [], [], [], o);
        return;
      }
      Advance(beh, p, [], [], [], o);
      return;
    }
    return Ok(());
  }

  /** Outcomes preceded by runs compose by appending. */
  lemma AfterAfter(a: seq<Invocation>, b: seq<Record>, c: seq<Invocation>, d: seq<Record>, x: Outcome)
    ensures After(a, b, After(c, d, x)) == After(a + c, b + d, x)
  {
    AppendAssoc(a, c, x.commands);
    AppendAssoc(b, d, x.output);
  }

  /** The block run for a user: look up the user's primary group, then create the account in the jail. */
  method ProvisionUser(host: Host, db: UserDb, jail: string, u: User) returns (r: Result<(), Error>)
    modifies host
    ensures u.primaryGid !in db.groups ==>
      r == Err(NoGid(u.primaryGid)) && host.commands == old(host.commands) && host.output == old(host.output)
    ensures u.primaryGid in db.groups ==>
      var o := RunSteps(Effects(host.behaviour), UserSteps(jail, u, db.groups[u.primaryGid]));
      && host.commands == old(host.commands) + o.commands
      && host.output == old(host.output) + o.output
      && r == o.result
  {
    var group := FindGroup(db, u.primaryGid);
    if group.Err? {
      return Err(group.error);
    }
    r := ProvisionAccount(host, jail, u, group.value);
  }

  /** `provision_jail`. The package-list file is an input: its path, or the error writing it. */
  method ProvisionJail(host: Host, db: UserDb, tmp: Result<string, IoError>, q: Request) returns (r: Result<(), Error>)
    modifies host
    ensures var o := Provision(host.behaviour, db, tmp, q);
      && host.commands == old(host.commands) + o.commands
      && host.output == old(host.output) + o.output
      && r == o.result
  {
    var found := FindUser(db, q.user);
    if found.Err? {
      return Err(found.error);
    }
    var json := Commands.CreatePkglistJson(tmp, found.value);
    if json.Err? {
      return Err(Error.CreatePkglistJson(json.error));
    }
    r := RunProvision(host, db, q, found.value, json.value.path);
  }

  /** The commands of `provision_jail`: create the jail, then the rest. */
  method RunProvision(host: Host, db: UserDb, q: Request, user: Option<User>, path: string) returns (r: Result<(), Error>)
    modifies host
    ensures var o := ProvisionAs(host.behaviour, db, q, user, path);
      && host.commands == old(host.commands) + o.commands
      && host.output == old(host.output) + o.output
      && r == o.result
  {
    ghost var inv := CreateInvocation(q.jail, path);
    ghost var c0, s0 := host.commands, host.output;
    r := RunIocageCreate(host, q.jail, path);
    if r.Err? {
      return;
    }
    ghost var c1, s1 := host.commands, host.output;
    ghost var rest := AfterCreate(host.behaviour, db, q, user);
    r := ProvisionRest(host, db, q, user);
    AppendAssoc(c0, [inv], rest.commands);
    AppendAssoc(s0, RunOutput(host.behaviour(inv), inv), rest.output);
  }

  /** The part of `provision_jail` after the jail is created: the `if let Some(user)` block, then the `if ssh_service` block. */
  method ProvisionRest(host: Host, db: UserDb, q: Request, user: Option<User>) returns (r: Result<(), Error>)
    modifies host
    ensures var o := AfterCreate(host.behaviour, db, q, user);
      && host.commands == old(host.commands) + o.commands
      && host.output == old(host.output) + o.output
      && r == o.result
  {
    ghost var c0, s0 := host.commands, host.output;
    if user.Some? {
      var u := user.value;
      RestSplit(host.behaviour, db, q, u);
      ghost var acc := RunSteps(Effects(host.behaviour), if u.primaryGid in db.groups then UserSteps(q.jail.name, u, db.groups[u.primaryGid]) else []);
      r := ProvisionUser(host, db, q.jail.name, u);
      if r.Err? {
        return;
      }
      ghost var last := RunSteps(Effects(host.behaviour), SshSteps(q.jail.name, q.ssh));
      r := ProvisionSsh(host, q.jail.name, q.ssh);
      AppendAssoc(c0, acc.commands, last.commands);
      AppendAssoc(s0, acc.output, last.output);
    } else {
      r := ProvisionSsh(host, q.jail.name, q.ssh);
    }
  }

  /** After the create, a user's account comes first and SSH follows only if the account succeeded. */
  lemma RestSplit(beh: Invocation -> ChildBehaviour, db: UserDb, q: Request, u: User)
    ensures u.primaryGid !in db.groups ==> AfterCreate(beh, db, q, Some(u)) == Outcome(Err(NoGid(u.primaryGid)), [], [])
    ensures u.primaryGid in db.groups ==>
      var acc := RunSteps(Effects(beh), UserSteps(q.jail.name, u, db.groups[u.primaryGid]));
      AfterCreate(beh, db, q, Some(u)) ==
        if acc.result.Err? then acc else After(acc.commands, acc.output, RunSteps(Effects(beh), SshSteps(q.jail.name, q.ssh)))
  {
    if u.primaryGid in db.groups {
      RunStepsAppend(Effects(beh), UserSteps(q.jail.name, u, db.groups[u.primaryGid]), SshSteps(q.jail.name, q.ssh));
    }
  }
}
