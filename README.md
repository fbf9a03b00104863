# iocage-provision, modelled in Dafny

`iocage-provision` creates a FreeBSD jail with `iocage` and sets it up. It looks up the
requested user on the host, writes a package-list JSON file and runs `iocage create`. Only
then, for a user, does it look up that user's primary group. It then runs three scripts
inside the jail through `iocage exec <jail> sh`: the sudo config, `pw groupadd` and
`pw useradd`. When asked,
a fourth script enables SSH. Every external command runs with its output forwarded line by
line and its exit status checked. The first failure stops the run, and the error names the
step that failed.

The command line adds three things:
- a default release computed from the host kernel's release;
- a default gateway read from `netstat`;
- a logger and an error report.

The build script writes the short and long version texts from git's commit hash and date.

This project models:

- **Provisioning.** `provision_jail` (`provisioning.dfy`), the commands it builds and the
  exit-status rule (`commands.dfy`), and the user and group lookups (`identity.dfy`).
- **Running a command.** `spawn_and_indent_with_stdin` (`process.dfy`). The operating system
  is an oracle, the `Host`: for every invocation it says how the child behaves. The host
  logs each invocation it spawns and each line forwarded to the terminal.
- **The default release.** Both versions, from `src/lib.rs` and `src/cli.rs` (`release.dfy`).
- **The netstat gateway parser.** Both copies (`gateway.dfy`).
- **The command line's utilities** (`cli_util.dfy`): `pretty_error`, the mapping from `-v`
  occurrences to a log level, and the logger's stream and prefix choice.
- **The build script** (`build_info.dfy`): `version_short`, `version_long`, the memoising
  `Info` cache, the `-dirty` suffix, the `command_stdout` trim and the nightly rewrite.
- **Helpers.** `rust_str.dfy` holds the Rust string operations the program relies on, and
  `errors.dfy` holds the crate's error types.

Three details of the code:

- The create argv begins `--force create` (`src/lib.rs:359-360`).
- The SSH script chains its two commands with `&&` (`src/lib.rs:340`).
- `default_release` in `src/lib.rs` renames every `-`-piece, so a bare `STABLE` becomes
  `RELEASE` even though it holds no `-` (`src/lib.rs:218-222`, `Release.LibReleaseSinglePiece`).

## Model

| member | source | states |
|---|---|---|
| Identity.EnsureRoot | src/lib.rs:126-132 | succeeds exactly when the effective uid is 0, else `NotRoot` |
| Identity.FindUser | src/lib.rs:232-240 | no name gives `Ok(None)`; a known name gives its entry; an unknown name gives `NoUser(name)` |
| Identity.FindGroup | src/lib.rs:247-249 | succeeds exactly when the gid is known, with that group; otherwise `NoGid(gid)` |
| Process.Command.Arg | src/lib.rs:359-366 | appends one argument and leaves the environment alone |
| Process.Command.Env | src/lib.rs:375 | sets one environment variable, a later value replacing an earlier one, and leaves the arguments alone |
| Process.WriteChunksFailsIff | src/lib.rs:409-416 | feeding stdin fails with the broken-pipe `StdinWrite` exactly when the whole payload exceeds what the child takes, however it is cut into writes |
| Process.ForwardedUpToFailure | src/lib.rs:478-483 | a drain forwards exactly the lines before the first failed read, in order, and panics exactly when such a failure exists |
| Process.RunSucceedsIff | src/lib.rs:458-507 | a run yields a status exactly when spawn, the three captures, the stdin writer and both drains succeed and `wait` succeeds, and the status is the one `wait` returned |
| Process.RunErrorPrecedence | src/lib.rs:463-507 | the error is the first failure in the order spawn, stdin capture, stdin write, stdout capture, stderr capture, stdout thread, stderr thread, wait; a thread panic beats a wait error |
| Process.RunOutputPerStream | src/lib.rs:472-496 | per stream, the terminal gets exactly what that stream's drain forwards, in order; a clean run forwards every line of both streams |
| Process.Drain | src/lib.rs:479-482 | the loop forwards the lines tagged with their stream up to the first failed read and reports a panic exactly when a read failed |
| Process.SpawnAndIndentWithStdin | src/lib.rs:451-508 | logs one spawn of the built command with its stdin chunks; the new output and the result are those of the run's specification |
| Process.SpawnAndIndent | src/lib.rs:436-438 | the same run with an empty stdin |
| Commands.CreateArgsRoundTrip | src/lib.rs:358-375 | the create argv has 13 arguments, or 14 exactly with `--thickjail` as the ninth; name, release, package list, address and gateway read back from it |
| Commands.AddCreateHead | src/lib.rs:359-366 | appends `--force create --name N --release R --pkglist P` |
| Commands.AddCreateTail | src/lib.rs:370-374 | appends the five VNET settings |
| Commands.CreateCommand | src/lib.rs:358-375 | the built command is `iocage` with the create argv and `PYTHONUNBUFFERED=true` |
| Commands.RunIocageCreate | src/lib.rs:350-386 | runs the create command once; the result is the step verdict attributed to `IocageCreate` |
| Commands.ExecPayloadLines | src/lib.rs:398-416 | the exec stdin is `set -eu\n\n` followed by the script, so the shell reads `set -eu`, an empty line, then the script's lines |
| Commands.GroupScriptJoin | src/lib.rs:304-308 | the group script is the words `pw groupadd -n `, name, ` -g `, gid joined by single quotes |
| Commands.GroupScriptFields | src/lib.rs:301-311 | with a quote-free group name, the script's quoted words are the name and the gid, and the gid reads back as the group's gid |
| Commands.UserScriptJoin | src/lib.rs:321-327 | the user script is its words joined by single quotes |
| Commands.UserScriptFields | src/lib.rs:318-330 | with quote-free names and shell, the script's quoted words are user name, uid, group name and shell, in that order |
| Commands.StatusVerdict | src/lib.rs:379-385 | success exactly for exit code 0; otherwise `Failed` with the code, or -1 when there is none |
| Commands.StepSucceedsIff | src/lib.rs:419-423 | a command succeeds exactly when it runs cleanly and exits 0; a clean run with another status fails with its code or -1 |
| Commands.WrapAttributes | src/lib.rs:58-70 | wrapping a command failure in a step's variant keeps the step and the failure recoverable and is never `NotRoot`, `NoUser` or `NoGid` |
| Commands.FileName | src/lib.rs:259-263 | `Path::file_name`: a base name, when there is one, is non-empty, neither `.` nor `..`, and holds no `/`; `FileNameSingle` and `FileNameLast` state which one it is |
| Commands.FileNameSingle | src/lib.rs:259-262 | a path without `/` is its own base name, except that the empty path, `.` and `..` have none |
| Commands.FileNameLast | src/lib.rs:259-262 | the base name of `dir/last` is `last` when that is a normal piece, none when it is `..`, and that of `dir` when `last` is empty or `.` (a trailing `/` or `/.`); with `FileNameSingle` this fixes the base name of every path |
| Commands.PkglistJson | src/lib.rs:257-271 | the JSON literal `create_pkglist_json` chooses; `PkglistJsonRendersPackages` proves it renders the package list of the user's shell |
| Commands.PkglistJsonRendersPackages | src/lib.rs:257-271 | the chosen JSON lists no package without a user, `sudo` and `bash` when the shell's base name is exactly `bash`, and `sudo` alone otherwise, including a missing base name |
| Commands.RenderedLists | src/lib.rs:266-270 | the three literals are the JSON renderings of the three package lists |
| Commands.CreatePkglistJson | src/lib.rs:256-281 | an error creating or writing the file is returned as it is; otherwise the file holds the rendering of the package list |
| Commands.IocageExec | src/lib.rs:397-424 | runs `iocage exec <jail> sh` once with the prelude and the script on stdin; a failure becomes `IocageExecError` |
| Commands.ExecStep | src/lib.rs:289-293 | an exec step's failure is attributed to that step |
| Commands.ExecSudoConfig | src/lib.rs:288-294 | runs the sudo script; a failure becomes `ExecSudoConfig` |
| Commands.ExecCreateGroup | src/lib.rs:301-311 | runs the group script; a failure becomes `ExecCreateGroup` |
| Commands.ExecCreateUser | src/lib.rs:318-330 | runs the user script; a failure becomes `ExecCreateUser` |
| Commands.ExecSshService | src/lib.rs:337-343 | runs the SSH script; a failure becomes `ExecSshService` |
| Provisioning.RunStepsPrefix | src/lib.rs:156-174 | a run of steps starts a prefix of them, in order, and forwards exactly those commands' output |
| Provisioning.RunStepsOkIff | src/lib.rs:156-174 | a run of steps succeeds exactly when every step does, and then it has started them all |
| Provisioning.RunStepsFailure | src/lib.rs:156-174 | a failed run stops at its first failing step: every earlier step succeeded, and the error is that step's failure in that step's variant |
| Provisioning.ProvisionNoUser | src/lib.rs:150 | an unknown user fails with `NoUser` before any command runs |
| Provisioning.ProvisionNoTempFile | src/lib.rs:151 | a package list that cannot be written fails with `CreatePkglistJson` before any command runs |
| Provisioning.ProvisionNoGid | src/lib.rs:156-159 | a missing primary group is noticed only after `iocage create`: that one command runs, then `NoGid` unless create failed |
| Provisioning.AsNoGid | src/lib.rs:156-159 | the same, for the part of the run after the package list |
| Provisioning.ProvisionRunsPlan | src/lib.rs:150-174 | once user and group are found, the run is the plan: create, then sudo, group and user for a user, then SSH when asked |
| Provisioning.ProvisionFollowsPlan | src/lib.rs:150-178 | the run starts a prefix of the plan, succeeds exactly when every planned command does, and then started 1 + 3·[user] + [ssh] commands |
| Provisioning.ProvisionNeverSkips | src/lib.rs:150-178 | in every case the commands started are the first ones of the plan, in order |
| Provisioning.RestSplit | src/lib.rs:158-174 | after create, a missing group fails with `NoGid` before any command; otherwise SSH runs only if the account steps all succeeded |
| Provisioning.ProvisionAccount | src/lib.rs:161-168 | runs sudo, group and user in order and stops at the first failure, as the step specification says |
| Provisioning.ProvisionSsh | src/lib.rs:171-174 | runs the SSH step exactly when asked |
| Provisioning.ProvisionUser | src/lib.rs:158-169 | looks up the primary group first; a missing group fails with `NoGid` and runs nothing |
| Provisioning.ProvisionRest | src/lib.rs:158-174 | the user block and then the SSH block, as specified after a successful create |
| Provisioning.RunProvision | src/lib.rs:156-174 | create first; a failed create stops everything; otherwise the rest follows |
| Provisioning.ProvisionJail | src/lib.rs:141-179 | the commands started, the output forwarded and the result are exactly those of the `Provision` specification |
| Release.LibReleasePieces | src/lib.rs:215-223 | the library's release is the first one or two `-`-pieces of the kernel release with `STABLE` renamed `RELEASE` |
| Release.LibReleaseIdempotent | src/lib.rs:215-223 | deriving the release from a derived release changes nothing |
| Release.LibReleaseSinglePiece | src/lib.rs:218-222 | a release without `-` is kept, except that `STABLE` becomes `RELEASE` |
| Release.LibVersionTag | src/lib.rs:215-223 | `<version>-<tag>` gives the version and the tag, each with `STABLE` renamed |
| Release.LibKeepsTwoPieces | src/lib.rs:220 | everything after the second `-` is dropped |
| Release.LibDropsPatchLevel | src/lib.rs:215-223 | `13.1-RELEASE-p2` gives `13.1-RELEASE` |
| Release.CliReleaseHasNoStable | src/cli.rs:184-186 | no `-STABLE` is left after the replacement |
| Release.CliChangesIff | src/cli.rs:184-186 | the kernel release changes exactly when it holds `-STABLE` |
| Release.CliReleaseSinglePiece | src/cli.rs:185 | a release without `-` is kept |
| Release.CliVersionTag | src/cli.rs:184-186 | `<version>-<tag>` keeps the version and renames a `STABLE` tag |
| Release.CliStep | src/cli.rs:185 | a `-` not followed by `STABLE` passes through |
| Release.CliKeepsNonStableTags | src/cli.rs:185 | a three-piece release without `STABLE` tags is kept whole |
| Release.CliKeepsPatchLevel | src/cli.rs:185 | `13.1-RELEASE-p2` is kept whole |
| Release.ReleasesAgree | src/cli.rs:184-186 | on `<version>-<tag>` both variants give the version and the renamed tag, unless the version is `STABLE` or the tag only begins with `STABLE` |
| Release.StableHostRelease | src/cli.rs:185 | both variants turn `11.2-STABLE` into `11.2-RELEASE` |
| Release.PatchedReleaseDiffers | src/lib.rs:215-223 | on `13.1-RELEASE-p2` the library's release differs from the command line's |
| Gateway.FindDefault | src/lib.rs:203 | finds the first line starting with `default`, or reports that none does |
| Gateway.ParseGatewayCases | src/lib.rs:202-211 | with no `default` line the result is "default line not found"; on the first such line, fewer than two columns give "second column not found on default line"; otherwise the second column is returned exactly when it parses as an address, and it is a non-empty word without whitespace |
| Gateway.ParseWording | src/cli.rs:209-218 | the parse with a message prefix is the unprefixed parse with the prefix put on its parse errors |
| Gateway.VariantsAgree | src/cli.rs:199-219 | the command line's chain is the library's, except that both parse messages start with `netstat ` |
| CliUtil.PrettyError | src/cli.rs:386-396 | the loop builds `Error: msg`, then one `Caused by: cause` line per cause, each ended by a newline |
| CliUtil.PrettyJoin | src/cli.rs:386-396 | the report is its 1 + #causes lines joined by newlines, with a final newline |
| CliUtil.PrettyErrorLines | src/cli.rs:386-396 | with newline-free texts, splitting the report on newlines gives the error line, the cause lines in chain order, and an empty tail |
| CliUtil.VerbosityMonotone | src/cli.rs:344-349 | more `-v` never hides a record; Info, Warn and Error always show; only no `-v` selects Info mode; Trace shows exactly from two `-v` |
| CliUtil.InfoPrefix | src/cli.rs:298-304 | each of Info, Warn and Error has a four-character prefix |
| CliUtil.EmitCases | src/cli.rs:297-333 | a record is written only when its level is enabled; it goes to stdout exactly when it is Info; in Info mode it carries its level's prefix; otherwise it is the detailed form |
| CliUtil.InfoLineRecoverable | src/cli.rs:299-302 | an Info-mode line gives back its level and its message |
| CliUtil.Logger.Log | src/cli.rs:297-333 | appends what the specification emits for the record, or nothing, and keeps the level |
| CliUtil.Logger.InitLogger | src/cli.rs:341-351 | installs the logger, sets the level from the verbosity, and logs `verbosity=N` only when at least one `-v` was given |
| BuildScript.IsDirty | build.rs:134-140 | the tree is dirty exactly when `diff-index` ran and did not succeed; unknown exactly when it could not run |
| BuildScript.CommandStdoutTrimmed | build.rs:146-150 | absent exactly when the command could not run; otherwise the text has no whitespace at either end and trims to itself |
| BuildScript.DirtyMarkIff | build.rs:112-128 | the hash changes exactly when `is_dirty` says `Some(true)` and there is a hash; the change is the `-dirty` suffix behind the clean hash |
| BuildScript.Info.Lookup | build.rs:90-109 | a stored answer, even `None`, is returned without running anything; otherwise the producer runs once and its answer is stored; the cache stays consistent |
| BuildScript.Info.CommitHashShort | build.rs:90-95 | the lookup for the short hash |
| BuildScript.Info.CommitHashLong | build.rs:97-102 | the lookup for the long hash |
| BuildScript.Info.CommitDate | build.rs:104-109 | the lookup for the date |
| BuildScript.VersionShort | build.rs:45-59 | asks for the date only when there is a short hash, and returns the short text of the cached answers |
| BuildScript.VersionLong | build.rs:61-76 | returns the long text of the cached answers, after asking for the long hash and then the date |
| BuildScript.LongBuilt | build.rs:62-74 | the pushed-together string is the long version's lines joined by newlines |
| BuildScript.GenerateVersions | build.rs:11-29 | the two texts are those of one shared cache, asked in the build's order; with `NIGHTLY_BUILD` the version is rewritten |
| BuildScript.FirstRuns | build.rs:12-15 | from an empty cache each query runs once, in the order short hash, then date and long hash (or long hash and date without a hash) |
| BuildScript.ShortTextCases | build.rs:45-59 | the short version starts with the package version and differs from it exactly when hash and date are both known |
| BuildScript.LongTextLines | build.rs:61-76 | the long version reads back as short version, binary, release, then a hash line only with a hash and a date line only with a date |
| BuildScript.VersionsAgree | build.rs:12-15 | the long text's first line is the short text, and a date in the short text is the one on the last line |
| BuildScript.NightlyShape | build.rs:18-27 | the nightly version is the version up to its first `-`, then `-nightly.` and the date |
| BuildScript.NightlyAgain | build.rs:18-27 | rewriting a nightly version again only replaces the date |
| RustStr.TokensWellFormed | src/lib.rs:204 | every whitespace-separated column is non-empty and holds no ASCII whitespace |
| Process.WriteChunks | src/lib.rs:409-416 | the stdin closure's `write_all` calls, stopping at the first failure; `WriteChunksFailsIff` states when it fails |
| Process.Forwarded | src/lib.rs:478-483 | the lines a drain thread forwards; `ForwardedUpToFailure` proves they are those before the first failed read |
| Process.RunVerdict | src/lib.rs:458-507 | the run's result as the first failed check in the code's order; `RunSucceedsIff` and `RunErrorPrecedence` state it |
| Process.RunOutput | src/lib.rs:472-496 | what the two drains forward during a run; `RunOutputPerStream` states it per stream |
| Commands.CreateArgs | src/lib.rs:358-375 | the create argv; `CreateArgsRoundTrip` reads every field back from it |
| Commands.ExecInvocation | src/lib.rs:397-416 | the `iocage exec <jail> sh` invocation with the prelude and the script as stdin; `ExecPayloadLines` states what the shell reads |
| Commands.GroupScript | src/lib.rs:304-308 | the `pw groupadd` script; `GroupScriptJoin` and `GroupScriptFields` state its words |
| Commands.UserScript | src/lib.rs:321-327 | the `pw useradd` script; `UserScriptJoin` and `UserScriptFields` state its words |
| Provisioning.Provision | src/lib.rs:141-179 | the specification of `provision_jail`; `ProvisionNoUser`, `ProvisionNoTempFile`, `ProvisionNoGid` and `ProvisionFollowsPlan` state its cases |
| Provisioning.ProvisionAs | src/lib.rs:156-174 | the run once the user is known and the package list written: create, then `AfterCreate`; `AsNoGid` states the missing-group case |
| Provisioning.AfterCreate | src/lib.rs:158-174 | what follows a successful create; `RestSplit` states its cases |
| Release.LibDefaultRelease | src/lib.rs:215-223 | the library's derivation of a release from the kernel release; `LibReleasePieces` states it piece by piece |
| Release.CliDefaultRelease | src/cli.rs:184-186 | the command line's `-STABLE` replacement; `CliChangesIff` and `CliReleaseHasNoStable` state what it changes |
| Gateway.ParseGateway | src/lib.rs:202-211 | the parse chain on netstat's text; `ParseGatewayCases` states its outcomes |
| Gateway.GatewayAddr | src/lib.rs:192-212 | a failed `netstat` run and invalid UTF-8 are errors; otherwise the parse chain decides |
| CliUtil.PrettyText | src/cli.rs:386-396 | the error report; `PrettyJoin` and `PrettyErrorLines` state its lines |
| CliUtil.VerbosityFilter | src/cli.rs:344-349 | the maximum level for a number of `-v`; `VerbosityMonotone` states its cases |
| CliUtil.Emit | src/cli.rs:297-333 | what one record writes; `EmitCases` and `InfoLineRecoverable` state it |
| BuildScript.CommandStdout | build.rs:146-150 | `command_stdout`; `CommandStdoutTrimmed` states it |
| BuildScript.MarkDirty | build.rs:112-128 | the `-dirty` rule; `DirtyMarkIff` states when it applies |
| BuildScript.ShortText | build.rs:45-59 | the short version; `ShortTextCases` states its cases |
| BuildScript.LongText | build.rs:61-76 | the long version; `LongTextLines` reads its lines back |
| BuildScript.Nightly | build.rs:18-27 | the nightly version; `NightlyShape` and `NightlyAgain` state it |
| RustStr.Lines | src/lib.rs:202 | `str::lines`; `LinesOfJoin` and `LinesEmpty` prove it gives back the lines a text was written from |
| RustStr.LinesOfJoin | src/lib.rs:202 | for lines without `\n` that do not end in `\r`, `lines` of the lines each followed by `\n` gives them back, and so does `lines` of their join when the last is not empty |
| RustStr.LinesEmpty | src/lib.rs:202 | the empty text has no lines |
| RustStr.Tokens | src/lib.rs:204 | `split_ascii_whitespace`; `TokensOfSpread` proves the tokens are the maximal runs of non-whitespace, in order |
| RustStr.TokensOfSpread | src/lib.rs:204 | for any text laid out as non-empty whitespace-free words with ASCII whitespace around them and non-empty whitespace between them, the tokens are exactly those words, in order |
| RustStr.TrimEnds | build.rs:149 | a trimmed text has no whitespace at either end and trims to itself |
| RustStr.TrimSlice | build.rs:149 | trimming removes only whitespace, and only at the ends |

## Left out

- Process.SpawnAndIndentWithStdin: the two drain threads run one after the other (stdout, then stderr). The model keeps each stream's order. It does not keep how the two streams interleave on the terminal.
- Process.SpawnAndIndentWithStdin: the drains start only after the stdin writer returns (`src/lib.rs:467-470`). A child that fills its stdout pipe before reading all of stdin, or that neither reads nor exits, hangs the source. The model cannot represent a hang: `wait` always returns, and a write beyond what the child takes always fails with `StdinWrite`.
- Process.SpawnAndIndentWithStdin: the `debug!` line before the spawn and the indentation that `output!` and `eoutput!` add are not modelled. A forwarded line is kept as its text and its stream.
- `cmd_get_program` is not modelled. `Spawn` carries the invocation's program.
- Process spawning, pipes, `wait`, the user database, `uname`, the effective uid, and the `netstat` and `git` runs are oracles or inputs. They are not computed.
- The temporary file's creation and `fs::write` are not modelled. The file's path, or the I/O error, is an input to `Commands.CreatePkglistJson`. An `io::Error` is kept only as its message.
- Provisioning.ProvisionJail: the `section!` and `info!` progress messages are not recorded.
- Gateway.ParseGatewayCases: parsing an `IpAddr` is an oracle `isIp`, and the address is returned as the text that parsed.
- Gateway.ParseGatewayCases: invalid UTF-8 is one `NotUtf8` outcome of running `netstat`. Decoding is not modelled.
- `GatewayError`'s `Display`, `source`, and `default_gateway`'s exit through clap are not modelled.
- Commands.UserScriptFields: the quoting is proved only for names and shells without a single quote. A name or shell with one breaks the quoting in the source too.
- Lossy UTF-8 decoding in `to_string_lossy` and `from_utf8_lossy` is not modelled. Names, shells and git output are strings of characters.
- CliUtil.Logger.Log: the detailed form's timestamp, padded level and source location are not modelled. `Stamped` keeps the level and the message.
- CliUtil.Logger.InitLogger: installing a second logger panics in the source. The model requires that none is installed.
- CliUtil.PrettyError: the error's text and its causes' texts are inputs. `failure::Error` and its cause chain are not modelled.
- BuildScript.GenerateVersions: each producer runs `git show` and `git diff-index` at different moments. The model gives the whole n-th query one snapshot of git's answers.
- BuildScript.GenerateVersions: writing the version files under `OUT_DIR` and printing cargo directives are not modelled. The texts and the rewritten version are returned. `GIT_CMD` only picks the program and is not modelled.
- Panic hooks, the clap argument definitions, `src/main.rs`, `src/bin/iocage-provision/` and `tests/version-numbers.rs` are wiring or configuration, and are not modelled.
- Integers: uids and gids are `u32` and exit codes are `i32`. The verbosity is an unbounded `nat` instead of a `usize`.
