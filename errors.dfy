/**
 * The error types of `src/lib.rs`: `Error` for the crate's operations, `CmdError` for one
 * external command, and `IocageExecError`, which wraps a `CmdError` from `iocage exec`.
 * An `io::Error` is kept only as its message.
 */
module Errors {

  /** Rust's `i32`, the type of an exit code. */
  newtype i32 = x: int | -0x8000_0000 <= x < 0x8000_0000

  /** Rust's `u32`, the type of a uid or gid. */
  newtype u32 = x: int | 0 <= x < 0x1_0000_0000

  datatype IoError = IoError(message: string)

  datatype CmdError =
    | ChildWait(waitError: IoError)
    | Failed(code: i32)
    | Spawn(program: string, spawnError: IoError)
    | StreamCapture(stream: string)
    | Thread(stream: string)
    | StdinWrite(writeError: IoError)

  datatype IocageExecError = IocageExecError(cause: CmdError)

  datatype Error =
    | CreatePkglistJson(ioError: IoError)
    | ExecCreateGroup(execError: IocageExecError)
    | ExecCreateUser(execError: IocageExecError)
    | ExecSshService(execError: IocageExecError)
    | ExecSudoConfig(execError: IocageExecError)
    | IocageCreate(cmdError: CmdError)
    | NoGid(gid: u32)
    | NotRoot
    | NoUser(name: string)
}
