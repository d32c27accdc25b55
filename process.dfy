/**
 * Child processes, as the tools see them: a command to spawn, and the
 * status it exits with. Spawning itself is an oracle
 * `Command -> Result<ExitStatus, string>` passed to whoever runs one.
 */
module Process {
  import opened Wrappers
  import opened Paths

  /** A command to spawn: program, arguments, working directory. */
  datatype Command = Command(program: string, args: seq<string>, cwd: Path)

  /** A spawned process's exit status. */
  datatype ExitStatus = ExitStatus(success: bool, code: Option<int>)

  /** What spawning a command and waiting for it yields. */
  type Runner = Command -> Result<ExitStatus, string>
}
