/**
 The command executor of the TV controller, with the adapter subprocess
 abstracted away: the shell line that pipes one CEC command into
 `cec-client`, and the classification of what became of that process into
 the boolean the controller acts on.
 */
module Cec {

  datatype Option<T> = None | Some(value: T)

  /** What became of one adapter subprocess. */
  datatype Outcome =
    | Exited(code: int)  // the process ran to completion with this exit status
    | TimedOut           // it was still running when the 30-second timeout expired
    | LaunchFailed       // any other `Exception` while starting or running it

  /** The text in front of the command: `echo "`. */
  const EchoPrefix: string := "echo \""

  /** The text after the command: the closing quote, the pipe, and the adapter
      run in single-command mode (`-s`) at log level 1 (`-d 1`). */
  function AdapterSuffix(client: string): string
  {
    "\" | " + client + " -s -d 1"
  }

  /** The shell line handed to the subprocess for `command`. */
  function ShellLine(client: string, command: string): string
  {
    EchoPrefix + command + AdapterSuffix(client)
  }

  /** Reads the command back out of a shell line built for `client`. */
  function CommandIn(client: string, line: string): (r: Option<string>)
    ensures r.Some? ==> |line| == |EchoPrefix| + |r.value| + |AdapterSuffix(client)|
  {
    var n := |EchoPrefix|;
    var m := |AdapterSuffix(client)|;
    if n + m <= |line| && line[..n] == EchoPrefix && line[|line| - m..] == AdapterSuffix(client)
    then Some(line[n..|line| - m])
    else None
  }

  /** Every shell line gives back the command it was built from. */
  lemma ShellLineParses(client: string, command: string)
    ensures CommandIn(client, ShellLine(client, command)) == Some(command)
  {
  }

  /** Whatever the parser accepts is exactly the shell line of what it returns. */
  lemma CommandInIsShellLine(client: string, line: string)
    ensures CommandIn(client, line).Some? ==> ShellLine(client, CommandIn(client, line).value) == line
  {
  }

  /** Two different commands never produce the same shell line. */
  lemma ShellLineInjective(client: string, c1: string, c2: string)
    ensures ShellLine(client, c1) == ShellLine(client, c2) ==> c1 == c2
  {
    ShellLineParses(client, c1);
    ShellLineParses(client, c2);
  }

  /** The boolean result of running one command: success exactly when the
      process exits with status 0; a nonzero status, a timeout or any other
      failure gives false, and no outcome escapes as an error. */
  function Succeeded(o: Outcome): (ok: bool)
    ensures o.Exited? ==> (ok <==> o.code == 0)
    ensures o.TimedOut? || o.LaunchFailed? ==> !ok
  {
    match o
    case Exited(code) => code == 0
    case TimedOut => false
    case LaunchFailed => false
  }
}
