/**
 * src/Common.ts: the base of the older command classes. It runs a sail (or
 * sail artisan) command in the first workspace folder through the platform's
 * shell, logs it to the output channel, and hands the process result to a
 * callback; and it shows error messages.
 */
module Common {
  import opened Wrappers
  import opened Js
  import opened Host
  import Utils

  const SAIL_PREFIX := "./vendor/bin/sail "
  const ARTISAN_PREFIX := "./vendor/bin/sail artisan "
  const CONSOLE_HINT := " (See output console for more details)"
  /** The `maxBuffer` given to `exec`: 200 KiB. */
  const MAX_BUFFER := 1024 * 200

  /** What the helpers do, in order. The output channel (src/utils/Output.ts) is not part of this model. */
  datatype CommonEffect =
    | LogCommand(text: string)                      // Output.command
    | Exec(shellLine: string, maxBuffer: nat)       // cp.exec
    | LogError(text: string)                        // Output.error
    | ShowConsole                                   // Output.showConsole
    | Callback(err: Option<string>, stdout: string, stderr: string)
    | ConsoleError(text: string)                    // console.error
    | ErrorMessage(text: string)                    // window.showErrorMessage

  /** The directory the command runs in: the first folder's URI path, or `./` without folders. */
  function WorkingPath(folders: Option<seq<Folder>>): (p: string)
    ensures folders.Some? && |folders.value| > 0 ==> p == folders.value[0].path
    ensures folders.None? || folders.value == [] ==> p == "./"
  {
    if folders.Some? && |folders.value| > 0 then folders.value[0].path else "./"
  }

  /** `cd` into the directory, then run: with `/d` on win32 so the drive changes too. */
  function ShellLine(platform: string, path: string, command: string): (line: string)
    ensures platform == "win32" ==> line == "cd /d " + path + " && " + command
    ensures platform != "win32" ==> line == "cd " + path + " && " + command
  {
    if platform == "win32" then "cd /d " + path + " && " + command else "cd " + path + " && " + command
  }

  /** The line is the same on every platform but for the `/d ` after `cd `. */
  lemma ShellLinesDifferByDriveSwitch(path: string, command: string)
    ensures ShellLine("win32", path, command) == "cd " + ("/d " + path + " && " + command)
    ensures ShellLine("linux", path, command) == "cd " + (path + " && " + command)
    ensures |ShellLine("win32", path, command)| == |ShellLine("linux", path, command)| + 3
  {
  }

  /**
   * Running an already prefixed command: log it trimmed, run it, on an error log
   * the trimmed message and show the console, and in every case call the
   * callback once, last, with the whole result.
   */
  function RunPrefixed(full: string, folders: Option<seq<Folder>>, platform: string, result: Utils.ExecResult): (t: seq<CommonEffect>)
    ensures |t| >= 3
    ensures t[0] == LogCommand(Trim(full))
    ensures t[1] == Exec(ShellLine(platform, WorkingPath(folders), full), MAX_BUFFER)
    ensures t[|t| - 1] == Callback(result.error, result.stdout, result.stderr)
    ensures |t| == if result.error.Some? then 5 else 3
    ensures result.error.Some? ==> t[2] == LogError(Trim(result.error.value)) && t[3] == ShowConsole
    ensures forall i :: 0 <= i < |t| - 1 ==> !t[i].Callback? && !(t[i].LogError? && result.error.None?)
  {
    var log := LogCommand(Trim(full));
    var exec := Exec(ShellLine(platform, WorkingPath(folders), full), MAX_BUFFER);
    var done := Callback(result.error, result.stdout, result.stderr);
    if result.error.Some? then
      [log, exec, LogError(Trim(result.error.value)), ShowConsole, done]
    else
      [log, exec, done]
  }

  /** `execCmd(command, callback)`: a sail command. */
  function ExecCmd(command: string, folders: Option<seq<Folder>>, platform: string, result: Utils.ExecResult): seq<CommonEffect>
  {
    RunPrefixed(SAIL_PREFIX + command, folders, platform, result)
  }

  /** `execArtisanCmd(command, callback)`: a sail artisan command. */
  function ExecArtisanCmd(command: string, folders: Option<seq<Folder>>, platform: string, result: Utils.ExecResult): seq<CommonEffect>
  {
    RunPrefixed(ARTISAN_PREFIX + command, folders, platform, result)
  }

  /** An artisan command is the sail command `artisan <command>`. */
  lemma ArtisanIsSailArtisan(command: string, folders: Option<seq<Folder>>, platform: string, result: Utils.ExecResult)
    ensures ExecArtisanCmd(command, folders, platform, result) == ExecCmd("artisan " + command, folders, platform, result)
  {
    assert ARTISAN_PREFIX + command == SAIL_PREFIX + ("artisan " + command);
  }

  /**
   * `showError(message, consoleErr)`: the message is shown with the console hint
   * exactly when a console error is given, which is then logged with the hint;
   * the call always answers false.
   */
  function ShowError(message: string, consoleErr: Option<string>): (r: (bool, seq<CommonEffect>))
    ensures !r.0
    ensures |r.1| >= 1 && r.1[|r.1| - 1].ErrorMessage?
    ensures consoleErr.Some? <==> r.1[|r.1| - 1].text == message + CONSOLE_HINT
    ensures consoleErr.None? <==> r.1[|r.1| - 1].text == message
    ensures consoleErr.Some? <==> exists i :: 0 <= i < |r.1| && r.1[i].ConsoleError?
    ensures consoleErr.Some? ==> r.1[0] == ConsoleError(consoleErr.value + CONSOLE_HINT)
  {
    if consoleErr.Some? then
      var t := [ConsoleError(consoleErr.value + CONSOLE_HINT), ErrorMessage(message + CONSOLE_HINT)];
      assert t[0].ConsoleError?;
      (false, t)
    else
      (false, [ErrorMessage(message)])
  }
}
