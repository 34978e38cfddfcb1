# Verified model of `clone_server` (mysql-utilities)

`clone_server` starts a new MySQL instance from the installation of an existing,
running server. It connects to the running server. It empties and recreates the
new data directory and asks the server for its `basedir`. It writes a bootstrap
SQL script, runs `mysqld --bootstrap` on the script, and then starts a
long-running `mysqld` on the new port, server id and data directory. It polls
the new instance up to ten times, one second apart. When a root password was
given, it sets that password with `mysqladmin`.

This project models that procedure in Dafny:

- `wrappers.dfy` holds `Option` and `Result`.
- `decimal.dfy` (module `Decimal`) prints an integer the way Python's `%s`
  prints an `int`. A parser is given as its inverse.
- `clone_text.dfy` (module `CloneText`) holds every string the procedure
  builds: the bootstrap script, the bootstrap command, the server command line,
  the `mysqladmin` password command, the connection summary, and the basedir
  choice. The source builds the script, the server command and the summary
  with successive appends. A method does the same appends and is proved equal
  to the function.
- `readiness.dfy` (module `Readiness`) is the polling loop, kept as a `while`
  loop over the counter `i` with the `stop + 1` success sentinel. The outcome
  of each connection attempt is an input.
- `clone_server.dfy` (module `CloneServer`) is the whole procedure as a trace
  of outside steps: connect, remove dir, make dir, query basedir, locate tools,
  write, run and delete the bootstrap script, start the server, sleep and
  connect, set the password. Every answer from the outside world is a field of
  `Environment`. `Run(req, env, x)` gives the steps and the result of a run
  that hands out the texts `x`: the script, the two mysqld commands, the
  `mysqladmin` command and the summary. `Clone` is `Run` with the texts that
  `CloneText` builds (`TextsOf`). `CloneServer` performs the steps statement
  by statement and is proved to agree with `Clone`. The lemmas about the
  order of the steps, the error that ends each kind of run, and what each
  step is given are stated about `Run` for every `x`. They therefore hold for
  `Clone`. `SameBasedir` is stated about `Clone` itself, down to the text of
  the two commands.

On these points the model follows what the code does:

- The exit status of the bootstrap run and of `mysqladmin` is read and never
  inspected. Neither can fail the clone (`ExitStatusIgnored`).
- The bootstrap script always has the fixed name `bootstrap.sql`, in the
  current directory. It is deleted only if it is still a file after the run.
- `--socket=<new_data>/mysql.sock` is passed to the server on every platform.
- The passthrough options are a single string. `--user=root` is added after
  them only when that string is non-empty.
- No request validation is done. A missing installation file is the concern of
  `get_tool_path`, which is not part of this model.

## Model

| member | source | states |
|---|---|---|
| `CloneText.PathJoin` | mysql/utilities/command/serverclone.py:159 | `os.path.join(dir, name)` is `dir` followed by `name`, with `os.sep` (`/` on POSIX, `\` elsewhere) between them exactly when `dir` is non-empty and does not already end in a separator |
| `CloneText.PidFile` | mysql/utilities/command/serverclone.py:159 | the pid file is `new_data`, then the platform separator unless `new_data` is empty or already ends in one, then `clone.pid` |
| `CloneText.ClientSocket` | mysql/utilities/command/serverclone.py:174-175 | the client socket path is `new_data`, then `/` unless `new_data` is empty or already ends in `/`, then `mysql.sock` |
| `CloneText.MysqlBasedirChoice` | mysql/utilities/command/serverclone.py:100-102 | the basedir given to mysqld extends the reported basedir, and is longer exactly when `<basedir>local/mysql/share/` exists; the added part is `local/mysql/`, the directory whose `share/` was checked |
| `CloneText.BootstrapScriptRoundTrip` | mysql/utilities/command/serverclone.py:124-131 | cutting the script after `CREATE DATABASE mysql;\nUSE mysql;\n` at the seed lengths gives back the four seed files in the order system tables, system table data, timezone data, help data |
| `CloneText.SplitBootstrapScriptSound` | mysql/utilities/command/serverclone.py:124-131 | any text that splits that way is exactly the preamble followed by those four files: the script holds nothing else |
| `CloneText.WriteBootstrapScript` | mysql/utilities/command/serverclone.py:124-131 | the six sequential writes produce the bootstrap script, and that script splits back into the seed files |
| `CloneText.BootstrapCommandShape` | mysql/utilities/command/serverclone.py:135-137 | the bootstrap command starts with `<mysqld> --no-defaults --bootstrap` and the datadir, carries `--basedir=<basedir> ` right after it, and ends by redirecting `bootstrap.sql` to stdin |
| `CloneText.ServerCommandPrefix` | mysql/utilities/command/serverclone.py:154 | the server command always begins with `<mysqld> --no-defaults ` |
| `CloneText.ServerCommandPassthrough` | mysql/utilities/command/serverclone.py:155-156 | right after that prefix come `<options> --user=root ` if and only if options were given |
| `CloneText.ServerCommandFlags` | mysql/utilities/command/serverclone.py:157-163 | the options datadir, tmpdir (both `new_data`), pid-file, port, server-id, basedir and socket follow one another in that order with nothing between them, and the socket option ends the command |
| `CloneText.BasedirInBothCommands` | mysql/utilities/command/serverclone.py:135-161 | the bootstrap command and the server command both hold `--basedir=<basedir> ` for the same basedir, at the option's place in each |
| `CloneText.ServerCommandSocket` | mysql/utilities/command/serverclone.py:163 | the command always ends with `--socket=<new_data>/mysql.sock ` |
| `CloneText.BuildServerCommand` | mysql/utilities/command/serverclone.py:154-163 | the chain of `+=` appends yields exactly the server command described above |
| `CloneText.AdminPasswordTransport` | mysql/utilities/command/serverclone.py:210-215 | the password command starts with `<mysqladmin> --no-defaults -v -uroot `; on POSIX it is exactly that head, `--socket=` with the socket `os.path.join(new_data, "mysql.sock")`, then `password <rootpass> `; elsewhere it continues with `password <rootpass> --port=` and ends with text that reads back as `int(new_port)` |
| `CloneText.ConnectionSummaryShape` | mysql/utilities/command/serverclone.py:226-233 | the summary starts with its header and `-uroot`; `-p<password>` follows exactly when a password was set; it ends with the socket on POSIX and with the port as given elsewhere |
| `CloneText.BuildConnectionSummary` | mysql/utilities/command/serverclone.py:226-233 | the appends yield exactly that summary |
| `Decimal.IntToDecimal` | mysql/utilities/command/serverclone.py:215 | `str(int)` is non-empty and begins with `-` exactly for negative numbers |
| `Decimal.NatToDecimal` | mysql/utilities/command/serverclone.py:215 | the digits of a natural number: only digits, with a leading `0` only for zero |
| `Decimal.IntToDecimalRoundTrip` | mysql/utilities/command/serverclone.py:215 | parsing the printed port gives back the same integer |
| `Readiness.WaitUntilReady` | mysql/utilities/command/serverclone.py:187-204 | the loop with `i = stop + 1` on success returns the first connecting attempt (counted from 1), or Unreachable when `i == stop`; its events are one sleep and one connection attempt per attempt made |
| `Readiness.UnreachableIff` | mysql/utilities/command/serverclone.py:201-202 | the probe gives up if and only if all ten attempts fail |
| `Readiness.ReadyIff` | mysql/utilities/command/serverclone.py:189-196 | the probe reports success after n attempts if and only if 1 <= n <= 10, attempt n connects and every earlier attempt failed |
| `Readiness.LastAttemptCounts` | mysql/utilities/command/serverclone.py:194-201 | a connection on the tenth attempt is a success, because the sentinel `stop + 1` differs from `stop` |
| `Readiness.AttemptsStopAtFirstConnect` | mysql/utilities/command/serverclone.py:187-196 | between 1 and 10 attempts are made; all but the last fail; the last connects exactly when the probe succeeds, so no attempt follows a success |
| `Readiness.ProbeEventsAt` | mysql/utilities/command/serverclone.py:189-193 | attempt k is a one-second sleep followed by a connection attempt with that attempt's outcome |
| `Readiness.SleepBeforeConnect` | mysql/utilities/command/serverclone.py:190-193 | every connection attempt of the probe comes right after a sleep |
| `CloneServer.LaunchInstance` | mysql/utilities/command/serverclone.py:94-167 | the statements from the tool lookup to the server start take exactly the launch steps of `Clone`: the script and the commands they build are the ones `TextsOf` gives for the chosen basedir |
| `CloneServer.CloneServer` | mysql/utilities/command/serverclone.py:30-237 | the statement-by-statement procedure takes exactly the steps, and gives exactly the result, of the specification `Clone` |
| `CloneServer.StepsInOrder` | mysql/utilities/command/serverclone.py:64-223 | in every run the steps come in procedure order, and each step other than probing happens at most once |
| `CloneServer.Message` | mysql/utilities/command/serverclone.py:82-202 | the procedure raises a message of its own for every error except an unreachable source; the mkdir message quotes the `new_data` path verbatim between `Unable to create directory '` and a closing `'` |
| `CloneServer.MessageIdentifiesError` | mysql/utilities/command/serverclone.py:82-202 | two errors that raise the same message are the same error, down to the directory path |
| `CloneServer.ResultCases` | mysql/utilities/command/serverclone.py:65-204 | each result holds exactly when its cause does: an unreachable source, a failed mkdir of a missing dir, empty basedir rows, or ten failed attempts after a successful launch; otherwise the run succeeds and returns the summary it was given |
| `CloneServer.DataDirPreparedFirst` | mysql/utilities/command/serverclone.py:71-88 | before the basedir query an existing `new_data` is removed, `new_data` is created exactly when it is missing after the removal, and that creation succeeded |
| `CloneServer.MkdirFailureStops` | mysql/utilities/command/serverclone.py:78-82 | a failed mkdir is the last step: no basedir query or later step is taken |
| `CloneServer.BasedirFailureStops` | mysql/utilities/command/serverclone.py:88-96 | empty basedir rows end the run at the query, before any tool lookup or bootstrap step |
| `CloneServer.LaunchPositions` | mysql/utilities/command/serverclone.py:94-154 | right after the query come the tool lookup for the reported basedir, the write of the script to `bootstrap.sql`, the bootstrap run, the deletion when the file is still there, and the server start, each with the text the run was given |
| `CloneServer.BootstrapCommandAt` | mysql/utilities/command/serverclone.py:135-145 | a bootstrap run happens only in a run that got past the basedir query, and it runs the bootstrap command the run was given |
| `CloneServer.ServerCommandAt` | mysql/utilities/command/serverclone.py:154-167 | a server start happens only in a run that got past the basedir query, and it starts the server command the run was given |
| `CloneServer.BootstrapThenStart` | mysql/utilities/command/serverclone.py:144-154 | the bootstrap run is followed by the deletion of `bootstrap.sql` when it is still a file, and then always by the start of the server |
| `CloneServer.SameBasedir` | mysql/utilities/command/serverclone.py:100-161 | in a run of `Clone`, the bootstrap run and the server start both pass `--basedir=` with the same basedir: the reported one, extended by `local/mysql/` when its share directory exists |
| `CloneServer.PasswordLast` | mysql/utilities/command/serverclone.py:201-223 | the password is set at most once, as the last step, right after a successful connection, with the `mysqladmin` command the run was given, and exactly when the run succeeds with a non-empty root password |
| `CloneServer.ConnectionAttempts` | mysql/utilities/command/serverclone.py:187-202 | a run makes as many connection attempts as the probe, never more than ten, and exactly ten when it reports the instance unreachable; a run that stops earlier makes none |
| `CloneServer.SleepBeforeEachAttempt` | mysql/utilities/command/serverclone.py:189-193 | every connection attempt in a run comes right after a sleep |
| `CloneServer.ExitStatusIgnored` | mysql/utilities/command/serverclone.py:144-154 | changing the exit status of the bootstrap run or of `mysqladmin` changes neither the steps nor the result |

## Left out

- The `Server` class (connect, `exec_query`) is not part of this model. The
  model takes only its answers: whether the source connects, the basedir rows,
  and each probe's outcome. The error raised when the source connection fails
  comes from that class, so its message is not modelled.
- `get_tool_path` is not part of this model. The resolved `mysqld` and
  `mysqladmin` paths and the seed-file contents are inputs. The lookup result
  at line 98 is overwritten at line 100 and is ignored.
- Reading a seed file whose lookup returned `None` fails in Python. This is
  not modelled: seed contents are always given.
- Shell execution, `subprocess.Popen`, redirection to `os.devnull`, and the
  files `shutil.rmtree`, `os.mkdir` and `os.unlink` act on. These are I/O:
  each appears only as a trace event, with its outcome as an input. The model
  keeps no file-system state beyond that.
- Exceptions raised by `Popen`, `open` or `unlink` are not modelled.
- `time.sleep` is one `Sleep` event per attempt. Wall-clock time is not
  modelled.
- All printing, and the `verbose` and `quiet` flags, are left out because they
  change only output. The connection summary is returned with a successful
  result. The source prints it only when `quiet` is off and returns `None`.
- `os.name` is the boolean `isPosix`.
- `int(new_port)` is the input `portNumber`. Its failure on malformed text is
  a Python runtime error and is not modelled.
- PathJoin: on non-POSIX systems, only the simple `ntpath.join` rule is
  modelled. The separator is `\`, with none added after `/`, `\` or `:`. The
  drive and UNC handling of `ntpath` is not modelled.
- The connection settings used by the probe (host, port, socket) are not
  recorded in the probe events.
- Concurrent runs sharing `bootstrap.sql` or the data directory are not
  modelled.
