/**
 * The text that `clone_server` builds: the bootstrap SQL script, the
 * one-shot bootstrap command, the long-running `mysqld` command line, the
 * `mysqladmin` password command and the connection summary. Every builder
 * is a function of its inputs; where the source accumulates a string with
 * successive appends, a method does the same appends and is proved to
 * produce the function's value.
 */
module CloneText {
  import opened Wrappers
  import opened Decimal

  /** The arguments of `clone_server` that reach the generated text. */
  datatype CloneRequest = CloneRequest(
    newData: string,       // datadir of the new instance
    newPort: string,       // port as given, printed with %s
    portNumber: int,       // the value int(new_port) yields
    newId: string,         // server_id as given, printed with %s
    rootPass: string,      // "" when no root password is wanted
    mysqldOptions: string, // "" for None or an empty string
    isPosix: bool)         // os.name == "posix"

  /** Contents of the four seed files, as read from the installation. */
  datatype SeedScripts = SeedScripts(
    systemTables: string,      // mysql_system_tables.sql
    systemTablesData: string,  // mysql_system_tables_data.sql
    timezoneData: string,      // mysql_test_data_timezone.sql
    helpData: string)          // fill_help_tables.sql

  const BOOTSTRAP_PREAMBLE: string := "CREATE DATABASE mysql;\n" + "USE mysql;\n"
  const BOOTSTRAP_FILE: string := "bootstrap.sql"
  const LOCAL_INSTALL: string := "local/mysql/"

  predicate IsSuffix(t: string, s: string) {
    |t| <= |s| && s[|s| - |t|..] == t
  }

  // ---------------------------------------------------------------- paths

  predicate IsSeparator(isPosix: bool, c: char) {
    if isPosix then c == '/' else c == '/' || c == '\\' || c == ':'
  }

  /** The separator os.path.join inserts: os.sep. */
  function Separator(isPosix: bool): string {
    if isPosix then "/" else "\\"
  }

  /**
   * os.path.join(dir, name) for a relative file name: a separator is put
   * between the two unless `dir` is empty or already ends in one.
   */
  function PathJoin(isPosix: bool, dir: string, name: string): (path: string)
    ensures path == dir + name || path == dir + Separator(isPosix) + name
    ensures path == dir + name <==> (dir == [] || IsSeparator(isPosix, dir[|dir| - 1]))
  {
    if dir == [] || IsSeparator(isPosix, dir[|dir| - 1]) then dir + name
    else dir + Separator(isPosix) + name
  }

  /** The path whose existence makes the basedir the "local" sub-install. */
  function LocalSharePath(basedir: string): string {
    basedir + LOCAL_INSTALL + "share/"
  }

  /**
   * The basedir passed to mysqld: the running server's basedir, extended
   * with "local/mysql/" when LocalSharePath(basedir) exists.
   */
  function MysqlBasedir(basedir: string, localShareExists: bool): string {
    if localShareExists then basedir + LOCAL_INSTALL else basedir
  }

  lemma MysqlBasedirChoice(basedir: string, localShareExists: bool)
    ensures basedir <= MysqlBasedir(basedir, localShareExists)
    ensures |MysqlBasedir(basedir, localShareExists)| > |basedir| <==> localShareExists
    ensures localShareExists ==>
      MysqlBasedir(basedir, localShareExists)[|basedir|..] == LOCAL_INSTALL &&
      MysqlBasedir(basedir, localShareExists) + "share/" == LocalSharePath(basedir)
  {
    if localShareExists {
      assert (basedir + LOCAL_INSTALL)[|basedir|..] == LOCAL_INSTALL;
    }
  }

  // ----------------------------------------------------- bootstrap script

  /** The catalog preamble followed by the four seed files in fixed order. */
  function BootstrapScript(seeds: SeedScripts): string {
    BOOTSTRAP_PREAMBLE + seeds.systemTables + seeds.systemTablesData
      + seeds.timezoneData + seeds.helpData
  }

  /** Lengths of the four seed files, in script order. */
  function SeedLengths(seeds: SeedScripts): (lengths: seq<nat>)
    ensures |lengths| == 4
  {
    [|seeds.systemTables|, |seeds.systemTablesData|, |seeds.timezoneData|, |seeds.helpData|]
  }

  /**
   * Cuts a bootstrap script back into its seed files, given their lengths:
   * None unless the script is the preamble followed by exactly that much text.
   */
  function SplitBootstrapScript(script: string, lengths: seq<nat>): (r: Option<SeedScripts>)
    requires |lengths| == 4
    ensures r.Some? ==> SeedLengths(r.value) == lengths
  {
    var p := |BOOTSTRAP_PREAMBLE|;
    var a := p + lengths[0];
    var b := a + lengths[1];
    var c := b + lengths[2];
    var d := c + lengths[3];
    if |script| == d && BOOTSTRAP_PREAMBLE <= script then
      Some(SeedScripts(script[p..a], script[a..b], script[b..c], script[c..d]))
    else None
  }

  /** Splitting a script built from `seeds` gives back exactly `seeds`. */
  lemma BootstrapScriptRoundTrip(seeds: SeedScripts)
    ensures SplitBootstrapScript(BootstrapScript(seeds), SeedLengths(seeds)) == Some(seeds)
  {
    var s := BootstrapScript(seeds);
    var p := |BOOTSTRAP_PREAMBLE|;
    var a := p + |seeds.systemTables|;
    var b := a + |seeds.systemTablesData|;
    var c := b + |seeds.timezoneData|;
    assert s[..p] == BOOTSTRAP_PREAMBLE;
    assert BOOTSTRAP_PREAMBLE <= s;
    assert s[p..a] == seeds.systemTables;
    assert s[a..b] == seeds.systemTablesData;
    assert s[b..c] == seeds.timezoneData;
    assert s[c..] == seeds.helpData;
    assert s[c..|s|] == seeds.helpData;
    assert SeedLengths(seeds) == [a - p, b - a, c - b, |s| - c];
  }

  /** Whatever splits into seed files is the script built from them. */
  lemma SplitBootstrapScriptSound(script: string, lengths: seq<nat>)
    requires |lengths| == 4
    requires SplitBootstrapScript(script, lengths).Some?
    ensures BootstrapScript(SplitBootstrapScript(script, lengths).value) == script
  {
    var p := |BOOTSTRAP_PREAMBLE|;
    var a := p + lengths[0];
    var b := a + lengths[1];
    var c := b + lengths[2];
    var v := SplitBootstrapScript(script, lengths).value;
    assert v == SeedScripts(script[p..a], script[a..b], script[b..c], script[c..]);
    assert script[..p] == BOOTSTRAP_PREAMBLE;
    assert script[..a] == script[..p] + script[p..a];
    assert script[..b] == script[..a] + script[a..b];
    assert script[..c] == script[..b] + script[b..c];
    assert script == script[..c] + script[c..];
  }

  /** The six writes to bootstrap.sql, in the order the source makes them. */
  method WriteBootstrapScript(seeds: SeedScripts) returns (contents: string)
    ensures contents == BootstrapScript(seeds)
    ensures SplitBootstrapScript(contents, SeedLengths(seeds)) == Some(seeds)
  {
    contents := "";
    contents := contents + "CREATE DATABASE mysql;\n";
    contents := contents + "USE mysql;\n";
    contents := contents + seeds.systemTables;
    contents := contents + seeds.systemTablesData;
    contents := contents + seeds.timezoneData;
    contents := contents + seeds.helpData;
    BootstrapScriptRoundTrip(seeds);
  }

  // ---------------------------------------------------- bootstrap command

  const BOOTSTRAP_HEAD: string := " --no-defaults --bootstrap "

  /** The shell command that runs mysqld once in bootstrap mode, reading bootstrap.sql. */
  function BootstrapCommand(mysqldPath: string, newData: string, mysqlBasedir: string): string {
    mysqldPath + BOOTSTRAP_HEAD + (" --datadir=" + newData + " --basedir=" + mysqlBasedir + " ")
      + " < " + BOOTSTRAP_FILE
  }

  /** Position of the basedir option within the bootstrap command. */
  function BootstrapBasedirAt(mysqldPath: string, newData: string): nat {
    |mysqldPath + BOOTSTRAP_HEAD + " --datadir=" + newData + " "|
  }

  lemma BootstrapCommandShape(mysqldPath: string, newData: string, mysqlBasedir: string)
    ensures var cmd := BootstrapCommand(mysqldPath, newData, mysqlBasedir);
      var at := BootstrapBasedirAt(mysqldPath, newData);
      var opt := "--basedir=" + mysqlBasedir + " ";
      mysqldPath + BOOTSTRAP_HEAD + " --datadir=" + newData + " " <= cmd &&
      at + |opt| <= |cmd| && cmd[at..at + |opt|] == opt &&
      IsSuffix(" < " + BOOTSTRAP_FILE, cmd)
  {
    var cmd := BootstrapCommand(mysqldPath, newData, mysqlBasedir);
    var head := mysqldPath + BOOTSTRAP_HEAD + " --datadir=" + newData + " ";
    var opt := "--basedir=" + mysqlBasedir + " ";
    assert cmd == head + opt + " < " + BOOTSTRAP_FILE;
  }

  // ------------------------------------------------------- server command

  /** One `--name=value ` option of the server command line; `key` is "--name=". */
  datatype Flag = Flag(key: string, value: string)

  function RenderFlag(f: Flag): string {
    f.key + f.value + " "
  }

  function RenderFlags(flags: seq<Flag>): string
    decreases |flags|
  {
    if flags == [] then "" else RenderFlag(flags[0]) + RenderFlags(flags[1..])
  }

  /** The pid file the server is told to write. */
  function PidFile(req: CloneRequest): (path: string)
    ensures path == req.newData + "clone.pid" || path == req.newData + Separator(req.isPosix) + "clone.pid"
    ensures path == req.newData + "clone.pid" <==>
      (req.newData == [] || IsSeparator(req.isPosix, req.newData[|req.newData| - 1]))
  {
    PathJoin(req.isPosix, req.newData, "clone.pid")
  }

  /** The socket path the server is told to use (always given, on every platform). */
  function ServerSocket(req: CloneRequest): string {
    req.newData + "/mysql.sock"
  }

  /** The options of the server command after the optional passthrough, in order. */
  function LaunchFlags(req: CloneRequest, mysqlBasedir: string): seq<Flag> {
    [ Flag("--datadir=", req.newData),
      Flag("--tmpdir=", req.newData),
      Flag("--pid-file=", PidFile(req)),
      Flag("--port=", req.newPort),
      Flag("--server-id=", req.newId),
      Flag("--basedir=", mysqlBasedir),
      Flag("--socket=", ServerSocket(req)) ]
  }

  const SERVER_HEAD: string := " --no-defaults "

  /** Caller options, followed by "--user=root", only when options were given. */
  function Passthrough(mysqldOptions: string): string {
    if mysqldOptions != "" then mysqldOptions + " --user=root " else ""
  }

  /** The long-running server's command line. */
  function ServerCommand(mysqldPath: string, req: CloneRequest, mysqlBasedir: string): string {
    mysqldPath + SERVER_HEAD + Passthrough(req.mysqldOptions)
      + RenderFlags(LaunchFlags(req, mysqlBasedir))
  }

  lemma {:induction false} RenderFlagsAppend(xs: seq<Flag>, ys: seq<Flag>)
    ensures RenderFlags(xs + ys) == RenderFlags(xs) + RenderFlags(ys)
    decreases |xs|
  {
    if xs == [] {
      assert xs + ys == ys;
    } else {
      assert (xs + ys)[0] == xs[0];
      assert (xs + ys)[1..] == xs[1..] + ys;
      RenderFlagsAppend(xs[1..], ys);
    }
  }

  /**
   * Flag i of a rendered list sits right after the rendering of flags
   * 0..i-1 and right before that of flags i+1..: each is rendered whole,
   * in list order, with nothing in between.
   */
  lemma RenderedFlagAt(flags: seq<Flag>, i: nat)
    requires i < |flags|
    ensures var at := |RenderFlags(flags[..i])|;
      var end := |RenderFlags(flags[..i + 1])|;
      end == at + |RenderFlag(flags[i])| && end <= |RenderFlags(flags)| &&
      RenderFlags(flags)[at..end] == RenderFlag(flags[i])
  {
    assert flags == flags[..i] + [flags[i]] + flags[i + 1..];
    assert flags[..i + 1] == flags[..i] + [flags[i]];
    RenderFlagsAppend(flags[..i] + [flags[i]], flags[i + 1..]);
    RenderFlagsAppend(flags[..i], [flags[i]]);
    assert RenderFlags([flags[i]]) == RenderFlag(flags[i]) + RenderFlags([]);
  }

  /** Where option i of LaunchFlags starts in the server command. */
  function ServerFlagAt(mysqldPath: string, req: CloneRequest, mysqlBasedir: string, i: nat): nat
    requires i <= 7
  {
    |mysqldPath + SERVER_HEAD + Passthrough(req.mysqldOptions)|
      + |RenderFlags(LaunchFlags(req, mysqlBasedir)[..i])|
  }

  /** The command starts with the executable and " --no-defaults ". */
  lemma ServerCommandPrefix(mysqldPath: string, req: CloneRequest, mysqlBasedir: string)
    ensures mysqldPath + " --no-defaults " <= ServerCommand(mysqldPath, req, mysqlBasedir)
  {
  }

  /**
   * Right after the prefix come the caller's options and " --user=root ",
   * exactly when options were given.
   */
  lemma ServerCommandPassthrough(mysqldPath: string, req: CloneRequest, mysqlBasedir: string)
    ensures var cmd := ServerCommand(mysqldPath, req, mysqlBasedir);
      var rest := cmd[|mysqldPath + SERVER_HEAD|..];
      req.mysqldOptions + " --user=root " <= rest <==> req.mysqldOptions != ""
  {
    var cmd := ServerCommand(mysqldPath, req, mysqlBasedir);
    var rest := cmd[|mysqldPath + SERVER_HEAD|..];
    var flags := LaunchFlags(req, mysqlBasedir);
    assert rest == Passthrough(req.mysqldOptions) + RenderFlags(flags);
    if req.mysqldOptions == "" {
      assert RenderFlags(flags) == RenderFlag(flags[0]) + RenderFlags(flags[1..]);
      assert rest[0] == '-';
      assert (req.mysqldOptions + " --user=root ")[0] == ' ';
    }
  }

  /**
   * The seven options follow the passthrough one after another in the order
   * datadir, tmpdir, pid-file, port, server-id, basedir, socket, and the
   * socket option ends the command.
   */
  lemma ServerCommandFlags(mysqldPath: string, req: CloneRequest, mysqlBasedir: string, i: nat)
    requires i < 7
    ensures var cmd := ServerCommand(mysqldPath, req, mysqlBasedir);
      var f := LaunchFlags(req, mysqlBasedir)[i];
      var at := ServerFlagAt(mysqldPath, req, mysqlBasedir, i);
      var end := ServerFlagAt(mysqldPath, req, mysqlBasedir, i + 1);
      end == at + |RenderFlag(f)| && end <= |cmd| && cmd[at..end] == RenderFlag(f)
    ensures ServerFlagAt(mysqldPath, req, mysqlBasedir, 7) == |ServerCommand(mysqldPath, req, mysqlBasedir)|
  {
    var flags := LaunchFlags(req, mysqlBasedir);
    var head := mysqldPath + SERVER_HEAD + Passthrough(req.mysqldOptions);
    RenderedFlagAt(flags, i);
    assert flags[..7] == flags;
    var at := |RenderFlags(flags[..i])|;
    var end := |RenderFlags(flags[..i + 1])|;
    SliceAfter(head, RenderFlags(flags), at, end);
  }

  /** A slice of the second part of a concatenation. */
  lemma SliceAfter(x: string, y: string, i: nat, j: nat)
    requires i <= j <= |y|
    ensures (x + y)[|x| + i..|x| + j] == y[i..j]
  {
    assert forall k :: 0 <= k < j - i ==> (x + y)[|x| + i..|x| + j][k] == y[i..j][k];
  }

  /** The command always ends with the socket option naming <new_data>/mysql.sock. */
  lemma ServerCommandSocket(mysqldPath: string, req: CloneRequest, mysqlBasedir: string)
    ensures IsSuffix("--socket=" + req.newData + "/mysql.sock ", ServerCommand(mysqldPath, req, mysqlBasedir))
  {
    var flags := LaunchFlags(req, mysqlBasedir);
    ServerCommandFlags(mysqldPath, req, mysqlBasedir, 6);
    assert RenderFlag(flags[6]) == "--socket=" + req.newData + "/mysql.sock ";
  }

  /** `cmd` holds the option "--basedir=<basedir> " at position `at`. */
  predicate BasedirOption(cmd: string, at: nat, basedir: string) {
    var opt := "--basedir=" + basedir + " ";
    at + |opt| <= |cmd| && cmd[at..at + |opt|] == opt
  }

  /** The bootstrap command and the server command name the same basedir. */
  lemma BasedirInBothCommands(mysqldPath: string, req: CloneRequest, mysqlBasedir: string)
    ensures BasedirOption(BootstrapCommand(mysqldPath, req.newData, mysqlBasedir),
                          BootstrapBasedirAt(mysqldPath, req.newData), mysqlBasedir)
    ensures BasedirOption(ServerCommand(mysqldPath, req, mysqlBasedir),
                          ServerFlagAt(mysqldPath, req, mysqlBasedir, 5), mysqlBasedir)
  {
    BootstrapCommandShape(mysqldPath, req.newData, mysqlBasedir);
    ServerCommandFlags(mysqldPath, req, mysqlBasedir, 5);
    assert RenderFlag(LaunchFlags(req, mysqlBasedir)[5]) == "--basedir=" + mysqlBasedir + " ";
  }

  /** The appends of the source that build the server command, one option at a time. */
  method BuildServerCommand(mysqldPath: string, req: CloneRequest, mysqlBasedir: string)
    returns (cmd: string)
    ensures cmd == ServerCommand(mysqldPath, req, mysqlBasedir)
  {
    cmd := mysqldPath + " --no-defaults ";
    if req.mysqldOptions != "" {
      cmd := cmd + (req.mysqldOptions + " --user=root ");
    }
    ghost var head := cmd;
    ghost var done: seq<Flag> := [];
    AppendFlagText(head, cmd, done, Flag("--datadir=", req.newData), "--datadir=" + req.newData + " ");
    cmd := cmd + ("--datadir=" + req.newData + " ");
    done := done + [Flag("--datadir=", req.newData)];
    AppendFlagText(head, cmd, done, Flag("--tmpdir=", req.newData), "--tmpdir=" + req.newData + " ");
    cmd := cmd + ("--tmpdir=" + req.newData + " ");
    done := done + [Flag("--tmpdir=", req.newData)];
    AppendFlagText(head, cmd, done, Flag("--pid-file=", PidFile(req)), "--pid-file=" + PathJoin(req.isPosix, req.newData, "clone.pid") + " ");
    cmd := cmd + ("--pid-file=" + PathJoin(req.isPosix, req.newData, "clone.pid") + " ");
    done := done + [Flag("--pid-file=", PidFile(req))];
    AppendFlagText(head, cmd, done, Flag("--port=", req.newPort), "--port=" + req.newPort + " ");
    cmd := cmd + ("--port=" + req.newPort + " ");
    done := done + [Flag("--port=", req.newPort)];
    AppendFlagText(head, cmd, done, Flag("--server-id=", req.newId), "--server-id=" + req.newId + " ");
    cmd := cmd + ("--server-id=" + req.newId + " ");
    done := done + [Flag("--server-id=", req.newId)];
    AppendFlagText(head, cmd, done, Flag("--basedir=", mysqlBasedir), "--basedir=" + mysqlBasedir + " ");
    cmd := cmd + ("--basedir=" + mysqlBasedir + " ");
    done := done + [Flag("--basedir=", mysqlBasedir)];
    AppendFlagText(head, cmd, done, Flag("--socket=", ServerSocket(req)), "--socket=" + req.newData + "/mysql.sock ");
    cmd := cmd + ("--socket=" + req.newData + "/mysql.sock ");
    done := done + [Flag("--socket=", ServerSocket(req))];
    assert done == LaunchFlags(req, mysqlBasedir);
    assert head == mysqldPath + SERVER_HEAD + Passthrough(req.mysqldOptions);
  }

  /**
   * One append of BuildServerCommand: after `head` and the flags `done`,
   * appending the text of flag `f` gives `head` and the flags `done + [f]`.
   */
  lemma AppendFlagText(head: string, cmd: string, done: seq<Flag>, f: Flag, text: string)
    requires cmd == head + RenderFlags(done)
    requires text == RenderFlag(f)
    ensures cmd + text == head + RenderFlags(done + [f])
  {
    RenderFlagsAppend(done, [f]);
    assert RenderFlags([f]) == RenderFlag(f) + RenderFlags([]);
  }

  // ---------------------------------------------------- password command

  /** The socket path clients use on POSIX: os.path.join(new_data, "mysql.sock"). */
  function ClientSocket(req: CloneRequest): (path: string)
    ensures path == req.newData + "mysql.sock" || path == req.newData + "/" + "mysql.sock"
    ensures path == req.newData + "mysql.sock" <==> (req.newData == [] || req.newData[|req.newData| - 1] == '/')
  {
    PathJoin(true, req.newData, "mysql.sock")
  }

  const ADMIN_HEAD: string := " --no-defaults -v -uroot "

  /** The mysqladmin command that sets the root password of the new instance. */
  function AdminPasswordCommand(mysqladminPath: string, req: CloneRequest): string {
    if req.isPosix then
      mysqladminPath + ADMIN_HEAD + "--socket=" + ClientSocket(req) + " password " + req.rootPass + " "
    else
      mysqladminPath + ADMIN_HEAD + "password " + req.rootPass + " --port=" + IntToDecimal(req.portNumber)
  }

  /**
   * On POSIX the command reaches the server through the socket, elsewhere
   * through the port, and the port printed is read back as int(new_port).
   */
  lemma AdminPasswordTransport(mysqladminPath: string, req: CloneRequest)
    ensures var cmd := AdminPasswordCommand(mysqladminPath, req);
      mysqladminPath + ADMIN_HEAD <= cmd &&
      (req.isPosix ==>
        cmd == mysqladminPath + ADMIN_HEAD + "--socket=" + ClientSocket(req) + " password " + req.rootPass + " ") &&
      (!req.isPosix ==>
        exists at :: 0 <= at <= |cmd| &&
          cmd[..at] == mysqladminPath + ADMIN_HEAD + "password " + req.rootPass + " --port=" &&
          ParseInt(cmd[at..]) == Some(req.portNumber))
  {
    var cmd := AdminPasswordCommand(mysqladminPath, req);
    if !req.isPosix {
      var head := mysqladminPath + ADMIN_HEAD + "password " + req.rootPass + " --port=";
      assert cmd == head + IntToDecimal(req.portNumber);
      assert cmd[..|head|] == head && cmd[|head|..] == IntToDecimal(req.portNumber);
      IntToDecimalRoundTrip(req.portNumber);
    }
  }

  // -------------------------------------------------- connection summary

  const SUMMARY_HEAD: string := "# Connection Information:\n" + "#  -uroot"

  /** The connection information printed at the end of a successful clone. */
  function ConnectionSummary(req: CloneRequest): string {
    SUMMARY_HEAD
      + (if req.rootPass != "" then " -p" + req.rootPass else "")
      + (if req.isPosix then " --socket=" + ClientSocket(req) else " --port=" + req.newPort)
  }

  /**
   * The summary names the password right after "-uroot" exactly when there
   * is one, and ends with the socket on POSIX and the port elsewhere.
   */
  lemma ConnectionSummaryShape(req: CloneRequest)
    ensures var text := ConnectionSummary(req);
      var rest := text[|SUMMARY_HEAD|..];
      SUMMARY_HEAD <= text &&
      (" -p" + req.rootPass <= rest <==> req.rootPass != "") &&
      (req.isPosix ==> IsSuffix(" --socket=" + ClientSocket(req), text)) &&
      (!req.isPosix ==> IsSuffix(" --port=" + req.newPort, text))
  {
    var text := ConnectionSummary(req);
    var rest := text[|SUMMARY_HEAD|..];
    if req.rootPass == "" {
      assert rest[..2] == " -";
      assert rest[2] == '-';
    }
  }

  /** The appends of the source that build the connection summary. */
  method BuildConnectionSummary(req: CloneRequest) returns (text: string)
    ensures text == ConnectionSummary(req)
  {
    text := "# Connection Information:\n";
    text := text + "#  -uroot";
    if req.rootPass != "" {
      text := text + (" -p" + req.rootPass);
    }
    if req.isPosix {
      text := text + (" --socket=" + PathJoin(true, req.newData, "mysql.sock"));
    } else {
      text := text + (" --port=" + req.newPort);
    }
  }
}
