/**
 * The whole `clone_server` procedure as a trace of steps. Everything the
 * procedure learns from the outside world (whether the source server
 * answers, whether directories can be removed and created, the basedir
 * rows, the tool paths and seed files, exit codes, the outcome of each
 * connection attempt) is an input, collected in an Environment. `Run`
 * gives the steps taken and the result for any texts (commands, script,
 * summary) the run hands out; `Clone` is `Run` with the texts CloneText
 * builds. `CloneServer` performs the steps one statement at a time and is
 * proved to agree with `Clone`. Most properties are stated about `Run`
 * for all texts, and so hold for `Clone` in particular.
 */
module CloneServer {
  import opened Wrappers
  import opened CloneText
  import opened Readiness

  /** A step of the procedure with an effect outside the model. */
  datatype Event =
    | ConnectSource                            // connect to the running server
    | RemoveDir(path: string)                  // shutil.rmtree, errors ignored
    | MakeDir(path: string)                    // os.mkdir
    | QueryBasedir                             // SHOW VARIABLES LIKE 'basedir'
    | LocateTools(basedir: string)             // get_tool_path lookups
    | WriteBootstrap(file: string, contents: string)
    | RunBootstrap(command: string)            // one-shot mysqld, waited for
    | DeleteBootstrap(file: string)
    | StartServer(command: string)             // long-running mysqld, not waited for
    | Probe(step: ProbeEvent)                  // sleep or connection attempt
    | SetPassword(command: string)             // mysqladmin, waited for

  datatype CloneError =
    | SourceUnreachable            // raised by the connection to the running server
    | CannotCreateDirectory(path: string)
    | UnknownBasedir
    | InstanceUnreachable

  const MKDIR_HEAD: string := "Unable to create directory '"

  /**
   * The message of the error the procedure raises, when it raises it
   * itself; a failed connection to the running server raises its own.
   */
  function Message(e: CloneError): (m: Option<string>)
    ensures m.None? <==> e.SourceUnreachable?
    ensures e.CannotCreateDirectory? ==>
      |m.value| == |MKDIR_HEAD| + |e.path| + 1 &&
      m.value[..|MKDIR_HEAD|] == MKDIR_HEAD && m.value[|MKDIR_HEAD|..|m.value| - 1] == e.path &&
      m.value[|m.value| - 1] == '\''
  {
    match e
    case SourceUnreachable => None
    case CannotCreateDirectory(path) => Some(MKDIR_HEAD + path + "'")
    case UnknownBasedir => Some("Unable to determine basedir of running server.")
    case InstanceUnreachable => Some("Unable to communicate with new instance.")
  }

  /** Distinct errors raise distinct messages: a message names its error. */
  lemma {:induction false} MessageIdentifiesError(e1: CloneError, e2: CloneError)
    requires Message(e1).Some? && Message(e1) == Message(e2)
    ensures e1 == e2
  {
    var m := Message(e1).value;
    if e1.CannotCreateDirectory? && e2.CannotCreateDirectory? {
      assert e1.path == m[|MKDIR_HEAD|..|m| - 1] == e2.path;
    }
  }

  /** What the outside world answers during one run. */
  datatype Environment = Environment(
    sourceConnects: bool,          // the running server accepts the connection
    dataDirExists: bool,           // new_data exists on entry
    removalLeavesDir: bool,        // rmtree (errors ignored) left new_data in place
    mkdirSucceeds: bool,
    basedirRows: seq<(string, string)>, // (Variable_name, Value) rows
    localShareExists: bool,        // basedir + "local/mysql/share/" exists
    mysqldPath: string,
    mysqladminPath: string,
    seeds: SeedScripts,
    bootstrapExit: int,            // exit status of the bootstrap run
    scriptPresentAfterRun: bool,   // bootstrap.sql is still a file after that run
    probes: seq<bool>,             // outcome of each connection attempt
    adminExit: int)                // exit status of mysqladmin

  datatype Outcome = Outcome(trace: seq<Event>, result: Result<string, CloneError>)

  /** After the optional removal, new_data is missing, so it is created. */
  predicate MakesDir(env: Environment) {
    !(env.dataDirExists && env.removalLeavesDir)
  }

  /** The run gets past directory preparation and the basedir query. */
  predicate Prepared(env: Environment) {
    env.sourceConnects && (!MakesDir(env) || env.mkdirSucceeds) && |env.basedirRows| > 0
  }

  /** The basedir handed to both mysqld runs. */
  function ChosenBasedir(env: Environment): string
    requires |env.basedirRows| > 0
  {
    MysqlBasedir(env.basedirRows[0].1, env.localShareExists)
  }

  /** The texts a run hands to the outside world. */
  datatype Texts = Texts(script: string, bootstrap: string, server: string, admin: string, summary: string)

  /**
   * The texts the procedure builds. The two mysqld command lines need the
   * basedir, known only once the basedir query has answered; a run that
   * stops before that never uses them.
   */
  function TextsOf(req: CloneRequest, env: Environment): Texts {
    var basedir := if |env.basedirRows| > 0 then ChosenBasedir(env) else "";
    Texts(BootstrapScript(env.seeds),
          BootstrapCommand(env.mysqldPath, req.newData, basedir),
          ServerCommand(env.mysqldPath, req, basedir),
          AdminPasswordCommand(env.mysqladminPath, req),
          ConnectionSummary(req))
  }

  function ProbeTrace(events: seq<ProbeEvent>): (trace: seq<Event>)
    ensures |trace| == |events|
    ensures forall i :: 0 <= i < |events| ==> trace[i] == Probe(events[i])
  {
    seq(|events|, i requires 0 <= i < |events| => Probe(events[i]))
  }

  /** Directory preparation: remove new_data if present, create it if missing. */
  function PrepareSteps(req: CloneRequest, env: Environment): seq<Event> {
    (if env.dataDirExists then [RemoveDir(req.newData)] else [])
      + (if MakesDir(env) then [MakeDir(req.newData)] else [])
  }

  /** From the tool lookup to the start of the server. */
  function LaunchSteps(env: Environment, x: Texts): seq<Event>
    requires |env.basedirRows| > 0
  {
    [ LocateTools(env.basedirRows[0].1),
      WriteBootstrap(BOOTSTRAP_FILE, x.script),
      RunBootstrap(x.bootstrap) ]
      + (if env.scriptPresentAfterRun then [DeleteBootstrap(BOOTSTRAP_FILE)] else [])
      + [StartServer(x.server)]
  }

  /** Every step up to and including the start of the new server. */
  function LaunchedPrefix(req: CloneRequest, env: Environment, x: Texts): seq<Event>
    requires |env.basedirRows| > 0
  {
    [ConnectSource] + PrepareSteps(req, env) + [QueryBasedir] + LaunchSteps(env, x)
  }

  /** The sleeps and connection attempts of the readiness probe. */
  function ProbingSteps(env: Environment): (t: seq<Event>)
    ensures |t| == 2 * AttemptsMade(env.probes)
    ensures forall i :: 0 <= i < |t| ==> t[i].Probe?
  {
    ProbeTrace(ProbeEvents(env.probes, AttemptsMade(env.probes)))
  }

  /** The root password is set after a successful probe, when one was given. */
  function PasswordSteps(req: CloneRequest, env: Environment, x: Texts): seq<Event> {
    if ReadinessOf(env.probes).Ready? && req.rootPass != "" then [SetPassword(x.admin)] else []
  }

  /** A run that ends before the tool lookup, with the first error met. */
  function EarlyStop(req: CloneRequest, env: Environment): Outcome
    requires !Prepared(env)
  {
    if !env.sourceConnects then Outcome([ConnectSource], Err(SourceUnreachable))
    else
      var prepared := [ConnectSource] + PrepareSteps(req, env);
      if MakesDir(env) && !env.mkdirSucceeds then
        Outcome(prepared, Err(CannotCreateDirectory(req.newData)))
      else
        Outcome(prepared + [QueryBasedir], Err(UnknownBasedir))
  }

  /** The steps and the result of a run that hands out the texts x. */
  function Run(req: CloneRequest, env: Environment, x: Texts): Outcome {
    if !Prepared(env) then EarlyStop(req, env)
    else
      Outcome(LaunchedPrefix(req, env, x) + ProbingSteps(env) + PasswordSteps(req, env, x),
              if ReadinessOf(env.probes).Ready? then Ok(x.summary) else Err(InstanceUnreachable))
  }

  /** The steps and the result of one run of clone_server. */
  function Clone(req: CloneRequest, env: Environment): Outcome {
    Run(req, env, TextsOf(req, env))
  }

  /**
   * From the tool lookup to the start of the server: choose the basedir,
   * write bootstrap.sql, run the bootstrap, drop the script and start mysqld.
   */
  method LaunchInstance(req: CloneRequest, env: Environment, basedir: string)
    returns (steps: seq<Event>)
    requires |env.basedirRows| > 0 && basedir == env.basedirRows[0].1
    ensures steps == LaunchSteps(env, TextsOf(req, env))
  {
    steps := [LocateTools(basedir)];
    var mysqlBasedir := basedir;
    if env.localShareExists {
      mysqlBasedir := mysqlBasedir + "local/mysql/";
    }
    var script := WriteBootstrapScript(env.seeds);
    steps := steps + [WriteBootstrap(BOOTSTRAP_FILE, script)];
    var cmd := BootstrapCommand(env.mysqldPath, req.newData, mysqlBasedir);
    // The exit status env.bootstrapExit is read and never looked at.
    steps := steps + [RunBootstrap(cmd)];
    if env.scriptPresentAfterRun {
      steps := steps + [DeleteBootstrap(BOOTSTRAP_FILE)];
    }
    assert mysqlBasedir == ChosenBasedir(env);
    cmd := BuildServerCommand(env.mysqldPath, req, mysqlBasedir);
    steps := steps + [StartServer(cmd)];
  }

  /** The procedure statement by statement, recording each outside step. */
  method CloneServer(req: CloneRequest, env: Environment)
    returns (trace: seq<Event>, result: Result<string, CloneError>)
    ensures Outcome(trace, result) == Clone(req, env)
  {
    trace := [ConnectSource];
    if !env.sourceConnects {
      return trace, Err(SourceUnreachable);
    }
    if env.dataDirExists {
      trace := trace + [RemoveDir(req.newData)];
    }
    var stillExists := env.dataDirExists && env.removalLeavesDir;
    if !stillExists {
      trace := trace + [MakeDir(req.newData)];
      if !env.mkdirSucceeds {
        return trace, Err(CannotCreateDirectory(req.newData));
      }
    }
    assert trace == [ConnectSource] + PrepareSteps(req, env);
    trace := trace + [QueryBasedir];
    var rows := env.basedirRows;
    var basedir := "";
    if |rows| > 0 {
      basedir := rows[0].1;
    } else {
      return trace, Err(UnknownBasedir);
    }
    var launch := LaunchInstance(req, env, basedir);
    trace := trace + launch;
    var readiness, probeEvents := WaitUntilReady(env.probes);
    trace := trace + ProbeTrace(probeEvents);
    if readiness == Unreachable {
      return trace, Err(InstanceUnreachable);
    }
    if req.rootPass != "" {
      var cmd := AdminPasswordCommand(env.mysqladminPath, req);
      // The exit status env.adminExit is read and never looked at.
      trace := trace + [SetPassword(cmd)];
    }
    var summary := BuildConnectionSummary(req);
    result := Ok(summary);
  }

  // ------------------------------------------------------------ properties

  /** The place of each kind of step in the procedure. */
  function Phase(e: Event): nat {
    match e
    case ConnectSource => 0
    case RemoveDir(_) => 1
    case MakeDir(_) => 2
    case QueryBasedir => 3
    case LocateTools(_) => 4
    case WriteBootstrap(_, _) => 5
    case RunBootstrap(_) => 6
    case DeleteBootstrap(_) => 7
    case StartServer(_) => 8
    case Probe(_) => 9
    case SetPassword(_) => 10
  }

  /**
   * Steps come in procedure order and each kind at most once, except the
   * sleeps and connection attempts of the readiness probe.
   */
  predicate InOrder(t: seq<Event>) {
    forall i, j :: 0 <= i < j < |t| ==> Phase(t[i]) < Phase(t[j]) || (t[i].Probe? && t[j].Probe?)
  }

  predicate PhasesWithin(t: seq<Event>, lo: nat, hi: nat) {
    forall i :: 0 <= i < |t| ==> lo <= Phase(t[i]) <= hi
  }

  lemma PhasesAppend(a: seq<Event>, b: seq<Event>, lo: nat, mid: nat, hi: nat)
    requires lo <= mid < hi
    requires PhasesWithin(a, lo, mid) && PhasesWithin(b, mid + 1, hi)
    ensures PhasesWithin(a + b, lo, hi)
  {
    forall i | 0 <= i < |a + b| ensures lo <= Phase((a + b)[i]) <= hi {
      if i >= |a| {
        assert (a + b)[i] == b[i - |a|];
      } else {
        assert (a + b)[i] == a[i];
      }
    }
  }

  lemma InOrderAppend(a: seq<Event>, b: seq<Event>, lo: nat, mid: nat, hi: nat)
    requires InOrder(a) && InOrder(b)
    requires lo <= mid < hi
    requires PhasesWithin(a, lo, mid) && PhasesWithin(b, mid + 1, hi)
    ensures InOrder(a + b) && PhasesWithin(a + b, lo, hi)
  {
    forall i, j | 0 <= i < j < |a + b|
      ensures Phase((a + b)[i]) < Phase((a + b)[j]) || ((a + b)[i].Probe? && (a + b)[j].Probe?)
    {
      if j < |a| {
      } else if i >= |a| {
        assert (a + b)[i] == b[i - |a|] && (a + b)[j] == b[j - |a|];
      } else {
        assert (a + b)[i] == a[i] && (a + b)[j] == b[j - |a|];
      }
    }
    PhasesAppend(a, b, lo, mid, hi);
  }

  /** In an ordered trace, a step of any kind but probing occurs only once. */
  lemma InOrderUnique(t: seq<Event>, i: nat, j: nat)
    requires InOrder(t) && i < |t| && j < |t|
    requires Phase(t[i]) == Phase(t[j]) != 9
    ensures i == j
  {
  }

  lemma LaunchedPrefixInOrder(req: CloneRequest, env: Environment, x: Texts)
    requires |env.basedirRows| > 0
    ensures InOrder(LaunchedPrefix(req, env, x)) && PhasesWithin(LaunchedPrefix(req, env, x), 0, 8)
  {
    var prep := PrepareSteps(req, env);
    assert InOrder(prep) && PhasesWithin(prep, 1, 2);
    var launch := LaunchSteps(env, x);
    assert InOrder(launch) && PhasesWithin(launch, 4, 8);
    InOrderAppend([ConnectSource], prep, 0, 0, 2);
    InOrderAppend([ConnectSource] + prep, [QueryBasedir], 0, 2, 3);
    InOrderAppend([ConnectSource] + prep + [QueryBasedir], launch, 0, 3, 8);
  }

  /** A run that stops early stays within the first four kinds of step. */
  lemma EarlyStopSteps(req: CloneRequest, env: Environment)
    requires !Prepared(env)
    ensures InOrder(EarlyStop(req, env).trace) && PhasesWithin(EarlyStop(req, env).trace, 0, 3)
    ensures |EarlyStop(req, env).trace| > 0
  {
    var prep := PrepareSteps(req, env);
    assert InOrder(prep) && PhasesWithin(prep, 1, 2);
    InOrderAppend([ConnectSource], prep, 0, 0, 2);
    InOrderAppend([ConnectSource] + prep, [QueryBasedir], 0, 2, 3);
  }

  /** The probe's steps are all of kind 9, the password step of kind 10. */
  lemma LateStepsInOrder(req: CloneRequest, env: Environment, x: Texts)
    ensures InOrder(ProbingSteps(env)) && PhasesWithin(ProbingSteps(env), 9, 9)
    ensures InOrder(PasswordSteps(req, env, x)) && PhasesWithin(PasswordSteps(req, env, x), 10, 10)
  {
  }

  /** A run that gets past the basedir query, as three parts. */
  lemma PreparedSteps(req: CloneRequest, env: Environment, x: Texts)
    requires Prepared(env)
    ensures Run(req, env, x).trace == LaunchedPrefix(req, env, x) + ProbingSteps(env) + PasswordSteps(req, env, x)
    ensures PhasesWithin(LaunchedPrefix(req, env, x), 0, 8)
  {
    LaunchedPrefixInOrder(req, env, x);
  }

  /** Every run takes its steps in procedure order (see InOrder). */
  lemma StepsInOrder(req: CloneRequest, env: Environment, x: Texts)
    ensures InOrder(Run(req, env, x).trace)
  {
    if !Prepared(env) {
      EarlyStopSteps(req, env);
    } else {
      var head := LaunchedPrefix(req, env, x);
      var probes := ProbingSteps(env);
      PreparedSteps(req, env, x);
      LaunchedPrefixInOrder(req, env, x);
      LateStepsInOrder(req, env, x);
      InOrderAppend(head, probes, 0, 8, 9);
      InOrderAppend(head + probes, PasswordSteps(req, env, x), 0, 9, 10);
    }
  }

  /** Which outside answer ends a run with which result. */
  lemma ResultCases(req: CloneRequest, env: Environment, x: Texts)
    ensures var r := Run(req, env, x).result;
      (r == Err(SourceUnreachable) <==> !env.sourceConnects) &&
      (r == Err(CannotCreateDirectory(req.newData)) <==>
        env.sourceConnects && MakesDir(env) && !env.mkdirSucceeds) &&
      (r == Err(UnknownBasedir) <==>
        env.sourceConnects && (!MakesDir(env) || env.mkdirSucceeds) && |env.basedirRows| == 0) &&
      (r == Err(InstanceUnreachable) <==>
        Prepared(env) && forall k :: 0 <= k < STOP ==> !Attempt(env.probes, k)) &&
      (r.Ok? <==> Prepared(env) && exists k :: 0 <= k < STOP && Attempt(env.probes, k)) &&
      (r.Ok? ==> r.value == x.summary)
  {
    UnreachableIff(env.probes);
  }

  /** The steps of a run after the basedir query. */
  function AfterQuery(req: CloneRequest, env: Environment, x: Texts): seq<Event> {
    if Prepared(env) then LaunchSteps(env, x) + ProbingSteps(env) + PasswordSteps(req, env, x) else []
  }

  /** A run that gets through directory preparation continues with the query. */
  lemma QueryFollowsPreparation(req: CloneRequest, env: Environment, x: Texts)
    requires env.sourceConnects && (!MakesDir(env) || env.mkdirSucceeds)
    ensures Run(req, env, x).trace ==
      [ConnectSource] + PrepareSteps(req, env) + [QueryBasedir] + AfterQuery(req, env, x)
  {
    var up := [ConnectSource] + PrepareSteps(req, env) + [QueryBasedir];
    if Prepared(env) {
      AppendAssoc(up, LaunchSteps(env, x), ProbingSteps(env), PasswordSteps(req, env, x));
    }
  }

  /** After the query come only tool lookup, bootstrap, server, probe and password steps. */
  lemma AfterQueryPhases(req: CloneRequest, env: Environment, x: Texts)
    ensures PhasesWithin(AfterQuery(req, env, x), 4, 10)
  {
    if Prepared(env) {
      var launch := LaunchSteps(env, x);
      assert PhasesWithin(launch, 4, 8);
      LateStepsInOrder(req, env, x);
      PhasesAppend(launch, ProbingSteps(env), 4, 8, 9);
      PhasesAppend(launch + ProbingSteps(env), PasswordSteps(req, env, x), 4, 9, 10);
    }
  }

  /** The steps before the query in a trace that holds the preparation, the query and later steps. */
  lemma PreparationBeforeQuery(req: CloneRequest, env: Environment, t: seq<Event>, after: seq<Event>, q: nat)
    requires t == [ConnectSource] + PrepareSteps(req, env) + [QueryBasedir] + after
    requires PhasesWithin(after, 4, 10)
    requires q < |t| && t[q] == QueryBasedir
    ensures (env.dataDirExists ==> t[1] == RemoveDir(req.newData) && 1 < q) &&
      (MakesDir(env) <==> MakeDir(req.newData) in t[..q])
  {
    var before := [ConnectSource] + PrepareSteps(req, env);
    assert t == before + ([QueryBasedir] + after);
    if q != |before| {
      assert false;
    }
    assert t[..q] == before;
  }

  /**
   * An existing new_data is removed first; new_data is created exactly
   * when it is missing after that; both happen before the basedir query.
   */
  lemma DataDirPreparedFirst(req: CloneRequest, env: Environment, x: Texts, q: nat)
    requires env.sourceConnects
    requires q < |Run(req, env, x).trace| && Run(req, env, x).trace[q] == QueryBasedir
    ensures var t := Run(req, env, x).trace;
      (env.dataDirExists ==> t[1] == RemoveDir(req.newData) && 1 < q) &&
      (MakesDir(env) <==> MakeDir(req.newData) in t[..q]) &&
      (MakesDir(env) ==> env.mkdirSucceeds)
  {
    if MakesDir(env) && !env.mkdirSucceeds {
      MkdirFailureStops(req, env, x);
      assert false;
    }
    QueryFollowsPreparation(req, env, x);
    AfterQueryPhases(req, env, x);
    PreparationBeforeQuery(req, env, Run(req, env, x).trace, AfterQuery(req, env, x), q);
  }

  /** A failed mkdir ends the run right there: no basedir query or later step. */
  lemma MkdirFailureStops(req: CloneRequest, env: Environment, x: Texts)
    requires Run(req, env, x).result == Err(CannotCreateDirectory(req.newData))
    ensures var t := Run(req, env, x).trace;
      |t| > 0 && t[|t| - 1] == MakeDir(req.newData) && PhasesWithin(t, 0, 2)
  {
    ResultCases(req, env, x);
  }

  /**
   * An empty basedir answer ends the run at the query: no tool lookup, no
   * bootstrap script, no mysqld is run.
   */
  lemma BasedirFailureStops(req: CloneRequest, env: Environment, x: Texts)
    requires Run(req, env, x).result == Err(UnknownBasedir)
    ensures var t := Run(req, env, x).trace;
      |t| > 0 && t[|t| - 1] == QueryBasedir && PhasesWithin(t, 0, 3)
  {
    ResultCases(req, env, x);
  }

  /**
   * In a run that gets past the basedir query, the steps from the tool
   * lookup to the server start sit at fixed places after the query.
   */
  lemma LaunchPositions(req: CloneRequest, env: Environment, x: Texts)
    requires Prepared(env)
    ensures var t := Run(req, env, x).trace;
      var n := |PrepareSteps(req, env)| + 2;
      var s := if env.scriptPresentAfterRun then n + 4 else n + 3;
      s < |t| && t[n - 1] == QueryBasedir &&
      t[n] == LocateTools(env.basedirRows[0].1) &&
      t[n + 1] == WriteBootstrap(BOOTSTRAP_FILE, x.script) &&
      t[n + 2] == RunBootstrap(x.bootstrap) &&
      (env.scriptPresentAfterRun ==> t[n + 3] == DeleteBootstrap(BOOTSTRAP_FILE)) &&
      t[s] == StartServer(x.server)
  {
    var head := LaunchedPrefix(req, env, x);
    var rest := ProbingSteps(env) + PasswordSteps(req, env, x);
    LaunchedPrefixPositions(req, env, x);
    AppendAssoc(head, [], ProbingSteps(env), PasswordSteps(req, env, x));
    PrefixIndex(head, rest);
  }

  /** The places of the launch steps within the steps up to the server start. */
  lemma LaunchedPrefixPositions(req: CloneRequest, env: Environment, x: Texts)
    requires |env.basedirRows| > 0
    ensures var h := LaunchedPrefix(req, env, x);
      var n := |PrepareSteps(req, env)| + 2;
      var s := if env.scriptPresentAfterRun then n + 4 else n + 3;
      |h| == s + 1 && h[n - 1] == QueryBasedir &&
      h[n] == LocateTools(env.basedirRows[0].1) &&
      h[n + 1] == WriteBootstrap(BOOTSTRAP_FILE, x.script) &&
      h[n + 2] == RunBootstrap(x.bootstrap) &&
      (env.scriptPresentAfterRun ==> h[n + 3] == DeleteBootstrap(BOOTSTRAP_FILE)) &&
      h[s] == StartServer(x.server)
  {
  }

  lemma AppendAssoc(a: seq<Event>, b: seq<Event>, c: seq<Event>, d: seq<Event>)
    ensures a + b + c + d == a + (b + c + d)
  {
  }

  lemma PrefixIndex(a: seq<Event>, b: seq<Event>)
    ensures forall k :: 0 <= k < |a| ==> (a + b)[k] == a[k]
  {
  }

  /** A run that takes a step of kind 4 or later got past the basedir query. */
  lemma LateStepMeansPrepared(req: CloneRequest, env: Environment, x: Texts, i: nat)
    requires i < |Run(req, env, x).trace| && Phase(Run(req, env, x).trace[i]) >= 4
    ensures Prepared(env)
  {
    if !Prepared(env) {
      EarlyStopSteps(req, env);
    }
  }

  /** Two steps of the same kind, other than probing, are the same step. */
  lemma SingleStepOfKind(req: CloneRequest, env: Environment, x: Texts, i: nat, j: nat)
    requires i < |Run(req, env, x).trace| && j < |Run(req, env, x).trace|
    requires Phase(Run(req, env, x).trace[i]) == Phase(Run(req, env, x).trace[j]) != 9
    ensures i == j
  {
    StepsInOrder(req, env, x);
    InOrderUnique(Run(req, env, x).trace, i, j);
  }

  /**
   * The bootstrap run is followed by the deletion of bootstrap.sql when the
   * file is still there, and then always by the start of the server.
   */
  lemma BootstrapThenStart(req: CloneRequest, env: Environment, x: Texts, i: nat)
    requires i < |Run(req, env, x).trace| && Run(req, env, x).trace[i].RunBootstrap?
    ensures var t := Run(req, env, x).trace;
      var next := if env.scriptPresentAfterRun then i + 2 else i + 1;
      next < |t| && t[next].StartServer? &&
      (env.scriptPresentAfterRun ==> t[i + 1] == DeleteBootstrap(BOOTSTRAP_FILE))
  {
    LateStepMeansPrepared(req, env, x, i);
    LaunchPositions(req, env, x);
    SingleStepOfKind(req, env, x, i, |PrepareSteps(req, env)| + 4);
  }

  /** The bootstrap run of a run carries the bootstrap command it was given. */
  lemma BootstrapCommandAt(req: CloneRequest, env: Environment, x: Texts, i: nat)
    requires i < |Run(req, env, x).trace| && Run(req, env, x).trace[i].RunBootstrap?
    ensures Prepared(env) && Run(req, env, x).trace[i] == RunBootstrap(x.bootstrap)
  {
    LateStepMeansPrepared(req, env, x, i);
    LaunchPositions(req, env, x);
    SingleStepOfKind(req, env, x, i, |PrepareSteps(req, env)| + 4);
  }

  /** The server start of a run carries the server command it was given. */
  lemma ServerCommandAt(req: CloneRequest, env: Environment, x: Texts, j: nat)
    requires j < |Run(req, env, x).trace| && Run(req, env, x).trace[j].StartServer?
    ensures Prepared(env) && Run(req, env, x).trace[j] == StartServer(x.server)
  {
    LateStepMeansPrepared(req, env, x, j);
    LaunchPositions(req, env, x);
    var n := |PrepareSteps(req, env)| + 2;
    SingleStepOfKind(req, env, x, j, if env.scriptPresentAfterRun then n + 4 else n + 3);
  }

  /**
   * The bootstrap run and the server start of a run name the same basedir:
   * the one the basedir query reported, with local/mysql/ added when that
   * installation's share directory exists.
   */
  lemma SameBasedir(req: CloneRequest, env: Environment, i: nat, j: nat)
    requires i < |Clone(req, env).trace| && Clone(req, env).trace[i].RunBootstrap?
    requires j < |Clone(req, env).trace| && Clone(req, env).trace[j].StartServer?
    ensures Prepared(env)
    ensures var b := ChosenBasedir(env);
      BasedirOption(Clone(req, env).trace[i].command, BootstrapBasedirAt(env.mysqldPath, req.newData), b) &&
      BasedirOption(Clone(req, env).trace[j].command, ServerFlagAt(env.mysqldPath, req, b, 5), b)
  {
    BootstrapCommandAt(req, env, TextsOf(req, env), i);
    ServerCommandAt(req, env, TextsOf(req, env), j);
    BasedirInBothCommands(env.mysqldPath, req, ChosenBasedir(env));
  }

  /** A successful probe ends with the connection attempt that succeeded. */
  lemma ProbingEndsWithConnect(env: Environment)
    requires ReadinessOf(env.probes).Ready?
    ensures var p := ProbingSteps(env); |p| >= 2 && p[|p| - 1] == Probe(Connect(true))
  {
    var n := AttemptsMade(env.probes);
    AttemptsStopAtFirstConnect(env.probes);
    ProbeEventsAt(env.probes, n, n - 1);
  }

  /**
   * Steps of kinds up to 9 followed by at most one password step: the
   * password step can only be the last one, right after the other steps.
   */
  lemma PasswordStepAtEnd(body: seq<Event>, tail: seq<Event>)
    requires PhasesWithin(body, 0, 9) && PhasesWithin(tail, 10, 10) && |tail| <= 1
    ensures var t := body + tail;
      (forall i :: 0 <= i < |t| - 1 ==> !t[i].SetPassword?) &&
      ((|t| > 0 && t[|t| - 1].SetPassword?) <==> |tail| == 1) &&
      (|tail| == 1 ==> t[|t| - 1] == tail[0]) &&
      (|tail| == 1 && |body| > 0 ==> t[|t| - 2] == body[|body| - 1])
  {
    var t := body + tail;
    forall i | 0 <= i < |body| ensures !t[i].SetPassword? {
      assert t[i] == body[i];
    }
    if |tail| == 0 {
      assert t == body;
    }
  }

  /**
   * The root password is set only at the very end, only after the probe
   * connected, and exactly when a password was asked for.
   */
  lemma PasswordLast(req: CloneRequest, env: Environment, x: Texts)
    ensures var t := Run(req, env, x).trace;
      var r := Run(req, env, x).result;
      (forall i :: 0 <= i < |t| - 1 ==> !t[i].SetPassword?) &&
      ((|t| > 0 && t[|t| - 1].SetPassword?) <==> r.Ok? && req.rootPass != "") &&
      (r.Ok? && req.rootPass != "" ==>
        t[|t| - 1] == SetPassword(x.admin) &&
        t[|t| - 2] == Probe(Connect(true)))
  {
    if !Prepared(env) {
      EarlyStopSteps(req, env);
    } else {
      var head := LaunchedPrefix(req, env, x);
      var probes := ProbingSteps(env);
      var tail := PasswordSteps(req, env, x);
      PreparedSteps(req, env, x);
      LateStepsInOrder(req, env, x);
      PhasesAppend(head, probes, 0, 8, 9);
      PasswordStepAtEnd(head + probes, tail);
      if ReadinessOf(env.probes).Ready? {
        ProbingEndsWithConnect(env);
        assert (head + probes)[|head + probes| - 1] == probes[|probes| - 1];
      }
    }
  }

  /** How many connection attempts a trace holds. */
  function CountConnects(t: seq<Event>): nat
    decreases |t|
  {
    if t == [] then 0
    else CountConnects(t[..|t| - 1]) + (if t[|t| - 1].Probe? && t[|t| - 1].step.Connect? then 1 else 0)
  }

  lemma {:induction false} CountConnectsAppend(a: seq<Event>, b: seq<Event>)
    ensures CountConnects(a + b) == CountConnects(a) + CountConnects(b)
    decreases |b|
  {
    if b == [] {
      assert a + b == a;
    } else {
      assert (a + b)[..|a + b| - 1] == a + b[..|b| - 1];
      CountConnectsAppend(a, b[..|b| - 1]);
    }
  }

  lemma {:induction false} CountProbeConnects(probes: seq<bool>, n: nat)
    ensures CountConnects(ProbeTrace(ProbeEvents(probes, n))) == n
    decreases n
  {
    if n > 0 {
      var before := ProbeTrace(ProbeEvents(probes, n - 1));
      var step := [Probe(Sleep), Probe(Connect(Attempt(probes, n - 1)))];
      assert ProbeTrace(ProbeEvents(probes, n)) == before + step;
      CountProbeConnects(probes, n - 1);
      CountConnectsAppend(before, step);
      assert step[..1] == [Probe(Sleep)];
      assert [Probe(Sleep)][..0] == [];
      assert CountConnects([Probe(Sleep)]) == 0;
    }
  }

  lemma {:induction false} NoConnectsOutsideProbing(t: seq<Event>)
    requires forall i :: 0 <= i < |t| ==> !t[i].Probe?
    ensures CountConnects(t) == 0
    decreases |t|
  {
    if t != [] {
      NoConnectsOutsideProbing(t[..|t| - 1]);
    }
  }

  /**
   * A run that starts the server makes as many connection attempts as the
   * probe does, never more than STOP, and exactly STOP when it gives up; a
   * run that stops earlier makes none.
   */
  lemma ConnectionAttempts(req: CloneRequest, env: Environment, x: Texts)
    ensures var count := CountConnects(Run(req, env, x).trace);
      count == (if Prepared(env) then AttemptsMade(env.probes) else 0) && count <= STOP &&
      (Run(req, env, x).result == Err(InstanceUnreachable) ==> count == STOP)
  {
    var t := Run(req, env, x).trace;
    AttemptsStopAtFirstConnect(env.probes);
    if Prepared(env) {
      var head := LaunchedPrefix(req, env, x);
      var probes := ProbingSteps(env);
      var tail := PasswordSteps(req, env, x);
      LaunchedPrefixInOrder(req, env, x);
      NoConnectsOutsideProbing(head);
      NoConnectsOutsideProbing(tail);
      CountProbeConnects(env.probes, AttemptsMade(env.probes));
      CountConnectsAppend(head, probes);
      CountConnectsAppend(head + probes, tail);
    } else {
      EarlyStopSteps(req, env);
      NoConnectsOutsideProbing(t);
    }
  }

  /** Every connection attempt of a run comes right after a one-second sleep. */
  lemma SleepBeforeEachAttempt(req: CloneRequest, env: Environment, x: Texts, i: nat)
    requires i < |Run(req, env, x).trace|
    requires Run(req, env, x).trace[i].Probe? && Run(req, env, x).trace[i].step.Connect?
    ensures i >= 1 && Run(req, env, x).trace[i - 1] == Probe(Sleep)
  {
    LateStepMeansPrepared(req, env, x, i);
    var t := Run(req, env, x).trace;
    var head := LaunchedPrefix(req, env, x);
    var n := AttemptsMade(env.probes);
    var events := ProbeEvents(env.probes, n);
    var probes := ProbingSteps(env);
    PreparedSteps(req, env, x);
    if i < |head| || i >= |head| + |probes| {
      assert false;
    }
    var m := i - |head|;
    assert t[i] == probes[m] == Probe(events[m]);
    SleepBeforeConnect(env.probes, n, m);
    assert t[i - 1] == probes[m - 1];
  }

  /** Neither exit status the procedure waits for changes anything it does. */
  lemma ExitStatusIgnored(req: CloneRequest, env: Environment, bootstrapExit: int, adminExit: int)
    ensures Clone(req, env.(bootstrapExit := bootstrapExit, adminExit := adminExit)) == Clone(req, env)
  {
  }
}
