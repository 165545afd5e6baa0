/** The command line of carto_report/cli.py: the log-level mapping, the
    argument defaults and the decision `main` takes between running a
    report and exiting with status 1.

    The environment variables are a map, the flags given on the command
    line are options, and `report()` is the result it returns or the
    exception it raises. Logging output and the file write are recorded in
    the outcome rather than performed. */
module Cli {
  import opened Wrappers

  // ------------------------------------------------------------ levels

  /** The numeric levels of Python's `logging` module. */
  const DEBUG := 10
  const INFO := 20
  const WARNING := 30
  const ERROR := 40

  /** `get_log_level`: the three named levels map to themselves and every
      other string, 'ERROR' included, to ERROR. */
  function GetLogLevel(loglevel: string): (level: int)
    ensures level == DEBUG <==> loglevel == "DEBUG"
    ensures level == INFO <==> loglevel == "INFO"
    ensures level == WARNING <==> loglevel == "WARNING"
    ensures level == ERROR <==> loglevel !in {"DEBUG", "INFO", "WARNING"}
  {
    if loglevel == "DEBUG" then DEBUG
    else if loglevel == "INFO" then INFO
    else if loglevel == "WARNING" then WARNING
    else ERROR
  }

  /** The values `--loglevel` accepts. */
  const LogLevelChoices: seq<string> := ["DEBUG", "INFO", "WARNING", "ERROR"]

  /** Each accepted value selects its own level: the mapping is one to one
      on the choices, and the default choice is the most silent level. */
  lemma {:induction false} ChoicesSelectDistinctLevels()
    ensures forall i, j :: 0 <= i < j < |LogLevelChoices| ==>
      GetLogLevel(LogLevelChoices[i]) != GetLogLevel(LogLevelChoices[j])
    ensures forall i :: 0 <= i < |LogLevelChoices| ==> GetLogLevel(LogLevelChoices[i]) <= GetLogLevel(DefaultLogLevel)
  {
    assert GetLogLevel(LogLevelChoices[0]) == DEBUG;
    assert GetLogLevel(LogLevelChoices[1]) == INFO;
    assert GetLogLevel(LogLevelChoices[2]) == WARNING;
    assert GetLogLevel(LogLevelChoices[3]) == ERROR;
  }

  // --------------------------------------------------------- arguments

  const DefaultOutput: string := "report.html"
  const DefaultQuota: int := 5000
  const DefaultLogLevel: string := "ERROR"

  /** The flags given on the command line, absent when not given. */
  datatype Flags = Flags(
    user: Option<string>, apiKey: Option<string>, apiUrl: Option<string>, org: Option<string>,
    output: Option<string>, quota: Option<int>, loglevel: Option<string>)

  /** The parsed arguments. A credential is `None` when neither the flag
      nor its environment variable is set. */
  datatype Args = Args(
    user: Option<string>, apiKey: Option<string>, apiUrl: Option<string>, org: Option<string>,
    output: string, quota: int, loglevel: string)

  /** `os.getenv(name)`. */
  function GetEnv(env: map<string, string>, name: string): (r: Option<string>)
    ensures r.Some? <==> name in env
    ensures r.Some? ==> r.value == env[name]
  {
    if name in env then Some(env[name]) else None
  }

  /** A flag when given, its default otherwise. */
  function OrElse<T>(given: Option<T>, default: T): (r: T)
    ensures given.Some? ==> r == given.value
    ensures given.None? ==> r == default
  {
    match given
    case Some(v) => v
    case None => default
  }

  /** `parse_arguments`: each credential defaults to its environment
      variable, the output to 'report.html', the quota to 5000 and the log
      level to 'ERROR'; argparse refuses a log level outside the four
      choices (None). */
  function ParseArguments(env: map<string, string>, flags: Flags): (r: Option<Args>)
    ensures r.None? <==> flags.loglevel.Some? && flags.loglevel.value !in LogLevelChoices
    ensures r.Some? ==> r.value.loglevel in LogLevelChoices
    ensures r.Some? ==>
      && r.value.user == (if flags.user.Some? then flags.user else GetEnv(env, "CARTO_USER"))
      && r.value.apiKey == (if flags.apiKey.Some? then flags.apiKey else GetEnv(env, "CARTO_API_KEY"))
      && r.value.apiUrl == (if flags.apiUrl.Some? then flags.apiUrl else GetEnv(env, "CARTO_API_URL"))
      && r.value.org == (if flags.org.Some? then flags.org else GetEnv(env, "CARTO_ORG"))
    ensures r.Some? ==>
      && (flags.output.None? ==> r.value.output == DefaultOutput)
      && (flags.quota.None? ==> r.value.quota == DefaultQuota)
      && (flags.loglevel.None? ==> r.value.loglevel == DefaultLogLevel)
    ensures r.Some? ==>
      && (flags.output.Some? ==> r.value.output == flags.output.value)
      && (flags.quota.Some? ==> r.value.quota == flags.quota.value)
      && (flags.loglevel.Some? ==> r.value.loglevel == flags.loglevel.value)
  {
    var loglevel := OrElse(flags.loglevel, DefaultLogLevel);
    if loglevel !in LogLevelChoices then None
    else
      Some(Args(
        if flags.user.Some? then flags.user else GetEnv(env, "CARTO_USER"),
        if flags.apiKey.Some? then flags.apiKey else GetEnv(env, "CARTO_API_KEY"),
        if flags.apiUrl.Some? then flags.apiUrl else GetEnv(env, "CARTO_API_URL"),
        if flags.org.Some? then flags.org else GetEnv(env, "CARTO_ORG"),
        OrElse(flags.output, DefaultOutput),
        OrElse(flags.quota, DefaultQuota),
        loglevel))
  }

  // -------------------------------------------------------------- main

  /** Python truthiness of an optional string: neither None nor empty. */
  predicate Truthy(s: Option<string>) {
    s.Some? && s.value != ""
  }

  /** The gate of `main`: user name, API URL and API key, but not the
      organization. */
  predicate CredentialsGiven(args: Args) {
    Truthy(args.user) && Truthy(args.apiUrl) && Truthy(args.apiKey)
  }

  /** What a run of `main` does. `written` is the file and its contents
      when the report is stored, `errors` the messages logged at ERROR. */
  datatype Outcome = Outcome(
    logLevel: int,
    reporterBuilt: bool,
    written: Option<(string, string)>,
    errors: seq<string>,
    exitStatus: int)

  const CredentialsMessage: string :=
    "You need to provide valid credentials, run with -h parameter for details"

  /** `main` once the arguments are parsed: with credentials it builds a
      `Reporter`, runs `report()` and writes its result to the output file;
      an exception from the report is logged and `main` returns normally.
      Without credentials it logs an error and exits with status 1. The
      exception's message is `message`. */
  function Decide(args: Args, report: Result<string>, message: string): (o: Outcome)
    ensures o.logLevel == GetLogLevel(args.loglevel)
    ensures o.reporterBuilt <==> CredentialsGiven(args)
    ensures o.exitStatus == 1 <==> !CredentialsGiven(args)
    ensures o.exitStatus == 0 <==> CredentialsGiven(args)
    ensures o.written.Some? <==> CredentialsGiven(args) && report.Ok?
    ensures o.written.Some? ==> o.written.value == (args.output, report.value)
    ensures !CredentialsGiven(args) ==> o.errors == [CredentialsMessage]
    ensures CredentialsGiven(args) && report.Err? ==> o.errors == [message]
    ensures CredentialsGiven(args) && report.Ok? ==> o.errors == []
  {
    var level := GetLogLevel(args.loglevel);
    if CredentialsGiven(args) then
      match report
      case Ok(html) => Outcome(level, true, Some((args.output, html)), [], 0)
      case Err(_) => Outcome(level, true, None, [message], 0)
    else
      Outcome(level, false, None, [CredentialsMessage], 1)
  }

  /** `main` from the command line: a refused command line ends the run
      before any logging is set up. */
  function RunCli(env: map<string, string>, flags: Flags, report: Result<string>, message: string): (o: Option<Outcome>)
    ensures o.None? <==> ParseArguments(env, flags).None?
    ensures o.Some? ==> o.value == Decide(ParseArguments(env, flags).value, report, message)
  {
    match ParseArguments(env, flags)
    case None => None
    case Some(args) => Some(Decide(args, report, message))
  }

  /** A log level and an output path given on the command line are the
      ones the run uses: the level is set from the flag, and a finished
      report is written to the given path. */
  lemma GivenFlagsReachRun(env: map<string, string>, flags: Flags, report: Result<string>, message: string)
    requires flags.loglevel.Some? && flags.loglevel.value in LogLevelChoices
    requires flags.output.Some?
    ensures RunCli(env, flags, report, message).Some?
    ensures RunCli(env, flags, report, message).value.logLevel == GetLogLevel(flags.loglevel.value)
    ensures RunCli(env, flags, report, message).value.written.Some? ==>
      RunCli(env, flags, report, message).value.written.value.0 == flags.output.value
  {
  }

  /** The organization plays no part in the decision: changing it changes
      neither whether a report is attempted nor the exit status. */
  lemma OrganizationNotRequired(args: Args, org: Option<string>, report: Result<string>, message: string)
    ensures Decide(args.(org := org), report, message) == Decide(args, report, message)
  {
  }

  /** An empty string counts as missing, whether it comes from a flag or
      from the environment. */
  lemma EmptyUserExits(env: map<string, string>, flags: Flags, report: Result<string>, message: string)
    requires ParseArguments(env, flags).Some?
    requires flags.user == Some("") || (flags.user.None? && "CARTO_USER" in env && env["CARTO_USER"] == "")
    ensures RunCli(env, flags, report, message).value.exitStatus == 1
    ensures RunCli(env, flags, report, message).value.written.None?
  {
  }

  /** With no flags and no environment the tool exits with status 1 at the
      default, ERROR, log level. */
  lemma NoCredentialsByDefault(report: Result<string>, message: string)
    ensures RunCli(map[], Flags(None, None, None, None, None, None, None), report, message)
      == Some(Outcome(ERROR, false, None, [CredentialsMessage], 1))
  {
  }
}
