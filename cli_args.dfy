/**
 * The command line: the hand-written scanner over `argv` that fills the
 * configuration (command, display unit `sum`, named parameters), the command
 * table, and the required-parameter check that precedes a call.
 *
 * Printing to the console and `process.exit` become returned values: an
 * `ExitStatus` carries the exit code and the error lines printed before it.
 */
module CliArgs {
  import opened Results

  /** Termination of the process with `code` after printing `messages`. */
  datatype ExitStatus = ExitStatus(code: int, messages: seq<string>)

  /**
   * The configuration the scanner fills. `command` is `None` while no
   * `--command` was read (the source's `null`); `params` maps each other
   * `--name` to its value.
   */
  datatype Config = Config(command: Option<string>, sum: string, params: map<string, string>)

  /** The configuration before any argument is read: no command, unit `B`. */
  const DefaultConfig: Config := Config(None, "B", map[])

  /** The client operation a command calls. */
  datatype Operation = ListBucketsCall | DownloadCall | ListObjectsCall | SearchByKeyCall

  /** The routine that receives the operation's result. */
  datatype Handler = PrintBuckets | SaveObject | PrintListing | PrintTotalSize

  /** An entry of the command table: what to call, with which parameters, and who prints. */
  datatype CommandSpec = CommandSpec(operation: Operation, handler: Handler, params: seq<string>)

  /** The command table: the five commands and their required parameters, in call order. */
  const Commands: map<string, CommandSpec> := map[
    "buckets" := CommandSpec(ListBucketsCall, PrintBuckets, []),
    "download" := CommandSpec(DownloadCall, SaveObject, ["path", "bucket"]),
    "list" := CommandSpec(ListObjectsCall, PrintListing, ["path", "bucket"]),
    "search" := CommandSpec(SearchByKeyCall, PrintListing, ["path", "bucket"]),
    "size" := CommandSpec(SearchByKeyCall, PrintTotalSize, ["path", "bucket"])
  ]

  const CommandMissing: string := "Please specify a command."
  const SumMissing: string := "Please specify a correct value for sum."
  const InvalidCommand: string := "Please specify a valid command."

  /** The error line for a flag `--name` with nothing after it. */
  function ValueMissing(param: string): string {
    "Please specify a value for " + param
  }

  /** The error line for a required parameter that was not given. */
  function MissingMessage(param: string): string {
    "Missing required parameter '" + param + "'"
  }

  // ---------------------------------------------------------------------------
  // Reading one token
  // ---------------------------------------------------------------------------

  /** Whether the character at index 1 is a dash (`substr(1, 1) === '-'`). */
  predicate SecondCharIsDash(s: string) {
    |s| >= 2 && s[1] == '-'
  }

  /** Whether a token starts with `--` (`substring(0, 2) === '--'`). */
  predicate IsFlag(s: string) {
    |s| >= 2 && s[0] == '-' && s[1] == '-'
  }

  /**
   * Read `argv[num]`: past the end, exit with `-1` after printing `err`;
   * otherwise the token when its second character being a dash agrees with
   * `checkPrefix`, and the empty string when it does not.
   */
  function GetArg(argv: seq<string>, num: nat, err: string, checkPrefix: bool): Result<string, ExitStatus> {
    if num < |argv| then
      Success(if SecondCharIsDash(argv[num]) == checkPrefix then argv[num] else "")
    else
      Failure(ExitStatus(-1, [err]))
  }

  /**
   * Reading a token fails exactly past the end of `argv`; a token read as a
   * flag is returned whole or not at all, and a token read as a value never
   * looks like a flag.
   */
  lemma GetArgSpec(argv: seq<string>, num: nat, err: string, checkPrefix: bool)
    ensures GetArg(argv, num, err, checkPrefix).Failure? <==> num >= |argv|
    ensures num >= |argv| ==> GetArg(argv, num, err, checkPrefix).error == ExitStatus(-1, [err])
    ensures num < |argv| && SecondCharIsDash(argv[num]) == checkPrefix ==>
              GetArg(argv, num, err, checkPrefix).value == argv[num]
    ensures num < |argv| && SecondCharIsDash(argv[num]) != checkPrefix ==>
              GetArg(argv, num, err, checkPrefix).value == ""
    ensures num < |argv| && !checkPrefix ==> !IsFlag(GetArg(argv, num, err, checkPrefix).value)
  {
  }

  /** What a flag's value token is read as: the empty string when it looks like an option. */
  function ValueOf(token: string): string {
    if SecondCharIsDash(token) then "" else token
  }

  /** The configuration after flag `flag` is given `value`. */
  function ApplyFlag(c: Config, flag: string, value: string): Config
    requires IsFlag(flag)
  {
    if flag == "--command" then c.(command := Some(value))
    else if flag == "--sum" then c.(sum := value)
    else c.(params := c.params[flag[2..] := value])
  }

  /** The error line for flag `flag` standing last. */
  function FlagValueMissing(flag: string): string
    requires IsFlag(flag)
  {
    if flag == "--command" then CommandMissing
    else if flag == "--sum" then SumMissing
    else ValueMissing(flag[2..])
  }

  // ---------------------------------------------------------------------------
  // Scanning argv
  // ---------------------------------------------------------------------------

  /**
   * The scan of `argv` from position `cntr` with configuration `c`: a flag
   * consumes the token after it as its value, every other token is skipped.
   * Every way it fails is an exit with `-1` and one message.
   */
  function Scan(argv: seq<string>, cntr: nat, c: Config): (r: Result<Config, ExitStatus>)
    ensures r.Failure? ==> r.error.code == -1 && |r.error.messages| == 1
    decreases |argv| - cntr
  {
    if cntr >= |argv| then Success(c)
    else
      var arg := GetArg(argv, cntr, "", true).value;
      if IsFlag(arg) then
        match GetArg(argv, cntr + 1, FlagValueMissing(arg), false)
        case Failure(e) => Failure(e)
        case Success(v) => Scan(argv, cntr + 2, ApplyFlag(c, arg, v))
      else
        Scan(argv, cntr + 1, c)
  }

  /**
   * The parsed configuration: the scan of all of `argv` from the defaults,
   * provided it names one of the five commands.
   */
  function ParseArgs(argv: seq<string>): (r: Result<Config, ExitStatus>)
    ensures r.Success? ==> r.value.command.Some? && r.value.command.value in Commands
    ensures r.Failure? ==> r.error.code == -1
    ensures Scan(argv, 0, DefaultConfig).Success? && r.Failure? ==> r.error == ExitStatus(-1, [InvalidCommand])
    ensures Scan(argv, 0, DefaultConfig).Success? &&
            Scan(argv, 0, DefaultConfig).value.command.Some? &&
            Scan(argv, 0, DefaultConfig).value.command.value in Commands
            ==> r == Scan(argv, 0, DefaultConfig)
    ensures Scan(argv, 0, DefaultConfig).Failure? ==> r == Scan(argv, 0, DefaultConfig)
  {
    match Scan(argv, 0, DefaultConfig)
    case Failure(e) => Failure(e)
    case Success(c) =>
      if c.command.Some? && c.command.value in Commands then Success(c)
      else Failure(ExitStatus(-1, [InvalidCommand]))
  }

  /** Scanning a tail of `a + b` is scanning the same tail of `b`. */
  lemma {:induction false} ScanShift(a: seq<string>, b: seq<string>, j: nat, c: Config)
    ensures Scan(a + b, |a| + j, c) == Scan(b, j, c)
    decreases |b| - j
  {
    if j < |b| {
      assert (a + b)[|a| + j] == b[j];
      if j + 1 < |b| {
        assert (a + b)[|a| + j + 1] == b[j + 1];
      }
      var arg := GetArg(b, j, "", true).value;
      if IsFlag(arg) {
        if j + 1 < |b| {
          ScanShift(a, b, j + 2, ApplyFlag(c, arg, GetArg(b, j + 1, FlagValueMissing(arg), false).value));
        }
      } else {
        ScanShift(a, b, j + 1, c);
      }
    }
  }

  /**
   * A scan of `a` that succeeds ends on a token boundary, so the scan of
   * `a + b` goes on with `b` from the configuration it reached.
   */
  lemma {:induction false} ScanSplit(a: seq<string>, b: seq<string>, i: nat, c: Config)
    requires i <= |a| && Scan(a, i, c).Success?
    ensures Scan(a + b, i, c) == Scan(b, 0, Scan(a, i, c).value)
    decreases |a| - i
  {
    if i == |a| {
      ScanShift(a, b, 0, c);
    } else {
      assert (a + b)[i] == a[i];
      var arg := GetArg(a, i, "", true).value;
      if IsFlag(arg) {
        assert (a + b)[i + 1] == a[i + 1];
        ScanSplit(a, b, i + 2, ApplyFlag(c, arg, GetArg(a, i + 1, FlagValueMissing(arg), false).value));
      } else {
        ScanSplit(a, b, i + 1, c);
      }
    }
  }

  /**
   * Flag parsing: a flag followed by a value sets `command`, `sum` or
   * `params[name]` to that value, overriding any earlier occurrence; a value
   * whose second character is a dash is read as the empty string and is
   * consumed all the same.
   */
  lemma AppendFlag(a: seq<string>, c0: Config, flag: string, value: string)
    requires Scan(a, 0, c0).Success? && IsFlag(flag)
    ensures Scan(a + [flag, value], 0, c0) == Success(ApplyFlag(Scan(a, 0, c0).value, flag, ValueOf(value)))
    ensures var c := Scan(a, 0, c0).value; var c' := Scan(a + [flag, value], 0, c0).value;
      (flag == "--command" ==> c' == c.(command := Some(ValueOf(value)))) &&
      (flag == "--sum" ==> c' == c.(sum := ValueOf(value))) &&
      (flag != "--command" && flag != "--sum" ==> c' == c.(params := c.params[flag[2..] := ValueOf(value)]))
  {
    ScanSplit(a, [flag, value], 0, c0);
    var c := Scan(a, 0, c0).value;
    assert GetArg([flag, value], 0, "", true).value == flag;
    var c' := ApplyFlag(c, flag, ValueOf(value));
    assert Scan([flag, value], 2, c') == Success(c');
  }

  /** Missing flag value: a flag in the last position exits with `-1`. */
  lemma AppendTrailingFlag(a: seq<string>, c0: Config, flag: string)
    requires Scan(a, 0, c0).Success? && IsFlag(flag)
    ensures Scan(a + [flag], 0, c0) == Failure(ExitStatus(-1, [FlagValueMissing(flag)]))
  {
    ScanSplit(a, [flag], 0, c0);
    assert GetArg([flag], 0, "", true).value == flag;
  }

  /** Ignored tokens: a token that does not start with `--` changes nothing. */
  lemma AppendIgnored(a: seq<string>, c0: Config, token: string)
    requires Scan(a, 0, c0).Success? && !IsFlag(token)
    ensures Scan(a + [token], 0, c0) == Scan(a, 0, c0)
  {
    ScanSplit(a, [token], 0, c0);
    var arg := GetArg([token], 0, "", true).value;
    assert arg == token || arg == "";
    assert !IsFlag(arg);
  }

  /** One step of the scan: a flag takes the next token as its value, any other token is skipped. */
  lemma ScanStep(argv: seq<string>, cntr: nat, c: Config)
    requires cntr < |argv|
    ensures var arg := GetArg(argv, cntr, "", true).value;
      (IsFlag(arg) && cntr + 1 == |argv| ==> Scan(argv, cntr, c) == Failure(ExitStatus(-1, [FlagValueMissing(arg)]))) &&
      (IsFlag(arg) && cntr + 1 < |argv| ==>
         Scan(argv, cntr, c) == Scan(argv, cntr + 2, ApplyFlag(c, arg, ValueOf(argv[cntr + 1])))) &&
      (!IsFlag(arg) ==> Scan(argv, cntr, c) == Scan(argv, cntr + 1, c))
  {
  }

  /**
   * Parse `argv` into the configuration, exiting with `-1` when a flag has
   * no value after it or when the final command is not one of the five.
   */
  method ProcessArgs(argv: seq<string>) returns (r: Result<Config, ExitStatus>)
    ensures r == ParseArgs(argv)
  {
    var config := DefaultConfig;
    var cntr := 0;
    while cntr < |argv|
      invariant cntr <= |argv|
      invariant Scan(argv, cntr, config) == Scan(argv, 0, DefaultConfig)
      decreases |argv| - cntr
    {
      ScanStep(argv, cntr, config);
      var arg := GetArg(argv, cntr, "", true).value;
      if arg == "--command" {
        cntr := cntr + 1;
        var value := GetArg(argv, cntr, CommandMissing, false);
        if value.Failure? {
          return Failure(value.error);
        }
        config := config.(command := Some(value.value));
      } else if arg == "--sum" {
        cntr := cntr + 1;
        var value := GetArg(argv, cntr, SumMissing, false);
        if value.Failure? {
          return Failure(value.error);
        }
        config := config.(sum := value.value);
      } else if IsFlag(arg) {
        cntr := cntr + 1;
        var param := arg[2..];
        var value := GetArg(argv, cntr, ValueMissing(param), false);
        if value.Failure? {
          return Failure(value.error);
        }
        config := config.(params := config.params[param := value.value]);
      }
      cntr := cntr + 1;
    }
    if !(config.command.Some? && config.command.value in Commands) {
      return Failure(ExitStatus(-1, [InvalidCommand]));
    }
    r := Success(config);
  }

  // ---------------------------------------------------------------------------
  // Required parameters
  // ---------------------------------------------------------------------------

  /** The required parameters that were not given, in declared order. */
  function MissingParams(required: seq<string>, given: map<string, string>): seq<string>
    decreases |required|
  {
    if required == [] then []
    else (if required[0] in given then [] else [required[0]]) + MissingParams(required[1..], given)
  }

  /** The values of the required parameters that were given, in declared order. */
  function ParamValues(required: seq<string>, given: map<string, string>): seq<string>
    decreases |required|
  {
    if required == [] then []
    else (if required[0] in given then [given[required[0]]] else []) + ParamValues(required[1..], given)
  }

  /** One error line per missing parameter, in order. */
  function MissingMessages(missing: seq<string>): (lines: seq<string>)
    ensures |lines| == |missing|
    ensures forall i :: 0 <= i < |missing| ==> lines[i] == MissingMessage(missing[i])
  {
    seq(|missing|, i requires 0 <= i < |missing| => MissingMessage(missing[i]))
  }

  /** Every missing name is reported, and only missing names are. */
  lemma {:induction false} MissingParamsExact(required: seq<string>, given: map<string, string>, p: string)
    ensures p in MissingParams(required, given) <==> p in required && p !in given
    decreases |required|
  {
    if required != [] {
      MissingParamsExact(required[1..], given, p);
      assert p in required <==> p == required[0] || p in required[1..];
    }
  }

  /** With every required parameter present, the call arguments are their values in declared order. */
  lemma {:induction false} ParamValuesInOrder(required: seq<string>, given: map<string, string>)
    requires forall p :: p in required ==> p in given
    ensures |ParamValues(required, given)| == |required|
    ensures forall i :: 0 <= i < |required| ==> ParamValues(required, given)[i] == given[required[i]]
    decreases |required|
  {
    if required != [] {
      assert forall p :: p in required[1..] ==> p in required;
      ParamValuesInOrder(required[1..], given);
    }
  }

  /** Walking one more required parameter extends both lists by what it contributes. */
  lemma {:induction false} ParamsAppend(required: seq<string>, p: string, given: map<string, string>)
    ensures MissingParams(required + [p], given) == MissingParams(required, given) + (if p in given then [] else [p])
    ensures ParamValues(required + [p], given) == ParamValues(required, given) + (if p in given then [given[p]] else [])
    decreases |required|
  {
    if required == [] {
      assert [p][1..] == [];
    } else {
      assert (required + [p])[1..] == required[1..] + [p];
      ParamsAppend(required[1..], p, given);
    }
  }

  /**
   * Required parameters: collect the value of each parameter the command
   * needs, and an error line for each one missing; the call may go ahead
   * exactly when no line was produced.
   */
  method CollectParams(required: seq<string>, given: map<string, string>)
    returns (values: seq<string>, errors: seq<string>)
    ensures values == ParamValues(required, given)
    ensures errors == MissingMessages(MissingParams(required, given))
    ensures errors == [] <==> forall p :: p in required ==> p in given
  {
    values := [];
    var missing: seq<string> := [];
    errors := [];
    for i := 0 to |required|
      invariant values == ParamValues(required[..i], given)
      invariant missing == MissingParams(required[..i], given)
      invariant errors == MissingMessages(missing)
    {
      var param := required[i];
      ParamsAppend(required[..i], param, given);
      assert required[..i + 1] == required[..i] + [param];
      if param in given {
        values := values + [given[param]];
      } else {
        missing := missing + [param];
        errors := errors + [MissingMessage(param)];
      }
    }
    assert required[..|required|] == required;
    if errors == [] {
      forall p | p in required ensures p in given {
        MissingParamsExact(required, given, p);
      }
    } else {
      var p := missing[0];
      MissingParamsExact(required, given, p);
    }
  }

  // ---------------------------------------------------------------------------
  // The top level
  // ---------------------------------------------------------------------------

  /** Where the command line leads: an exit, or a call of the command's operation. */
  datatype Outcome =
    | Exit(status: ExitStatus)
    | Invoke(config: Config, command: CommandSpec, args: seq<string>)

  /**
   * Parse `argv`, look up the command and check its required parameters.
   * A parse error exits as the parse said; missing parameters exit with
   * `-1` after one line each; otherwise the operation is called with the
   * parameters' values in declared order.
   */
  method RunCli(argv: seq<string>) returns (outcome: Outcome)
    ensures ParseArgs(argv).Failure? ==> outcome == Exit(ParseArgs(argv).error)
    ensures ParseArgs(argv).Success? ==>
              var config := ParseArgs(argv).value;
              var command := Commands[config.command.value];
              if forall p :: p in command.params ==> p in config.params
              then outcome.Invoke? && outcome.config == config && outcome.command == command &&
                   |outcome.args| == |command.params| &&
                   forall i :: 0 <= i < |command.params| ==> outcome.args[i] == config.params[command.params[i]]
              else outcome == Exit(ExitStatus(-1, MissingMessages(MissingParams(command.params, config.params))))
  {
    var parsed := ProcessArgs(argv);
    if parsed.Failure? {
      return Exit(parsed.error);
    }
    var config := parsed.value;
    var command := Commands[config.command.value];
    var values, errors := CollectParams(command.params, config.params);
    if errors == [] {
      ParamValuesInOrder(command.params, config.params);
      outcome := Invoke(config, command, values);
    } else {
      outcome := Exit(ExitStatus(-1, errors));
    }
  }
}
