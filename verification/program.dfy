/**
 * Main of Program.cs: the command-line callback OnExecute, which runs
 * Invoke only when the assembly, class and method options all have values,
 * and the process around it, whose `static void Main` discards the code
 * the callback returns.
 */
module Program {
  import opened Wrappers
  import opened Logging
  import opened Options
  import opened Invocation

  /** What the command-line parser found for -a, -c, -m and -d: None when the option has no value. */
  datatype OptionValues = OptionValues(
    assembly: Option<string>,
    className: Option<string>,
    methodName: Option<string>,
    data: Option<string>)

  /** How a run ends: a returned exit code, or an exception that escapes to the runtime. */
  datatype Exit = Returned(code: int) | Crashed(fault: Fault)

  /** How a run ends, and the lines it wrote to the console. */
  datatype Execution = Execution(exit: Exit, output: seq<Message>)

  /** HasValue() for each of the three required options. -d is not among them. */
  predicate RequiredPresent(values: OptionValues)
  {
    values.assembly.Some? && values.className.Some? && values.methodName.Some?
  }

  /** The CliOptions built from the option values: each field is its option's value, and an absent -d stays null. */
  function ToCliOptions(values: OptionValues): (options: CliOptions)
    requires RequiredPresent(values)
    ensures Some(options.assemblyName) == values.assembly
    ensures Some(options.fullyQualifiedClassName) == values.className
    ensures Some(options.methodName) == values.methodName
    ensures options.data == values.data
  {
    CliOptions(values.assembly.value, values.className.value, values.methodName.value, values.data)
  }

  /**
   * The OnExecute callback. With all three required options it invokes and
   * returns 0 when Invoke returns; any exception Invoke throws escapes.
   * Otherwise it forces out "Required input was not supplied" and returns 1.
   */
  function OnExecute(values: OptionValues, logEnabled: bool, rt: Runtime): (r: Execution)
    ensures r.exit == Returned(1) <==> !RequiredPresent(values)
    ensures r.exit == Returned(0) <==> RequiredPresent(values) && AllStagesPass(ToCliOptions(values), rt)
    ensures r.exit.Returned? ==> r.exit.code in {0, 1}
    ensures !RequiredPresent(values) ==> r.output == [RequiredInputMissing]
  {
    if RequiredPresent(values) then
      var run := Invoke(ToCliOptions(values), rt);
      var exit := match run.completion
        case Normal => Returned(0)
        case Abrupt(f) => Crashed(f);
      Execution(exit, Emit(logEnabled, run.messages))
    else
      Execution(Returned(1), Log(logEnabled, RequiredInputMissing, true))
  }

  /**
   * The process as written: the static constructor sets the log flag from
   * DOTNET_CALL_LOG, Main runs the parser, which calls OnExecute, and
   * discards the code it returns, so the process exits with 0 unless an
   * exception escapes.
   */
  function RunProgram(values: OptionValues, env: Option<string>, rt: Runtime): (r: Execution)
    ensures r.exit.Returned? ==> r.exit.code == 0
    ensures r.exit.Returned? <==> OnExecute(values, InitialLogFlag(env), rt).exit.Returned?
    ensures r.exit.Crashed? ==> r.exit == OnExecute(values, InitialLogFlag(env), rt).exit
    ensures r.output == OnExecute(values, InitialLogFlag(env), rt).output
  {
    var e := OnExecute(values, InitialLogFlag(env), rt);
    match e.exit
    case Returned(_) => Execution(Returned(0), e.output)
    case Crashed(_) => e
  }

  /** The process with `static int Main` returning the parser's result: the exit code tells a run from a refusal. */
  function RunProgramWithExitCode(values: OptionValues, env: Option<string>, rt: Runtime): (r: Execution)
    ensures r.exit == Returned(1) <==> !RequiredPresent(values)
    ensures r.exit == Returned(0) <==> RequiredPresent(values) && AllStagesPass(ToCliOptions(values), rt)
  {
    OnExecute(values, InitialLogFlag(env), rt)
  }

  /**
   * Whenever a required option is missing, OnExecute returns 1 but the
   * process as written still exits with 0; with the code passed on it
   * exits with 1. No options at all is one such input.
   */
  lemma MissingInputExitsZero(values: OptionValues, env: Option<string>, rt: Runtime)
    requires !RequiredPresent(values)
    ensures OnExecute(values, InitialLogFlag(env), rt).exit == Returned(1)
    ensures RunProgram(values, env, rt).exit == Returned(0)
    ensures RunProgramWithExitCode(values, env, rt).exit == Returned(1)
  {
  }

  /**
   * The console output of a run: with logging off, nothing but the forced
   * "Required input was not supplied"; with logging on, every message
   * Invoke handed to Log, in order.
   */
  lemma RunOutput(values: OptionValues, env: Option<string>, rt: Runtime)
    ensures !RequiredPresent(values) ==> RunProgram(values, env, rt).output == [RequiredInputMissing]
    ensures RequiredPresent(values) && !InitialLogFlag(env) ==> RunProgram(values, env, rt).output == []
    ensures RequiredPresent(values) && InitialLogFlag(env) ==>
      RunProgram(values, env, rt).output == Invoke(ToCliOptions(values), rt).messages
  {
  }

  /** The -d option is not required: without it Invoke still runs, and fails only at deserialisation. */
  lemma DataOptionNotRequired(values: OptionValues, env: Option<string>, rt: Runtime)
    requires RequiredPresent(values) && values.data.None?
    ensures OnExecute(values, InitialLogFlag(env), rt).exit != Returned(1)
    ensures Invoke(ToCliOptions(values), rt).completion != Normal
  {
  }
}
