/**
 * Invoke of Program.cs: find the assembly, load it, create an instance of
 * the named class, look up the named method, check its arity, deserialise
 * the JSON data to its one parameter and call it.
 *
 * The runtime facilities Invoke drives (assembly loading, reflection, the
 * JSON library, the called method itself) are not visible here; what each
 * of them does on this run is an input, `Runtime`. The first failing stage
 * throws, and the exception leaves Invoke; `Fault` names which one.
 */
module Invocation {
  import opened Wrappers
  import opened Logging
  import opened Locator
  import opened Options

  /** What Type.GetMethod(name) gives: null, an AmbiguousMatchException for overloads, or one method with its parameter count. */
  datatype MethodLookup = NoSuchMethod | Overloaded | Unique(parameters: nat)

  /** The outcomes of the collaborators on one run, and the current directory's tree. */
  datatype Runtime = Runtime(
    cwd: Dir,               // Directory.GetCurrentDirectory()
    loads: bool,            // LoadFromAssemblyPath succeeds on the file found
    typeDefined: bool,      // Assembly.GetType(class) is not null
    constructible: bool,    // Activator.CreateInstance succeeds on that type
    lookup: MethodLookup,   // GetMethod(methodName)
    payloadBinds: bool,     // JObject.Parse(data).ToObject(parameter type) succeeds
    callSucceeds: bool)     // MethodInfo.Invoke does not throw

  /** The exception that ends a run, by the stage that throws it. */
  datatype Fault =
    | AssemblyNotFound     // FindFile: "Could not find the assembly"
    | LoadFailed           // LoadFromAssemblyPath
    | TypeNotFound         // Activator.CreateInstance(null)
    | ConstructionFailed   // Activator.CreateInstance(type)
    | MethodNotFound       // GetParameters() on a null method
    | AmbiguousMethod      // GetMethod on an overloaded name
    | MultipleParameters   // "does not currently support invocations with multiple parameters"
    | NoParameter          // parameters[0] on an empty array
    | MissingData          // JObject.Parse(null)
    | MalformedPayload     // JObject.Parse / ToObject on the data
    | CallFailed           // the invoked method throws

  datatype Completion = Normal | Abrupt(fault: Fault)

  /** A run of Invoke: how it ended and the messages it handed to Log, in order. */
  datatype Run = Run(completion: Completion, messages: seq<Message>)

  /** The arity check: more than one parameter throws, none fails at parameters[0], exactly one goes on. */
  function ArityFault(parameters: nat): (r: Option<Fault>)
  {
    if parameters > 1 then Some(MultipleParameters)
    else if parameters == 0 then Some(NoParameter)
    else None
  }

  /** Everything Invoke needs succeeds: the assembly is found, and each later stage passes. */
  predicate AllStagesPass(options: CliOptions, rt: Runtime)
  {
    && FindFile(rt.cwd, options.assemblyName).Some?
    && rt.loads && rt.typeDefined && rt.constructible
    && rt.lookup == Unique(1)
    && options.data.Some? && rt.payloadBinds && rt.callSucceeds
  }

  function Invoke(options: CliOptions, rt: Runtime): (r: Run)
    ensures r.completion == Normal <==> AllStagesPass(options, rt)
    ensures FindFileMessages(rt.cwd, options.assemblyName, []) <= r.messages
  {
    var search := FindFileMessages(rt.cwd, options.assemblyName, []);
    match FindFile(rt.cwd, options.assemblyName)
    case None => Run(Abrupt(AssemblyNotFound), search)
    case Some(path) =>
      var loading := search + [LoadingAssembly(path.route, path.entry)];
      if !rt.loads then Run(Abrupt(LoadFailed), loading)
      else if !rt.typeDefined then Run(Abrupt(TypeNotFound), loading)
      else if !rt.constructible then Run(Abrupt(ConstructionFailed), loading)
      else
        match rt.lookup
        case NoSuchMethod => Run(Abrupt(MethodNotFound), loading)
        case Overloaded => Run(Abrupt(AmbiguousMethod), loading)
        case Unique(n) =>
          match ArityFault(n)
          case Some(f) => Run(Abrupt(f), loading)
          case None =>
            var binding := loading + [MethodFound(n), Deserializing(options.data)];
            if options.data.None? then Run(Abrupt(MissingData), binding)
            else if !rt.payloadBinds then Run(Abrupt(MalformedPayload), binding)
            else if !rt.callSucceeds then Run(Abrupt(CallFailed), binding)
            else Run(Normal, binding)
  }

  /** The stages before the arity check all pass and GetMethod finds a single method with n parameters. */
  predicate ReachesArityCheck(options: CliOptions, rt: Runtime, n: nat)
  {
    && FindFile(rt.cwd, options.assemblyName).Some?
    && rt.loads && rt.typeDefined && rt.constructible
    && rt.lookup == Unique(n)
  }

  /**
   * The arity check: with more than one parameter Invoke throws the
   * "multiple parameters" exception, with none it fails at parameters[0],
   * and only with exactly one does it go on to deserialise the data.
   */
  lemma InvokeArity(options: CliOptions, rt: Runtime, n: nat)
    requires ReachesArityCheck(options, rt, n)
    ensures n > 1 ==> Invoke(options, rt).completion == Abrupt(MultipleParameters)
    ensures n == 0 ==> Invoke(options, rt).completion == Abrupt(NoParameter)
    ensures Deserializing(options.data) in Invoke(options, rt).messages <==> n == 1
    ensures n == 1 ==>
      Invoke(options, rt).completion in {Normal, Abrupt(MissingData), Abrupt(MalformedPayload), Abrupt(CallFailed)}
  {
  }

  /** Unless the method found takes exactly one parameter, the -d data is never looked at. */
  lemma DataIgnoredUnlessSingleParameter(options: CliOptions, data: Option<string>, rt: Runtime)
    requires rt.lookup != Unique(1)
    ensures Invoke(options, rt) == Invoke(options.(data := data), rt)
  {
  }

  /** The assembly loaded is the file the search found, named `<assembly>.dll`, below the current directory. */
  lemma LoadedAssemblyFound(options: CliOptions, rt: Runtime, route: seq<nat>, entry: nat)
    requires LoadingAssembly(route, entry) in Invoke(options, rt).messages
    ensures FindFile(rt.cwd, options.assemblyName) == Some(FilePath(route, entry))
    ensures |route| >= 1 && Locates(rt.cwd, FilePath(route, entry), FileName(options.assemblyName))
  {
    var r := FindFile(rt.cwd, options.assemblyName);
    assert r.Some?;
  }
}
