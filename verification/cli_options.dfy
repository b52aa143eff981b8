/** CliOptions.cs: the four values read from the command line, as handed to Invoke. */
module Options {
  import opened Wrappers

  /** `data` is None when the -d option was not given (Value() returns null). */
  datatype CliOptions = CliOptions(
    assemblyName: string,
    fullyQualifiedClassName: string,
    methodName: string,
    data: Option<string>)
}
