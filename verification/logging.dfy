/**
 * The diagnostic log of Program.cs: the static constructor reads the
 * environment variable DOTNET_CALL_LOG once and parses it with .NET's
 * Boolean.TryParse; Log writes a message when that flag is on or the
 * caller forces it.
 *
 * The messages themselves are modelled as values of `Message`, one
 * constructor per call site of Log, carrying what the message mentions.
 */
module Logging {
  import opened Wrappers

  /** One message handed to Log, by call site. Directories are named by their route from the starting directory. */
  datatype Message =
    | LookingFor(assembly: string, dir: seq<nat>)      // FindFile, on entry
    | FoundFiles(count: nat)                            // FindFile, after listing a subdirectory
    | LoadingAssembly(dir: seq<nat>, entry: nat)        // Invoke, after the search
    | MethodFound(parameters: nat)                      // Invoke, after the arity check
    | Deserializing(data: Option<string>)               // Invoke, before parsing the payload
    | RequiredInputMissing                              // OnExecute, forced

  /** char.IsWhiteSpace: the Unicode White_Space characters .NET recognises. */
  predicate IsWhiteSpace(c: char)
  {
    || ('\U{0009}' <= c <= '\U{000D}') || c == '\U{0020}' || c == '\U{0085}' || c == '\U{00A0}'
    || c == '\U{1680}' || ('\U{2000}' <= c <= '\U{200A}') || c == '\U{2028}' || c == '\U{2029}'
    || c == '\U{202F}' || c == '\U{205F}' || c == '\U{3000}'
  }

  /** The characters Boolean.TryParse strips from both ends: white space and NUL. */
  predicate IsTrimmable(c: char)
  {
    IsWhiteSpace(c) || c == '\U{0000}'
  }

  /** Number of trimmable characters at the start of s. */
  function LeadingTrimmable(s: string): (n: nat)
    ensures n <= |s|
    ensures forall i :: 0 <= i < n ==> IsTrimmable(s[i])
    ensures n < |s| ==> !IsTrimmable(s[n])
  {
    if s == [] || !IsTrimmable(s[0]) then 0 else 1 + LeadingTrimmable(s[1..])
  }

  /** Number of trimmable characters at the end of s. */
  function TrailingTrimmable(s: string): (n: nat)
    ensures n <= |s|
    ensures forall i :: |s| - n <= i < |s| ==> IsTrimmable(s[i])
    ensures n < |s| ==> !IsTrimmable(s[|s| - 1 - n])
  {
    if s == [] || !IsTrimmable(s[|s| - 1]) then 0 else 1 + TrailingTrimmable(s[..|s| - 1])
  }

  /** s without its leading and trailing white space and NUL characters. */
  function Trim(s: string): (t: string)
    ensures |t| <= |s|
    ensures t != [] ==> !IsTrimmable(t[0]) && !IsTrimmable(t[|t| - 1])
  {
    var rest := s[LeadingTrimmable(s)..];
    rest[..|rest| - TrailingTrimmable(rest)]
  }

  /** ASCII letters to lower case; every other character unchanged. */
  function AsciiLower(c: char): (lowered: char)
  {
    if 'A' <= c <= 'Z' then (c as int + 32) as char else c
  }

  /** s spells `lower` (a lower-case ASCII word) ignoring ASCII case, as Boolean's own comparison does. */
  predicate EqualsIgnoringCase(s: string, lower: string)
  {
    |s| == |lower| && forall i :: 0 <= i < |s| ==> AsciiLower(s[i]) == lower[i]
  }

  /**
   * Boolean.TryParse: None stands for a null argument or a value that does
   * not parse. A value parses exactly when, trimmed, it spells "true" or
   * "false" ignoring ASCII case, and then gives the boolean it spells.
   */
  function TryParseBool(value: Option<string>): (r: Option<bool>)
    ensures r.Some? ==> value.Some? && EqualsIgnoringCase(Trim(value.value), BoolWord(r.value))
    ensures value.Some? && (EqualsIgnoringCase(Trim(value.value), "true") || EqualsIgnoringCase(Trim(value.value), "false"))
      ==> r.Some?
  {
    match value
    case None => None
    case Some(s) =>
      var t := Trim(s);
      if EqualsIgnoringCase(t, "true") then Some(true)
      else if EqualsIgnoringCase(t, "false") then Some(false)
      else None
  }

  /** The static constructor: `_log` is the parsed value, and false when the variable is absent or does not parse. */
  function InitialLogFlag(env: Option<string>): (log: bool)
    ensures log <==> env.Some? && EqualsIgnoringCase(Trim(env.value), "true")
  {
    match TryParseBool(env)
    case Some(b) => b
    case None => false
  }

  /** Log: the lines written to the console for one call. */
  function Log(logEnabled: bool, message: Message, forceLog: bool): (out: seq<Message>)
    ensures |out| <= 1
    ensures out != [] ==> out == [message]
  {
    if logEnabled || forceLog then [message] else []
  }

  /** The lines written by a series of unforced calls to Log, one per message. */
  function Emit(logEnabled: bool, messages: seq<Message>): (out: seq<Message>)
    ensures out == if logEnabled then messages else []
  {
    if messages == [] then []
    else Log(logEnabled, messages[0], false) + Emit(logEnabled, messages[1..])
  }

  /** Trimming strips exactly the padding around a word that neither starts nor ends with a trimmable character. */
  lemma TrimPadded(pre: string, w: string, post: string)
    requires forall i :: 0 <= i < |pre| ==> IsTrimmable(pre[i])
    requires forall i :: 0 <= i < |post| ==> IsTrimmable(post[i])
    requires w != [] ==> !IsTrimmable(w[0]) && !IsTrimmable(w[|w| - 1])
    ensures Trim(pre + w + post) == w
  {
    var s := pre + w + post;
    var lead := LeadingTrimmable(s);
    if w == [] {
      assert forall i :: 0 <= i < |s| ==> IsTrimmable(s[i]) by {
        forall i | 0 <= i < |s| ensures IsTrimmable(s[i]) {
          if i < |pre| { assert s[i] == pre[i]; } else { assert s[i] == post[i - |pre|]; }
        }
      }
      assert lead == |s|;
    } else {
      assert s[|pre|] == w[0];
      assert forall i :: 0 <= i < |pre| ==> s[i] == pre[i];
      assert lead == |pre|;
      var rest := s[lead..];
      assert rest == w + post;
      var trail := TrailingTrimmable(rest);
      assert rest[|w| - 1] == w[|w| - 1];
      assert forall i :: |w| <= i < |rest| ==> rest[i] == post[i - |w|];
      assert trail == |post|;
      assert rest[..|rest| - trail] == w;
    }
  }

  /** The lower-case spelling Boolean.TryParse accepts for b. */
  function BoolWord(b: bool): (word: string)
  {
    if b then "true" else "false"
  }

  /** A character that folds to a lower-case ASCII letter is neither white space nor NUL. */
  lemma LetterNotTrimmable(c: char)
    requires 'a' <= AsciiLower(c) <= 'z'
    ensures !IsTrimmable(c)
  {
  }

  /** Boolean.TryParse reads back b spelled in any ASCII case, with any surrounding white space or NULs. */
  lemma TryParseBoolPadded(b: bool, pre: string, spelled: string, post: string)
    requires forall i :: 0 <= i < |pre| ==> IsTrimmable(pre[i])
    requires forall i :: 0 <= i < |post| ==> IsTrimmable(post[i])
    requires EqualsIgnoringCase(spelled, BoolWord(b))
    ensures TryParseBool(Some(pre + spelled + post)) == Some(b)
  {
    assert AsciiLower(spelled[0]) == BoolWord(b)[0];
    assert AsciiLower(spelled[|spelled| - 1]) == 'e';
    LetterNotTrimmable(spelled[0]);
    LetterNotTrimmable(spelled[|spelled| - 1]);
    TrimPadded(pre, spelled, post);
    if !b {
      assert !EqualsIgnoringCase(spelled, "true");
    }
  }

  /** A message reaches the console exactly when logging was enabled from the environment or the call forces it. */
  lemma LogGate(env: Option<string>, message: Message, forceLog: bool)
    ensures Log(InitialLogFlag(env), message, forceLog) == [message]
        <==> forceLog || (env.Some? && EqualsIgnoringCase(Trim(env.value), "true"))
  {
  }
}
