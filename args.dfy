/**
 * The argument bag a tool is invoked with, and the typed reads the tools make
 * from it (ContainsKey / GetString / GetBoolean / GetInt32). A read of a value
 * of the wrong JSON kind throws in the original; here it is a Fault, which
 * every tool turns into its catch-all text.
 */
module Args {
  import opened Base

  /** A JSON argument value of one of the kinds the tools read. */
  datatype Arg = Str(s: string) | Bool(b: bool) | Int(i: int)

  /**
   * What InvokeAsync receives: no context at all, a context whose Params is
   * null, Params whose Arguments is null, or an argument map.
   */
  datatype Request = NullContext | NullParams | NullArguments | Arguments(args: map<string, Arg>)

  /**
   * Why a step threw: an argument of the wrong kind, a member read through a
   * null reference (NullReferenceException), a null sequence handed to a LINQ
   * operator (ArgumentNullException), or a local file that is gone.
   */
  datatype Fault = WrongKind(key: string) | NullDereference | NullSource | FileMissing(path: string)

  datatype Result<T> = Ok(value: T) | Err(fault: Fault) {
    predicate IsFailure() {
      Err?
    }

    function PropagateFailure<U>(): Result<U>
      requires Err?
    {
      Err(fault)
    }

    function Extract(): T
      requires Ok?
    {
      value
    }
  }

  /** The exception message the catch-all texts embed; its exact wording is not modelled. */
  function FaultMessage(f: Fault): string {
    match f
    case WrongKind(key) => "The requested operation requires an element of a different type ('" + key + "')."
    case NullDereference => "Object reference not set to an instance of an object."
    case NullSource => "Value cannot be null. (Parameter 'source')"
    case FileMissing(path) => "Could not find file '" + path + "'."
  }

  const Int32Min := -0x8000_0000
  const Int32Max := 0x7FFF_FFFF

  /** context.Params.Arguments reads without throwing: both the context and its Params are present. */
  predicate HasParams(req: Request) {
    req.NullArguments? || req.Arguments?
  }

  /** context?.Params?.Arguments ?? new Dictionary(): a missing context, Params or bag reads as empty. */
  function Bag(req: Request): (args: map<string, Arg>)
    ensures req.Arguments? ==> args == req.args
    ensures !req.Arguments? ==> args == map[]
  {
    if req.Arguments? then req.args else map[]
  }

  /** args.ContainsKey(key) ? args[key].GetString() : null */
  function OptionalString(args: map<string, Arg>, key: string): (r: Result<Option<string>>)
    ensures key !in args ==> r == Ok(None)
    ensures key in args && args[key].Str? ==> r == Ok(Some(args[key].s))
    ensures key in args && !args[key].Str? ==> r == Err(WrongKind(key))
  {
    if key !in args then Ok(None)
    else if args[key].Str? then Ok(Some(args[key].s))
    else Err(WrongKind(key))
  }

  /** args.ContainsKey(key) ? args[key].GetString() : fallback */
  function StringOr(args: map<string, Arg>, key: string, fallback: string): (r: Result<string>)
    ensures key !in args ==> r == Ok(fallback)
    ensures r.Ok? && key in args ==> args[key] == Str(r.value)
    ensures key in args && args[key].Str? ==> r.Ok?
  {
    if key !in args then Ok(fallback)
    else if args[key].Str? then Ok(args[key].s)
    else Err(WrongKind(key))
  }

  /** args[key].GetString()! for a key already known to be present. */
  function RequiredString(args: map<string, Arg>, key: string): (r: Result<string>)
    requires key in args
    ensures r.Ok? <==> args[key].Str?
    ensures r.Ok? ==> r.value == args[key].s
  {
    if args[key].Str? then Ok(args[key].s) else Err(WrongKind(key))
  }

  /** args.ContainsKey(key) && args[key].GetBoolean() (also the `? GetBoolean() : false` form). */
  function Flag(args: map<string, Arg>, key: string): (r: Result<bool>)
    ensures key !in args ==> r == Ok(false)
    ensures r.Ok? && key in args ==> args[key] == Bool(r.value)
    ensures key in args && args[key].Bool? ==> r.Ok?
  {
    if key !in args then Ok(false)
    else if args[key].Bool? then Ok(args[key].b)
    else Err(WrongKind(key))
  }

  /** args[key].GetInt32(): a JSON number outside the 32-bit range throws like a wrong kind. */
  function Int32(args: map<string, Arg>, key: string): (r: Result<int>)
    requires key in args
    ensures r.Ok? <==> args[key].Int? && Int32Min <= args[key].i <= Int32Max
    ensures r.Ok? ==> r.value == args[key].i
  {
    if args[key].Int? && Int32Min <= args[key].i <= Int32Max then Ok(args[key].i)
    else Err(WrongKind(key))
  }

  /** string.IsNullOrEmpty */
  predicate IsNullOrEmpty(s: Option<string>) {
    s == None || s.value == ""
  }

  /** How a possibly-null string reads when interpolated: null prints as nothing. */
  function Show(s: Option<string>): string {
    if s == None then "" else s.value
  }
}
