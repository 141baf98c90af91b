/** Tool arguments as the handlers see them: a Python `dict` decoded from JSON,
    read with `dict.get`, `in` and Python truthiness. */
module Args {
  import opened Text

  /** An argument value. Floats, lists and objects are not modelled. */
  datatype Value = VNone | VBool(b: bool) | VInt(i: int) | VStr(s: string)

  type Arguments = map<string, Value>

  /** Python truthiness of a value: `not v` is false. */
  predicate Truthy(v: Value)
  {
    match v
    case VNone => false
    case VBool(b) => b
    case VInt(i) => i != 0
    case VStr(s) => s != ""
  }

  /** `arguments.get(k)`: an absent key reads as `None`. */
  function Get(args: Arguments, k: string): Value
  {
    if k in args then args[k] else VNone
  }

  /** `arguments.get(k, d)`: the default is used only when the key is absent,
      so a key that is present with an empty value keeps that value. */
  function GetOr(args: Arguments, k: string, d: Value): Value
  {
    if k in args then args[k] else d
  }

  /** The handlers' test for a supplied argument, written either as
      `not arguments.get(k)` (negated) or as `k in arguments and arguments[k]`. */
  predicate Supplied(args: Arguments, k: string)
  {
    Truthy(Get(args, k))
  }

  /** Python's `str(v)`, as an f-string renders the value. */
  function Str(v: Value): string
  {
    match v
    case VNone => "None"
    case VBool(b) => if b then "True" else "False"
    case VInt(i) => IntToString(i)
    case VStr(s) => s
  }
}
