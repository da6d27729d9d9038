/** The application-data look-ups the agents make while writing their first
    user message. The wording is not modelled; what matters is that a missing
    key or a value the `,.2f` format cannot render raises before any model call. */
module Prompts {
  import opened Values
  import opened Models
  import opened Calculations

  /** How a prompt uses data[key]: printed with str(), printed as money with
      `:,.2f`, or summed and the total printed as money. */
  datatype Field = Plain(key: string) | Money(key: string) | Summed(key: string)

  /** The KeyError that data[key] raises; str() of a KeyError is the key's repr. */
  function KeyError(key: string): Exception
  {
    PythonError("KeyError", "'" + key + "'")
  }

  /** format(v, ",.2f"): numbers are accepted, a str rejects the format code,
      any other type rejects any format string. */
  function MoneyFormatError(v: Value): (r: Option<Exception>)
    ensures r.None? <==> IsNumber(v)
    ensures r.Some? ==> r.value.PythonError?
  {
    if IsNumber(v) then None
    else if v.Str? then Some(PythonError("ValueError", "Unknown format code 'f' for object of type 'str'"))
    else Some(PythonError("TypeError", "unsupported format string passed to " + TypeName(v) + ".__format__"))
  }

  /** The exception one use of a field raises, if any. */
  function FieldError(data: Args, f: Field): (r: Option<Exception>)
    ensures Lookup(data, f.key).None? ==> r == Some(KeyError(f.key))
    ensures r.Some? ==> r.value.PythonError?
  {
    match Lookup(data, f.key)
    case None => Some(KeyError(f.key))
    case Some(v) =>
      match f
      case Plain(_) => None
      case Money(_) => MoneyFormatError(v)
      case Summed(_) =>
        match Iterate(v)
        case None => Some(NotIterable(v))
        case Some(items) => if PySum(items).Err? then Some(PySum(items).error) else None
  }

  /** The first field, in the order the prompt uses them, whose use raises. */
  function FirstFieldError(data: Args, fields: seq<Field>): (r: Option<Exception>)
    ensures r.None? <==> forall k :: 0 <= k < |fields| ==> FieldError(data, fields[k]).None?
    ensures r.Some? ==> exists k :: 0 <= k < |fields| && FieldError(data, fields[k]) == r &&
                          forall j :: 0 <= j < k ==> FieldError(data, fields[j]).None?
  {
    if |fields| == 0 then None
    else if FieldError(data, fields[0]).Some? then FieldError(data, fields[0])
    else
      var r := FirstFieldError(data, fields[1..]);
      assert forall k :: 1 <= k < |fields| ==> fields[k] == fields[1..][k - 1];
      r
  }
}
