/** How `SSHReverse` turns its `bind_port` argument into the three range
    fields `bind_port_min`, `bind_port_max` and `bind_port_try`: once in the
    constructor and again in `set_bind_port`. */
module BindPort {
  import opened PyBuiltins

  /** The values of `bind_port_min`, `bind_port_max` and `bind_port_try`. */
  datatype BindFields = BindFields(min: PyVal, max: PyVal, tryPort: PyVal)

  /** Python's `len()`, for the values that have one. */
  function Len(v: PyVal): Option<nat> {
    match v
    case PyStr(s) => Some(|s|)
    case PySeq(items) => Some(|items|)
    case _ => None
  }

  /** `v[k]` for a sized value and an index below its length: one item of a
      sequence, one character of a string. */
  function Item(v: PyVal, k: nat): PyVal
    requires Len(v).Some? && k < Len(v).value
  {
    match v
    case PyStr(s) => PyStr([s[k]])
    case PySeq(items) => items[k]
  }

  /** The constructor's normalisation: `None`, or any value whose `len()` is
      not 3, is replicated into a three-item list; a value of length 3 is read
      as `(min, max, try)`; `len()` of a value without one (an `int`, for
      instance) raises `TypeError`. */
  function InitBindPort(v: PyVal): (r: Result<BindFields>)
    ensures r.Err? <==> !v.PyNone? && Len(v).None?
    ensures r.Err? ==> r.error == TypeError
    ensures r.Ok? && Len(v) == Some(3) ==> r.value == BindFields(Item(v, 0), Item(v, 1), Item(v, 2))
  {
    if v.PyNone? then Ok(BindFields(v, v, v))
    else
      match Len(v)
      case None => Err(TypeError)
      case Some(n) =>
        if n != 3 then Ok(BindFields(v, v, v))
        else Ok(BindFields(Item(v, 0), Item(v, 1), Item(v, 2)))
  }

  /** A three-item tuple is read item by item, whatever the items are. */
  lemma InitBindPortTriple(min: PyVal, max: PyVal, tryPort: PyVal)
    ensures InitBindPort(PySeq([min, max, tryPort])) == Ok(BindFields(min, max, tryPort))
  {
  }

  /** A value that is `None` or has a length other than 3 lands unchanged in
      all three fields. */
  lemma InitBindPortReplicates(v: PyVal)
    requires v.PyNone? || (Len(v).Some? && Len(v).value != 3)
    ensures InitBindPort(v) == Ok(BindFields(v, v, v))
  {
  }

  /** A three-character string is also "of length 3": its characters become
      the three fields, still as strings. */
  lemma InitBindPortThreeCharString(s: string)
    requires |s| == 3
    ensures InitBindPort(PyStr(s)) == Ok(BindFields(PyStr([s[0]]), PyStr([s[1]]), PyStr([s[2]])))
  {
  }

  /** The port `set_bind_port(port)` stores in all three fields: an `int`
      as it is, a `str` through `int()` (whose `ValueError` escapes); any other
      value leaves `bind_port = ()` and indexing it raises `IndexError`. */
  function SetBindPortValue(port: PyVal): (r: Result<int>)
    ensures r.Ok? <==> port.PyInt? || (port.PyStr? && IntOfStr(port.s).Some?)
    ensures r.Err? ==> r.error == (if port.PyStr? then ValueError else IndexError)
  {
    match port
    case PyInt(p) => Ok(p)
    case PyStr(s) =>
      (match IntOfStr(s)
       case Some(p) => Ok(p)
       case None => Err(ValueError))
    case _ => Err(IndexError)
  }

  /** `set_bind_port` with the decimal text of a port stores that port, as
      it does with the `int` itself. */
  lemma SetBindPortNumericString(p: int)
    ensures SetBindPortValue(PyStr(DecimalString(p))) == SetBindPortValue(PyInt(p)) == Ok(p)
  {
    IntOfStrRoundTrip(p);
  }
}
