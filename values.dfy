/** The Python values that reach the engine from persisted records and from
    HTTP requests, as far as the engine looks at them. */
module PyValues {

  datatype Option<+T> = None | Some(value: T)

  /** A Python value: an integer, a tuple, a list, or anything else. In this
      model the integers are the only values `int()` accepts; strings, floats
      and the like are `PyOther`. */
  datatype PyValue =
    | PyInt(n: int)
    | PyTuple(items: seq<PyValue>)
    | PyList(items: seq<PyValue>)
    | PyOther

  /** `int(v)`: the integer itself, or None where Python raises. */
  function IntOf(v: PyValue): Option<int>
  {
    if v.PyInt? then Some(v.n) else None
  }

  /** The position `s[i]` addresses in a Python sequence of length `len`:
      negative indices count from the end, anything else out of range
      raises IndexError (None). */
  function PyIndex(i: int, len: nat): (r: Option<nat>)
    ensures r.Some? <==> 0 - len <= i < len
    ensures r.Some? ==> r.value < len
    ensures r.Some? && i >= 0 ==> r.value == i
    ensures r.Some? && i < 0 ==> r.value == len + i
  {
    if 0 <= i < len then Some(i)
    else if 0 - len <= i < 0 then Some(len + i)
    else None
  }
}
