/**
 * Configuration values as the workflow sees them after the JSON config is
 * loaded: Python objects, with Python's truth test and Python's `== True`.
 */
module PyValues {

  /** A float is kept as the exact decimal `mantissa * 10^exponent` it was written as. */
  datatype PyValue =
    | PyNone
    | PyBool(b: bool)
    | PyInt(n: int)
    | PyFloat(mantissa: int, exponent: int)
    | PyStr(s: string)
    | PyList(items: seq<PyValue>)
    | PyDict(entries: map<string, PyValue>)

  function Pow10(k: nat): (r: nat)
    ensures r >= 1
  {
    if k == 0 then 1 else 10 * Pow10(k - 1)
  }

  /** Python's `bool(v)`: None, False, zero and empty containers are false. */
  predicate Truthy(v: PyValue): (r: bool)
    ensures !r <==> v == PyNone || v == PyBool(false) || v == PyInt(0) || (v.PyFloat? && v.mantissa == 0)
                    || v == PyStr("") || v == PyList([]) || v == PyDict(map[])
  {
    match v
    case PyNone => false
    case PyBool(b) => b
    case PyInt(n) => n != 0
    case PyFloat(m, _) => m != 0
    case PyStr(s) => s != ""
    case PyList(items) => items != []
    case PyDict(entries) => entries != map[]
  }

  /**
   * Python's `v == True`. `True` compares equal to the integer 1 and to the
   * float 1.0 as well; strings, containers and None never equal it.
   */
  function EqualsTrue(v: PyValue): (r: bool)
    ensures r ==> Truthy(v)
    ensures v.PyBool? ==> r == v.b
    ensures v.PyStr? || v.PyList? || v.PyDict? || v.PyNone? ==> !r
  {
    match v
    case PyBool(b) => b
    case PyInt(n) => n == 1
    case PyFloat(m, e) => if e >= 0 then m * Pow10(e) == 1 else m == Pow10(-e)
    case _ => false
  }
}
