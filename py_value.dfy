/**
 * The loosely typed JSON values that the views receive from `json.loads`,
 * and the handful of Python operations the validators apply to them:
 * truthiness, `dict.get`, the `in` operator, subscripting, `[0]` and
 * iteration.  Each operation that Python can reject with an exception
 * returns a `Result` whose failure names that exception.
 */
module PyValue {
  import opened Wrappers

  /** A JSON value.  JSON numbers are modelled as integers only. */
  datatype Value =
    | Null
    | Str(s: string)
    | Num(n: int)
    | Bool(b: bool)
    | List(items: seq<Value>)
    | Obj(fields: map<string, Value>)

  /** The Python exceptions the validators can run into on odd input.
      `KeyOrder` stands for iterating a non-empty JSON object: Python walks
      its keys in insertion order, which a `map` does not record. */
  datatype PyError = TypeError | KeyError | IndexError | AttributeError | KeyOrder

  function PyErrorName(e: PyError): string
  {
    match e
    case TypeError => "TypeError"
    case KeyError => "KeyError"
    case IndexError => "IndexError"
    case AttributeError => "AttributeError"
    case KeyOrder => "dict iteration"
  }

  /** Python truthiness: None, "", 0, False, [] and {} are false. */
  predicate Truthy(v: Value)
    ensures !Truthy(v) <==> v in {Null, Str(""), Num(0), Bool(false), List([]), Obj(map[])}
  {
    match v
    case Null => false
    case Str(s) => s != ""
    case Num(n) => n != 0
    case Bool(b) => b
    case List(xs) => xs != []
    case Obj(m) => m != map[]
  }

  /** `m.get(key)`: None when the key is absent. */
  function Get(m: map<string, Value>, key: string): (r: Value)
    ensures key in m ==> r == m[key]
    ensures r != Null ==> key in m
  {
    if key in m then m[key] else Null
  }

  /** `m.get(key, default)`. */
  function GetOr(m: map<string, Value>, key: string, default: Value): (r: Value)
    ensures key in m ==> r == m[key]
    ensures key !in m ==> r == default
  {
    if key in m then m[key] else default
  }

  /** `s` ends with `suffix`. */
  predicate EndsWith(s: string, suffix: string)
  {
    |suffix| <= |s| && s[|s| - |suffix|..] == suffix
  }

  /** `k` occurs somewhere in `s` (`<=` on sequences is "is a prefix of"). */
  predicate IsSubstring(k: string, s: string)
  {
    k <= s || (s != [] && IsSubstring(k, s[1..]))
  }

  /** `key in container` for a string key: dictionary membership, list
      membership, substring test; a TypeError on None, numbers and booleans. */
  function Contains(container: Value, key: string): (r: Result<bool, PyError>)
    ensures r.Success? <==> container.Obj? || container.List? || container.Str?
    ensures container.Obj? ==> r == Success(key in container.fields)
    ensures r.Failure? ==> r.error == TypeError
  {
    match container
    case Obj(m) => Success(key in m)
    case List(xs) => Success(Str(key) in xs)
    case Str(s) => Success(IsSubstring(key, s))
    case _ => Failure(TypeError)
  }

  /** `container[key]` for a string key: only a dictionary can be indexed so. */
  function Subscript(container: Value, key: string): (r: Result<Value, PyError>)
    ensures r.Success? <==> container.Obj? && key in container.fields
    ensures r.Success? ==> r.value == container.fields[key]
    ensures r.Failure? ==> (r.error == KeyError <==> container.Obj?)
  {
    match container
    case Obj(m) => if key in m then Success(m[key]) else Failure(KeyError)
    case _ => Failure(TypeError)
  }

  /** `container[0]`.  A JSON object has string keys only, so `0` is never one. */
  function ItemZero(container: Value): (r: Result<Value, PyError>)
    ensures r.Success? <==> (container.List? && container.items != []) || (container.Str? && container.s != "")
    ensures r.Success? && container.List? ==> r.value == container.items[0]
    ensures r.Success? && container.Str? ==> r.value == Str([container.s[0]])
    ensures r.Failure? ==> (r.error == KeyError <==> container.Obj?)
  {
    match container
    case List(xs) => if xs != [] then Success(xs[0]) else Failure(IndexError)
    case Str(s) => if s != "" then Success(Str([s[0]])) else Failure(IndexError)
    case Obj(_) => Failure(KeyError)
    case _ => Failure(TypeError)
  }

  /** The elements a Python `for` loop visits: list items, or the
      one-character strings of a string. */
  function Iterate(v: Value): (r: Result<seq<Value>, PyError>)
    ensures v.List? ==> r == Success(v.items)
    ensures v.Str? ==> r.Success? && |r.value| == |v.s|
                       && forall i :: 0 <= i < |v.s| ==> r.value[i] == Str([v.s[i]])
    ensures r.Success? ==> v.List? || v.Str? || v == Obj(map[])
  {
    match v
    case List(xs) => Success(xs)
    case Str(s) => Success(seq(|s|, i requires 0 <= i < |s| => Str([s[i]])))
    case Obj(m) => if m == map[] then Success([]) else Failure(KeyOrder)
    case _ => Failure(TypeError)
  }

  /** `str.upper()` restricted to ASCII letters. */
  function UpperChar(c: char): char
  {
    if 'a' <= c <= 'z' then (c as int - 32) as char else c
  }

  /** No ASCII lower-case letter is left: each one is replaced by its
      upper-case letter, and every other character is kept. */
  function AsciiUpper(s: string): (r: string)
    ensures |r| == |s|
    ensures forall i :: 0 <= i < |r| ==> !('a' <= r[i] <= 'z')
    ensures forall i :: 0 <= i < |s| && 'a' <= s[i] <= 'z' ==> r[i] as int == s[i] as int - 32
    ensures forall i :: 0 <= i < |s| && !('a' <= s[i] <= 'z') ==> r[i] == s[i]
  {
    seq(|s|, i requires 0 <= i < |s| => UpperChar(s[i]))
  }

  /** The value of a string of decimal digits, read left to right. */
  function DecimalValue(s: string): int
  {
    if s == [] then 0 else 10 * DecimalValue(s[..|s| - 1]) + (s[|s| - 1] as int - '0' as int)
  }

  /** Decimal rendering of a natural number, as an f-string prints it:
      digits whose value is `n`, with no leading zero. */
  function NatToString(n: nat): (r: string)
    ensures r != []
    ensures forall i :: 0 <= i < |r| ==> '0' <= r[i] <= '9'
    ensures DecimalValue(r) == n
    ensures r[0] == '0' ==> n == 0
  {
    if n < 10 then ["0123456789"[n]] else NatToString(n / 10) + ["0123456789"[n % 10]]
  }
}
