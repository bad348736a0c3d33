/** Values decoded by Python's `json` module, and the few Python operations
    on them that the services use: truthiness, `in`, subscription by a string,
    iteration, `float()` and `str()`. */
module Json {
  import opened Wrappers
  import opened Dicts
  import Text

  /** JSON numbers (Python int and float) are modelled by one real. */
  datatype Json =
    | Null
    | Bool(b: bool)
    | Num(r: real)
    | Str(s: string)
    | Arr(items: seq<Json>)
    | Obj(fields: Dict<Json>)

  /** Neither a dict nor a list. */
  predicate IsScalar(j: Json) {
    !j.Arr? && !j.Obj?
  }

  /** Python truthiness: `if j:`. */
  predicate Truthy(j: Json) {
    match j
    case Null => false
    case Bool(b) => b
    case Num(r) => r != 0.0
    case Str(s) => s != []
    case Arr(xs) => xs != []
    case Obj(fs) => fs != []
  }

  /** The value of `j` in arithmetic: an int or float, or a bool as 0 or 1;
      any other operand makes the arithmetic raise. */
  function NumberOf(j: Json): Option<real> {
    match j
    case Num(r) => Some(r)
    case Bool(b) => Some(if b then 1.0 else 0.0)
    case _ => None
  }

  /** `float(j)`.  Parsing a string is Python's own grammar, given as `parse`. */
  function FloatOf(j: Json, parse: string -> Option<real>): Result<real> {
    match j
    case Num(r) => Ok(r)
    case Bool(b) => Ok(if b then 1.0 else 0.0)
    case Str(s) => if parse(s).Some? then Ok(parse(s).value) else Raised
    case _ => Raised
  }

  /** `key in j` for a string `key`: a dict tests its keys, a list its
      elements, a string its substrings; other values raise TypeError. */
  function Contains(j: Json, key: string): Result<bool> {
    match j
    case Obj(fs) => Ok(key in Keys(fs))
    case Arr(xs) => Ok(Str(key) in xs)
    case Str(s) => Ok(Text.IsSubstring(key, s))
    case _ => Raised
  }

  /** `j[key]` for a string `key`: only a dict holding `key` answers. */
  function Index(j: Json, key: string): Result<Json> {
    if j.Obj? && Get(j.fields, key).Some? then Ok(Get(j.fields, key).value) else Raised
  }

  /** `d.get(key, default)` on a dict. */
  function GetOr(d: Dict<Json>, key: string, default: Json): Json {
    if Get(d, key).Some? then Get(d, key).value else default
  }

  /** The elements `for x in j` visits: a list its items, a dict its keys, a
      string its characters; other values raise TypeError. */
  function Elements(j: Json): Result<seq<Json>> {
    match j
    case Arr(xs) => Ok(xs)
    case Obj(fs) => Ok(seq(|fs|, i requires 0 <= i < |fs| => Str(fs[i].0)))
    case Str(s) => Ok(seq(|s|, i requires 0 <= i < |s| => Str([s[i]])))
    case _ => Raised
  }

  /** `str(j)`, as an f-string renders it.  Exact for strings, None, booleans
      and whole numbers; other floats, lists and dicts get a placeholder. */
  function Display(j: Json): string {
    match j
    case Str(s) => s
    case Null => "None"
    case Bool(b) => if b then "True" else "False"
    case Num(r) => if r.Floor as real == r then Text.IntStr(r.Floor) else "<float>"
    case Arr(_) => "<list>"
    case Obj(_) => "<dict>"
  }

  /** `float()` agrees with arithmetic on ints, floats and bools; any other
      value converts only as a string Python can parse. */
  lemma FloatOfMeaning(j: Json, parse: string -> Option<real>)
    ensures NumberOf(j).Some? ==> FloatOf(j, parse) == Ok(NumberOf(j).value)
    ensures FloatOf(j, parse).Ok? ==> NumberOf(j).Some? || (j.Str? && parse(j.s) == Some(FloatOf(j, parse).value))
  {
  }

  /** `in` raises exactly on scalars other than strings, and on a dict it
      agrees with subscription: `key in d` exactly when `d[key]` answers. */
  lemma ContainsMeaning(j: Json, key: string)
    ensures Contains(j, key).Raised? <==> IsScalar(j) && !j.Str?
    ensures j.Obj? ==> (Contains(j, key) == Ok(true) <==> Index(j, key).Ok?)
  {
  }

  /** Subscription answers exactly on a dict holding the key, with a value
      stored under that key. */
  lemma IndexMeaning(j: Json, key: string)
    ensures Index(j, key).Ok? <==> j.Obj? && key in Keys(j.fields)
    ensures Index(j, key).Ok? ==> (key, Index(j, key).value) in j.fields
  {
    if Index(j, key).Ok? {
      GetStored(j.fields, key);
    }
  }

  /** Iteration is defined on lists, dicts and strings: a dict yields its
      keys in order, a string one element per character. */
  lemma ElementsMeaning(j: Json)
    ensures Elements(j).Ok? <==> !IsScalar(j) || j.Str?
    ensures j.Obj? ==> Elements(j).Ok? && |Elements(j).value| == |j.fields| &&
                       forall i :: 0 <= i < |j.fields| ==> Elements(j).value[i] == Str(Keys(j.fields)[i])
    ensures j.Str? ==> Elements(j).Ok? && |Elements(j).value| == |j.s|
  {
  }

  /** `str()` as modelled is exact on strings but not on other values: a
      fraction, a list or a dict is only named by its kind, so distinct such
      values render alike. */
  lemma DisplayCollisions()
    ensures Display(Num(0.5)) == Display(Num(0.25)) == "<float>"
    ensures Display(Arr([])) == Display(Arr([Null])) == "<list>"
    ensures forall a, b :: Display(Str(a)) == Display(Str(b)) ==> a == b
  {
    assert (0.5).Floor == 0;
    assert (0.25).Floor == 0;
  }
}
