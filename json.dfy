/** Decoded JSON values, as the handlers see events, message bodies and DynamoDB items. */
module Json {
  import opened Errors

  datatype Value =
    | Null
    | Bool(b: bool)
    | Num(n: int)
    | Str(s: string)
    | Arr(items: seq<Value>)
    | Obj(fields: map<string, Value>)

  /** Python truthiness: None, False, 0, "", [] and {} are falsy, everything else is truthy. */
  predicate Truthy(v: Value) {
    match v
    case Null => false
    case Bool(b) => b
    case Num(n) => n != 0
    case Str(s) => s != []
    case Arr(xs) => xs != []
    case Obj(m) => m != map[]
  }

  /** `d.get(k)`: the value under k, None when k is absent; only dictionaries have `.get`. */
  function Get(d: Value, k: string): (r: Result<Value>)
    ensures r.Ok? <==> d.Obj?
    ensures r.Ok? ==> r.value == if k in d.fields then d.fields[k] else Null
  {
    if !d.Obj? then Err(AttributeError)
    else if k in d.fields then Ok(d.fields[k])
    else Ok(Null)
  }

  /** `d.get(k)` on a value already known to be a dictionary. */
  function Field(d: Value, k: string): (r: Value)
    requires d.Obj?
    ensures Get(d, k) == Ok(r)
  {
    if k in d.fields then d.fields[k] else Null
  }

  /** `d[k]`: the value under k; KeyError when k is absent. */
  function Key(d: Value, k: string): (r: Result<Value>)
    ensures r.Ok? <==> d.Obj? && k in d.fields
    ensures r.Ok? ==> r.value == d.fields[k]
    ensures d.Obj? && k !in d.fields ==> r == Err(KeyError(k))
  {
    if !d.Obj? then Err(TypeError)
    else if k in d.fields then Ok(d.fields[k])
    else Err(KeyError(k))
  }

  /** `xs[i]` on a list, for a non-negative index. */
  function At(xs: Value, i: nat): (r: Result<Value>)
    ensures r.Ok? <==> xs.Arr? && i < |xs.items|
    ensures r.Ok? ==> r.value == xs.items[i]
    ensures xs.Arr? && i >= |xs.items| ==> r == Err(IndexError)
  {
    if !xs.Arr? then Err(TypeError)
    else if i < |xs.items| then Ok(xs.items[i])
    else Err(IndexError)
  }

  /**
   * `v[0]` with Python's subscripts: the first item of a list, the first character of a string;
   * a dictionary has no key 0, and other values cannot be subscripted.
   */
  function Head(v: Value): (r: Result<Value>)
    ensures r == Err(IndexError) <==> (v.Arr? && v.items == []) || v == Str("")
    ensures v.Arr? && v.items != [] ==> r == Ok(v.items[0])
    ensures r.Ok? <==> Truthy(v) && (v.Arr? || v.Str?)
  {
    match v
    case Arr(items) => if items == [] then Err(IndexError) else Ok(items[0])
    case Str(s) => if s == [] then Err(IndexError) else Ok(Str([s[0]]))
    case Obj(_) => Err(KeyError("0"))
    case _ => Err(TypeError)
  }

  /** A value that must be a string (a name, a URL, an identifier). */
  function AsText(v: Value): (r: Result<string>)
    ensures r.Ok? <==> v.Str?
    ensures r.Ok? ==> r.value == v.s
  {
    if v.Str? then Ok(v.s) else Err(TypeError)
  }

  /** The decimal digits of a natural number, as `str(n)` writes them. */
  function NatToDecimal(n: nat): (r: string)
    ensures |r| > 0
    ensures forall i | 0 <= i < |r| :: '0' <= r[i] <= '9'
    decreases n
  {
    var d := ['0' + (n % 10) as char];
    if n < 10 then d else NatToDecimal(n / 10) + d
  }

  /** `str(v)` for the scalar values the handlers put into names and URLs. */
  function Render(v: Value): string {
    match v
    case Str(s) => s
    case Num(n) => if n < 0 then "-" + NatToDecimal(-n) else NatToDecimal(n)
    case Bool(b) => if b then "True" else "False"
    case Null => "None"
    case Arr(_) => "[...]"
    case Obj(_) => "{...}"
  }

  /** Decoding a decimal numeral undoes NatToDecimal: the rendering of a number is faithful. */
  function DecimalValue(s: string): int
    decreases |s|
  {
    if s == [] then 0 else DecimalValue(s[..|s| - 1]) * 10 + (s[|s| - 1] as int - '0' as int)
  }

  lemma {:induction false} NatToDecimalRoundTrip(n: nat)
    ensures DecimalValue(NatToDecimal(n)) == n
    decreases n
  {
    var d := ['0' + (n % 10) as char];
    if n >= 10 {
      NatToDecimalRoundTrip(n / 10);
      var s := NatToDecimal(n / 10) + d;
      assert s[..|s| - 1] == NatToDecimal(n / 10);
    }
  }
}
