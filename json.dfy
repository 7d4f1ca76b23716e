/** JSON values as the admission webhooks receive them, and the few Python
    operations the webhook code applies to them (truthiness, `in`, `[]`,
    `.get`, item assignment and `int()`), with the exceptions they raise. */
module Json {
  import opened Common

  datatype Json =
    | JNull
    | JBool(b: bool)
    | JInt(i: int)
    | JFloat(r: real)
    | JString(s: string)
    | JArray(items: seq<Json>)
    | JObject(fields: map<string, Json>)

  /** The Python class name of the value `json.loads` produces for `j`. */
  function TypeName(j: Json): string {
    match j
    case JNull => "NoneType"
    case JBool(_) => "bool"
    case JInt(_) => "int"
    case JFloat(_) => "float"
    case JString(_) => "str"
    case JArray(_) => "list"
    case JObject(_) => "dict"
  }

  /** Python truthiness: None, False, zero and empty containers are false. */
  predicate Truthy(j: Json) {
    match j
    case JNull => false
    case JBool(b) => b
    case JInt(i) => i != 0
    case JFloat(r) => r != 0.0
    case JString(s) => s != ""
    case JArray(xs) => xs != []
    case JObject(m) => m != map[]
  }

  /** `needle in hay` for two Python strings. */
  predicate IsSubstring(needle: string, hay: string)
    decreases |hay|
  {
    needle <= hay || (hay != [] && IsSubstring(needle, hay[1..]))
  }

  function TypeError(message: string): PyError {
    PyError("TypeError", message)
  }

  /** `key in container` for a string key. */
  function Contains(container: Json, key: string): (r: Result<bool>)
    ensures container.JObject? ==> r == Ok(key in container.fields)
    ensures r.Raise? <==> !(container.JObject? || container.JString? || container.JArray?)
  {
    match container
    case JObject(m) => Ok(key in m)
    case JString(s) => Ok(IsSubstring(key, s))
    case JArray(xs) => Ok(JString(key) in xs)
    case _ => Raise(TypeError("argument of type '" + TypeName(container) + "' is not iterable"))
  }

  /** `container[key]` for a string key. */
  function Subscript(container: Json, key: string): (r: Result<Json>)
    ensures r.Ok? <==> container.JObject? && key in container.fields
    ensures r.Ok? ==> r.value == container.fields[key]
  {
    match container
    case JObject(m) =>
      if key in m then Ok(m[key]) else Raise(PyError("KeyError", "'" + key + "'"))
    case JString(_) => Raise(TypeError("string indices must be integers"))
    case JArray(_) => Raise(TypeError("list indices must be integers or slices, not str"))
    case _ => Raise(TypeError("'" + TypeName(container) + "' object is not subscriptable"))
  }

  /** `container.get(key, default)`; only dictionaries have `get`. */
  function Get(container: Json, key: string, default: Json): (r: Result<Json>)
    ensures r.Ok? <==> container.JObject?
    ensures r.Ok? ==> r.value == if key in container.fields then container.fields[key] else default
  {
    match container
    case JObject(m) => Ok(if key in m then m[key] else default)
    case _ => Raise(PyError("AttributeError", "'" + TypeName(container) + "' object has no attribute 'get'"))
  }

  /** `container[key] = value`, returning the updated container. */
  function SetItem(container: Json, key: string, value: Json): (r: Result<Json>)
    ensures r.Ok? <==> container.JObject?
    ensures r.Ok? ==> r.value == JObject(container.fields[key := value])
  {
    match container
    case JObject(m) => Ok(JObject(m[key := value]))
    case JArray(_) => Raise(TypeError("list indices must be integers or slices, not str"))
    case _ => Raise(TypeError("'" + TypeName(container) + "' object does not support item assignment"))
  }

  /** The characters `str.strip()` removes that are modelled here. */
  predicate IsSpace(c: char) {
    // space, tab, line feed, vertical tab, form feed, carriage return, and the
    // four ASCII separators 0x1c to 0x1f
    c == ' ' || 9 <= c as int <= 13 || 28 <= c as int <= 31
  }

  function StripLeft(s: string): (r: string)
    ensures r == [] || !IsSpace(r[0])
    ensures r <= s || exists k :: 0 <= k <= |s| && r == s[k..]
    decreases |s|
  {
    if s != [] && IsSpace(s[0]) then StripLeft(s[1..]) else s
  }

  function StripRight(s: string): (r: string)
    ensures r <= s
    ensures r == [] || !IsSpace(r[|r| - 1])
    decreases |s|
  {
    if s != [] && IsSpace(s[|s| - 1]) then StripRight(s[..|s| - 1]) else s
  }

  function Strip(s: string): string {
    StripRight(StripLeft(s))
  }

  /** Digits, where a single underscore may separate two digits (PEP 515):
      it starts and ends with a digit, and each underscore is followed by one. */
  predicate IsIntBody(s: string) {
    && s != []
    && IsDigit(s[0])
    && IsDigit(s[|s| - 1])
    && forall i :: 0 <= i < |s| ==> IsDigit(s[i]) || (s[i] == '_' && i + 1 < |s| && IsDigit(s[i + 1]))
  }

  function DigitsValue(s: string): nat
    decreases |s|
  {
    if s == [] then 0
    else if IsDigit(s[|s| - 1]) then DigitsValue(s[..|s| - 1]) * 10 + (s[|s| - 1] as int - '0' as int)
    else DigitsValue(s[..|s| - 1])
  }

  /** `int(s)` for a string: surrounding whitespace, an optional sign, then digits. */
  function ParseIntLiteral(s: string): Option<int> {
    ParseSigned(Strip(s))
  }

  /** An optional sign, then digits, with nothing around them. */
  function ParseSigned(t: string): Option<int> {
    if t != [] && (t[0] == '+' || t[0] == '-') then
      if IsIntBody(t[1..]) then
        var v: int := DigitsValue(t[1..]);
        Some(if t[0] == '-' then -v else v)
      else None
    else if IsIntBody(t) then Some(DigitsValue(t))
    else None
  }

  predicate AllSpace(s: string) {
    forall i :: 0 <= i < |s| ==> IsSpace(s[i])
  }

  lemma {:induction false} StripLeftPadded(pre: string, x: string)
    requires AllSpace(pre) && x != [] && !IsSpace(x[0])
    ensures StripLeft(pre + x) == x
    decreases |pre|
  {
    if pre != [] {
      assert (pre + x)[0] == pre[0] && (pre + x)[1..] == pre[1..] + x;
      StripLeftPadded(pre[1..], x);
    }
  }

  lemma {:induction false} StripRightPadded(x: string, post: string)
    requires AllSpace(post) && x != [] && !IsSpace(x[|x| - 1])
    ensures StripRight(x + post) == x
    decreases |post|
  {
    if post != [] {
      var xp := x + post;
      assert xp[|xp| - 1] == post[|post| - 1];
      assert xp[..|xp| - 1] == x + post[..|post| - 1];
      StripRightPadded(x, post[..|post| - 1]);
    } else {
      assert x + post == x;
    }
  }

  /** `strip()` removes exactly the padding around a word that starts and ends
      with something other than whitespace. */
  lemma StripPadded(pre: string, x: string, post: string)
    requires AllSpace(pre) && AllSpace(post)
    requires x != [] && !IsSpace(x[0]) && !IsSpace(x[|x| - 1])
    ensures Strip(pre + x + post) == x
  {
    assert pre + x + post == pre + (x + post);
    assert (x + post)[0] == x[0];
    StripLeftPadded(pre, x + post);
    StripRightPadded(x, post);
  }

  /** The digits of `str(n)` read back as `n`. */
  lemma {:induction false} DigitsValueOfNumeral(n: nat)
    ensures DigitsValue(NatToString(n)) == n
    decreases n
  {
    var s := NatToString(n);
    if n < 10 {
      assert s[..|s| - 1] == [];
    } else {
      var p := NatToString(n / 10);
      assert s == p + [DigitChar(n % 10)];
      assert s[..|s| - 1] == p;
      DigitsValueOfNumeral(n / 10);
    }
  }

  /** A numeral, signed or not, is what `strip()` leaves of it padded. */
  lemma StripNumeral(pre: string, sign: string, n: nat, post: string)
    requires AllSpace(pre) && AllSpace(post)
    requires sign == "" || sign == "+" || sign == "-"
    ensures Strip(pre + sign + NatToString(n) + post) == sign + NatToString(n)
  {
    var digits := NatToString(n);
    var x := sign + digits;
    assert x[|x| - 1] == digits[|digits| - 1];
    assert x[0] == if sign == "" then digits[0] else sign[0];
    assert pre + sign + digits + post == pre + x + post;
    StripPadded(pre, x, post);
  }

  /** `int()` of a decimal numeral, with an optional sign and surrounding
      whitespace, is the number it writes. */
  lemma ParseIntLiteralOfNumeral(pre: string, sign: string, n: nat, post: string)
    requires AllSpace(pre) && AllSpace(post)
    requires sign == "" || sign == "+" || sign == "-"
    ensures ParseIntLiteral(pre + sign + NatToString(n) + post) == Some(if sign == "-" then -(n as int) else n as int)
  {
    StripNumeral(pre, sign, n, post);
    ParseSignedNumeral(sign, n);
  }

  /** The unpadded case: a sign, if any, then the digits of `str(n)`. */
  lemma ParseSignedNumeral(sign: string, n: nat)
    requires sign == "" || sign == "+" || sign == "-"
    ensures ParseSigned(sign + NatToString(n)) == Some(if sign == "-" then -(n as int) else n as int)
  {
    DigitsValueOfNumeral(n);
    NumeralIsIntBody(n);
    ParseSignedDigits(sign, NatToString(n));
  }

  lemma NumeralIsIntBody(n: nat)
    ensures IsIntBody(NatToString(n))
  {
    var digits := NatToString(n);
    assert IsDigit(digits[0]) && IsDigit(digits[|digits| - 1]);
  }

  /** A sign, if any, then a digit string reads as the digits' value. */
  lemma ParseSignedDigits(sign: string, digits: string)
    requires sign == "" || sign == "+" || sign == "-"
    requires IsIntBody(digits)
    ensures ParseSigned(sign + digits) == Some(if sign == "-" then -(DigitsValue(digits) as int) else DigitsValue(digits) as int)
  {
    if sign == "" {
      assert sign + digits == digits;
    } else {
      assert (sign + digits)[0] == sign[0] && (sign + digits)[1..] == digits;
    }
  }

  /** `int()` refuses a string that is empty or a bare sign once stripped. */
  lemma ParseIntLiteralRejectsEmpty(s: string)
    requires Strip(s) == "" || Strip(s) == "+" || Strip(s) == "-"
    ensures ParseIntLiteral(s) == None
  {
    assert Strip(s) != [] ==> Strip(s)[1..] == [];
  }

  /** Whatever `int()` accepts is, once stripped, an optional sign followed by
      digits with single underscores between them. */
  lemma ParseIntLiteralShape(s: string)
    requires ParseIntLiteral(s).Some?
    ensures var t := Strip(s);
      && t != []
      && var body := if t[0] == '+' || t[0] == '-' then t[1..] else t;
      && body != [] && IsDigit(body[0]) && IsDigit(body[|body| - 1])
      && forall i :: 0 <= i < |body| ==> IsDigit(body[i]) || body[i] == '_'
  {
    var t := Strip(s);
    var body := if t[0] == '+' || t[0] == '-' then t[1..] else t;
    assert IsIntBody(body);
    forall i | 0 <= i < |body| ensures IsDigit(body[i]) || body[i] == '_' {
      if i + 1 < |body| {
        var next := body[i + 1];
      }
    }
  }

  /** `int(x)` truncates a float toward zero. */
  function TruncateToInt(r: real): (n: int)
    ensures r >= 0.0 ==> n as real <= r < n as real + 1.0
    ensures r < 0.0 ==> n as real - 1.0 < r <= n as real
  {
    if r >= 0.0 then r.Floor else -((-r).Floor)
  }

  /** `int(x)`; None stands for the ValueError or TypeError it raises. */
  function PyInt(j: Json): (r: Option<int>)
    ensures j.JInt? ==> r == Some(j.i)
    ensures j.JBool? ==> r == Some(if j.b then 1 else 0)
    ensures j.JFloat? ==> r.Some?
    ensures j.JFloat? && j.r >= 0.0 ==> r.value as real <= j.r < r.value as real + 1.0
    ensures j.JFloat? && j.r < 0.0 ==> r.value as real - 1.0 < j.r <= r.value as real
    ensures j.JNull? || j.JArray? || j.JObject? ==> r == None
  {
    match j
    case JBool(b) => Some(if b then 1 else 0)
    case JInt(i) => Some(i)
    case JFloat(x) => Some(TruncateToInt(x))
    case JString(s) => ParseIntLiteral(s)
    case _ => None
  }
}
