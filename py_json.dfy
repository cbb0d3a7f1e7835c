/** The JSON values the backend receives from the upstream football provider, with the Python
  * semantics the handlers rely on: `dict.get`, subscripts, slices, truthiness, `or`, comparison,
  * `==` against an int, and division. Every Python exception is an `Exc` carried by a `Result`. */
module PyJson {
  import opened Wrappers
  import Text

  /** A decoded JSON value. Objects are maps from their (string) keys; numbers are integers. */
  datatype Json =
    | JNull
    | JBool(b: bool)
    | JInt(i: int)
    | JStr(s: string)
    | JList(items: seq<Json>)
    | JDict(fields: map<string, Json>)

  /** The Python exceptions the handlers can meet, other than FastAPI's `HTTPException`.
    * `RequestTimeout` and `RequestFailure` are the `requests` library's `Timeout` and its other
    * `RequestException`s; `ValidationError` is pydantic's, raised when a model is built from a
    * value of the wrong type. */
  datatype Exc =
    | KeyError
    | IndexError
    | TypeError
    | AttributeError
    | ValueError
    | ZeroDivisionError
    | RequestTimeout
    | RequestFailure
    | ValidationError

  type PyResult<T> = Result<T, Exc>

  /** FastAPI's `HTTPException(status_code, detail)`: what a handler answers when it fails. */
  datatype HttpError = HttpError(status: int, detail: string)

  /** What a `try` block can raise: a Python exception or an `HTTPException`. */
  datatype Raised = Py(exc: Exc) | Http(error: HttpError)

  type TryResult<T> = Result<T, Raised>

  const EmptyDict: Json := JDict(map[])
  const EmptyList: Json := JList([])

  /** Python truthiness: None, False, 0, "" and empty containers are false. */
  predicate Truthy(j: Json) {
    match j
    case JNull => false
    case JBool(b) => b
    case JInt(i) => i != 0
    case JStr(s) => s != ""
    case JList(xs) => xs != []
    case JDict(m) => m != map[]
  }

  /** `a or b`: `a` when it is truthy, else `b`. */
  function Or(a: Json, b: Json): (r: Json)
    ensures Truthy(a) ==> r == a
    ensures !Truthy(a) ==> r == b
  {
    if Truthy(a) then a else b
  }

  /** `d.get(k, default)`; a value that is not a dict has no `get` (AttributeError). */
  function Get(d: Json, k: string, default: Json): (r: PyResult<Json>)
    ensures r.Ok? <==> d.JDict?
    ensures d.JDict? && k in d.fields ==> r == Ok(d.fields[k])
    ensures d.JDict? && k !in d.fields ==> r == Ok(default)
  {
    match d
    case JDict(m) => Ok(if k in m then m[k] else default)
    case _ => Raise(AttributeError)
  }

  /** The fields of a dict, for a run of `.get` calls on it: any other value has no `get`. Taking
    * them once lets the later calls be plain lookups that cannot fail. */
  function Fields(d: Json): (r: PyResult<map<string, Json>>)
    ensures r.Ok? <==> d.JDict?
    ensures d.JDict? ==> r == Ok(d.fields)
  {
    match d
    case JDict(m) => Ok(m)
    case _ => Raise(AttributeError)
  }

  /** `m.get(k, default)` on a dict's fields. */
  function At(m: map<string, Json>, k: string, default: Json): (r: Json)
    ensures k in m ==> r == m[k]
    ensures k !in m ==> r == default
  {
    if k in m then m[k] else default
  }

  /** `m[k]` on a dict's fields. */
  function Key(m: map<string, Json>, k: string): (r: PyResult<Json>)
    ensures r.Ok? <==> k in m
    ensures k in m ==> r.value == m[k]
  {
    if k in m then Ok(m[k]) else Raise(KeyError)
  }

  /** The first-block idiom `m.get(k, [{}])[0] if m.get(k) else {}`: the first element of a
    * truthy entry, or an empty dict. */
  function FirstOrEmpty(m: map<string, Json>, k: string): (r: PyResult<Json>)
    ensures !Truthy(At(m, k, JNull)) ==> r == Ok(EmptyDict)
    ensures Truthy(At(m, k, JNull)) ==> r == Nth(m[k], 0)
  {
    var v := At(m, k, JNull);
    if Truthy(v) then Nth(v, 0) else Ok(EmptyDict)
  }

  /** `d[k]` with a string key: KeyError on a dict without `k`, TypeError on a list or a string
    * (their indices are ints) and on values that cannot be subscripted. */
  function Index(d: Json, k: string): (r: PyResult<Json>)
    ensures r.Ok? <==> d.JDict? && k in d.fields
    ensures r.Ok? ==> r.value == d.fields[k]
  {
    match d
    case JDict(m) => if k in m then Ok(m[k]) else Raise(KeyError)
    case _ => Raise(TypeError)
  }

  /** `x[n]` with an int index, negative indices counting from the end. A dict is looked up with
    * the int key, which a decoded JSON object never has. */
  function Nth(x: Json, n: int): (r: PyResult<Json>)
    ensures x.JList? && 0 <= n < |x.items| ==> r == Ok(x.items[n])
    ensures x.JList? && (n >= |x.items| || n < -|x.items|) ==> r == Raise(IndexError)
  {
    match x
    case JList(xs) =>
      if 0 <= n < |xs| then Ok(xs[n])
      else if -|xs| <= n < 0 then Ok(xs[|xs| + n])
      else Raise(IndexError)
    case JStr(s) =>
      if 0 <= n < |s| then Ok(JStr([s[n]]))
      else if -|s| <= n < 0 then Ok(JStr([s[|s| + n]]))
      else Raise(IndexError)
    case JDict(_) => Raise(KeyError)
    case _ => Raise(TypeError)
  }

  /** `len(x)` (TypeError for values without a length). */
  function Len(x: Json): (r: PyResult<nat>)
    ensures x.JList? ==> r == Ok(|x.items|)
    ensures r.Ok? <==> x.JList? || x.JStr? || x.JDict?
  {
    match x
    case JList(xs) => Ok(|xs|)
    case JStr(s) => Ok(|s|)
    case JDict(m) => Ok(|m|)
    case _ => Raise(TypeError)
  }

  /** Python's normalisation of a slice bound against a length. */
  function SliceBound(n: int, len: nat): (r: nat)
    ensures r <= len
    ensures 0 <= n <= len ==> r == n
  {
    if n < 0 then (if len + n < 0 then 0 else len + n) else if n > len then len else n
  }

  /** `x[lo:hi]` on a list or a string (TypeError on a dict and on anything else). */
  function Slice(x: Json, lo: int, hi: int): (r: PyResult<Json>)
    ensures r.Ok? <==> x.JList? || x.JStr?
  {
    match x
    case JList(xs) =>
      var a, b := SliceBound(lo, |xs|), SliceBound(hi, |xs|);
      Ok(JList(if a <= b then xs[a..b] else []))
    case JStr(s) =>
      var a, b := SliceBound(lo, |s|), SliceBound(hi, |s|);
      Ok(JStr(if a <= b then s[a..b] else ""))
    case _ => Raise(TypeError)
  }

  /** `x[:n]`. */
  function Take(x: Json, n: int): (r: PyResult<Json>)
    ensures x.JList? && n >= 0 ==> r == Ok(JList(Text.FirstN(x.items, n)))
  {
    Slice(x, 0, n)
  }

  /** `x[-n:]` for a positive n. */
  function TakeLast(x: Json, n: nat): (r: PyResult<Json>)
    requires n > 0
    ensures x.JList? ==> r == Ok(JList(Text.LastN(x.items, n)))
  {
    var r := Slice(x, -(n as int), if x.JList? then |x.items| else if x.JStr? then |x.s| else 0);
    assert x.JList? ==> x.items[0..|x.items|] == x.items;
    r
  }

  /** The elements a `for` loop visits. A string yields its characters. A dict yields its keys;
    * every loop of this model applies `.get` or a string subscript to each element, which fails on
    * a key, so a non-empty dict is modelled by that failure directly. */
  function Elements(x: Json): (r: PyResult<seq<Json>>)
    ensures x.JList? ==> r == Ok(x.items)
    ensures r.Ok? ==> |r.value| == 0 || x.JList? || x.JStr?
  {
    match x
    case JList(xs) => Ok(xs)
    case JStr(s) => Ok(seq(|s|, i requires 0 <= i < |s| => JStr([s[i]])))
    case JDict(m) => if m == map[] then Ok([]) else Raise(AttributeError)
    case _ => Raise(TypeError)
  }

  /** The number a value stands for in arithmetic and comparisons (bool counts as 0/1). */
  function AsNumber(x: Json): (r: Option<int>)
    ensures r.Some? <==> x.JInt? || x.JBool?
    ensures x.JInt? ==> r == Some(x.i)
  {
    match x
    case JInt(i) => Some(i)
    case JBool(b) => Some(if b then 1 else 0)
    case _ => None
  }

  /** `x == n` for an int `n` (False == 0 and True == 1 in Python). */
  predicate EqInt(x: Json, n: int) {
    AsNumber(x) == Some(n)
  }

  /** Python's three-way comparison of two values: numbers with numbers and strings with strings;
    * every other pairing raises TypeError (comparisons of lists are not part of this model). */
  function Compare(a: Json, b: Json): (r: PyResult<int>)
    ensures r.Ok? ==> -1 <= r.value <= 1
    ensures r.Ok? <==> (a.JStr? && b.JStr?) || (AsNumber(a).Some? && AsNumber(b).Some?)
    ensures AsNumber(a).Some? && AsNumber(b).Some? ==>
      r.Ok? && (r.value < 0 <==> AsNumber(a).value < AsNumber(b).value)
            && (r.value > 0 <==> AsNumber(a).value > AsNumber(b).value)
  {
    if a.JStr? && b.JStr? then
      Ok(if Text.LexLess(a.s, b.s) then -1 else if Text.LexLess(b.s, a.s) then 1 else 0)
    else if AsNumber(a).Some? && AsNumber(b).Some? then
      var x, y := AsNumber(a).value, AsNumber(b).value;
      Ok(if x < y then -1 else if x > y then 1 else 0)
    else Raise(TypeError)
  }

  /** `d.get(k1, {}).get(k2, {}) ... .get(kn, default)`: the nested-default idiom of the handlers. */
  function GetPath(d: Json, path: seq<string>, default: Json): (r: PyResult<Json>)
    requires |path| >= 1
    ensures |path| == 1 ==> r == Get(d, path[0], default)
    decreases |path|
  {
    if |path| == 1 then Get(d, path[0], default)
    else
      var x :- Get(d, path[0], EmptyDict);
      GetPath(x, path[1..], default)
  }

  /** `d[k1][k2] ... [kn]`. */
  function IndexPath(d: Json, path: seq<string>): (r: PyResult<Json>)
    requires |path| >= 1
    ensures |path| == 1 ==> r == Index(d, path[0])
    decreases |path|
  {
    if |path| == 1 then Index(d, path[0])
    else
      var x :- Index(d, path[0]);
      IndexPath(x, path[1..])
  }

  /** A two-step path into a dict: the second key looked up in the value of the first. */
  lemma IndexPathTwo(d: Json, a: string, b: string)
    requires d.JDict? && a in d.fields
    ensures IndexPath(d, [a, b]) == Index(d.fields[a], b)
  {
    assert [a, b][1..] == [b];
  }

  /** A three-step path through two nested dicts. */
  lemma IndexPathThree(d: Json, a: string, b: string, c: string)
    requires d.JDict? && a in d.fields && d.fields[a].JDict? && b in d.fields[a].fields
    ensures IndexPath(d, [a, b, c]) == Index(d.fields[a].fields[b], c)
  {
    assert [a, b, c][1..] == [b, c];
    IndexPathTwo(d.fields[a], b, c);
  }

  /** `a > b`. */
  function Greater(a: Json, b: Json): (r: PyResult<bool>)
    ensures r.Ok? <==> Compare(a, b).Ok?
  {
    var c :- Compare(a, b);
    Ok(c > 0)
  }

  /** `a + b` on numbers (string and list concatenation are not used by the handlers modelled). */
  function Add(a: Json, b: Json): (r: PyResult<int>)
    ensures AsNumber(a).Some? && AsNumber(b).Some? ==> r == Ok(AsNumber(a).value + AsNumber(b).value)
  {
    if AsNumber(a).Some? && AsNumber(b).Some? then Ok(AsNumber(a).value + AsNumber(b).value)
    else Raise(TypeError)
  }

  /** `a - b` on numbers. */
  function Sub(a: Json, b: Json): (r: PyResult<int>)
    ensures AsNumber(a).Some? && AsNumber(b).Some? ==> r == Ok(AsNumber(a).value - AsNumber(b).value)
  {
    if AsNumber(a).Some? && AsNumber(b).Some? then Ok(AsNumber(a).value - AsNumber(b).value)
    else Raise(TypeError)
  }

  /** True division `a / b` of two numbers, as an exact quotient. */
  function Div(a: Json, b: Json): (r: PyResult<real>)
    ensures r.Ok? ==> AsNumber(a).Some? && AsNumber(b).Some? && AsNumber(b).value != 0
    ensures r.Ok? ==> r.value * (AsNumber(b).value as real) == AsNumber(a).value as real
  {
    if AsNumber(a).Some? && AsNumber(b).Some? then
      var x, y := AsNumber(a).value, AsNumber(b).value;
      if y == 0 then Raise(ZeroDivisionError) else Ok(x as real / y as real)
    else Raise(TypeError)
  }

  /** A computation that can only raise Python exceptions, seen from a `try` block. */
  function Lift<T>(r: PyResult<T>): (s: TryResult<T>)
    ensures r.Ok? <==> s.Ok?
    ensures r.Ok? ==> s.value == r.value
    ensures r.Raise? ==> s == Raise(Py(r.error))
  {
    match r
    case Ok(v) => Ok(v)
    case Raise(e) => Raise(Py(e))
  }

  /** A handler body that cannot raise an `HTTPException`, under `except Exception as e: raise
    * HTTPException(500, f"{detail}: {e}")`: every exception becomes a 500. */
  function Internal<T>(r: PyResult<T>, detail: string): (s: Result<T, HttpError>)
    ensures r.Ok? <==> s.Ok?
    ensures r.Ok? ==> s.value == r.value
    ensures r.Raise? ==> s == Raise(HttpError(500, detail))
  {
    match r
    case Ok(v) => Ok(v)
    case Raise(_) => Raise(HttpError(500, detail))
  }

  /** A handler body under `except HTTPException: raise` and then `except Exception: 500`:
    * HTTP errors pass through unchanged, every other exception becomes a 500. */
  function ReraiseHttp<T>(r: TryResult<T>, detail: string): (s: Result<T, HttpError>)
    ensures r.Ok? <==> s.Ok?
    ensures r.Ok? ==> s.value == r.value
    ensures r.Raise? && r.error.Http? ==> s == Raise(r.error.error)
    ensures r.Raise? && r.error.Py? ==> s == Raise(HttpError(500, detail))
  {
    match r
    case Ok(v) => Ok(v)
    case Raise(Http(e)) => Raise(e)
    case Raise(Py(_)) => Raise(HttpError(500, detail))
  }

  /** A handler body under only `except Exception: 500`: an `HTTPException` raised inside the
    * `try` is caught too and also becomes a 500. */
  function SwallowAll<T>(r: TryResult<T>, detail: string): (s: Result<T, HttpError>)
    ensures r.Ok? <==> s.Ok?
    ensures r.Ok? ==> s.value == r.value
    ensures r.Raise? ==> s == Raise(HttpError(500, detail))
  {
    match r
    case Ok(v) => Ok(v)
    case Raise(_) => Raise(HttpError(500, detail))
  }

  /** A value `f"{x}"` can render here: None, a bool, an int or a string. */
  predicate IsScalar(x: Json) {
    x.JNull? || x.JBool? || x.JInt? || x.JStr?
  }

  /** `str(x)` for a scalar. */
  function ScalarText(x: Json): (s: string)
    requires IsScalar(x)
    ensures x.JStr? ==> s == x.s
    ensures x.JInt? ==> s == Text.IntToString(x.i)
  {
    match x
    case JNull => "None"
    case JBool(b) => if b then "True" else "False"
    case JInt(i) => Text.IntToString(i)
    case JStr(t) => t
  }

  /** The whitespace `int()` strips from a string: the ASCII spaces ' ' and '\t' to '\r', and
    * every non-ASCII character `str.isspace` accepts. The ASCII separators '\x1c' to '\x1f' are
    * white space to `str.isspace` but not to `int()`, which tests ASCII characters on their own. */
  predicate IsSpace(c: char) {
    c == ' ' || '\t' <= c <= '\r' ||
    c == '\U{0085}' || c == '\U{00A0}' || c == '\U{1680}' || '\U{2000}' <= c <= '\U{200A}' ||
    c == '\U{2028}' || c == '\U{2029}' || c == '\U{202F}' || c == '\U{205F}' || c == '\U{3000}'
  }

  /** The value of `c` in the run of ten digits that starts at the code point `zero`. */
  function DigitRun(c: int, zero: int): (d: Option<nat>)
    ensures d.Some? ==> d.value < 10 && c == zero + d.value
  {
    if zero <= c < zero + 10 then Some(c - zero) else None
  }

  /** A binary search over the first code points (the zeros) of the 67 runs of non-ASCII Unicode
    * decimal digits, general category Nd, each run holding the digits 0 to 9 in order. */
  function OtherDigitValue(c: int): (d: Option<nat>)
    ensures d.Some? ==> d.value < 10
  {
    if c < 0xAA50 then
      if c < 0x1040 then
        if c < 0xBE6 then
          if c < 0x9E6 then
            if c < 0x7C0 then
              if c < 0x6F0 then DigitRun(c, 0x660) else DigitRun(c, 0x6F0)
            else
              if c < 0x966 then DigitRun(c, 0x7C0) else DigitRun(c, 0x966)
          else
            if c < 0xAE6 then
              if c < 0xA66 then DigitRun(c, 0x9E6) else DigitRun(c, 0xA66)
            else
              if c < 0xB66 then DigitRun(c, 0xAE6) else DigitRun(c, 0xB66)
        else
          if c < 0xDE6 then
            if c < 0xCE6 then
              if c < 0xC66 then DigitRun(c, 0xBE6) else DigitRun(c, 0xC66)
            else
              if c < 0xD66 then DigitRun(c, 0xCE6) else DigitRun(c, 0xD66)
          else
            if c < 0xED0 then
              if c < 0xE50 then DigitRun(c, 0xDE6) else DigitRun(c, 0xE50)
            else
              if c < 0xF20 then DigitRun(c, 0xED0) else DigitRun(c, 0xF20)
      else
        if c < 0x1B50 then
          if c < 0x1946 then
            if c < 0x17E0 then
              if c < 0x1090 then DigitRun(c, 0x1040) else DigitRun(c, 0x1090)
            else
              if c < 0x1810 then DigitRun(c, 0x17E0) else DigitRun(c, 0x1810)
          else
            if c < 0x1A80 then
              if c < 0x19D0 then DigitRun(c, 0x1946) else DigitRun(c, 0x19D0)
            else
              if c < 0x1A90 then DigitRun(c, 0x1A80) else DigitRun(c, 0x1A90)
        else
          if c < 0xA620 then
            if c < 0x1C40 then
              if c < 0x1BB0 then DigitRun(c, 0x1B50) else DigitRun(c, 0x1BB0)
            else
              if c < 0x1C50 then DigitRun(c, 0x1C40) else DigitRun(c, 0x1C50)
          else
            if c < 0xA900 then
              if c < 0xA8D0 then DigitRun(c, 0xA620) else DigitRun(c, 0xA8D0)
            else
              if c < 0xA9D0 then DigitRun(c, 0xA900) else if c < 0xA9F0 then DigitRun(c, 0xA9D0) else DigitRun(c, 0xA9F0)
    else
      if c < 0x11C50 then
        if c < 0x111D0 then
          if c < 0x10D30 then
            if c < 0xFF10 then
              if c < 0xABF0 then DigitRun(c, 0xAA50) else DigitRun(c, 0xABF0)
            else
              if c < 0x104A0 then DigitRun(c, 0xFF10) else DigitRun(c, 0x104A0)
          else
            if c < 0x110F0 then
              if c < 0x11066 then DigitRun(c, 0x10D30) else DigitRun(c, 0x11066)
            else
              if c < 0x11136 then DigitRun(c, 0x110F0) else DigitRun(c, 0x11136)
        else
          if c < 0x11650 then
            if c < 0x11450 then
              if c < 0x112F0 then DigitRun(c, 0x111D0) else DigitRun(c, 0x112F0)
            else
              if c < 0x114D0 then DigitRun(c, 0x11450) else DigitRun(c, 0x114D0)
          else
            if c < 0x11730 then
              if c < 0x116C0 then DigitRun(c, 0x11650) else DigitRun(c, 0x116C0)
            else
              if c < 0x118E0 then DigitRun(c, 0x11730) else if c < 0x11950 then DigitRun(c, 0x118E0) else DigitRun(c, 0x11950)
      else
        if c < 0x1D7D8 then
          if c < 0x16A60 then
            if c < 0x11DA0 then
              if c < 0x11D50 then DigitRun(c, 0x11C50) else DigitRun(c, 0x11D50)
            else
              if c < 0x11F50 then DigitRun(c, 0x11DA0) else DigitRun(c, 0x11F50)
          else
            if c < 0x16B50 then
              if c < 0x16AC0 then DigitRun(c, 0x16A60) else DigitRun(c, 0x16AC0)
            else
              if c < 0x1D7CE then DigitRun(c, 0x16B50) else DigitRun(c, 0x1D7CE)
        else
          if c < 0x1E140 then
            if c < 0x1D7EC then
              if c < 0x1D7E2 then DigitRun(c, 0x1D7D8) else DigitRun(c, 0x1D7E2)
            else
              if c < 0x1D7F6 then DigitRun(c, 0x1D7EC) else DigitRun(c, 0x1D7F6)
          else
            if c < 0x1E4F0 then
              if c < 0x1E2F0 then DigitRun(c, 0x1E140) else DigitRun(c, 0x1E2F0)
            else
              if c < 0x1E950 then DigitRun(c, 0x1E4F0) else if c < 0x1FBF0 then DigitRun(c, 0x1E950) else DigitRun(c, 0x1FBF0)
  }

  /** The decimal value `int()` and `\d` give a character: some for the Unicode decimal digits,
    * none for every other character. */
  function DigitValue(c: char): (d: Option<nat>)
    ensures d.Some? ==> d.value < 10
  {
    if '0' <= c <= '9' then Some(c as int - '0' as int)
    else if c < '\U{0660}' then None
    else OtherDigitValue(c as int)
  }

  predicate IsDigitChar(c: char) {
    DigitValue(c).Some?
  }

  function StripLeft(s: string): (r: string)
    ensures |r| <= |s| && r == s[|s| - |r|..]
    ensures r == [] || !IsSpace(r[0])
    ensures forall k :: 0 <= k < |s| - |r| ==> IsSpace(s[k])
  {
    if s == [] || !IsSpace(s[0]) then s else StripLeft(s[1..])
  }

  function StripRight(s: string): (r: string)
    ensures |r| <= |s| && r == s[..|r|]
    ensures r == [] || !IsSpace(r[|r| - 1])
    ensures forall k :: |r| <= k < |s| ==> IsSpace(s[k])
  {
    if s == [] || !IsSpace(s[|s| - 1]) then s else StripRight(s[..|s| - 1])
  }

  /** `s.strip()`: the string without its leading and trailing whitespace. */
  function Strip(s: string): (r: string)
    ensures r == [] || (!IsSpace(r[0]) && !IsSpace(r[|r| - 1]))
    ensures (forall k :: 0 <= k < |s| ==> !IsSpace(s[k])) ==> r == s
  {
    StripRight(StripLeft(s))
  }

  /** One white space before a literal is stripped on the left. */
  lemma StripOneSpace(c: char, t: string)
    requires IsSpace(c) && t != [] && !IsSpace(t[0])
    ensures StripLeft([c] + t) == t
  {
    assert ([c] + t)[1..] == t;
  }

  /** One white space after a literal is stripped on the right. */
  lemma StripOneSpaceRight(t: string, c: char)
    requires IsSpace(c) && t != [] && !IsSpace(t[|t| - 1])
    ensures StripRight(t + [c]) == t
  {
    assert (t + [c])[..|t|] == t;
  }

  /** No two underscores in a row. */
  predicate NoDoubleUnderscore(u: string)
    decreases |u|
  {
    |u| < 2 || (!(u[0] == '_' && u[1] == '_') && NoDoubleUnderscore(u[1..]))
  }

  /** A base-10 integer literal as `int()` reads it: digits, with single underscores allowed
    * between two digits. */
  predicate DecimalLiteral(u: string) {
    && |u| >= 1
    && IsDigitChar(u[0]) && IsDigitChar(u[|u| - 1])
    && (forall i :: 0 <= i < |u| ==> IsDigitChar(u[i]) || u[i] == '_')
    && NoDoubleUnderscore(u)
  }

  /** The value of a literal, its underscores ignored. */
  function LiteralValue(u: string): (v: nat)
    requires forall i :: 0 <= i < |u| ==> IsDigitChar(u[i]) || u[i] == '_'
  {
    if u == [] then 0
    else if u[|u| - 1] == '_' then LiteralValue(u[..|u| - 1])
    else
      assert IsDigitChar(u[|u| - 1]);
      LiteralValue(u[..|u| - 1]) * 10 + DigitValue(u[|u| - 1]).value
  }

  /** The integer an already stripped string denotes: an optional sign and a decimal literal. */
  function SignedLiteral(t: string): (r: Option<int>)
  {
    if |t| >= 1 && (t[0] == '-' || t[0] == '+') then
      if DecimalLiteral(t[1..]) then
        var v: int := LiteralValue(t[1..]);
        Some(if t[0] == '-' then -v else v)
      else None
    else if DecimalLiteral(t) then Some(LiteralValue(t))
    else None
  }

  /** The integer `int(s)` reads from a string: surrounding whitespace, an optional sign and a
    * decimal literal; None where `int()` raises ValueError. */
  function IntLiteral(s: string): (r: Option<int>)
    ensures (forall k :: 0 <= k < |s| ==> !IsSpace(s[k])) ==> r == SignedLiteral(s)
  {
    SignedLiteral(Strip(s))
  }

  /** `int(x)`: an int is itself, a bool is 0 or 1, a string is parsed (ValueError when it is
    * not a literal), and None, a list or a dict raise TypeError. */
  function PyInt(x: Json): (r: PyResult<int>)
    ensures x.JInt? ==> r == Ok(x.i)
    ensures x.JBool? ==> r == Ok(if x.b then 1 else 0)
    ensures x.JStr? ==> (r.Ok? <==> IntLiteral(x.s).Some?)
    ensures x.JStr? && r.Ok? ==> r.value == IntLiteral(x.s).value
    ensures r.Raise? ==> (r.error == ValueError <==> x.JStr?)
    ensures r.Raise? ==> (r.error == TypeError <==> (x.JNull? || x.JList? || x.JDict?))
  {
    match x
    case JInt(i) => Ok(i)
    case JBool(b) => Ok(if b then 1 else 0)
    case JStr(t) => if IntLiteral(t).Some? then Ok(IntLiteral(t).value) else Raise(ValueError)
    case _ => Raise(TypeError)
  }

  /** On the ASCII digits a literal's value is their decimal value. */
  lemma {:induction false} LiteralValueOfDigits(u: string)
    requires forall i :: 0 <= i < |u| ==> '0' <= u[i] <= '9'
    ensures forall i :: 0 <= i < |u| ==> IsDigitChar(u[i])
    ensures LiteralValue(u) == Text.DigitsValue(u)
    ensures NoDoubleUnderscore(u)
  {
    if u != [] {
      LiteralValueOfDigits(u[..|u| - 1]);
      LiteralValueOfDigitsTail(u);
    }
  }

  lemma {:induction false} LiteralValueOfDigitsTail(u: string)
    requires forall i :: 0 <= i < |u| ==> '0' <= u[i] <= '9'
    ensures NoDoubleUnderscore(u)
    decreases |u|
  {
    if |u| >= 2 {
      LiteralValueOfDigitsTail(u[1..]);
    }
  }

  /** A rendering is made of '-' and ASCII digits, none of them white space. */
  lemma RenderingHasNoSpace(s: string)
    requires forall k :: 0 <= k < |s| ==> s[k] == '-' || '0' <= s[k] <= '9'
    ensures forall k :: 0 <= k < |s| ==> !IsSpace(s[k])
  {
  }

  /** A decimal rendering reads back as its value. */
  lemma IntLiteralOfNatToString(m: nat)
    ensures DecimalLiteral(Text.NatToString(m))
    ensures forall k :: 0 <= k < |Text.NatToString(m)| ==> !IsSpace(Text.NatToString(m)[k])
    ensures LiteralValue(Text.NatToString(m)) == m
  {
    var d := Text.NatToString(m);
    LiteralValueOfDigits(d);
    Text.NatToStringValue(m);
    RenderingHasNoSpace(d);
  }

  /** With a leading '-' a literal reads as its negated value. */
  lemma SignedLiteralNegated(d: string)
    requires DecimalLiteral(d)
    ensures SignedLiteral("-" + d) == Some(-(LiteralValue(d) as int))
  {
    assert ("-" + d)[1..] == d;
  }

  /** `int(str(n)) == n`: the rendering of an integer reads back as the integer. */
  lemma IntLiteralOfIntToString(n: int)
    ensures IntLiteral(Text.IntToString(n)) == Some(n)
  {
    var m: nat := if n < 0 then -n else n;
    var d := Text.NatToString(m);
    IntLiteralOfNatToString(m);
    var s := Text.IntToString(n);
    RenderingHasNoSpace(s);
    assert IntLiteral(s) == SignedLiteral(s);
    if n < 0 {
      assert s == "-" + d;
      SignedLiteralNegated(d);
    } else {
      assert s == d && s[0] != '-' && s[0] != '+';
    }
  }
}
