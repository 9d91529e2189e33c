/** The few Python built-ins the backend agents rely on, with the exceptions
    they raise: `str.find`, `str.rfind`, slicing, `str.strip`, `len`,
    `dict.get` and truthiness. */
module Python {
  import opened Results
  import opened Json

  datatype ExceptionKind = TypeError | AttributeError | KeyError | IndexError | ConnectionError | AgentError

  /** A raised exception; `text` is what `str(e)` gives. */
  datatype Exception = Exception(kind: ExceptionKind, text: string)

  // ---------------------------------------------------------------- strings

  /** `s.find(c)`: the first index of `c`, or -1. */
  function Find(s: string, c: char): (i: int)
    ensures -1 <= i < |s|
    ensures i == -1 <==> c !in s
    ensures i >= 0 ==> s[i] == c && c !in s[..i]
  {
    if |s| == 0 then -1
    else if s[0] == c then 0
    else
      var k := Find(s[1..], c);
      if k == -1 then -1 else k + 1
  }

  /** `s.rfind(c)`: the last index of `c`, or -1. */
  function RFind(s: string, c: char): (i: int)
    ensures -1 <= i < |s|
    ensures i == -1 <==> c !in s
    ensures i >= 0 ==> s[i] == c && c !in s[i + 1..]
  {
    if |s| == 0 then -1
    else if s[|s| - 1] == c then |s| - 1
    else
      var k := RFind(s[..|s| - 1], c);
      assert k >= 0 ==> s[k + 1..] == s[..|s| - 1][k + 1..] + [s[|s| - 1]];
      k
  }

  /** A slice bound as Python normalises it: negative counts from the end,
      then clamped to `[0, len]`. */
  function SliceBound(i: int, len: nat): (b: nat)
    ensures b <= len
    ensures 0 <= i <= len ==> b == i
    ensures -(len as int) <= i < 0 ==> b as int == i + len as int
  {
    var j := if i < 0 then i + len else i;
    if j < 0 then 0 else if j > len then len else j
  }

  /** `s[start:stop]`. */
  function Slice(s: string, start: int, stop: int): (r: string)
    ensures |r| <= |s|
    ensures 0 <= start <= stop <= |s| ==> r == s[start..stop]
    ensures SliceBound(stop, |s|) <= SliceBound(start, |s|) ==> r == ""
  {
    var a, b := SliceBound(start, |s|), SliceBound(stop, |s|);
    if a < b then s[a..b] else ""
  }

  /** Characters `str.isspace` accepts. */
  predicate IsSpace(c: char) {
    c == ' ' || '\t' <= c <= '\r' || '\U{1C}' <= c <= '\U{1F}'
    || c == '\U{85}' || c == '\U{A0}' || c == '\U{1680}' || '\U{2000}' <= c <= '\U{200A}'
    || c == '\U{2028}' || c == '\U{2029}' || c == '\U{202F}' || c == '\U{205F}' || c == '\U{3000}'
  }

  function StripLeft(s: string): (r: string)
    ensures |r| <= |s| && r == s[|s| - |r|..]
    ensures r == [] || !IsSpace(r[0])
    ensures forall i :: 0 <= i < |s| - |r| ==> IsSpace(s[i])
  {
    if |s| > 0 && IsSpace(s[0]) then StripLeft(s[1..]) else s
  }

  function StripRight(s: string): (r: string)
    ensures |r| <= |s| && r == s[..|r|]
    ensures r == [] || !IsSpace(r[|r| - 1])
    ensures forall i :: |r| <= i < |s| ==> IsSpace(s[i])
  {
    if |s| > 0 && IsSpace(s[|s| - 1]) then StripRight(s[..|s| - 1]) else s
  }

  /** `s.strip()`. */
  function Strip(s: string): string {
    StripRight(StripLeft(s))
  }

  // ------------------------------------------------------- decoded values

  /** `bool(v)`. */
  predicate Truthy(v: Json) {
    match v
    case JNull => false
    case JBool(b) => b
    case JNum(n) => n != 0
    case JStr(s) => s != ""
    case JArr(xs) => xs != []
    case JObj(fs) => fs != []
  }

  /** `len(v)`: defined for strings, lists and dicts only; a dict counts each
      key once, as the dict `json.loads` builds keeps one entry per key. */
  function Len(v: Json): (r: Result<nat, Exception>)
    ensures r.Success? <==> v.JStr? || v.JArr? || v.JObj?
    ensures v.JStr? ==> r == Success(|v.s|)
    ensures v.JArr? ==> r == Success(|v.items|)
    ensures v.JObj? ==> r == Success(|Keys(v.fields)|)
    ensures v.JObj? && DistinctKeys(v.fields) ==> r == Success(|v.fields|)
    ensures r.Failure? ==> r.error.kind == TypeError
  {
    match v
    case JStr(s) => Success(|s|)
    case JArr(xs) => Success(|xs|)
    case JObj(fs) =>
      if DistinctKeys(fs) then DistinctKeysCount(fs); Success(|Keys(fs)|) else Success(|Keys(fs)|)
    case _ => Failure(Exception(TypeError, "object of type '" + TypeName(v) + "' has no len()"))
  }

  /** `v[:n]` for a non-negative `n`. */
  function Head(v: Json, n: nat): (r: Result<Json, Exception>)
    ensures r.Success? <==> v.JStr? || v.JArr?
    ensures v.JStr? ==> r == Success(JStr(v.s[..if |v.s| < n then |v.s| else n]))
    ensures v.JArr? ==> r == Success(JArr(v.items[..if |v.items| < n then |v.items| else n]))
    ensures r.Failure? ==> r.error.kind == TypeError
  {
    match v
    case JStr(s) => Success(JStr(s[..if |s| < n then |s| else n]))
    case JArr(xs) => Success(JArr(xs[..if |xs| < n then |xs| else n]))
    case JObj(_) => Failure(Exception(TypeError, "unhashable type: 'slice'"))
    case _ => Failure(Exception(TypeError, "'" + TypeName(v) + "' object is not subscriptable"))
  }

  /** `v.get(key, default)`: only a dict has `get`. */
  function DictGet(v: Json, key: string, default: Json): (r: Result<Json, Exception>)
    ensures r.Success? <==> v.JObj?
    ensures v.JObj? ==> r.value == Lookup(v.fields, key).GetOr(default)
    ensures r.Failure? ==> r.error.kind == AttributeError
  {
    if v.JObj? then Success(Lookup(v.fields, key).GetOr(default))
    else Failure(Exception(AttributeError, "'" + TypeName(v) + "' object has no attribute 'get'"))
  }

  /** A subscript key: `v[0]` or `v['name']`. */
  datatype Key = Index(i: int) | Name(k: string)

  /** `v[key]`, with the exception each kind of value raises. */
  function GetItem(v: Json, key: Key): (r: Result<Json, Exception>)
    ensures v.JObj? && key.Name? && Lookup(v.fields, key.k).Some? ==> r == Success(Lookup(v.fields, key.k).value)
    ensures v.JArr? && key.Index? && 0 <= key.i < |v.items| ==> r == Success(v.items[key.i])
    ensures v.JArr? && key.Index? && -|v.items| <= key.i < 0 ==> r == Success(v.items[key.i + |v.items|])
    ensures v.JObj? && (key.Index? || Lookup(v.fields, key.k).None?) ==> r.Failure? && r.error.kind == KeyError
    ensures v.JArr? && key.Index? && !(-|v.items| <= key.i < |v.items|) ==> r.Failure? && r.error.kind == IndexError
    ensures v.JArr? && key.Name? ==> r.Failure? && r.error.kind == TypeError
    ensures (v.JNull? || v.JBool? || v.JNum?) ==> r.Failure? && r.error.kind == TypeError
  {
    match v
    case JObj(fs) =>
      if key.Name? && Lookup(fs, key.k).Some? then Success(Lookup(fs, key.k).value)
      else Failure(Exception(KeyError, if key.Name? then "'" + key.k + "'" else IntToString(key.i)))
    case JArr(xs) =>
      if key.Name? then Failure(Exception(TypeError, "list indices must be integers or slices, not str"))
      else if -|xs| <= key.i < |xs| then Success(xs[if key.i < 0 then key.i + |xs| else key.i])
      else Failure(Exception(IndexError, "list index out of range"))
    case JStr(s) =>
      if key.Name? then Failure(Exception(TypeError, "string indices must be integers"))
      else if -|s| <= key.i < |s| then Success(JStr([s[if key.i < 0 then key.i + |s| else key.i]]))
      else Failure(Exception(IndexError, "string index out of range"))
    case _ => Failure(Exception(TypeError, "'" + TypeName(v) + "' object is not subscriptable"))
  }

  /** `sub in s` for strings. */
  predicate Contains(s: string, sub: string) {
    |sub| <= |s| && (s[..|sub|] == sub || Contains(s[1..], sub))
  }

  /** `name in v`: key membership for a dict, element membership for a list,
      substring for a string; numbers and booleans cannot be searched. */
  function In(name: string, v: Json): (r: Result<bool, Exception>)
    ensures v.JObj? ==> r == Success(Lookup(v.fields, name).Some?)
    ensures v.JArr? ==> r == Success(JStr(name) in v.items)
    ensures v.JStr? ==> r == Success(Contains(v.s, name))
    ensures r.Failure? <==> v.JNull? || v.JBool? || v.JNum?
    ensures r.Failure? ==> r.error.kind == TypeError
  {
    match v
    case JObj(fs) => Success(Lookup(fs, name).Some?)
    case JArr(xs) => Success(JStr(name) in xs)
    case JStr(s) => Success(Contains(s, name))
    case _ => Failure(Exception(TypeError, "argument of type '" + TypeName(v) + "' is not iterable"))
  }

  /** `ctx.get(key, default)` on an agent's context dict. */
  function ContextGet(ctx: map<string, Json>, key: string, default: Json): (r: Json)
    ensures key in ctx ==> r == ctx[key]
    ensures key !in ctx ==> r == default
  {
    if key in ctx then ctx[key] else default
  }
}
