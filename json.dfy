/** JSON values as the Python agents and the TypeScript client see them after
    decoding: `dict` objects are field lists in insertion order, numbers are
    integers. */
module Json {
  import opened Results

  datatype Json =
    | JNull
    | JBool(b: bool)
    | JNum(n: int)
    | JStr(s: string)
    | JArr(items: seq<Json>)
    | JObj(fields: seq<Field>)

  datatype Field = Field(key: string, value: Json)

  /** The value bound to `key` in a field list; a later binding of the same key
      hides an earlier one, as when Python builds a dict from a JSON object. */
  function Lookup(fields: seq<Field>, key: string): (r: Option<Json>)
    ensures r.Some? <==> exists i :: 0 <= i < |fields| && fields[i].key == key
    ensures r.Some? ==> exists i :: 0 <= i < |fields| && fields[i] == Field(key, r.value) && LastBinding(fields, key, i)
  {
    var n := |fields| - 1;
    if |fields| == 0 then None
    else if fields[n].key == key then Some(fields[n].value)
    else
      var r := Lookup(fields[..n], key);
      assert forall i :: 0 <= i < n ==> fields[..n][i] == fields[i];
      assert r.Some? ==> exists i :: 0 <= i < |fields| && fields[i] == Field(key, r.value) && LastBinding(fields, key, i) by {
        if r.Some? {
          var i :| 0 <= i < n && fields[..n][i] == Field(key, r.value) && LastBinding(fields[..n], key, i);
          assert fields[i] == Field(key, r.value) && LastBinding(fields, key, i);
        }
      }
      r
  }

  /** No field after the i-th binds `key` again. */
  predicate LastBinding(fields: seq<Field>, key: string, i: nat) {
    forall j :: i < j < |fields| ==> fields[j].key != key
  }

  /** The keys a field list binds: the keys of the dict it decodes to. */
  function Keys(fields: seq<Field>): (ks: set<string>)
    ensures forall k :: k in ks <==> Lookup(fields, k).Some?
    ensures |ks| <= |fields|
  {
    if |fields| == 0 then {}
    else
      var ks := Keys(fields[..|fields| - 1]) + {fields[|fields| - 1].key};
      assert forall k :: Lookup(fields, k).Some? <==> Lookup(fields[..|fields| - 1], k).Some? || k == fields[|fields| - 1].key by {
        forall k ensures Lookup(fields, k).Some? <==> Lookup(fields[..|fields| - 1], k).Some? || k == fields[|fields| - 1].key {
          if k != fields[|fields| - 1].key && Lookup(fields, k).Some? {
            var i :| 0 <= i < |fields| && fields[i].key == k;
            assert fields[..|fields| - 1][i].key == k;
          }
        }
      }
      ks
  }

  /** An object literal with distinct keys, as the agents' default values are written. */
  predicate DistinctKeys(fields: seq<Field>) {
    forall i, j :: 0 <= i < j < |fields| ==> fields[i].key != fields[j].key
  }

  lemma {:induction false} LookupDistinct(fields: seq<Field>, i: nat)
    requires DistinctKeys(fields) && i < |fields|
    ensures Lookup(fields, fields[i].key) == Some(fields[i].value)
  {
    var n := |fields| - 1;
    if i < n {
      assert fields[n].key != fields[i].key;
      assert fields[..n][i] == fields[i];
      assert DistinctKeys(fields[..n]) by {
        forall a, b | 0 <= a < b < n ensures fields[..n][a].key != fields[..n][b].key {
          assert fields[..n][a] == fields[a] && fields[..n][b] == fields[b];
        }
      }
      LookupDistinct(fields[..n], i);
    }
  }

  /** With distinct keys, the dict has one entry per field. */
  lemma {:induction false} DistinctKeysCount(fields: seq<Field>)
    requires DistinctKeys(fields)
    ensures |Keys(fields)| == |fields|
  {
    var n := |fields| - 1;
    if |fields| > 0 {
      assert DistinctKeys(fields[..n]) by {
        forall a, b | 0 <= a < b < n ensures fields[..n][a].key != fields[..n][b].key {
          assert fields[..n][a] == fields[a] && fields[..n][b] == fields[b];
        }
      }
      DistinctKeysCount(fields[..n]);
      assert Lookup(fields[..n], fields[n].key).None? by {
        forall i | 0 <= i < n ensures fields[..n][i].key != fields[n].key {
          assert fields[..n][i] == fields[i];
        }
      }
    }
  }

  /** Python's name for the type of a decoded value, used in exception texts. */
  function TypeName(j: Json): string {
    match j
    case JNull => "NoneType"
    case JBool(_) => "bool"
    case JNum(_) => "int"
    case JStr(_) => "str"
    case JArr(_) => "list"
    case JObj(_) => "dict"
  }

  predicate IsDigits(s: string) {
    forall i :: 0 <= i < |s| ==> '0' <= s[i] <= '9'
  }

  /** The number a string of decimal digits spells. */
  function DigitsValue(s: string): nat
    requires IsDigits(s)
  {
    if |s| == 0 then 0 else DigitsValue(s[..|s| - 1]) * 10 + (s[|s| - 1] as int - '0' as int)
  }

  /** Python's `str(n)` for a natural number: its decimal digits, without
      leading zeros. */
  function NatToString(n: nat): (s: string)
    ensures |s| > 0 && IsDigits(s)
    ensures DigitsValue(s) == n
    ensures s[0] == '0' ==> s == "0"
    decreases n
  {
    var d := ['0' + (n % 10) as char];
    if n < 10 then d
    else
      var p := NatToString(n / 10);
      assert (p + d)[..|p|] == p;
      p + d
  }

  function IntToString(n: int): string {
    if n < 0 then "-" + NatToString(-n) else NatToString(n)
  }

  /** How a nested value is written: Python's `repr` (inside `str` of a list or
      dict) or `json.dumps` with its default separators. */
  datatype Style = PythonRepr | JsonText

  function Quote(s: string, style: Style): string {
    match style
    case PythonRepr => "'" + s + "'"
    case JsonText => "\"" + s + "\""
  }

  function Render(j: Json, style: Style): string
    decreases j
  {
    match j
    case JNull => if style == PythonRepr then "None" else "null"
    case JBool(b) =>
      if style == PythonRepr then (if b then "True" else "False")
      else (if b then "true" else "false")
    case JNum(n) => IntToString(n)
    case JStr(s) => Quote(s, style)
    case JArr(xs) => "[" + RenderItems(xs, style) + "]"
    case JObj(fs) => "{" + RenderFields(fs, style) + "}"
  }

  function RenderItems(xs: seq<Json>, style: Style): string
    decreases xs
  {
    if |xs| == 0 then ""
    else Render(xs[0], style) + (if |xs| == 1 then "" else ", " + RenderItems(xs[1..], style))
  }

  function RenderFields(fs: seq<Field>, style: Style): string
    decreases fs
  {
    if |fs| == 0 then ""
    else
      Quote(fs[0].key, style) + ": " + Render(fs[0].value, style)
      + (if |fs| == 1 then "" else ", " + RenderFields(fs[1..], style))
  }

  /** Python's `str(x)` (and `f"{x}"`): a string stands for itself, anything
      else is written as its `repr`. */
  function PyStr(j: Json): string {
    if j.JStr? then j.s else Render(j, PythonRepr)
  }

  /** `json.dumps(x)` with default options. */
  function Dumps(j: Json): string {
    Render(j, JsonText)
  }

  /** A JSON decoder (`json.loads`, `JSON.parse`): the text of a JSON value,
      or `None` where the decoder raises. */
  type Parser = string -> Option<Json>

  /** What section 2 of RFC 8259 fixes about any decoder: a JSON text is a
      value, so neither the empty text nor a lone `}` is one; and a text that
      begins with `{` can only be an object (section 4). */
  ghost predicate FollowsRfc8259(parse: Parser) {
    && parse("").None?
    && parse("}").None?
    && forall t :: |t| > 0 && t[0] == '{' && parse(t).Some? ==> parse(t).value.JObj?
  }
}
