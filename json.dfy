/*
 * The dynamic values that flow through the pipeline: parsed JSON from the
 * language model, YAML documents, Python dictionaries built by the code.
 * A dictionary is an insertion-ordered list of (key, value) pairs, as a
 * Python dict is; `d.get(k)` finds the binding, `d[k] = v` replaces it in
 * place or appends it.  Rendering follows Python's repr()/str() and
 * json.dumps(indent=2).
 */
module Json {
  import opened Common

  type Dict = seq<(string, Value)>

  /** Float(m, e) stands for the decimal m / 10^e. */
  datatype Value =
    | Null
    | Bool(b: bool)
    | Int(i: int)
    | Float(mant: int, exp: nat)
    | Str(s: string)
    | List(items: seq<Value>)
    | Obj(fields: Dict)

  // ---------------------------------------------------------------------
  // Dictionaries
  // ---------------------------------------------------------------------

  predicate HasKey(d: Dict, k: string) {
    exists i :: 0 <= i < |d| && d[i].0 == k
  }

  /** d.get(k): the value bound to k, or None when k is absent. */
  function DictGet(d: Dict, k: string): (r: Option<Value>)
    ensures r.Some? <==> HasKey(d, k)
    ensures r.Some? ==> exists i :: 0 <= i < |d| && d[i] == (k, r.value)
  {
    if d == [] then None
    else if d[0].0 == k then Some(d[0].1)
    else
      var r := DictGet(d[1..], k);
      assert HasKey(d[1..], k) ==> HasKey(d, k) by {
        if HasKey(d[1..], k) { var i :| 0 <= i < |d[1..]| && d[1..][i].0 == k; assert d[i + 1].0 == k; }
      }
      assert HasKey(d, k) ==> HasKey(d[1..], k) by {
        if HasKey(d, k) { var i :| 0 <= i < |d| && d[i].0 == k; assert i > 0 && d[1..][i - 1].0 == k; }
      }
      assert r.Some? ==> exists i :: 0 <= i < |d| && d[i] == (k, r.value) by {
        if r.Some? { var i :| 0 <= i < |d[1..]| && d[1..][i] == (k, r.value); assert d[i + 1] == (k, r.value); }
      }
      r
  }

  /** d.get(k, default) */
  function GetOr(d: Dict, k: string, default: Value): (r: Value)
    ensures !HasKey(d, k) ==> r == default
    ensures HasKey(d, k) ==> Some(r) == DictGet(d, k)
  {
    match DictGet(d, k)
    case Some(v) => v
    case None => default
  }

  function Keys(d: Dict): (r: seq<string>)
    ensures |r| == |d|
    ensures forall i :: 0 <= i < |d| ==> r[i] == d[i].0
  {
    if d == [] then [] else [d[0].0] + Keys(d[1..])
  }

  /** A Python dict never binds a key twice. */
  predicate DistinctKeys(d: Dict) {
    forall i, j :: 0 <= i < j < |d| ==> d[i].0 != d[j].0
  }

  /** d[k] = v: the binding is replaced where it stands, or appended. */
  function DictSet(d: Dict, k: string, v: Value): (r: Dict)
    ensures HasKey(d, k) ==> |r| == |d|
    ensures !HasKey(d, k) ==> r == d + [(k, v)]
    ensures Keys(r) == if HasKey(d, k) then Keys(d) else Keys(d) + [k]
  {
    if d == [] then [(k, v)]
    else if d[0].0 == k then
      assert HasKey(d, k) by { assert d[0].0 == k; }
      assert Keys([(k, v)] + d[1..]) == [k] + Keys(d[1..]);
      [(k, v)] + d[1..]
    else
      assert HasKey(d[1..], k) <==> HasKey(d, k) by {
        if HasKey(d[1..], k) { var i :| 0 <= i < |d[1..]| && d[1..][i].0 == k; assert d[i + 1].0 == k; }
        if HasKey(d, k) { var i :| 0 <= i < |d| && d[i].0 == k; assert d[1..][i - 1].0 == k; }
      }
      var rest := DictSet(d[1..], k, v);
      assert Keys([d[0]] + rest) == [d[0].0] + Keys(rest);
      assert Keys(d) == [d[0].0] + Keys(d[1..]);
      [d[0]] + rest
  }

  /** When no earlier entry has the same key, d.get(d[j].0) finds entry j. */
  lemma {:induction false} DictGetAt(d: Dict, j: int)
    requires 0 <= j < |d|
    requires forall i :: 0 <= i < j ==> d[i].0 != d[j].0
    ensures DictGet(d, d[j].0) == Some(d[j].1)
  {
    if j > 0 {
      DictGetAt(d[1..], j - 1);
    }
  }

  lemma {:induction false} DictSetGetSame(d: Dict, k: string, v: Value)
    ensures DictGet(DictSet(d, k, v), k) == Some(v)
  {
    if d != [] && d[0].0 != k {
      DictSetGetSame(d[1..], k, v);
    }
  }

  lemma {:induction false} DictSetGetOther(d: Dict, k: string, v: Value, k2: string)
    requires k2 != k
    ensures DictGet(DictSet(d, k, v), k2) == DictGet(d, k2)
  {
    if d != [] && d[0].0 != k {
      DictSetGetOther(d[1..], k, v, k2);
    }
  }

  lemma {:induction false} DictSetKeepsDistinct(d: Dict, k: string, v: Value)
    requires DistinctKeys(d)
    ensures DistinctKeys(DictSet(d, k, v))
  {
    var r := DictSet(d, k, v);
    assert Keys(r) == if HasKey(d, k) then Keys(d) else Keys(d) + [k];
    forall i, j | 0 <= i < j < |r| ensures r[i].0 != r[j].0 {
      assert Keys(r)[i] == r[i].0 && Keys(r)[j] == r[j].0;
      if HasKey(d, k) {
        assert Keys(d)[i] == d[i].0 && Keys(d)[j] == d[j].0;
      } else if j < |d| {
        assert Keys(d)[i] == d[i].0 && Keys(d)[j] == d[j].0;
      } else {
        assert Keys(d)[i] == d[i].0;
        assert r[j].0 == k;
      }
    }
  }

  /** Setting the same binding twice is the same as setting it once. */
  lemma {:induction false} DictSetIdempotent(d: Dict, k: string, v: Value)
    ensures DictSet(DictSet(d, k, v), k, v) == DictSet(d, k, v)
  {
    if d == [] {
      assert DictSet([(k, v)], k, v) == [(k, v)];
    } else if d[0].0 == k {
    } else {
      DictSetIdempotent(d[1..], k, v);
    }
  }

  /** A list of strings or of dictionaries as a JSON list's items. */
  function Strs(xs: seq<string>): (r: seq<Value>)
    ensures |r| == |xs| && forall i :: 0 <= i < |xs| ==> r[i] == Str(xs[i])
  {
    seq(|xs|, i requires 0 <= i < |xs| => Str(xs[i]))
  }

  function Objs(ds: seq<Dict>): (r: seq<Value>)
    ensures |r| == |ds| && forall i :: 0 <= i < |ds| ==> r[i] == Obj(ds[i])
  {
    seq(|ds|, i requires 0 <= i < |ds| => Obj(ds[i]))
  }

  /** d.update(u): each binding of u set into d in turn. */
  function Update(d: Dict, u: Dict): Dict
    decreases |u|
  {
    if u == [] then d else Update(DictSet(d, u[0].0, u[0].1), u[1..])
  }

  /** After d.update(u) a key bound by u has u's value and every other key keeps d's. */
  lemma {:induction false} UpdateGet(d: Dict, u: Dict, k: string)
    requires DistinctKeys(u)
    ensures DictGet(Update(d, u), k) == if HasKey(u, k) then DictGet(u, k) else DictGet(d, k)
    decreases |u|
  {
    if u != [] {
      var d' := DictSet(d, u[0].0, u[0].1);
      var rest := u[1..];
      DistinctTail(u);
      UpdateGet(d', rest, k);
      HasKeyCons(u, k);
      if u[0].0 == k {
        DictSetGetSame(d, k, u[0].1);
      } else {
        DictSetGetOther(d, u[0].0, u[0].1, k);
      }
    }
  }

  lemma DistinctTail(u: Dict)
    requires DistinctKeys(u) && u != []
    ensures DistinctKeys(u[1..])
  {
    var rest := u[1..];
    forall i, j | 0 <= i < j < |rest| ensures rest[i].0 != rest[j].0 {
      assert rest[i] == u[i + 1] && rest[j] == u[j + 1];
    }
  }

  /** A key is in u iff it heads u or is in its tail, and with distinct keys never both. */
  lemma HasKeyCons(u: Dict, k: string)
    requires DistinctKeys(u) && u != []
    ensures HasKey(u, k) <==> u[0].0 == k || HasKey(u[1..], k)
    ensures u[0].0 == k ==> !HasKey(u[1..], k)
  {
    var rest := u[1..];
    if HasKey(rest, k) {
      var i :| 0 <= i < |rest| && rest[i].0 == k;
      assert u[i + 1].0 == k;
    }
    if HasKey(u, k) && u[0].0 != k {
      var i :| 0 <= i < |u| && u[i].0 == k;
      assert rest[i - 1].0 == k;
    }
    if u[0].0 == k {
      assert HasKey(u, k);
    }
  }

  /** After d.update(u) the i-th binding of u is in force. */
  lemma UpdateGetAt(d: Dict, u: Dict, i: int)
    requires DistinctKeys(u) && 0 <= i < |u|
    ensures DictGet(Update(d, u), u[i].0) == Some(u[i].1)
  {
    UpdateGet(d, u, u[i].0);
    DictGetAt(u, i);
  }

  /**
   * What loading one YAML file gives: no such file, the loader's error, or
   * the parsed document (None for an empty file).
   */
  datatype YamlFile = Absent | Unloadable(error: string) | Document(content: Value)

  /**
   * FileLoader.load_yaml_file: the document of a file read through the
   * project's loader, which gives {} for an empty file where yaml.safe_load
   * gives None.
   */
  function Loaded(f: YamlFile): YamlFile {
    if f == Document(Null) then Document(Obj([])) else f
  }

  // ---------------------------------------------------------------------
  // Python truthiness, iteration and len()
  // ---------------------------------------------------------------------

  /** bool(v) */
  predicate Truthy(v: Value) {
    match v
    case Null => false
    case Bool(b) => b
    case Int(i) => i != 0
    case Float(m, _) => m != 0
    case Str(s) => s != ""
    case List(items) => items != []
    case Obj(fields) => fields != []
  }

  /** `for x in v`: lists yield their items, dicts their keys, strings their characters; None otherwise (TypeError). */
  function Iterate(v: Value): (r: Option<seq<Value>>)
    ensures v.List? ==> r == Some(v.items)
    ensures (v.Null? || v.Bool? || v.Int? || v.Float?) <==> r.None?
  {
    match v
    case List(items) => Some(items)
    case Obj(fields) => Some(seq(|fields|, i requires 0 <= i < |fields| => Str(fields[i].0)))
    case Str(s) => Some(seq(|s|, i requires 0 <= i < |s| => Str([s[i]])))
    case _ => None
  }

  /** A truthy value that can be iterated yields at least one element. */
  lemma TruthyIterableNonEmpty(v: Value)
    requires Truthy(v) && Iterate(v).Some?
    ensures Iterate(v).value != []
  {
  }

  /** len(v); None where Python raises TypeError. */
  function PyLen(v: Value): (r: Option<nat>)
    ensures r.Some? <==> (v.Str? || v.List? || v.Obj?)
  {
    match v
    case Str(s) => Some(|s|)
    case List(items) => Some(|items|)
    case Obj(fields) => Some(|fields|)
    case _ => None
  }

  /** `k in v` for a string k; None where Python raises TypeError. */
  function PyIn(k: string, v: Value): (r: Option<bool>)
    ensures v.Obj? ==> r == Some(HasKey(v.fields, k))
    ensures v.List? ==> r == Some(Str(k) in v.items)
    ensures v.Str? ==> r == Some(Contains(v.s, k))
  {
    match v
    case Obj(fields) => Some(HasKey(fields, k))
    case List(items) => Some(Str(k) in items)
    case Str(s) => Some(Contains(s, k))
    case _ => None
  }

  // ---------------------------------------------------------------------
  // repr() and str()
  // ---------------------------------------------------------------------

  function HexDigit(d: nat): (c: char)
    requires d < 16
  {
    if d < 10 then DigitChar(d) else ('a' as int + d - 10) as char
  }

  function Hex(n: nat, width: nat): (r: string)
    ensures |r| == width
  {
    if width == 0 then "" else Hex(n / 16, width - 1) + [HexDigit(n % 16)]
  }

  /** One character as it appears inside a repr() quoted with `quote`. */
  function ReprChar(c: char, quote: char): string {
    var n := c as int;
    if c == quote || c == '\\' then ['\\', c]
    else if c == '\t' then "\\t"
    else if c == '\n' then "\\n"
    else if c == '\r' then "\\r"
    else if n < 0x20 || (0x7f <= n <= 0xa0) || n == 0xad then "\\x" + Hex(n, 2)
    else [c]
  }

  function ReprChars(s: string, quote: char): string {
    if s == [] then "" else ReprChar(s[0], quote) + ReprChars(s[1..], quote)
  }

  /** repr(s) for a string: single quotes unless the text has a ' and no ". */
  function ReprString(s: string): (r: string)
    ensures |r| >= 2
    ensures r[0] == r[|r| - 1] && (r[0] == '\'' || r[0] == '"')
  {
    var quote := if '\'' in s && '"' !in s then '"' else '\'';
    [quote] + ReprChars(s, quote) + [quote]
  }

  function StripZeros(m: int, e: nat): (r: (int, nat))
    ensures r.1 <= e
    decreases e
  {
    if e > 0 && m % 10 == 0 then StripZeros(m / 10, e - 1) else (m, e)
  }

  function Pow10(e: nat): (r: nat)
    ensures r >= 1
  {
    if e == 0 then 1 else 10 * Pow10(e - 1)
  }

  /** The e fraction digits of f, zero-padded on the left. */
  function FractionDigits(f: nat, e: nat): string {
    var t := NatToString(f);
    Repeat("0", if e >= |t| then e - |t| else 0) + t
  }

  /** The digits of a / 10^e with the decimal point written in. */
  function DecimalText(a: nat, e: nat): string {
    var p := Pow10(e);
    DivModNat(a, p);
    var whole: nat := a / p;
    var frac: nat := a % p;
    NatToString(whole) + "." + FractionDigits(frac, e)
  }

  lemma DivModNat(a: nat, p: nat)
    requires p >= 1
    ensures a / p >= 0 && a % p >= 0
  {
  }

  /** repr(float) for a decimal in the range Python prints without an exponent. */
  function FloatRepr(m: int, e: nat): string {
    var t := StripZeros(m, e);
    var sign := if t.0 < 0 then "-" else "";
    var a: nat := if t.0 < 0 then -t.0 else t.0;
    if t.1 == 0 then sign + NatToString(a) + ".0" else sign + DecimalText(a, t.1)
  }

  /** repr(v) */
  function PyRepr(v: Value): string
  {
    match v
    case Null => "None"
    case Bool(b) => if b then "True" else "False"
    case Int(i) => IntToString(i)
    case Float(m, e) => FloatRepr(m, e)
    case Str(s) => ReprString(s)
    case List(items) => "[" + Join(seq(|items|, i requires 0 <= i < |items| => PyRepr(items[i])), ", ") + "]"
    case Obj(fields) =>
      "{" + Join(seq(|fields|, i requires 0 <= i < |fields| => ReprString(fields[i].0) + ": " + PyRepr(fields[i].1)), ", ") + "}"
  }

  /** str(v): a string is itself, everything else is its repr(). */
  function PyStr(v: Value): (r: string)
    ensures v.Str? ==> r == v.s
  {
    if v.Str? then v.s else PyRepr(v)
  }

  /** type(v).__name__, as it appears in Python's TypeError and AttributeError messages. */
  function PyTypeName(v: Value): string {
    match v
    case Null => "NoneType"
    case Bool(_) => "bool"
    case Int(_) => "int"
    case Float(_, _) => "float"
    case Str(_) => "str"
    case List(_) => "list"
    case Obj(_) => "dict"
  }

  /** str(e) for the AttributeError raised by v.attribute when v lacks it. */
  function NoAttribute(v: Value, attribute: string): string {
    "'" + PyTypeName(v) + "' object has no attribute '" + attribute + "'"
  }

  /** str(e) for the TypeError raised by `for x in v`. */
  function NotIterable(v: Value): string {
    "'" + PyTypeName(v) + "' object is not iterable"
  }

  /** str(e) for the TypeError raised by `len(v)`. */
  function NoLen(v: Value): string {
    "object of type '" + PyTypeName(v) + "' has no len()"
  }

  /** str(e) for the TypeError raised by `k in v`. */
  function NotContainer(v: Value): string {
    "argument of type '" + PyTypeName(v) + "' is not iterable"
  }

  /** str(e) for the TypeError raised by v[k] with a string k on a str or list. */
  function BadIndex(v: Value): string {
    if v.Str? then "string indices must be integers, not 'str'"
    else "list indices must be integers or slices, not str"
  }

  /** str(e) for the KeyError raised by d[k]. */
  function KeyErrorText(k: string): string {
    "'" + k + "'"
  }

  // ---------------------------------------------------------------------
  // json.dumps(v, indent=2)
  // ---------------------------------------------------------------------

  /** One character inside a JSON string literal, ASCII only (ensure_ascii). */
  function JsonChar(c: char): string {
    var n := c as int;
    if c == '"' then "\\\""
    else if c == '\\' then "\\\\"
    else if c == '\n' then "\\n"
    else if c == '\r' then "\\r"
    else if c == '\t' then "\\t"
    else if n == 0x08 then "\\b"
    else if n == 0x0c then "\\f"
    else if n < 0x20 || n > 0x7e then
      if n < 0x10000 then "\\u" + Hex(n, 4)
      else
        var u := n - 0x10000;
        "\\u" + Hex(0xd800 + u / 0x400, 4) + "\\u" + Hex(0xdc00 + u % 0x400, 4)
    else [c]
  }

  function JsonChars(s: string): string {
    if s == [] then "" else JsonChar(s[0]) + JsonChars(s[1..])
  }

  function JsonString(s: string): string {
    "\"" + JsonChars(s) + "\""
  }

  function Indent(level: nat): string {
    Repeat("  ", level)
  }

  function Dumps(v: Value, level: nat): string
    decreases v
  {
    match v
    case Null => "null"
    case Bool(b) => if b then "true" else "false"
    case Int(i) => IntToString(i)
    case Float(m, e) => FloatRepr(m, e)
    case Str(s) => JsonString(s)
    case List(items) =>
      if items == [] then "[]"
      else
        "[\n"
        + Join(seq(|items|, i requires 0 <= i < |items| => Indent(level + 1) + Dumps(items[i], level + 1)), ",\n")
        + "\n" + Indent(level) + "]"
    case Obj(fields) =>
      if fields == [] then "{}"
      else
        "{\n"
        + Join(seq(|fields|, i requires 0 <= i < |fields| =>
                 Indent(level + 1) + JsonString(fields[i].0) + ": " + Dumps(fields[i].1, level + 1)), ",\n")
        + "\n" + Indent(level) + "}"
  }

  /** json.dumps(v, indent=2) */
  function DumpsIndented(v: Value): string {
    Dumps(v, 0)
  }
}
