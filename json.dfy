/**
 * Decoded JSON values as the Python code sees them after `response.json()`,
 * together with the two Python operations the core applies to them:
 * subscripting with a string key and conversion to text with `str()`.
 */
module Json {
  import opened Wrappers

  /** A decoded JSON document: `None`, `bool`, `int`, `str`, `list` or `dict`. */
  datatype Value =
    | Null
    | Bool(b: bool)
    | Int(i: int)
    | Str(s: string)
    | List(items: seq<Value>)
    | Object(entries: seq<Entry>)

  /** One key of a decoded `dict`, in insertion order. */
  datatype Entry = Entry(key: string, value: Value)

  /** Whether no key occurs twice, as in every dict Python builds. */
  predicate UniqueKeys(entries: seq<Entry>)
  {
    forall i, j :: 0 <= i < j < |entries| ==> entries[i].key != entries[j].key
  }

  /**
   * The value stored under `key`: that of the first entry with the key, which
   * in a dict with unique keys is the only one.
   */
  function Lookup(entries: seq<Entry>, key: string): (r: Option<Value>)
    ensures r.None? <==> forall i :: 0 <= i < |entries| ==> entries[i].key != key
    ensures r.Some? ==> exists i :: 0 <= i < |entries| && entries[i] == Entry(key, r.value) &&
                                    forall j :: 0 <= j < i ==> entries[j].key != key
    ensures UniqueKeys(entries) ==>
      forall i :: 0 <= i < |entries| && entries[i].key == key ==> r == Some(entries[i].value)
  {
    if |entries| == 0 then None
    else if entries[0].key == key then Some(entries[0].value)
    else
      var r := Lookup(entries[1..], key);
      assert r.Some? ==> exists i :: 0 <= i < |entries[1..]| && entries[1..][i] == Entry(key, r.value);
      assert forall i :: 0 < i < |entries| ==> entries[i] == entries[1..][i - 1];
      r
  }

  /** The value under `key` when `v` is a dict holding that key. */
  function Field(v: Value, key: string): Option<Value>
  {
    if v.Object? then Lookup(v.entries, key) else None
  }

  /** The outcome of the Python expression `v[key]` for a string `key`. */
  datatype Access = Present(value: Value) | KeyError | TypeError(message: string)

  /** `v[key]`: a dict answers or raises `KeyError`; every other value raises `TypeError`. */
  function Subscript(v: Value, key: string): (r: Access)
    ensures r.Present? <==> Field(v, key).Some?
    ensures r.Present? ==> r.value == Field(v, key).value
    ensures r.KeyError? <==> v.Object? && Field(v, key).None?
    ensures r.TypeError? <==> !v.Object?
  {
    match v
    case Object(entries) =>
      (match Lookup(entries, key)
       case Some(x) => Present(x)
       case None => KeyError)
    case List(_) => TypeError("list indices must be integers or slices, not str")
    case Str(_) => TypeError("string indices must be integers, not 'str'")
    case Int(_) => TypeError("'int' object is not subscriptable")
    case Bool(_) => TypeError("'bool' object is not subscriptable")
    case Null => TypeError("'NoneType' object is not subscriptable")
  }

  /** Whether Python can use `v` as a dict key: lists and dicts cannot. */
  predicate Hashable(v: Value)
  {
    !v.List? && !v.Object?
  }

  /** The `TypeError` text for using an unhashable value as a dict key. */
  function UnhashableMessage(v: Value): string
    requires !Hashable(v)
  {
    if v.List? then "unhashable type: 'list'" else "unhashable type: 'dict'"
  }

  /** `str(v)`, as an f-string placeholder renders it. */
  function Display(v: Value): (r: string)
    ensures v.Str? ==> r == v.s
  {
    if v.Str? then v.s else Repr(v)
  }

  /** `repr(v)`; containers render their elements with `repr`. */
  function Repr(v: Value): string
    decreases v
  {
    match v
    case Null => "None"
    case Bool(b) => if b then "True" else "False"
    case Int(i) => Decimal(i)
    case Str(s) => Quote(s)
    case List(items) =>
      "[" + Join(seq(|items|, k requires 0 <= k < |items| => Repr(items[k]))) + "]"
    case Object(entries) =>
      "{" + Join(seq(|entries|, k requires 0 <= k < |entries| =>
                   Quote(entries[k].key) + ": " + ReprEntryValue(v, k))) + "}"
  }

  /** `repr` of the value of the `k`-th entry of a dict. */
  function ReprEntryValue(v: Value, k: nat): string
    requires v.Object? && k < |v.entries|
    decreases v, 0
  {
    assert v.entries[k] in v.entries;
    Repr(v.entries[k].value)
  }

  /** The parts joined with ", ". */
  function Join(parts: seq<string>): string
  {
    if |parts| == 0 then ""
    else if |parts| == 1 then parts[0]
    else parts[0] + ", " + Join(parts[1..])
  }

  /** Python's decimal rendering of an integer. */
  function Decimal(i: int): string
  {
    if i < 0 then "-" + Digits(-i) else Digits(i)
  }

  function Digits(n: nat): string
  {
    if n < 10 then [DigitChar(n)] else Digits(n / 10) + [DigitChar(n % 10)]
  }

  function DigitChar(d: nat): char
    requires d < 16
  {
    "0123456789abcdef"[d]
  }

  /** `repr` of a string: single quotes unless only double quotes avoid escaping. */
  function Quote(s: string): string
  {
    var q := if '\'' in s && '"' !in s then '"' else '\'';
    [q] + Escape(s, q) + [q]
  }

  function Escape(s: string, q: char): string
  {
    if |s| == 0 then "" else EscapeChar(s[0], q) + Escape(s[1..], q)
  }

  /** How `repr` writes one character when `q` is the quote in use. */
  function EscapeChar(c: char, q: char): string
  {
    if c == q || c == '\\' then ['\\', c]
    else if c == '\t' then "\\t"
    else if c == '\n' then "\\n"
    else if c == '\r' then "\\r"
    else if (c as int) < 32 || c as int == 127 then
      "\\x" + [DigitChar(c as int / 16), DigitChar(c as int % 16)]
    else [c]
  }
}
