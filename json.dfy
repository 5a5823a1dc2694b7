/** Parsed JSON values as the scripts see them after `response.json()`, the parts of
    Python's dict, list and str behaviour the transforms use, and `json.dumps`. */
module Json {
  import opened Text

  /** The text `json.dumps` writes for a number: Python's `repr` of the parsed int or
      float, or `NaN`/`Infinity`. Its digits stay opaque; only its alphabet is fixed. */
  type NumberText = s: string | IsNumberText(s) witness "0"

  predicate IsNumberText(s: string)
  {
    |s| >= 1 && forall i :: 0 <= i < |s| ==> s[i] in "0123456789+-.eEInfinityNaN"
  }

  /** A value as `json.loads` returns it. An object keeps its members in document order,
      as a Python dict keeps insertion order. */
  datatype Json =
    | Null
    | Bool(b: bool)
    | Num(text: NumberText)
    | Str(s: string)
    | Arr(items: seq<Json>)
    | Obj(fields: Fields)

  /** The members of an object, in order. */
  type Fields = seq<(string, Json)>

  /** The Python exceptions the transforms can raise on a response of an unexpected shape. */
  datatype PyError =
    | TypeError       // iterating or testing membership in None, a bool or a number; subscripting a str or list
    | AttributeError  // calling `.get` on something that is not a dict
    | KeyError        // subscripting a dict with an absent key (neither script reaches it)

  /** A value, or the exception that escaped while computing it. */
  datatype Result<T> = Ok(value: T) | Raised(error: PyError)

  /** The keys of an object, in order. */
  function Keys(fields: Fields): (r: seq<string>)
    ensures |r| == |fields| && forall i :: 0 <= i < |fields| ==> r[i] == fields[i].0
  {
    if |fields| == 0 then [] else [fields[0].0] + Keys(fields[1..])
  }

  /** The value bound to `key`, if any (the first binding; a dict from `json.loads`
      binds each key once). */
  function Lookup(fields: Fields, key: string): Option<Json>
  {
    if |fields| == 0 then None
    else if fields[0].0 == key then Some(fields[0].1)
    else Lookup(fields[1..], key)
  }

  /** A lookup finds a binding exactly when the key is present, and what it finds is bound to the key. */
  lemma {:induction false} LookupFindsPresentKeys(fields: Fields, key: string)
    ensures Lookup(fields, key).None? <==> key !in Keys(fields)
    ensures Lookup(fields, key).Some? ==> (key, Lookup(fields, key).value) in fields
  {
    if |fields| > 0 {
      LookupFindsPresentKeys(fields[1..], key);
      assert Keys(fields) == [fields[0].0] + Keys(fields[1..]);
    }
  }

  /** `d.get(key, default)` gives the default exactly for a missing key. */
  lemma GetOrMissingKey(fields: Fields, key: string, default: Json)
    ensures key !in Keys(fields) ==> GetOr(fields, key, default) == default
    ensures key in Keys(fields) ==> (key, GetOr(fields, key, default)) in fields
  {
    LookupFindsPresentKeys(fields, key);
  }

  /** The first binding of a key is the one a lookup finds. */
  lemma {:induction false} LookupFirstBinding(fields: Fields, i: nat)
    requires i < |fields|
    requires forall p :: 0 <= p < i ==> fields[p].0 != fields[i].0
    ensures Lookup(fields, fields[i].0) == Some(fields[i].1)
  {
    if i > 0 {
      LookupFirstBinding(fields[1..], i - 1);
    }
  }

  /** `d.get(key, default)` on a dict `d`. */
  function GetOr(fields: Fields, key: string, default: Json): Json
  {
    match Lookup(fields, key)
    case Some(v) => v
    case None => default
  }

  /** `d.get(key)` on a dict `d`: a missing key reads as None, which `json.dumps` writes as null. */
  function Get(fields: Fields, key: string): Json
  {
    GetOr(fields, key, Null)
  }

  /** What `for x in v` visits: the items of a list, the one-character strings of a
      string, the keys of a dict; anything else raises TypeError. */
  function Elements(v: Json): Result<seq<Json>>
  {
    match v
    case Arr(items) => Ok(items)
    case Str(s) => Ok(seq(|s|, i requires 0 <= i < |s| => Str([s[i]])))
    case Obj(fields) => Ok(seq(|fields|, i requires 0 <= i < |fields| => Str(fields[i].0)))
    case _ => Raised(TypeError)
  }

  /** Python's `key in v` for a string `key`: key presence in a dict, substring in a
      string, element equality in a list; TypeError for anything else. */
  function Contains(v: Json, key: string): Result<bool>
  {
    match v
    case Obj(fields) => Ok(key in Keys(fields))
    case Str(s) => Ok(IsSubstring(key, s))
    case Arr(items) => Ok(Str(key) in items)
    case _ => Raised(TypeError)
  }

  /** Python's `v[key]` for a string `key`. */
  function Subscript(v: Json, key: string): Result<Json>
  {
    match v
    case Obj(fields) =>
      (match Lookup(fields, key)
       case Some(x) => Ok(x)
       case None => Raised(KeyError))
    case _ => Raised(TypeError)
  }

  // ---------------------------------------------------------------------------
  // json.dumps with its default settings

  function HexDigit(d: nat): (c: char)
    requires d < 16
    ensures c != '\n'
  {
    "0123456789abcdef"[d]
  }

  /** Four lower-case hexadecimal digits, as `'{0:04x}'.format(n)`. */
  function Hex4(n: nat): (r: string)
    requires n < 0x1_0000
    ensures '\n' !in r
  {
    [HexDigit(n / 0x1000), HexDigit(n / 0x100 % 0x10), HexDigit(n / 0x10 % 0x10), HexDigit(n % 0x10)]
  }

  /** How `json.dumps` (with `ensure_ascii`) writes one character of a string: printable
      ASCII as itself except the quote and the backslash, the usual short escapes,
      `\uXXXX` for the rest of the Basic Multilingual Plane and a surrogate pair beyond it. */
  function EscapeChar(c: char): string
  {
    if c == '"' then "\\\""
    else if c == '\\' then "\\\\"
    else if c == '\n' then "\\n"
    else if c == '\r' then "\\r"
    else if c == '\t' then "\\t"
    else if c == '\U{8}' then "\\b"
    else if c == '\U{C}' then "\\f"
    else if ' ' <= c <= '~' then [c]
    else if (c as int) < 0x1_0000 then "\\u" + Hex4(c as int)
    else SurrogatePair((c as int) - 0x1_0000)
  }

  /** The UTF-16 surrogate pair of the code point `0x10000 + n`, as two `\uXXXX` escapes. */
  function SurrogatePair(n: nat): (r: string)
    requires n < 0x10_0000
    ensures '\n' !in r
  {
    "\\u" + Hex4(0xD800 + n / 0x400) + "\\u" + Hex4(0xDC00 + n % 0x400)
  }

  function Escape(s: string): string
  {
    if |s| == 0 then "" else EscapeChar(s[0]) + Escape(s[1..])
  }

  /** A string literal in JSON. */
  function Quote(s: string): string
  {
    "\"" + Escape(s) + "\""
  }

  /** `json.dumps(v)`: `", "` between items and members, `": "` after a key, members in
      insertion order. */
  function Encode(v: Json): string
  {
    match v
    case Null => "null"
    case Bool(b) => if b then "true" else "false"
    case Num(text) => text
    case Str(s) => Quote(s)
    case Arr(items) => "[" + Join(", ", EncodeItems(items)) + "]"
    case Obj(fields) => "{" + Join(", ", EncodeMembers(fields)) + "}"
  }

  function EncodeItems(items: seq<Json>): (r: seq<string>)
    ensures |r| == |items|
  {
    if |items| == 0 then [] else [Encode(items[0])] + EncodeItems(items[1..])
  }

  function EncodeMembers(fields: Fields): (r: seq<string>)
    ensures |r| == |fields|
  {
    if |fields| == 0 then []
    else
      assert fields[0].1 < fields[0];
      [Quote(fields[0].0) + ": " + Encode(fields[0].1)] + EncodeMembers(fields[1..])
  }

  lemma {:induction false} EscapeHasNoNewline(s: string)
    ensures '\n' !in Escape(s)
  {
    if |s| > 0 {
      EscapeHasNoNewline(s[1..]);
    }
  }

  /** `json.dumps` never writes a raw line break: one value always fits on one NDJSON line. */
  lemma {:induction false} EncodeHasNoNewline(v: Json)
    ensures '\n' !in Encode(v)
    decreases v, 1
  {
    match v
    case Null =>
    case Bool(_) =>
    case Num(text) =>
      assert forall i :: 0 <= i < |text| ==> text[i] != '\n';
    case Str(s) =>
      EscapeHasNoNewline(s);
      Enclosed("\"", Escape(s), "\"");
    case Arr(_) =>
      ArrayHasNoNewline(v);
    case Obj(_) =>
      ObjectHasNoNewline(v);
  }

  lemma {:induction false} ArrayHasNoNewline(v: Json)
    requires v.Arr?
    ensures '\n' !in Encode(v)
    decreases v, 0
  {
    ItemsHaveNoNewline(v.items);
    JoinAvoids(", ", EncodeItems(v.items), '\n');
    Enclosed("[", Join(", ", EncodeItems(v.items)), "]");
  }

  lemma {:induction false} ObjectHasNoNewline(v: Json)
    requires v.Obj?
    ensures '\n' !in Encode(v)
    decreases v, 0
  {
    MembersHaveNoNewline(v.fields);
    JoinAvoids(", ", EncodeMembers(v.fields), '\n');
    Enclosed("{", Join(", ", EncodeMembers(v.fields)), "}");
  }

  lemma Enclosed(open: string, inner: string, close: string)
    requires '\n' !in open && '\n' !in inner && '\n' !in close
    ensures '\n' !in open + inner + close
  {
  }

  lemma {:induction false} ItemsHaveNoNewline(items: seq<Json>)
    ensures forall i :: 0 <= i < |items| ==> '\n' !in EncodeItems(items)[i]
  {
    if |items| > 0 {
      EncodeHasNoNewline(items[0]);
      ItemsHaveNoNewline(items[1..]);
    }
  }

  lemma {:induction false} MembersHaveNoNewline(fields: Fields)
    ensures forall i :: 0 <= i < |fields| ==> '\n' !in EncodeMembers(fields)[i]
  {
    if |fields| > 0 {
      assert fields[0].1 < fields[0];
      EncodeHasNoNewline(fields[0].1);
      EscapeHasNoNewline(fields[0].0);
      MembersHaveNoNewline(fields[1..]);
    }
  }
}
