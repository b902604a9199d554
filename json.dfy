/** Decoded JSON values as the handlers see them: the parsed Airtable
    responses, the request results they build, and the few Python value
    operations the handlers apply to them (truthiness, `dict.get`, and the
    `str()` conversion an f-string performs). */
module Json {

  datatype Option<T> = None | Some(value: T)

  /** A decoded JSON value. Objects keep their members in insertion order,
      as a Python `dict` does; numbers are integers. */
  datatype Json =
    | Null
    | Bool(b: bool)
    | Number(n: int)
    | Str(s: string)
    | Arr(items: seq<Json>)
    | Obj(members: seq<(string, Json)>)

  /** Python truthiness of a decoded value: what `if not value:` tests. */
  predicate Truthy(v: Json) {
    match v
    case Null => false
    case Bool(b) => b
    case Number(n) => n != 0
    case Str(s) => s != ""
    case Arr(items) => items != []
    case Obj(members) => members != []
  }

  /** The `fields` dictionary of an Airtable record. */
  type Fields = map<string, Json>

  /** `fields.get(key)`: the stored value, or None when the key is absent. */
  function Get(fields: Fields, key: string): Json {
    if key in fields then fields[key] else Null
  }

  /** An Airtable record `{id, fields}`; a record without `fields` has the empty map. */
  datatype Record = Record(id: string, fields: Fields)

  /** The outcome of one outbound Airtable read: the HTTP error text when
      `raise_for_status` raised, or the decoded `records` list (empty when
      the response had none). */
  datatype Fetch = HttpError(message: string) | Fetched(records: seq<Record>)

  /** One outbound Airtable read: the table and the query parameters, in order. */
  datatype Query = Query(table: string, params: seq<(string, Json)>)

  /** What the web framework sends back: a status with a JSON body, or an
      uncaught exception, which the framework turns into a 500 page. */
  datatype Reply = Reply(status: int, body: Json) | Crash(exception: string)

  /** The keys of an object's members, in order. */
  function Keys(members: seq<(string, Json)>): (ks: seq<string>)
    ensures |ks| == |members|
    ensures forall i :: 0 <= i < |members| ==> ks[i] == members[i].0
  {
    if members == [] then [] else [members[0].0] + Keys(members[1..])
  }

  /** `d[key]` on an object built by the handlers: the first member with
      that key, or None when there is none. */
  function Member(v: Json, key: string): Json {
    if v.Obj? then Find(v.members, key) else Null
  }

  function Find(members: seq<(string, Json)>, key: string): Json {
    if members == [] then Null
    else if members[0].0 == key then members[0].1
    else Find(members[1..], key)
  }

  /** The member found for a key is the first one with that key. */
  lemma {:induction false} FindFirst(members: seq<(string, Json)>, key: string, k: nat)
    requires k < |members| && members[k].0 == key
    requires forall j :: 0 <= j < k ==> members[j].0 != key
    ensures Find(members, key) == members[k].1
  {
    if k > 0 {
      FindFirst(members[1..], key, k - 1);
    }
  }

  /** Python `str(v)`, the text an f-string substitutes for `{v}`. */
  function PyStr(v: Json): string {
    if v.Str? then v.s else PyRepr(v)
  }

  /** Python `repr(v)` of a decoded value. */
  function PyRepr(v: Json): string
    decreases v, 1
  {
    match v
    case Null => "None"
    case Bool(b) => if b then "True" else "False"
    case Number(n) => IntToDecimal(n)
    case Str(s) => StrRepr(s)
    case Arr(items) => "[" + ReprItems(items) + "]"
    case Obj(members) => "{" + ReprMembers(members) + "}"
  }

  function ReprItems(items: seq<Json>): string
    decreases items, 0
  {
    if items == [] then ""
    else if |items| == 1 then PyRepr(items[0])
    else PyRepr(items[0]) + ", " + ReprItems(items[1..])
  }

  function ReprMembers(members: seq<(string, Json)>): string
    decreases members, 0
  {
    if members == [] then ""
    else
      var (key, value) := members[0];
      assert members[0] in members && value < members[0];
      var entry := StrRepr(key) + ": " + PyRepr(value);
      if |members| == 1 then entry else entry + ", " + ReprMembers(members[1..])
  }

  /** Python's repr of a string: single quotes unless the text holds a single
      quote and no double quote; the chosen quote and the backslash are
      escaped, as are tab, newline, carriage return and other control
      characters. */
  function StrRepr(s: string): string {
    var q := if '\'' in s && '"' !in s then '"' else '\'';
    [q] + ReprChars(s, q) + [q]
  }

  function ReprChars(s: string, q: char): string {
    if s == [] then "" else ReprChar(s[0], q) + ReprChars(s[1..], q)
  }

  function ReprChar(c: char, q: char): string {
    if c == q || c == '\\' then ['\\', c]
    else if c == '\t' then "\\t"
    else if c == '\n' then "\\n"
    else if c == '\r' then "\\r"
    else if c as int < 32 || c as int == 127 then "\\x" + [HexDigit(c as int / 16), HexDigit(c as int % 16)]
    else [c]
  }

  function HexDigit(d: int): char
    requires 0 <= d < 16
  {
    "0123456789abcdef"[d]
  }

  /** Python `str(n)` for an integer. */
  function IntToDecimal(n: int): string {
    if n < 0 then "-" + NatToDecimal(-n) else NatToDecimal(n)
  }

  function NatToDecimal(n: nat): string {
    if n < 10 then ["0123456789"[n]] else NatToDecimal(n / 10) + ["0123456789"[n % 10]]
  }
}
