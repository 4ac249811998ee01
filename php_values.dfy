/**
 * The slice of PHP's value semantics the client relies on: arrays as ordered
 * key/value lists, `isset`, `empty`, loose `in_array`, `array_filter` over
 * keys, string conversion, and the objects `json_decode` produces.
 * PHP 8 comparison rules are assumed throughout.
 */
module PhpValues {

  datatype Option<T> = None | Some(value: T)

  /**
   * The outcome of a step that may raise an uncaught PHP `Error` (a TypeError
   * from `urlencode` or `array_map`, or an object that cannot be converted to
   * string). The client only ever catches `Exception`, so such an error ends
   * the whole call; `Fatal` stands for it.
   */
  datatype Result<T> = Ok(value: T) | Fatal

  datatype Key = IntKey(i: int) | StrKey(s: string)

  /**
   * A PHP value. `Object` is a `stdClass` instance (what `json_decode` makes of
   * a JSON object); `File` is a `CURLFile` upload part, kept opaque.
   */
  datatype Value =
    | Null
    | Bool(b: bool)
    | Int(i: int)
    | Str(s: string)
    | Arr(entries: seq<Entry>)
    | Object
    | File(path: Value, mimeType: Value, postedName: Value)

  /** One slot of a PHP array; a PHP array is the ordered list of its slots. */
  datatype Entry = Entry(key: Key, val: Value)

  /** `$a['k']` on an array: the value stored under the string key `k`, or null when there is none. */
  function At(entries: seq<Entry>, k: string): (v: Value)
    ensures v != Null ==> Entry(StrKey(k), v) in entries
    ensures (forall i :: 0 <= i < |entries| ==> entries[i].key != StrKey(k)) ==> v == Null
  {
    if |entries| == 0 then Null
    else if entries[0].key == StrKey(k) then entries[0].val
    else At(entries[1..], k)
  }

  /** `$v['k']` on any value: null unless `v` is an array holding `k`. */
  function Field(v: Value, k: string): Value
  {
    if v.Arr? then At(v.entries, k) else Null
  }

  /** `isset($v)`. */
  predicate IsSet(v: Value) { v != Null }

  /** `empty($v)`: null, false, 0, "", "0" and the empty array. */
  predicate IsEmpty(v: Value)
    ensures IsEmpty(v) ==> v == Null || v == Arr([]) || ToPhpString(v) in {Some(""), Some("0")}
    ensures v.Str? ==> (IsEmpty(v) <==> ToPhpString(v) in {Some(""), Some("0")})
  {
    match v
    case Null => true
    case Bool(b) => !b
    case Int(i) => i == 0
    case Str(s) => s == "" || s == "0"
    case Arr(es) => es == []
    case Object => false
    case File(_, _, _) => false
  }

  /** `!isset($v) || empty($v)`: the test for a required field. */
  predicate Missing(v: Value) { !IsSet(v) || IsEmpty(v) }

  /** `isset($v) && empty($v)`: the test for a field that may be left out but not left blank. */
  predicate Blank(v: Value) { IsSet(v) && IsEmpty(v) }

  /** `Missing` is just `empty`: `empty` is already true of an unset value. */
  lemma MissingIsEmpty(v: Value)
    ensures Missing(v) <==> IsEmpty(v)
    ensures Blank(v) ==> Missing(v)
  {
  }

  /**
   * `in_array($v, $words)` with PHP 8 loose comparison, for lists of
   * non-numeric, non-empty words: a string matches by equality, and `true`
   * matches any such word.
   */
  predicate LooseIn(v: Value, words: seq<string>)
    ensures v.Str? ==> (LooseIn(v, words) <==> v.s in words)
    ensures !v.Str? && v != Bool(true) ==> !LooseIn(v, words)
  {
    (v.Str? && v.s in words) || (v == Bool(true) && |words| > 0)
  }

  /**
   * `array_filter($a, fn($v, $k) => in_array($k, $names), ARRAY_FILTER_USE_BOTH)`:
   * the slots whose key is one of the names, in their original order. An
   * integer key never loosely equals a non-numeric name under PHP 8.
   */
  function Only(entries: seq<Entry>, names: seq<string>): (r: seq<Entry>)
    ensures |r| <= |entries|
    ensures forall i :: 0 <= i < |r| ==> r[i] in entries && r[i].key.StrKey? && r[i].key.s in names
  {
    if |entries| == 0 then []
    else
      var e := entries[0];
      var rest := Only(entries[1..], names);
      if e.key.StrKey? && e.key.s in names then [e] + rest else rest
  }

  /** Whitelisting keeps exactly the listed fields, with their values unchanged. */
  lemma {:induction false} OnlyAt(entries: seq<Entry>, names: seq<string>, k: string)
    ensures At(Only(entries, names), k) == if k in names then At(entries, k) else Null
    decreases |entries|
  {
    if |entries| > 0 {
      OnlyAt(entries[1..], names, k);
    }
  }

  /** `$a['k'] = $v`: overwrite the slot of `k` in place, or append a new one at the end. */
  function Assign(entries: seq<Entry>, k: string, v: Value): (r: seq<Entry>)
  {
    if |entries| == 0 then [Entry(StrKey(k), v)]
    else if entries[0].key == StrKey(k) then [Entry(StrKey(k), v)] + entries[1..]
    else [entries[0]] + Assign(entries[1..], k, v)
  }

  /** After `$a['k'] = $v`, `$a['k']` is `$v` and every other key reads as before. */
  lemma {:induction false} AssignAt(entries: seq<Entry>, k: string, v: Value, k': string)
    ensures At(Assign(entries, k, v), k') == if k' == k then v else At(entries, k')
    decreases |entries|
  {
    if |entries| > 0 && entries[0].key != StrKey(k) {
      AssignAt(entries[1..], k, v, k');
    }
  }

  /** The values of an array in iteration order (what `foreach ($a as $v)` visits). */
  function Values(entries: seq<Entry>): (r: seq<Value>)
    ensures |r| == |entries|
    ensures forall i :: 0 <= i < |r| ==> r[i] == entries[i].val
  {
    if |entries| == 0 then [] else [entries[0].val] + Values(entries[1..])
  }

  // ------------------------------------------------------ integer to string

  function DigitChar(d: nat): (c: char)
    requires d < 10
  {
    ('0' as int + d) as char
  }

  /** Decimal digits of a natural number, without leading zeros. */
  function NatToString(n: nat): (r: string)
    ensures |r| >= 1
    ensures forall i :: 0 <= i < |r| ==> '0' <= r[i] <= '9'
    ensures r[0] == '0' ==> n == 0
    decreases n
  {
    if n < 10 then [DigitChar(n)] else NatToString(n / 10) + [DigitChar(n % 10)]
  }

  /** The number a string of decimal digits denotes. */
  function ParseNat(s: string): nat
    requires forall i :: 0 <= i < |s| ==> '0' <= s[i] <= '9'
    decreases |s|
  {
    if |s| == 0 then 0 else 10 * ParseNat(s[..|s| - 1]) + (s[|s| - 1] as int - '0' as int)
  }

  /** The decimal rendering of a number reads back as that number. */
  lemma {:induction false} NatToStringRoundTrip(n: nat)
    ensures ParseNat(NatToString(n)) == n
    decreases n
  {
    if n >= 10 {
      NatToStringRoundTrip(n / 10);
      var s := NatToString(n);
      var d := n % 10;
      assert s == NatToString(n / 10) + [DigitChar(d)];
      assert s[..|s| - 1] == NatToString(n / 10);
      assert s[|s| - 1] as int - '0' as int == d;
    }
  }

  /** `(string)$n` for an integer. */
  function IntToString(n: int): (r: string)
  {
    if n < 0 then "-" + NatToString(-n) else NatToString(n)
  }

  /**
   * The implicit conversion to string that a string parameter of a built-in
   * function applies (outside strict_types): arrays and objects are refused
   * with a TypeError.
   */
  function ToPhpString(v: Value): (r: Option<string>)
    ensures r.None? <==> (v.Arr? || v.Object? || v.File?)
  {
    match v
    case Null => Some("")
    case Bool(b) => Some(if b then "1" else "")
    case Int(i) => Some(IntToString(i))
    case Str(s) => Some(s)
    case Arr(_) => None
    case Object => None
    case File(_, _, _) => None
  }

  // ------------------------------------------------------------------- JSON

  /** A decoded JSON document (fractional numbers are not modelled). */
  datatype Json =
    | JNull
    | JBool(b: bool)
    | JInt(i: int)
    | JStr(s: string)
    | JArr(items: seq<Json>)
    | JObj(members: seq<Member>)

  datatype Member = Member(name: string, val: Json)

  /** `$j->name`: the member of a decoded object, or null (PHP only warns) for anything else. */
  function Prop(j: Json, name: string): (r: Json)
    ensures r != JNull ==> j.JObj? && Member(name, r) in j.members
  {
    if j.JObj? then PropIn(j.members, name) else JNull
  }

  function PropIn(members: seq<Member>, name: string): (r: Json)
    ensures r != JNull ==> Member(name, r) in members
  {
    if |members| == 0 then JNull
    else if members[0].name == name then members[0].val
    else PropIn(members[1..], name)
  }

  /** The PHP value `json_decode` (objects as `stdClass`) yields for a JSON document. */
  function JsonToValue(j: Json): (v: Value)
    ensures IsEmpty(v) <==> j in {JNull, JBool(false), JInt(0), JStr(""), JStr("0"), JArr([])}
  {
    match j
    case JNull => Null
    case JBool(b) => Bool(b)
    case JInt(i) => Int(i)
    case JStr(s) => Str(s)
    case JArr(items) =>
      Arr(seq(|items|, i requires 0 <= i < |items| => Entry(IntKey(i), JsonToValue(items[i]))))
    case JObj(_) => Object
  }

  /**
   * `(string)` of a decoded JSON value, as `implode` applies it: null and
   * false are "", true is "1", an array is "Array", and a `stdClass` object
   * cannot be converted (an Error).
   */
  function Stringify(j: Json): (r: Option<string>)
    ensures r.None? <==> j.JObj?
  {
    match j
    case JNull => Some("")
    case JBool(b) => Some(if b then "1" else "")
    case JInt(i) => Some(IntToString(i))
    case JStr(s) => Some(s)
    case JArr(_) => Some("Array")
    case JObj(_) => None
  }
}
