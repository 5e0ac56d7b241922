/** A decoded JSON document as `json_decode($text, true)` hands it to the
    crawler, together with the PHP operations the crawler applies to such
    values: array indexing (`$v['key']`, `$v[0]`), `array_key_exists`, the
    null-coalescing `??`, truthiness in an `if` or `?:`, the `(int)` cast,
    `foreach` over a list and `array_column`. */
module PhpJson {
  import opened Basics

  /** JSON objects are unordered maps here; JSON numbers are `JInt` when
      integral in the text and `JReal` otherwise, as `json_decode` decides. */
  datatype Json =
    | JNull
    | JBool(b: bool)
    | JInt(i: int)
    | JReal(r: real)
    | JStr(s: string)
    | JArr(items: seq<Json>)
    | JObj(fields: map<string, Json>)

  /** PHP's `is_array` on a decoded value: both lists and objects decode to arrays. */
  predicate IsArray(v: Json) {
    v.JArr? || v.JObj?
  }

  /** `$v[$key]` for a non-numeric string key.  A missing key, or indexing a
      value that is not an object, yields `null` (PHP emits only a warning).
      A list has integer keys only, so it never holds a non-numeric key. */
  function Field(v: Json, key: string): (r: Json)
    ensures (v.JObj? && key in v.fields) ==> r == v.fields[key]
    ensures !(v.JObj? && key in v.fields) ==> r == JNull
  {
    match v
    case JObj(m) => if key in m then m[key] else JNull
    case _ => JNull
  }

  /** `array_key_exists($key, $v)` for a non-numeric key: true even when the
      value stored under the key is `null`. */
  predicate HasKey(v: Json, key: string)
    ensures Field(v, key) != JNull ==> HasKey(v, key)
    ensures HasKey(v, key) ==> v.JObj? && key in v.fields && Field(v, key) == v.fields[key]
    ensures v.JObj? && key in v.fields && v.fields[key] == JNull ==> HasKey(v, key)
  {
    v.JObj? && key in v.fields
  }

  /** `$v[$i]` for an integer index.  PHP stores the object key "0" under
      the integer 0, so an object is consulted under the decimal spelling. */
  function Index(v: Json, i: nat): (r: Json)
    ensures v.JArr? && i < |v.items| ==> r == v.items[i]
    ensures v.JArr? && i >= |v.items| ==> r == JNull
    ensures v.JObj? ==> r == Field(v, NatToString(i))
    ensures !v.JArr? && !v.JObj? ==> r == JNull
  {
    match v
    case JArr(a) => if i < |a| then a[i] else JNull
    case JObj(_) => Field(v, NatToString(i))
    case _ => JNull
  }

  /** `$v ?? $default`. */
  function Coalesce(v: Json, default: Json): (r: Json)
    ensures r == JNull ==> v == JNull && default == JNull
    ensures v != JNull ==> r == v
    ensures v == JNull ==> r == default
  {
    if v == JNull then default else v
  }

  /** PHP truthiness: `null`, `false`, `0`, `0.0`, `""`, `"0"` and the empty
      array are falsy; everything else is truthy. */
  predicate Truthy(v: Json)
    ensures v in {JNull, JBool(false), JInt(0), JReal(0.0), JStr(""), JStr("0"), JArr([]), JObj(map[])} ==> !Truthy(v)
    ensures v.JStr? && |v.s| > 1 ==> Truthy(v)
    ensures v.JInt? ==> (Truthy(v) <==> v.i != 0)
    ensures v.JArr? ==> (Truthy(v) <==> v.items != [])
    ensures Truthy(v) <==> v !in {JNull, JBool(false), JInt(0), JReal(0.0), JStr(""), JStr("0"), JArr([]), JObj(map[])}
  {
    match v
    case JNull => false
    case JBool(b) => b
    case JInt(i) => i != 0
    case JReal(r) => r != 0.0
    case JStr(s) => s != "" && s != "0"
    case JArr(a) => |a| > 0
    case JObj(m) => |m| > 0
  }

  // ---------------------------------------------------------------------
  // Decimal digits: the `%d` conversion of `sprintf` and the `(int)` cast
  // of a string both go through them.

  predicate IsDigit(c: char) {
    '0' <= c <= '9'
  }

  function DigitChar(d: nat): (c: char)
    requires d < 10
    ensures IsDigit(c) && DigitValue(c) == d
  {
    ['0', '1', '2', '3', '4', '5', '6', '7', '8', '9'][d]
  }

  function DigitValue(c: char): (d: nat)
    requires IsDigit(c)
    ensures d < 10
  {
    c as int - '0' as int
  }

  /** The decimal spelling of `n`, without leading zeros. */
  function NatToString(n: nat): (s: string)
    ensures |s| > 0 && forall k :: 0 <= k < |s| ==> IsDigit(s[k])
    ensures |s| > 1 ==> s[0] != '0'
    decreases n
  {
    if n < 10 then [DigitChar(n)] else NatToString(n / 10) + [DigitChar(n % 10)]
  }

  /** `sprintf('%d', $i)`. */
  function IntToString(i: int): (s: string)
    ensures |s| > 0
    ensures (s[0] == '-') <==> i < 0
    ensures s[if i < 0 then 1 else 0..] == NatToString(if i < 0 then -i else i)
  {
    if i < 0 then "-" + NatToString(-i) else NatToString(i)
  }

  /** The length of the run of digits starting at `from`. */
  function DigitRun(s: string, from: nat): (n: nat)
    requires from <= |s|
    ensures from + n <= |s|
    ensures forall k :: from <= k < from + n ==> IsDigit(s[k])
    ensures from + n == |s| || !IsDigit(s[from + n])
    decreases |s| - from
  {
    if from < |s| && IsDigit(s[from]) then 1 + DigitRun(s, from + 1) else 0
  }

  /** The value of a string made only of digits. */
  function DigitsValue(s: string): nat
    requires forall k :: 0 <= k < |s| ==> IsDigit(s[k])
    decreases |s|
  {
    if s == [] then 0
    else DigitsValue(s[..|s| - 1]) * 10 + DigitValue(s[|s| - 1])
  }

  /** The characters PHP skips before a number: space, \t, \n, \r, \v, \f. */
  predicate IsLeadingBlank(c: char) {
    c == ' ' || c == '\t' || c == '\n' || c == '\r' || c == '\U{000B}' || c == '\U{000C}'
  }

  function SkipBlanks(s: string, from: nat): (p: nat)
    requires from <= |s|
    ensures from <= p <= |s|
    ensures p == |s| || !IsLeadingBlank(s[p])
    decreases |s| - from
  {
    if from < |s| && IsLeadingBlank(s[from]) then SkipBlanks(s, from + 1) else from
  }

  /** `(int) $s` for a string: leading blanks, an optional sign, then the
      longest run of digits; a string without such a prefix is 0. */
  function StringToInt(s: string): (n: int)
    ensures (forall k :: 0 <= k < |s| ==> IsDigit(s[k])) ==> n == DigitsValue(s)
    ensures |s| > 0 && !IsLeadingBlank(s[0]) && !IsDigit(s[0]) && s[0] != '-' && s[0] != '+' ==> n == 0
  {
    DigitRunAll(s, 0);
    assert s[0..|s|] == s;
    var p := SkipBlanks(s, 0);
    var neg := p < |s| && s[p] == '-';
    var q := if p < |s| && (s[p] == '-' || s[p] == '+') then p + 1 else p;
    var n := DigitRun(s, q);
    var v: int := DigitsValue(s[q..q + n]);
    if neg then -v else v
  }

  /** `(int) $v`. */
  function ToInt(v: Json): (n: int)
    ensures v.JInt? ==> n == v.i
    ensures v == JNull || v == JBool(false) ==> n == 0
    ensures v == JBool(true) ==> n == 1
    ensures v.JReal? && v.r >= 0.0 ==> 0 <= n && n as real <= v.r < n as real + 1.0
    ensures v.JReal? && v.r < 0.0 ==> n <= 0 && n as real - 1.0 < v.r <= n as real
    ensures v.JStr? ==> n == StringToInt(v.s)
  {
    match v
    case JNull => 0
    case JBool(b) => if b then 1 else 0
    case JInt(i) => i
    case JReal(r) => if r >= 0.0 then r.Floor else -((-r).Floor)
    case JStr(s) => StringToInt(s)
    case JArr(a) => if |a| == 0 then 0 else 1
    case JObj(m) => if |m| == 0 then 0 else 1
  }

  /** The values a `foreach` visits.  A non-array value is not iterated at
      all (PHP warns and skips the loop). */
  function Elements(v: Json): (items: seq<Json>)
    ensures v.JArr? ==> items == v.items
    ensures !v.JArr? ==> items == []
  {
    if v.JArr? then v.items else []
  }

  /** The positions of the rows that carry `key`, increasing. */
  function KeyedRows(rows: seq<Json>, key: string): (idx: seq<nat>)
    ensures forall k :: 0 <= k < |idx| ==> idx[k] < |rows| && HasKey(rows[idx[k]], key)
    ensures forall k, l :: 0 <= k < l < |idx| ==> idx[k] < idx[l]
    ensures forall i :: 0 <= i < |rows| && HasKey(rows[i], key) ==> i in idx
    ensures |idx| <= |rows|
    decreases |rows|
  {
    if rows == [] then []
    else
      var n := |rows| - 1;
      var init := KeyedRows(rows[..n], key);
      assert forall k :: 0 <= k < |init| ==> rows[..n][init[k]] == rows[init[k]];
      if HasKey(rows[n], key) then init + [n] else init
  }

  /** When every row carries the key, every row is kept. */
  lemma {:induction false} AllRowsKeyed(rows: seq<Json>, key: string)
    ensures (forall i :: 0 <= i < |rows| ==> HasKey(rows[i], key)) ==> |KeyedRows(rows, key)| == |rows|
    decreases |rows|
  {
    if rows != [] {
      var n := |rows| - 1;
      assert forall i :: 0 <= i < n ==> rows[..n][i] == rows[i];
      AllRowsKeyed(rows[..n], key);
    }
  }

  /** `col` lists, in order, the values of the rows that carry `key`: the
      k-th value is that of the k-th such row. */
  predicate ColumnOf(rows: seq<Json>, key: string, col: seq<Json>) {
    var idx := KeyedRows(rows, key);
    |col| == |idx| && forall k :: 0 <= k < |idx| ==> col[k] == rows[idx[k]].fields[key]
  }

  /** `array_column($rows, $key)`: the values stored under `key`, in row
      order, skipping the rows that do not have the key. */
  function Column(rows: seq<Json>, key: string): (col: seq<Json>)
    ensures |col| <= |rows|
    ensures (forall i :: 0 <= i < |rows| ==> HasKey(rows[i], key)) ==> |col| == |rows|
    ensures ColumnOf(rows, key, col)
    decreases |rows|
  {
    if rows == [] then []
    else
      var n := |rows| - 1;
      var init := Column(rows[..n], key);
      ColumnStep(rows, key, init);
      var col := if HasKey(rows[n], key) then init + [rows[n].fields[key]] else init;
      ColumnLengths(rows, key, col);
      col
  }

  /** A column is no longer than its rows, and as long when every row is keyed. */
  lemma ColumnLengths(rows: seq<Json>, key: string, col: seq<Json>)
    requires ColumnOf(rows, key, col)
    ensures |col| <= |rows|
    ensures (forall i :: 0 <= i < |rows| ==> HasKey(rows[i], key)) ==> |col| == |rows|
  {
    AllRowsKeyed(rows, key);
  }

  /** One more row: its value is appended exactly when it carries the key. */
  lemma ColumnStep(rows: seq<Json>, key: string, init: seq<Json>)
    requires rows != [] && ColumnOf(rows[..|rows| - 1], key, init)
    ensures var last := rows[|rows| - 1];
      ColumnOf(rows, key, if HasKey(last, key) then init + [last.fields[key]] else init)
  {
    var n := |rows| - 1;
    var idx := KeyedRows(rows[..n], key);
    assert forall k :: 0 <= k < |idx| ==> rows[..n][idx[k]] == rows[idx[k]];
  }

  // ---------------------------------------------------------------------
  // Round trips between the two conversions.

  lemma {:induction false} DigitsValueOfNatToString(n: nat)
    ensures DigitsValue(NatToString(n)) == n
    decreases n
  {
    var s := NatToString(n);
    if n >= 10 {
      DigitsValueOfNatToString(n / 10);
      assert s[..|s| - 1] == NatToString(n / 10);
    }
  }

  /** Reading back what `%d` wrote: `(int) sprintf('%d', $i) === $i`. */
  lemma IntToStringRoundTrip(i: int)
    ensures StringToInt(IntToString(i)) == i
  {
    var s := IntToString(i);
    var digits := if i < 0 then NatToString(-i) else NatToString(i);
    var q := if i < 0 then 1 else 0;
    assert s[q..] == digits;
    assert SkipBlanks(s, 0) == 0;
    DigitRunAll(s, q);
    assert s[q..q + DigitRun(s, q)] == digits;
    DigitsValueOfNatToString(if i < 0 then -i else i);
  }

  /** A string that is all digits from `from` on is read to its end. */
  lemma {:induction false} DigitRunAll(s: string, from: nat)
    requires from <= |s|
    ensures (forall k :: from <= k < |s| ==> IsDigit(s[k])) ==> DigitRun(s, from) == |s| - from
    decreases |s| - from
  {
    if from < |s| {
      DigitRunAll(s, from + 1);
    }
  }

  /** Every row that carries the key contributes its value to `array_column`. */
  lemma {:induction false} ColumnKeepsKeyedRows(rows: seq<Json>, key: string, i: nat)
    requires i < |rows| && HasKey(rows[i], key)
    ensures rows[i].fields[key] in Column(rows, key)
    decreases |rows|
  {
    var n := |rows| - 1;
    if i < n {
      assert rows[..n][i] == rows[i];
      ColumnKeepsKeyedRows(rows[..n], key, i);
    }
  }
}
