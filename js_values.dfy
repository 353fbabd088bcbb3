/**
 * The few pieces of JavaScript semantics the route handlers and the query
 * pipeline depend on: parsed JSON values, truthiness (`x || y`), the
 * conversion a template literal applies (`${x}`), `String.prototype.trim`,
 * `Array.prototype.join`, and the `e instanceof Error ? e.message : ...`
 * idiom used by every catch block.
 */
module JsValues {
  import opened Wrappers

  /** A value produced by `JSON.parse`. Numbers are modelled as integers. */
  datatype Json =
    | JNull
    | JBool(b: bool)
    | JNumber(n: int)
    | JString(s: string)
    | JArray(items: seq<Json>)
    | JObject(members: map<string, Json>)

  /** What a `catch` clause receives: an `Error` object or any other thrown value. */
  datatype Thrown = ErrorObject(message: string) | NonError

  /** `e instanceof Error ? e.message : fallback` */
  function MessageOr(e: Thrown, fallback: string): (m: string)
    ensures e.ErrorObject? ==> m == e.message
    ensures e.NonError? ==> m == fallback
  {
    match e
    case ErrorObject(msg) => msg
    case NonError => fallback
  }

  /** JavaScript truthiness of a present value. */
  predicate Truthy(v: Json) {
    match v
    case JNull => false
    case JBool(b) => b
    case JNumber(n) => n != 0
    case JString(s) => s != ""
    case JArray(_) => true
    case JObject(_) => true
  }

  /** Truthiness of a property that may be `undefined` (absent). */
  predicate TruthyField(v: Option<Json>) {
    v.Some? && Truthy(v.value)
  }

  /** `v || null`: a truthy value is kept, anything else (absent, 0, "", false, null) becomes null. */
  function OrNull(v: Option<Json>): (r: Json)
    ensures TruthyField(v) ==> Some(r) == v
    ensures !TruthyField(v) ==> r == JNull
    ensures r == JNull || Truthy(r)
  {
    if TruthyField(v) then v.value else JNull
  }

  /** Reads property `name` of a parsed value that is not null: only objects have own members. */
  function Field(v: Json, name: string): (r: Option<Json>)
    ensures r.Some? <==> v.JObject? && name in v.members
    ensures r.Some? ==> r.value == v.members[name]
  {
    match v
    case JObject(m) => if name in m then Some(m[name]) else None
    case _ => None
  }

  // ---------------------------------------------------------------------
  // String conversion, as applied by `${x}` in a template literal

  predicate IsDigit(c: char) {
    '0' <= c <= '9'
  }

  predicate AllDigits(s: string) {
    forall i :: 0 <= i < |s| ==> IsDigit(s[i])
  }

  function DigitChar(d: nat): (c: char)
    requires d < 10
    ensures IsDigit(c) && DigitValue(c) == d
  {
    ('0' as int + d) as char
  }

  function DigitValue(c: char): nat
    requires IsDigit(c)
  {
    c as int - '0' as int
  }

  /** The number a string of decimal digits denotes, most significant digit first. */
  function DecimalValue(s: string): nat
    requires AllDigits(s)
    decreases |s|
  {
    if s == [] then 0 else DecimalValue(s[..|s| - 1]) * 10 + DigitValue(s[|s| - 1])
  }

  /** `String(n)` for a non-negative integer: its decimal digits, with no leading zero. */
  function NatToString(n: nat): (s: string)
    ensures s != [] && AllDigits(s)
    ensures s[0] == '0' <==> n == 0
    decreases n
  {
    if n < 10 then [DigitChar(n)] else NatToString(n / 10) + [DigitChar(n % 10)]
  }

  /** Reading the digits back gives the number. */
  lemma {:induction false} NatToStringValue(n: nat)
    ensures DecimalValue(NatToString(n)) == n
    decreases n
  {
    if n >= 10 {
      var s := NatToString(n / 10);
      NatToStringValue(n / 10);
      assert (s + [DigitChar(n % 10)])[..|s|] == s;
    }
  }

  /** `String(n)` for an integer: a '-' exactly for negative numbers, then the digits of the magnitude. */
  function IntToString(n: int): (r: string)
    ensures r != [] && (r[0] == '-' <==> n < 0)
    ensures var digits := if n < 0 then r[1..] else r;
      digits != [] && AllDigits(digits) && (digits[0] == '0' <==> n == 0)
  {
    if n < 0 then "-" + NatToString(-n) else NatToString(n)
  }

  /** Reading the sign and the digits back gives the number. */
  lemma IntToStringValue(n: int)
    ensures var r := IntToString(n);
      (if r[0] == '-' then -(DecimalValue(r[1..]) as int) else DecimalValue(r)) == n
  {
    if n < 0 {
      NatToStringValue(-n);
      assert IntToString(n)[1..] == NatToString(-n);
    } else {
      NatToStringValue(n);
    }
  }

  /**
   * The TypeError V8 throws when `String(v)` finds neither a callable
   * `toString` nor a `valueOf` that yields a primitive.
   */
  const ToPrimitiveMessage := "Cannot convert object to primitive value"

  /**
   * A parsed value that `String(v)` cannot convert. An object with its own
   * `toString` member shadows `Object.prototype.toString` with a value that
   * is not callable (JSON has no functions), and the inherited `valueOf`
   * returns the object itself; an array converts by joining its elements,
   * so it fails when any element does.
   */
  predicate Unconvertible(v: Json)
    decreases v
  {
    match v
    case JObject(m) => "toString" in m
    case JArray(items) => exists i :: 0 <= i < |items| && Unconvertible(items[i])
    case _ => false
  }

  /** `String(v)` for a present value; `None` when the conversion throws `ToPrimitiveMessage`. */
  function ToString(v: Json): (r: Option<string>)
    ensures v.JString? ==> r == Some(v.s)
    ensures v.JObject? ==> (r.None? <==> "toString" in v.members)
    ensures v.JObject? && "toString" !in v.members ==> r == Some("[object Object]")
    ensures v.JNumber? ==> r == Some(IntToString(v.n))
    decreases v, 0
  {
    match v
    case JNull => Some("null")
    case JBool(b) => Some(if b then "true" else "false")
    case JNumber(n) => Some(IntToString(n))
    case JString(s) => Some(s)
    case JArray(items) => ArrayToString(items)
    case JObject(m) => if "toString" in m then None else Some("[object Object]")
  }

  /** How an array element is shown: `null` as "", anything else by `String`. */
  function ElementText(v: Json): Option<string>
    decreases v, 1
  {
    if v == JNull then Some("") else ToString(v)
  }

  /** `Array.prototype.toString`: elements joined by ",", null elements shown as "". */
  function ArrayToString(items: seq<Json>): (r: Option<string>)
    ensures items == [] ==> r == Some("")
    decreases items
  {
    if items == [] then Some("")
    else
      var last := items[|items| - 1];
      var shown := ElementText(last);
      if shown.None? then None
      else if |items| == 1 then shown
      else
        var init := ArrayToString(items[..|items| - 1]);
        if init.None? then None else Some(init.value + "," + shown.value)
  }

  /** The conversion throws exactly on the values `Unconvertible` describes. */
  lemma {:induction false} ToStringThrowsIff(v: Json)
    ensures ToString(v).None? <==> Unconvertible(v)
    decreases v, 1
  {
    if v.JArray? {
      ArrayToStringThrowsIff(v.items);
    }
  }

  /** An array fails to convert exactly when one of its elements does. */
  lemma {:induction false} ArrayToStringThrowsIff(items: seq<Json>)
    ensures ArrayToString(items).None? <==> exists i :: 0 <= i < |items| && Unconvertible(items[i])
    decreases items, 0
  {
    if items != [] {
      var n := |items|;
      var last := items[n - 1];
      if last != JNull {
        ToStringThrowsIff(last);
      }
      if n > 1 {
        var init := items[..n - 1];
        ArrayToStringThrowsIff(init);
        if exists i :: 0 <= i < |init| && Unconvertible(init[i]) {
          var i :| 0 <= i < |init| && Unconvertible(init[i]);
          assert items[i] == init[i];
        }
        if exists i :: 0 <= i < n && Unconvertible(items[i]) {
          var i :| 0 <= i < n && Unconvertible(items[i]);
          if i < n - 1 {
            assert init[i] == items[i];
          }
        }
      }
    }
  }

  /** `${v}` for a property that may be absent; `None` when the conversion throws. */
  function TemplateString(v: Option<Json>): (s: Option<string>)
    ensures v.None? ==> s == Some("undefined")
    ensures v.Some? && v.value.JString? ==> s == Some(v.value.s)
    ensures v.Some? && v.value.JObject? ==>
      s == (if "toString" in v.value.members then None else Some("[object Object]"))
  {
    match v
    case None => Some("undefined")
    case Some(x) => ToString(x)
  }

  // ---------------------------------------------------------------------
  // String.prototype.trim

  /**
   * The characters ECMAScript's `trim` removes: WhiteSpace (tab, vertical
   * tab, form feed, space, no-break space, the byte order mark and every
   * space separator) and LineTerminator (LF, CR, U+2028, U+2029).
   */
  predicate IsWhitespace(c: char) {
    var n := c as int;
    n == 0x09 || n == 0x0A || n == 0x0B || n == 0x0C || n == 0x0D || n == 0x20
    || n == 0xA0 || n == 0x1680 || (0x2000 <= n <= 0x200A)
    || n == 0x2028 || n == 0x2029 || n == 0x202F || n == 0x205F
    || n == 0x3000 || n == 0xFEFF
  }

  /** Drops leading whitespace: the result is a suffix of `s` starting at a non-space. */
  function TrimStart(s: string): (r: string)
    ensures |r| <= |s| && r == s[|s| - |r|..]
    ensures r == [] || !IsWhitespace(r[0])
    decreases |s|
  {
    if s != [] && IsWhitespace(s[0]) then TrimStart(s[1..]) else s
  }

  /** Everything `TrimStart` drops is whitespace. */
  lemma {:induction false} TrimStartDropsWhitespace(s: string)
    ensures forall i :: 0 <= i < |s| - |TrimStart(s)| ==> IsWhitespace(s[i])
    decreases |s|
  {
    if s != [] && IsWhitespace(s[0]) {
      TrimStartDropsWhitespace(s[1..]);
      forall i | 1 <= i < |s| - |TrimStart(s)| ensures IsWhitespace(s[i]) {
        assert s[i] == s[1..][i - 1];
      }
    }
  }

  /** Drops trailing whitespace: the result is a prefix of `s` ending at a non-space. */
  function TrimEnd(s: string): (r: string)
    ensures |r| <= |s| && r == s[..|r|]
    ensures r == [] || !IsWhitespace(r[|r| - 1])
    decreases |s|
  {
    if s != [] && IsWhitespace(s[|s| - 1]) then TrimEnd(s[..|s| - 1]) else s
  }

  /** Everything `TrimEnd` drops is whitespace. */
  lemma {:induction false} TrimEndDropsWhitespace(s: string)
    ensures forall i :: |TrimEnd(s)| <= i < |s| ==> IsWhitespace(s[i])
    decreases |s|
  {
    if s != [] && IsWhitespace(s[|s| - 1]) {
      TrimEndDropsWhitespace(s[..|s| - 1]);
      forall i | |TrimEnd(s)| <= i < |s| - 1 ensures IsWhitespace(s[i]) {
        assert s[i] == s[..|s| - 1][i];
      }
    }
  }

  function Trim(s: string): (r: string)
    ensures |r| <= |s|
  {
    TrimEnd(TrimStart(s))
  }

  /** A string is blank when `s.trim().length === 0`. */
  predicate IsBlank(s: string)
    ensures s == [] ==> IsBlank(s)
  {
    Trim(s) == ""
  }

  /** `trim` yields "" exactly when every character is whitespace. */
  lemma BlankIffAllWhitespace(s: string)
    ensures IsBlank(s) <==> forall i :: 0 <= i < |s| ==> IsWhitespace(s[i])
  {
    var t := TrimStart(s);
    TrimStartDropsWhitespace(s);
    TrimEndDropsWhitespace(t);
    if forall i :: 0 <= i < |s| ==> IsWhitespace(s[i]) {
      assert t == [];
    }
  }

  /** `trim` neither starts nor ends with whitespace. */
  lemma TrimHasNoOuterWhitespace(s: string)
    ensures Trim(s) == [] || (!IsWhitespace(Trim(s)[0]) && !IsWhitespace(Trim(s)[|Trim(s)| - 1]))
  {
    var t := TrimStart(s);
    var r := TrimEnd(t);
    if r != [] {
      assert r[0] == t[0];
    }
  }

  /** Trimming twice is trimming once. */
  lemma TrimIdempotent(s: string)
    ensures Trim(Trim(s)) == Trim(s)
  {
    var r := Trim(s);
    TrimHasNoOuterWhitespace(s);
    if r != [] {
      var a := TrimStart(r);
      assert a == r[|r| - |a|..];
      assert a == r;
      var b := TrimEnd(a);
      assert b == r[..|b|];
    }
  }

  // ---------------------------------------------------------------------
  // Array.prototype.join

  /** `xs.join(sep)`, built the way the array is: element by element from the front. */
  function Join(xs: seq<string>, sep: string): (r: string)
    ensures xs == [] ==> r == ""
    ensures |xs| == 1 ==> r == xs[0]
    decreases |xs|
  {
    if |xs| == 0 then ""
    else if |xs| == 1 then xs[0]
    else Join(xs[..|xs| - 1], sep) + sep + xs[|xs| - 1]
  }

  /** Where element `j` begins in `Join(xs, sep)`. */
  function Offset(xs: seq<string>, sep: string, j: nat): nat
    requires j < |xs|
  {
    if j == 0 then 0 else Offset(xs, sep, j - 1) + |xs[j - 1]| + |sep|
  }

  /**
   * An array that converts shows as its elements' texts joined by ",": the
   * same text `Array.prototype.join(",")` builds from them.
   */
  lemma {:induction false} ArrayToStringIsJoin(items: seq<Json>, shown: seq<string>)
    requires |shown| == |items|
    requires forall i :: 0 <= i < |items| ==> ElementText(items[i]) == Some(shown[i])
    ensures ArrayToString(items) == Some(Join(shown, ","))
    decreases |items|
  {
    if |items| > 1 {
      var n := |items|;
      ArrayToStringIsJoin(items[..n - 1], shown[..n - 1]);
    }
  }

  /** Offsets depend only on the elements before them. */
  lemma {:induction false} OffsetOfPrefix(xs: seq<string>, sep: string, m: nat, j: nat)
    requires j < m <= |xs|
    ensures Offset(xs[..m], sep, j) == Offset(xs, sep, j)
  {
    if j > 0 {
      OffsetOfPrefix(xs, sep, m, j - 1);
    }
  }

  /** The joined string ends with the last element. */
  lemma {:induction false} JoinLength(xs: seq<string>, sep: string)
    requires |xs| > 0
    ensures |Join(xs, sep)| == Offset(xs, sep, |xs| - 1) + |xs[|xs| - 1]|
  {
    if |xs| > 1 {
      var init := xs[..|xs| - 1];
      JoinLength(init, sep);
      OffsetOfPrefix(xs, sep, |xs| - 1, |xs| - 2);
    }
  }

  /** Slicing a concatenation inside either of its parts. */
  lemma SliceOfConcat(b: string, c: string, lo: nat, hi: nat)
    ensures lo <= hi <= |b| ==> (b + c)[lo..hi] == b[lo..hi]
    ensures (b + c)[|b|..|b| + |c|] == c
  {
  }

  /** Every element occurs in the joined string at its offset. */
  lemma {:induction false} JoinAt(xs: seq<string>, sep: string, j: nat)
    requires j < |xs|
    ensures Offset(xs, sep, j) + |xs[j]| <= |Join(xs, sep)|
    ensures Join(xs, sep)[Offset(xs, sep, j)..Offset(xs, sep, j) + |xs[j]|] == xs[j]
  {
    var n := |xs|;
    if n > 1 {
      var init := xs[..n - 1];
      var head := Join(init, sep);
      JoinLength(init, sep);
      OffsetOfPrefix(xs, sep, n - 1, n - 2);
      assert |head| + |sep| == Offset(xs, sep, n - 1);
      if j == n - 1 {
        SliceOfConcat(head + sep, xs[n - 1], 0, 0);
      } else {
        JoinAt(init, sep, j);
        OffsetOfPrefix(xs, sep, n - 1, j);
        var lo := Offset(xs, sep, j);
        SliceOfConcat(head + sep, xs[n - 1], lo, lo + |xs[j]|);
        SliceOfConcat(head, sep, lo, lo + |xs[j]|);
      }
    }
  }

  /** Consecutive elements are separated by exactly `sep`. */
  lemma {:induction false} JoinSeparator(xs: seq<string>, sep: string, j: nat)
    requires j + 1 < |xs|
    ensures Offset(xs, sep, j + 1) <= |Join(xs, sep)|
    ensures Join(xs, sep)[Offset(xs, sep, j) + |xs[j]|..Offset(xs, sep, j + 1)] == sep
  {
    var n := |xs|;
    if j + 1 == n - 1 {
      JoinSeparatorBeforeLast(xs, sep);
    } else {
      var init := xs[..n - 1];
      var head := Join(init, sep);
      assert Join(xs, sep) == head + sep + xs[n - 1];
      JoinSeparator(init, sep, j);
      OffsetOfPrefix(xs, sep, n - 1, j);
      OffsetOfPrefix(xs, sep, n - 1, j + 1);
      assert init[j] == xs[j];
      var lo := Offset(xs, sep, j) + |xs[j]|;
      var hi := Offset(xs, sep, j + 1);
      assert head[lo..hi] == sep;
      SliceOfConcat(head + sep, xs[n - 1], lo, hi);
      SliceOfConcat(head, sep, lo, hi);
    }
  }

  /** The separator in front of the last element. */
  lemma JoinSeparatorBeforeLast(xs: seq<string>, sep: string)
    requires |xs| >= 2
    ensures Offset(xs, sep, |xs| - 1) <= |Join(xs, sep)|
    ensures Join(xs, sep)[Offset(xs, sep, |xs| - 2) + |xs[|xs| - 2]|..Offset(xs, sep, |xs| - 1)] == sep
  {
    var n := |xs|;
    var init := xs[..n - 1];
    var head := Join(init, sep);
    JoinLength(init, sep);
    OffsetOfPrefix(xs, sep, n - 1, n - 2);
    assert |head| + |sep| == Offset(xs, sep, n - 1);
    SliceOfConcat(head + sep, xs[n - 1], |head|, |head| + |sep|);
    SliceOfConcat(head, sep, 0, 0);
  }
}
