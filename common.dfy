/** Optional values and results with an error message, as the TypeScript code
    uses `null`/`undefined` and thrown errors. */
module Wrappers {

  datatype Option<+T> = None | Some(value: T) {
    function GetOr(default: T): T {
      match this
      case Some(v) => v
      case None => default
    }
  }

  /** `Err(message)` stands for a thrown `Error` (or a rejected promise). */
  datatype Result<+T> = Ok(value: T) | Err(message: string)
}

/** The few JavaScript number operations the core uses, over exact reals. */
module JsMath {

  /** `Math.abs`. */
  function Abs(x: real): (r: real)
    ensures r >= 0.0 && (r == x || r == -x)
  {
    if x < 0.0 then -x else x
  }

  /** `Math.round`: the nearest integer, halves going towards +infinity
      (so `Math.round(2.5) == 3` but `Math.round(-2.5) == -2`). */
  function Round(x: real): (n: int)
    ensures n as real - 0.5 <= x < n as real + 0.5
  {
    (x + 0.5).Floor
  }

  /** A whole number of hundredths. */
  predicate IsCents(r: real) {
    (r * 100.0).Floor as real == r * 100.0
  }

  /** `Math.round(x * 100) / 100`: rounding to two decimals. */
  function Round2(x: real): (r: real)
    ensures IsCents(r)
    ensures -0.005 < r - x <= 0.005
  {
    var n := Round(x * 100.0);
    assert n as real / 100.0 - x == (n as real - x * 100.0) / 100.0;
    assert (n as real / 100.0) * 100.0 == n as real;
    n as real / 100.0
  }

  /** The two decimals and the band pin the result: the only whole number of
      hundredths in (x - 0.005, x + 0.005] is `Round2(x)`. */
  lemma Round2Unique(x: real, r: real)
    requires IsCents(r) && -0.005 < r - x <= 0.005
    ensures r == Round2(x)
  {
    var n := (r * 100.0).Floor;
    assert n as real - 0.5 <= x * 100.0 < n as real + 0.5;
    RoundUnique(x * 100.0, n);
  }

  /** The text `x.toFixed(digits)`. Decimal rendering is not modelled: the
      value keeps the number and the number of decimals it is shown with. */
  datatype Fixed = Fixed(x: real, digits: nat)

  /** Round is the only integer within half a unit below and strictly less
      than half a unit above x. */
  lemma RoundUnique(x: real, n: int)
    requires n as real - 0.5 <= x < n as real + 0.5
    ensures Round(x) == n
  {
  }

  /** JavaScript rounding is not symmetric: negating the argument negates
      the result except at an exact half, where it is one more. */
  lemma RoundNegation(y: real)
    ensures Round(-y) == if y == Round(y) as real - 0.5 then 1 - Round(y) else -Round(y)
  {
    var n := Round(y);
    if y == n as real - 0.5 {
      RoundUnique(-y, 1 - n);
    } else {
      RoundUnique(-y, -n);
    }
  }
}

/** String operations of the JavaScript runtime that the core relies on. */
module Text {

  /** A character `String.prototype.trim` removes: the ECMAScript WhiteSpace
      and LineTerminator code points. */
  predicate IsSpace(c: char) {
    var n := c as int;
    n == 0x09 || n == 0x0A || n == 0x0B || n == 0x0C || n == 0x0D || n == 0x20 ||
    n == 0xA0 || n == 0x1680 || (0x2000 <= n <= 0x200A) || n == 0x2028 || n == 0x2029 ||
    n == 0x202F || n == 0x205F || n == 0x3000 || n == 0xFEFF
  }

  /** `/\d/` without the `u` flag: the ASCII digits only. */
  predicate IsDigit(c: char) {
    '0' <= c <= '9'
  }

  function TrimStart(s: string): (r: string)
    ensures |r| <= |s| && r == s[|s| - |r|..]
    ensures r == [] || !IsSpace(r[0])
    ensures forall i :: 0 <= i < |s| - |r| ==> IsSpace(s[i])
  {
    if s != [] && IsSpace(s[0]) then TrimStart(s[1..]) else s
  }

  function TrimEnd(s: string): (r: string)
    ensures |r| <= |s| && r == s[..|r|]
    ensures r == [] || !IsSpace(r[|r| - 1])
    ensures forall i :: |r| <= i < |s| ==> IsSpace(s[i])
  {
    if s != [] && IsSpace(s[|s| - 1]) then TrimEnd(s[..|s| - 1]) else s
  }

  /** `String.prototype.trim`: the longest infix with no white space at
      either end, obtained by removing only white space. */
  function Trim(s: string): (r: string)
    ensures |r| <= |s|
    ensures r == [] || (!IsSpace(r[0]) && !IsSpace(r[|r| - 1]))
  {
    TrimEnd(TrimStart(s))
  }

  /** Trimming removes white space at both ends only: the result is the
      infix of s starting at i, and everything outside it is white space. */
  lemma {:induction false} TrimRemovesOnlySpace(s: string) returns (i: nat)
    ensures i + |Trim(s)| <= |s| && Trim(s) == s[i..i + |Trim(s)|]
    ensures forall j :: 0 <= j < i ==> IsSpace(s[j])
    ensures forall j :: i + |Trim(s)| <= j < |s| ==> IsSpace(s[j])
  {
    var t := TrimStart(s);
    var r := TrimEnd(t);
    InfixOfSuffix(s, t, r);
    i := |s| - |t|;
  }

  /** A prefix r of a suffix t of s, with only white space after r in t. */
  lemma InfixOfSuffix(s: string, t: string, r: string)
    requires |t| <= |s| && t == s[|s| - |t|..]
    requires |r| <= |t| && r == t[..|r|]
    requires forall k :: |r| <= k < |t| ==> IsSpace(t[k])
    ensures r == s[|s| - |t|..|s| - |t| + |r|]
    ensures forall j :: |s| - |t| + |r| <= j < |s| ==> IsSpace(s[j])
  {
    var i := |s| - |t|;
    forall j | i + |r| <= j < |s| ensures IsSpace(s[j]) {
      assert s[j] == t[j - i];
    }
  }

  /** Trimming twice is trimming once. */
  lemma TrimIdempotent(s: string)
    ensures Trim(Trim(s)) == Trim(s)
  {
    var r := Trim(s);
    assert TrimStart(r) == r;
    assert TrimEnd(r) == r;
  }

  /** `toUpperCase` on ASCII letters (other characters are kept). */
  function UpperChar(c: char): (u: char)
    ensures 'a' <= c <= 'z' ==> u as int == c as int - 32
    ensures !('a' <= c <= 'z') ==> u == c
  {
    if 'a' <= c <= 'z' then (c as int - 32) as char else c
  }

  function Upper(s: string): (r: string)
    ensures |r| == |s| && forall i :: 0 <= i < |s| ==> r[i] == UpperChar(s[i])
  {
    seq(|s|, i requires 0 <= i < |s| => UpperChar(s[i]))
  }

  /** The position of the first `sep` in s, or |s| when there is none. */
  function IndexOf(s: string, sep: char): (i: nat)
    ensures i <= |s|
    ensures i < |s| ==> s[i] == sep
    ensures forall j :: 0 <= j < i ==> s[j] != sep
  {
    if s == [] then 0
    else if s[0] == sep then 0
    else 1 + IndexOf(s[1..], sep)
  }

  /** `s.split(sep)` for a one-character separator. */
  function Split(s: string, sep: char): (parts: seq<string>)
    ensures |parts| >= 1
    ensures parts[0] == s[..IndexOf(s, sep)]
    ensures forall k :: 0 <= k < |parts| ==> sep !in parts[k]
    decreases |s|
  {
    var i := IndexOf(s, sep);
    if i == |s| then [s] else [s[..i]] + Split(s[i + 1..], sep)
  }

  /** `parts.join(sep)`. */
  function Join(parts: seq<string>, sep: char): string
    requires |parts| >= 1
  {
    if |parts| == 1 then parts[0] else parts[0] + [sep] + Join(parts[1..], sep)
  }

  /** Splitting loses nothing: joining the parts back gives the input. */
  lemma {:induction false} JoinSplit(s: string, sep: char)
    ensures Join(Split(s, sep), sep) == s
    decreases |s|
  {
    var i := IndexOf(s, sep);
    if i < |s| {
      JoinSplit(s[i + 1..], sep);
      var parts := Split(s, sep);
      assert parts == [s[..i]] + Split(s[i + 1..], sep);
      assert Join(parts, sep) == s[..i] + [sep] + Join(Split(s[i + 1..], sep), sep);
      assert s == s[..i] + [sep] + s[i + 1..];
    }
  }

  /** Joining parts that do not contain the separator and splitting again
      gives the parts back. */
  lemma {:induction false} SplitJoin(parts: seq<string>, sep: char)
    requires |parts| >= 1
    requires forall k :: 0 <= k < |parts| ==> sep !in parts[k]
    ensures Split(Join(parts, sep), sep) == parts
  {
    var p := parts[0];
    if |parts| == 1 {
      IndexOfAbsent(p, sep);
    } else {
      var rest := Join(parts[1..], sep);
      SplitAt(p, sep, rest);
      SplitJoin(parts[1..], sep);
    }
  }

  /** Splitting `p + [sep] + rest` with no separator in p. */
  lemma SplitAt(p: string, sep: char, rest: string)
    requires sep !in p
    ensures Split(p + [sep] + rest, sep) == [p] + Split(rest, sep)
  {
    var s := p + [sep] + rest;
    assert s == p + ([sep] + rest);
    IndexOfPrefix(p, sep, [sep] + rest);
    assert s[..|p|] == p;
    assert s[|p| + 1..] == rest;
  }

  lemma IndexOfAbsent(s: string, sep: char)
    requires sep !in s
    ensures IndexOf(s, sep) == |s|
  {
  }

  lemma {:induction false} IndexOfPrefix(p: string, sep: char, t: string)
    requires sep !in p && t != [] && t[0] == sep
    ensures IndexOf(p + t, sep) == |p|
  {
    if p != [] {
      assert (p + t)[1..] == p[1..] + t;
      IndexOfPrefix(p[1..], sep, t);
    }
  }
}

/** The two sides of a trade, `'BUY' | 'SELL'`. */
module Trading {
  datatype TradeType = Buy | Sell
}

/** Rows of the `system_config` key/value table. */
module SystemConfig {
  import opened Wrappers

  /** `value` is `None` when the column holds `null`. */
  datatype ConfigRow = ConfigRow(key: string, value: Option<string>)

  /** Row i is the first row with that key. */
  predicate FirstWithKey(rows: seq<ConfigRow>, key: string, i: int) {
    0 <= i < |rows| && rows[i].key == key && forall j :: 0 <= j < i ==> rows[j].key != key
  }

  /** `rows.find(c => c.config_key === key)?.config_value`: the value of the
      first row with that key, `None` when there is no such row or its value
      is null. */
  function ConfigValue(rows: seq<ConfigRow>, key: string): (v: Option<string>)
    ensures (forall i :: 0 <= i < |rows| ==> rows[i].key != key) ==> v.None?
    ensures (exists i :: 0 <= i < |rows| && rows[i].key == key) ==>
      exists i :: FirstWithKey(rows, key, i) && v == rows[i].value
  {
    if rows == [] then None
    else if rows[0].key == key then rows[0].value
    else ConfigValue(rows[1..], key)
  }

  /** `… ?.config_value || ''`: the value, with null and a missing row read
      as the empty string. */
  function ConfigText(rows: seq<ConfigRow>, key: string): string {
    ConfigValue(rows, key).GetOr("")
  }
}
