/** Shared vocabulary of the recorder backend model: optional values, errors thrown by awaited
    calls, JavaScript truthiness, and the string and path operations the routes rely on. */
module Common {

  datatype Option<+T> = None | Some(value: T)

  /** The outcome of an awaited call that may throw. A thrown error carries the HTTP status of the
      response that caused it when there was one (`err.response?.status`); an error thrown locally,
      or a network failure, has none. */
  datatype Outcome<+T> = Ok(value: T) | Err(status: Option<int>, message: string)

  type Bytes = seq<bv8>

  // ---------------------------------------------------------------------------------------------
  // JavaScript truthiness. `undefined`, `null` and `""` are falsy strings; `0` is a falsy number.

  predicate Truthy(s: Option<string>) {
    s.Some? && s.value != ""
  }

  /** `a || b` on optional strings. */
  function Or(a: Option<string>, b: Option<string>): Option<string> {
    if Truthy(a) then a else b
  }

  /** `a || d` where `d` is a string literal. */
  function OrDefault(a: Option<string>, d: string): string {
    if Truthy(a) then a.value else d
  }

  predicate TruthyNum(n: Option<int>) {
    n.Some? && n.value != 0
  }

  /** `a || d` on optional numbers. */
  function NumOr(a: Option<int>, d: int): int {
    if TruthyNum(a) then a.value else d
  }

  // ---------------------------------------------------------------------------------------------
  // Whitespace as JavaScript's `String.prototype.trim` and the regex class `\s` see it.

  predicate IsWhitespace(c: char) {
    || c == ' ' || c == '\t' || c == '\n' || c == '\r'
    || c == '\U{000B}' || c == '\U{000C}' || c == '\U{00A0}' || c == '\U{1680}'
    || ('\U{2000}' <= c <= '\U{200A}')
    || c == '\U{2028}' || c == '\U{2029}' || c == '\U{202F}' || c == '\U{205F}'
    || c == '\U{3000}' || c == '\U{FEFF}'
  }

  function TrimStart(s: string): (r: string)
    ensures |r| <= |s| && r == s[|s| - |r|..]
    ensures r == "" || !IsWhitespace(r[0])
    ensures forall i :: 0 <= i < |s| - |r| ==> IsWhitespace(s[i])
  {
    if s != [] && IsWhitespace(s[0]) then TrimStart(s[1..]) else s
  }

  function TrimEnd(s: string): (r: string)
    ensures |r| <= |s| && r == s[..|r|]
    ensures r == "" || !IsWhitespace(r[|r| - 1])
    ensures forall i :: |r| <= i < |s| ==> IsWhitespace(s[i])
  {
    if s != [] && IsWhitespace(s[|s| - 1]) then TrimEnd(s[..|s| - 1]) else s
  }

  /** `s.trim()`: the longest infix of `s` that neither starts nor ends with whitespace. */
  function Trim(s: string): (r: string)
    ensures |r| <= |s|
    ensures r == "" || (!IsWhitespace(r[0]) && !IsWhitespace(r[|r| - 1]))
  {
    TrimEnd(TrimStart(s))
  }

  /** Trimming keeps a first character that is not whitespace. */
  lemma {:induction false} TrimKeepsFirst(s: string)
    requires s != [] && !IsWhitespace(s[0])
    ensures Trim(s) != [] && Trim(s)[0] == s[0]
  {
    assert TrimStart(s) == s;
  }

  /** Trimming a prefix of a string that starts with a non-whitespace character gives a non-empty
      prefix of that string. */
  lemma TrimPrefix(s: string, k: nat)
    requires 1 <= k <= |s| && !IsWhitespace(s[0])
    ensures Trim(s[..k]) != "" && StartsWith(s, Trim(s[..k]))
  {
    var p := s[..k];
    TrimKeepsFirst(p);
    assert TrimStart(p) == p;
    assert TrimEnd(p) == p[..|TrimEnd(p)|];
  }

  /** Trimming a suffix of a string that ends with a non-whitespace character gives a suffix of
      that string. */
  lemma TrimSuffix(s: string, k: nat)
    requires k < |s| && !IsWhitespace(s[|s| - 1])
    ensures EndsWith(s, Trim(s[k..]))
  {
    var q := s[k..];
    var rs := TrimStart(q);
    assert q[|q| - 1] == s[|s| - 1];
    assert rs != [] && rs[|rs| - 1] == q[|q| - 1];
    assert TrimEnd(rs) == rs;
    assert s[|s| - |rs|..] == rs;
  }

  /** A trimmed string trims to itself. */
  lemma TrimIdempotent(s: string)
    ensures Trim(Trim(s)) == Trim(s)
  {
    var t := Trim(s);
    if t != [] {
      assert TrimStart(t) == t;
      assert TrimEnd(t) == t;
    }
  }

  // ---------------------------------------------------------------------------------------------
  // Digits and decimal numbers

  predicate IsDigit(c: char) {
    '0' <= c <= '9'
  }

  /** The regex `^\d*$`. */
  predicate AllDigits(s: string) {
    forall i :: 0 <= i < |s| ==> IsDigit(s[i])
  }

  /** `parseInt(s, 10)` of a string of decimal digits. */
  function DecimalValue(s: string): nat
    requires AllDigits(s)
  {
    if s == [] then 0 else 10 * DecimalValue(s[..|s| - 1]) + (s[|s| - 1] as int - '0' as int)
  }

  function DigitChar(d: nat): char
    requires d < 10
  {
    ('0' as int + d) as char
  }

  /** `String(n)` for a non-negative integer. */
  function NatToString(n: nat): (r: string)
    ensures |r| >= 1 && AllDigits(r)
    ensures n < 10 <==> |r| == 1
    ensures DecimalValue(r) == n
  {
    if n < 10 then [DigitChar(n)] else NatToString(n / 10) + [DigitChar(n % 10)]
  }

  /** Four-digit numbers print as exactly four digits. */
  lemma {:induction false} NatToStringFourDigits(n: nat)
    requires 1000 <= n <= 9999
    ensures |NatToString(n)| == 4
  {
    var a, b, c := n / 10, n / 10 / 10, n / 10 / 10 / 10;
    assert 1 <= c <= 9 && 10 <= b <= 99 && 100 <= a <= 999;
    assert |NatToString(c)| == 1;
    assert |NatToString(b)| == |NatToString(c)| + 1;
    assert |NatToString(a)| == |NatToString(b)| + 1;
    assert |NatToString(n)| == |NatToString(a)| + 1;
  }

  /** `String(n).padStart(2, "0")`. */
  function Pad2(n: nat): (r: string)
    ensures AllDigits(r)
    ensures n < 100 ==> |r| == 2
    ensures DecimalValue(r) == n
  {
    var s := NatToString(n);
    if |s| < 2 then
      assert DecimalValue("0" + s) == n by {
        assert ("0" + s)[..1] == "0";
      }
      "0" + s
    else s
  }

  lemma AppendAssoc<T>(a: seq<T>, b: seq<T>, c: seq<T>)
    ensures (a + b) + c == a + (b + c)
  {
  }

  // ---------------------------------------------------------------------------------------------
  // Searching and splitting

  predicate StartsWith(s: string, prefix: string) {
    |prefix| <= |s| && s[..|prefix|] == prefix
  }

  predicate EndsWith(s: string, suffix: string) {
    |suffix| <= |s| && s[|s| - |suffix|..] == suffix
  }

  predicate OccursAt(s: string, pat: string, i: nat) {
    i + |pat| <= |s| && s[i..i + |pat|] == pat
  }

  /** `s.indexOf(pat)` for a non-empty pattern, searching from position `from`. */
  function IndexOfFrom(s: string, pat: string, from: nat): (r: Option<nat>)
    requires pat != []
    ensures r.Some? ==> from <= r.value && OccursAt(s, pat, r.value)
    ensures r.Some? ==> forall j :: from <= j < r.value ==> !OccursAt(s, pat, j)
    ensures r.None? ==> forall j :: from <= j ==> !OccursAt(s, pat, j)
    decreases |s| - from
  {
    if from + |pat| > |s| then None
    else if OccursAt(s, pat, from) then Some(from)
    else IndexOfFrom(s, pat, from + 1)
  }

  function IndexOf(s: string, pat: string): Option<nat>
    requires pat != []
  {
    IndexOfFrom(s, pat, 0)
  }

  /** `s.includes(pat)`. */
  predicate Includes(s: string, pat: string)
    requires pat != []
  {
    IndexOf(s, pat).Some?
  }

  /** `s.split(sep)[0]`: the text before the first occurrence of `sep`, or all of `s`. */
  function BeforeFirst(s: string, sep: string): (r: string)
    requires sep != []
    ensures StartsWith(s, r)
    ensures |sep| == 1 ==> sep[0] !in r
  {
    match IndexOf(s, sep)
    case Some(i) =>
      NoCharBefore(s, sep, i);
      s[..i]
    case None =>
      NoCharBefore(s, sep, |s|);
      s
  }

  lemma NoCharBefore(s: string, sep: string, i: nat)
    requires i <= |s| && sep != []
    requires forall j :: 0 <= j < i ==> !OccursAt(s, sep, j)
    ensures |sep| == 1 ==> sep[0] !in s[..i]
  {
    if |sep| == 1 {
      forall j | 0 <= j < i ensures s[j] != sep[0] {
        assert !OccursAt(s, sep, j);
        assert s[j..j + 1] == [s[j]] && sep == [sep[0]];
      }
    }
  }

  /** `s.split(sep).slice(1).join(sep)`: the text after the first occurrence of `sep`. */
  function AfterFirst(s: string, sep: string): (r: string)
    requires sep != [] && Includes(s, sep)
    ensures BeforeFirst(s, sep) + sep + r == s
  {
    var i := IndexOf(s, sep).value;
    assert s == s[..i] + sep + s[i + |sep|..];
    s[i + |sep|..]
  }

  /** `s.split(c)` for a single-character separator. */
  function SplitOn(s: string, c: char): (r: seq<string>)
    ensures |r| >= 1
    ensures forall k :: 0 <= k < |r| ==> c !in r[k]
    decreases |s|
  {
    match IndexOf(s, [c])
    case None =>
      NoCharBefore(s, [c], |s|);
      [s]
    case Some(i) =>
      NoCharBefore(s, [c], i);
      [s[..i]] + SplitOn(s[i + 1..], c)
  }

  /** `parts.join(sep)`. */
  function JoinWith(parts: seq<string>, sep: string): string {
    if |parts| == 0 then ""
    else if |parts| == 1 then parts[0]
    else parts[0] + sep + JoinWith(parts[1..], sep)
  }

  /** `s.split(sep)` for a separator of any non-zero length. */
  function SplitWith(s: string, sep: string): (r: seq<string>)
    requires sep != []
    ensures |r| >= 1
    decreases |s|
  {
    match IndexOf(s, sep)
    case None => [s]
    case Some(i) => [s[..i]] + SplitWith(s[i + |sep|..], sep)
  }

  /** `sep[k]` occurs in `sep` nowhere else. */
  predicate MarksSeparator(sep: string, k: nat) {
    k < |sep| && forall j :: 0 <= j < |sep| && j != k ==> sep[j] != sep[k]
  }

  /** A text without the separator's marking character holds no occurrence of the separator. */
  lemma NoOccurrence(p: string, sep: string, k: nat)
    requires MarksSeparator(sep, k) && sep[k] !in p
    ensures IndexOf(p, sep).None?
  {
    forall i: nat | i + |sep| <= |p| ensures !OccursAt(p, sep, i) {
      assert p[i..i + |sep|][k] == p[i + k] != sep[k];
    }
  }

  /** The first occurrence of the separator in `p + sep + rest` is the one after `p`, when `p`
      does not hold the separator's marking character. */
  lemma FirstOccurrenceAfter(p: string, sep: string, rest: string, k: nat)
    requires MarksSeparator(sep, k) && sep[k] !in p
    ensures IndexOf(p + sep + rest, sep) == Some(|p|)
  {
    var s := p + sep + rest;
    assert s[|p|..|p| + |sep|] == sep;
    assert OccursAt(s, sep, |p|);
    forall j | 0 <= j < |p| ensures !OccursAt(s, sep, j) {
      if j + k < |p| {
        assert s[j + k] == p[j + k];
      } else {
        assert s[j + k] == sep[j + k - |p|];
      }
      assert s[j + k] != sep[k];
      assert s[j..j + |sep|][k] == s[j + k];
    }
  }

  /** Splitting a join gives the parts back, when no part holds the separator's marking
      character. */
  lemma {:induction false} SplitJoin(parts: seq<string>, sep: string, k: nat)
    requires |parts| >= 1 && MarksSeparator(sep, k)
    requires forall i :: 0 <= i < |parts| ==> sep[k] !in parts[i]
    ensures SplitWith(JoinWith(parts, sep), sep) == parts
    decreases |parts|
  {
    if |parts| == 1 {
      NoOccurrence(parts[0], sep, k);
    } else {
      var rest := JoinWith(parts[1..], sep);
      var s := parts[0] + sep + rest;
      FirstOccurrenceAfter(parts[0], sep, rest, k);
      assert s[..|parts[0]|] == parts[0];
      assert s[|parts[0]| + |sep|..] == rest;
      SplitJoin(parts[1..], sep, k);
      assert [parts[0]] + parts[1..] == parts;
    }
  }

  // ---------------------------------------------------------------------------------------------
  // Case mapping

  function LowerChar(c: char): char {
    if 'A' <= c <= 'Z' then (c as int - 'A' as int + 'a' as int) as char else c
  }

  /** `s.toLowerCase()` on the ASCII letters. */
  function ToLower(s: string): (r: string)
    ensures |r| == |s|
    ensures forall i :: 0 <= i < |s| ==> r[i] == LowerChar(s[i])
  {
    seq(|s|, i requires 0 <= i < |s| => LowerChar(s[i]))
  }

  // ---------------------------------------------------------------------------------------------
  // Paths

  /** `path.join(a, b)` for segments that need no normalisation: empty segments vanish and one
      separator is placed between the others. */
  function Join(a: string, b: string): string {
    if a == "" then b
    else if b == "" then a
    else if EndsWith(a, "/") then a + b
    else a + "/" + b
  }
}
