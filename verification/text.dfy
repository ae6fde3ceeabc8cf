/**
 Character-level helpers the client's request targets are built from and read back with:
 decimal rendering of integers, splitting and joining on a separator, and splitting a
 request target into its path and query string.
 */
module Text {
  import opened Wrappers

  /** The character of decimal digit `d`. */
  function Digit(d: nat): (c: char)
    requires d < 10
    ensures '0' <= c <= '9'
  {
    ('0' as int + d) as char
  }

  predicate IsDigits(s: string) {
    forall i :: 0 <= i < |s| ==> '0' <= s[i] <= '9'
  }

  /** Rust's `Display` for an unsigned integer: decimal, most significant digit first. */
  function NatToDecimal(n: nat): (r: string)
    ensures |r| > 0 && IsDigits(r)
    ensures r[0] == '0' ==> n == 0
    decreases n
  {
    if n < 10 then [Digit(n)] else NatToDecimal(n / 10) + [Digit(n % 10)]
  }

  /** The number a string of decimal digits denotes; the reference reading of `NatToDecimal`. */
  function DecimalValue(s: string): nat
    requires IsDigits(s)
  {
    if |s| == 0 then 0
    else 10 * DecimalValue(s[..|s| - 1]) + (s[|s| - 1] as int - '0' as int)
  }

  /** Decimal rendering loses nothing: reading the digits back gives the number. */
  lemma {:induction false} DecimalRoundTrip(n: nat)
    ensures DecimalValue(NatToDecimal(n)) == n
  {
    if n >= 10 {
      var s := NatToDecimal(n);
      assert s[..|s| - 1] == NatToDecimal(n / 10);
      DecimalRoundTrip(n / 10);
    }
  }

  /** Signed decimal as the `itoa` writer used by serde_json prints it. */
  function IntToDecimal(i: int): (r: string)
    ensures |r| > 0
    ensures r[0] == '-' <==> i < 0
  {
    if i < 0 then "-" + NatToDecimal(-i) else NatToDecimal(i)
  }

  /** Position of the first occurrence of `c` in `s`. */
  function IndexOf(s: string, c: char): (i: nat)
    requires c in s
    ensures i < |s| && s[i] == c
    ensures forall j :: 0 <= j < i ==> s[j] != c
  {
    if s[0] == c then 0 else 1 + IndexOf(s[1..], c)
  }

  /** Any position holding the first `c` is the one `IndexOf` finds. */
  lemma IndexOfUnique(s: string, c: char, k: nat)
    requires k < |s| && s[k] == c
    requires forall j :: 0 <= j < k ==> s[j] != c
    ensures c in s && IndexOf(s, c) == k
  {
  }

  /** Rust's `str::split` on a single character: the pieces between separators, in order. */
  function Split(s: string, sep: char): (parts: seq<string>)
    ensures |parts| > 0
    ensures forall k :: 0 <= k < |parts| ==> sep !in parts[k]
    decreases |s|
  {
    if sep !in s then [s]
    else
      var i := IndexOf(s, sep);
      [s[..i]] + Split(s[i + 1..], sep)
  }

  /** Rust's `join` with a single-character separator. */
  function Join(parts: seq<string>, sep: char): string
  {
    if |parts| == 0 then ""
    else if |parts| == 1 then parts[0]
    else parts[0] + [sep] + Join(parts[1..], sep)
  }

  /** Splitting at the first separator, which sits at position `i`. */
  lemma SplitFirst(s: string, sep: char, i: nat)
    requires i < |s| && s[i] == sep
    requires forall j :: 0 <= j < i ==> s[j] != sep
    ensures Split(s, sep) == [s[..i]] + Split(s[i + 1..], sep)
  {
    IndexOfUnique(s, sep, i);
  }

  /** Joining separator-free pieces and splitting again gives the pieces back. */
  lemma {:induction false} SplitJoin(parts: seq<string>, sep: char)
    requires |parts| > 0
    requires forall k :: 0 <= k < |parts| ==> sep !in parts[k]
    ensures Split(Join(parts, sep), sep) == parts
  {
    if |parts| > 1 {
      var head, tail := parts[0], parts[1..];
      var rest := Join(tail, sep);
      var s := head + [sep] + rest;
      assert Join(parts, sep) == s;
      assert s[..|head|] == head;
      assert s[|head| + 1..] == rest;
      assert forall j :: 0 <= j < |head| ==> s[j] == head[j];
      SplitFirst(s, sep, |head|);
      SplitJoin(tail, sep);
      assert parts == [head] + tail;
    }
  }

  /** A request target split at its first `?` into its path and, when there is one, its query string. */
  function SplitTarget(t: string): (r: (string, Option<string>))
    ensures r.1.None? <==> '?' !in t
    ensures r.1.None? ==> r.0 == t
    ensures r.1.Some? ==> t == r.0 + "?" + r.1.value && '?' !in r.0
  {
    if '?' in t then
      var i := IndexOf(t, '?');
      assert t == t[..i] + "?" + t[i + 1..];
      (t[..i], Some(t[i + 1..]))
    else (t, None)
  }

  /** A target written as a `?`-free path, `?` and a query splits back into exactly those two. */
  lemma SplitTargetOf(path: string, query: string)
    requires '?' !in path
    ensures SplitTarget(path + "?" + query) == (path, Some(query))
  {
    var t := path + "?" + query;
    assert t[..|path|] == path;
    IndexOfUnique(t, '?', |path|);
    assert t[|path| + 1..] == query;
  }
}
