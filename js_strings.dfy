/**
 * The JavaScript string primitives the chat and resume helpers use
 * (`indexOf`, `includes`, `trim`, `join`, `split`, number formatting).
 * A Dafny `string` is a sequence of Unicode scalar values, where JavaScript
 * stores UTF-16 code units: a character outside the Basic Multilingual Plane
 * is one element here and two code units there (`CodeUnits`).
 */
module JsStrings {
  import opened Wrappers

  /** `pat` occurs in `s` starting at position `k`. */
  predicate OccursAt(s: string, pat: string, k: nat) {
    k + |pat| <= |s| && s[k..k + |pat|] == pat
  }

  /**
   * `s.indexOf(pat, from)`: the first position at or after `from` where `pat`
   * starts. For a non-empty pattern, the only kind the program searches for,
   * this is JavaScript's result. An empty pattern with `from` beyond the end
   * gives None here, where JavaScript clamps `from` and answers `|s|`.
   */
  function IndexOf(s: string, pat: string, from: nat): (r: Option<nat>)
    ensures r.Some? ==> from <= r.value && OccursAt(s, pat, r.value)
    ensures r.Some? ==> forall k :: from <= k < r.value ==> !OccursAt(s, pat, k)
    ensures r.None? ==> forall k :: from <= k ==> !OccursAt(s, pat, k)
    decreases |s| - from
  {
    if from + |pat| > |s| then None
    else if s[from..from + |pat|] == pat then Some(from)
    else IndexOf(s, pat, from + 1)
  }

  /** `s.includes(pat)`. */
  predicate Includes(s: string, pat: string) {
    IndexOf(s, pat, 0).Some?
  }

  lemma IncludesIff(s: string, pat: string)
    ensures Includes(s, pat) <==> exists k: nat :: OccursAt(s, pat, k)
  {
    if Includes(s, pat) {
      assert OccursAt(s, pat, IndexOf(s, pat, 0).value);
    }
  }

  /** The characters `String.prototype.trim` removes: WhiteSpace and LineTerminator. */
  predicate IsWhiteSpace(c: char) {
    var u := c as int;
    (0x09 <= u <= 0x0D) || u == 0x20 || u == 0xA0 || u == 0x1680 || (0x2000 <= u <= 0x200A) ||
    u == 0x2028 || u == 0x2029 || u == 0x202F || u == 0x205F || u == 0x3000 || u == 0xFEFF
  }

  /** The number of white-space characters `s` starts with. */
  function LeadingSpace(s: string): (n: nat)
    ensures n <= |s|
    ensures n == |s| || !IsWhiteSpace(s[n])
  {
    if s != [] && IsWhiteSpace(s[0]) then 1 + LeadingSpace(s[1..]) else 0
  }

  /** Every character before that point is white space. */
  lemma {:induction false} LeadingSpaceIsSpace(s: string)
    ensures forall k :: 0 <= k < LeadingSpace(s) ==> IsWhiteSpace(s[k])
  {
    if s != [] && IsWhiteSpace(s[0]) {
      LeadingSpaceIsSpace(s[1..]);
      forall k | 1 <= k < LeadingSpace(s) ensures IsWhiteSpace(s[k]) {
        assert s[k] == s[1..][k - 1];
      }
    }
  }

  /** The length of `s` without the white space it ends with. */
  function KeptLength(s: string): (n: nat)
    ensures n <= |s|
    ensures n == 0 || !IsWhiteSpace(s[n - 1])
  {
    if s != [] && IsWhiteSpace(s[|s| - 1]) then KeptLength(s[..|s| - 1]) else |s|
  }

  /** Every character after that point is white space. */
  lemma {:induction false} KeptLengthIsSpace(s: string)
    ensures forall k :: KeptLength(s) <= k < |s| ==> IsWhiteSpace(s[k])
  {
    if s != [] && IsWhiteSpace(s[|s| - 1]) {
      KeptLengthIsSpace(s[..|s| - 1]);
      forall k | KeptLength(s) <= k < |s| - 1 ensures IsWhiteSpace(s[k]) {
        assert s[k] == s[..|s| - 1][k];
      }
    }
  }

  /** Drops leading white space: the longest suffix that does not start with any. */
  function TrimStart(s: string): (r: string)
    ensures |r| <= |s| && (r == [] || !IsWhiteSpace(r[0]))
  {
    s[LeadingSpace(s)..]
  }

  /** Drops trailing white space: the longest prefix that does not end with any. */
  function TrimEnd(s: string): (r: string)
    ensures |r| <= |s| && (r == [] || !IsWhiteSpace(r[|r| - 1]))
  {
    s[..KeptLength(s)]
  }

  /** `s.trim()`. */
  function Trim(s: string): string {
    TrimEnd(TrimStart(s))
  }

  /** Trimming keeps a contiguous slice of `s`, from its first to its last non-white-space character. */
  lemma TrimIsSlice(s: string)
    ensures LeadingSpace(s) + |Trim(s)| <= |s|
    ensures Trim(s) == s[LeadingSpace(s)..LeadingSpace(s) + |Trim(s)|]
  {
    var a := LeadingSpace(s);
    var t := s[a..];
    assert Trim(s) == t[..KeptLength(t)];
  }

  /** Only white space is cut away after that slice (`LeadingSpaceIsSpace` covers what comes before it). */
  lemma TrimCutsSpace(s: string)
    ensures forall k :: LeadingSpace(s) + |Trim(s)| <= k < |s| ==> IsWhiteSpace(s[k])
  {
    var t := TrimStart(s);
    KeptLengthIsSpace(t);
    forall k | LeadingSpace(s) + |Trim(s)| <= k < |s| ensures IsWhiteSpace(s[k]) {
      assert s[k] == t[k - LeadingSpace(s)];
    }
  }

  /** A string is blank exactly when trimming empties it. */
  lemma TrimEmptyIff(s: string)
    ensures Trim(s) == [] <==> forall k :: 0 <= k < |s| ==> IsWhiteSpace(s[k])
  {
    LeadingSpaceIsSpace(s);
    TrimCutsSpace(s);
  }

  function DigitChar(d: nat): (c: char)
    requires d < 10
    ensures '0' <= c <= '9'
  {
    ['0', '1', '2', '3', '4', '5', '6', '7', '8', '9'][d]
  }

  function DigitValue(c: char): nat
    requires '0' <= c <= '9'
  {
    c as int - '0' as int
  }

  /** `String(n)` for a natural number: its decimal digits without leading zeros. */
  function Decimal(n: nat): (r: string)
    ensures |r| >= 1
    ensures forall k :: 0 <= k < |r| ==> '0' <= r[k] <= '9'
    ensures |r| > 1 ==> r[0] != '0'
  {
    if n < 10 then [DigitChar(n)] else Decimal(n / 10) + [DigitChar(n % 10)]
  }

  /** Reads a string of decimal digits back as a number. */
  function ParseDigits(s: string): nat
    requires forall k :: 0 <= k < |s| ==> '0' <= s[k] <= '9'
  {
    if s == [] then 0 else 10 * ParseDigits(s[..|s| - 1]) + DigitValue(s[|s| - 1])
  }

  lemma {:induction false} DecimalRoundTrip(n: nat)
    ensures ParseDigits(Decimal(n)) == n
  {
    var r := Decimal(n);
    if n < 10 {
      assert DigitValue(DigitChar(n)) == n;
    } else {
      DecimalRoundTrip(n / 10);
      assert r[..|r| - 1] == Decimal(n / 10);
      assert DigitValue(DigitChar(n % 10)) == n % 10;
    }
  }

  /** `xs.join(sep)`. */
  function Join(xs: seq<string>, sep: string): string {
    if |xs| == 0 then ""
    else if |xs| == 1 then xs[0]
    else xs[0] + sep + Join(xs[1..], sep)
  }

  /** Joining a concatenation joins each part and puts one separator between them. */
  lemma {:induction false} JoinConcat(a: seq<string>, b: seq<string>, sep: string)
    requires |a| >= 1 && |b| >= 1
    ensures Join(a + b, sep) == Join(a, sep) + sep + Join(b, sep)
  {
    if |a| > 1 {
      JoinConcat(a[1..], b, sep);
      assert (a + b)[1..] == a[1..] + b;
    }
  }

  /** `s.split(c)` for a one-character separator. */
  function Split(s: string, c: char): (r: seq<string>)
    ensures |r| >= 1
    decreases |s|
  {
    match IndexOf(s, [c], 0)
    case None => [s]
    case Some(k) => [s[..k]] + Split(s[k + 1..], c)
  }

  predicate Free(s: string, c: char) {
    forall k :: 0 <= k < |s| ==> s[k] != c
  }

  lemma FreeHasNoIndex(s: string, c: char)
    requires Free(s, c)
    ensures IndexOf(s, [c], 0).None?
  {
    forall k: nat | k + 1 <= |s| ensures !OccursAt(s, [c], k) {
      assert s[k..k + 1][0] == s[k];
    }
  }

  /** Splitting a joined list at its separator gives the list back, when no element holds the separator. */
  lemma {:induction false} SplitJoin(xs: seq<string>, c: char)
    requires |xs| >= 1
    requires forall i :: 0 <= i < |xs| ==> Free(xs[i], c)
    ensures Split(Join(xs, [c]), c) == xs
  {
    if |xs| == 1 {
      FreeHasNoIndex(xs[0], c);
    } else {
      var s := Join(xs, [c]);
      var k := |xs[0]|;
      assert s == xs[0] + [c] + Join(xs[1..], [c]);
      assert OccursAt(s, [c], k) by { assert s[k..k + 1] == [c]; }
      forall j | 0 <= j < k ensures !OccursAt(s, [c], j) {
        assert s[j] == xs[0][j];
        assert s[j..j + 1] == [s[j]];
      }
      assert IndexOf(s, [c], 0) == Some(k);
      assert s[..k] == xs[0];
      assert s[k + 1..] == Join(xs[1..], [c]);
      SplitJoin(xs[1..], c);
    }
  }

  /** The UTF-16 code units JavaScript stores for a character. */
  function CodeUnits(c: char): nat {
    if c as int > 0xFFFF then 2 else 1
  }

  /** JavaScript's `length`: the code units of the whole string. */
  function Utf16Length(s: string): nat {
    if s == [] then 0 else Utf16Length(s[..|s| - 1]) + CodeUnits(s[|s| - 1])
  }

  /**
   * `substring(0, n)` as a prefix of at most n characters. JavaScript counts
   * code units, so the two differ once a character outside the Basic
   * Multilingual Plane comes before position n.
   */
  function Prefix(s: string, n: nat): (r: string)
    ensures |r| == if |s| < n then |s| else n
    ensures r == s[..|r|]
  {
    if |s| <= n then s else s[..n]
  }
}
