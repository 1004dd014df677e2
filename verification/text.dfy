/** String helpers shared by the components: ASCII case mapping, whitespace
    trimming, splitting on a separator, substring search, decimal rendering
    and the JavaScript `String.prototype.slice` index rules.

    JavaScript's `toLowerCase`, `toUpperCase`, `trim` and `\s` act on all of
    Unicode; this model restricts them to ASCII letters and ASCII whitespace. */
module Text {
  import opened Options

  // ---------------------------------------------------------------------------
  // Case mapping

  predicate IsUpperAscii(c: char) { 'A' <= c <= 'Z' }
  predicate IsLowerAscii(c: char) { 'a' <= c <= 'z' }

  function LowerChar(c: char): char {
    if IsUpperAscii(c) then (c as int + 32) as char else c
  }

  function UpperChar(c: char): char {
    if IsLowerAscii(c) then (c as int - 32) as char else c
  }

  /** `s.toLowerCase()` restricted to ASCII. */
  function ToLower(s: string): (r: string)
    ensures |r| == |s|
    ensures forall i :: 0 <= i < |s| ==> r[i] == LowerChar(s[i])
    ensures forall i :: 0 <= i < |r| ==> !IsUpperAscii(r[i])
  {
    seq(|s|, i requires 0 <= i < |s| => LowerChar(s[i]))
  }

  /** `s.toUpperCase()` restricted to ASCII. */
  function ToUpper(s: string): (r: string)
    ensures |r| == |s|
    ensures forall i :: 0 <= i < |s| ==> r[i] == UpperChar(s[i])
    ensures forall i :: 0 <= i < |r| ==> !IsLowerAscii(r[i])
  {
    seq(|s|, i requires 0 <= i < |s| => UpperChar(s[i]))
  }

  /** Lower-casing twice is lower-casing once. */
  lemma ToLowerIdempotent(s: string)
    ensures ToLower(ToLower(s)) == ToLower(s)
  {
    var once := ToLower(s);
    var twice := ToLower(once);
    forall i | 0 <= i < |s|
      ensures twice[i] == once[i]
    {
      assert !IsUpperAscii(once[i]);
    }
  }

  /** Upper-casing ignores a prior lower-casing: `s.toLowerCase().toUpperCase()`
      equals `s.toUpperCase()`. */
  lemma ToUpperOfLowerAgrees(s: string)
    ensures ToUpper(ToLower(s)) == ToUpper(s)
  {
  }

  // ---------------------------------------------------------------------------
  // Whitespace and trimming

  /** ASCII whitespace: space, tab, line feed, vertical tab, form feed, carriage return. */
  predicate IsSpace(c: char) {
    c == ' ' || c == '\t' || c == '\n' || c == '\r' || c as int == 11 || c as int == 12
  }

  predicate AllSpace(s: string) {
    forall k :: 0 <= k < |s| ==> IsSpace(s[k])
  }

  predicate NoSpace(s: string) {
    forall k :: 0 <= k < |s| ==> !IsSpace(s[k])
  }

  /** Length of the leading whitespace run. */
  function LeadingSpaces(s: string): (n: nat)
    ensures n <= |s|
    ensures forall k :: 0 <= k < n ==> IsSpace(s[k])
    ensures n < |s| ==> !IsSpace(s[n])
    decreases |s|
  {
    if |s| > 0 && IsSpace(s[0]) then 1 + LeadingSpaces(s[1..]) else 0
  }
  /** Length of the trailing whitespace run. */
  function TrailingSpaces(s: string): (n: nat)
    ensures n <= |s|
    ensures forall k :: |s| - n <= k < |s| ==> IsSpace(s[k])
    ensures n < |s| ==> !IsSpace(s[|s| - n - 1])
    decreases |s|
  {
    if |s| > 0 && IsSpace(s[|s| - 1]) then 1 + TrailingSpaces(s[..|s| - 1]) else 0
  }
  /** `s.trim()`: the result is the piece of `s` that starts after the leading
      whitespace run, everything cut off on either side is whitespace, and the
      result neither starts nor ends with whitespace. */
  function Trim(s: string): (r: string)
    ensures |r| > 0 ==> !IsSpace(r[0]) && !IsSpace(r[|r| - 1])
    ensures var a := LeadingSpaces(s);
            && a + |r| <= |s|
            && (forall k :: 0 <= k < |r| ==> r[k] == s[a + k])
            && (forall k :: 0 <= k < a ==> IsSpace(s[k]))
            && (forall k :: a + |r| <= k < |s| ==> IsSpace(s[k]))
  {
    var a := LeadingSpaces(s);
    if a == |s| then "" else s[a..|s| - TrailingSpaces(s)]
  }
  /** Trimming a string that neither starts nor ends with whitespace changes nothing. */
  lemma TrimUnchangedWithoutOuterSpace(s: string)
    requires |s| > 0 ==> !IsSpace(s[0]) && !IsSpace(s[|s| - 1])
    ensures Trim(s) == s
  {
  }

  /** Trimming is idempotent. */
  lemma TrimIdempotent(s: string)
    ensures Trim(Trim(s)) == Trim(s)
  {
    TrimUnchangedWithoutOuterSpace(Trim(s));
  }

  // ---------------------------------------------------------------------------
  // Splitting on a separator, and joining back

  /** Number of occurrences of `c` in `s`. */
  function Count(s: string, c: char): nat
    decreases |s|
  {
    if |s| == 0 then 0 else (if s[0] == c then 1 else 0) + Count(s[1..], c)
  }

  /** `s.split(sep)` for a one-character separator: one piece more than there
      are separators, empty pieces kept, and no piece holds the separator. */
  function Split(s: string, sep: char): (r: seq<string>)
    ensures |r| == Count(s, sep) + 1
    ensures forall k :: 0 <= k < |r| ==> sep !in r[k]
    decreases |s|
  {
    if |s| == 0 then [""]
    else
      var rest := Split(s[1..], sep);
      if s[0] == sep then [""] + rest
      else [[s[0]] + rest[0]] + rest[1..]
  }

  /** `xs.join(sep)`. */
  function Join(xs: seq<string>, sep: char): string
    decreases |xs|
  {
    if |xs| == 0 then ""
    else if |xs| == 1 then xs[0]
    else xs[0] + [sep] + Join(xs[1..], sep)
  }

  /** Joining the pieces with the separator gives back the original string. */
  lemma {:induction false} JoinSplit(s: string, sep: char)
    ensures Join(Split(s, sep), sep) == s
    decreases |s|
  {
    if |s| > 0 {
      JoinSplit(s[1..], sep);
      var rest := Split(s[1..], sep);
      if s[0] == sep {
        assert Split(s, sep) == [""] + rest;
        assert s == [sep] + s[1..];
      } else {
        var r := Split(s, sep);
        assert r[0] == [s[0]] + rest[0];
        if |rest| == 1 {
          assert s == [s[0]] + rest[0];
        } else {
          assert r[1..] == rest[1..];
          assert Join(r, sep) == r[0] + [sep] + Join(rest[1..], sep);
          assert Join(rest, sep) == rest[0] + [sep] + Join(rest[1..], sep);
        }
      }
    }
  }

  /** A separator-free string is a single piece. */
  lemma {:induction false} SplitNoSeparator(a: string, sep: char)
    requires sep !in a
    ensures Split(a, sep) == [a]
    decreases |a|
  {
    if |a| > 0 {
      assert sep !in a[1..];
      SplitNoSeparator(a[1..], sep);
      assert [a[0]] + a[1..] == a;
    }
  }

  /** A separator-free prefix followed by the separator becomes the first piece. */
  lemma {:induction false} SplitAfterPiece(a: string, sep: char, t: string)
    requires sep !in a
    ensures Split(a + [sep] + t, sep) == [a] + Split(t, sep)
    decreases |a|
  {
    var s := a + [sep] + t;
    if |a| == 0 {
      assert s[1..] == t;
    } else {
      assert sep !in a[1..];
      SplitAfterPiece(a[1..], sep, t);
      assert s[1..] == a[1..] + [sep] + t;
      assert [a[0]] + a[1..] == a;
    }
  }

  /** Splitting a join of separator-free pieces gives back the pieces. */
  lemma {:induction false} SplitJoin(xs: seq<string>, sep: char)
    requires |xs| >= 1
    requires forall k :: 0 <= k < |xs| ==> sep !in xs[k]
    ensures Split(Join(xs, sep), sep) == xs
    decreases |xs|
  {
    if |xs| == 1 {
      SplitNoSeparator(xs[0], sep);
    } else {
      SplitJoin(xs[1..], sep);
      SplitAfterPiece(xs[0], sep, Join(xs[1..], sep));
      assert [xs[0]] + xs[1..] == xs;
    }
  }

  // ---------------------------------------------------------------------------
  // Substring search

  /** `s.includes(sub)`. */
  predicate Contains(s: string, sub: string) {
    exists i | 0 <= i <= |s| - |sub| :: OccursAt(s, sub, i)
  }

  /** `sub` occurs in `s` starting at index `i`. */
  predicate OccursAt(s: string, sub: string, i: nat) {
    i + |sub| <= |s| && s[i..i + |sub|] == sub
  }

  // ---------------------------------------------------------------------------
  // Decimal rendering (`${n}` for a non-negative integer)

  predicate IsDigit(c: char) { '0' <= c <= '9' }

  function DigitChar(d: nat): (c: char)
    requires d < 10
    ensures IsDigit(c)
  {
    (48 + d) as char
  }

  function DigitValue(c: char): nat
    requires IsDigit(c)
  {
    c as int - 48
  }

  /** Decimal digits of `n`, most significant first, without leading zeros. */
  function NatToDecimal(n: nat): (r: string)
    ensures |r| >= 1
    ensures forall k :: 0 <= k < |r| ==> IsDigit(r[k])
    ensures r[0] == '0' ==> n == 0
    decreases n
  {
    if n < 10 then [DigitChar(n)] else NatToDecimal(n / 10) + [DigitChar(n % 10)]
  }

  /** Reads a string of decimal digits. */
  function DecimalToNat(s: string): nat
    requires forall k :: 0 <= k < |s| ==> IsDigit(s[k])
    decreases |s|
  {
    if |s| == 0 then 0 else DecimalToNat(s[..|s| - 1]) * 10 + DigitValue(s[|s| - 1])
  }

  /** Reading back the rendered digits gives the number. */
  lemma {:induction false} DecimalRoundTrip(n: nat)
    ensures DecimalToNat(NatToDecimal(n)) == n
    decreases n
  {
    var r := NatToDecimal(n);
    if n >= 10 {
      DecimalRoundTrip(n / 10);
      assert r[..|r| - 1] == NatToDecimal(n / 10);
    }
  }

  /** Different numbers render differently. */
  lemma NatToDecimalInjective(m: nat, n: nat)
    requires NatToDecimal(m) == NatToDecimal(n)
    ensures m == n
  {
    DecimalRoundTrip(m);
    DecimalRoundTrip(n);
  }

  // ---------------------------------------------------------------------------
  // `String.prototype.slice`

  /** A slice bound as JavaScript normalises it: a negative index counts from
      the end, and the result is clamped to `[0, len]`. */
  function RelativeIndex(i: int, len: nat): (r: nat)
    ensures r <= len
    ensures 0 <= i <= len ==> r == i
    ensures i < 0 && len + i >= 0 ==> r == len + i
  {
    if i < 0 then (if len + i < 0 then 0 else len + i)
    else if i > len then len else i
  }

  /** `s.slice(start, end)`; `end` absent means the end of the string. */
  function JsSlice(s: string, start: int, end: Option<int>): (r: string)
    ensures |r| <= |s|
  {
    var from := RelativeIndex(start, |s|);
    var to := match end case None => |s| case Some(e) => RelativeIndex(e, |s|);
    if from >= to then "" else s[from..to]
  }

  // ---------------------------------------------------------------------------
  // Replacing whitespace runs (`s.replace(/\s+/g, dash)`)

  /** The characters of `s` that are neither whitespace nor `dash`, in order. */
  function Solid(s: string, dash: char): (r: string)
    ensures |r| <= |s|
    decreases |s|
  {
    if |s| == 0 then ""
    else (if IsSpace(s[0]) || s[0] == dash then "" else [s[0]]) + Solid(s[1..], dash)
  }

  lemma {:induction false} SolidAppend(a: string, b: string, dash: char)
    ensures Solid(a + b, dash) == Solid(a, dash) + Solid(b, dash)
    decreases |a|
  {
    if |a| > 0 {
      SolidAppend(a[1..], b, dash);
      assert (a + b)[1..] == a[1..] + b;
    } else {
      assert a + b == b;
    }
  }

  lemma {:induction false} SolidOfSpaces(s: string, dash: char)
    requires AllSpace(s)
    ensures Solid(s, dash) == ""
    decreases |s|
  {
    if |s| > 0 {
      SolidOfSpaces(s[1..], dash);
    }
  }

  /** `s.replace(/\s+/g, dash)`, read left to right: the first whitespace
      character of a run writes one `dash`, the others of the same run write
      nothing. `inRun` says whether the character before `s` was whitespace. */
  function ScanSpaceRuns(s: string, dash: char, inRun: bool): (r: string)
    requires !IsSpace(dash)
    ensures NoSpace(r)
    ensures |r| <= |s|
    ensures NoSpace(s) ==> r == s
    ensures Solid(r, dash) == Solid(s, dash)
    decreases |s|
  {
    if |s| == 0 then ""
    else
      var rest := ScanSpaceRuns(s[1..], dash, IsSpace(s[0]));
      var piece := if !IsSpace(s[0]) then [s[0]] else if inRun then "" else [dash];
      assert Solid(piece + rest, dash) == Solid(s, dash) by {
        SolidAppend(piece, rest, dash);
        SolidAppend([s[0]], s[1..], dash);
        assert s == [s[0]] + s[1..];
        assert Solid(piece, dash) == Solid([s[0]], dash);
      }
      assert NoSpace(s) ==> NoSpace(s[1..]);
      piece + rest
  }

  /** Replaces every maximal run of whitespace in `s` by one `dash`. The result
      holds no whitespace, is no longer than `s`, leaves a whitespace-free
      string alone, and keeps every other character of `s` in order. */
  function ReplaceSpaceRuns(s: string, dash: char): (r: string)
    requires !IsSpace(dash)
    ensures NoSpace(r)
    ensures |r| <= |s|
    ensures NoSpace(s) ==> r == s
    ensures Solid(r, dash) == Solid(s, dash)
  {
    ScanSpaceRuns(s, dash, false)
  }

  /** What position `i` of `s` contributes to `s.replace(/\s+/g, dash)`: a
      non-space character itself, the first whitespace character of a run one
      `dash`, every later whitespace character of the same run nothing. */
  function RunPiece(s: string, dash: char, i: nat): string
    requires i < |s|
  {
    if !IsSpace(s[i]) then [s[i]]
    else if i == 0 || !IsSpace(s[i - 1]) then [dash]
    else ""
  }

  /** The pieces of the positions from `i` on, in order. */
  function RunPieces(s: string, dash: char, i: nat): string
    requires i <= |s|
    decreases |s| - i
  {
    if i == |s| then "" else RunPiece(s, dash, i) + RunPieces(s, dash, i + 1)
  }

  /** The scan of a suffix, started with the right `inRun`, is the
      position-by-position reference on that suffix. */
  lemma {:induction false} ScanFrom(s: string, dash: char, i: nat)
    requires !IsSpace(dash)
    requires i <= |s|
    ensures ScanSpaceRuns(s[i..], dash, i > 0 && IsSpace(s[i - 1])) == RunPieces(s, dash, i)
    decreases |s| - i
  {
    if i < |s| {
      var t := s[i..];
      assert t[0] == s[i] && t[1..] == s[i + 1..];
      ScanFrom(s, dash, i + 1);
    }
  }

  /** `ReplaceSpaceRuns` agrees with the position-by-position reference: each
      maximal whitespace run becomes exactly one `dash`, and every other
      character stays where it was. */
  lemma ReplaceSpaceRunsByPosition(s: string, dash: char)
    requires !IsSpace(dash)
    ensures ReplaceSpaceRuns(s, dash) == RunPieces(s, dash, 0)
  {
    assert s[0..] == s;
    ScanFrom(s, dash, 0);
  }

  /** A run of two spaces gives one dash, as the agent card's file name
      shows for the name "my  agent". */
  lemma ReplaceTwoSpaces()
    ensures ReplaceSpaceRuns("my  agent", '-') == "my-agent"
  {
    var s := "my  agent";
    TwoSpacesTail();
    assert RunPieces(s, '-', 2) == "-agent";
    assert RunPieces(s, '-', 1) == "y-agent";
    assert RunPieces(s, '-', 0) == "my-agent";
    ReplaceSpaceRunsByPosition(s, '-');
  }

  /** The reference on "my  agent" from the second space on: the run's later
      space contributes nothing. */
  lemma TwoSpacesTail()
    ensures RunPieces("my  agent", '-', 3) == "agent"
  {
    var s := "my  agent";
    assert RunPieces(s, '-', 9) == "";
    assert RunPieces(s, '-', 8) == "t";
    assert RunPieces(s, '-', 7) == "nt";
    assert RunPieces(s, '-', 6) == "ent";
    assert RunPieces(s, '-', 5) == "gent";
    assert RunPieces(s, '-', 4) == "agent";
  }
}
