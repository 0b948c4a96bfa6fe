/** Python string operations used by the modelled code: `str.split`, `str.join`, `str.strip`,
    `str.startswith`/`endswith` and `str(int)`. Strings are sequences of code points. */
module PyStr {

  /** The characters Python's `str.isspace` accepts, which `str.strip()` removes. */
  predicate IsSpace(c: char)
  {
    c == ' ' || c == '\t' || c == '\n' || c == '\r' || c == '\U{000B}' || c == '\U{000C}'
    || ('\U{001C}' <= c <= '\U{001F}') || c == '\U{0085}' || c == '\U{00A0}' || c == '\U{1680}'
    || ('\U{2000}' <= c <= '\U{200A}') || c == '\U{2028}' || c == '\U{2029}' || c == '\U{202F}'
    || c == '\U{205F}' || c == '\U{3000}'
  }

  /** Whether `c` is one of the ten consecutive code points from `zero`. */
  predicate InDigitRun(c: char, zero: int)
  {
    zero <= c as int < zero + 10
  }

  /** The number of runs of ten decimal digits in Unicode 15.0 (category Nd), which Python's
      `int()` and `float()` read. */
  const NdRuns := 68

  /** A run that holds no whitespace and no ASCII character other than `0`-`9`. */
  predicate RunClear(z: int)
  {
    z == 0x30 || (0x660 <= z && (z + 10 <= 0x1680 || (0x1680 < z && z + 10 <= 0x2000) || 0x3000 < z))
  }

  /** The first code point of the `k`-th run, in increasing order. */
  function NdZero(k: nat): int
    requires k < NdRuns
  {
    if k == 0 then 0x30
    else if k == 1 then 0x660
    else if k == 2 then 0x6F0
    else if k == 3 then 0x7C0
    else if k == 4 then 0x966
    else if k == 5 then 0x9E6
    else if k == 6 then 0xA66
    else if k == 7 then 0xAE6
    else if k == 8 then 0xB66
    else if k == 9 then 0xBE6
    else if k == 10 then 0xC66
    else if k == 11 then 0xCE6
    else if k == 12 then 0xD66
    else if k == 13 then 0xDE6
    else if k == 14 then 0xE50
    else if k == 15 then 0xED0
    else if k == 16 then 0xF20
    else if k == 17 then 0x1040
    else if k == 18 then 0x1090
    else if k == 19 then 0x17E0
    else if k == 20 then 0x1810
    else if k == 21 then 0x1946
    else if k == 22 then 0x19D0
    else if k == 23 then 0x1A80
    else if k == 24 then 0x1A90
    else if k == 25 then 0x1B50
    else if k == 26 then 0x1BB0
    else if k == 27 then 0x1C40
    else if k == 28 then 0x1C50
    else if k == 29 then 0xA620
    else if k == 30 then 0xA8D0
    else if k == 31 then 0xA900
    else if k == 32 then 0xA9D0
    else if k == 33 then 0xA9F0
    else if k == 34 then 0xAA50
    else if k == 35 then 0xABF0
    else if k == 36 then 0xFF10
    else if k == 37 then 0x104A0
    else if k == 38 then 0x10D30
    else if k == 39 then 0x11066
    else if k == 40 then 0x110F0
    else if k == 41 then 0x11136
    else if k == 42 then 0x111D0
    else if k == 43 then 0x112F0
    else if k == 44 then 0x11450
    else if k == 45 then 0x114D0
    else if k == 46 then 0x11650
    else if k == 47 then 0x116C0
    else if k == 48 then 0x11730
    else if k == 49 then 0x118E0
    else if k == 50 then 0x11950
    else if k == 51 then 0x11C50
    else if k == 52 then 0x11D50
    else if k == 53 then 0x11DA0
    else if k == 54 then 0x11F50
    else if k == 55 then 0x16A60
    else if k == 56 then 0x16AC0
    else if k == 57 then 0x16B50
    else if k == 58 then 0x1D7CE
    else if k == 59 then 0x1D7D8
    else if k == 60 then 0x1D7E2
    else if k == 61 then 0x1D7EC
    else if k == 62 then 0x1D7F6
    else if k == 63 then 0x1E140
    else if k == 64 then 0x1E2F0
    else if k == 65 then 0x1E4F0
    else if k == 66 then 0x1E950
    else 0x1FBF0
  }

  /** The zero of the run holding `c`, searching the runs from the `k`-th, or -1. */
  function ZeroFrom(c: char, k: nat): (r: int)
    ensures r >= 0 ==> r <= c as int < r + 10
    decreases NdRuns - k
  {
    if k >= NdRuns then -1
    else if InDigitRun(c, NdZero(k)) then NdZero(k)
    else ZeroFrom(c, k + 1)
  }

  /** The zero of the run of decimal digits holding `c`, or -1 when `c` is no decimal digit.
      The ASCII run is tested first; every other run starts at U+0660 or later. */
  function DigitZero(c: char): (r: int)
    ensures r >= 0 ==> r <= c as int < r + 10
  {
    if InDigitRun(c, 0x30) then 0x30
    else if c as int < 0x660 then -1
    else ZeroFrom(c, 1)
  }

  /** A decimal digit in Python's sense: `str.isdecimal`. */
  predicate IsDigit(c: char)
  {
    DigitZero(c) >= 0
  }

  /** The value of a decimal digit. */
  function DigitValue(c: char): (r: nat)
    requires IsDigit(c)
    ensures r < 10
  {
    c as int - DigitZero(c)
  }

  /** No decimal digit is whitespace, a sign, a point, an underscore or an ASCII letter. */
  lemma DigitIsNoOther(c: char)
    requires IsDigit(c)
    ensures !IsSpace(c) && c != '+' && c != '-' && c != '.' && c != '_'
    ensures !('A' <= c <= 'Z') && !('a' <= c <= 'z')
  {
    ZeroFromClear(c, 1);
  }

  /** Testing the ASCII run first gives the same answer as searching the whole table. */
  lemma DigitZeroSearches(c: char)
    ensures DigitZero(c) == ZeroFrom(c, 0)
  {
    if !InDigitRun(c, 0x30) && c as int < 0x660 {
      ZeroFromBelow(c, 1);
    }
  }

  lemma NdZeroAfterAscii(k: nat)
    requires 1 <= k < NdRuns
    ensures NdZero(k) >= 0x660
  {
  }

  /** No run after the ASCII one holds a code point below U+0660. */
  lemma {:induction false} ZeroFromBelow(c: char, k: nat)
    requires 1 <= k && c as int < 0x660
    ensures ZeroFrom(c, k) == -1
    decreases NdRuns - k
  {
    if k < NdRuns {
      NdZeroAfterAscii(k);
      ZeroFromBelow(c, k + 1);
    }
  }

  lemma NdZeroClear(k: nat)
    requires k < NdRuns
    ensures RunClear(NdZero(k))
  {
  }

  /** Every run the search can find holds no whitespace and no ASCII character but `0`-`9`. */
  lemma {:induction false} ZeroFromClear(c: char, k: nat)
    ensures ZeroFrom(c, k) >= 0 ==> RunClear(ZeroFrom(c, k))
    decreases NdRuns - k
  {
    if k < NdRuns {
      NdZeroClear(k);
      ZeroFromClear(c, k + 1);
    }
  }

  predicate StartsWith(s: string, prefix: string)
  {
    |prefix| <= |s| && s[..|prefix|] == prefix
  }

  predicate EndsWith(s: string, suffix: string)
  {
    |suffix| <= |s| && s[|s| - |suffix|..] == suffix
  }

  // ---------------------------------------------------------------------------
  // strip

  /** The first index at or after `i` whose character is not whitespace, or `|s|`. */
  function SkipSpace(s: string, i: nat): (r: nat)
    requires i <= |s|
    ensures i <= r <= |s|
    ensures r == |s| || !IsSpace(s[r])
    decreases |s| - i
  {
    if i < |s| && IsSpace(s[i]) then SkipSpace(s, i + 1) else i
  }

  /** The end of `s[lo..j]` once its trailing whitespace is dropped. */
  function TrimEnd(s: string, lo: nat, j: nat): (r: nat)
    requires lo <= j <= |s|
    ensures lo <= r <= j
    ensures r == lo || !IsSpace(s[r - 1])
    decreases j
  {
    if lo < j && IsSpace(s[j - 1]) then TrimEnd(s, lo, j - 1) else j
  }

  /** Python `s.strip()`: leading and trailing whitespace removed. */
  function Strip(s: string): string
  {
    var a := SkipSpace(s, 0);
    s[a..TrimEnd(s, a, |s|)]
  }

  /** A string that `strip` leaves alone. */
  predicate IsStripped(s: string)
  {
    s == [] || (!IsSpace(s[0]) && !IsSpace(s[|s| - 1]))
  }

  lemma StripResult(s: string)
    ensures IsStripped(Strip(s))
    ensures forall c :: c in Strip(s) ==> c in s
  {
    var a := SkipSpace(s, 0);
    var b := TrimEnd(s, a, |s|);
    var r := s[a..b];
    if r != [] {
      assert r[0] == s[a] && r[|r| - 1] == s[b - 1];
    }
    forall c | c in r ensures c in s {
      var i :| 0 <= i < |r| && r[i] == c;
      assert s[a + i] == c;
    }
  }


  lemma StrippedFixed(s: string)
    requires IsStripped(s)
    ensures Strip(s) == s
  {
    assert SkipSpace(s, 0) == 0;
    assert TrimEnd(s, 0, |s|) == |s|;
    assert s[0..|s|] == s;
  }

  /** `strip` is idempotent. */
  lemma StripIdempotent(s: string)
    ensures Strip(Strip(s)) == Strip(s)
  {
    StripResult(s);
    StrippedFixed(Strip(s));
  }

  // ---------------------------------------------------------------------------
  // split and join

  /** Python `s.split(sep)` for a non-empty separator: the pieces between the non-overlapping
      occurrences of `sep`, scanned from the left. There is always at least one piece. */
  function Split(s: string, sep: string): (r: seq<string>)
    requires |sep| > 0
    ensures |r| >= 1
    decreases |s|
  {
    if StartsWith(s, sep) then [""] + Split(s[|sep|..], sep)
    else if |s| == 0 then [""]
    else
      var rest := Split(s[1..], sep);
      [[s[0]] + rest[0]] + rest[1..]
  }

  /** Python `sep.join(parts)`. */
  function Join(sep: string, parts: seq<string>): string
    decreases |parts|
  {
    if |parts| == 0 then ""
    else if |parts| == 1 then parts[0]
    else parts[0] + sep + Join(sep, parts[1..])
  }

  lemma JoinCons(sep: string, a: string, rest: seq<string>)
    requires |rest| >= 1
    ensures Join(sep, [a] + rest) == a + sep + Join(sep, rest)
  {
    assert ([a] + rest)[1..] == rest;
  }

  /** Prepending a character to the first piece of a join. */
  lemma JoinPrependFirst(sep: string, x: char, parts: seq<string>)
    requires |parts| >= 1
    ensures Join(sep, [[x] + parts[0]] + parts[1..]) == [x] + Join(sep, parts)
  {
    if |parts| > 1 {
      JoinCons(sep, [x] + parts[0], parts[1..]);
      JoinCons(sep, parts[0], parts[1..]);
      assert [parts[0]] + parts[1..] == parts;
    }
  }

  /** Joining the pieces of a split with the same separator gives back the string. */
  lemma {:induction false} JoinSplit(s: string, sep: string)
    requires |sep| > 0
    ensures Join(sep, Split(s, sep)) == s
    decreases |s|
  {
    if StartsWith(s, sep) {
      var tail := s[|sep|..];
      assert Split(s, sep) == [""] + Split(tail, sep);
      JoinSplit(tail, sep);
      JoinCons(sep, "", Split(tail, sep));
      assert Join(sep, Split(s, sep)) == "" + sep + tail;
      assert s == s[..|sep|] + tail && s[..|sep|] == sep;
    } else if |s| == 0 {
      assert Split(s, sep) == [""];
    } else {
      var rest := Split(s[1..], sep);
      assert Split(s, sep) == [[s[0]] + rest[0]] + rest[1..];
      JoinSplit(s[1..], sep);
      JoinPrependFirst(sep, s[0], rest);
      assert s == [s[0]] + s[1..];
    }
  }

  /** Splitting a string that does not contain the one-character separator gives one piece. */
  lemma {:induction false} SplitNoSep(a: string, c: char)
    requires c !in a
    ensures Split(a, [c]) == [a]
    decreases |a|
  {
    if |a| > 0 {
      assert !StartsWith(a, [c]) by { assert a[..1] == [a[0]]; }
      SplitNoSep(a[1..], c);
      assert [a[0]] + a[1..] == a;
    }
  }

  /** Splitting `a + c + rest` at the one-character separator `c`, when `a` has no `c`. */
  lemma {:induction false} SplitAfterPiece(a: string, c: char, rest: string)
    requires c !in a
    ensures Split(a + [c] + rest, [c]) == [a] + Split(rest, [c])
    decreases |a|
  {
    var s := a + [c] + rest;
    if |a| == 0 {
      assert s == [c] + rest;
      assert StartsWith(s, [c]);
      assert s[1..] == rest;
    } else {
      assert !StartsWith(s, [c]) by { assert s[..1] == [a[0]]; }
      assert s[1..] == a[1..] + [c] + rest;
      SplitAfterPiece(a[1..], c, rest);
      assert [a[0]] + a[1..] == a;
    }
  }

  /** For a one-character separator, splitting undoes joining when no part holds the separator. */
  lemma {:induction false} SplitJoin(parts: seq<string>, c: char)
    requires |parts| >= 1
    requires forall i :: 0 <= i < |parts| ==> c !in parts[i]
    ensures Split(Join([c], parts), [c]) == parts
    decreases |parts|
  {
    if |parts| == 1 {
      SplitNoSep(parts[0], c);
    } else {
      JoinCons([c], parts[0], parts[1..]);
      SplitJoin(parts[1..], c);
      SplitAfterPiece(parts[0], c, Join([c], parts[1..]));
      assert [parts[0]] + parts[1..] == parts;
    }
  }

  /** No piece of a split holds a one-character separator. */
  lemma {:induction false} SplitPiecesLackSep(s: string, c: char)
    ensures forall i :: 0 <= i < |Split(s, [c])| ==> c !in Split(s, [c])[i]
    decreases |s|
  {
    if StartsWith(s, [c]) {
      SplitPiecesLackSep(s[1..], c);
    } else if |s| == 0 {
    } else {
      SplitPiecesLackSep(s[1..], c);
      assert s[0] != c by { assert s[..1] == [s[0]]; }
    }
  }

  // ---------------------------------------------------------------------------
  // str(int)

  function DigitChar(d: nat): char
    requires d < 10
  {
    ('0' as int + d) as char
  }

  /** Decimal digits of a natural number, as Python `str` writes them. */
  function NatToString(n: nat): (r: string)
    ensures |r| >= 1
    ensures forall i :: 0 <= i < |r| ==> IsDigit(r[i])
    decreases n
  {
    if n < 10 then [DigitChar(n)] else NatToString(n / 10) + [DigitChar(n % 10)]
  }

  /** Python `str(i)` for an integer. */
  function IntToString(i: int): string
  {
    if i < 0 then "-" + NatToString(-i) else NatToString(i)
  }

  /** Python `s.replace(old, new)` for single characters. */
  function ReplaceChar(s: string, from: char, to: char): (r: string)
    ensures |r| == |s|
    ensures forall i :: 0 <= i < |s| ==> r[i] == (if s[i] == from then to else s[i])
  {
    seq(|s|, i requires 0 <= i < |s| => if s[i] == from then to else s[i])
  }
}
