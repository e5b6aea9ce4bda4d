/**
 String operations the program relies on from Python's `str`: prefix and
 substring tests, `split`, `join`, `lower`, `strip` and integer formatting.
 */
module Text {
  import opened Wrappers

  /** `s.startswith(prefix)`, for any sequence. */
  predicate StartsWith<T(==)>(s: seq<T>, prefix: seq<T>) {
    |prefix| <= |s| && s[..|prefix|] == prefix
  }

  /** `s.endswith(suffix)` */
  predicate EndsWith(s: string, suffix: string) {
    |suffix| <= |s| && s[|s| - |suffix|..] == suffix
  }

  /** `pat` occurs in `s` starting at index `i`. */
  predicate OccursAt(s: string, pat: string, i: nat) {
    i + |pat| <= |s| && s[i..i + |pat|] == pat
  }

  /** Index of the leftmost occurrence of `pat` in `s` at or after `from` (`s.find(pat, from)`). */
  function IndexOf(s: string, pat: string, from: nat): (r: Option<nat>)
    ensures r.Some? ==> from <= r.value && OccursAt(s, pat, r.value)
    ensures r.Some? ==> forall j :: from <= j < r.value ==> !OccursAt(s, pat, j)
    ensures r.None? ==> forall j :: from <= j ==> !OccursAt(s, pat, j)
    decreases |s| - from
  {
    if from + |pat| > |s| then None
    else if OccursAt(s, pat, from) then Some(from)
    else IndexOf(s, pat, from + 1)
  }

  /** Python's `pat in s` on strings. */
  predicate Contains(s: string, pat: string) {
    IndexOf(s, pat, 0).Some?
  }

  /** A text starts with any of its prefixes. */
  lemma PrefixOfAppend(a: string, b: string)
    ensures StartsWith(a + b, a)
  {
    assert (a + b)[..|a|] == a;
  }

  /** A text occurs where it is placed. */
  lemma OccursInMiddle(a: string, pat: string, b: string)
    ensures OccursAt(a + pat + b, pat, |a|)
  {
    assert (a + pat + b)[|a|..|a| + |pat|] == pat;
  }

  /** A pattern cannot start at a position that holds a different character than its first. */
  lemma AbsentBefore(s: string, pat: string, n: nat)
    requires |pat| > 0 && n <= |s|
    requires forall j :: 0 <= j < n ==> s[j] != pat[0]
    ensures forall j :: 0 <= j < n ==> !OccursAt(s, pat, j)
  {
    forall j | 0 <= j < n ensures !OccursAt(s, pat, j) {
      if j + |pat| <= |s| {
        assert s[j..j + |pat|][0] == s[j];
      }
    }
  }

  lemma ContainsWitness(s: string, pat: string, i: nat)
    requires OccursAt(s, pat, i)
    ensures Contains(s, pat)
  {
  }

  /** The longest prefix of `s` that does not contain `stop`. */
  function TakeUntil(s: string, stop: char): (r: string)
    ensures StartsWith(s, r)
    ensures stop !in r
    ensures |r| == |s| || s[|r|] == stop
  {
    if |s| == 0 || s[0] == stop then "" else [s[0]] + TakeUntil(s[1..], stop)
  }

  /** `TakeUntil` is characterised by its contract: any prefix without `stop` that ends at the end or at `stop` is it. */
  lemma {:induction false} TakeUntilUnique(s: string, stop: char, t: string)
    requires StartsWith(s, t) && stop !in t
    requires |t| == |s| || s[|t|] == stop
    ensures TakeUntil(s, stop) == t
    decreases |t|
  {
    if |t| > 0 {
      assert s[0] == t[0];
      assert s[1..][..|t| - 1] == t[1..];
      TakeUntilUnique(s[1..], stop, t[1..]);
      assert [s[0]] + t[1..] == t;
    }
  }

  /** `sep.join(parts)` */
  function Join(parts: seq<string>, sep: string): string {
    if |parts| == 0 then ""
    else if |parts| == 1 then parts[0]
    else parts[0] + sep + Join(parts[1..], sep)
  }

  /** `s.split(sep)` for a one-character separator: always at least one piece. */
  function Split(s: string, sep: char): (r: seq<string>)
    ensures |r| >= 1
    ensures forall i :: 0 <= i < |r| ==> sep !in r[i]
    decreases |s|
  {
    var head := TakeUntil(s, sep);
    if |head| == |s| then [s] else [head] + Split(s[|head| + 1..], sep)
  }

  lemma {:induction false} TakeUntilJoined(a: string, sep: char, b: string)
    requires sep !in a
    ensures TakeUntil(a + [sep] + b, sep) == a
    decreases |a|
  {
    if |a| == 0 {
    } else {
      assert (a + [sep] + b)[1..] == a[1..] + [sep] + b;
      TakeUntilJoined(a[1..], sep, b);
    }
  }

  lemma {:induction false} TakeUntilAbsent(a: string, sep: char)
    requires sep !in a
    ensures TakeUntil(a, sep) == a
    decreases |a|
  {
    if |a| > 0 {
      assert sep !in a[1..] by {
        forall k | 0 <= k < |a[1..]| ensures a[1..][k] != sep {
          assert a[1..][k] == a[k + 1];
        }
      }
      TakeUntilAbsent(a[1..], sep);
      assert [a[0]] + a[1..] == a;
    }
  }

  /** Splitting a joined list gives the list back when no part holds the separator. */
  lemma {:induction false} SplitJoin(parts: seq<string>, sep: char)
    requires |parts| >= 1
    requires forall i :: 0 <= i < |parts| ==> sep !in parts[i]
    ensures Split(Join(parts, [sep]), sep) == parts
    decreases |parts|
  {
    if |parts| == 1 {
      TakeUntilAbsent(parts[0], sep);
    } else {
      var rest := Join(parts[1..], [sep]);
      assert Join(parts, [sep]) == parts[0] + [sep] + rest;
      TakeUntilJoined(parts[0], sep, rest);
      var s := Join(parts, [sep]);
      assert s[|parts[0]| + 1..] == rest;
      SplitJoin(parts[1..], sep);
      assert [parts[0]] + parts[1..] == parts;
    }
  }

  /** Joining the pieces of a split gives the string back. */
  lemma {:induction false} JoinSplit(s: string, sep: char)
    ensures Join(Split(s, sep), [sep]) == s
    decreases |s|
  {
    var head := TakeUntil(s, sep);
    if |head| == |s| {
      assert Split(s, sep) == [s];
    } else {
      var tail := s[|head| + 1..];
      var pieces := Split(tail, sep);
      var parts := [head] + pieces;
      assert Split(s, sep) == parts;
      assert parts[0] == head && parts[1..] == pieces;
      calc {
        Join(parts, [sep]);
        head + [sep] + Join(pieces, [sep]);
        { JoinSplit(tail, sep); }
        head + [sep] + tail;
      }
      assert s == s[..|head|] + [s[|head|]] + tail;
    }
  }

  /** Every part of a joined list occurs in the joined string, at offset `k`. */
  lemma {:induction false} JoinedPartAt(parts: seq<string>, sep: string, i: nat) returns (k: nat)
    requires i < |parts|
    ensures OccursAt(Join(parts, sep), parts[i], k)
    decreases |parts|
  {
    if i == 0 {
      k := 0;
      JoinFirst(parts, sep);
    } else {
      var k' := JoinedPartAt(parts[1..], sep, i - 1);
      assert parts[1..][i - 1] == parts[i];
      JoinRest(parts, sep);
      OccursShift(parts[0] + sep, Join(parts[1..], sep), parts[i], k');
      k := |parts[0] + sep| + k';
    }
  }

  lemma JoinFirst(parts: seq<string>, sep: string)
    requires |parts| >= 1
    ensures OccursAt(Join(parts, sep), parts[0], 0)
  {
    var s := Join(parts, sep);
    if |parts| > 1 {
      assert s == parts[0] + (sep + Join(parts[1..], sep));
    }
    assert s[0..|parts[0]|] == parts[0];
  }

  lemma JoinRest(parts: seq<string>, sep: string)
    requires |parts| >= 2
    ensures Join(parts, sep) == (parts[0] + sep) + Join(parts[1..], sep)
  {
  }

  /** An occurrence in `b` is one in `a + b`, shifted by `|a|`. */
  lemma OccursShift(a: string, b: string, pat: string, k: nat)
    requires OccursAt(b, pat, k)
    ensures OccursAt(a + b, pat, |a| + k)
  {
    assert (a + b)[|a| + k..|a| + k + |pat|] == b[k..k + |pat|];
  }

  /** Every part of a joined list occurs in the joined string. */
  lemma JoinedPartOccurs(parts: seq<string>, sep: string, i: nat)
    requires i < |parts|
    ensures Contains(Join(parts, sep), parts[i])
  {
    var k := JoinedPartAt(parts, sep, i);
    ContainsWitness(Join(parts, sep), parts[i], k);
  }

  /** Every piece of `s.split(sep)` occurs in `s`. */
  lemma SplitPieceOccurs(s: string, sep: char, w: string)
    requires w in Split(s, sep)
    ensures Contains(s, w)
  {
    var pieces := Split(s, sep);
    var i :| 0 <= i < |pieces| && pieces[i] == w;
    JoinSplit(s, sep);
    JoinedPartOccurs(pieces, [sep], i);
  }

  /** The last piece of `s.split(sep)`: the text after the last `sep`, or all of `s`. */
  function LastPiece(s: string, sep: char): (r: string)
    ensures sep !in r
    ensures EndsWith(s, r)
    ensures |r| < |s| ==> s[|s| - |r| - 1] == sep
  {
    var pieces := Split(s, sep);
    LastPieceIsSuffix(s, sep);
    pieces[|pieces| - 1]
  }

  lemma {:induction false} LastPieceIsSuffix(s: string, sep: char)
    ensures LastIsSuffix(s, sep)
    decreases |s|
  {
    var head := TakeUntil(s, sep);
    if |head| == |s| {
      assert Split(s, sep) == [s];
      assert s[|s| - |s|..] == s;
    } else {
      var tail := s[|head| + 1..];
      LastPieceIsSuffix(tail, sep);
      SplitStep(s, sep);
      LastPieceStep(s, sep, head, Split(tail, sep));
    }
  }

  /** The last piece of `Split(s, sep)` ends `s` and, unless it is all of `s`, follows a `sep`. */
  ghost predicate LastIsSuffix(s: string, sep: char) {
    LastEndsAfter(s, sep, Split(s, sep))
  }

  /** The last of `pieces` ends `s` and, unless it is all of `s`, follows a `sep`. */
  ghost predicate LastEndsAfter(s: string, sep: char, pieces: seq<string>)
    requires |pieces| >= 1
  {
    var r := pieces[|pieces| - 1];
    EndsWith(s, r) && (|r| < |s| ==> s[|s| - |r| - 1] == sep)
  }

  /** One step of `LastPieceIsSuffix`: a piece before the first `sep` does not change the last piece. */
  lemma LastPieceStep(s: string, sep: char, head: string, pieces: seq<string>)
    requires |head| < |s| && s[|head|] == sep && |pieces| >= 1
    requires LastEndsAfter(s[|head| + 1..], sep, pieces)
    ensures LastEndsAfter(s, sep, [head] + pieces)
  {
    var r := pieces[|pieces| - 1];
    assert ([head] + pieces)[|[head] + pieces| - 1] == r by {
      LastOfCons(head, pieces);
    }
    var k := |head| + 1;
    var tail := s[k..];
    assert |tail| == |s| - k;
    assert EndsWith(tail, r) && (|r| < |tail| ==> tail[|tail| - |r| - 1] == sep);
    SuffixOfTail(s, k, r, sep);
  }

  lemma LastOfCons<X>(x: X, xs: seq<X>)
    requires |xs| >= 1
    ensures ([x] + xs)[|[x] + xs| - 1] == xs[|xs| - 1]
  {
  }

  /** One step of `Split`: the text before the first `sep`, then the pieces after it. */
  lemma SplitStep(s: string, sep: char)
    requires |TakeUntil(s, sep)| < |s|
    ensures var head := TakeUntil(s, sep);
      Split(s, sep) == [head] + Split(s[|head| + 1..], sep)
  {
  }

  /** A suffix of `s[k..]` that is preceded by `sep` there is preceded by it in `s` too. */
  lemma SuffixOfTail(s: string, k: nat, r: string, sep: char)
    requires 0 < k <= |s| && s[k - 1] == sep
    requires EndsWith(s[k..], r)
    requires |r| < |s| - k ==> s[k..][|s| - k - |r| - 1] == sep
    ensures EndsWith(s, r) && (|r| < |s| ==> s[|s| - |r| - 1] == sep)
  {
    assert s[|s| - |r|..] == s[k..][|s| - k - |r|..];
  }

  /** Lower-cases the ASCII letters of `s` and leaves every other character alone. */
  function LowerAscii(s: string): (r: string)
    ensures |r| == |s|
    ensures forall i :: 0 <= i < |s| ==> r[i] == LowerChar(s[i])
  {
    if |s| == 0 then "" else [LowerChar(s[0])] + LowerAscii(s[1..])
  }

  function LowerChar(c: char): char {
    if 'A' <= c <= 'Z' then (c as int - 'A' as int + 'a' as int) as char else c
  }

  /** Python's `str.isspace` for one character. */
  predicate IsSpace(c: char) {
    || '\U{9}' <= c <= '\U{D}'
    || '\U{1C}' <= c <= '\U{20}'
    || c == '\U{85}' || c == '\U{A0}' || c == '\U{1680}'
    || '\U{2000}' <= c <= '\U{200A}'
    || c == '\U{2028}' || c == '\U{2029}' || c == '\U{202F}' || c == '\U{205F}' || c == '\U{3000}'
  }

  /** `s.strip()`: removes leading and trailing whitespace. */
  function Strip(s: string): (r: string)
    ensures |r| <= |s|
    ensures r == "" <==> forall i :: 0 <= i < |s| ==> IsSpace(s[i])
    ensures r != "" ==> !IsSpace(r[0]) && !IsSpace(r[|r| - 1])
  {
    StripRight(StripLeft(s))
  }

  function StripLeft(s: string): (r: string)
    ensures EndsWith(s, r)
    ensures forall i :: 0 <= i < |s| - |r| ==> IsSpace(s[i])
    ensures r != "" ==> !IsSpace(r[0])
  {
    if |s| > 0 && IsSpace(s[0]) then
      var r := StripLeft(s[1..]);
      assert s[|s| - |r|..] == s[1..][|s| - 1 - |r|..];
      assert forall i :: 1 <= i < |s| - |r| ==> s[i] == s[1..][i - 1];
      r
    else s
  }

  function StripRight(s: string): (r: string)
    ensures StartsWith(s, r)
    ensures forall i :: |r| <= i < |s| ==> IsSpace(s[i])
    ensures r != "" ==> !IsSpace(r[|r| - 1])
  {
    if |s| > 0 && IsSpace(s[|s| - 1]) then StripRight(s[..|s| - 1]) else s
  }

  predicate IsDigit(c: char) {
    '0' <= c <= '9'
  }

  /** Decimal digits of a natural number, most significant first, no leading zero. */
  function NatToString(n: nat): (r: string)
    ensures |r| >= 1
    ensures forall i :: 0 <= i < |r| ==> IsDigit(r[i])
    ensures |r| > 1 ==> r[0] != '0'
  {
    if n < 10 then [Digit(n)] else NatToString(n / 10) + [Digit(n % 10)]
  }

  function Digit(d: nat): (c: char)
    requires d < 10
    ensures IsDigit(c)
    ensures c as int - '0' as int == d
  {
    ('0' as int + d) as char
  }

  /** Python's `str(n)` for an integer. */
  function IntToString(n: int): (r: string)
    ensures n >= 0 ==> r == NatToString(n)
    ensures n < 0 ==> r == "-" + NatToString(-n)
  {
    if n < 0 then "-" + NatToString(-n) else NatToString(n)
  }

  /** The value of a string of decimal digits. */
  function DigitsValue(s: string): int
  {
    if |s| == 0 then 0 else DigitsValue(s[..|s| - 1]) * 10 + (s[|s| - 1] as int - '0' as int)
  }

  /** Reading the decimal text of `n` back gives `n`. */
  lemma {:induction false} NatToStringRoundTrip(n: nat)
    ensures DigitsValue(NatToString(n)) == n
  {
    if n >= 10 {
      NatToStringRoundTrip(n / 10);
      var r := NatToString(n);
      assert r[..|r| - 1] == NatToString(n / 10);
    }
  }

  /** Number of occurrences of `c` in `s`. */
  function Count(s: string, c: char): nat {
    if |s| == 0 then 0 else Count(s[..|s| - 1], c) + (if s[|s| - 1] == c then 1 else 0)
  }

  lemma {:induction false} CountAppend(a: string, b: string, c: char)
    ensures Count(a + b, c) == Count(a, c) + Count(b, c)
    decreases |b|
  {
    if |b| > 0 {
      assert (a + b)[..|a + b| - 1] == a + b[..|b| - 1];
      CountAppend(a, b[..|b| - 1], c);
    } else {
      assert a + b == a;
    }
  }

  lemma {:induction false} CountAbsent(s: string, c: char)
    requires c !in s
    ensures Count(s, c) == 0
    decreases |s|
  {
    if |s| > 0 {
      var init := s[..|s| - 1];
      assert c !in init by {
        forall k | 0 <= k < |init| ensures init[k] != c {
          assert init[k] == s[k];
        }
      }
      CountAbsent(init, c);
    }
  }
}
