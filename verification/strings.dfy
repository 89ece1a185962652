/** String helpers shared by the serialisers: `Array.prototype.join`,
    decimal text of non-negative integers and its reader, `padStart`, prefix
    and substring tests, and ASCII lower-casing. */
module Strings {

  /** `parts.join(sep)`. */
  function Join(parts: seq<string>, sep: string): string
    decreases |parts|
  {
    if |parts| == 0 then ""
    else if |parts| == 1 then parts[0]
    else parts[0] + sep + Join(parts[1..], sep)
  }

  /** Joining one more part appends the separator and the part. */
  lemma {:induction false} JoinAppend(parts: seq<string>, last: string, sep: string)
    ensures Join(parts + [last], sep) == if |parts| == 0 then last else Join(parts, sep) + sep + last
    decreases |parts|
  {
    if |parts| == 0 {
      assert parts + [last] == [last];
    } else if |parts| == 1 {
      assert parts + [last] == [parts[0], last];
      assert (parts + [last])[1..] == [last];
    } else {
      assert (parts + [last])[1..] == parts[1..] + [last];
      JoinAppend(parts[1..], last, sep);
    }
  }

  /** `s.startsWith(t)`. */
  predicate StartsWith(s: string, t: string) {
    |t| <= |s| && s[..|t|] == t
  }

  /** `s.endsWith(t)`. */
  predicate EndsWith(s: string, t: string) {
    |t| <= |s| && s[|s| - |t|..] == t
  }

  /** `t` occurs in `s` starting at index `i`. */
  predicate StartsAt(s: string, i: int, t: string) {
    0 <= i && i + |t| <= |s| && s[i..i + |t|] == t
  }

  /** `t` occurs somewhere in `s`. */
  predicate Contains(s: string, t: string) {
    exists i :: 0 <= i <= |s| - |t| && StartsAt(s, i, t)
  }

  /** `s.includes(t)`, as a left-to-right search. */
  function Includes(s: string, t: string): bool
    decreases |s|
  {
    if |t| > |s| then false
    else if s[..|t|] == t then true
    else Includes(s[1..], t)
  }

  /** The search finds `t` exactly when `t` occurs in `s`. */
  lemma {:induction false} IncludesIsContains(s: string, t: string)
    ensures Includes(s, t) <==> Contains(s, t)
    decreases |s|
  {
    if |t| > |s| {
    } else if s[..|t|] == t {
      assert StartsAt(s, 0, t);
    } else {
      IncludesIsContains(s[1..], t);
      if Includes(s[1..], t) {
        var i :| 0 <= i <= |s[1..]| - |t| && StartsAt(s[1..], i, t);
        SliceOfTail(s, i, |t|);
        assert StartsAt(s, i + 1, t);
      }
      if Contains(s, t) {
        var i :| 0 <= i <= |s| - |t| && StartsAt(s, i, t);
        assert i != 0;
        SliceOfTail(s, i - 1, |t|);
        assert StartsAt(s[1..], i - 1, t);
      }
    }
  }

  /** A slice of `s[1..]` is the slice of `s` one place further on. */
  lemma SliceOfTail(s: string, i: nat, n: nat)
    requires 1 + i + n <= |s|
    ensures s[1..][i..i + n] == s[i + 1..i + 1 + n]
  {
    var u := s[1..][i..i + n];
    assert forall k | 0 <= k < n :: u[k] == s[1..][i + k];
  }

  /** An occurrence survives text appended after it or placed before it
      (shifted by the length of what was placed before). */
  lemma StartsAtConcat(p: string, q: string, i: int, t: string)
    ensures StartsAt(p, i, t) ==> StartsAt(p + q, i, t)
    ensures StartsAt(q, i, t) ==> StartsAt(p + q, |p| + i, t)
  {
    if StartsAt(p, i, t) {
      assert (p + q)[i..i + |t|] == p[i..i + |t|];
    }
    if StartsAt(q, i, t) {
      assert (p + q)[|p| + i..|p| + i + |t|] == q[i..i + |t|];
    }
  }

  /** A prefix stays a prefix when text is appended. */
  lemma StartsWithExtend(s: string, more: string, t: string)
    requires StartsWith(s, t)
    ensures StartsWith(s + more, t)
  {
    assert (s + more)[..|t|] == s[..|t|];
  }

  /** A concatenation starts with its first part and ends with its last. */
  lemma ConcatEnds(a: string, b: string)
    ensures StartsWith(a + b, a) && EndsWith(a + b, b)
    ensures StartsAt(a + b, 0, a) && StartsAt(a + b, |a|, b)
  {
    assert (a + b)[..|a|] == a;
    assert (a + b)[|a|..] == b;
    assert (a + b)[0..|a|] == a;
    assert (a + b)[|a|..|a| + |b|] == b;
  }

  /** A suffix stays a suffix when text is prepended. */
  lemma EndsWithExtend(more: string, s: string, t: string)
    requires EndsWith(s, t)
    ensures EndsWith(more + s, t)
  {
    assert (more + s)[|more + s| - |t|..] == s[|s| - |t|..];
  }

  /** An occurrence of `a + b` is an occurrence of `a`. */
  lemma StartsAtPrefix(s: string, i: int, a: string, b: string)
    requires StartsAt(s, i, a + b)
    ensures StartsAt(s, i, a)
  {
    assert s[i..i + |a|] == s[i..i + |a + b|][..|a|];
  }

  /** A piece of a concatenation occurs in it. */
  lemma ContainsMiddle(a: string, b: string, c: string)
    ensures Contains(a + b + c, b)
  {
    assert (a + b + c)[|a|..|a| + |b|] == b;
    assert StartsAt(a + b + c, |a|, b);
  }

  /** A string contains itself, and containment survives adding text on
      either side. */
  lemma ContainsSelf(s: string)
    ensures Contains(s, s)
  {
    assert s[0..|s|] == s;
    assert StartsAt(s, 0, s);
  }

  lemma ContainsExtend(a: string, s: string, c: string, t: string)
    requires Contains(s, t)
    ensures Contains(a + s, t) && Contains(s + c, t)
  {
    var i :| 0 <= i <= |s| - |t| && StartsAt(s, i, t);
    assert (a + s)[|a| + i..|a| + i + |t|] == s[i..i + |t|];
    assert StartsAt(a + s, |a| + i, t);
    assert (s + c)[i..i + |t|] == s[i..i + |t|];
    assert StartsAt(s + c, i, t);
  }

  /** Containment is transitive. */
  lemma ContainsTrans(a: string, b: string, c: string)
    requires Contains(a, b) && Contains(b, c)
    ensures Contains(a, c)
  {
    var i :| 0 <= i <= |a| - |b| && StartsAt(a, i, b);
    var j :| 0 <= j <= |b| - |c| && StartsAt(b, j, c);
    assert a[i..i + |b|] == b;
    forall k | 0 <= k < |c| ensures a[i + j..i + j + |c|][k] == c[k] {
      assert a[i + j + k] == a[i..i + |b|][j + k] == b[j + k];
      assert b[j..j + |c|][k] == c[k];
    }
    assert StartsAt(a, i + j, c);
  }

  /** Every part occurs in the joined text. */
  lemma {:induction false} JoinContains(parts: seq<string>, sep: string, i: nat)
    requires i < |parts|
    ensures Contains(Join(parts, sep), parts[i])
    decreases |parts|
  {
    if |parts| == 1 {
      ContainsSelf(parts[0]);
    } else {
      var head := parts[0] + sep;
      var rest := Join(parts[1..], sep);
      assert Join(parts, sep) == head + rest;
      if i == 0 {
        ContainsSelf(parts[0]);
        ContainsExtend("", parts[0], sep, parts[0]);
        ContainsExtend("", head, rest, parts[0]);
      } else {
        JoinContains(parts[1..], sep, i - 1);
        ContainsExtend(head, rest, "", parts[i]);
      }
    }
  }

  /** The joined text begins with the first part and ends with the last. */
  lemma {:induction false} JoinEnds(parts: seq<string>, sep: string)
    requires |parts| > 0
    ensures StartsWith(Join(parts, sep), parts[0])
    ensures EndsWith(Join(parts, sep), parts[|parts| - 1])
    decreases |parts|
  {
    if |parts| > 1 {
      JoinEnds(parts[1..], sep);
      var head := parts[0] + sep;
      var rest := Join(parts[1..], sep);
      assert Join(parts, sep) == head + rest;
      assert (head + rest)[..|parts[0]|] == parts[0];
      var last := parts[|parts| - 1];
      assert parts[1..][|parts[1..]| - 1] == last;
      assert (head + rest)[|head + rest| - |last|..] == rest[|rest| - |last|..];
    }
  }

  /** Every part occurs in the joined text, for all parts at once. */
  lemma JoinContainsAll(parts: seq<string>, sep: string)
    ensures forall i :: 0 <= i < |parts| ==> Contains(Join(parts, sep), parts[i])
  {
    forall i | 0 <= i < |parts| ensures Contains(Join(parts, sep), parts[i]) {
      JoinContains(parts, sep, i);
    }
  }

  /** A text built as head, middle and tail starts with the head and ends
      with the tail. */
  lemma Bracketed(head: string, mid: string, tail: string)
    ensures StartsWith(head + mid + tail, head) && EndsWith(head + mid + tail, tail)
  {
    var s := head + mid + tail;
    assert s[..|head|] == head;
    assert s[|s| - |tail|..] == tail;
  }

  /** `c.toLowerCase()` for ASCII letters; other characters are kept. */
  function LowerChar(c: char): char {
    if 'A' <= c <= 'Z' then (c as int + 32) as char else c
  }

  /** `s.toLowerCase()` restricted to ASCII case mapping. */
  function Lower(s: string): string
    decreases |s|
  {
    if |s| == 0 then "" else [LowerChar(s[0])] + Lower(s[1..])
  }

  /** Lower-casing leaves a string without capitals unchanged. */
  lemma {:induction false} LowerKeepsLowerCase(s: string)
    requires forall i :: 0 <= i < |s| ==> !('A' <= s[i] <= 'Z')
    ensures Lower(s) == s
    decreases |s|
  {
    if |s| > 0 {
      LowerKeepsLowerCase(s[1..]);
      assert s == [s[0]] + s[1..];
    }
  }

  // ---------------------------------------------------------------------
  // Decimal text of non-negative integers.

  function Pow10(k: nat): nat {
    if k == 0 then 1 else 10 * Pow10(k - 1)
  }

  predicate IsDigit(c: char) {
    '0' <= c <= '9'
  }

  function DigitChar(d: nat): char
    requires d < 10
  {
    ('0' as int + d) as char
  }

  function DigitValue(c: char): nat {
    if IsDigit(c) then c as int - '0' as int else 0
  }

  /** `String(n)` for a non-negative integer: decimal digits, no leading
      zero. */
  function NatStr(n: nat): (s: string)
    ensures |s| >= 1
    ensures forall i :: 0 <= i < |s| ==> IsDigit(s[i])
    ensures s[0] == '0' ==> n == 0
    decreases n
  {
    if n < 10 then [DigitChar(n)] else NatStr(n / 10) + [DigitChar(n % 10)]
  }

  /** Reads a string of decimal digits back as a number. */
  function ParseNat(s: string): nat
    decreases |s|
  {
    if |s| == 0 then 0 else ParseNat(s[..|s| - 1]) * 10 + DigitValue(s[|s| - 1])
  }

  /** Reading back the decimal text of `n` gives `n`. */
  lemma {:induction false} NatStrRoundTrip(n: nat)
    ensures ParseNat(NatStr(n)) == n
    decreases n
  {
    var s := NatStr(n);
    if n < 10 {
      assert s[..|s| - 1] == [];
    } else {
      NatStrRoundTrip(n / 10);
      assert s[..|s| - 1] == NatStr(n / 10);
    }
  }

  /** Decimal text is injective. */
  lemma NatStrInjective(m: nat, n: nat)
    requires NatStr(m) == NatStr(n)
    ensures m == n
  {
    NatStrRoundTrip(m);
    NatStrRoundTrip(n);
  }

  /** `n` has at most `d` digits when it is below `10^d`. */
  lemma {:induction false} NatStrLength(n: nat, d: nat)
    requires d >= 1 && n < Pow10(d)
    ensures |NatStr(n)| <= d
    decreases n
  {
    if n >= 10 {
      assert Pow10(1) == 10;
      assert d >= 2;
      assert n / 10 < Pow10(d - 1);
      NatStrLength(n / 10, d - 1);
    }
  }

  function Repeat(c: char, k: nat): (s: string)
    ensures |s| == k
    ensures forall i :: 0 <= i < k ==> s[i] == c
  {
    if k == 0 then "" else Repeat(c, k - 1) + [c]
  }

  /** `s.padStart(width, c)`: left-pads to `width`, never truncates. */
  function PadStart(s: string, width: nat, c: char): (r: string)
    ensures |r| == if |s| >= width then |s| else width
    ensures EndsWith(r, s)
    ensures forall i :: 0 <= i < |r| - |s| ==> r[i] == c
  {
    if |s| >= width then s else Repeat(c, width - |s|) + s
  }

  /** Leading zeros do not change the value read back. */
  lemma {:induction false} ParseLeadingZeros(k: nat, s: string)
    ensures ParseNat(Repeat('0', k) + s) == ParseNat(s)
    decreases |s|
  {
    var z := Repeat('0', k);
    if |s| == 0 {
      assert z + s == z;
      ParseZeros(k);
    } else {
      var init := s[..|s| - 1];
      var zs := z + s;
      assert zs[..|zs| - 1] == z + init;
      assert zs[|zs| - 1] == s[|s| - 1];
      ParseLeadingZeros(k, init);
    }
  }

  /** A run of zeros reads back as zero. */
  lemma {:induction false} ParseZeros(k: nat)
    ensures ParseNat(Repeat('0', k)) == 0
  {
    if k > 0 {
      var z := Repeat('0', k);
      assert z[..|z| - 1] == Repeat('0', k - 1);
      ParseZeros(k - 1);
    }
  }

  /** A zero-padded decimal reads back as the number it pads. */
  lemma PaddedRoundTrip(n: nat, width: nat)
    ensures ParseNat(PadStart(NatStr(n), width, '0')) == n
  {
    var s := NatStr(n);
    NatStrRoundTrip(n);
    if |s| < width {
      ParseLeadingZeros(width - |s|, s);
    }
  }
}
