/** String operations the Python code takes from `str`: substring search
    (`find`, `in`), ASCII lower-casing, removing a character (`replace(c, "")`),
    `sep.join`, `split`, and decimal formatting of a natural number. */
module Strings {

  /** `pat` occurs in `s` starting at index `q`. */
  predicate At(s: string, pat: string, q: int)
  {
    0 <= q && q + |pat| <= |s| && s[q..q + |pat|] == pat
  }

  /** A slice of a slice is a slice of the original. */
  lemma SubSlice(s: string, lo: int, hi: int, i: int, j: int)
    requires 0 <= lo <= hi <= |s| && 0 <= i <= j <= hi - lo
    ensures s[lo..hi][i..j] == s[lo + i..lo + j]
  {
    forall t | 0 <= t < j - i ensures s[lo..hi][i..j][t] == s[lo + i..lo + j][t] {
      assert s[lo..hi][i..j][t] == s[lo..hi][i + t];
    }
  }

  /** A suffix of `s` that is `a + b` starts with `a`, and `b` follows. */
  lemma SuffixSplit(s: string, p: int, a: string, b: string)
    requires 0 <= p <= |s| && s[p..] == a + b
    ensures p + |a| <= |s| && s[p..p + |a|] == a && s[p + |a|..] == b
  {
    assert s[p..p + |a|] == s[p..][..|a|];
    assert s[p + |a|..] == s[p..][|a|..];
  }

  /** `s.find(pat, from)`: the first index at or after `from` where `pat`
      occurs, or -1 when there is none. */
  function Find(s: string, pat: string, from: nat): (r: int)
    decreases |s| - from
    ensures r == -1 || (from <= r && At(s, pat, r))
  {
    if from + |pat| > |s| then -1
    else if s[from..from + |pat|] == pat then from
    else Find(s, pat, from + 1)
  }

  /** `find` reports the first occurrence: none lies between `from` and
      its result, and none at all after `from` when it reports -1. */
  lemma {:induction false} FindIsFirst(s: string, pat: string, from: nat)
    decreases |s| - from
    ensures var r := Find(s, pat, from);
      forall q :: from <= q && (r == -1 || q < r) ==> !At(s, pat, q)
  {
    if from + |pat| <= |s| && s[from..from + |pat|] != pat {
      FindIsFirst(s, pat, from + 1);
    }
  }

  /** The first `c` at or after `from` is found at `k`. */
  lemma {:induction false} FindFirstChar(s: string, c: char, from: nat, k: nat)
    requires from <= k < |s| && s[k] == c
    requires forall i :: from <= i < k ==> s[i] != c
    ensures Find(s, [c], from) == k
    decreases k - from
  {
    if from < k {
      assert s[from..from + 1][0] == s[from];
      FindFirstChar(s, c, from + 1, k);
    } else {
      assert s[k..k + 1] == [c];
    }
  }

  /** `pat in s`. */
  predicate Contains(s: string, pat: string)
  {
    Find(s, pat, 0) >= 0
  }

  /** `pat in s` holds exactly when `pat` occurs somewhere in `s`. */
  lemma ContainsIff(s: string, pat: string)
    ensures Contains(s, pat) <==> exists q :: At(s, pat, q)
  {
    FindIsFirst(s, pat, 0);
  }

  /** A character that cannot begin `pat` also cannot begin an occurrence of it. */
  lemma NoFirstCharNoOccurrence(s: string, pat: string)
    requires |pat| > 0 && pat[0] !in s
    ensures !Contains(s, pat)
  {
  }

  function LowerChar(c: char): char
  {
    if 'A' <= c <= 'Z' then (c as int + 32) as char else c
  }

  /** `str.lower()` restricted to ASCII: every upper-case ASCII letter is
      replaced by its lower-case form, every other character is kept. */
  function Lower(s: string): (r: string)
    ensures |r| == |s|
    ensures forall i :: 0 <= i < |s| && !('A' <= s[i] <= 'Z') ==> r[i] == s[i]
    ensures forall i :: 0 <= i < |s| && 'A' <= s[i] <= 'Z' ==> r[i] as int == s[i] as int + 32
    ensures forall i :: 0 <= i < |r| ==> !('A' <= r[i] <= 'Z')
  {
    seq(|s|, i requires 0 <= i < |s| => LowerChar(s[i]))
  }

  /** `s.replace(c, "")`: `s` with every occurrence of `c` dropped. */
  function RemoveAll(s: string, c: char): (r: string)
    ensures c !in r
    ensures c !in s ==> r == s
    ensures forall i :: 0 <= i < |r| ==> r[i] in s
  {
    if s == [] then []
    else if s[0] == c then RemoveAll(s[1..], c) else [s[0]] + RemoveAll(s[1..], c)
  }

  /** Every character other than `c` is kept as often as it occurs. */
  lemma {:induction false} RemoveAllCounts(s: string, c: char)
    ensures multiset(RemoveAll(s, c)) == multiset(s)[c := 0]
    decreases |s|
  {
    if s != [] {
      assert s == [s[0]] + s[1..];
      RemoveAllCounts(s[1..], c);
    }
  }

  /** `replace` keeps the order of what it keeps: removing splits over
      concatenation. */
  lemma {:induction false} RemoveAllAppend(a: string, b: string, c: char)
    ensures RemoveAll(a + b, c) == RemoveAll(a, c) + RemoveAll(b, c)
    decreases |a|
  {
    if a != [] {
      assert (a + b)[0] == a[0] && (a + b)[1..] == a[1..] + b;
      RemoveAllAppend(a[1..], b, c);
    } else {
      assert a + b == b;
      var r := RemoveAll(b, c);
      assert RemoveAll(a, c) + r == [] + r == r;
    }
  }

  /** One character: `c` itself is dropped, any other one is kept. */
  lemma RemoveAllChar(x: char, c: char)
    ensures RemoveAll([x], c) == if x == c then [] else [x]
  {
  }

  /** `sep.join(parts)`. */
  function Join(parts: seq<string>, sep: string): string
  {
    if |parts| == 0 then ""
    else if |parts| == 1 then parts[0]
    else parts[0] + sep + Join(parts[1..], sep)
  }

  /** Joining pieces without `c` by a separator without `c` gives a text
      without `c`. */
  lemma {:induction false} JoinAvoids(parts: seq<string>, sep: string, c: char)
    requires c !in sep
    requires forall i :: 0 <= i < |parts| ==> c !in parts[i]
    ensures c !in Join(parts, sep)
    decreases |parts|
  {
    if |parts| > 1 {
      JoinAvoids(parts[1..], sep, c);
    }
  }

  /** `s.split(c)`: the pieces of `s` between occurrences of `c`. */
  function Split(s: string, c: char): (r: seq<string>)
    decreases |s|
    ensures |r| >= 1
    ensures forall i :: 0 <= i < |r| ==> c !in r[i]
  {
    if |s| == 0 then [""]
    else if s[0] == c then [""] + Split(s[1..], c)
    else
      var t := Split(s[1..], c);
      [[s[0]] + t[0]] + t[1..]
  }

  /** Splitting a text with no separator in front of `s` glues it onto
      the first piece of `s`. */
  lemma {:induction false} SplitPrefix(a: string, s: string, c: char)
    requires c !in a
    ensures Split(a + s, c) == [a + Split(s, c)[0]] + Split(s, c)[1..]
    decreases |a|
  {
    if a != [] {
      assert (a + s)[0] == a[0];
      assert (a + s)[1..] == a[1..] + s;
      SplitPrefix(a[1..], s, c);
      assert [a[0]] + (a[1..] + Split(s, c)[0]) == a + Split(s, c)[0];
    } else {
      var t := Split(s, c);
      assert a + s == s && a + t[0] == t[0];
      assert [t[0]] + t[1..] == t;
    }
  }

  /** Round trip: splitting `parts` joined by `c` gives the parts back,
      provided no part contains `c`. */
  lemma {:induction false} SplitJoin(parts: seq<string>, c: char)
    requires |parts| >= 1
    requires forall i :: 0 <= i < |parts| ==> c !in parts[i]
    ensures Split(Join(parts, [c]), c) == parts
    decreases |parts|
  {
    if |parts| == 1 {
      SplitPrefix(parts[0], "", c);
      assert parts[0] + "" == parts[0];
    } else {
      var rest := Join(parts[1..], [c]);
      assert Join(parts, [c]) == parts[0] + ([c] + rest);
      SplitPrefix(parts[0], [c] + rest, c);
      assert ([c] + rest)[0] == c && ([c] + rest)[1..] == rest;
      assert Split([c] + rest, c) == [""] + Split(rest, c);
      SplitJoin(parts[1..], c);
      assert parts[0] + "" == parts[0];
      assert parts == [parts[0]] + parts[1..];
    }
  }

  /** Appending a separator and a piece without one adds that piece at
      the end of the split. */
  lemma {:induction false} SplitAppend(s: string, c: char, b: string)
    requires c !in b
    ensures Split(s + [c] + b, c) == Split(s, c) + [b]
    decreases |s|
  {
    if s == [] {
      SplitPrefix(b, "", c);
      assert b + "" == b;
      assert s + [c] + b == [c] + b && ([c] + b)[1..] == b;
    } else {
      assert (s + [c] + b)[0] == s[0];
      assert (s + [c] + b)[1..] == s[1..] + [c] + b;
      SplitAppend(s[1..], c, b);
      if s[0] != c {
        var u := Split(s[1..], c);
        assert (u + [b])[0] == u[0] && (u + [b])[1..] == u[1..] + [b];
      }
    }
  }

  function Digit(d: nat): (c: char)
    requires d < 10
    ensures '0' <= c <= '9'
  {
    ('0' as int + d) as char
  }

  /** `f"{n}"` for a natural number: its decimal digits, most significant
      first, without leading zeros. */
  function NatToString(n: nat): (r: string)
    ensures 1 <= |r|
    ensures n < 10 <==> |r| == 1
    ensures forall i :: 0 <= i < |r| ==> '0' <= r[i] <= '9'
    ensures r[0] == '0' ==> n == 0
  {
    if n < 10 then [Digit(n)] else NatToString(n / 10) + [Digit(n % 10)]
  }

  /** The number a string of decimal digits denotes, read left to right. */
  function DecimalValue(s: string): (v: nat)
    requires forall i :: 0 <= i < |s| ==> '0' <= s[i] <= '9'
    decreases |s|
  {
    if s == [] then 0 else DecimalValue(s[..|s| - 1]) * 10 + (s[|s| - 1] as int - '0' as int)
  }

  /** The digits `NatToString` produces denote `n`. */
  lemma {:induction false} NatToStringValue(n: nat)
    ensures DecimalValue(NatToString(n)) == n
  {
    if n >= 10 {
      var s := NatToString(n);
      assert s[..|s| - 1] == NatToString(n / 10);
      NatToStringValue(n / 10);
    }
  }

  /** Distinct numbers are formatted differently. */
  lemma NatToStringInjective(a: nat, b: nat)
    requires NatToString(a) == NatToString(b)
    ensures a == b
  {
    NatToStringValue(a);
    NatToStringValue(b);
  }
}
