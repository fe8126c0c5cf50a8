/** String operations the source performs with JavaScript built-ins. */
module Text {
  import opened Types

  predicate IsDigit(c: char) {
    '0' <= c <= '9'
  }

  /** The truthiness of an optional string: present and not empty. */
  predicate Truthy(s: Option<string>) {
    s.Some? && s.value != ""
  }

  predicate AllDigits(s: string) {
    forall i :: 0 <= i < |s| ==> IsDigit(s[i])
  }

  /** `s.replace(/\D/g, '')`: the digits of `s`, in order. */
  function DigitsOnly(s: string): (r: string)
    ensures AllDigits(r)
    ensures |r| <= |s|
  {
    if s == [] then [] else (if IsDigit(s[0]) then [s[0]] else []) + DigitsOnly(s[1..])
  }

  lemma {:induction false} DigitsOnlyOfDigits(s: string)
    requires AllDigits(s)
    ensures DigitsOnly(s) == s
  {
    if s != [] {
      DigitsOnlyOfDigits(s[1..]);
    }
  }

  /** A character that is not a digit is dropped. */
  lemma DigitsOnlyDropsNonDigit(c: char)
    requires !IsDigit(c)
    ensures DigitsOnly([c]) == []
  {
  }

  lemma {:induction false} DigitsOnlyAppend(a: string, b: string)
    ensures DigitsOnly(a + b) == DigitsOnly(a) + DigitsOnly(b)
  {
    if a != [] {
      var head := if IsDigit(a[0]) then [a[0]] else [];
      assert (a + b)[0] == a[0];
      assert (a + b)[1..] == a[1..] + b;
      DigitsOnlyAppend(a[1..], b);
      calc {
        DigitsOnly(a + b);
        head + DigitsOnly(a[1..] + b);
        head + (DigitsOnly(a[1..]) + DigitsOnly(b));
        (head + DigitsOnly(a[1..])) + DigitsOnly(b);
        DigitsOnly(a) + DigitsOnly(b);
      }
    } else {
      assert a + b == b;
    }
  }

  /** `toUpperCase` on ASCII letters; other characters are left alone. */
  function UpperChar(c: char): char {
    if 'a' <= c <= 'z' then (c as int - 32) as char else c
  }

  function Upper(s: string): (r: string)
    ensures |r| == |s|
    ensures forall i :: 0 <= i < |s| ==> r[i] == UpperChar(s[i])
  {
    if s == [] then [] else [UpperChar(s[0])] + Upper(s[1..])
  }

  lemma UpperIdempotent(s: string)
    ensures Upper(Upper(s)) == Upper(s)
  {
  }

  predicate NoLowerCase(s: string) {
    forall i :: 0 <= i < |s| ==> !('a' <= s[i] <= 'z')
  }

  lemma UpperOfUpperCase(s: string)
    requires NoLowerCase(s)
    ensures Upper(s) == s
  {
  }

  /** `s.includes(sub)`. */
  function Contains(s: string, sub: string): bool {
    sub <= s || (s != [] && Contains(s[1..], sub))
  }

  lemma {:induction false} ContainsAfter(prefix: string, sub: string, rest: string)
    ensures Contains(prefix + sub + rest, sub)
  {
    if prefix != [] {
      assert (prefix + sub + rest)[1..] == prefix[1..] + sub + rest;
      ContainsAfter(prefix[1..], sub, rest);
    } else {
      assert prefix + sub + rest == sub + rest;
    }
  }

  /** What a string contains, it still contains with more appended. */
  lemma {:induction false} ContainsExtend(a: string, b: string, sub: string)
    requires Contains(a, sub)
    ensures Contains(a + b, sub)
  {
    if !(sub <= a) {
      assert (a + b)[1..] == a[1..] + b;
      ContainsExtend(a[1..], b, sub);
    }
  }

  /** `sub` occurring at position `k` of `s` is contained in it. */
  lemma {:induction false} ContainsAt(s: string, sub: string, k: nat)
    requires k + |sub| <= |s| && s[k..k + |sub|] == sub
    ensures Contains(s, sub)
  {
    if k == 0 {
      assert sub <= s;
    } else {
      assert s[1..][k - 1..k - 1 + |sub|] == sub;
      ContainsAt(s[1..], sub, k - 1);
    }
  }

  /** A `Contains` hit needs the first two characters of `sub` next to each other somewhere in `s`. */
  lemma {:induction false} ContainsNeedsPair(s: string, sub: string)
    requires |sub| >= 2
    requires Contains(s, sub)
    ensures exists i :: 0 <= i < |s| - 1 && s[i] == sub[0] && s[i + 1] == sub[1]
  {
    if sub <= s {
      assert s[0] == sub[0] && s[1] == sub[1];
    } else {
      ContainsNeedsPair(s[1..], sub);
      var i :| 0 <= i < |s[1..]| - 1 && s[1..][i] == sub[0] && s[1..][i + 1] == sub[1];
      assert s[i + 1] == sub[0] && s[i + 2] == sub[1];
    }
  }

  /** No `x` in `s` is directly followed by `y`. */
  predicate NoPair(s: string, x: char, y: char) {
    forall i :: 0 <= i < |s| - 1 && s[i] == x ==> s[i + 1] != y
  }

  /** Two strings without an `x y` pair, not joined at an `x` followed by `y`, make one without it. */
  lemma NoPairConcat(a: string, b: string, x: char, y: char)
    requires NoPair(a, x, y) && NoPair(b, x, y)
    requires a == [] || b == [] || a[|a| - 1] != x || b[0] != y
    ensures NoPair(a + b, x, y)
  {
    var s := a + b;
    forall i | 0 <= i < |s| - 1 && s[i] == x ensures s[i + 1] != y {
      if i < |a| - 1 {
        assert s[i] == a[i] && s[i + 1] == a[i + 1];
      } else if i >= |a| {
        assert s[i] == b[i - |a|] && s[i + 1] == b[i + 1 - |a|];
      }
    }
  }

  /** Without the pair of its first two characters, `sub` does not occur in `s`. */
  lemma NoPairNoContains(s: string, sub: string)
    requires |sub| >= 2 && NoPair(s, sub[0], sub[1])
    ensures !Contains(s, sub)
  {
    if Contains(s, sub) {
      ContainsNeedsPair(s, sub);
    }
  }

  function DigitChar(d: nat): char
    requires d < 10
  {
    "0123456789"[d]
  }

  /** `String(n)` for a non-negative integer. */
  function NatToString(n: nat): (r: string)
    ensures |r| >= 1
    ensures AllDigits(r)
  {
    if n < 10 then [DigitChar(n)] else NatToString(n / 10) + [DigitChar(n % 10)]
  }

  /** `s.split(sep)`: the pieces between occurrences of `sep`; there is always at least one. */
  function Split(s: string, sep: char): (r: seq<string>)
    ensures |r| >= 1
    ensures forall k :: 0 <= k < |r| ==> sep !in r[k]
  {
    if s == [] then [""]
    else
      var rest := Split(s[1..], sep);
      if s[0] == sep then [""] + rest else [[s[0]] + rest[0]] + rest[1..]
  }

  lemma {:induction false} SplitNoSeparator(s: string, sep: char)
    requires sep !in s
    ensures Split(s, sep) == [s]
  {
    if s != [] {
      SplitNoSeparator(s[1..], sep);
      assert [s[0]] + s[1..] == s;
    }
  }

  lemma {:induction false} SplitAfterSeparator(a: string, sep: char, b: string)
    requires sep !in a
    ensures Split(a + [sep] + b, sep) == [a] + Split(b, sep)
  {
    if a == [] {
      assert a + [sep] + b == [sep] + b;
      assert ([sep] + b)[1..] == b;
    } else {
      assert (a + [sep] + b)[1..] == a[1..] + [sep] + b;
      SplitAfterSeparator(a[1..], sep, b);
      assert [a[0]] + a[1..] == a;
    }
  }

  /** `s.slice(0, n)` for `n >= 0`. */
  function SliceFront(s: string, n: nat): (r: string)
    ensures |r| == if |s| < n then |s| else n
    ensures r <= s
  {
    if |s| < n then s else s[..n]
  }

  lemma PrefixOfAppend(a: string, b: string, n: nat)
    requires n <= |a|
    ensures (a + b)[..n] == a[..n]
  {
  }

  /** `s.slice(-n)` for `n > 0`: the last `n` characters, or all of `s` when it is shorter. */
  function SliceBack(s: string, n: nat): (r: string)
    requires n > 0
    ensures |r| == if |s| < n then |s| else n
    ensures forall i :: 0 <= i < |r| ==> r[i] == s[|s| - |r| + i]
  {
    if |s| < n then s else s[|s| - n..]
  }

  /** `s.repeat(n)`. */
  function Repeat(s: string, n: nat): (r: string)
    ensures |r| == |s| * n
  {
    if n == 0 then "" else s + Repeat(s, n - 1)
  }

  /** `s.replace(/-/g, '')`. */
  function RemoveChar(s: string, c: char): (r: string)
    ensures c !in r
    ensures |r| <= |s|
  {
    if s == [] then [] else (if s[0] == c then [] else [s[0]]) + RemoveChar(s[1..], c)
  }

  lemma {:induction false} RemoveCharAbsent(s: string, c: char)
    requires c !in s
    ensures RemoveChar(s, c) == s
  {
    if s != [] {
      RemoveCharAbsent(s[1..], c);
      assert [s[0]] + s[1..] == s;
    }
  }

  lemma {:induction false} RemoveCharAppend(a: string, b: string, c: char)
    ensures RemoveChar(a + b, c) == RemoveChar(a, c) + RemoveChar(b, c)
  {
    if a != [] {
      assert (a + b)[0] == a[0];
      assert (a + b)[1..] == a[1..] + b;
      RemoveCharAppend(a[1..], b, c);
    } else {
      assert a + b == b;
    }
  }

  /** `s.replace(/<pat>/g, rep)` for a non-empty literal pattern, scanning left to right without overlaps. */
  function ReplaceAll(s: string, pat: string, rep: string): (r: string)
    requires |pat| > 0
    ensures |rep| == |pat| ==> |r| == |s|
    ensures rep == pat ==> r == s
    decreases |s|
  {
    if |s| < |pat| then s
    else if pat <= s then
      assert pat + s[|pat|..] == s;
      rep + ReplaceAll(s[|pat|..], pat, rep)
    else
      assert [s[0]] + s[1..] == s;
      [s[0]] + ReplaceAll(s[1..], pat, rep)
  }

  /**
   * Text before the first possible start of the pattern is kept, the occurrence becomes `rep`, and the
   * scan goes on after it.
   */
  lemma {:induction false} ReplaceAllSplice(pre: string, pat: string, post: string, rep: string)
    requires |pat| > 0 && pat[0] !in pre
    ensures ReplaceAll(pre + pat + post, pat, rep) == pre + rep + ReplaceAll(post, pat, rep)
    decreases |pre|
  {
    var s := pre + pat + post;
    var tail := ReplaceAll(post, pat, rep);
    if pre == [] {
      assert s == pat + post;
      ReplaceAllAtPattern(pat, post, rep);
    } else {
      var rest := pre[1..] + pat + post;
      assert s == [pre[0]] + rest;
      ReplaceAllPastChar(pre[0], rest, pat, rep);
      ReplaceAllSplice(pre[1..], pat, post, rep);
      assert ReplaceAll(s, pat, rep) == [pre[0]] + (pre[1..] + rep + tail);
      assert [pre[0]] + (pre[1..] + rep + tail) == pre + rep + tail;
    }
  }

  lemma ReplaceAllAtPattern(pat: string, post: string, rep: string)
    requires |pat| > 0
    ensures ReplaceAll(pat + post, pat, rep) == rep + ReplaceAll(post, pat, rep)
  {
    assert (pat + post)[|pat|..] == post;
  }

  lemma ReplaceAllPastChar(c: char, rest: string, pat: string, rep: string)
    requires |pat| > 0 && c != pat[0] && |pat| <= |rest| + 1
    ensures ReplaceAll([c] + rest, pat, rep) == [c] + ReplaceAll(rest, pat, rep)
  {
    assert ([c] + rest)[0] == c;
    assert ([c] + rest)[1..] == rest;
  }

  /** Where the pattern occurs, the replacement shows up in the result. */
  lemma {:induction false} ReplaceAllShowsReplacement(s: string, pat: string, rep: string)
    requires |pat| > 0 && Contains(s, pat)
    ensures Contains(ReplaceAll(s, pat, rep), rep)
    decreases |s|
  {
    ContainsNeedsRoom(s, pat);
    if pat <= s {
      assert rep <= ReplaceAll(s, pat, rep);
    } else {
      ReplaceAllShowsReplacement(s[1..], pat, rep);
      var r := ReplaceAll(s, pat, rep);
      assert r[1..] == ReplaceAll(s[1..], pat, rep);
    }
  }

  lemma {:induction false} ReplaceAllAbsent(s: string, pat: string, rep: string)
    requires |pat| > 0
    requires !Contains(s, pat)
    ensures ReplaceAll(s, pat, rep) == s
    decreases |s|
  {
    if |s| >= |pat| {
      ReplaceAllAbsent(s[1..], pat, rep);
    }
  }

  lemma {:induction false} ContainsSkipsPrefix(x: string, y: string, pat: string)
    requires |pat| > 0 && pat[0] !in x
    requires Contains(x + y, pat)
    ensures Contains(y, pat)
  {
    if x != [] {
      assert !(pat <= x + y) by { assert (x + y)[0] == x[0]; }
      assert (x + y)[1..] == x[1..] + y;
      ContainsSkipsPrefix(x[1..], y, pat);
    } else {
      assert x + y == y;
    }
  }

  lemma PrefixHead(x: string, r: string)
    requires x <= r && x != []
    ensures x[0] == r[0]
  {
  }

  /** A prefix of a replaced string that has no character of a non-empty `rep` was already a prefix of the input. */
  lemma {:induction false} ReplaceAllPrefixKept(t: string, pat: string, rep: string, x: string)
    requires |pat| > 0 && |rep| > 0
    requires x <= ReplaceAll(t, pat, rep)
    requires forall i :: 0 <= i < |x| ==> x[i] !in rep
    ensures x <= t
    decreases |t|
  {
    if |t| < |pat| {
    } else if pat <= t {
      if x != [] {
        PrefixHead(x, ReplaceAll(t, pat, rep));
        assert false;
      }
    } else if x != [] {
      ReplaceAllPrefixKept(t[1..], pat, rep, x[1..]);
    }
  }

  /** With a non-empty replacement sharing no character with the pattern, no occurrence of the pattern survives. */
  lemma {:induction false} ReplaceAllRemovesPattern(s: string, pat: string, rep: string)
    requires |pat| > 0 && |rep| > 0
    requires forall i :: 0 <= i < |rep| ==> rep[i] !in pat
    ensures !Contains(ReplaceAll(s, pat, rep), pat)
    decreases |s|
  {
    var r := ReplaceAll(s, pat, rep);
    if |s| < |pat| {
      if Contains(s, pat) {
        ContainsNeedsRoom(s, pat);
      }
    } else if pat <= s {
      ReplaceAllRemovesPattern(s[|pat|..], pat, rep);
      if Contains(r, pat) {
        ContainsSkipsPrefix(rep, ReplaceAll(s[|pat|..], pat, rep), pat);
      }
    } else {
      var tail := ReplaceAll(s[1..], pat, rep);
      assert r == [s[0]] + tail;
      ReplaceAllRemovesPattern(s[1..], pat, rep);
      if pat <= r {
        assert pat[1..] <= tail;
        forall i | 0 <= i < |pat[1..]| ensures pat[1..][i] !in rep {
          assert pat[1..][i] == pat[i + 1];
        }
        ReplaceAllPrefixKept(s[1..], pat, rep, pat[1..]);
        assert false;
      }
      assert r[1..] == tail;
    }
  }

  lemma {:induction false} ContainsNeedsRoom(s: string, sub: string)
    requires Contains(s, sub)
    ensures |sub| <= |s|
  {
    if !(sub <= s) {
      ContainsNeedsRoom(s[1..], sub);
    }
  }
}
