/**
 * The handful of Python `str` operations that the modelled code relies on:
 * `strip()`, `replace()`, `split(sep)`, `startswith`, `lower()` (ASCII letters
 * only), slicing with clamped bounds, `str(int)`, and `int(s)` as its partner.
 */
module PyText {
  import opened Wrappers

  /** A byte of a `bytes` value. */
  type Byte = x: int | 0 <= x < 256

  /** Text whose every code point is below 128. */
  predicate IsAscii(s: string) {
    forall i | 0 <= i < |s| :: s[i] as int < 128
  }

  /** Concatenation groups either way. */
  lemma AppendAssoc<T>(a: seq<T>, b: seq<T>, c: seq<T>)
    ensures a + b + c == a + (b + c)
  {
  }

  lemma AsciiConcat(a: string, b: string)
    requires IsAscii(a) && IsAscii(b)
    ensures IsAscii(a + b)
  {
    forall i | 0 <= i < |a + b| ensures (a + b)[i] as int < 128 {
      if i >= |a| {
        assert (a + b)[i] == b[i - |a|];
      }
    }
  }

  /** The characters for which Python's `str.isspace()` holds; `str.strip()` with no argument removes these. */
  predicate IsSpace(c: char) {
    var n := c as int;
    (9 <= n <= 13) || (28 <= n <= 32) || n == 0x85 || n == 0xA0 || n == 0x1680
    || (0x2000 <= n <= 0x200A) || n == 0x2028 || n == 0x2029 || n == 0x202F
    || n == 0x205F || n == 0x3000
  }

  /** No whitespace at either end: what `strip()` guarantees of its result. */
  predicate IsStripped(s: string) {
    s == [] || (!IsSpace(s[0]) && !IsSpace(s[|s| - 1]))
  }

  /** The length of the run of whitespace at the start of `s`. */
  function LeadingSpace(s: string): (n: nat)
    ensures n <= |s|
    ensures forall i | 0 <= i < n :: IsSpace(s[i])
    ensures n < |s| ==> !IsSpace(s[n])
  {
    if s == [] || !IsSpace(s[0]) then 0 else 1 + LeadingSpace(s[1..])
  }

  /** The length of the run of whitespace at the end of `s`. */
  function TrailingSpace(s: string): (n: nat)
    ensures n <= |s|
    ensures forall i | |s| - n <= i < |s| :: IsSpace(s[i])
    ensures n < |s| ==> !IsSpace(s[|s| - 1 - n])
  {
    if s == [] || !IsSpace(s[|s| - 1]) then 0 else 1 + TrailingSpace(s[..|s| - 1])
  }

  /** Python `s.strip()`: `s` without its leading and trailing whitespace. */
  function Strip(s: string): (r: string)
    ensures IsStripped(r)
    ensures LeadingSpace(s) + |r| <= |s|
    ensures r == s[LeadingSpace(s)..LeadingSpace(s) + |r|]
    ensures forall i | 0 <= i < LeadingSpace(s) :: IsSpace(s[i])
    ensures forall i | LeadingSpace(s) + |r| <= i < |s| :: IsSpace(s[i])
  {
    var a := LeadingSpace(s);
    var t := s[a..];
    var b := TrailingSpace(t);
    assert t == [] ==> a == |s|;
    t[..|t| - b]
  }

  /** A string without whitespace at its ends is left alone by `strip()`. */
  lemma StripStripped(s: string)
    requires IsStripped(s)
    ensures Strip(s) == s
  {
    if s != [] {
      assert LeadingSpace(s) == 0;
      assert TrailingSpace(s) == 0;
    }
  }

  /** `strip()` is idempotent. */
  lemma StripIdempotent(s: string)
    ensures Strip(Strip(s)) == Strip(s)
  {
    StripStripped(Strip(s));
  }

  /** A string made only of whitespace strips to the empty string, and only such a string does. */
  lemma StripEmptyIffAllSpace(s: string)
    ensures Strip(s) == [] <==> forall i | 0 <= i < |s| :: IsSpace(s[i])
  {
    var a := LeadingSpace(s);
    if forall i | 0 <= i < |s| :: IsSpace(s[i]) {
      assert a == |s|;
    }
  }

  /** Every character that `strip()` keeps was in the input. */
  lemma StripKeepsChars(s: string, c: char)
    requires c in Strip(s)
    ensures c in s
  {
    var r := Strip(s);
    var i :| 0 <= i < |r| && r[i] == c;
    assert s[LeadingSpace(s) + i] == c;
  }

  /** Python `s.startswith(p)`. */
  predicate StartsWith(s: string, p: string) {
    |p| <= |s| && s[..|p|] == p
  }

  /** `p` occurs in `s` starting at index `i`. */
  predicate OccursAt(s: string, p: string, i: nat) {
    i + |p| <= |s| && s[i..i + |p|] == p
  }

  /** Python `p in s` for a non-empty pattern `p`. */
  predicate Contains(s: string, p: string) {
    exists i: nat | i <= |s| :: OccursAt(s, p, i)
  }

  /**
   * Python `s.replace(pat, rep)`: occurrences of `pat` are found from the left
   * and do not overlap; each is replaced by `rep`.
   */
  function Replace(s: string, pat: string, rep: string): string
    requires |pat| > 0
    decreases |s|
  {
    if |s| < |pat| then s
    else if s[..|pat|] == pat then rep + Replace(s[|pat|..], pat, rep)
    else [s[0]] + Replace(s[1..], pat, rep)
  }

  /** Replacing a pattern that does not occur changes nothing. */
  lemma {:induction false} ReplaceAbsent(s: string, pat: string, rep: string)
    requires |pat| > 0
    requires !Contains(s, pat)
    ensures Replace(s, pat, rep) == s
    decreases |s|
  {
    if |s| >= |pat| {
      assert !OccursAt(s, pat, 0);
      var t := s[1..];
      forall i: nat | i <= |t| ensures !OccursAt(t, pat, i) {
        if OccursAt(t, pat, i) {
          assert s[i + 1..i + 1 + |pat|] == t[i..i + |pat|];
          assert OccursAt(s, pat, i + 1);
        }
      }
      ReplaceAbsent(t, pat, rep);
      assert s == [s[0]] + t;
    }
  }

  /** `s` with every character in `cs` removed, order otherwise kept. */
  function Without(s: string, cs: set<char>): string {
    if s == [] then []
    else (if s[0] in cs then [] else [s[0]]) + Without(s[1..], cs)
  }

  /** What `Without` keeps: exactly the characters of `s` outside `cs`. */
  lemma {:induction false} WithoutMembers(s: string, cs: set<char>, c: char)
    ensures c in Without(s, cs) <==> c in s && c !in cs
  {
    if s != [] {
      WithoutMembers(s[1..], cs, c);
      assert s == [s[0]] + s[1..];
    }
  }

  /** Removing characters twice is removing their union once. */
  lemma {:induction false} WithoutWithout(s: string, a: set<char>, b: set<char>)
    ensures Without(Without(s, a), b) == Without(s, a + b)
  {
    if s != [] {
      WithoutWithout(s[1..], a, b);
      var head := if s[0] in a then [] else [s[0]];
      WithoutAppend(head, Without(s[1..], a), b);
    }
  }

  /** `Without` distributes over concatenation. */
  lemma {:induction false} WithoutAppend(x: string, y: string, cs: set<char>)
    ensures Without(x + y, cs) == Without(x, cs) + Without(y, cs)
  {
    if x != [] {
      assert (x + y)[1..] == x[1..] + y;
      WithoutAppend(x[1..], y, cs);
    } else {
      assert x + y == y;
    }
  }

  /** A string holding none of the characters in `cs` is its own `Without`. */
  lemma {:induction false} WithoutNone(s: string, cs: set<char>)
    requires forall i | 0 <= i < |s| :: s[i] !in cs
    ensures Without(s, cs) == s
  {
    if s != [] {
      WithoutNone(s[1..], cs);
      assert s == [s[0]] + s[1..];
    }
  }

  /** `s.replace(c, "")` for a single character deletes every `c` and nothing else. */
  lemma {:induction false} ReplaceCharWithEmpty(s: string, c: char)
    ensures Replace(s, [c], "") == Without(s, {c})
  {
    if s != [] {
      ReplaceCharWithEmpty(s[1..], c);
      if s[..1] == [c] {
        assert s[0] == c;
      } else {
        assert s[0] != c;
      }
    }
  }

  /** The position of the first `c` in `s`. */
  function IndexOf(s: string, c: char): (i: nat)
    requires c in s
    ensures i < |s| && s[i] == c && c !in s[..i]
  {
    if s[0] == c then 0
    else
      assert c in s[1..] by { assert s == [s[0]] + s[1..]; }
      var j := IndexOf(s[1..], c);
      assert s[..j + 1] == [s[0]] + s[1..][..j];
      1 + j
  }

  /**
   * Python `s.split(sep)` for a one-character separator: the pieces between
   * separators, empty ones included; there is always at least one piece.
   */
  function Split(s: string, sep: char): (r: seq<string>)
    ensures |r| >= 1
    ensures forall i | 0 <= i < |r| :: sep !in r[i]
    decreases |s|
  {
    if sep !in s then [s]
    else
      var i := IndexOf(s, sep);
      [s[..i]] + Split(s[i + 1..], sep)
  }

  /** Python `sep.join(parts)` for a one-character separator. */
  function Join(parts: seq<string>, sep: char): string
    requires |parts| >= 1
  {
    if |parts| == 1 then parts[0] else parts[0] + [sep] + Join(parts[1..], sep)
  }

  /** The pieces of a split join back to the original text. */
  lemma {:induction false} JoinSplit(s: string, sep: char)
    ensures Join(Split(s, sep), sep) == s
    decreases |s|
  {
    if sep in s {
      var i := IndexOf(s, sep);
      var rest := s[i + 1..];
      var parts := Split(s, sep);
      JoinSplit(rest, sep);
      assert parts == [s[..i]] + Split(rest, sep);
      assert parts[0] == s[..i] && parts[1..] == Split(rest, sep);
      assert Join(parts, sep) == s[..i] + [sep] + Join(Split(rest, sep), sep);
      assert s == s[..i] + [sep] + rest;
    }
  }

  /** Text joined from separator-free pieces splits back into those pieces. */
  lemma {:induction false} SplitJoin(parts: seq<string>, sep: char)
    requires |parts| >= 1
    requires forall i | 0 <= i < |parts| :: sep !in parts[i]
    ensures Split(Join(parts, sep), sep) == parts
    decreases |parts|
  {
    if |parts| > 1 {
      var rest := Join(parts[1..], sep);
      SplitJoin(parts[1..], sep);
      SplitAt(parts[0], rest, sep);
      assert parts == [parts[0]] + parts[1..];
    }
  }

  /** The end of `x + y` is the end of `y`. */
  lemma SuffixOfAppend<T>(x: seq<T>, y: seq<T>, n: nat)
    requires n <= |y|
    ensures (x + y)[|x + y| - n..] == y[|y| - n..]
    ensures n < |y| ==> (x + y)[|x + y| - n - 1] == y[|y| - n - 1]
  {
  }

  /** Joined text ends with the last part, preceded by a separator when there are several parts. */
  lemma {:induction false} JoinLast(parts: seq<string>, sep: char)
    requires |parts| >= 1
    ensures var j, l := Join(parts, sep), parts[|parts| - 1];
      |l| <= |j| && j[|j| - |l|..] == l && (|parts| > 1 ==> |l| < |j| && j[|j| - |l| - 1] == sep)
    decreases |parts|
  {
    if |parts| > 1 {
      var l := parts[|parts| - 1];
      var rest := Join(parts[1..], sep);
      var head := parts[0] + [sep];
      JoinLast(parts[1..], sep);
      assert parts[1..][|parts[1..]| - 1] == l;
      assert Join(parts, sep) == head + rest;
      SuffixOfAppend(head, rest, |l|);
      if |l| == |rest| {
        assert (head + rest)[|head| - 1] == sep;
      }
    }
  }

  /** A text with a separator splits into at least two pieces. */
  lemma SplitSeveral(s: string, sep: char)
    requires sep in s
    ensures |Split(s, sep)| >= 2
  {
  }

  /**
   * `s.split(sep)[-1]`: a separator-free suffix of `s`, preceded by a
   * separator when `s` has one, and all of `s` when it has none.
   */
  lemma SplitLastPiece(s: string, sep: char)
    ensures var p := Split(s, sep); var l := p[|p| - 1];
      && sep !in l && |l| <= |s| && s[|s| - |l|..] == l
      && (sep in s ==> |l| < |s| && s[|s| - |l| - 1] == sep)
      && (sep !in s ==> l == s)
  {
    JoinSplit(s, sep);
    JoinLast(Split(s, sep), sep);
    if sep in s {
      SplitSeveral(s, sep);
    }
  }

  /** Splitting `a + sep + b`, where `a` holds no separator, gives `a` followed by the pieces of `b`. */
  lemma SplitAt(a: string, b: string, sep: char)
    requires sep !in a
    ensures Split(a + [sep] + b, sep) == [a] + Split(b, sep)
  {
    var s := a + [sep] + b;
    assert s[|a|] == sep;
    var i := IndexOf(s, sep);
    assert i == |a|;
    assert s[..i] == a;
    assert s[i + 1..] == b;
  }

  /** Python's `str.lower()` restricted to ASCII letters. */
  function LowerChar(c: char): char {
    if 'A' <= c <= 'Z' then (c as int + 32) as char else c
  }

  /** Python's `str.lower()`, mapping ASCII letters only. */
  function Lower(s: string): string {
    seq(|s|, i requires 0 <= i < |s| => LowerChar(s[i]))
  }

  /** Python `s[:n]` for `n >= 0`: the first `n` characters, or all of `s` when it is shorter. */
  function PrefixSlice(s: string, n: nat): (r: string)
    ensures |r| == if n <= |s| then n else |s|
    ensures r == s[..|r|]
  {
    if n <= |s| then s[..n] else s
  }

  /**
   * Python `s[-n:]` for `n >= 0`: the last `n` characters, or all of `s` when it
   * is shorter; `s[-0:]` is `s[0:]`, the whole string.
   */
  function SuffixSlice(s: string, n: nat): (r: string)
    ensures |r| <= |s|
    ensures n >= 1 ==> |r| == if n <= |s| then n else |s|
    ensures r == s[|s| - |r|..]
  {
    if n == 0 || n > |s| then s else s[|s| - n..]
  }

  function DigitChar(d: nat): (c: char)
    requires d < 10
    ensures '0' <= c <= '9'
  {
    ('0' as int + d) as char
  }

  predicate AllDigits(s: string) {
    forall i | 0 <= i < |s| :: '0' <= s[i] <= '9'
  }

  /** Python `str(n)` for `n >= 0`: decimal digits, no leading zero. */
  function NatToString(n: nat): (r: string)
    ensures |r| >= 1 && AllDigits(r)
    ensures r[0] == '0' ==> n == 0
    decreases n
  {
    if n < 10 then [DigitChar(n)] else NatToString(n / 10) + [DigitChar(n % 10)]
  }

  /** Python `str(i)` for any integer. */
  function IntToString(i: int): string {
    if i < 0 then "-" + NatToString(-i) else NatToString(i)
  }

  /** The value of a string of decimal digits. */
  function DigitsValue(s: string): nat
    requires AllDigits(s)
  {
    if s == [] then 0 else DigitsValue(s[..|s| - 1]) * 10 + (s[|s| - 1] as int - '0' as int)
  }

  /** Python `int(s)` restricted to an optional `-` and ASCII digits; `None` stands for the ValueError. */
  function ParseInt(s: string): Option<int> {
    if |s| >= 2 && s[0] == '-' && AllDigits(s[1..]) then Some(0 - DigitsValue(s[1..]) as int)
    else if |s| >= 1 && AllDigits(s) then Some(DigitsValue(s))
    else None
  }

  lemma {:induction false} NatToStringValue(n: nat)
    ensures DigitsValue(NatToString(n)) == n
    decreases n
  {
    if n >= 10 {
      NatToStringValue(n / 10);
      var r := NatToString(n);
      assert r[..|r| - 1] == NatToString(n / 10);
    }
  }

  /** `int(str(i)) == i`. */
  lemma IntToStringRoundTrip(i: int)
    ensures ParseInt(IntToString(i)) == Some(i)
  {
    var s := IntToString(i);
    if i < 0 {
      var d := NatToString(-i);
      NatToStringValue(-i);
      assert s[1..] == d;
      assert |s| >= 2 && s[0] == '-' && AllDigits(s[1..]);
    } else {
      NatToStringValue(i);
      assert s[0] != '-';
    }
  }
}
