/** Small shared vocabulary: optional values, JSON-style fields, Python slices,
    ASCII case mapping, Python string ordering and clock text. */
module Common {

  datatype Option<T> = None | Some(value: T)

  /** A key of a JSON-like request: missing, present with `null`, or present with a value. */
  datatype Field<T> = Absent | Null | Present(v: T)

  /** Seconds since midnight, as shown by a wall clock. */
  type Clock = x: int | 0 <= x < 86400

  /** Python truthiness of an optional number: `None` and zero are false. */
  predicate RealSet(o: Option<real>) { o.Some? && o.value != 0.0 }
  predicate IntSet(o: Option<int>) { o.Some? && o.value != 0 }
  /** Python truthiness of an optional string: `None` and "" are false. */
  predicate TextSet(o: Option<string>) { o.Some? && o.value != "" }

  function Abs(x: real): (r: real)
    ensures r >= 0.0 && (r == x || r == -x)
  {
    if x < 0.0 then -x else x
  }

  function AbsInt(x: int): (r: int)
    ensures r >= 0 && (r == x || r == -x)
  {
    if x < 0 then -x else x
  }

  function Min(a: int, b: int): int { if a < b then a else b }
  function Max(a: int, b: int): int { if a < b then b else a }

  /** Python's `s[lo:hi]` on a list: negative bounds count from the end, all bounds are clamped. */
  function PySlice<T>(s: seq<T>, lo: int, hi: int): (r: seq<T>)
    ensures |r| <= |s|
  {
    var a := Clamp(if lo < 0 then lo + |s| else lo, |s|);
    var b := Clamp(if hi < 0 then hi + |s| else hi, |s|);
    if a < b then s[a..b] else []
  }

  function Clamp(x: int, n: nat): (r: nat)
    ensures r <= n
  {
    if x < 0 then 0 else if x > n then n else x
  }

  lemma PySliceNonNegative<T>(s: seq<T>, lo: int, hi: int)
    requires 0 <= lo <= hi
    ensures PySlice(s, lo, hi) == if lo < |s| then s[lo..Min(hi, |s|)] else []
  {
  }

  // ---- characters and strings ----

  function LowerChar(c: char): char
  {
    if 'A' <= c <= 'Z' then (c as int + 32) as char else c
  }

  function UpperChar(c: char): char
  {
    if 'a' <= c <= 'z' then (c as int - 32) as char else c
  }

  function Lower(s: string): (r: string)
    ensures |r| == |s|
    ensures forall i :: 0 <= i < |s| ==> r[i] == LowerChar(s[i])
  {
    if s == [] then [] else [LowerChar(s[0])] + Lower(s[1..])
  }

  function Upper(s: string): (r: string)
    ensures |r| == |s|
    ensures forall i :: 0 <= i < |s| ==> r[i] == UpperChar(s[i])
  {
    if s == [] then [] else [UpperChar(s[0])] + Upper(s[1..])
  }

  predicate StartsWith(s: string, prefix: string)
  {
    |prefix| <= |s| && s[..|prefix|] == prefix
  }

  /** `needle in haystack` for Python strings and `includes` in JavaScript. */
  predicate ContainsText(haystack: string, needle: string)
    decreases |haystack|
  {
    StartsWith(haystack, needle) || (haystack != [] && ContainsText(haystack[1..], needle))
  }

  /** Python's `a <= b` on strings: lexicographic by code point. */
  predicate LexLe(a: string, b: string)
  {
    if a == [] then true
    else if b == [] then false
    else if a[0] != b[0] then a[0] < b[0]
    else LexLe(a[1..], b[1..])
  }

  lemma {:induction false} LexLeReflexive(a: string)
    ensures LexLe(a, a)
  {
    if a != [] {
      LexLeReflexive(a[1..]);
    }
  }

  lemma {:induction false} LexLeTransitive(a: string, b: string, c: string)
    requires LexLe(a, b) && LexLe(b, c)
    ensures LexLe(a, c)
  {
    if a != [] && b != [] && c != [] && a[0] == b[0] && b[0] == c[0] {
      LexLeTransitive(a[1..], b[1..], c[1..]);
    }
  }

  function DigitChar(d: int): char
    requires 0 <= d < 10
  {
    ('0' as int + d) as char
  }

  /** Two-digit zero-padded decimal, as `%H`, `%M` and `%S` print. */
  function TwoDigits(n: int): (r: string)
    requires 0 <= n < 100
    ensures |r| == 2
  {
    [DigitChar(n / 10), DigitChar(n % 10)]
  }

  /** `strftime("%H:%M:%S")` of a wall-clock time. */
  function ClockText(c: Clock): (r: string)
    ensures |r| == 8 && r[2] == ':' && r[5] == ':'
  {
    TwoDigits(c / 3600) + ":" + TwoDigits(c % 3600 / 60) + ":" + TwoDigits(c % 60)
  }

  /** Decimal text of a natural number, as `toString()` prints it. */
  function NatText(n: nat): (r: string)
    ensures |r| >= 1
    decreases n
  {
    if n < 10 then [DigitChar(n)] else NatText(n / 10) + [DigitChar(n % 10)]
  }

  /** JavaScript's `s.slice(-k)`: the last k characters, or all of s when shorter. */
  function LastChars(s: string, k: nat): (r: string)
    ensures |r| == Min(k, |s|)
    ensures r == s[|s| - |r|..]
  {
    if |s| <= k then s else s[|s| - k..]
  }

  /** Python's `s.split(sep)` and JavaScript's `s.split(sep)` for a one-character
      separator: the pieces between separators, empty ones included. */
  function Split(s: string, sep: char): (parts: seq<string>)
    ensures |parts| >= 1
    ensures forall k :: 0 <= k < |parts| ==> sep !in parts[k]
  {
    if s == [] then [""]
    else
      var rest := Split(s[1..], sep);
      if s[0] == sep then [""] + rest else [[s[0]] + rest[0]] + rest[1..]
  }

  /** `sep.join(parts)`. */
  function Join(parts: seq<string>, sep: char): string
    requires |parts| >= 1
  {
    if |parts| == 1 then parts[0] else parts[0] + [sep] + Join(parts[1..], sep)
  }

  /** Splitting loses nothing: joining the pieces with the separator gives the text back. */
  lemma {:induction false} JoinSplit(s: string, sep: char)
    ensures Join(Split(s, sep), sep) == s
  {
    if s != [] {
      JoinSplit(s[1..], sep);
      var rest := Split(s[1..], sep);
      if s[0] != sep && |rest| > 1 {
        assert Join(rest, sep) == rest[0] + [sep] + Join(rest[1..], sep);
      }
    }
  }

  /** A text without the separator is a single piece. */
  lemma {:induction false} SplitWithoutSeparator(s: string, sep: char)
    requires sep !in s
    ensures Split(s, sep) == [s]
  {
    if s != [] {
      assert s[0] in s && sep !in s[1..];
      SplitWithoutSeparator(s[1..], sep);
      assert [s[0]] + s[1..] == s;
    }
  }

  /** No element occurs twice: the keys of a dict in insertion order. */
  ghost predicate Distinct<T>(s: seq<T>)
  {
    forall i, j :: 0 <= i < j < |s| ==> s[i] != s[j]
  }

  /** `a` is `b` with some elements removed, order kept: the last element of
      `b` either ends `a` as well or is one of the removed ones. */
  ghost predicate IsSubsequence<T>(a: seq<T>, b: seq<T>)
    decreases |b|
  {
    if b == [] then a == []
    else
      || (a != [] && a[|a| - 1] == b[|b| - 1] && IsSubsequence(a[..|a| - 1], b[..|b| - 1]))
      || IsSubsequence(a, b[..|b| - 1])
  }
}
