/**
 * Values and string operations shared by the whole model: optional values,
 * backend replies, the JavaScript string functions the application relies on
 * (trim, toLowerCase, includes, split/join, `new Set` de-duplication), the
 * order JavaScript uses to compare strings, and `Math.ceil(a / b)`.
 */
module Common {

  datatype Option<T> = None | Some(value: T)

  /** What one call into the database or storage backend answered. */
  datatype Reply = Done | Failed(message: string)

  /** A value, or the message of the error thrown instead. */
  datatype Result<T> = Ok(value: T) | Err(error: string)

  function OrElse<T>(o: Option<T>, default: T): (r: T)
    ensures o.Some? ==> r == o.value
    ensures o.None? ==> r == default
  {
    if o.Some? then o.value else default
  }

  /** JavaScript truthiness of an optional string: `undefined`, `null` and `""` are falsy. */
  predicate Truthy(s: Option<string>)
  {
    s.Some? && s.value != ""
  }

  /** `${x}` for a nullable text: a missing value renders as `null`. */
  function TemplateText(x: Option<string>): (r: string)
    ensures x.Some? ==> r == x.value
    ensures x.None? ==> r == "null"
  {
    if x.Some? then x.value else "null"
  }

  // ------------------------------------------------------------------
  // Sequences

  /** `Array.prototype.filter`: the elements satisfying `p`, in their original order. */
  function Filter<T(!new)>(xs: seq<T>, p: T -> bool): (r: seq<T>)
    ensures |r| <= |xs|
    ensures forall x :: x in r <==> x in xs && p(x)
    ensures forall i | 0 <= i < |r| :: p(r[i])
  {
    if xs == [] then []
    else (if p(xs[0]) then [xs[0]] else []) + Filter(xs[1..], p)
  }

  /** Filtering keeps every copy of a satisfying element and no copy of another. */
  lemma {:induction false} FilterMultiset<T(!new)>(xs: seq<T>, p: T -> bool)
    ensures forall x :: multiset(Filter(xs, p))[x] == if p(x) then multiset(xs)[x] else 0
  {
    if xs != [] {
      FilterMultiset(xs[1..], p);
      assert xs == [xs[0]] + xs[1..];
      assert multiset(xs) == multiset([xs[0]]) + multiset(xs[1..]);
    }
  }

  lemma {:induction false} FilterAppend<T(!new)>(xs: seq<T>, ys: seq<T>, p: T -> bool)
    ensures Filter(xs + ys, p) == Filter(xs, p) + Filter(ys, p)
  {
    if xs == [] {
      assert xs + ys == ys;
    } else {
      assert (xs + ys)[1..] == xs[1..] + ys;
      FilterAppend(xs[1..], ys, p);
    }
  }

  /** Filtering by a predicate every element satisfies keeps the whole sequence. */
  lemma {:induction false} FilterAll<T(!new)>(xs: seq<T>, p: T -> bool)
    requires forall i | 0 <= i < |xs| :: p(xs[i])
    ensures Filter(xs, p) == xs
  {
    if xs != [] {
      FilterAll(xs[1..], p);
    }
  }

  /** Filtering by a predicate no element satisfies leaves nothing. */
  lemma {:induction false} FilterNone<T(!new)>(xs: seq<T>, p: T -> bool)
    requires forall i | 0 <= i < |xs| :: !p(xs[i])
    ensures Filter(xs, p) == []
  {
    if xs != [] {
      FilterNone(xs[1..], p);
    }
  }

  /** Filtering twice, where the second predicate implies the first, is filtering once by the second. */
  lemma {:induction false} FilterNarrow<T(!new)>(xs: seq<T>, p: T -> bool, q: T -> bool)
    requires forall x | x in xs :: q(x) ==> p(x)
    ensures Filter(Filter(xs, p), q) == Filter(xs, q)
  {
    if xs != [] {
      FilterNarrow(xs[1..], p, q);
      assert Filter(xs, p) == (if p(xs[0]) then [xs[0]] else []) + Filter(xs[1..], p);
      FilterAppend(if p(xs[0]) then [xs[0]] else [], Filter(xs[1..], p), q);
    }
  }

  /** An element that fails `p` is dropped, so the filtered sequence is shorter. */
  lemma {:induction false} FilterShorter<T(!new)>(xs: seq<T>, p: T -> bool, i: nat)
    requires i < |xs| && !p(xs[i])
    ensures |Filter(xs, p)| < |xs|
  {
    if i > 0 {
      FilterShorter(xs[1..], p, i - 1);
    }
  }

  /** Filters by predicates that agree on every element give the same result. */
  lemma {:induction false} FilterExt<T(!new)>(xs: seq<T>, p: T -> bool, q: T -> bool)
    requires forall x | x in xs :: p(x) == q(x)
    ensures Filter(xs, p) == Filter(xs, q)
  {
    if xs != [] {
      FilterExt(xs[1..], p, q);
    }
  }

  /** Two filters in a row keep what satisfies both. */
  lemma {:induction false} FilterThen<T(!new)>(xs: seq<T>, p: T -> bool, q: T -> bool, pq: T -> bool)
    requires forall x :: pq(x) == (p(x) && q(x))
    ensures Filter(Filter(xs, p), q) == Filter(xs, pq)
  {
    if xs != [] {
      FilterThen(xs[1..], p, q, pq);
      assert Filter(xs, p) == (if p(xs[0]) then [xs[0]] else []) + Filter(xs[1..], p);
      FilterAppend(if p(xs[0]) then [xs[0]] else [], Filter(xs[1..], p), q);
    }
  }

  /** `if (b) xs = xs.filter(p)`: a filter applied only when its parameter is given. */
  function FilterIf<T(!new)>(xs: seq<T>, b: bool, p: T -> bool): (r: seq<T>)
    ensures forall x :: x in r <==> x in xs && (!b || p(x))
  {
    if b then Filter(xs, p) else xs
  }

  /** A conditional filter is a filter by `!b || p`. */
  lemma FilterIfIsFilter<T(!new)>(xs: seq<T>, b: bool, p: T -> bool, q: T -> bool)
    requires forall x :: q(x) == (!b || p(x))
    ensures FilterIf(xs, b, p) == Filter(xs, q)
  {
    if b {
      FilterExt(xs, p, q);
    } else {
      FilterAll(xs, q);
    }
  }

  /** Number of elements satisfying `p`. */
  function Count<T>(xs: seq<T>, p: T -> bool): (n: nat)
    ensures n <= |xs|
    ensures n == 0 <==> forall i | 0 <= i < |xs| :: !p(xs[i])
  {
    if xs == [] then 0
    else (if p(xs[0]) then 1 else 0) + Count(xs[1..], p)
  }

  lemma {:induction false} CountIsFilterLength<T(!new)>(xs: seq<T>, p: T -> bool)
    ensures Count(xs, p) == |Filter(xs, p)|
  {
    if xs != [] {
      CountIsFilterLength(xs[1..], p);
    }
  }

  lemma {:induction false} CountAppend<T>(xs: seq<T>, ys: seq<T>, p: T -> bool)
    ensures Count(xs + ys, p) == Count(xs, p) + Count(ys, p)
  {
    if xs == [] {
      assert xs + ys == ys;
    } else {
      assert (xs + ys)[1..] == xs[1..] + ys;
      CountAppend(xs[1..], ys, p);
    }
  }

  predicate NoDuplicates<T(==)>(xs: seq<T>)
  {
    forall i, j | 0 <= i < j < |xs| :: xs[i] != xs[j]
  }

  /**
   * `[...new Set(xs)]`: every value once, at the position of its first
   * occurrence.
   */
  function Dedupe<T(==,!new)>(xs: seq<T>): (r: seq<T>)
    ensures forall x :: x in r <==> x in xs
    ensures NoDuplicates(r)
    ensures |r| <= |xs|
  {
    if xs == [] then []
    else
      var r := Dedupe(xs[..|xs| - 1]);
      assert forall x :: x in xs <==> x in xs[..|xs| - 1] || x == xs[|xs| - 1];
      if xs[|xs| - 1] in r then r else r + [xs[|xs| - 1]]
  }

  /** A sequence without repetitions is its own de-duplication. */
  lemma {:induction false} DedupeOfDistinct<T(!new)>(xs: seq<T>)
    requires NoDuplicates(xs)
    ensures Dedupe(xs) == xs
  {
    if xs != [] {
      DedupeOfDistinct(xs[..|xs| - 1]);
      assert xs[|xs| - 1] !in xs[..|xs| - 1];
    }
  }

  lemma DedupeIdempotent<T(!new)>(xs: seq<T>)
    ensures Dedupe(Dedupe(xs)) == Dedupe(xs)
  {
    DedupeOfDistinct(Dedupe(xs));
  }

  /**
   * `[...new Set(xs)]` lists the values in the order of their first
   * occurrence in `xs`.
   */
  lemma {:induction false} DedupeFirstOccurrenceOrder<T(!new)>(xs: seq<T>)
    ensures forall i, j | 0 <= i < j < |Dedupe(xs)| :: IndexOf(xs, Dedupe(xs)[i]) < IndexOf(xs, Dedupe(xs)[j])
  {
    if xs != [] {
      var ys := xs[..|xs| - 1];
      var x := xs[|xs| - 1];
      assert xs == ys + [x];
      DedupeFirstOccurrenceOrder(ys);
      var r := Dedupe(ys);
      forall v | v in ys ensures IndexOf(xs, v) == IndexOf(ys, v) {
        var k := IndexOf(ys, v);
        assert xs[..k] == ys[..k];
        IndexOfFirst(xs, v, k);
      }
      if x !in r {
        assert xs[..|ys|] == ys;
        IndexOfFirst(xs, x, |ys|);
        forall i | 0 <= i < |r| ensures IndexOf(xs, r[i]) < |ys| {
          assert r[i] in ys;
        }
      }
    }
  }

  /** `xs.slice(0, n)`. */
  function Take<T>(xs: seq<T>, n: nat): (r: seq<T>)
    ensures |r| == if n < |xs| then n else |xs|
    ensures r == xs[..|r|]
  {
    if n < |xs| then xs[..n] else xs
  }

  /** `s.slice(-n)` for n > 0: the last `n` elements, or all of them when there are fewer. */
  function TakeLast<T>(s: seq<T>, n: nat): (r: seq<T>)
    ensures |r| == if n < |s| then n else |s|
    ensures r == s[|s| - |r|..]
  {
    if n < |s| then s[|s| - n..] else s
  }

  // ------------------------------------------------------------------
  // Characters and strings

  /** ECMAScript WhiteSpace and LineTerminator code points (what `String.prototype.trim` removes). */
  predicate IsWhite(c: char)
  {
    c == ' ' || c == '\t' || c == '\n' || c == '\r' || c == '\U{000B}' || c == '\U{000C}'
    || c == '\U{00A0}' || c == '\U{1680}' || ('\U{2000}' <= c <= '\U{200A}')
    || c == '\U{2028}' || c == '\U{2029}' || c == '\U{202F}' || c == '\U{205F}'
    || c == '\U{3000}' || c == '\U{FEFF}'
  }

  function TrimStart(s: string): (r: string)
    ensures |r| <= |s|
    ensures r == [] || !IsWhite(r[0])
    ensures forall i | 0 <= i < |s| - |r| :: IsWhite(s[i])
  {
    if s != [] && IsWhite(s[0]) then TrimStart(s[1..]) else s
  }

  function TrimEnd(s: string): (r: string)
    ensures |r| <= |s|
    ensures r == [] || !IsWhite(r[|r| - 1])
    ensures forall i | |r| <= i < |s| :: IsWhite(s[i])
  {
    if s != [] && IsWhite(s[|s| - 1]) then TrimEnd(s[..|s| - 1]) else s
  }

  /** What `TrimStart` keeps is a suffix of its input. */
  lemma {:induction false} TrimStartSuffix(s: string)
    ensures TrimStart(s) == s[|s| - |TrimStart(s)|..]
  {
    if s != [] && IsWhite(s[0]) {
      TrimStartSuffix(s[1..]);
      assert s[1..][|s| - 1 - |TrimStart(s)|..] == s[|s| - |TrimStart(s)|..];
    }
  }

  /** What `TrimEnd` keeps is a prefix of its input. */
  lemma {:induction false} TrimEndPrefix(s: string)
    ensures TrimEnd(s) == s[..|TrimEnd(s)|]
  {
    if s != [] && IsWhite(s[|s| - 1]) {
      TrimEndPrefix(s[..|s| - 1]);
      assert s[..|s| - 1][..|TrimEnd(s)|] == s[..|TrimEnd(s)|];
    }
  }

  /** `String.prototype.trim`. */
  function Trim(s: string): (r: string)
    ensures |r| <= |s|
    ensures r == [] || (!IsWhite(r[0]) && !IsWhite(r[|r| - 1]))
  {
    var e := TrimEnd(s);
    TrimStartSuffix(e);
    TrimStart(e)
  }

  /**
   * Trimming removes white space at the ends and nothing else: the result is
   * the slice of the input between a white prefix and a white suffix.
   */
  lemma TrimIsSlice(s: string)
    ensures exists i, j | 0 <= i <= j <= |s| ::
              && Trim(s) == s[i..j]
              && (forall k | 0 <= k < i :: IsWhite(s[k]))
              && (forall k | j <= k < |s| :: IsWhite(s[k]))
  {
    var e := TrimEnd(s);
    TrimEndPrefix(s);
    TrimStartSuffix(e);
    var r := TrimStart(e);
    var i := |e| - |r|;
    assert r == s[i..|e|];
    forall k | 0 <= k < i ensures IsWhite(s[k]) {
      assert s[k] == e[k];
    }
    assert forall k | |e| <= k < |s| :: IsWhite(s[k]);
  }

  /** `!s.trim()`: a string is blank exactly when every character is white space. */
  lemma {:induction false} TrimEmptyIffAllWhite(s: string)
    ensures Trim(s) == "" <==> forall i | 0 <= i < |s| :: IsWhite(s[i])
  {
    var e := TrimEnd(s);
    TrimEndPrefix(s);
    TrimStartSuffix(e);
    if Trim(s) == "" {
      forall i | 0 <= i < |s| ensures IsWhite(s[i]) {
        if i < |e| {
          assert IsWhite(e[i]);
        }
      }
    } else {
      var t := Trim(s);
      assert t == e[|e| - |t|..];
      assert e[|e| - |t|] == t[0] && !IsWhite(s[|e| - |t|]);
    }
  }

  /** A string without white space at either end is left as it is. */
  lemma {:induction false} TrimOfTrimmed(s: string)
    requires s == [] || (!IsWhite(s[0]) && !IsWhite(s[|s| - 1]))
    ensures Trim(s) == s
  {
  }

  lemma TrimIdempotent(s: string)
    ensures Trim(Trim(s)) == Trim(s)
  {
    TrimOfTrimmed(Trim(s));
  }

  predicate IsUpperAscii(c: char) { 'A' <= c <= 'Z' }

  /** What the regular-expression class `[a-zA-Z0-9]` matches. */
  predicate IsAsciiAlnum(c: char) { 'a' <= c <= 'z' || 'A' <= c <= 'Z' || '0' <= c <= '9' }

  /** Upper-case Latin-1 letters (U+00C0 to U+00DE except the multiplication sign). */
  predicate IsUpperLatin1(c: char) { '\U{00C0}' <= c <= '\U{00DE}' && c != '\U{00D7}' }

  /** `toLowerCase` on one character, for ASCII and Latin-1 letters. */
  function LowerChar(c: char): (r: char)
    ensures IsUpperAscii(c) || IsUpperLatin1(c) ==> r as int == c as int + 32
    ensures !(IsUpperAscii(c) || IsUpperLatin1(c)) ==> r == c
    ensures !IsUpperAscii(r) && !IsUpperLatin1(r)
  {
    if IsUpperAscii(c) || IsUpperLatin1(c) then (c as int + 32) as char else c
  }

  function Lower(s: string): (r: string)
    ensures |r| == |s|
    ensures forall i | 0 <= i < |s| :: r[i] == LowerChar(s[i])
  {
    seq(|s|, i requires 0 <= i < |s| => LowerChar(s[i]))
  }

  predicate IsPrefix(p: string, s: string)
  {
    |p| <= |s| && s[..|p|] == p
  }

  /** `s.includes(sub)`. */
  predicate Contains(s: string, sub: string)
    decreases |s|
  {
    IsPrefix(sub, s) || (|s| > 0 && Contains(s[1..], sub))
  }

  /** `includes` agrees with its definition: an occurrence of `sub` at some index of `s`. */
  lemma {:induction false} ContainsIffOccurs(s: string, sub: string)
    ensures Contains(s, sub) <==> exists i :: 0 <= i <= |s| - |sub| && IsPrefix(sub, s[i..])
    decreases |s|
  {
    if IsPrefix(sub, s) {
      assert IsPrefix(sub, s[0..]);
    } else if |s| > 0 {
      ContainsIffOccurs(s[1..], sub);
      if Contains(s[1..], sub) {
        var i :| 0 <= i <= |s[1..]| - |sub| && IsPrefix(sub, s[1..][i..]);
        assert s[1..][i..] == s[i + 1..];
      }
      if exists i :: 0 <= i <= |s| - |sub| && IsPrefix(sub, s[i..]) {
        var i :| 0 <= i <= |s| - |sub| && IsPrefix(sub, s[i..]);
        assert s[0..] == s;
        assert s[1..][i - 1..] == s[i..];
      }
    }
  }

  /** A string includes a part of itself followed by anything. */
  lemma {:induction false} ContainsAfter(a: string, b: string, sub: string)
    requires Contains(b, sub)
    ensures Contains(a + b, sub)
    decreases |a|
  {
    if a == [] {
      assert a + b == b;
    } else {
      assert (a + b)[1..] == a[1..] + b;
      ContainsAfter(a[1..], b, sub);
    }
  }

  // ------------------------------------------------------------------
  // split / join

  function IndexOf<T(==)>(s: seq<T>, c: T): (i: nat)
    requires c in s
    ensures i < |s| && s[i] == c && c !in s[..i]
  {
    if s[0] == c then 0
    else
      assert c in s[1..] by { assert s == [s[0]] + s[1..]; }
      var j := IndexOf(s[1..], c);
      assert s[..j + 1] == [s[0]] + s[1..][..j];
      j + 1
  }

  /** The index `IndexOf` finds is the first occurrence. */
  lemma {:induction false} IndexOfFirst<T>(s: seq<T>, c: T, k: nat)
    requires k < |s| && s[k] == c && c !in s[..k]
    ensures c in s && IndexOf(s, c) == k
  {
    if k > 0 {
      assert s[0] == s[..k][0];
      assert s[1..][k - 1] == c;
      assert s[1..][..k - 1] == s[..k][1..];
      IndexOfFirst(s[1..], c, k - 1);
    }
  }

  /** `s.split(sep)` for a one-character separator. */
  function Split(s: string, sep: char): (parts: seq<string>)
    ensures |parts| >= 1
    ensures forall k | 0 <= k < |parts| :: sep !in parts[k]
    decreases |s|
  {
    if sep !in s then [s]
    else
      var i := IndexOf(s, sep);
      [s[..i]] + Split(s[i + 1..], sep)
  }

  /** `parts.join(sep)`. */
  function Join(parts: seq<string>, sep: char): string
  {
    if |parts| == 0 then ""
    else if |parts| == 1 then parts[0]
    else parts[0] + [sep] + Join(parts[1..], sep)
  }

  /** Splitting and joining back with the same separator gives the original string. */
  lemma {:induction false} JoinSplit(s: string, sep: char)
    ensures Join(Split(s, sep), sep) == s
    decreases |s|
  {
    if sep in s {
      var i := IndexOf(s, sep);
      var rest := Split(s[i + 1..], sep);
      JoinSplit(s[i + 1..], sep);
      JoinCons(s[..i], rest, sep);
      assert s == s[..i] + [sep] + s[i + 1..];
    }
  }

  /** Joining pieces that do not contain the separator and splitting again gives the pieces back. */
  lemma {:induction false} SplitJoin(parts: seq<string>, sep: char)
    requires |parts| >= 1
    requires forall k | 0 <= k < |parts| :: sep !in parts[k]
    ensures Split(Join(parts, sep), sep) == parts
  {
    if |parts| > 1 {
      SplitJoin(parts[1..], sep);
      SplitCons(parts[0], Join(parts[1..], sep), sep);
      assert parts == [parts[0]] + parts[1..];
    }
  }

  /** Joining a piece in front of at least one more puts the separator between them. */
  lemma JoinCons(first: string, rest: seq<string>, sep: char)
    requires |rest| >= 1
    ensures Join([first] + rest, sep) == first + [sep] + Join(rest, sep)
  {
    assert ([first] + rest)[1..] == rest;
  }

  /** Splitting a piece without the separator, the separator and a tail: that piece, then the tail's split. */
  lemma SplitCons(first: string, tail: string, sep: char)
    requires sep !in first
    ensures Split(first + [sep] + tail, sep) == [first] + Split(tail, sep)
  {
    var s := first + [sep] + tail;
    assert s[|first|] == sep;
    assert s[..|first|] == first;
    IndexOfFirst(s, sep, |first|);
    assert s[|first| + 1..] == tail;
  }

  /** Joining all pieces is joining all but the last, the separator, then the last. */
  lemma {:induction false} JoinSnoc(parts: seq<string>, sep: char)
    requires |parts| > 1
    ensures Join(parts, sep) == Join(parts[..|parts| - 1], sep) + [sep] + parts[|parts| - 1]
  {
    if |parts| > 2 {
      JoinSnoc(parts[1..], sep);
      assert parts[1..][..|parts| - 2] == parts[..|parts| - 1][1..];
    }
  }

  /** Appending a separator and a piece without it adds that piece to the split. */
  lemma SplitSnoc(s: string, sep: char, last: string)
    requires sep !in last
    ensures Split(s + [sep] + last, sep) == Split(s, sep) + [last]
  {
    var parts := Split(s, sep) + [last];
    JoinSplit(s, sep);
    JoinSnoc(parts, sep);
    assert parts[..|parts| - 1] == Split(s, sep);
    SplitJoin(parts, sep);
  }

  // ------------------------------------------------------------------
  // Decimal rendering

  predicate IsDigit(c: char) { '0' <= c <= '9' }

  predicate AllDigits(s: string) { forall i | 0 <= i < |s| :: IsDigit(s[i]) }

  /** The decimal digits of a value of `digits`. */
  function DigitsValue(s: string): nat
    requires AllDigits(s)
  {
    if s == [] then 0
    else DigitsValue(s[..|s| - 1]) * 10 + (s[|s| - 1] as int - '0' as int)
  }

  /** `n.toString()` for a non-negative integer. */
  function NatToString(n: nat): (r: string)
    ensures |r| >= 1 && AllDigits(r)
    ensures r[0] == '0' ==> n == 0
  {
    if n < 10 then [(('0' as int) + n) as char]
    else NatToString(n / 10) + [(('0' as int) + n % 10) as char]
  }

  lemma {:induction false} NatToStringValue(n: nat)
    ensures DigitsValue(NatToString(n)) == n
  {
    if n >= 10 {
      NatToStringValue(n / 10);
      var s := NatToString(n);
      assert s[..|s| - 1] == NatToString(n / 10);
    }
  }

  /** `n.toString()` for any integer. */
  function IntToString(n: int): (r: string)
    ensures |r| >= 1
  {
    if n < 0 then "-" + NatToString(-n) else NatToString(n)
  }

  /** Rendering is injective, so distinct numbers never render alike. */
  lemma NatToStringInjective(m: nat, n: nat)
    requires NatToString(m) == NatToString(n)
    ensures m == n
  {
    NatToStringValue(m);
    NatToStringValue(n);
  }

  /** `s.padStart(2, '0')`. */
  function PadStart2(s: string): (r: string)
    ensures |s| >= 2 ==> r == s
    ensures |s| < 2 ==> |r| == 2 && r[2 - |s|..] == s && forall i | 0 <= i < 2 - |s| :: r[i] == '0'
  {
    if |s| == 0 then "00" else if |s| == 1 then "0" + s else s
  }

  // ------------------------------------------------------------------
  // String order and division

  /**
   * JavaScript's `<` on strings: the first differing character decides, and a
   * proper prefix comes first.
   */
  predicate LexLess(a: string, b: string)
  {
    |b| > 0 && (|a| == 0 || a[0] < b[0] || (a[0] == b[0] && LexLess(a[1..], b[1..])))
  }

  lemma {:induction false} LexLessIrreflexive(a: string)
    ensures !LexLess(a, a)
  {
    if |a| > 0 {
      LexLessIrreflexive(a[1..]);
    }
  }

  lemma {:induction false} LexLessTransitive(a: string, b: string, c: string)
    requires LexLess(a, b) && LexLess(b, c)
    ensures LexLess(a, c)
  {
    if |a| > 0 && a[0] == b[0] && b[0] == c[0] {
      LexLessTransitive(a[1..], b[1..], c[1..]);
    }
  }

  lemma {:induction false} LexLessTotal(a: string, b: string)
    ensures LexLess(a, b) || a == b || LexLess(b, a)
  {
    if |a| > 0 && |b| > 0 && a[0] == b[0] {
      LexLessTotal(a[1..], b[1..]);
      if a[1..] == b[1..] {
        assert a == [a[0]] + a[1..] && b == [b[0]] + b[1..];
      }
    }
  }

  /** A common prefix does not change the order. */
  lemma {:induction false} LexLessCommonPrefix(p: string, a: string, b: string)
    ensures LexLess(p + a, p + b) <==> LexLess(a, b)
  {
    if |p| > 0 {
      assert (p + a)[1..] == p[1..] + a;
      assert (p + b)[1..] == p[1..] + b;
      LexLessCommonPrefix(p[1..], a, b);
    } else {
      assert p + a == a && p + b == b;
    }
  }

  /** Extending the larger string keeps it larger. */
  lemma {:induction false} LexLessExtendRight(a: string, b: string, c: string)
    requires LexLess(a, b)
    ensures LexLess(a, b + c)
  {
    if |a| > 0 && a[0] == b[0] {
      assert (b + c)[1..] == b[1..] + c;
      LexLessExtendRight(a[1..], b[1..], c);
    }
  }

  /** Between strings of the same length the first difference decides, so extending the smaller one keeps it smaller. */
  lemma {:induction false} LexLessExtendLeft(a: string, b: string, c: string)
    requires LexLess(a, b) && |a| == |b|
    ensures LexLess(a + c, b)
  {
    if a[0] == b[0] {
      assert (a + c)[1..] == a[1..] + c;
      LexLessExtendLeft(a[1..], b[1..], c);
    }
  }

  /** A string never sorts before one of its prefixes. */
  lemma {:induction false} NotLessThanPrefix(p: string, s: string)
    requires IsPrefix(p, s)
    ensures !LexLess(s, p)
  {
    if |p| > 0 {
      NotLessThanPrefix(p[1..], s[1..]);
    }
  }

  /**
   * `Math.ceil(a / b)` for integers. Division by zero yields `Infinity` or
   * `NaN`, which serialise as `null`: that case is `None`.
   */
  function JsCeilDiv(a: int, b: int): (r: Option<int>)
    ensures r.Some? <==> b != 0
    ensures b > 0 ==> (r.value - 1) * b < a <= r.value * b
    ensures b < 0 ==> r.value * b <= a < (r.value - 1) * b
  {
    if b == 0 then None
    else if b > 0 then
      CeilDivPositive(a, b);
      Some(-((-a) / b))
    else
      CeilDivNegative(a, b);
      Some(-(a / (-b)))
  }

  /** `-((-a) / b)` is the ceiling of `a / b` for a positive divisor. */
  lemma CeilDivPositive(a: int, b: int)
    requires b > 0
    ensures var c := -((-a) / b); (c - 1) * b < a <= c * b
  {
    var q := (-a) / b;
    assert q * b <= -a < q * b + b;
    assert (-q) * b == -(q * b) && (-q - 1) * b == -(q * b) - b;
  }

  /** `-(a / (-b))` is the ceiling of `a / b` for a negative divisor. */
  lemma CeilDivNegative(a: int, b: int)
    requires b < 0
    ensures var c := -(a / (-b)); c * b <= a < (c - 1) * b
  {
    var q := a / (-b);
    assert q * (-b) <= a < q * (-b) + (-b);
    assert (-q) * b == q * (-b) && (-q - 1) * b == q * (-b) - b;
  }
}
