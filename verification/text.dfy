/**
 * String and list helpers shared by the TypeScript front end and the Python
 * back end: splitting a topic on '/', prefix and substring tests, lower-casing,
 * and the slicing rules of `Array.prototype.slice` and Python lists.
 */
module Text {

  /** `s.split(sep)` with a one-character separator (JavaScript and Python agree):
      every separator ends a piece, so the result always has at least one piece. */
  function Split(s: string, sep: char): (parts: seq<string>)
    ensures |parts| >= 1
    ensures forall i :: 0 <= i < |parts| ==> sep !in parts[i]
  {
    if |s| == 0 then [""]
    else
      var rest := Split(s[1..], sep);
      if s[0] == sep then [""] + rest
      else [[s[0]] + rest[0]] + rest[1..]
  }

  /** Pieces glued back together with the separator between them. */
  function Join(parts: seq<string>, sep: char): string
    requires |parts| >= 1
  {
    if |parts| == 1 then parts[0] else parts[0] + [sep] + Join(parts[1..], sep)
  }

  /** Splitting loses nothing: joining the pieces gives the topic back. */
  lemma {:induction false} JoinSplit(s: string, sep: char)
    ensures Join(Split(s, sep), sep) == s
  {
    if |s| > 0 {
      JoinSplit(s[1..], sep);
      var rest := Split(s[1..], sep);
      if s[0] != sep {
        if |rest| > 1 {
          assert Join([[s[0]] + rest[0]] + rest[1..], sep)
              == [s[0]] + rest[0] + [sep] + Join(rest[1..], sep);
          assert Join(rest, sep) == rest[0] + [sep] + Join(rest[1..], sep);
        }
      } else {
        assert Join([""] + rest, sep) == "" + [sep] + Join(rest, sep);
      }
    }
  }

  /** The last piece of `s.split(sep)`: `parts[parts.length - 1]` or `.pop()`. */
  function LastSegment(s: string, sep: char): string {
    var parts := Split(s, sep);
    parts[|parts| - 1]
  }

  /** A topic splits into a single piece exactly when it holds no separator. */
  lemma {:induction false} SplitSingle(s: string, sep: char)
    ensures |Split(s, sep)| == 1 <==> sep !in s
  {
    if |s| > 0 {
      SplitSingle(s[1..], sep);
      assert sep in s <==> s[0] == sep || sep in s[1..];
    }
  }

  /** The last piece is exactly the text after the last separator: a suffix of
      `s` without separators that is either all of `s` or preceded by `sep`. */
  lemma {:induction false} LastSegmentIsTail(s: string, sep: char)
    ensures var last := LastSegment(s, sep);
      && |last| <= |s|
      && last == s[|s| - |last|..]
      && sep !in last
      && (|last| == |s| || s[|s| - |last| - 1] == sep)
  {
    if |s| > 0 {
      LastSegmentIsTail(s[1..], sep);
      SplitSingle(s[1..], sep);
      var tail := LastSegment(s[1..], sep);
      if s[0] != sep && |Split(s[1..], sep)| == 1 {
        LastSegmentWhole(s, sep);
        assert s == [s[0]] + s[1..];
      } else {
        LastSegmentOfRest(s, sep);
        if |tail| == |s| - 1 {
          assert tail == s[1..];
        }
        ShiftTail(s, tail, sep);
      }
    }
  }

  /** A separator-led suffix of `s[1..]` is one of `s`. */
  lemma ShiftTail(s: string, tail: string, sep: char)
    requires |s| > 0 && |tail| <= |s| - 1 && tail == s[1..][|s| - 1 - |tail|..]
    requires |tail| == |s| - 1 ==> s[0] == sep
    requires |tail| < |s| - 1 ==> s[1..][|s| - 1 - |tail| - 1] == sep
    ensures tail == s[|s| - |tail|..] && s[|s| - |tail| - 1] == sep
  {
    assert s[1..][|s| - 1 - |tail|..] == s[|s| - |tail|..];
  }

  lemma LastSegmentWhole(s: string, sep: char)
    requires |s| > 0 && s[0] != sep && |Split(s[1..], sep)| == 1
    ensures LastSegment(s, sep) == s
  {
    var rest := Split(s[1..], sep);
    JoinSplit(s[1..], sep);
    assert rest[0] == s[1..];
    assert Split(s, sep) == [[s[0]] + rest[0]];
    assert [s[0]] + s[1..] == s;
  }

  lemma LastSegmentOfRest(s: string, sep: char)
    requires |s| > 0 && !(s[0] != sep && |Split(s[1..], sep)| == 1)
    ensures LastSegment(s, sep) == LastSegment(s[1..], sep)
  {
  }

  /** Splitting at a separator splits the two sides independently. */
  lemma {:induction false} SplitAppend(a: string, b: string, sep: char)
    ensures Split(a + [sep] + b, sep) == Split(a, sep) + Split(b, sep)
  {
    var s := a + [sep] + b;
    if |a| > 0 {
      assert s[0] == a[0] && s[1..] == a[1..] + [sep] + b;
      SplitAppend(a[1..], b, sep);
      var p := Split(a[1..], sep);
      var q := Split(b, sep);
      if a[0] != sep {
        assert (p + q)[0] == p[0] && (p + q)[1..] == p[1..] + q;
      }
    } else {
      assert s == [sep] + b && s[1..] == b;
    }
  }

  /** Text without a separator is a single piece. */
  lemma SplitNone(b: string, sep: char)
    requires sep !in b
    ensures Split(b, sep) == [b]
  {
    SplitSingle(b, sep);
    JoinSplit(b, sep);
  }

  /** The text after the last separator is the last segment, whatever comes
      before it. */
  lemma LastSegmentAfter(a: string, b: string, sep: char)
    requires sep !in b
    ensures LastSegment(a + [sep] + b, sep) == b
  {
    SplitAppend(a, b, sep);
    SplitNone(b, sep);
  }

  /** `s.startsWith(p)` / Python `s.startswith(p)`. */
  predicate StartsWith(s: string, p: string) {
    |p| <= |s| && s[..|p|] == p
  }

  /** `s.includes(q)`: `q` occurs somewhere in `s` (the empty string occurs everywhere). */
  predicate Includes(s: string, q: string)
    decreases |s|
  {
    StartsWith(s, q) || (|s| > 0 && Includes(s[1..], q))
  }

  /** `q` occurs in `s` at position `i`. */
  predicate OccursAt(s: string, q: string, i: int) {
    0 <= i && i + |q| <= |s| && s[i..i + |q|] == q
  }

  /** Every occurrence is found by `Includes`. */
  lemma {:induction false} OccursImpliesIncludes(s: string, q: string, i: int)
    requires OccursAt(s, q, i)
    ensures Includes(s, q)
    decreases i
  {
    if i > 0 {
      assert s[1..][i - 1..i - 1 + |q|] == s[i..i + |q|];
      OccursImpliesIncludes(s[1..], q, i - 1);
    }
  }

  /** `Includes` agrees with the plain definition of an occurrence. */
  lemma {:induction false} IncludesIffOccurs(s: string, q: string)
    ensures Includes(s, q) <==> exists i :: OccursAt(s, q, i)
    decreases |s|
  {
    if StartsWith(s, q) {
      assert OccursAt(s, q, 0);
    } else if |s| > 0 && Includes(s[1..], q) {
      IncludesIffOccurs(s[1..], q);
      var i :| OccursAt(s[1..], q, i);
      assert s[i + 1..i + 1 + |q|] == s[1..][i..i + |q|];
      assert OccursAt(s, q, i + 1);
    }
    forall i | OccursAt(s, q, i) ensures Includes(s, q) {
      OccursImpliesIncludes(s, q, i);
    }
  }

  /** Lower-casing of one character: ASCII capitals and the Latin-1 capitals
      (À to Þ, except the multiplication sign) move down by 32, as
      `toLowerCase` and Python's `lower` do for these letters. */
  function LowerChar(c: char): (d: char)
    ensures 'A' <= c <= 'Z' ==> d as int == c as int + 32
    ensures !('A' <= c <= 'Z') && !('À' <= c <= 'Þ') ==> d == c
  {
    if 'A' <= c <= 'Z' then (c as int + 32) as char
    else if 'À' <= c <= 'Þ' && c != '×' then (c as int + 32) as char
    else c
  }

  /** `s.toLowerCase()` restricted to the characters `LowerChar` knows. */
  function ToLower(s: string): (r: string)
    ensures |r| == |s|
    ensures forall i :: 0 <= i < |s| ==> r[i] == LowerChar(s[i])
  {
    if |s| == 0 then "" else [LowerChar(s[0])] + ToLower(s[1..])
  }

  /** `s.filter(p)`: the elements that pass, in their order, each as often as
      it occurs. */
  function Filter<T(!new)>(s: seq<T>, p: T -> bool): (r: seq<T>)
    ensures |r| <= |s|
    ensures forall x :: x in r ==> p(x)
    ensures forall x :: multiset(r)[x] == if p(x) then multiset(s)[x] else 0
  {
    if s == [] then []
    else
      assert s == [s[0]] + s[1..];
      (if p(s[0]) then [s[0]] else []) + Filter(s[1..], p)
  }

  /** The filter keeps exactly the elements that pass. */
  lemma FilterMembers<T(!new)>(s: seq<T>, p: T -> bool)
    ensures forall x :: x in Filter(s, p) <==> x in s && p(x)
  {
    forall x ensures x in Filter(s, p) <==> x in s && p(x) {
      assert x in Filter(s, p) <==> multiset(Filter(s, p))[x] > 0;
      assert x in s <==> multiset(s)[x] > 0;
    }
  }

  /** Filtering a concatenation filters each part in turn, so the kept
      elements stay in the order they had. */
  lemma {:induction false} FilterAppend<T(!new)>(a: seq<T>, b: seq<T>, p: T -> bool)
    ensures Filter(a + b, p) == Filter(a, p) + Filter(b, p)
  {
    if a == [] {
      assert a + b == b;
    } else {
      var head := if p(a[0]) then [a[0]] else [];
      HeadOfAppend(a, b);
      FilterHead(a + b, p);
      FilterHead(a, p);
      FilterAppend(a[1..], b, p);
      AppendAssoc(head, Filter(a[1..], p), Filter(b, p));
    }
  }

  /** The first element and the rest of a concatenation whose left part is
      not empty. */
  lemma HeadOfAppend<T>(a: seq<T>, b: seq<T>)
    requires a != []
    ensures (a + b)[0] == a[0] && (a + b)[1..] == a[1..] + b
  {
  }

  lemma AppendAssoc<T>(x: seq<T>, y: seq<T>, z: seq<T>)
    ensures x + (y + z) == (x + y) + z
  {
  }

  /** One step of the filter. */
  lemma FilterHead<T(!new)>(s: seq<T>, p: T -> bool)
    requires s != []
    ensures Filter(s, p) == (if p(s[0]) then [s[0]] else []) + Filter(s[1..], p)
  {
  }

  /** A filter applied only when `on` holds, as in `if (on) xs = xs.filter(p)`. */
  function FilterWhen<T(!new)>(on: bool, s: seq<T>, p: T -> bool): (r: seq<T>)
    ensures forall x :: x in r <==> x in s && (on ==> p(x))
    ensures forall x :: multiset(r)[x] == if !on || p(x) then multiset(s)[x] else 0
    ensures !on ==> r == s
  {
    if on then FilterMembers(s, p); Filter(s, p) else s
  }

  /** The conditional filter keeps the order too. */
  lemma FilterWhenAppend<T(!new)>(on: bool, a: seq<T>, b: seq<T>, p: T -> bool)
    ensures FilterWhen(on, a + b, p) == FilterWhen(on, a, p) + FilterWhen(on, b, p)
  {
    if on {
      FilterAppend(a, b, p);
    }
  }

  /** A filter every element passes keeps the whole sequence. */
  lemma {:induction false} FilterAll<T(!new)>(s: seq<T>, p: T -> bool)
    requires forall i :: 0 <= i < |s| ==> p(s[i])
    ensures Filter(s, p) == s
  {
    if s != [] {
      FilterAll(s[1..], p);
    }
  }

  function Min(a: int, b: int): int { if a <= b then a else b }
  function Max(a: int, b: int): int { if a >= b then a else b }

  /** `xs.slice(0, n)` for `n >= 0`: the first `n` elements, or all when fewer. */
  function Take<T>(xs: seq<T>, n: nat): (r: seq<T>)
    ensures |r| == Min(n, |xs|)
    ensures r == xs[..|r|]
  {
    if n <= |xs| then xs[..n] else xs
  }

  /** A prefix holds some of the elements, and all of them when it is long
      enough. */
  lemma TakeMultiset<T>(xs: seq<T>, n: nat)
    ensures multiset(Take(xs, n)) <= multiset(xs)
    ensures n >= |xs| ==> Take(xs, n) == xs
  {
    var r := Take(xs, n);
    assert xs == r + xs[|r|..];
  }

  /** `xs.slice(start)` with JavaScript's rules: a negative start counts from
      the end (clamped at 0), a non-negative one is clamped at the length.
      Python's `xs[start:]` follows the same rules. */
  function SliceFrom<T>(xs: seq<T>, start: int): (r: seq<T>)
    ensures |r| <= |xs|
    ensures r == xs[|xs| - |r|..]
  {
    if start < 0 then xs[Max(|xs| + start, 0)..] else xs[Min(start, |xs|)..]
  }

  /** `xs.slice(-n)` for `n >= 1` keeps the last `n` elements, or all when fewer. */
  lemma SliceFromNegative<T>(xs: seq<T>, n: int)
    requires n >= 1
    ensures |SliceFrom(xs, -n)| == Min(n, |xs|)
  {
  }

  /** Python's `text[:k]`: the first `k` characters for `k >= 0`; a negative `k`
      drops `-k` characters from the end. */
  function PyPrefix(text: string, k: int): (r: string)
    ensures |r| <= |text| && r == text[..|r|]
    ensures k >= 0 ==> |r| == Min(k, |text|)
  {
    if k >= 0 then (if k <= |text| then text[..k] else text)
    else text[..Max(|text| + k, 0)]
  }
}
