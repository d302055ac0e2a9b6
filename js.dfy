/** The pieces of JavaScript's built-in semantics that the mock back-ends and
    the dashboard pages rely on: falsy parameters, `toLowerCase`,
    `String.prototype.includes`, `localeCompare`, `Array.prototype.slice`,
    `Math.ceil` of a quotient and `parseInt(x) || default`. */
module Js {
  import opened Seqs

  /** A value or a thrown `Error` with its message. */
  datatype Result<+T> = Ok(value: T) | Err(message: string)

  /** A query parameter as an `if (params.x)` guard and the parse after it see
      it: falsy (absent, '' or the number 0) and so not applied; truthy with
      the value `parseFloat`, `parseInt` or `new Date` makes of it; or truthy
      but unparsable (NaN, an Invalid Date), against which every comparison is
      false. */
  datatype Param<+T> = Unset | Given(value: T) | Unparsable

  // ---------------------------------------------------------------- strings

  function LowerChar(c: char): char
  {
    if 'A' <= c <= 'Z' then (c as int + 32) as char else c
  }

  /** `toLowerCase` on ASCII letters. */
  function Lower(s: string): (r: string)
    ensures |r| == |s|
    ensures forall i :: 0 <= i < |r| ==> !('A' <= r[i] <= 'Z')
    ensures forall i :: 0 <= i < |s| && !('A' <= s[i] <= 'Z') ==> r[i] == s[i]
    ensures forall i :: 0 <= i < |s| && 'A' <= s[i] <= 'Z' ==> r[i] == (s[i] as int + 32) as char
  {
    seq(|s|, i requires 0 <= i < |s| => LowerChar(s[i]))
  }

  lemma LowerIdempotent(s: string)
    ensures Lower(Lower(s)) == Lower(s)
  {
  }

  /** `s.includes(sub)`: sub occurs in s as a contiguous run. */
  predicate Includes(s: string, sub: string)
  {
    sub <= s || (s != [] && Includes(s[1..], sub))
  }

  /** includes finds sub whenever sub is the slice of s at some offset. */
  lemma {:induction false} IncludesAt(s: string, sub: string, i: nat)
    requires i + |sub| <= |s| && s[i..i + |sub|] == sub
    ensures Includes(s, sub)
  {
    if i > 0 {
      assert s[1..][i - 1..i - 1 + |sub|] == s[i..i + |sub|];
      IncludesAt(s[1..], sub, i - 1);
    }
  }

  /** Conversely, when includes finds sub, sub is the slice of s at some
      offset. */
  lemma {:induction false} IncludesSomewhere(s: string, sub: string)
    requires Includes(s, sub)
    ensures exists i: nat :: OccursAt(s, sub, i)
  {
    if sub <= s {
      assert OccursAt(s, sub, 0);
    } else {
      IncludesSomewhere(s[1..], sub);
      var i: nat :| OccursAt(s[1..], sub, i);
      assert s[1..][i..i + |sub|] == s[i + 1..i + 1 + |sub|];
      assert OccursAt(s, sub, i + 1);
    }
  }

  /** sub is the slice of s that starts at offset i. */
  predicate OccursAt(s: string, sub: string, i: nat)
  {
    i + |sub| <= |s| && s[i..i + |sub|] == sub
  }

  /** `a.localeCompare(b)`, taken to be lexicographic code-point order:
      negative, zero or positive as a sorts before, with or after b. */
  function LocaleCompare(a: string, b: string): (r: int)
    ensures -1 <= r <= 1
  {
    if a == [] then (if b == [] then 0 else -1)
    else if b == [] then 1
    else if a[0] < b[0] then -1
    else if a[0] > b[0] then 1
    else LocaleCompare(a[1..], b[1..])
  }

  lemma {:induction false} LocaleCompareAntisymmetric(a: string, b: string)
    ensures LocaleCompare(b, a) == -LocaleCompare(a, b)
  {
    if a != [] && b != [] && a[0] == b[0] {
      LocaleCompareAntisymmetric(a[1..], b[1..]);
    }
  }

  lemma {:induction false} LocaleCompareZero(a: string, b: string)
    ensures LocaleCompare(a, b) == 0 <==> a == b
  {
    if a != [] && b != [] && a[0] == b[0] {
      LocaleCompareZero(a[1..], b[1..]);
      assert a == [a[0]] + a[1..] && b == [b[0]] + b[1..];
    }
  }

  lemma {:induction false} LocaleCompareTransitive(a: string, b: string, c: string)
    requires LocaleCompare(a, b) <= 0 && LocaleCompare(b, c) <= 0
    ensures LocaleCompare(a, c) <= 0
  {
    if a != [] && b != [] && c != [] && a[0] == b[0] && b[0] == c[0] {
      LocaleCompareTransitive(a[1..], b[1..], c[1..]);
    }
  }

  // ---------------------------------------------------------------- slices

  /** How `slice` reads one of its arguments: negative counts from the end,
      and the result is clamped to [0, len]. */
  function RelativeIndex(i: int, len: nat): (r: nat)
    ensures r <= len
    ensures 0 <= i ==> r == if i < len then i else len
    ensures i < 0 ==> r == if len + i < 0 then 0 else len + i
  {
    if i < 0 then (if len + i < 0 then 0 else len + i)
    else if i > len then len
    else i
  }

  /** `s.slice(start, end)`. */
  function JsSlice<T>(s: seq<T>, start: int, end: int): (r: seq<T>)
    ensures |r| <= |s|
    ensures multiset(r) <= multiset(s)
  {
    var a, b := RelativeIndex(start, |s|), RelativeIndex(end, |s|);
    if a < b then
      assert s == s[..a] + s[a..b] + s[b..];
      s[a..b]
    else []
  }

  /** For a non-negative start the slice is the window [start, start + n) of
      s cut at its end; in particular at most n elements long. */
  lemma SliceWindow<T>(s: seq<T>, start: int, n: int)
    ensures 0 <= start <= |s| && 0 <= n ==>
      JsSlice(s, start, start + n) == s[start..if start + n < |s| then start + n else |s|]
    ensures 0 <= start && |s| <= start && 0 <= n ==> JsSlice(s, start, start + n) == []
    ensures 0 <= start && 0 <= n ==> |JsSlice(s, start, start + n)| <= n
  {
  }

  /** `slice(0, n)` for n >= 0 is the first n elements. */
  lemma SlicePrefix<T>(s: seq<T>, n: nat)
    ensures JsSlice(s, 0, n) == s[..if n < |s| then n else |s|]
  {
    assert s[0..if n < |s| then n else |s|] == s[..if n < |s| then n else |s|];
  }

  // ---------------------------------------------------------------- pagination

  /** `parseInt(x) || d`: NaN (None) and 0 fall back to d. */
  function OrDefault(n: Option<int>, d: int): (r: int)
    ensures n.Some? && n.value != 0 ==> r == n.value
    ensures !(n.Some? && n.value != 0) ==> r == d
  {
    match n
    case Some(v) => if v != 0 then v else d
    case None => d
  }

  /** `Math.ceil(t / l)` for a non-zero l. */
  function CeilDiv(t: nat, l: int): int
    requires l != 0
  {
    if l > 0 then (t + l - 1) / l else -(t / -l)
  }

  /** CeilDiv(t, l) is the least integer r with r * l >= t for a positive l,
      and the greatest with r * l <= t for a negative one (the quotient
      t / l rounded up). */
  lemma CeilDivBounds(t: nat, l: int)
    requires l != 0
    ensures var r := CeilDiv(t, l);
      && (l > 0 ==> (r - 1) * l < t <= r * l)
      && (l < 0 ==> r * l <= t < (r - 1) * l)
  {
    if l > 0 {
      var q := (t + l - 1) / l;
      assert q * l <= t + l - 1 < q * l + l;
      assert (q - 1) * l == q * l - l;
    } else {
      var q := t / -l;
      assert q * -l <= t < q * -l - l;
      assert (-q) * l == q * -l;
      assert (-q - 1) * l == q * -l - l;
    }
  }

  /** a * b, written as repeated addition so that the slice arithmetic
      below stays linear for the verifier; TimesIsProduct connects it to `*`. */
  function Times(a: int, b: int): (r: int)
    ensures a >= 0 && b >= 0 ==> r >= 0
    decreases if a < 0 then -a else a
  {
    if a == 0 then 0
    else if a > 0 then Times(a - 1, b) + b
    else Times(a + 1, b) - b
  }

  lemma {:induction false} TimesIsProduct(a: int, b: int)
    ensures Times(a, b) == a * b
    decreases if a < 0 then -a else a
  {
    if a > 0 {
      TimesIsProduct(a - 1, b);
      assert a * b == (a - 1) * b + b;
    } else if a < 0 {
      TimesIsProduct(a + 1, b);
      assert a * b == (a + 1) * b - b;
    }
  }

  /** The page size and page count a request gets back. */
  datatype Pagination = Pagination(total: nat, page: int, pages: int, limit: int)

  /** The page/limit arithmetic shared by every paginated list: page
      defaults to 1, limit to 20, `pages = ceil(total / limit)`, and the page
      is `slice(skip, skip + limit)` with `skip = (page - 1) * limit`. */
  function Paginate<T>(s: seq<T>, page: Option<int>, limit: Option<int>): (r: (seq<T>, Pagination))
    ensures r.1.total == |s| && r.1.limit != 0
    ensures r.1.page == OrDefault(page, 1) && r.1.limit == OrDefault(limit, 20)
    ensures r.1.pages == CeilDiv(|s|, r.1.limit)
    ensures multiset(r.0) <= multiset(s)
  {
    var p := OrDefault(page, 1);
    var l := OrDefault(limit, 20);
    var skip := Times(p - 1, l);
    (JsSlice(s, skip, skip + l), Pagination(|s|, p, CeilDiv(|s|, l), l))
  }

  /** For a positive page number and page size, the page is the window
      [skip, skip + limit) of the list cut at its end, so it holds at most
      limit elements. */
  lemma PageWindow<T>(s: seq<T>, page: Option<int>, limit: Option<int>)
    requires OrDefault(page, 1) >= 1 && OrDefault(limit, 20) > 0
    ensures var r := Paginate(s, page, limit);
      var skip := Times(r.1.page - 1, r.1.limit);
      && skip == (r.1.page - 1) * r.1.limit
      && 0 <= skip
      && |r.0| <= r.1.limit
      && (skip <= |s| ==> r.0 == s[skip..if skip + r.1.limit < |s| then skip + r.1.limit else |s|])
      && (skip >= |s| ==> r.0 == [])
  {
    var p, l := OrDefault(page, 1), OrDefault(limit, 20);
    TimesIsProduct(p - 1, l);
    SliceWindow(s, Times(p - 1, l), l);
  }

  /** Pages 1..n of size l laid end to end; page n starts at
      `(n - 1) * l`. */
  function Pages<T>(s: seq<T>, l: nat, n: nat): seq<T>
  {
    if n == 0 then [] else Pages(s, l, n - 1) + JsSlice(s, Times(n - 1, l), Times(n - 1, l) + l)
  }

  lemma PagesStep<T>(s: seq<T>, l: nat, n: nat)
    requires n > 0
    requires Pages(s, l, n - 1) == s[..if Times(n - 1, l) < |s| then Times(n - 1, l) else |s|]
    ensures Pages(s, l, n) == s[..if Times(n, l) < |s| then Times(n, l) else |s|]
  {
    var a := Times(n - 1, l);
    assert Times(n, l) == a + l;
    assert Pages(s, l, n) == Pages(s, l, n - 1) + JsSlice(s, a, a + l);
    SliceWindow(s, a, l);
    if a < |s| {
      var b := if a + l < |s| then a + l else |s|;
      assert s[..a] + s[a..b] == s[..b];
    }
  }

  lemma {:induction false} PagesPrefix<T>(s: seq<T>, l: nat, n: nat)
    ensures Pages(s, l, n) == s[..if Times(n, l) < |s| then Times(n, l) else |s|]
  {
    if n > 0 {
      PagesPrefix(s, l, n - 1);
      PagesStep(s, l, n);
    }
  }

  /** Walking the pages 1..pages, as a client paging through a list does,
      yields every element exactly once and in order. */
  lemma PagesCoverAll<T>(s: seq<T>, limit: Option<int>)
    requires OrDefault(limit, 20) > 0
    ensures Pages(s, OrDefault(limit, 20), CeilDiv(|s|, OrDefault(limit, 20))) == s
  {
    var l := OrDefault(limit, 20);
    var n := CeilDiv(|s|, l);
    CeilDivBounds(|s|, l);
    PagesPrefix(s, l, n);
    TimesIsProduct(n, l);
  }
}
