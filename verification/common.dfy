/** Shared vocabulary: optional and fallible values, the JavaScript truthiness
    rules the application leans on, ASCII text helpers, and an order-preserving
    filter over sequences. */
module Common {

  datatype Option<+T> = None | Some(value: T) {
    function GetOr(default: T): T {
      match this
      case Some(v) => v
      case None => default
    }
  }

  datatype Result<+R, +E> = Success(value: R) | Failure(error: E)

  /** The three pricing modes of a stream, video or creator page. */
  datatype ViewMode = Free | OneTime | Monthly

  // ---------------------------------------------------------------------------
  // JavaScript truthiness for the optional strings and numbers of the rows

  /** A present, non-empty string: what `if (s)` accepts. */
  predicate Present(s: Option<string>) {
    s.Some? && s.value != ""
  }

  /** `a || b` on optional strings. */
  function OrElse(a: Option<string>, b: Option<string>): (r: Option<string>)
    ensures Present(a) ==> r == a
    ensures !Present(a) ==> r == b
  {
    if Present(a) then a else b
  }

  /** `a || d` on an optional string with a string default. */
  function OrDefault(a: Option<string>, d: string): (r: string)
    ensures Present(a) ==> r == a.value
    ensures !Present(a) ==> r == d
  {
    if Present(a) then a.value else d
  }

  /** `s || null`: the empty string becomes null. */
  function NonEmpty(s: string): (r: Option<string>)
    ensures r.None? <==> s == ""
    ensures r.Some? ==> r.value == s
  {
    if s == "" then None else Some(s)
  }

  /** A present, non-zero number: what `if (n)` accepts (NaN is modelled as None). */
  predicate PresentNum(n: Option<real>) {
    n.Some? && n.value != 0.0
  }

  /** `n || d` on an optional number. */
  function NumOr(n: Option<real>, d: real): (r: real)
    ensures PresentNum(n) ==> r == n.value
    ensures !PresentNum(n) ==> r == d
  {
    if PresentNum(n) then n.value else d
  }

  // ---------------------------------------------------------------------------
  // ASCII text

  function LowerChar(c: char): (r: char)
    ensures 'A' <= c <= 'Z' ==> 'a' <= r <= 'z'
    ensures !('A' <= c <= 'Z') ==> r == c
  {
    if 'A' <= c <= 'Z' then (c as int - 'A' as int + 'a' as int) as char else c
  }

  /** `toLowerCase()` restricted to ASCII letters. */
  function Lower(s: string): (r: string)
    ensures |r| == |s|
    ensures forall i :: 0 <= i < |s| ==> r[i] == LowerChar(s[i])
  {
    if s == [] then [] else [LowerChar(s[0])] + Lower(s[1..])
  }

  /** Wallet addresses compared the way the gates compare them:
      `a.toLowerCase() === b.toLowerCase()`. */
  predicate SameAddress(a: string, b: string) {
    Lower(a) == Lower(b)
  }

  /** `list.some(x => x.toLowerCase() === a.toLowerCase())`. */
  predicate ListedIgnoringCase(list: seq<string>, a: string) {
    exists i :: 0 <= i < |list| && SameAddress(list[i], a)
  }

  /** Two addresses are the same exactly when they have equal length and
      agree letter by letter once ASCII capitals are lowered. */
  lemma SameAddressCharwise(a: string, b: string)
    ensures SameAddress(a, b) <==> |a| == |b| && forall i :: 0 <= i < |a| ==> LowerChar(a[i]) == LowerChar(b[i])
  {
    if |a| == |b| && forall i :: 0 <= i < |a| ==> LowerChar(a[i]) == LowerChar(b[i]) {
      assert forall i :: 0 <= i < |a| ==> Lower(a)[i] == Lower(b)[i];
    }
  }

  lemma SameAddressIsEquivalence(a: string, b: string, c: string)
    ensures SameAddress(a, a)
    ensures SameAddress(a, b) ==> SameAddress(b, a)
    ensures SameAddress(a, b) && SameAddress(b, c) ==> SameAddress(a, c)
  {
  }

  predicate IsSpace(c: char) {
    c == ' ' || c == '\t' || c == '\n' || c == '\r' || c == '\U{000B}' || c == '\U{000C}' || c == '\U{00A0}'
  }

  function TrimStart(s: string): (r: string)
    ensures |r| <= |s|
    ensures r == s[|s| - |r|..]
    ensures r == [] || !IsSpace(r[0])
    ensures forall i :: 0 <= i < |s| - |r| ==> IsSpace(s[i])
  {
    if s != [] && IsSpace(s[0]) then TrimStart(s[1..]) else s
  }

  function TrimEnd(s: string): (r: string)
    ensures |r| <= |s|
    ensures r == s[..|r|]
    ensures r == [] || !IsSpace(r[|r| - 1])
    ensures forall i :: |r| <= i < |s| ==> IsSpace(s[i])
  {
    if s != [] && IsSpace(s[|s| - 1]) then TrimEnd(s[..|s| - 1]) else s
  }

  /** `trim()`: leading and trailing white space removed. */
  function Trim(s: string): (r: string)
    ensures |r| <= |s|
    ensures r == [] || (!IsSpace(r[0]) && !IsSpace(r[|r| - 1]))
  {
    TrimEnd(TrimStart(s))
  }

  /** `trim()` removes white space at the two ends only: the result is a
      contiguous part of the input, and everything cut off is white space. */
  lemma TrimCutsOnlyEdges(s: string)
    ensures exists k :: CutAt(s, Trim(s), k)
  {
    var t := TrimStart(s);
    var k := |s| - |t|;
    var r := Trim(s);
    assert r == t[..|r|];
    assert t[..|r|] == s[k..k + |r|];
    forall i | k + |r| <= i < |s|
      ensures IsSpace(s[i])
    {
      assert s[i] == t[i - k];
    }
    assert CutAt(s, r, k);
  }

  /** r is s with k white-space characters cut from the front and only
      white space cut from the back. */
  predicate CutAt(s: string, r: string, k: int) {
    && 0 <= k <= |s| - |r| && r == s[k..k + |r|]
    && (forall i :: 0 <= i < k ==> IsSpace(s[i]))
    && (forall i :: k + |r| <= i < |s| ==> IsSpace(s[i]))
  }

  /** A string is blank (`!s.trim()`) exactly when every character is white space. */
  lemma {:induction false} TrimEmptyIffBlank(s: string)
    ensures Trim(s) == [] <==> forall i :: 0 <= i < |s| ==> IsSpace(s[i])
  {
    var t := TrimStart(s);
    if Trim(s) == [] {
      assert TrimEnd(t) == [];
    } else {
      assert Trim(s)[0] == t[0];
      assert !IsSpace(s[|s| - |t|]);
    }
  }

  // ---------------------------------------------------------------------------
  // UTF-16: what JavaScript's `length` and non-`u` regular expressions count

  /** A character outside the Basic Multilingual Plane, which a JavaScript
      string holds as a surrogate pair of two UTF-16 code units. */
  predicate Astral(c: char) {
    c as int >= 0x1_0000
  }

  /** `s.length`: the number of UTF-16 code units. */
  function Utf16Length(s: string): (n: nat)
    ensures |s| <= n <= 2 * |s|
    ensures (forall i :: 0 <= i < |s| ==> !Astral(s[i])) ==> n == |s|
    ensures (forall i :: 0 <= i < |s| ==> Astral(s[i])) ==> n == 2 * |s|
  {
    if s == [] then 0 else (if Astral(s[0]) then 2 else 1) + Utf16Length(s[1..])
  }

  lemma {:induction false} Utf16LengthAppend(a: string, b: string)
    ensures Utf16Length(a + b) == Utf16Length(a) + Utf16Length(b)
  {
    if a != [] {
      assert (a + b)[0] == a[0];
      assert (a + b)[1..] == a[1..] + b;
      Utf16LengthAppend(a[1..], b);
    } else {
      assert a + b == b;
    }
  }

  predicate StartsWith(s: string, prefix: string) {
    |prefix| <= |s| && s[..|prefix|] == prefix
  }

  /** `s.includes(sub)`. */
  predicate Contains(s: string, sub: string)
    decreases |s|
  {
    StartsWith(s, sub) || (s != [] && Contains(s[1..], sub))
  }

  /** `sub` occurs in `s` at offset k. */
  predicate OccursAt(s: string, sub: string, k: int) {
    0 <= k <= |s| - |sub| && s[k..k + |sub|] == sub
  }

  /** `includes` finds exactly the occurrences at some offset. */
  lemma {:induction false} ContainsIffOccurs(s: string, sub: string)
    ensures Contains(s, sub) <==> exists k :: OccursAt(s, sub, k)
    decreases |s|
  {
    if StartsWith(s, sub) {
      assert OccursAt(s, sub, 0);
    } else if s == [] {
    } else {
      ContainsIffOccurs(s[1..], sub);
      if exists k :: OccursAt(s, sub, k) {
        var k :| OccursAt(s, sub, k);
        assert k != 0;
        assert OccursAt(s[1..], sub, k - 1);
      }
      if Contains(s[1..], sub) {
        var k :| OccursAt(s[1..], sub, k);
        assert OccursAt(s, sub, k + 1);
      }
    }
  }

  /** `s.slice(0, n)` for n >= 0. */
  function Take(s: string, n: nat): (r: string)
    ensures |r| == if |s| < n then |s| else n
    ensures StartsWith(s, r)
  {
    if |s| <= n then s else s[..n]
  }

  /** `s.slice(-n)` for n > 0: the last n characters, or all of a shorter string. */
  function TakeLast(s: string, n: nat): (r: string)
    ensures |r| == if |s| < n then |s| else n
    ensures r == s[|s| - |r|..]
  {
    if |s| <= n then s else s[|s| - n..]
  }

  // ---------------------------------------------------------------------------
  // Sequences

  /** `xs.filter(p)`. */
  function Filter<T>(xs: seq<T>, p: T -> bool): (r: seq<T>)
    ensures |r| <= |xs|
    ensures forall i :: 0 <= i < |r| ==> p(r[i])
  {
    if xs == [] then [] else (if p(xs[0]) then [xs[0]] else []) + Filter(xs[1..], p)
  }

  /** Filtering keeps exactly the members that satisfy the predicate. */
  lemma {:induction false} FilterMembership<T>(xs: seq<T>, p: T -> bool, x: T)
    ensures x in Filter(xs, p) <==> x in xs && p(x)
  {
    if xs != [] {
      FilterMembership(xs[1..], p, x);
      assert xs == [xs[0]] + xs[1..];
    }
  }

  /** Filtering distributes over concatenation, so relative order is kept. */
  lemma {:induction false} FilterAppend<T>(xs: seq<T>, ys: seq<T>, p: T -> bool)
    ensures Filter(xs + ys, p) == Filter(xs, p) + Filter(ys, p)
  {
    if xs == [] {
      assert xs + ys == ys;
    } else {
      assert (xs + ys)[1..] == xs[1..] + ys;
      FilterAppend(xs[1..], ys, p);
    }
  }

  /** A filter whose predicate holds everywhere returns its input. */
  lemma {:induction false} FilterKeepsAll<T>(xs: seq<T>, p: T -> bool)
    requires forall i :: 0 <= i < |xs| ==> p(xs[i])
    ensures Filter(xs, p) == xs
  {
    if xs != [] {
      FilterKeepsAll(xs[1..], p);
    }
  }

  /** Two predicates that agree on the members of a list filter it alike. */
  lemma {:induction false} FilterCongruent<T>(xs: seq<T>, p: T -> bool, q: T -> bool)
    requires forall i :: 0 <= i < |xs| ==> p(xs[i]) == q(xs[i])
    ensures Filter(xs, p) == Filter(xs, q)
  {
    if xs != [] {
      FilterCongruent(xs[1..], p, q);
    }
  }

  /** Number of occurrences of x in xs. */
  function Count<T(==)>(xs: seq<T>, x: T): (n: nat)
    ensures n <= |xs|
    ensures n == 0 <==> x !in xs
  {
    if xs == [] then 0 else (if xs[0] == x then 1 else 0) + Count(xs[1..], x)
  }

  lemma {:induction false} CountAppend<T>(xs: seq<T>, ys: seq<T>, x: T)
    ensures Count(xs + ys, x) == Count(xs, x) + Count(ys, x)
  {
    if xs == [] {
      assert xs + ys == ys;
    } else {
      assert (xs + ys)[1..] == xs[1..] + ys;
      CountAppend(xs[1..], ys, x);
    }
  }
}
