/** The slice of JavaScript value semantics that the storefront's logic relies on:
    optional values, truthiness of strings and numbers, ASCII case mapping,
    whitespace trimming, digit stripping, and order-preserving filtering. */
module Js {

  /** A value that may be absent (`null` or `undefined` in the source). */
  datatype Option<+T> = None | Some(value: T) {
    function GetOr(default: T): T {
      match this
      case Some(v) => v
      case None => default
    }
  }

  /** What a `fetch` to one of the API routes came back with: an OK reply and
      its parsed body, a non-OK reply with an optional `error` message, or an
      exception (network failure or unparsable body). */
  datatype Reply<T> = Success(body: T) | Rejected(error: Option<string>) | Threw

  /** `s` is truthy: present and not the empty string. */
  predicate Truthy(s: Option<string>) {
    s.Some? && s.value != ""
  }

  /** `a || b` on optional strings. */
  function OrElse(a: Option<string>, b: Option<string>): (r: Option<string>)
    ensures Truthy(a) ==> r == a
    ensures !Truthy(a) ==> r == b
  {
    if Truthy(a) then a else b
  }

  /** `x || null` on an optional amount: zero and absence both become null. */
  function NonZeroOrNull(x: Option<int>): (r: Option<int>)
    ensures r.Some? <==> x.Some? && x.value != 0
    ensures r.Some? ==> r.value == x.value
  {
    if x.Some? && x.value != 0 then x else None
  }

  // ---------------------------------------------------------------- characters

  predicate IsWhitespace(c: char) {
    c == ' ' || c == '\t' || c == '\n' || c == '\r' || c == '\U{B}' || c == '\U{C}'
  }

  predicate IsDigit(c: char) {
    '0' <= c <= '9'
  }

  function LowerChar(c: char): char {
    if 'A' <= c <= 'Z' then (c as int + 32) as char else c
  }

  function UpperChar(c: char): char {
    if 'a' <= c <= 'z' then (c as int - 32) as char else c
  }

  /** `toLowerCase` restricted to ASCII letters. */
  function Lower(s: string): (r: string)
    ensures |r| == |s|
    ensures forall i :: 0 <= i < |s| ==> r[i] == LowerChar(s[i])
  {
    seq(|s|, i requires 0 <= i < |s| => LowerChar(s[i]))
  }

  /** `toUpperCase` restricted to ASCII letters. */
  function Upper(s: string): (r: string)
    ensures |r| == |s|
    ensures forall i :: 0 <= i < |s| ==> r[i] == UpperChar(s[i])
  {
    seq(|s|, i requires 0 <= i < |s| => UpperChar(s[i]))
  }

  lemma UpperIdempotent(s: string)
    ensures Upper(Upper(s)) == Upper(s)
  {
    assert forall i :: 0 <= i < |s| ==> UpperChar(UpperChar(s[i])) == UpperChar(s[i]);
  }

  // ---------------------------------------------------------------- trimming

  function TrimStart(s: string): string {
    if |s| > 0 && IsWhitespace(s[0]) then TrimStart(s[1..]) else s
  }

  /** `TrimStart` drops a whitespace prefix and stops at the first other
      character. */
  lemma {:induction false} TrimStartSpec(s: string)
    ensures var r := TrimStart(s);
      && |r| <= |s| && r == s[|s| - |r|..]
      && (|r| > 0 ==> !IsWhitespace(r[0]))
      && (forall i :: 0 <= i < |s| - |r| ==> IsWhitespace(s[i]))
  {
    if |s| > 0 && IsWhitespace(s[0]) {
      TrimStartSpec(s[1..]);
    }
  }

  function TrimEnd(s: string): string {
    if |s| > 0 && IsWhitespace(s[|s| - 1]) then TrimEnd(s[..|s| - 1]) else s
  }

  /** `TrimEnd` drops a whitespace suffix and stops at the last other
      character. */
  lemma {:induction false} TrimEndSpec(s: string)
    ensures var r := TrimEnd(s);
      && |r| <= |s| && r == s[..|r|]
      && (|r| > 0 ==> !IsWhitespace(r[|r| - 1]))
      && (forall i :: |r| <= i < |s| ==> IsWhitespace(s[i]))
  {
    if |s| > 0 && IsWhitespace(s[|s| - 1]) {
      TrimEndSpec(s[..|s| - 1]);
    }
  }

  /** `trim`: drop leading and trailing whitespace. */
  function Trim(s: string): (r: string)
    ensures |r| <= |s|
    ensures |r| > 0 ==> !IsWhitespace(r[0]) && !IsWhitespace(r[|r| - 1])
  {
    TrimStartSpec(s);
    TrimEndSpec(TrimStart(s));
    TrimEnd(TrimStart(s))
  }

  predicate AllWhitespace(s: string) {
    forall i :: 0 <= i < |s| ==> IsWhitespace(s[i])
  }

  /** A string trims to the empty string exactly when it is all whitespace. */
  lemma TrimEmptyIff(s: string)
    ensures Trim(s) == "" <==> AllWhitespace(s)
  {
    var off := TrimSlice(s);
    if Trim(s) != "" {
      assert !IsWhitespace(s[off]) by {
        assert s[off] == Trim(s)[0];
      }
    }
  }

  /** `!x || x.trim() === ""`: the field is missing or holds only whitespace
      (see `TrimEmptyIff`). */
  predicate Blank(s: Option<string>) {
    s.None? || AllWhitespace(s.value)
  }

  /** `x?.trim() || null`. */
  function TrimOrNull(s: Option<string>): (r: Option<string>)
    ensures r.None? <==> Blank(s)
    ensures r.Some? ==> r.value == Trim(s.value) && r.value != ""
  {
    if s.None? then None
    else
      TrimEmptyIff(s.value);
      if Trim(s.value) != "" then Some(Trim(s.value)) else None
  }

  /** A string that neither starts nor ends with whitespace is its own trim. */
  lemma TrimOfTrimmed(s: string)
    requires |s| > 0 ==> !IsWhitespace(s[0]) && !IsWhitespace(s[|s| - 1])
    ensures Trim(s) == s
  {
  }

  lemma TrimIdempotent(s: string)
    ensures Trim(Trim(s)) == Trim(s)
  {
    TrimOfTrimmed(Trim(s));
  }

  /** A string with no whitespace at all is its own trim. */
  lemma TrimNoWhitespace(s: string)
    requires forall i :: 0 <= i < |s| ==> !IsWhitespace(s[i])
    ensures Trim(s) == s
  {
  }

  predicate IsAsciiLetter(c: char) {
    'a' <= c <= 'z' || 'A' <= c <= 'Z'
  }

  /** The characters of an unsigned decimal literal: digits and at most one
      point, with at least one digit. */
  predicate UnsignedDecimal(u: string) {
    && (exists i :: 0 <= i < |u| && IsDigit(u[i]))
    && (forall i :: 0 <= i < |u| ==> IsDigit(u[i]) || u[i] == '.')
    && (forall i, j :: 0 <= i < j < |u| && u[i] == '.' ==> u[j] != '.')
  }

  /** `!isNaN(s)` on a string: after trimming it is empty or a signed decimal
      literal. Exponents, `Infinity` and the 0x/0o/0b prefixes are not
      recognised; none of them fits in two characters, so the predicate is
      exact for strings of length at most two. */
  predicate IsNumericText(s: string) {
    var t := Trim(s);
    |t| == 0 || SignedDecimal(t)
  }

  /** A decimal literal with an optional leading sign. */
  predicate SignedDecimal(t: string) {
    |t| > 0 && UnsignedDecimal(if t[0] == '+' || t[0] == '-' then t[1..] else t)
  }

  /** `Trim(s)` is a slice of `s` with only whitespace around it. */
  lemma TrimSlice(s: string) returns (off: nat)
    ensures off + |Trim(s)| <= |s| && Trim(s) == s[off..off + |Trim(s)|]
    ensures forall i :: 0 <= i < off ==> IsWhitespace(s[i])
    ensures forall i :: off + |Trim(s)| <= i < |s| ==> IsWhitespace(s[i])
  {
    var p := TrimStart(s);
    TrimStartSpec(s);
    TrimEndSpec(p);
    off := |s| - |p|;
    var t := TrimEnd(p);
    assert t == Trim(s);
    SliceOfSuffix(s, off, |t|);
    forall i | off + |t| <= i < |s|
      ensures IsWhitespace(s[i])
    {
      assert s[i] == p[i - off];
    }
  }

  lemma SliceOfSuffix<T>(s: seq<T>, off: nat, n: nat)
    requires off + n <= |s|
    ensures s[off..][..n] == s[off..off + n]
  {
  }

  /** A signed decimal literal holds no ASCII letter. */
  lemma SignedDecimalHasNoLetters(t: string, k: nat)
    requires SignedDecimal(t) && k < |t|
    ensures !IsAsciiLetter(t[k])
  {
    var signed := t[0] == '+' || t[0] == '-';
    if !(signed && k == 0) {
      var u := if signed then t[1..] else t;
      var k' := if signed then k - 1 else k;
      assert u[k'] == t[k];
      assert IsDigit(u[k']) || u[k'] == '.';
    }
  }

  /** A numeric string holds no ASCII letter (so upper-casing leaves it alone). */
  lemma NumericHasNoLetters(s: string, i: nat)
    requires IsNumericText(s) && i < |s|
    ensures !IsAsciiLetter(s[i])
  {
    var off := TrimSlice(s);
    SliceHasNoLetters(s, Trim(s), off, i);
  }

  /** A string that is a signed decimal literal (or nothing) with only
      whitespace around it holds no ASCII letter. */
  lemma SliceHasNoLetters(s: string, t: string, off: nat, i: nat)
    requires |t| == 0 || SignedDecimal(t)
    requires off + |t| <= |s| && t == s[off..off + |t|]
    requires forall k :: 0 <= k < off ==> IsWhitespace(s[k])
    requires forall k :: off + |t| <= k < |s| ==> IsWhitespace(s[k])
    requires i < |s|
    ensures !IsAsciiLetter(s[i])
  {
    if off <= i < off + |t| {
      assert s[i] == t[i - off];
      SignedDecimalHasNoLetters(t, i - off);
    }
  }

  lemma UpperKeepsNonLetters(s: string)
    requires forall i :: 0 <= i < |s| ==> !IsAsciiLetter(s[i])
    ensures Upper(s) == s
  {
  }

  // ---------------------------------------------------------------- digits

  /** `value.replace(/\D/g, "")`: keep the digits, in order. */
  function StripNonDigits(s: string): (r: string)
    ensures |r| <= |s|
    ensures forall i :: 0 <= i < |r| ==> IsDigit(r[i])
  {
    if s == [] then []
    else if IsDigit(s[0]) then [s[0]] + StripNonDigits(s[1..])
    else StripNonDigits(s[1..])
  }

  lemma {:induction false} StripNonDigitsAppend(a: string, b: string)
    ensures StripNonDigits(a + b) == StripNonDigits(a) + StripNonDigits(b)
  {
    if a != [] {
      assert (a + b)[0] == a[0] && (a + b)[1..] == a[1..] + b;
      StripNonDigitsAppend(a[1..], b);
    } else {
      assert a + b == b;
    }
  }

  /** A string of digits only is left unchanged, so stripping is idempotent. */
  lemma {:induction false} StripNonDigitsFixed(s: string)
    requires forall i :: 0 <= i < |s| ==> IsDigit(s[i])
    ensures StripNonDigits(s) == s
  {
    if s != [] {
      StripNonDigitsFixed(s[1..]);
    }
  }

  // ---------------------------------------------------------------- sequences

  /** `xs.filter(p)`. */
  function Filter<T>(p: T -> bool, xs: seq<T>): (r: seq<T>)
    ensures |r| <= |xs|
    ensures forall i :: 0 <= i < |r| ==> p(r[i])
  {
    if xs == [] then []
    else if p(xs[0]) then [xs[0]] + Filter(p, xs[1..])
    else Filter(p, xs[1..])
  }

  /** Filtering keeps exactly the elements that satisfy the predicate. */
  lemma {:induction false} FilterMembership<T>(p: T -> bool, xs: seq<T>, x: T)
    ensures x in Filter(p, xs) <==> x in xs && p(x)
  {
    if xs != [] {
      FilterMembership(p, xs[1..], x);
      assert xs == [xs[0]] + xs[1..];
    }
  }

  /** `xs` can be obtained from `ys` by deleting elements, keeping the order. */
  predicate IsSubsequence<T(==)>(xs: seq<T>, ys: seq<T>)
    decreases |ys|
  {
    if xs == [] then true
    else if ys == [] then false
    else if xs[0] == ys[0] then IsSubsequence(xs[1..], ys[1..])
    else IsSubsequence(xs, ys[1..])
  }

  lemma {:induction false} FilterIsSubsequence<T>(p: T -> bool, xs: seq<T>)
    ensures IsSubsequence(Filter(p, xs), xs)
  {
    if xs != [] {
      FilterIsSubsequence(p, xs[1..]);
      if !p(xs[0]) {
        SubsequenceOfTail(Filter(p, xs[1..]), xs[1..], xs[0]);
      }
    }
  }

  lemma {:induction false} SubsequenceOfTail<T>(xs: seq<T>, ys: seq<T>, y: T)
    requires IsSubsequence(xs, ys)
    ensures IsSubsequence(xs, [y] + ys)
    decreases |ys|, 1
  {
    if xs != [] && xs[0] == y {
      assert ([y] + ys)[1..] == ys;
      SubsequenceDropHead(xs, ys);
    } else if xs != [] {
      assert ([y] + ys)[1..] == ys;
    }
  }

  lemma {:induction false} SubsequenceDropHead<T>(xs: seq<T>, ys: seq<T>)
    requires xs != [] && IsSubsequence(xs, ys)
    ensures IsSubsequence(xs[1..], ys)
    decreases |ys|, 0
  {
    if xs[0] == ys[0] {
      if xs[1..] != [] {
        SubsequenceOfTail(xs[1..], ys[1..], ys[0]);
        assert [ys[0]] + ys[1..] == ys;
      }
    } else {
      SubsequenceDropHead(xs, ys[1..]);
      if xs[1..] != [] {
        SubsequenceOfTail(xs[1..], ys[1..], ys[0]);
        assert [ys[0]] + ys[1..] == ys;
      }
    }
  }

  /** The position of the first element of `xs` satisfying `p` (`findIndex`). */
  function FirstIndex<T>(p: T -> bool, xs: seq<T>): (r: Option<nat>)
    ensures r.Some? ==> r.value < |xs| && p(xs[r.value])
    ensures r.Some? ==> forall j :: 0 <= j < r.value ==> !p(xs[j])
    ensures r.None? ==> forall j :: 0 <= j < |xs| ==> !p(xs[j])
  {
    if xs == [] then None
    else if p(xs[0]) then Some(0)
    else match FirstIndex(p, xs[1..])
      case Some(i) => Some(i + 1)
      case None => None
  }

  /** The first element of `xs` satisfying `p` (`xs.find(p)`). */
  function Find<T>(p: T -> bool, xs: seq<T>): (r: Option<T>)
    ensures r.Some? ==> r.value in xs && p(r.value)
    ensures r.None? ==> forall i :: 0 <= i < |xs| ==> !p(xs[i])
  {
    if xs == [] then None
    else if p(xs[0]) then Some(xs[0])
    else Find(p, xs[1..])
  }

  /** `Find` returns the first element that satisfies the predicate. */
  lemma {:induction false} FindIsFirst<T>(p: T -> bool, xs: seq<T>, k: nat)
    requires k < |xs| && p(xs[k])
    requires forall j :: 0 <= j < k ==> !p(xs[j])
    ensures Find(p, xs) == Some(xs[k])
  {
    if k > 0 {
      FindIsFirst(p, xs[1..], k - 1);
    }
  }

  // ---------------------------------------------------------------- sequence facts

  lemma AppendEmpty<T>(a: seq<T>, b: seq<T>)
    requires |b| == 0
    ensures a + b == a
  {
  }

  /** The last element of `a + b` and what comes before it, for a non-empty `b`. */
  lemma AppendPrefix<T>(a: seq<T>, b: seq<T>, n: nat)
    requires n == |b| - 1
    ensures (a + b)[..|a + b| - 1] == a + b[..n]
    ensures (a + b)[|a + b| - 1] == b[n]
  {
  }

  lemma AppendAssoc<T>(x: seq<T>, y: seq<T>, z: seq<T>)
    ensures (x + y) + z == x + (y + z)
  {
  }

  lemma SplitAt<T>(xs: seq<T>, k: nat)
    requires k < |xs|
    ensures xs == xs[..k] + ([xs[k]] + xs[k + 1..])
  {
  }

  lemma EmptyAppend<T>(a: seq<T>, b: seq<T>)
    requires |a| == 0
    ensures a + b == b
  {
  }
}
