/** Value-level helpers shared by every component: optional values, the
    `{ data, error }` pair a backend query resolves to, the JavaScript
    library operations the components use (`filter`, `trim`, `toLowerCase`,
    `split(..).pop()`, `split(..)[0]`, number-to-string), and JavaScript
    truthiness of optional strings. */
module Common {

  datatype Option<T> = None | Some(value: T)

  /** What a backend query resolves to: rows, `data: null` without an error,
      or an error object carrying its message. */
  datatype Reply<T> = Data(value: T) | NullData | Failure(message: string)

  /** An awaited call that either returns a value or throws. */
  datatype Result<T> = Ok(value: T) | Err(message: string)

  /** JavaScript truthiness of a `string | null` value: null and "" are falsy. */
  predicate Truthy(s: Option<string>) {
    s.Some? && s.value != ""
  }

  /** `s || fallback` on a `string | null` value. */
  function OrElse(s: Option<string>, fallback: string): (r: string)
    ensures Truthy(s) ==> r == s.value
    ensures !Truthy(s) ==> r == fallback
  {
    if Truthy(s) then s.value else fallback
  }

  // ---------------------------------------------------------------------
  // Array.prototype.filter

  /** The elements of `s` that satisfy `p`, in their original order. */
  function Filter<T>(p: T -> bool, s: seq<T>): (r: seq<T>)
    ensures |r| <= |s|
    ensures forall i :: 0 <= i < |r| ==> r[i] in s && p(r[i])
    ensures forall i :: 0 <= i < |s| && p(s[i]) ==> s[i] in r
  {
    if s == [] then [] else (if p(s[0]) then [s[0]] else []) + Filter(p, s[1..])
  }

  /** Filtering distributes over concatenation: the kept elements stay in the
      order they had. */
  lemma {:induction false} FilterAppend<T>(p: T -> bool, a: seq<T>, b: seq<T>)
    ensures Filter(p, a + b) == Filter(p, a) + Filter(p, b)
  {
    if a == [] {
      assert a + b == b;
    } else {
      assert (a + b)[0] == a[0];
      assert (a + b)[1..] == a[1..] + b;
      FilterAppend(p, a[1..], b);
    }
  }

  /** Filtering keeps every occurrence of an element that passes and drops
      every occurrence of one that fails. */
  lemma {:induction false} FilterMultiset<T>(p: T -> bool, s: seq<T>, x: T)
    ensures multiset(Filter(p, s))[x] == if p(x) then multiset(s)[x] else 0
  {
    if s != [] {
      var t := s[1..];
      var head := if p(s[0]) then [s[0]] else [];
      FilterMultiset(p, t, x);
      assert s == [s[0]] + t;
      assert Filter(p, s) == head + Filter(p, t);
      assert multiset(Filter(p, s)) == multiset(head) + multiset(Filter(p, t));
      assert multiset(s) == multiset{s[0]} + multiset(t);
    }
  }

  /** An element the filter drops at the front leaves no trace. */
  lemma FilterSkipsDropped<T>(p: T -> bool, x: T, s: seq<T>)
    requires !p(x)
    ensures Filter(p, [x] + s) == Filter(p, s)
  {
    assert ([x] + s)[1..] == s;
  }

  /** Moving an element the filter drops does not change what it keeps. */
  lemma FilterMoveDropped<T>(p: T -> bool, a: seq<T>, x: T, b: seq<T>)
    requires !p(x)
    ensures Filter(p, [x] + a + b) == Filter(p, a + [x] + b)
  {
    assert [x] + a + b == [x] + (a + b);
    assert a + [x] + b == a + ([x] + b);
    FilterSkipsDropped(p, x, a + b);
    FilterSkipsDropped(p, x, b);
    FilterAppend(p, a, b);
    FilterAppend(p, a, [x] + b);
  }

  /** A filter that every element passes returns its input. */
  lemma {:induction false} FilterKeepsAll<T>(p: T -> bool, s: seq<T>)
    requires forall i :: 0 <= i < |s| ==> p(s[i])
    ensures Filter(p, s) == s
  {
    if s != [] {
      FilterKeepsAll(p, s[1..]);
    }
  }

  // ---------------------------------------------------------------------
  // Array.prototype.findIndex / indexOf

  /** The position of the first `x` in `s`, or -1. */
  function IndexOf<T(==)>(s: seq<T>, x: T): (r: int)
    ensures -1 <= r < |s|
    ensures r >= 0 ==> s[r] == x && forall k :: 0 <= k < r ==> s[k] != x
    ensures r == -1 <==> x !in s
  {
    if s == [] then -1
    else if s[0] == x then 0
    else var r := IndexOf(s[1..], x); if r == -1 then -1 else r + 1
  }

  /** Appending an element does not move the first occurrence of anything
      already present, and a new element is found at the end. */
  lemma IndexOfAppend<T>(s: seq<T>, y: T, x: T)
    ensures IndexOf(s + [y], x) ==
      if x in s then IndexOf(s, x) else if x == y then |s| else -1
  {
    var t := s + [y];
    var r := IndexOf(t, x);
    if x in s {
      var i := IndexOf(s, x);
      assert t[i] == x;
      assert r <= i;
      assert r >= 0 && t[r] == s[r];
    } else if x == y {
      assert t[|s|] == x;
    }
  }

  // ---------------------------------------------------------------------
  // Array.from(new Set(s))

  /** No element occurs twice. */
  predicate Distinct<T(==)>(s: seq<T>) {
    forall i, j :: 0 <= i < j < |s| ==> s[i] != s[j]
  }

  /** The elements of `s` in order of first occurrence, each once: what a
      `Set` built from `s` yields when iterated. */
  function Dedupe<T(==,!new)>(s: seq<T>): (r: seq<T>)
    ensures Distinct(r)
    ensures forall x :: x in r <==> x in s
    ensures |r| <= |s|
  {
    if s == [] then []
    else
      var d := Dedupe(s[..|s| - 1]);
      assert forall x :: x in s <==> x in s[..|s| - 1] || x == s[|s| - 1] by {
        assert s == s[..|s| - 1] + [s[|s| - 1]];
      }
      if s[|s| - 1] in d then d else d + [s[|s| - 1]]
  }

  // ---------------------------------------------------------------------
  // String.prototype.trim

  /** ECMAScript WhiteSpace and LineTerminator code points, the set `trim`
      removes. */
  predicate IsSpace(c: char) {
    c == ' ' || c == '\t' || c == '\n' || c == '\r' || c == '\U{000B}' || c == '\U{000C}'
    || c == '\U{00A0}' || c == '\U{1680}' || ('\U{2000}' <= c <= '\U{200A}')
    || c == '\U{2028}' || c == '\U{2029}' || c == '\U{202F}' || c == '\U{205F}'
    || c == '\U{3000}' || c == '\U{FEFF}'
  }

  predicate AllSpace(s: string) {
    forall k :: 0 <= k < |s| ==> IsSpace(s[k])
  }

  function TrimStart(s: string): (r: string)
    ensures |r| <= |s| && r == s[|s| - |r|..]
    ensures r != [] ==> !IsSpace(r[0])
    ensures AllSpace(s[..|s| - |r|])
  {
    if s != [] && IsSpace(s[0]) then TrimStart(s[1..]) else s
  }

  function TrimEnd(s: string): (r: string)
    ensures |r| <= |s| && r == s[..|r|]
    ensures r != [] ==> !IsSpace(r[|r| - 1])
    ensures AllSpace(s[|r|..])
  {
    if s != [] && IsSpace(s[|s| - 1]) then TrimEnd(s[..|s| - 1]) else s
  }

  /** `s.trim()`: the text between the leading and the trailing white space. */
  function Trim(s: string): (r: string)
    ensures |r| <= |s|
    ensures r != [] ==> !IsSpace(r[0]) && !IsSpace(r[|r| - 1])
  {
    var t := TrimStart(s);
    var r := TrimEnd(t);
    assert r != [] ==> r[0] == t[0];
    r
  }

  /** A trimmed string is empty exactly when the input is all white space. */
  lemma TrimEmptyIff(s: string)
    ensures Trim(s) == [] <==> AllSpace(s)
  {
    var t := TrimStart(s);
    var r := TrimEnd(t);
    assert s == s[..|s| - |t|] + t;
    if t != [] {
      assert t[0] == s[|s| - |t|];
    }
    if r == [] {
      assert t[|r|..] == t;
      assert t == [];
      assert s == s[..|s| - |t|];
    }
  }

  /** Trimming twice is trimming once. */
  lemma TrimIdempotent(s: string)
    ensures Trim(Trim(s)) == Trim(s)
  {
    var r := Trim(s);
    assert TrimStart(r) == r;
    assert TrimEnd(r) == r;
  }

  // ---------------------------------------------------------------------
  // String.prototype.toLowerCase, restricted to ASCII

  function LowerChar(c: char): (r: char)
    ensures 'A' <= c <= 'Z' ==> 'a' <= r <= 'z' && r as int == c as int + 32
    ensures !('A' <= c <= 'Z') ==> r == c
  {
    if 'A' <= c <= 'Z' then (c as int + 32) as char else c
  }

  /** `s.toLowerCase()` on ASCII letters; every other character is kept. */
  function LowerAscii(s: string): (r: string)
    ensures |r| == |s|
    ensures forall i :: 0 <= i < |s| ==> r[i] == LowerChar(s[i])
  {
    seq(|s|, i requires 0 <= i < |s| => LowerChar(s[i]))
  }

  // ---------------------------------------------------------------------
  // Splitting on one separator

  /** `s.split(sep).pop()`: the text after the last `sep`, or all of `s`
      when it has none. */
  function LastSegment(s: string, sep: char): (r: string)
    ensures |r| <= |s| && r == s[|s| - |r|..]
    ensures sep !in r
    ensures |r| < |s| ==> s[|s| - |r| - 1] == sep
  {
    if s == [] then []
    else if s[|s| - 1] == sep then []
    else LastSegment(s[..|s| - 1], sep) + [s[|s| - 1]]
  }

  /** The text after a separator that is followed by no other one is the
      last segment. */
  lemma {:induction false} LastSegmentAfter(a: string, sep: char, b: string)
    requires sep !in b
    ensures LastSegment(a + [sep] + b, sep) == b
  {
    var s := a + [sep] + b;
    if b == [] {
      assert s[|s| - 1] == sep;
    } else {
      assert s[..|s| - 1] == a + [sep] + b[..|b| - 1];
      assert s[|s| - 1] == b[|b| - 1];
      LastSegmentAfter(a, sep, b[..|b| - 1]);
      assert b == b[..|b| - 1] + [b[|b| - 1]];
    }
  }

  /** `s.split(sep)[0]`: the text before the first `sep`, or all of `s` when
      it has none. */
  function FirstSegment(s: string, sep: char): (r: string)
    ensures |r| <= |s| && r == s[..|r|]
    ensures sep !in r
    ensures |r| < |s| ==> s[|r|] == sep
  {
    if s == [] || s[0] == sep then [] else [s[0]] + FirstSegment(s[1..], sep)
  }

  /** Text without the separator, followed by the separator, is the first
      segment. */
  lemma {:induction false} FirstSegmentBefore(a: string, sep: char, b: string)
    requires sep !in a
    ensures FirstSegment(a + [sep] + b, sep) == a
  {
    var s := a + [sep] + b;
    if a != [] {
      assert s[1..] == a[1..] + [sep] + b;
      FirstSegmentBefore(a[1..], sep, b);
    }
  }

  /** `s.startsWith(prefix)`. */
  predicate StartsWith(s: string, prefix: string) {
    |prefix| <= |s| && s[..|prefix|] == prefix
  }

  // ---------------------------------------------------------------------
  // Number.prototype.toString on non-negative integers

  function Digit(d: nat): (c: char)
    requires d < 10
    ensures '0' <= c <= '9'
  {
    "0123456789"[d]
  }

  predicate IsDigits(s: string) {
    forall k :: 0 <= k < |s| ==> '0' <= s[k] <= '9'
  }

  /** Decimal rendering of a millisecond timestamp or an array index. */
  function NatToString(n: nat): (r: string)
    ensures |r| > 0 && IsDigits(r)
    ensures n >= 10 ==> |r| >= 2
  {
    if n < 10 then [Digit(n)] else NatToString(n / 10) + [Digit(n % 10)]
  }

  /** A string of digits holds no separator that is not a digit. */
  lemma DigitsLackSeparator(s: string, sep: char)
    requires IsDigits(s) && !('0' <= sep <= '9')
    ensures sep !in s
  {
    assert forall k :: 0 <= k < |s| ==> s[k] != sep;
  }

  lemma DigitInjective(a: nat, b: nat)
    requires a < 10 && b < 10 && Digit(a) == Digit(b)
    ensures a == b
  {
  }

  /** Different numbers render as different strings. */
  lemma {:induction false} NatToStringInjective(a: nat, b: nat)
    requires NatToString(a) == NatToString(b)
    ensures a == b
  {
    var sa, sb := NatToString(a), NatToString(b);
    if a < 10 && b < 10 {
      DigitInjective(a, b);
    } else if a >= 10 && b >= 10 {
      assert sa[|sa| - 1] == sb[|sb| - 1];
      DigitInjective(a % 10, b % 10);
      assert sa[..|sa| - 1] == NatToString(a / 10);
      assert sb[..|sb| - 1] == NatToString(b / 10);
      NatToStringInjective(a / 10, b / 10);
    }
  }
}
