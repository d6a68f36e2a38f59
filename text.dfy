/**
 * Python string behaviour the tap relies on: the code-point order that `<`, `max` and `min`
 * use on ISO-8601 timestamps, `str.split`, `str(int)` and `int(str)`, `str.upper`,
 * `str.strip`, and the brace depth of a GraphQL text.
 */
module Text {
  import opened Wrappers

  // ---------------------------------------------------------------- ordering

  /** Python's `a < b` on str: code point by code point, a proper prefix is smaller. */
  predicate Lt(a: string, b: string)
    decreases |a|
  {
    if |a| == 0 then |b| > 0
    else if |b| == 0 then false
    else if a[0] != b[0] then a[0] < b[0]
    else Lt(a[1..], b[1..])
  }

  /** Python's `a <= b` on str. */
  predicate Le(a: string, b: string) {
    a == b || Lt(a, b)
  }

  lemma {:induction false} LtIrreflexive(a: string)
    ensures !Lt(a, a)
  {
    if |a| > 0 {
      LtIrreflexive(a[1..]);
    }
  }

  lemma {:induction false} LtTransitive(a: string, b: string, c: string)
    requires Lt(a, b) && Lt(b, c)
    ensures Lt(a, c)
  {
    if |a| > 0 && |b| > 0 && |c| > 0 && a[0] == b[0] && b[0] == c[0] {
      LtTransitive(a[1..], b[1..], c[1..]);
    }
  }

  lemma {:induction false} LtTotal(a: string, b: string)
    ensures a == b || Lt(a, b) || Lt(b, a)
  {
    if |a| > 0 && |b| > 0 && a[0] == b[0] {
      LtTotal(a[1..], b[1..]);
      if a[1..] == b[1..] {
        assert a == [a[0]] + a[1..] && b == [b[0]] + b[1..];
      }
    }
  }

  lemma LtAsymmetric(a: string, b: string)
    requires Lt(a, b)
    ensures !Lt(b, a) && a != b
  {
    LtIrreflexive(a);
    if Lt(b, a) {
      LtTransitive(a, b, a);
    }
  }

  lemma LeTransitive(a: string, b: string, c: string)
    requires Le(a, b) && Le(b, c)
    ensures Le(a, c)
  {
    if a != b && b != c {
      LtTransitive(a, b, c);
    }
  }

  lemma LeAntisymmetric(a: string, b: string)
    requires Le(a, b) && Le(b, a)
    ensures a == b
  {
    if a != b {
      LtAsymmetric(a, b);
    }
  }

  /** The empty string is below every string, so every timestamp passes an empty floor. */
  lemma EmptyIsLeast(a: string)
    ensures Le("", a)
  {
  }

  /** Python's `max(a, b)`: `b` when `b > a`, otherwise `a`. */
  function Max(a: string, b: string): (r: string)
    ensures Le(a, r) && Le(b, r)
    ensures r == a || r == b
  {
    LtTotal(a, b);
    if Lt(a, b) then b else a
  }

  /** Python's `min(a, b)`: `b` when `b < a`, otherwise `a`. */
  function Min(a: string, b: string): (r: string)
    ensures Le(r, a) && Le(r, b)
    ensures r == a || r == b
  {
    LtTotal(a, b);
    if Lt(b, a) then b else a
  }

  // ---------------------------------------------------------------- sorting

  /** Strictly increasing under Python's order (adjacent form). */
  predicate StrictlySorted(xs: seq<string>) {
    forall i :: 0 <= i < |xs| - 1 ==> Lt(xs[i], xs[i + 1])
  }

  lemma {:induction false} StrictlySortedPairwise(xs: seq<string>, i: int, j: int)
    requires StrictlySorted(xs)
    requires 0 <= i < j < |xs|
    ensures Lt(xs[i], xs[j])
    decreases j - i
  {
    if j > i + 1 {
      StrictlySortedPairwise(xs, i + 1, j);
      LtTransitive(xs[i], xs[i + 1], xs[j]);
    }
  }

  function Elems(xs: seq<string>): set<string> {
    set x | x in xs
  }

  /** Insert one key into a strictly sorted list, skipping it when already present. */
  function InsertSorted(x: string, xs: seq<string>): (r: seq<string>)
    requires StrictlySorted(xs)
    ensures StrictlySorted(r)
    ensures Elems(r) == Elems(xs) + {x}
    ensures |r| > 0 && (r[0] == x || (xs != [] && r[0] == xs[0]))
  {
    LtTotal(x, if xs == [] then x else xs[0]);
    if xs == [] then [x]
    else if x == xs[0] then xs
    else if Lt(x, xs[0]) then [x] + xs
    else
      var rest := InsertSorted(x, xs[1..]);
      assert Elems(xs) == {xs[0]} + Elems(xs[1..]);
      assert Elems([xs[0]] + rest) == {xs[0]} + Elems(rest);
      [xs[0]] + rest
  }

  /** Python's `sorted(set(xs))`: the distinct keys of xs in increasing order. */
  function SortedSet(xs: seq<string>): (r: seq<string>)
    ensures StrictlySorted(r)
    ensures Elems(r) == Elems(xs)
  {
    if xs == [] then []
    else
      assert Elems(xs) == {xs[0]} + Elems(xs[1..]);
      InsertSorted(xs[0], SortedSet(xs[1..]))
  }

  /** A strictly sorted list is fixed by its elements: `sorted(set(xs))` has one possible value. */
  lemma {:induction false} StrictlySortedUnique(xs: seq<string>, ys: seq<string>)
    requires StrictlySorted(xs) && StrictlySorted(ys) && Elems(xs) == Elems(ys)
    ensures xs == ys
    decreases |xs|
  {
    ElemsEmpty(xs);
    ElemsEmpty(ys);
    if xs != [] {
      assert xs[0] in Elems(ys) && ys[0] in Elems(xs);
      var i :| 0 <= i < |xs| && xs[i] == ys[0];
      var j :| 0 <= j < |ys| && ys[j] == xs[0];
      if i > 0 && j > 0 {
        StrictlySortedPairwise(xs, 0, i);
        StrictlySortedPairwise(ys, 0, j);
        LtAsymmetric(xs[0], ys[0]);
      }
      assert xs[0] == ys[0] by {
        if i == 0 {
        } else if j == 0 {
        }
      }
      SortedTail(xs);
      SortedTail(ys);
      assert Elems(xs[1..]) == Elems(ys[1..]);
      StrictlySortedUnique(xs[1..], ys[1..]);
      assert xs == [xs[0]] + xs[1..] && ys == [ys[0]] + ys[1..];
    }
  }

  lemma ElemsEmpty(xs: seq<string>)
    ensures Elems(xs) == {} <==> xs == []
  {
    if xs != [] {
      assert xs[0] in Elems(xs);
    }
  }

  /** The tail of a strictly sorted list is sorted and leaves out exactly the head. */
  lemma SortedTail(xs: seq<string>)
    requires StrictlySorted(xs) && xs != []
    ensures StrictlySorted(xs[1..]) && Elems(xs[1..]) == Elems(xs) - {xs[0]}
  {
    forall k | 1 <= k < |xs| ensures xs[k] != xs[0] {
      StrictlySortedPairwise(xs, 0, k);
      LtIrreflexive(xs[0]);
    }
    assert Elems(xs) == {xs[0]} + Elems(xs[1..]);
  }

  // ---------------------------------------------------------------- split and join

  /** Python's `s.split(".")`: never empty; "a..b" gives an empty middle part. */
  function SplitDot(s: string): (r: seq<string>)
    ensures |r| > 0
    ensures forall i :: 0 <= i < |r| ==> '.' !in r[i]
  {
    if s == [] then [""]
    else if s[0] == '.' then [""] + SplitDot(s[1..])
    else
      var rest := SplitDot(s[1..]);
      [[s[0]] + rest[0]] + rest[1..]
  }

  /** Python's `".".join(parts)`. */
  function JoinDot(parts: seq<string>): string
    requires |parts| > 0
  {
    if |parts| == 1 then parts[0] else parts[0] + "." + JoinDot(parts[1..])
  }

  /** Splitting a dotted path and joining it again gives the path back. */
  lemma {:induction false} JoinSplitDot(s: string)
    ensures JoinDot(SplitDot(s)) == s
  {
    if s != [] {
      JoinSplitDot(s[1..]);
      var rest := SplitDot(s[1..]);
      if s[0] == '.' {
        assert SplitDot(s) == [""] + rest;
        assert s == "" + "." + s[1..];
      } else {
        if |rest| == 1 {
          assert s == [s[0]] + rest[0];
        } else {
          assert JoinDot(rest) == rest[0] + "." + JoinDot(rest[1..]);
          assert s == [s[0]] + rest[0] + "." + JoinDot(rest[1..]);
        }
      }
    }
  }

  /** `f"{parent}.{key}" if parent else key`: the dot-path of a key below a parent path. */
  function JoinPath(parent: string, key: string): (r: string)
    ensures parent == "" ==> r == key
    ensures parent != "" ==> r == parent + "." + key
  {
    if parent == "" then key else parent + "." + key
  }

  /** A text without dots does not split. */
  lemma {:induction false} SplitDotNoDot(s: string)
    requires '.' !in s
    ensures SplitDot(s) == [s]
  {
    if s != [] {
      assert '.' !in s[1..] by {
        assert forall c :: c in s[1..] ==> c in s;
      }
      SplitDotNoDot(s[1..]);
      assert [s[0]] + s[1..] == s;
    }
  }

  /** Splitting at the dot between two texts splits each of them. */
  lemma {:induction false} SplitDotJoin(a: string, b: string)
    ensures SplitDot(a + "." + b) == SplitDot(a) + SplitDot(b)
  {
    if a == [] {
      assert a + "." + b == "." + b;
      assert ("." + b)[1..] == b;
    } else {
      var t := a + "." + b;
      assert t[0] == a[0] && t[1..] == a[1..] + "." + b;
      SplitDotJoin(a[1..], b);
      if a[0] != '.' {
        var rest := SplitDot(t[1..]);
        assert rest[0] == SplitDot(a[1..])[0];
        assert rest[1..] == SplitDot(a[1..])[1..] + SplitDot(b);
      }
    }
  }

  /**
   * The full dot-path of a key below a parent path splits into the parent's segments followed
   * by the key, which is how the extra-field tree is walked.
   */
  lemma SplitJoinPath(parent: string, key: string)
    requires '.' !in key
    ensures SplitDot(JoinPath(parent, key)) == (if parent == "" then [key] else SplitDot(parent) + [key])
  {
    SplitDotNoDot(key);
    if parent != "" {
      SplitDotJoin(parent, key);
    }
  }

  // ---------------------------------------------------------------- decimal numbers

  function DigitChar(d: nat): char
    requires d < 10
  {
    "0123456789"[d]
  }

  predicate IsDigit(c: char) {
    '0' <= c <= '9'
  }

  function DigitValue(c: char): (d: nat)
    requires IsDigit(c)
    ensures d < 10
  {
    (c as int - '0' as int) as nat
  }

  /** `str(n)` for a non-negative int. */
  function NatToString(n: nat): (r: string)
    ensures |r| > 0 && forall i :: 0 <= i < |r| ==> IsDigit(r[i])
  {
    if n < 10 then [DigitChar(n)] else NatToString(n / 10) + [DigitChar(n % 10)]
  }

  /** `str(i)` for any int. */
  function IntToString(i: int): string {
    if i < 0 then "-" + NatToString(-i) else NatToString(i)
  }

  function DigitsValue(s: string): nat
    requires forall i :: 0 <= i < |s| ==> IsDigit(s[i])
  {
    if s == [] then 0 else DigitsValue(s[..|s| - 1]) * 10 + DigitValue(s[|s| - 1])
  }

  /**
   * `int(s)` for a string: an optional sign followed by ASCII digits; anything else is the
   * ValueError case.
   */
  function ParseInt(s: string): (r: Option<int>)
    ensures r.Some? ==> |s| > 0
  {
    var body := if |s| > 0 && (s[0] == '-' || s[0] == '+') then s[1..] else s;
    if |body| == 0 || exists i :: 0 <= i < |body| && !IsDigit(body[i]) then None
    else if s[0] == '-' then Some(0 - DigitsValue(body))
    else Some(DigitsValue(body))
  }

  lemma {:induction false} DigitsOfNat(n: nat)
    ensures DigitsValue(NatToString(n)) == n
  {
    var s := NatToString(n);
    if n >= 10 {
      DigitsOfNat(n / 10);
      assert s[..|s| - 1] == NatToString(n / 10);
    }
  }

  /** `int(str(i)) == i`: the decimal text of an int parses back to it. */
  lemma IntRoundTrip(i: int)
    ensures ParseInt(IntToString(i)) == Some(i)
  {
    var s := IntToString(i);
    var n: nat := if i < 0 then -i else i;
    var digits := NatToString(n);
    DigitsOfNat(n);
    if i < 0 {
      assert s[1..] == digits;
    } else {
      assert IsDigit(s[0]);
    }
    var body := if s[0] == '-' || s[0] == '+' then s[1..] else s;
    assert body == digits;
    assert !exists k :: 0 <= k < |body| && !IsDigit(body[k]);
  }

  // ---------------------------------------------------------------- case and whitespace

  /** `s.endswith(t)`. */
  predicate EndsWith(s: string, t: string) {
    |t| <= |s| && s[|s| - |t|..] == t
  }

  function UpperChar(c: char): char {
    if 'a' <= c <= 'z' then (c as int - 32) as char else c
  }

  /** `s.upper()` on ASCII letters. */
  function Upper(s: string): (r: string)
    ensures |r| == |s|
    ensures forall i :: 0 <= i < |s| ==> r[i] == UpperChar(s[i])
  {
    if s == [] then [] else [UpperChar(s[0])] + Upper(s[1..])
  }

  /** A string without lower-case ASCII letters is its own upper case. */
  lemma UpperIdle(s: string)
    requires forall i :: 0 <= i < |s| ==> !('a' <= s[i] <= 'z')
    ensures Upper(s) == s
  {
    var r := Upper(s);
    assert forall i :: 0 <= i < |s| ==> r[i] == s[i];
  }

  /** The characters for which Python's `str.isspace()` holds. */
  predicate IsSpace(c: char) {
    '\t' <= c <= '\r' || '\U{1c}' <= c <= ' ' || c == '\U{85}' || c == '\U{a0}' || c == '\U{1680}'
    || '\U{2000}' <= c <= '\U{200a}' || c == '\U{2028}' || c == '\U{2029}' || c == '\U{202f}'
    || c == '\U{205f}' || c == '\U{3000}'
  }

  /** `not s.strip()`: the text is empty once surrounding whitespace is removed. */
  predicate IsBlank(s: string) {
    forall i :: 0 <= i < |s| ==> IsSpace(s[i])
  }

  /** `" " * n`. */
  function Spaces(n: nat): (r: string)
    ensures |r| == n && IsBlank(r)
    ensures forall i :: 0 <= i < n ==> r[i] == ' '
  {
    if n == 0 then "" else " " + Spaces(n - 1)
  }

  // ---------------------------------------------------------------- brace depth

  function BraceStep(c: char): int {
    if c == '{' then 1 else if c == '}' then -1 else 0
  }

  /** Opening minus closing braces in s. */
  function Net(s: string): int {
    if s == [] then 0 else BraceStep(s[0]) + Net(s[1..])
  }

  /** The lowest brace depth reached while reading s from the left, starting at depth 0. */
  function Low(s: string): (r: int)
    ensures r <= 0
  {
    if s == [] then 0 else var d := BraceStep(s[0]) + Low(s[1..]); if d < 0 then d else 0
  }

  /** Every brace closes one opened before it, and all are closed at the end. */
  predicate Balanced(s: string) {
    Net(s) == 0 && Low(s) == 0
  }

  predicate BraceFree(s: string) {
    '{' !in s && '}' !in s
  }

  lemma {:induction false} BraceFreeFlat(s: string)
    requires BraceFree(s)
    ensures Net(s) == 0 && Low(s) == 0
  {
    if s != [] {
      assert s[1..] == s[1..] && forall c :: c in s[1..] ==> c in s;
      BraceFreeFlat(s[1..]);
    }
  }

  lemma {:induction false} NetAppend(a: string, b: string)
    ensures Net(a + b) == Net(a) + Net(b)
  {
    if a != [] {
      assert (a + b)[0] == a[0] && (a + b)[1..] == a[1..] + b;
      NetAppend(a[1..], b);
    } else {
      assert a + b == b;
    }
  }

  lemma {:induction false} LowAppend(a: string, b: string)
    ensures Low(a + b) == (var t := Net(a) + Low(b); if t < Low(a) then t else Low(a))
  {
    if a != [] {
      assert (a + b)[0] == a[0] && (a + b)[1..] == a[1..] + b;
      NetAppend(a[1..], b);
      LowAppend(a[1..], b);
    } else {
      assert a + b == b;
    }
  }

  lemma BalancedAppend(a: string, b: string)
    requires Balanced(a) && Balanced(b)
    ensures Balanced(a + b)
  {
    NetAppend(a, b);
    LowAppend(a, b);
  }

  /** Wrapping a balanced text in `{` ... `}` between brace-free texts keeps it balanced. */
  lemma Wrap(pre: string, body: string, post: string)
    requires BraceFree(pre) && BraceFree(post) && Balanced(body)
    ensures Balanced(pre + "{" + body + post + "}")
  {
    BraceFreeFlat(pre);
    BraceFreeFlat(post);
    var open := pre + "{";
    NetAppend(pre, "{");
    LowAppend(pre, "{");
    NetAppend(open, body);
    LowAppend(open, body);
    NetAppend(open + body, post);
    LowAppend(open + body, post);
    NetAppend(open + body + post, "}");
    LowAppend(open + body + post, "}");
  }

  /** n closing braces. */
  function Closing(n: nat): (r: string)
    ensures Net(r) == 0 - n && Low(r) == 0 - n
  {
    if n == 0 then "" else "}" + Closing(n - 1)
  }
}
