/**
 * The few JavaScript value semantics the map core depends on: `undefined`
 * (as Option), numbers that may be NaN, truthiness, and the string
 * operations used to build marker keys.
 */
module Js {

  datatype Option<+T> = None | Some(value: T) {
    function GetOr(default: T): T {
      if Some? then value else default
    }
  }

  datatype Result<+T> = Ok(value: T) | Err

  /** A JavaScript number as the core reads it: NaN or a finite value. */
  datatype Num = NaN | Fin(v: real)

  /** `!n`: true for 0 and for NaN. */
  predicate Falsy(n: Num) {
    n == NaN || n == Fin(0.0)
  }

  /** `lo <= n && n <= hi`; every comparison with NaN is false. */
  predicate Within(n: Num, lo: real, hi: real) {
    n.Fin? && lo <= n.v <= hi
  }

  /** `!s` for an optional string: undefined, null and "" are falsy. */
  predicate FalsyString(s: Option<string>) {
    s == None || s == Some("")
  }

  /** `!x` for an optional number: undefined and 0 are falsy. */
  predicate FalsyReal(x: Option<real>) {
    x == None || x == Some(0.0)
  }

  // ---------------------------------------------------------------------
  // Number to string (integers only: every number the core prints is one)

  function DigitChar(d: nat): (c: char)
    requires d < 10
    ensures '0' <= c <= '9'
  {
    "0123456789"[d]
  }

  /** Decimal digits of a natural number, as `n.toString()`. */
  function NatToString(n: nat): (s: string)
    ensures |s| >= 1
    ensures forall i :: 0 <= i < |s| ==> '0' <= s[i] <= '9'
    decreases n
  {
    if n < 10 then [DigitChar(n)] else NatToString(n / 10) + [DigitChar(n % 10)]
  }

  function IntToString(n: int): (s: string)
    ensures |s| >= 1
  {
    if n < 0 then "-" + NatToString(-n) else NatToString(n)
  }

  // ---------------------------------------------------------------------
  // String operations of the substation marker key

  /** The characters matched by the regular-expression class `\s`. */
  predicate IsSpace(c: char) {
    c == ' ' || c == '\t' || c == '\n' || c == '\r' || c == '\U{B}' || c == '\U{C}'
    || c == '\U{A0}' || c == '\U{1680}' || ('\U{2000}' <= c <= '\U{200A}')
    || c == '\U{2028}' || c == '\U{2029}' || c == '\U{202F}' || c == '\U{205F}'
    || c == '\U{3000}' || c == '\U{FEFF}'
  }

  predicate NoSpaces(s: string) {
    forall i :: 0 <= i < |s| ==> !IsSpace(s[i])
  }

  /** `s` without its leading run of whitespace. */
  function DropSpaces(s: string): (r: string)
    ensures |r| <= |s| && r == s[|s| - |r|..]
    ensures r == [] || !IsSpace(r[0])
    ensures s != [] && IsSpace(s[0]) ==> |r| < |s|
  {
    if s != [] && IsSpace(s[0]) then DropSpaces(s[1..]) else s
  }

  /** `s.replace(/\s+/g, '-')`: every maximal run of whitespace becomes one '-'. */
  function ReplaceSpaceRuns(s: string): (r: string)
    ensures NoSpaces(r)
    ensures |r| <= |s|
    decreases |s|
  {
    if s == [] then []
    else if IsSpace(s[0]) then "-" + ReplaceSpaceRuns(DropSpaces(s))
    else [s[0]] + ReplaceSpaceRuns(s[1..])
  }

  /** A string without whitespace is left as it is by the replacement. */
  lemma {:induction false} ReplaceSpaceRunsNoSpaces(s: string)
    requires NoSpaces(s)
    ensures ReplaceSpaceRuns(s) == s
    decreases |s|
  {
    if s != [] {
      assert NoSpaces(s[1..]) by {
        forall i | 0 <= i < |s[1..]| ensures !IsSpace(s[1..][i]) {
          assert s[1..][i] == s[i + 1];
        }
      }
      ReplaceSpaceRunsNoSpaces(s[1..]);
    }
  }

  function LowerChar(c: char): (r: char)
    ensures !IsSpace(c) ==> !IsSpace(r)
  {
    if 'A' <= c <= 'Z' then (c as int - 'A' as int + 'a' as int) as char else c
  }

  function UpperChar(c: char): char {
    if 'a' <= c <= 'z' then (c as int - 'a' as int + 'A' as int) as char else c
  }

  /** `s.toLowerCase()` on the ASCII letters. */
  function Lower(s: string): (r: string)
    ensures |r| == |s|
    ensures forall i :: 0 <= i < |s| ==> r[i] == LowerChar(s[i])
  {
    seq(|s|, i requires 0 <= i < |s| => LowerChar(s[i]))
  }

  /** `s.charAt(0).toUpperCase() + s.slice(1)` on the ASCII letters. */
  function Capitalize(s: string): (r: string)
    ensures |r| == |s|
    ensures s != [] ==> r[0] == UpperChar(s[0]) && r[1..] == s[1..]
  {
    if s == [] then s else [UpperChar(s[0])] + s[1..]
  }
}

/** Sequence helpers: order-preserving subsequences and membership counts. */
module Seqs {

  /** `a` is `b` with some elements left out, order kept. */
  predicate Subsequence<T(==)>(a: seq<T>, b: seq<T>)
    decreases |b|
  {
    if a == [] then true
    else if b == [] then false
    else (a[0] == b[0] && Subsequence(a[1..], b[1..])) || Subsequence(a, b[1..])
  }

  lemma {:induction false} SubsequenceMembers<T>(a: seq<T>, b: seq<T>)
    requires Subsequence(a, b)
    ensures forall x :: x in a ==> x in b
    decreases |b|
  {
    if a != [] && b != [] {
      if a[0] == b[0] && Subsequence(a[1..], b[1..]) {
        SubsequenceMembers(a[1..], b[1..]);
        assert forall x :: x in a ==> x == a[0] || x in a[1..];
      } else {
        SubsequenceMembers(a, b[1..]);
      }
    }
  }

  lemma {:induction false} SubsequenceOfSelf<T>(a: seq<T>)
    ensures Subsequence(a, a)
    decreases |a|
  {
    if a != [] { SubsequenceOfSelf(a[1..]); }
  }

  /**
   * A run of conditional `push`es: each element of `fs`, in order, is
   * pushed when `holds` says so.
   */
  function Pushed<T>(fs: seq<T>, holds: T -> bool): seq<T>
    decreases |fs|
  {
    if fs == [] then []
    else
      var last := fs[|fs| - 1];
      Pushed(fs[..|fs| - 1], holds) + (if holds(last) then [last] else [])
  }

  lemma {:induction false} PushedMembers<T>(fs: seq<T>, holds: T -> bool)
    ensures forall x :: x in Pushed(fs, holds) <==> x in fs && holds(x)
    decreases |fs|
  {
    if fs != [] {
      PushedMembers(fs[..|fs| - 1], holds);
      assert fs == fs[..|fs| - 1] + [fs[|fs| - 1]];
    }
  }

  /** One more conditional `push` at the end. */
  lemma PushedSnoc<T>(fs: seq<T>, x: T, holds: T -> bool)
    ensures Pushed(fs + [x], holds) == Pushed(fs, holds) + (if holds(x) then [x] else [])
  {
    assert (fs + [x])[..|fs|] == fs;
  }

  /** Pushing from two lists one after the other. */
  lemma {:induction false} PushedConcat<T>(fs: seq<T>, gs: seq<T>, holds: T -> bool)
    ensures Pushed(fs + gs, holds) == Pushed(fs, holds) + Pushed(gs, holds)
    decreases |gs|
  {
    if gs == [] {
      assert fs + gs == fs;
    } else {
      var front := gs[..|gs| - 1];
      PushedConcat(fs, front, holds);
      assert (fs + gs)[..|fs + gs| - 1] == fs + front;
    }
  }

  /** The elements have strictly increasing ranks, so none repeats. */
  predicate OrderedBy<T>(s: seq<T>, rank: T -> nat) {
    forall i, j :: 0 <= i < j < |s| ==> rank(s[i]) < rank(s[j])
  }

  /** Pushing from an ordered list keeps the order. */
  lemma {:induction false} PushedOrdered<T>(fs: seq<T>, holds: T -> bool, rank: T -> nat)
    requires OrderedBy(fs, rank)
    ensures OrderedBy(Pushed(fs, holds), rank)
    ensures forall x :: x in Pushed(fs, holds) ==> x in fs
    decreases |fs|
  {
    if fs != [] {
      var front := fs[..|fs| - 1];
      PushedOrdered(front, holds, rank);
      assert forall x :: x in front ==> rank(x) < rank(fs[|fs| - 1]);
    }
  }

  /** An ordered list whose only possible element is `x` is empty or `[x]`. */
  lemma OrderedAtMostOne<T>(s: seq<T>, x: T, rank: T -> nat)
    requires OrderedBy(s, rank)
    requires forall y :: y in s ==> y == x
    ensures s == [] || s == [x]
  {
    if |s| >= 2 {
      FirstTwoDistinct(s, rank);
      assert false;
    } else if |s| == 1 {
      assert s[0] in s;
    }
  }

  /** The first two elements of an ordered list are two different members. */
  lemma FirstTwoDistinct<T>(s: seq<T>, rank: T -> nat)
    requires OrderedBy(s, rank)
    requires |s| >= 2
    ensures s[0] in s && s[1] in s && s[0] != s[1]
  {
    assert rank(s[0]) < rank(s[1]);
  }

  /** Two ordered lists, every rank of the first below every rank of the second, join into an ordered list. */
  lemma ConcatOrdered<T>(s: seq<T>, u: seq<T>, rank: T -> nat)
    requires OrderedBy(s, rank) && OrderedBy(u, rank)
    requires forall x, y :: x in s && y in u ==> rank(x) < rank(y)
    ensures OrderedBy(s + u, rank)
  {
    forall i, j | 0 <= i < j < |s + u|
      ensures rank((s + u)[i]) < rank((s + u)[j])
    {
      if j < |s| {
      } else if i < |s| {
        assert (s + u)[i] == s[i] && s[i] in s;
        assert (s + u)[j] == u[j - |s|] && u[j - |s|] in u;
      }
    }
  }
}
