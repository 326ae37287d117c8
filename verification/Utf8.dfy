/** Well-formed UTF-8 over byte strings, the order Go compares strings by, and the bounded
    truncation a rejection reason goes through. */
module Utf8 {
  import opened Common

  type Text = seq<byte>

  // ---------------------------------------------------------------- order

  /** Bytewise lexicographic order. */
  predicate Leq(a: Text, b: Text) {
    a == [] || (b != [] && (a[0] < b[0] || (a[0] == b[0] && Leq(a[1..], b[1..]))))
  }

  predicate Less(a: Text, b: Text) {
    Leq(a, b) && a != b
  }

  lemma {:induction false} LeqTotal(a: Text, b: Text)
    ensures Leq(a, b) || Leq(b, a)
  {
    if a != [] && b != [] && a[0] == b[0] {
      LeqTotal(a[1..], b[1..]);
    }
  }

  lemma {:induction false} LeqAntisymmetric(a: Text, b: Text)
    requires Leq(a, b) && Leq(b, a)
    ensures a == b
  {
    if a != [] {
      LeqAntisymmetric(a[1..], b[1..]);
      assert a == [a[0]] + a[1..] && b == [b[0]] + b[1..];
    }
  }

  lemma {:induction false} LeqTransitive(a: Text, b: Text, c: Text)
    requires Leq(a, b) && Leq(b, c)
    ensures Leq(a, c)
  {
    if a != [] && a[0] == b[0] == c[0] {
      LeqTransitive(a[1..], b[1..], c[1..]);
    }
  }

  lemma LeqReflexive(a: Text)
    ensures Leq(a, a)
  {
    LeqTotal(a, a);
  }

  // ---------------------------------------------------------------- runes

  predicate Between(s: Text, i: nat, lo: int, hi: int) {
    i < |s| && lo <= s[i] as int <= hi
  }

  predicate Tail(s: Text, i: nat) {
    Between(s, i, 0x80, 0xBF)
  }

  /** The length of the well-formed rune s starts with, or 0. */
  function RuneLen(s: Text): (n: nat)
    ensures n <= 4 && n <= |s|
  {
    if Between(s, 0, 0x00, 0x7F) then 1
    else if Between(s, 0, 0xC2, 0xDF) && Tail(s, 1) then 2
    else if ThreeByte(s) then 3
    else if FourByte(s) then 4
    else 0
  }

  /** No overlong form and no surrogate. */
  predicate ThreeByte(s: Text) {
    && Between(s, 0, 0xE0, 0xEF)
    && Between(s, 1, if s[0] == 0xE0 then 0xA0 else 0x80, if s[0] == 0xED then 0x9F else 0xBF)
    && Tail(s, 2)
  }

  /** No overlong form and nothing past U+10FFFF. */
  predicate FourByte(s: Text) {
    && Between(s, 0, 0xF0, 0xF4)
    && Between(s, 1, if s[0] == 0xF0 then 0x90 else 0x80, if s[0] == 0xF4 then 0x8F else 0xBF)
    && Tail(s, 2)
    && Tail(s, 3)
  }

  predicate Valid(s: Text)
    decreases |s|
  {
    s == [] || (RuneLen(s) > 0 && Valid(s[RuneLen(s)..]))
  }

  /** A rune is decided by its own bytes. */
  lemma RuneOfPrefix(s: Text, k: nat)
    requires k <= |s|
    ensures RuneLen(s[..k]) == if RuneLen(s) <= k then RuneLen(s) else 0
  {
    var p := s[..k];
    assert forall i :: 0 <= i < k ==> p[i] == s[i];
  }

  /** A non-empty prefix can be well-formed exactly when the text opens with a whole rune. */
  lemma ValidPrefixNeedsARune(s: Text, k: nat)
    requires 0 < k <= |s| && Valid(s[..k])
    ensures RuneLen(s) > 0
  {
    RuneOfPrefix(s, k);
  }

  lemma FirstRuneIsValid(s: Text)
    requires RuneLen(s) > 0
    ensures Valid(s[..RuneLen(s)])
  {
    var n := RuneLen(s);
    RuneOfPrefix(s, n);
    assert s[..n][n..] == [];
  }

  /** In well-formed text a rune boundary lies at most three bytes before any cut. */
  lemma {:induction false} BoundaryNearCut(s: Text, cut: nat) returns (k: nat)
    requires Valid(s) && cut <= |s|
    ensures k <= cut <= k + 3 && Valid(s[..k])
    decreases |s|
  {
    var n := RuneLen(s);
    if cut < n || s == [] {
      k := 0;
    } else {
      var rest := BoundaryNearCut(s[n..], cut - n);
      k := n + rest;
      RuneOfPrefix(s, k);
      assert s[..k][n..] == s[n..][..rest];
    }
  }

  // ---------------------------------------------------------------- truncation

  /** The longest well-formed prefix of at most `bound` bytes, or the text itself when it
      already fits. */
  predicate Truncated(s: Text, bound: nat, r: Text) {
    if |s| <= bound then r == s
    else
      && |r| <= bound && r == s[..|r|] && Valid(r)
      && forall k :: |r| < k <= bound ==> !Valid(s[..k])
  }

  method Truncate(s: Text, bound: nat) returns (r: Text)
    ensures Truncated(s, bound, r)
  {
    if |s| <= bound {
      return s;
    }
    r := s[..bound];
    while |r| > 0 && !Valid(r)
      invariant |r| <= bound && r == s[..|r|]
      invariant forall k :: |r| < k <= bound ==> !Valid(s[..k])
    {
      var n := |r| - 1;
      assert s[..|r|][..n] == s[..n];
      r := r[..n];
    }
  }

  /** The cut leaves nothing exactly when the text is too long and does not open with a
      whole rune, or is empty. */
  lemma TruncatedToNothing(s: Text, bound: nat, r: Text)
    requires Truncated(s, bound, r) && bound >= 4
    ensures r == [] <==> s == [] || (|s| > bound && RuneLen(s) == 0)
  {
    if |s| > bound {
      if RuneLen(s) > 0 {
        FirstRuneIsValid(s);
        assert RuneLen(s) <= bound;
      } else if r != [] {
        ValidPrefixNeedsARune(s, |r|);
      }
    }
  }

  /** Well-formed text stays well-formed and loses at most three bytes to the cut. */
  lemma ValidTextKeepsItsHead(s: Text, bound: nat, r: Text)
    requires Truncated(s, bound, r) && Valid(s)
    ensures Valid(r)
    ensures |s| > bound ==> bound <= |r| + 3
  {
    if |s| > bound {
      var k := BoundaryNearCut(s, bound);
      assert Valid(s[..k]);
    }
  }
}
