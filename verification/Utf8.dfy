// UTF-8 as section 4 of RFC 3629 defines it, and character boundaries.

module Utf8 {
  type byte = b: int | 0 <= b < 256

  predicate IsTail(b: byte) { 0x80 <= b <= 0xBF }

  /** The length the scanner reads off a leading byte. */
  function LengthOf(b: byte): (n: nat)
    ensures 1 <= n <= 4
  {
    if b <= 0x7F then 1 else if 0xC0 <= b <= 0xDF then 2 else if 0xE0 <= b <= 0xEF then 3 else 4
  }

  /** The second byte, whose range depends on the first. */
  predicate SecondFits(first: byte, second: byte) {
    if first == 0xE0 then 0xA0 <= second <= 0xBF
    else if first == 0xED then 0x80 <= second <= 0x9F
    else if first == 0xF0 then 0x90 <= second <= 0xBF
    else if first == 0xF4 then 0x80 <= second <= 0x8F
    else IsTail(second)
  }

  /** One character, no longer than the text. */
  predicate CharAt(s: seq<byte>, i: nat)
    requires i < |s|
  {
    var n := LengthOf(s[i]);
    && (s[i] <= 0x7F || 0xC2 <= s[i] <= 0xF4)
    && i + n <= |s|
    && (n > 1 ==> SecondFits(s[i], s[i + 1]))
    && (n > 2 ==> IsTail(s[i + 2]))
    && (n > 3 ==> IsTail(s[i + 3]))
  }

  /** The text from `i` on is a sequence of characters. */
  predicate ValidFrom(s: seq<byte>, i: nat)
    decreases |s| - i
  {
    i == |s| || (i < |s| && CharAt(s, i) && ValidFrom(s, i + LengthOf(s[i])))
  }

  predicate IsBoundary(s: seq<byte>, i: nat) {
    i == |s| || (i < |s| && !IsTail(s[i]))
  }

  lemma ValidStartsAtBoundary(s: seq<byte>, i: nat)
    requires ValidFrom(s, i)
    ensures i <= |s| && IsBoundary(s, i)
  {
  }

  /** Every boundary of a valid text starts a valid rest. */
  lemma {:induction false} ValidAtBoundary(s: seq<byte>, i: nat, k: nat)
    requires ValidFrom(s, i) && i <= k && IsBoundary(s, k)
    ensures ValidFrom(s, k)
    decreases k - i
  {
    if i < k {
      var n := LengthOf(s[i]);
      assert forall j :: i < j < i + n ==> IsTail(s[j]);
      ValidAtBoundary(s, i + n, k);
    }
  }

  /** So does every position after an ASCII byte. */
  lemma {:induction false} ValidAfterAscii(s: seq<byte>, i: nat, k: nat)
    requires ValidFrom(s, i) && i < k <= |s| && s[k - 1] <= 0x7F
    ensures ValidFrom(s, k)
    decreases k - i
  {
    var n := LengthOf(s[i]);
    assert forall j :: i < j < i + n ==> IsTail(s[j]);
    if k != i + n {
      ValidAfterAscii(s, i + n, k);
    }
  }

  /** Between two boundaries lies a valid text. */
  lemma {:induction false} ValidSlice(s: seq<byte>, i: nat, lo: nat, hi: nat)
    requires lo <= i <= hi <= |s| && ValidFrom(s, i) && ValidFrom(s, hi)
    ensures ValidFrom(s[lo..hi], i - lo)
    decreases hi - i
  {
    if i < hi {
      var n := LengthOf(s[i]);
      assert forall j :: i < j < i + n ==> IsTail(s[j]);
      ValidStartsAtBoundary(s, hi);
      assert i + n <= hi;
      ValidSlice(s, i + n, lo, hi);
    }
  }

  lemma {:induction false} ValidShift(a: seq<byte>, b: seq<byte>, k: nat)
    requires ValidFrom(b, k)
    ensures ValidFrom(a + b, |a| + k)
    decreases |b| - k
  {
    if k < |b| {
      assert forall j :: 0 <= j < |b| ==> (a + b)[|a| + j] == b[j];
      ValidShift(a, b, k + LengthOf(b[k]));
    }
  }

  lemma {:induction false} ValidConcatFrom(a: seq<byte>, b: seq<byte>, i: nat)
    requires ValidFrom(a, i) && ValidFrom(b, 0)
    ensures ValidFrom(a + b, i)
    decreases |a| - i
  {
    if i < |a| {
      assert forall j :: 0 <= j < |a| ==> (a + b)[j] == a[j];
      ValidConcatFrom(a, b, i + LengthOf(a[i]));
    } else {
      ValidShift(a, b, 0);
    }
  }

  /** Two valid texts make a valid text. */
  lemma ValidConcat(a: seq<byte>, b: seq<byte>)
    requires ValidFrom(a, 0) && ValidFrom(b, 0)
    ensures ValidFrom(a + b, 0)
  {
    ValidConcatFrom(a, b, 0);
  }
}
