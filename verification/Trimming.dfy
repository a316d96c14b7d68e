// Trimming white space off a text in UTF-8.

module Trimming {
  import opened Sequences
  import opened Utf8

  /** The length of the white-space character at `i`, zero if there is none. */
  function BlankAt(s: seq<byte>, i: nat): nat
    requires i < |s|
  {
    var a, b, c := s[i], if i + 1 < |s| then s[i + 1] else 0, if i + 2 < |s| then s[i + 2] else 0;
    if 0x09 <= a <= 0x0D || a == 0x20 then 1
    else if a == 0xC2 && (b == 0x85 || b == 0xA0) then 2
    else if a == 0xE1 && b == 0x9A && c == 0x80 then 3
    else if a == 0xE2 && b == 0x80 && (0x80 <= c <= 0x8A || c == 0xA8 || c == 0xA9 || c == 0xAF) then 3
    else if a == 0xE2 && b == 0x81 && c == 0x9F then 3
    else if a == 0xE3 && b == 0x80 && c == 0x80 then 3
    else 0
  }

  /** The length of the white-space character `s` ends with. */
  function BlankEnding(s: seq<byte>): nat {
    if |s| >= 1 && BlankAt(s, |s| - 1) == 1 then 1
    else if |s| >= 2 && BlankAt(s, |s| - 2) == 2 then 2
    else if |s| >= 3 && BlankAt(s, |s| - 3) == 3 then 3
    else 0
  }

  /** Where the text starts after its leading white space. */
  function TrimmedStart(s: seq<byte>, i: nat): (j: nat)
    requires i <= |s|
    ensures i <= j <= |s|
    decreases |s| - i
  {
    if i < |s| && 0 < BlankAt(s, i) <= |s| - i then TrimmedStart(s, i + BlankAt(s, i)) else i
  }

  function TrimEnd(s: seq<byte>): seq<byte> {
    if s != [] && BlankEnding(s) > 0 then TrimEnd(s[..|s| - BlankEnding(s)]) else s
  }

  function Trim(s: seq<byte>): seq<byte> { TrimEnd(s[TrimmedStart(s, 0)..]) }

  /** A white-space character is a character. */
  lemma BlankIsChar(s: seq<byte>, i: nat)
    requires i < |s| && BlankAt(s, i) > 0
    ensures !IsTail(s[i]) && LengthOf(s[i]) == BlankAt(s, i)
  {
  }

  lemma {:induction false} TrimmedStartIs(s: seq<byte>, i: nat)
    requires ValidFrom(s, i)
    ensures ValidFrom(s, TrimmedStart(s, i))
    decreases |s| - i
  {
    if i < |s| && 0 < BlankAt(s, i) <= |s| - i {
      BlankIsChar(s, i);
      TrimmedStartIs(s, i + BlankAt(s, i));
    }
  }

  lemma {:induction false} TrimEndIsValid(s: seq<byte>)
    requires ValidFrom(s, 0)
    ensures ValidFrom(TrimEnd(s), 0)
    decreases |s|
  {
    if s != [] && BlankEnding(s) > 0 {
      var end := |s| - BlankEnding(s);
      BlankIsChar(s, end);
      ValidAtBoundary(s, 0, end);
      ValidSlice(s, 0, 0, end);
      assert s[0..end] == s[..end];
      TrimEndIsValid(s[..end]);
    }
  }

  /** Trimming cuts between characters. */
  lemma TrimIsValid(s: seq<byte>)
    requires ValidFrom(s, 0)
    ensures ValidFrom(Trim(s), 0)
  {
    var start := TrimmedStart(s, 0);
    TrimmedStartIs(s, 0);
    ValidSlice(s, start, start, |s|);
    assert s[start..|s|] == s[start..];
    TrimEndIsValid(s[start..]);
  }

  // ---------------------------------------------------------------------
  // What trimming leaves
  // ---------------------------------------------------------------------

  /** The six bits a tail byte carries. */
  function Bits(b: byte): int { b as int - 0x80 }

  /** The code point of the character at `i`. */
  function CodePoint(s: seq<byte>, i: nat): int
    requires i < |s| && CharAt(s, i)
  {
    var a, n := s[i] as int, LengthOf(s[i]);
    if n == 1 then a
    else if n == 2 then (a - 0xC0) * 0x40 + Bits(s[i + 1])
    else if n == 3 then (a - 0xE0) * 0x1000 + Bits(s[i + 1]) * 0x40 + Bits(s[i + 2])
    else (a - 0xF0) * 0x40000 + Bits(s[i + 1]) * 0x1000 + Bits(s[i + 2]) * 0x40 + Bits(s[i + 3])
  }

  /** Unicode's `White_Space`. */
  predicate IsWhite(code: int) {
    || 0x09 <= code <= 0x0D || code == 0x20 || code == 0x85 || code == 0xA0 || code == 0x1680
    || 0x2000 <= code <= 0x200A || code == 0x2028 || code == 0x2029 || code == 0x202F || code == 0x205F || code == 0x3000
  }

  predicate WhiteAt(s: seq<byte>, i: nat) { i < |s| && CharAt(s, i) && IsWhite(CodePoint(s, i)) }

  /** Nothing but white-space characters. */
  predicate AllWhite(s: seq<byte>)
    decreases |s|
  {
    s == [] || (WhiteAt(s, 0) && AllWhite(s[LengthOf(s[0])..]))
  }

  ghost predicate EndsWhite(s: seq<byte>) {
    exists i: nat :: WhiteAt(s, i) && i + LengthOf(s[i]) == |s|
  }

  /** `t` is `s` without the white space around it. */
  ghost predicate IsTrimmed(s: seq<byte>, t: seq<byte>) {
    && (exists before, after :: s == before + t + after && AllWhite(before) && AllWhite(after))
    && !WhiteAt(t, 0) && !EndsWhite(t)
  }

  /** The byte patterns are those of the white-space characters. */
  lemma BlankIff(s: seq<byte>, i: nat)
    requires i < |s|
    ensures WhiteAt(s, i) <==> BlankAt(s, i) > 0
    ensures BlankAt(s, i) > 0 ==> BlankAt(s, i) == LengthOf(s[i])
  {
  }

  lemma WhiteInPart(s: seq<byte>, lo: nat, hi: nat, i: nat)
    requires lo <= hi <= |s| && i < hi - lo
    ensures WhiteAt(s[lo..hi], i) ==> WhiteAt(s, lo + i)
    ensures WhiteAt(s, lo + i) && lo + i + LengthOf(s[lo + i]) <= hi ==> WhiteAt(s[lo..hi], i)
  {
  }

  lemma {:induction false} LeadingIsWhite(s: seq<byte>, i: nat)
    requires i <= |s|
    ensures AllWhite(s[i..TrimmedStart(s, i)]) && !WhiteAt(s, TrimmedStart(s, i))
    decreases |s| - i
  {
    if i < |s| {
      BlankIff(s, i);
    }
    if WhiteAt(s, i) {
      var next, end := i + LengthOf(s[i]), TrimmedStart(s, i);
      LeadingIsWhite(s, next);
      WhiteInPart(s, i, end, 0);
      assert s[i..end][LengthOf(s[i])..] == s[next..end];
    }
  }

  lemma AllWhiteStep(first: seq<byte>, rest: seq<byte>)
    requires WhiteAt(first, 0) && |first| == LengthOf(first[0]) && AllWhite(rest)
    ensures AllWhite(first + rest)
  {
    WhiteInPart(first + rest, 0, |first|, 0);
    assert (first + rest)[0..|first|] == first && (first + rest)[|first|..] == rest;
  }

  lemma FirstWhite(s: seq<byte>) returns (first: seq<byte>, rest: seq<byte>)
    requires AllWhite(s) && s != []
    ensures s == first + rest && WhiteAt(first, 0) && |first| == LengthOf(first[0]) && AllWhite(rest)
  {
    var n := LengthOf(s[0]);
    first, rest := s[..n], s[n..];
    WhiteInPart(s, 0, n, 0);
    assert s[0..n] == s[..n];
  }

  lemma {:induction false} AllWhiteConcat(s: seq<byte>, t: seq<byte>)
    requires AllWhite(s) && AllWhite(t)
    ensures AllWhite(s + t)
    decreases |s|
  {
    if s == [] {
      assert s + t == t;
    } else {
      var first, rest := FirstWhite(s);
      AllWhiteConcat(rest, t);
      AllWhiteStep(first, rest + t);
      Associative(first, rest, t);
    }
  }

  lemma NoBlankEnding(s: seq<byte>)
    requires BlankEnding(s) == 0
    ensures !EndsWhite(s)
  {
    if EndsWhite(s) {
      var i: nat :| WhiteAt(s, i) && i + LengthOf(s[i]) == |s|;
      BlankIff(s, i);
    }
  }

  lemma BlankEndingIsWhite(s: seq<byte>)
    requires BlankEnding(s) > 0
    ensures BlankEnding(s) <= |s| && AllWhite(s[|s| - BlankEnding(s)..])
  {
    var at := |s| - BlankEnding(s);
    BlankIff(s, at);
    WhiteInPart(s, at, |s|, 0);
    assert s[at..|s|] == s[at..];
    AllWhiteStep(s[at..], []);
    assert s[at..] + [] == s[at..];
  }

  /** `t` is `s` up to some white space, and ends with none. */
  ghost predicate IsTrimmedEnd(s: seq<byte>, t: seq<byte>) {
    t <= s && AllWhite(s[|t|..]) && !EndsWhite(t)
  }

  lemma TrimsOnce(s: seq<byte>, end: nat, t: seq<byte>)
    requires end <= |s| && AllWhite(s[end..]) && IsTrimmedEnd(s[..end], t)
    ensures IsTrimmedEnd(s, t)
  {
    AllWhiteConcat(s[..end][|t|..], s[end..]);
    assert s[|t|..] == s[..end][|t|..] + s[end..];
  }

  lemma NothingTrimmed(s: seq<byte>)
    requires !EndsWhite(s)
    ensures IsTrimmedEnd(s, s)
  {
    assert s[|s|..] == [];
  }

  lemma {:induction false} TrimEndIs(s: seq<byte>)
    ensures IsTrimmedEnd(s, TrimEnd(s))
    decreases |s|
  {
    if s != [] && BlankEnding(s) > 0 {
      var end := |s| - BlankEnding(s);
      var t := TrimEnd(s[..end]);
      assert TrimEnd(s) == t;
      BlankEndingIsWhite(s);
      TrimEndIs(s[..end]);
      TrimsOnce(s, end, t);
    } else {
      NoBlankEnding(s);
      NothingTrimmed(s);
    }
  }

  lemma NoWhiteFirst(s: seq<byte>, start: nat, t: seq<byte>)
    requires start <= |s| && !WhiteAt(s, start) && t <= s[start..]
    ensures !WhiteAt(t, 0)
  {
    if t != [] {
      assert t == s[start..start + |t|];
      WhiteInPart(s, start, start + |t|, 0);
    }
  }

  lemma Pieces(s: seq<byte>, start: nat, t: seq<byte>)
    requires start <= |s| && t <= s[start..]
    ensures s == s[..start] + t + s[start..][|t|..]
  {
  }

  /** Trimming removes the white space at both ends and nothing else. */
  lemma TrimIs(s: seq<byte>)
    ensures IsTrimmed(s, Trim(s))
  {
    var start := TrimmedStart(s, 0);
    LeadingIsWhite(s, 0);
    assert s[0..start] == s[..start];
    TrimEndIs(s[start..]);
    NoWhiteFirst(s, start, Trim(s));
    Pieces(s, start, Trim(s));
  }
}
