// Turning TeX delimiters `\(..\)` and `\[..\]` into dollars, outside of code.

module TexScanner {
  import opened Wrappers
  import opened Sequences
  import opened Utf8
  import opened Trimming
  import opened Fences

  const BACKSLASH: byte := 0x5C
  const BACKTICK: byte := 0x60
  const NEWLINE: byte := 0x0A
  const OPEN_ROUND: byte := 0x28
  const CLOSE_ROUND: byte := 0x29
  const OPEN_SQUARE: byte := 0x5B
  const CLOSE_SQUARE: byte := 0x5D
  const DOLLAR: byte := 0x24

  const BYTES: Alphabet<byte> := Alphabet(0x20, 0x09, NEWLINE, BACKTICK, 0x7E)

  // ---------------------------------------------------------------------
  // Groups
  // ---------------------------------------------------------------------

  /** How many backslashes end at `i`. */
  function Slashes(b: seq<byte>, i: nat): nat
    requires i < |b|
  {
    if b[i] != BACKSLASH then 0 else if i == 0 then 1 else Slashes(b, i - 1) + 1
  }

  predicate Escaped(b: seq<byte>, i: nat)
    requires i < |b|
  {
    Slashes(b, i) % 2 == 0
  }

  /** A backslash is escaped exactly when an unescaped one precedes it. */
  lemma EscapedIff(b: seq<byte>, i: nat)
    requires i < |b| && b[i] == BACKSLASH
    ensures Escaped(b, i) <==> i > 0 && b[i - 1] == BACKSLASH && !Escaped(b, i - 1)
  {
  }

  method IsEscapedBackslash(b: seq<byte>, i: nat) returns (escaped: bool)
    requires i < |b|
    ensures escaped == Escaped(b, i)
  {
    var n, j := 0, i;
    while b[j] == BACKSLASH
      invariant 0 <= j <= i
      invariant Slashes(b, i) == n + Slashes(b, j)
      decreases j
    {
      n := n + 1;
      if j == 0 {
        break;
      }
      j := j - 1;
    }
    escaped := n % 2 == 0;
  }

  /** An unescaped closer at `i`. */
  predicate ClosesAt(b: seq<byte>, i: nat, close: byte) {
    i + 1 < |b| && b[i] == BACKSLASH && b[i + 1] == close && !Escaped(b, i)
  }

  /** The first unescaped closer from `j` on, going character by character. */
  function GroupEnd(b: seq<byte>, j: nat, close: byte): Option<nat>
    decreases |b| - j
  {
    if j + 1 >= |b| then None
    else if ClosesAt(b, j, close) then Some(j)
    else GroupEnd(b, j + LengthOf(b[j]), close)
  }

  method TexGroupInner(b: seq<byte>, start: nat, close: byte) returns (end: Option<nat>)
    ensures end == GroupEnd(b, start, close)
  {
    var j := start;
    while j + 1 < |b|
      invariant GroupEnd(b, start, close) == GroupEnd(b, j, close)
      decreases |b| - j
    {
      if b[j] == BACKSLASH && b[j + 1] == close {
        var escaped := IsEscapedBackslash(b, j);
        if !escaped {
          return Some(j);
        }
      }
      j := j + LengthOf(b[j]);
    }
    end := None;
  }

  function CloserOf(open: byte): byte { if open == OPEN_ROUND then CLOSE_ROUND else CLOSE_SQUARE }

  /** An unescaped opener at `i`. */
  predicate OpensAt(b: seq<byte>, i: nat) {
    && i + 1 < |b| && b[i] == BACKSLASH && (b[i + 1] == OPEN_ROUND || b[i + 1] == OPEN_SQUARE)
    && !Escaped(b, i)
  }

  /** Where the group inside at `i` has its closer. */
  function GroupAt(b: seq<byte>, i: nat): Option<nat> {
    if OpensAt(b, i) then GroupEnd(b, i + 2, CloserOf(b[i + 1])) else None
  }

  /** Stepping over characters misses no closer, and stops at boundaries. */
  lemma {:induction false} GroupEndIs(b: seq<byte>, j: nat, close: byte)
    requires ValidFrom(b, j)
    ensures
      match GroupEnd(b, j, close)
      case Some(e) => j <= e && ClosesAt(b, e, close) && ValidFrom(b, e) && forall k: nat :: j <= k < e ==> !ClosesAt(b, k, close)
      case None => forall k: nat :: j <= k ==> !ClosesAt(b, k, close)
    decreases |b| - j
  {
    if j + 1 < |b| && !ClosesAt(b, j, close) {
      var n := LengthOf(b[j]);
      forall k: nat | j <= k < j + n ensures !ClosesAt(b, k, close) {
        assert k > j ==> IsTail(b[k]);
      }
      GroupEndIs(b, j + n, close);
    }
  }

  // ---------------------------------------------------------------------
  // Inline code
  // ---------------------------------------------------------------------

  /** The end of the first run of exactly `ticks` backticks that begins at `j`
      or later, counted from any position in a longer run. */
  function CodeEnd(b: seq<byte>, j: nat, ticks: nat): Option<nat>
    decreases |b| - j
  {
    if j + ticks > |b| || j >= |b| then None
    else if RunEnd(b, j, BACKTICK) == j + ticks then Some(j + ticks)
    else CodeEnd(b, j + 1, ticks)
  }

  /** Where the code span that starts at `i` ends; the backticks alone if it is
      never closed. */
  function InlineEnd(b: seq<byte>, i: nat): nat
    requires i <= |b|
  {
    var inside := RunEnd(b, i, BACKTICK);
    var end := CodeEnd(b, inside, inside - i);
    if end.Some? then end.value else inside
  }

  method TakeInlineCode(b: seq<byte>, start: nat) returns (end: nat)
    requires start < |b| && b[start] == BACKTICK
    ensures end == InlineEnd(b, start)
  {
    var inside := start;
    while inside < |b| && b[inside] == BACKTICK
      invariant start <= inside <= |b|
      invariant RunEnd(b, start, BACKTICK) == RunEnd(b, inside, BACKTICK)
    {
      inside := inside + 1;
    }
    var ticks, i := inside - start, inside;
    while i + ticks <= |b|
      invariant inside <= i
      invariant CodeEnd(b, inside, ticks) == CodeEnd(b, i, ticks)
      decreases |b| - i
    {
      if i < |b| && RunEnd(b, i, BACKTICK) == i + ticks {
        return i + ticks;
      }
      i := i + 1;
    }
    end := inside;
  }

  lemma {:induction false} CodeEndIs(b: seq<byte>, j: nat, ticks: nat)
    requires ticks > 0 && CodeEnd(b, j, ticks).Some?
    ensures j < CodeEnd(b, j, ticks).value <= |b| && b[CodeEnd(b, j, ticks).value - 1] == BACKTICK
    decreases |b| - j
  {
    if RunEnd(b, j, BACKTICK) == j + ticks {
      RunEndIs(b, j, BACKTICK);
    } else {
      CodeEndIs(b, j + 1, ticks);
    }
  }

  // ---------------------------------------------------------------------
  // Scanning
  // ---------------------------------------------------------------------

  /** A stretch of the input: a character, a code span, or a line that opens or
      closes a fence, all copied; or a group with what is between its
      delimiters. */
  datatype Segment =
    | Char(text: seq<byte>)
    | Code(text: seq<byte>)
    | FenceOpen(text: seq<byte>, fence: Fence<byte>)
    | FenceClose(text: seq<byte>)
    | Group(display: bool, inner: seq<byte>)
  {
    function Source(): seq<byte> {
      match this
      case Group(display, inner) =>
        [BACKSLASH, if display then OPEN_SQUARE else OPEN_ROUND] + inner
          + [BACKSLASH, if display then CLOSE_SQUARE else CLOSE_ROUND]
      case _ => text
    }

    function Image(): seq<byte> {
      match this
      case Group(display, inner) =>
        var dollars := if display then [DOLLAR, DOLLAR] else [DOLLAR];
        dollars + Trim(inner) + dollars
      case _ => text
    }
  }

  /** Where the scanner is: its position, whether that starts a line, and the
      fence it is inside. */
  datatype Cursor = Cursor(at: nat, lineStart: bool, fence: Option<Fence<byte>>)

  predicate Fits(b: seq<byte>, c: Cursor) {
    c.at <= |b| && ValidFrom(b, c.at) && (c.fence.Some? ==> c.fence.value.length >= 3)
  }

  /** Where the current character ends. */
  function CharEnd(b: seq<byte>, i: nat): (end: nat)
    requires i < |b|
    ensures i < end <= |b|
  {
    if i + LengthOf(b[i]) <= |b| then i + LengthOf(b[i]) else |b|
  }

  /** The position after one iteration. */
  function Next(b: seq<byte>, c: Cursor): Cursor
    requires c.at < |b|
  {
    if c.fence.Some? then
      if c.lineStart && Closing(b, c.at, c.fence.value, BYTES).Some?
      then Cursor(Closing(b, c.at, c.fence.value, BYTES).value, true, None)
      else Cursor(CharEnd(b, c.at), b[c.at] == NEWLINE, c.fence)
    else if c.lineStart && Opening(b, c.at, BYTES).Some? then
      var (fence, end) := Opening(b, c.at, BYTES).value;
      Cursor(end, false, Some(fence))
    else if b[c.at] == BACKTICK then Cursor(InlineEnd(b, c.at), false, None)
    else if GroupAt(b, c.at).Some? then Cursor(GroupAt(b, c.at).value + 2, false, None)
    else Cursor(CharEnd(b, c.at), b[c.at] == NEWLINE, None)
  }

  /** Whether the iteration takes a group. */
  predicate TakesGroup(b: seq<byte>, c: Cursor)
    requires c.at < |b|
  {
    c.fence.None? && !(c.lineStart && Opening(b, c.at, BYTES).Some?) && b[c.at] != BACKTICK && GroupAt(b, c.at).Some?
  }

  lemma FenceStep(b: seq<byte>, c: Cursor)
    requires Fits(b, c) && c.at < |b| && c.lineStart
    ensures c.fence.None? && Opening(b, c.at, BYTES).Some? ==>
      c.at < Opening(b, c.at, BYTES).value.1 && ValidFrom(b, Opening(b, c.at, BYTES).value.1)
      && Opening(b, c.at, BYTES).value.0.length >= 3
    ensures c.fence.Some? && Closing(b, c.at, c.fence.value, BYTES).Some? ==>
      c.at < Closing(b, c.at, c.fence.value, BYTES).value && ValidFrom(b, Closing(b, c.at, c.fence.value, BYTES).value)
  {
    if c.fence.None? && Opening(b, c.at, BYTES).Some? {
      var end := Opening(b, c.at, BYTES).value.1;
      var j := Indented(b, c.at, BYTES);
      LineEndIsEnd(b, RunEnd(b, j, b[j]), BYTES);
      if end < |b| {
        ValidAfterAscii(b, c.at, end);
      }
    }
    if c.fence.Some? && Closing(b, c.at, c.fence.value, BYTES).Some? {
      var end := Closing(b, c.at, c.fence.value, BYTES).value;
      if end < |b| {
        ValidAfterAscii(b, c.at, end);
      }
    }
  }

  lemma CodeStep(b: seq<byte>, c: Cursor)
    requires Fits(b, c) && c.at < |b| && b[c.at] == BACKTICK
    ensures c.at < InlineEnd(b, c.at) <= |b| && ValidFrom(b, InlineEnd(b, c.at))
  {
    RunEndIs(b, c.at, BACKTICK);
    var inside := RunEnd(b, c.at, BACKTICK);
    if CodeEnd(b, inside, inside - c.at).Some? {
      CodeEndIs(b, inside, inside - c.at);
    }
    ValidAfterAscii(b, c.at, InlineEnd(b, c.at));
  }

  lemma GroupStep(b: seq<byte>, c: Cursor)
    requires Fits(b, c) && c.at < |b| && GroupAt(b, c.at).Some?
    ensures
      var end := GroupAt(b, c.at).value;
      && c.at + 2 <= end && end + 2 <= |b| && ValidFrom(b, end + 2)
      && ValidFrom(b, c.at + 2) && ValidFrom(b, end)
      && ClosesAt(b, end, CloserOf(b[c.at + 1]))
  {
    ValidAfterAscii(b, c.at, c.at + 2);
    GroupEndIs(b, c.at + 2, CloserOf(b[c.at + 1]));
    ValidAfterAscii(b, c.at, GroupAt(b, c.at).value + 2);
  }

  /** Every iteration moves forward to a character boundary. */
  lemma NextFits(b: seq<byte>, c: Cursor)
    requires Fits(b, c) && c.at < |b|
    ensures Fits(b, Next(b, c)) && c.at < Next(b, c).at
  {
    if c.lineStart {
      FenceStep(b, c);
    }
    if b[c.at] == BACKTICK {
      CodeStep(b, c);
    }
    if GroupAt(b, c.at).Some? {
      GroupStep(b, c);
    }
  }

  /** What the iteration reads. */
  function SegmentAt(b: seq<byte>, c: Cursor): Segment
    requires Fits(b, c) && c.at < |b|
  {
    NextFits(b, c);
    if TakesGroup(b, c) then
      GroupStep(b, c);
      Group(b[c.at + 1] == OPEN_SQUARE, b[c.at + 2..Next(b, c).at - 2])
    else
      var text := b[c.at..Next(b, c).at];
      if c.fence.Some? then if Next(b, c).fence.Some? then Char(text) else FenceClose(text)
      else if Next(b, c).fence.Some? then FenceOpen(text, Next(b, c).fence.value)
      else if b[c.at] == BACKTICK then Code(text)
      else Char(text)
  }

  lemma SegmentOfGroup(b: seq<byte>, c: Cursor)
    requires Fits(b, c) && c.at < |b| && TakesGroup(b, c)
    ensures c.at + 2 <= GroupAt(b, c.at).value <= |b|
    ensures SegmentAt(b, c) == Group(b[c.at + 1] == OPEN_SQUARE, b[c.at + 2..GroupAt(b, c.at).value])
  {
    NextFits(b, c);
    GroupStep(b, c);
  }

  /** What is between a group's delimiters is a text of its own, so that reading
      it as one never fails. */
  lemma InnerIsValid(b: seq<byte>, c: Cursor)
    requires Fits(b, c) && c.at < |b| && GroupAt(b, c.at).Some?
    ensures c.at + 2 <= GroupAt(b, c.at).value <= |b|
    ensures ValidFrom(b[c.at + 2..GroupAt(b, c.at).value], 0)
  {
    GroupStep(b, c);
    ValidSlice(b, c.at + 2, c.at + 2, GroupAt(b, c.at).value);
  }

  lemma SegmentIsText(b: seq<byte>, c: Cursor)
    requires Fits(b, c) && c.at < |b|
    ensures
      match SegmentAt(b, c)
      case Group(_, inner) => ValidFrom(inner, 0)
      case segment => ValidFrom(segment.text, 0)
  {
    NextFits(b, c);
    if TakesGroup(b, c) {
      SegmentOfGroup(b, c);
      InnerIsValid(b, c);
    } else {
      ValidSlice(b, c.at, c.at, Next(b, c).at);
    }
  }

  lemma DollarsAreValid()
    ensures ValidFrom([DOLLAR], 0) && ValidFrom([DOLLAR, DOLLAR], 0)
  {
    assert ValidFrom([DOLLAR, DOLLAR], 2) && ValidFrom([DOLLAR, DOLLAR], 1);
    assert ValidFrom([DOLLAR], 1);
  }

  /** What the iteration writes is a text. */
  lemma ImageIsValid(segment: Segment)
    requires !segment.Group? ==> ValidFrom(segment.text, 0)
    requires segment.Group? ==> ValidFrom(segment.inner, 0)
    ensures ValidFrom(segment.Image(), 0)
  {
    if segment.Group? {
      var dollars := if segment.display then [DOLLAR, DOLLAR] else [DOLLAR];
      DollarsAreValid();
      TrimIsValid(segment.inner);
      ValidConcat(dollars, Trim(segment.inner));
      ValidConcat(dollars + Trim(segment.inner), dollars);
    }
  }

  lemma Cut(b: seq<byte>, lo: nat, hi: nat)
    requires lo + 4 <= hi <= |b|
    ensures b[lo..hi] == [b[lo], b[lo + 1]] + b[lo + 2..hi - 2] + [b[hi - 2], b[hi - 1]]
  {
  }

  /** The delimiters and what is between them are the input's. */
  lemma GroupSource(b: seq<byte>, at: nat, end: nat)
    requires OpensAt(b, at) && at + 2 <= end && ClosesAt(b, end, CloserOf(b[at + 1]))
    ensures Group(b[at + 1] == OPEN_SQUARE, b[at + 2..end]).Source() == b[at..end + 2]
  {
    var group := Group(b[at + 1] == OPEN_SQUARE, b[at + 2..end]);
    Cut(b, at, end + 2);
    assert group.Source() == [b[at], b[at + 1]] + b[at + 2..end] + [b[end], b[end + 1]];
  }

  lemma SegmentIsInput(b: seq<byte>, c: Cursor)
    requires Fits(b, c) && c.at < |b|
    ensures c.at < Next(b, c).at <= |b|
    ensures SegmentAt(b, c).Source() == b[c.at..Next(b, c).at]
  {
    NextFits(b, c);
    if TakesGroup(b, c) {
      GroupStep(b, c);
      SegmentOfGroup(b, c);
      GroupSource(b, c.at, GroupAt(b, c.at).value);
    }
  }

  function Scan(b: seq<byte>, c: Cursor): seq<Segment>
    requires Fits(b, c)
    decreases |b| - c.at
  {
    if c.at == |b| then []
    else
      NextFits(b, c);
      [SegmentAt(b, c)] + Scan(b, Next(b, c))
  }

  function Sources(segments: seq<Segment>): seq<byte> {
    if segments == [] then [] else segments[0].Source() + Sources(segments[1..])
  }

  function Images(segments: seq<Segment>): seq<byte> {
    if segments == [] then [] else segments[0].Image() + Images(segments[1..])
  }

  const START := Cursor(0, true, None)

  /** The images of all segments, laid end to end, are a text. */
  lemma {:induction false} ImagesAreValid(b: seq<byte>, c: Cursor)
    requires Fits(b, c)
    ensures ValidFrom(Images(Scan(b, c)), 0)
    decreases |b| - c.at
  {
    if c.at < |b| {
      NextFits(b, c);
      var segment, rest := SegmentAt(b, c), Scan(b, Next(b, c));
      SegmentIsText(b, c);
      ImageIsValid(segment);
      ImagesAreValid(b, Next(b, c));
      assert ([segment] + rest)[1..] == rest;
      ValidConcat(segment.Image(), Images(rest));
    }
  }

  /** The scanner's loop: it never cuts a character in two, whatever it copies. */
  method RewriteTexDelimiters(b: seq<byte>) returns (out: seq<byte>)
    requires ValidFrom(b, 0)
    ensures out == Images(Scan(b, START)) && ValidFrom(out, 0)
  {
    ImagesAreValid(b, START);
    var c := START;
    out := [];
    while c.at < |b|
      invariant Fits(b, c)
      invariant Images(Scan(b, START)) == out + Images(Scan(b, c))
      decreases |b| - c.at
    {
      NextFits(b, c);
      ghost var segment, rest := SegmentAt(b, c), Scan(b, Next(b, c));
      assert ([segment] + rest)[1..] == rest;
      assert out + (segment.Image() + Images(rest)) == out + segment.Image() + Images(rest);
      var image := Step(b, c);
      out := out + image;
      c := Next(b, c);
    }
    assert out + [] == out;
  }

  /** The scanner's test for a group at `i`. */
  method FindGroup(b: seq<byte>, i: nat) returns (end: Option<nat>)
    requires i < |b|
    ensures end == GroupAt(b, i)
  {
    if b[i] == BACKSLASH && i + 1 < |b| && (b[i + 1] == OPEN_ROUND || b[i + 1] == OPEN_SQUARE) {
      var escaped := IsEscapedBackslash(b, i);
      if !escaped {
        end := TexGroupInner(b, i + 2, CloserOf(b[i + 1]));
        return;
      }
    }
    end := None;
  }

  /** One iteration's output. */
  method Step(b: seq<byte>, c: Cursor) returns (image: seq<byte>)
    requires Fits(b, c) && c.at < |b|
    ensures image == SegmentAt(b, c).Image()
  {
    NextFits(b, c);
    var end := FindGroup(b, c.at);
    if TakesGroup(b, c) {
      SegmentOfGroup(b, c);
      var dollars := if b[c.at + 1] == OPEN_SQUARE then [DOLLAR, DOLLAR] else [DOLLAR];
      image := dollars + Trim(b[c.at + 2..end.value]) + dollars;
    } else {
      image := b[c.at..Next(b, c).at];
    }
  }

  // ---------------------------------------------------------------------
  // What the scan is
  // ---------------------------------------------------------------------

  /** The segments read, laid end to end, are the input from the cursor on. */
  lemma {:induction false} SegmentsAreInput(b: seq<byte>, c: Cursor)
    requires Fits(b, c)
    ensures Sources(Scan(b, c)) == b[c.at..]
    decreases |b| - c.at
  {
    if c.at < |b| {
      NextFits(b, c);
      SegmentIsInput(b, c);
      SegmentsAreInput(b, Next(b, c));
      assert ([SegmentAt(b, c)] + Scan(b, Next(b, c)))[1..] == Scan(b, Next(b, c));
      assert b[c.at..Next(b, c).at] + b[Next(b, c).at..] == b[c.at..];
    }
  }

  lemma {:induction false} CopiedImage(segments: seq<Segment>)
    requires forall i :: 0 <= i < |segments| ==> !segments[i].Group?
    ensures Images(segments) == Sources(segments)
  {
    if segments != [] {
      CopiedImage(segments[1..]);
    }
  }

  /** A group was inside and closed by unescaped delimiters, and is the
      shortest such stretch: no unescaped closer lies inside. */
  ghost predicate IsGroupOf(b: seq<byte>, segment: Segment, at: nat) {
    segment.Group? ==>
      var start, end := at + 2, at + 2 + |segment.inner|;
      && OpensAt(b, at) && end + 1 < |b| && segment.inner == b[start..end]
      && segment.display == (b[at + 1] == OPEN_SQUARE)
      && var close := CloserOf(b[at + 1]);
         ClosesAt(b, end, close) && forall k: nat :: start <= k < end ==> !ClosesAt(b, k, close)
  }

  lemma SegmentIsGroup(b: seq<byte>, c: Cursor)
    requires Fits(b, c) && c.at < |b|
    ensures IsGroupOf(b, SegmentAt(b, c), c.at)
  {
    if TakesGroup(b, c) {
      GroupStep(b, c);
      GroupEndIs(b, c.at + 2, CloserOf(b[c.at + 1]));
    }
  }

  /** What holds of the segment that starts at `at`. */
  ghost predicate SegmentFits(b: seq<byte>, segment: Segment, at: nat) {
    at < |b| && ValidFrom(b, at) && IsBoundary(b, at) && IsGroupOf(b, segment, at)
  }

  lemma {:induction false} NoGroups(b: seq<byte>, c: Cursor)
    requires Fits(b, c) && forall i: nat :: !OpensAt(b, i)
    ensures forall k :: 0 <= k < |Scan(b, c)| ==> !Scan(b, c)[k].Group?
    decreases |b| - c.at
  {
    if c.at < |b| {
      NextFits(b, c);
      NoGroups(b, Next(b, c));
    }
  }

  /** The output is a segment-wise image of the input and again valid, and input without an
      unescaped opener comes out unchanged. */
  lemma OutputIsImage(b: seq<byte>)
    requires ValidFrom(b, 0)
    ensures Sources(Scan(b, START)) == b
    ensures ValidFrom(Images(Scan(b, START)), 0)
    ensures (forall i: nat :: !OpensAt(b, i)) ==> Images(Scan(b, START)) == b
  {
    SegmentsAreInput(b, START);
    ImagesAreValid(b, START);
    if forall i: nat :: !OpensAt(b, i) {
      NoGroups(b, START);
      CopiedImage(Scan(b, START));
    }
  }

  // ---------------------------------------------------------------------
  // What each segment is
  // ---------------------------------------------------------------------

  /** The fence that the segments leave open: the last one opened and not
      closed. */
  function FenceAfter(segments: seq<Segment>): Option<Fence<byte>> {
    if segments == [] then None
    else
      match segments[|segments| - 1]
      case FenceOpen(_, fence) => Some(fence)
      case FenceClose(_) => None
      case _ => FenceAfter(segments[..|segments| - 1])
  }

  /** Whether the scanner takes the next position for a line start: at the very
      start, after a newline it copied as a character, and after a fence's closing
      line; not after an opening one. */
  predicate StartsLine(segments: seq<Segment>) {
    segments == [] || segments[|segments| - 1] == Char([NEWLINE]) || segments[|segments| - 1].FenceClose?
  }

  /** A group from `p` whose closer is at `e`: an unescaped opener, and the first
      unescaped closer of its kind behind it. */
  ghost predicate GroupFromTo(b: seq<byte>, p: nat, e: nat) {
    && OpensAt(b, p) && p + 2 <= e
    && var close := CloserOf(b[p + 1]);
       ClosesAt(b, e, close) && forall k: nat :: p + 2 <= k < e ==> !ClosesAt(b, k, close)
  }

  /** `n` backticks end at `e`, and no more follow. */
  ghost predicate TicksEnd(b: seq<byte>, e: nat, n: nat) {
    n <= e <= |b| && AllAre(b, e - n, e, BACKTICK) && (e == |b| || b[e] != BACKTICK)
  }

  ghost predicate SpanEnds(b: seq<byte>, inside: nat, n: nat, end: nat) {
    if end == inside then forall e: nat :: inside + n <= e ==> !TicksEnd(b, e, n)
    else inside + n <= end && TicksEnd(b, end, n) && forall e: nat :: inside + n <= e < end ==> !TicksEnd(b, e, n)
  }

  /** A code span from `p` up to `end`: behind the opening run of `n` backticks it
      ends with the first `n` that no more follow; without such it is the run
      alone. */
  ghost predicate SpanFromTo(b: seq<byte>, p: nat, end: nat) {
    exists n: nat :: n > 0 && IsRun(b, p, BACKTICK, n) && SpanEnds(b, p + n, n, end)
  }

  predicate IsPiece(b: seq<byte>, p: nat, piece: seq<byte>) {
    p + |piece| <= |b| && piece == b[p..p + |piece|]
  }

  predicate IsCharAt(b: seq<byte>, p: nat, segment: Segment) {
    p < |b| && segment.Char? && |segment.text| == LengthOf(b[p]) && IsPiece(b, p, segment.text)
  }

  ghost predicate OpensSome(b: seq<byte>, p: nat) { exists f, end :: OpensFence(b, p, f, end, BYTES) }

  ghost predicate ClosesSome(b: seq<byte>, p: nat, fence: Fence<byte>) { exists end :: ClosesFence(b, p, fence, end, BYTES) }

  ghost predicate GroupsSome(b: seq<byte>, p: nat) { exists e :: GroupFromTo(b, p, e) }

  /** Inside a fence: the closing line if this is one, else one character. */
  ghost predicate InFenceObeys(b: seq<byte>, segment: Segment, p: nat, fence: Fence<byte>, lineStart: bool) {
    if lineStart && ClosesSome(b, p, fence) then
      segment.FenceClose? && ClosesFence(b, p, fence, p + |segment.text|, BYTES) && IsPiece(b, p, segment.text)
    else IsCharAt(b, p, segment)
  }

  /** Outside: an opening line; else a code span; else a group; else one
      character. */
  ghost predicate OutsideObeys(b: seq<byte>, segment: Segment, p: nat, lineStart: bool)
    requires p < |b|
  {
    if lineStart && OpensSome(b, p) then
      segment.FenceOpen? && OpensFence(b, p, segment.fence, p + |segment.text|, BYTES) && IsPiece(b, p, segment.text)
    else if b[p] == BACKTICK then
      segment.Code? && SpanFromTo(b, p, p + |segment.text|) && IsPiece(b, p, segment.text)
    else if GroupsSome(b, p) then
      && segment.Group? && segment.display == (b[p + 1] == OPEN_SQUARE)
      && GroupFromTo(b, p, p + 2 + |segment.inner|) && IsPiece(b, p + 2, segment.inner)
    else IsCharAt(b, p, segment)
  }

  /** What the segment at `p` is, given the fence it is in and whether it starts a
      line. */
  ghost predicate Obeys(b: seq<byte>, segment: Segment, p: nat, fence: Option<Fence<byte>>, lineStart: bool) {
    && p < |b|
    && match fence
       case Some(f) => InFenceObeys(b, segment, p, f, lineStart)
       case None => OutsideObeys(b, segment, p, lineStart)
  }

  /** What the segment at `k` is, given those before it. */
  ghost predicate ObeysAt(b: seq<byte>, segments: seq<Segment>, k: nat)
    requires k < |segments|
  {
    var before := segments[..k];
    Obeys(b, segments[k], |Sources(before)|, FenceAfter(before), StartsLine(before))
  }

  lemma GroupAtIff(b: seq<byte>, p: nat, e: nat)
    requires ValidFrom(b, p)
    ensures GroupAt(b, p) == Some(e) <==> GroupFromTo(b, p, e)
  {
    if OpensAt(b, p) {
      ValidAfterAscii(b, p, p + 2);
      GroupEndIs(b, p + 2, CloserOf(b[p + 1]));
    }
  }

  lemma TicksAt(b: seq<byte>, j: nat, ticks: nat)
    requires j + ticks <= |b|
    ensures TicksEnd(b, j + ticks, ticks) <==> RunEnd(b, j, BACKTICK) == j + ticks
  {
    RunEndIs(b, j, BACKTICK);
    if TicksEnd(b, j + ticks, ticks) {
      OneRun(b, j, BACKTICK, ticks, RunEnd(b, j, BACKTICK) - j);
    }
  }

  lemma {:induction false} CodeEndIff(b: seq<byte>, j: nat, ticks: nat)
    requires ticks > 0
    ensures
      match CodeEnd(b, j, ticks)
      case Some(end) => j + ticks <= end && TicksEnd(b, end, ticks) && forall e: nat :: j + ticks <= e < end ==> !TicksEnd(b, e, ticks)
      case None => forall e: nat :: j + ticks <= e ==> !TicksEnd(b, e, ticks)
    decreases |b| - j
  {
    if j + ticks <= |b| && j < |b| {
      TicksAt(b, j, ticks);
      if RunEnd(b, j, BACKTICK) != j + ticks {
        CodeEndIff(b, j + 1, ticks);
      }
    }
  }

  /** Where a code span ends. */
  lemma InlineEndIs(b: seq<byte>, i: nat)
    requires i < |b| && b[i] == BACKTICK
    ensures InlineEnd(b, i) > i && SpanFromTo(b, i, InlineEnd(b, i))
  {
    var inside := RunEnd(b, i, BACKTICK);
    RunEndIs(b, i, BACKTICK);
    CodeEndIff(b, inside, inside - i);
    assert SpanEnds(b, inside, inside - i, InlineEnd(b, i));
  }

  lemma PieceIs(b: seq<byte>, lo: nat, hi: nat)
    requires lo <= hi <= |b|
    ensures IsPiece(b, lo, b[lo..hi]) && |b[lo..hi]| == hi - lo
  {
  }

  lemma OpensIff(b: seq<byte>, p: nat)
    requires p <= |b|
    ensures
      match Opening(b, p, BYTES)
      case Some((fence, end)) => OpensSome(b, p) && OpensFence(b, p, fence, end, BYTES)
      case None => !OpensSome(b, p)
  {
    forall fence, end: nat
      ensures Opening(b, p, BYTES) == Some((fence, end)) <==> OpensFence(b, p, fence, end, BYTES)
    {
      OpeningIff(b, p, fence, end, BYTES);
    }
  }

  lemma ClosesIff(b: seq<byte>, p: nat, fence: Fence<byte>)
    requires p <= |b|
    ensures
      match Closing(b, p, fence, BYTES)
      case Some(end) => ClosesSome(b, p, fence) && ClosesFence(b, p, fence, end, BYTES)
      case None => !ClosesSome(b, p, fence)
  {
    forall end: nat ensures Closing(b, p, fence, BYTES) == Some(end) <==> ClosesFence(b, p, fence, end, BYTES) {
      ClosingIff(b, p, fence, end, BYTES);
    }
  }

  lemma GroupsIff(b: seq<byte>, p: nat)
    requires ValidFrom(b, p)
    ensures
      match GroupAt(b, p)
      case Some(e) => GroupsSome(b, p) && GroupFromTo(b, p, e)
      case None => !GroupsSome(b, p)
  {
    forall e: nat ensures GroupAt(b, p) == Some(e) <==> GroupFromTo(b, p, e) {
      GroupAtIff(b, p, e);
    }
  }

  lemma InFenceStep(b: seq<byte>, c: Cursor)
    requires Fits(b, c) && c.at < |b| && c.fence.Some?
    ensures InFenceObeys(b, SegmentAt(b, c), c.at, c.fence.value, c.lineStart)
  {
    NextFits(b, c);
    PieceIs(b, c.at, Next(b, c).at);
    ClosesIff(b, c.at, c.fence.value);
  }

  lemma GroupObeys(b: seq<byte>, c: Cursor)
    requires Fits(b, c) && c.at < |b| && TakesGroup(b, c)
    ensures OutsideObeys(b, SegmentAt(b, c), c.at, c.lineStart)
  {
    OpensIff(b, c.at);
    GroupsIff(b, c.at);
    SegmentOfGroup(b, c);
    PieceIs(b, c.at + 2, GroupAt(b, c.at).value);
  }

  lemma OpeningObeys(b: seq<byte>, c: Cursor)
    requires Fits(b, c) && c.at < |b| && c.fence.None? && c.lineStart && Opening(b, c.at, BYTES).Some?
    ensures OutsideObeys(b, SegmentAt(b, c), c.at, c.lineStart)
  {
    NextFits(b, c);
    OpensIff(b, c.at);
    PieceIs(b, c.at, Next(b, c).at);
  }

  lemma CopyObeys(b: seq<byte>, c: Cursor)
    requires Fits(b, c) && c.at < |b| && c.fence.None? && !TakesGroup(b, c)
    requires !(c.lineStart && Opening(b, c.at, BYTES).Some?)
    ensures OutsideObeys(b, SegmentAt(b, c), c.at, c.lineStart)
  {
    NextFits(b, c);
    OpensIff(b, c.at);
    PieceIs(b, c.at, Next(b, c).at);
    if b[c.at] == BACKTICK {
      InlineEndIs(b, c.at);
    } else {
      GroupsIff(b, c.at);
    }
  }

  lemma StepObeys(b: seq<byte>, c: Cursor)
    requires Fits(b, c) && c.at < |b|
    ensures Obeys(b, SegmentAt(b, c), c.at, c.fence, c.lineStart)
  {
    if c.fence.Some? {
      InFenceStep(b, c);
    } else if TakesGroup(b, c) {
      GroupObeys(b, c);
    } else if c.lineStart && Opening(b, c.at, BYTES).Some? {
      OpeningObeys(b, c);
    } else {
      CopyObeys(b, c);
    }
  }

  lemma SourcesStep(first: Segment, rest: seq<Segment>)
    ensures Sources([first] + rest) == first.Source() + Sources(rest)
  {
    assert ([first] + rest)[1..] == rest;
  }

  lemma {:induction false} SourcesSnoc(segments: seq<Segment>, segment: Segment)
    ensures Sources(segments + [segment]) == Sources(segments) + segment.Source()
  {
    if segments == [] {
      SourcesStep(segment, []);
    } else {
      var first, rest := segments[0], segments[1..];
      SourcesSnoc(rest, segment);
      SourcesStep(first, rest + [segment]);
      assert [first] + (rest + [segment]) == segments + [segment];
      Associative(first.Source(), Sources(rest), segment.Source());
    }
  }

  /** The cursor after the segments read so far. */
  ghost predicate CursorIs(c: Cursor, before: seq<Segment>) {
    c == Cursor(|Sources(before)|, StartsLine(before), FenceAfter(before))
  }

  lemma StepCursor(b: seq<byte>, c: Cursor, before: seq<Segment>)
    requires Fits(b, c) && c.at < |b| && CursorIs(c, before)
    ensures CursorIs(Next(b, c), before + [SegmentAt(b, c)])
  {
    var segment := SegmentAt(b, c);
    NextFits(b, c);
    SegmentIsInput(b, c);
    SourcesSnoc(before, segment);
    assert (before + [segment])[..|before|] == before;
    if segment.Char? {
      assert segment.text[0] == b[c.at];
      assert b[c.at] == NEWLINE ==> segment.text == [NEWLINE];
    }
  }

  /** The scan has read `before` and is at the cursor. */
  ghost predicate HasRead(b: seq<byte>, c: Cursor, before: seq<Segment>, segments: seq<Segment>) {
    Fits(b, c) && CursorIs(c, before) && segments == before + Scan(b, c)
  }

  lemma ScanStep(b: seq<byte>, c: Cursor)
    requires Fits(b, c) && c.at < |b|
    ensures Fits(b, Next(b, c)) && Scan(b, c) == [SegmentAt(b, c)] + Scan(b, Next(b, c))
  {
    NextFits(b, c);
  }

  lemma Shift<T>(before: seq<T>, x: T, rest: seq<T>, all: seq<T>)
    requires all == before + ([x] + rest)
    ensures all == before + [x] + rest && |before| < |all| && all[..|before|] == before && all[|before|] == x
  {
  }

  lemma ReadsOn(b: seq<byte>, c: Cursor, before: seq<Segment>, segments: seq<Segment>)
    requires HasRead(b, c, before, segments) && c.at < |b|
    ensures HasRead(b, Next(b, c), before + [SegmentAt(b, c)], segments)
    ensures |before| < |segments| && segments[..|before|] == before && segments[|before|] == SegmentAt(b, c)
  {
    ScanStep(b, c);
    StepCursor(b, c, before);
    Shift(before, SegmentAt(b, c), Scan(b, Next(b, c)), segments);
  }

  /** Where the scan is when it reads the segment at `k`. */
  lemma {:induction false} ReachesFrom(b: seq<byte>, c: Cursor, before: seq<Segment>, segments: seq<Segment>, k: nat)
    returns (d: Cursor)
    requires HasRead(b, c, before, segments) && |before| <= k < |segments|
    ensures HasRead(b, d, segments[..k], segments) && d.at < |b| && segments[k] == SegmentAt(b, d)
    decreases |segments| - |before|
  {
    assert c.at < |b|;
    ReadsOn(b, c, before, segments);
    if k == |before| {
      d := c;
    } else {
      d := ReachesFrom(b, Next(b, c), before + [SegmentAt(b, c)], segments, k);
    }
  }

  lemma Reaches(b: seq<byte>, k: nat) returns (c: Cursor)
    requires ValidFrom(b, 0) && k < |Scan(b, START)|
    ensures HasRead(b, c, Scan(b, START)[..k], Scan(b, START)) && c.at < |b| && Scan(b, START)[k] == SegmentAt(b, c)
  {
    c := ReachesFrom(b, START, [], Scan(b, START), k);
  }

  /** Each segment starts at a character boundary of the input and is either
      copied or a group. */
  lemma SegmentsFit(b: seq<byte>, segments: seq<Segment>, k: nat, at: nat)
    requires ValidFrom(b, 0) && segments == Scan(b, START) && k < |segments| && at == |Sources(segments[..k])|
    ensures SegmentFits(b, segments[k], at)
  {
    var c := Reaches(b, k);
    SegmentIsGroup(b, c);
    ValidStartsAtBoundary(b, c.at);
  }

  /** Each segment is what its place says: no group starts inside a fence or a
      code span, every backtick the scan reaches outside a fence starts a code
      span, and every unescaped opener with a later closer that it reaches there
      is a group. */
  lemma ScanObeys(b: seq<byte>, k: nat)
    requires ValidFrom(b, 0) && k < |Scan(b, START)|
    ensures ObeysAt(b, Scan(b, START), k)
  {
    var c := Reaches(b, k);
    StepObeys(b, c);
  }

  lemma CharStartsIt(b: seq<byte>, at: nat, p: nat)
    requires at < |b| && CharAt(b, at) && at <= p < at + LengthOf(b[at]) && b[p] <= 0x7F
    ensures p == at
  {
  }

  lemma NotACharacter(b: seq<byte>, segment: Segment, at: nat, p: nat, e: nat, lineStart: bool)
    requires ValidFrom(b, at) && Obeys(b, segment, at, None, lineStart) && GroupFromTo(b, p, e)
    requires at <= p < at + |segment.Source()|
    ensures !segment.Char?
  {
    if segment.Char? {
      CharStartsIt(b, at, p);
    }
  }

  /** An unescaped opener with a later closer is passed over only in code, in a
      fence or in another group. */
  lemma NoGroupMissed(b: seq<byte>, segments: seq<Segment>, k: nat, p: nat, e: nat)
    requires ValidFrom(b, 0) && segments == Scan(b, START) && k < |segments|
    requires |Sources(segments[..k])| <= p < |Sources(segments[..k])| + |segments[k].Source()|
    requires GroupFromTo(b, p, e)
    ensures segments[k].Char? ==> FenceAfter(segments[..k]).Some?
  {
    ScanObeys(b, k);
    SegmentsFit(b, segments, k, |Sources(segments[..k])|);
    if FenceAfter(segments[..k]).None? {
      NotACharacter(b, segments[k], |Sources(segments[..k])|, p, e, StartsLine(segments[..k]));
    }
  }

  /** The line behind a fence's opening line never closes it, not even if it is a
      closing line: a closing line comes right after a newline that the scan
      copied inside the fence. */
  lemma EmptyFenceStaysOpen(b: seq<byte>, segments: seq<Segment>, k: nat)
    requires ValidFrom(b, 0) && segments == Scan(b, START) && k < |segments|
    ensures segments[k].FenceClose? ==> k > 0 && segments[k - 1] == Char([NEWLINE])
    ensures k > 0 && segments[k - 1].FenceOpen? ==> segments[k].Char?
  {
    ScanObeys(b, k);
    if k > 0 {
      assert segments[..k][..k - 1] == segments[..k - 1];
    }
  }

  /** What a segment's image is: itself, or for a group what is between its
      delimiters, trimmed, between one dollar or two. */
  ghost predicate ImageTells(segment: Segment, image: seq<byte>) {
    match segment
    case Group(display, inner) =>
      exists t :: IsTrimmed(inner, t) && image == if display then [0x24, 0x24] + t + [0x24, 0x24] else [0x24] + t + [0x24]
    case _ => image == segment.text
  }

  lemma {:induction false} ImagesConcat(segments: seq<Segment>, more: seq<Segment>, all: seq<Segment>)
    requires all == segments + more
    ensures Images(all) == Images(segments) + Images(more)
  {
    if segments == [] {
      assert all == more;
    } else {
      var first, rest := segments[0], segments[1..];
      ImagesConcat(rest, more, all[1..]);
      assert all == [first] + all[1..];
      Associative(first.Image(), Images(rest), Images(more));
    }
  }

  lemma ImageIs(segment: Segment)
    ensures ImageTells(segment, segment.Image())
  {
    if segment.Group? {
      TrimIs(segment.inner);
    }
  }

  /** The output has, between what the segments before and after it give, each
      segment's image. */
  lemma OutputTells(b: seq<byte>, segments: seq<Segment>, k: nat)
    requires ValidFrom(b, 0) && segments == Scan(b, START) && k < |segments|
    ensures Images([]) == []
    ensures exists image ::
      ImageTells(segments[k], image) && Images(segments) == Images(segments[..k]) + image + Images(segments[k + 1..])
  {
    var image := segments[k].Image();
    ImageIs(segments[k]);
    ImagesConcat(segments[..k], segments[k..], segments);
    assert segments[k..][1..] == segments[k + 1..];
    Associative(Images(segments[..k]), image, Images(segments[k + 1..]));
  }
}
