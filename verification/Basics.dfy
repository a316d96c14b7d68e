// Vocabulary shared by the whole model: optional values, a few sequence
// functions, and JSON values with the accessors the code uses on them.

module Wrappers {
  datatype Option<+T> = None | Some(value: T)
}

module Sequences {
  import opened Wrappers

  /** The elements of `s` that satisfy `keep`, in order. */
  function Filter<T(!new)>(s: seq<T>, keep: T -> bool): (r: seq<T>)
    ensures forall x :: x in r <==> x in s && keep(x)
    ensures |r| <= |s|
  {
    if s == [] then []
    else
      var rest := Filter(s[..|s| - 1], keep);
      assert s == s[..|s| - 1] + [s[|s| - 1]];
      if keep(s[|s| - 1]) then rest + [s[|s| - 1]] else rest
  }

  ghost predicate NoDuplicates<T>(s: seq<T>) {
    forall i, j :: 0 <= i < j < |s| ==> s[i] != s[j]
  }

  lemma {:induction false} FilterAll<T(!new)>(s: seq<T>, keep: T -> bool)
    requires forall x :: x in s ==> keep(x)
    ensures Filter(s, keep) == s
  {
    if s != [] {
      assert s == s[..|s| - 1] + [s[|s| - 1]];
      FilterAll(s[..|s| - 1], keep);
    }
  }

  lemma {:induction false} FilterAlike<T(!new)>(s: seq<T>, keep: T -> bool, keep': T -> bool)
    requires forall x :: keep(x) <==> keep'(x)
    ensures Filter(s, keep) == Filter(s, keep')
  {
    if s != [] {
      FilterAlike(s[..|s| - 1], keep, keep');
    }
  }

  /** `at` lists, in order, the places of the elements that satisfy `keep`, and
      `kept` has just these. */
  ghost predicate SelectsAt<T>(s: seq<T>, keep: T -> bool, kept: seq<T>, at: seq<nat>) {
    && |at| == |kept|
    && (forall k :: 0 <= k < |at| ==> at[k] < |s| && kept[k] == s[at[k]])
    && (forall j, k :: 0 <= j < k < |at| ==> at[j] < at[k])
    && (forall i: nat :: i in at <==> i < |s| && keep(s[i]))
  }

  /** `kept` is what is left of `s`, in order, without the elements that do not
      satisfy `keep`. */
  ghost predicate Selects<T>(s: seq<T>, keep: T -> bool, kept: seq<T>) { exists at :: SelectsAt(s, keep, kept, at) }

  lemma SelectsAtSnoc<T>(s: seq<T>, keep: T -> bool, kept: seq<T>, at: seq<nat>, x: T)
    requires SelectsAt(s, keep, kept, at)
    ensures keep(x) ==> SelectsAt(s + [x], keep, kept + [x], at + [|s|])
    ensures !keep(x) ==> SelectsAt(s + [x], keep, kept, at)
  {
    var all := s + [x];
    assert forall i: nat :: i < |s| ==> all[i] == s[i];
    if keep(x) {
      var more := at + [|s|];
      forall i: nat ensures i in more <==> i < |all| && keep(all[i]) {
        assert more[|at|] == |s|;
        assert i in at ==> i in more;
      }
    }
  }

  lemma SelectsSnoc<T>(s: seq<T>, keep: T -> bool, kept: seq<T>, x: T)
    requires Selects(s, keep, kept)
    ensures Selects(s + [x], keep, if keep(x) then kept + [x] else kept)
  {
    var at :| SelectsAt(s, keep, kept, at);
    SelectsAtSnoc(s, keep, kept, at, x);
  }

  lemma SelectsNone<T>(keep: T -> bool)
    ensures Selects([], keep, [])
  {
    assert SelectsAt([], keep, [], []);
  }

  /** What `Filter` keeps, by places in the list. */
  lemma {:induction false} FilterSelects<T(!new)>(s: seq<T>, keep: T -> bool)
    ensures Selects(s, keep, Filter(s, keep))
  {
    if s == [] {
      SelectsNone(keep);
    } else {
      var front, x := s[..|s| - 1], s[|s| - 1];
      FrontLast(s);
      FilterSelects(front, keep);
      SelectsSnoc(front, keep, Filter(front, keep), x);
    }
  }

  /** The sequence without its element `i`. */
  function RemoveAt<T>(s: seq<T>, i: nat): seq<T>
    requires i < |s|
  {
    s[..i] + s[i + 1..]
  }

  lemma FrontLast<T>(s: seq<T>)
    requires s != []
    ensures s == s[..|s| - 1] + [s[|s| - 1]]
  {
  }

  lemma TakeSnoc<T>(s: seq<T>, n: nat)
    requires n < |s|
    ensures s[..n + 1] == s[..n] + [s[n]]
    ensures s[..n + 1][..n] == s[..n]
  {
  }

  lemma Associative<T>(a: seq<T>, b: seq<T>, c: seq<T>)
    ensures (a + b) + c == a + (b + c)
  {
  }

  lemma TakeAll<T>(s: seq<T>)
    ensures s[..|s|] == s
  {
  }
}

module Json {
  import opened Wrappers

  /** Strings that name a message role are kept apart from other strings. */
  datatype MessageRole = System | User | Assistant | Tool

  /** Object keys: those the recovery code names, and any other. */
  datatype Key =
    | Role | Content | Name | Id | Function | Type | Timestamp
    | ToolCallId | ToolCallList | ReasoningContent | ThinkingBlocks
    | TurnMessages | AssistantMessage | CompletedToolResults | PendingToolCalls
    | Other(name: string)

  datatype Value =
    | Null
    | Bool(b: bool)
    | Number(n: int)
    | Str(s: string)
    | RoleName(role: MessageRole)
    | Array(items: seq<Value>)
    | Object(fields: map<Key, Value>)

  /** `value.get(key)`: defined on objects only. */
  function Get(v: Value, key: Key): Option<Value> {
    if v.Object? && key in v.fields then Some(v.fields[key]) else None
  }

  function AsStr(v: Option<Value>): Option<string> {
    if v.Some? && v.value.Str? then Some(v.value.s) else None
  }

  function AsArray(v: Option<Value>): Option<seq<Value>> {
    if v.Some? && v.value.Array? then Some(v.value.items) else None
  }

  predicate HasRole(v: Value, role: MessageRole) {
    Get(v, Role) == Some(RoleName(role))
  }
}

module Text {
  import opened Sequences

  /** Unicode white space, as Rust's `char::is_whitespace` has it. */
  predicate IsWhitespace(c: char) {
    var code := c as int;
    || 0x09 <= code <= 0x0D || code == 0x20 || code == 0x85 || code == 0xA0 || code == 0x1680
    || 0x2000 <= code <= 0x200A || code == 0x2028 || code == 0x2029 || code == 0x202F
    || code == 0x205F || code == 0x3000
  }

  function TrimStart(s: string): (r: string)
    ensures |r| <= |s|
  {
    if s != "" && IsWhitespace(s[0]) then TrimStart(s[1..]) else s
  }

  function TrimEnd(s: string): string {
    if s != "" && IsWhitespace(s[|s| - 1]) then TrimEnd(s[..|s| - 1]) else s
  }

  function Trim(s: string): string { TrimEnd(TrimStart(s)) }

  predicate IsTrimmed(s: string) {
    s == "" || (!IsWhitespace(s[0]) && !IsWhitespace(s[|s| - 1]))
  }

  lemma {:induction false} TrimStartIs(s: string)
    ensures |TrimStart(s)| <= |s| && TrimStart(s) == s[|s| - |TrimStart(s)|..]
    ensures TrimStart(s) != "" ==> !IsWhitespace(TrimStart(s)[0])
  {
    if s != "" && IsWhitespace(s[0]) {
      TrimStartIs(s[1..]);
    }
  }

  lemma {:induction false} TrimEndIs(s: string)
    ensures |TrimEnd(s)| <= |s| && TrimEnd(s) == s[..|TrimEnd(s)|]
    ensures TrimEnd(s) != "" ==> !IsWhitespace(TrimEnd(s)[|TrimEnd(s)| - 1])
  {
    if s != "" && IsWhitespace(s[|s| - 1]) {
      TrimEndIs(s[..|s| - 1]);
    }
  }

  lemma TrimIs(s: string)
    ensures IsTrimmed(Trim(s))
  {
    TrimStartIs(s);
    TrimEndIs(TrimStart(s));
  }

  lemma TrimmedStays(s: string)
    requires IsTrimmed(s)
    ensures TrimStart(s) == TrimEnd(s) == Trim(s) == s
  {
  }

  predicate AllBlank(s: string) { forall i :: 0 <= i < |s| ==> IsWhitespace(s[i]) }

  lemma {:induction false} BlankTrimsAway(s: string)
    requires AllBlank(s)
    ensures TrimStart(s) == ""
  {
    if s != "" {
      assert forall i :: 0 <= i < |s| - 1 ==> s[1..][i] == s[i + 1];
      BlankTrimsAway(s[1..]);
    }
  }

  lemma {:induction false} FirstStays(s: string)
    requires s != "" && !IsWhitespace(s[0])
    ensures TrimEnd(s) != ""
  {
    if IsWhitespace(s[|s| - 1]) {
      FirstStays(s[..|s| - 1]);
    }
  }

  /** Nothing is left exactly of white space. */
  lemma TrimmedToNothing(s: string)
    ensures Trim(s) == "" <==> AllBlank(s)
  {
    var t := TrimStart(s);
    LeadingIsBlank(s);
    TrimStartIs(s);
    assert s[..|s|] == s;
    if AllBlank(s) {
      BlankTrimsAway(s);
    } else if t != "" {
      FirstStays(t);
    }
  }

  /** Leading white space does not matter. */
  lemma {:induction false} TrimSkips(blank: string, s: string)
    requires AllBlank(blank)
    ensures TrimStart(blank + s) == TrimStart(s)
  {
    if blank == "" {
      assert blank + s == s;
    } else {
      assert (blank + s)[1..] == blank[1..] + s;
      TrimSkips(blank[1..], s);
    }
  }

  lemma BlankCons(s: string, n: nat)
    requires 0 < n <= |s| && IsWhitespace(s[0]) && AllBlank(s[1..][..n - 1])
    ensures AllBlank(s[..n])
  {
    forall i | 0 <= i < n ensures IsWhitespace(s[..n][i]) {
      if i > 0 {
        assert s[..n][i] == s[1..][..n - 1][i - 1];
      }
    }
  }

  /** The skipped characters are white space. */
  lemma {:induction false} LeadingIsBlank(s: string)
    ensures AllBlank(s[..|s| - |TrimStart(s)|])
  {
    if s != "" && IsWhitespace(s[0]) {
      LeadingIsBlank(s[1..]);
      BlankCons(s, |s| - |TrimStart(s)|);
    }
  }

  lemma {:induction false} TrailingIsBlank(s: string)
    ensures TrimEnd(s) <= s && AllBlank(s[|TrimEnd(s)|..])
  {
    TrimEndIs(s);
    if s != "" && IsWhitespace(s[|s| - 1]) {
      TrailingIsBlank(s[..|s| - 1]);
      var n := |TrimEnd(s)|;
      forall i | 0 <= i < |s| - n ensures IsWhitespace(s[n..][i]) {
        assert n + i < |s| - 1 ==> s[n..][i] == s[..|s| - 1][n..][i];
      }
    }
  }

  /** `t` is `s` without the white space around it. */
  ghost predicate IsTrimOf(s: string, t: string) {
    IsTrimmed(t) && exists before, after :: s == before + t + after && AllBlank(before) && AllBlank(after)
  }

  lemma TrimTells(s: string)
    ensures IsTrimOf(s, Trim(s))
  {
    var rest := TrimStart(s);
    TrimIs(s);
    LeadingIsBlank(s);
    TrimStartIs(s);
    TrailingIsBlank(rest);
    assert rest == Trim(s) + rest[|Trim(s)|..];
    assert s == s[..|s| - |rest|] + Trim(s) + rest[|Trim(s)|..];
  }

  lemma {:induction false} TrimEndSkips(t: string, blank: string)
    requires t != "" && !IsWhitespace(t[|t| - 1]) && AllBlank(blank)
    ensures TrimEnd(t + blank) == t
    decreases |blank|
  {
    if blank == "" {
      assert t + blank == t;
    } else {
      var front := blank[..|blank| - 1];
      assert (t + blank)[..|t + blank| - 1] == t + front;
      TrimEndSkips(t, front);
    }
  }

  lemma OneTrim(s: string, t: string)
    requires IsTrimOf(s, t)
    ensures t == Trim(s)
  {
    var before, after :| s == before + t + after && AllBlank(before) && AllBlank(after);
    if t == "" {
      TrimmedToNothing(s);
    } else {
      assert s == before + (t + after);
      TrimSkips(before, t + after);
      TrimEndSkips(t, after);
    }
  }

  /** Trimming the end first or the start first is the same. */
  lemma {:induction false} TrimCommutes(s: string)
    ensures TrimStart(TrimEnd(s)) == Trim(s)
    decreases |s|
  {
    if s != "" {
      if IsWhitespace(s[0]) {
        TrimCommutes(s[1..]);
        TrimEndTail(s);
      } else {
        TrimEndHead(s);
      }
    }
  }

  lemma {:induction false} TrimEndTail(s: string)
    requires s != "" && IsWhitespace(s[0])
    ensures TrimStart(TrimEnd(s)) == TrimStart(TrimEnd(s[1..]))
  {
    if |s| > 1 && IsWhitespace(s[|s| - 1]) {
      assert s[..|s| - 1][1..] == s[1..][..|s| - 2];
      TrimEndTail(s[..|s| - 1]);
    } else if |s| == 1 {
      assert s[..0] == "" && s[1..] == "";
    } else {
      assert s[1..][|s| - 2] == s[|s| - 1];
    }
  }

  lemma {:induction false} TrimEndHead(s: string)
    requires s != "" && !IsWhitespace(s[0])
    ensures TrimEnd(s) != "" && TrimEnd(s)[0] == s[0]
  {
    if IsWhitespace(s[|s| - 1]) {
      TrimEndHead(s[..|s| - 1]);
    }
  }

  // ---------------------------------------------------------------------
  // Splitting
  // ---------------------------------------------------------------------

  /** More text for the last piece. */
  function ExtendLast(parts: seq<string>, x: string): (r: seq<string>)
    requires parts != []
    ensures r != []
  {
    parts[..|parts| - 1] + [parts[|parts| - 1] + x]
  }

  /** The pieces between separators, at least one. */
  function Split(s: string, sep: char): (parts: seq<string>)
    ensures parts != []
  {
    if s == "" then [""]
    else
      var rest, last := Split(s[..|s| - 1], sep), s[|s| - 1];
      if last == sep then rest + [""] else ExtendLast(rest, [last])
  }

  function Join(parts: seq<string>, sep: char): string
    requires parts != []
  {
    if |parts| == 1 then parts[0] else Join(parts[..|parts| - 1], sep) + [sep] + parts[|parts| - 1]
  }

  lemma SplitSnoc(s: string, c: char, sep: char)
    ensures Split(s + [c], sep) == if c == sep then Split(s, sep) + [""] else ExtendLast(Split(s, sep), [c])
  {
    assert (s + [c])[..|s|] == s;
  }

  lemma ExtendLastTwice(parts: seq<string>, x: string, y: string)
    requires parts != []
    ensures ExtendLast(ExtendLast(parts, x), y) == ExtendLast(parts, x + y)
    ensures ExtendLast(parts, "") == parts
  {
    var last := parts[|parts| - 1];
    assert last + x + y == last + (x + y) && last + "" == last;
  }

  lemma SplitAppendStep(s: string, front: string, c: char, sep: char)
    requires c != sep && Split(s + front, sep) == ExtendLast(Split(s, sep), front)
    ensures Split(s + (front + [c]), sep) == ExtendLast(Split(s, sep), front + [c])
  {
    SplitSnoc(s + front, c, sep);
    ExtendLastTwice(Split(s, sep), front, [c]);
    assert s + front + [c] == s + (front + [c]);
  }

  lemma LastChar(x: string, c: char)
    requires x != "" && c !in x
    ensures x == x[..|x| - 1] + [x[|x| - 1]] && c !in x[..|x| - 1] && c != x[|x| - 1]
  {
  }

  lemma {:induction false} SplitAppend(s: string, x: string, sep: char)
    requires sep !in x
    ensures Split(s + x, sep) == ExtendLast(Split(s, sep), x)
  {
    if x == "" {
      assert s + x == s;
      ExtendLastTwice(Split(s, sep), "", "");
    } else {
      LastChar(x, sep);
      SplitAppend(s, x[..|x| - 1], sep);
      SplitAppendStep(s, x[..|x| - 1], x[|x| - 1], sep);
    }
  }

  lemma {:induction false} SplitPieces(s: string, sep: char)
    ensures forall p :: p in Split(s, sep) ==> sep !in p
  {
    if s != "" {
      SplitPieces(s[..|s| - 1], sep);
    }
  }

  /** One more piece after a separator. */
  lemma SplitNext(s: string, piece: string, sep: char)
    requires sep !in piece
    ensures Split(s + [sep] + piece, sep) == Split(s, sep) + [piece]
  {
    SplitSnoc(s, sep, sep);
    SplitAppend(s + [sep], piece, sep);
    ExtendEmpty(Split(s, sep), piece);
  }

  lemma ExtendEmpty(parts: seq<string>, piece: string)
    ensures ExtendLast(parts + [""], piece) == parts + [piece]
  {
    assert "" + piece == piece;
  }

  lemma SplitAlone(piece: string, sep: char)
    requires sep !in piece
    ensures Split(piece, sep) == [piece]
  {
    SplitAppend("", piece, sep);
    ExtendEmpty([], piece);
    assert "" + piece == piece && [] + [""] == [""];
  }

  lemma JoinExtends(parts: seq<string>, x: string, sep: char)
    requires parts != []
    ensures Join(ExtendLast(parts, x), sep) == Join(parts, sep) + x
  {
    var front := parts[..|parts| - 1];
    if |parts| > 1 {
      assert ExtendLast(parts, x)[..|parts| - 1] == front;
      Associative(Join(front, sep) + [sep], parts[|parts| - 1], x);
    }
  }

  /** The pieces, joined again, are the text; with `SplitPieces` this determines
      them. */
  lemma {:induction false} JoinSplit(s: string, sep: char)
    ensures Join(Split(s, sep), sep) == s
  {
    if s != "" {
      var rest, last := Split(s[..|s| - 1], sep), s[|s| - 1];
      JoinSplit(s[..|s| - 1], sep);
      FrontLast(s);
      if last == sep {
        assert (rest + [""])[..|rest|] == rest;
      } else {
        JoinExtends(rest, [last], sep);
      }
    }
  }

  lemma SplitJoinStep(front: seq<string>, last: string, sep: char)
    requires front != [] && sep !in last && Split(Join(front, sep), sep) == front
    ensures Split(Join(front + [last], sep), sep) == front + [last]
  {
    assert (front + [last])[..|front|] == front;
    SplitNext(Join(front, sep), last, sep);
  }

  lemma {:induction false} SplitJoin(parts: seq<string>, sep: char)
    requires parts != [] && forall p :: p in parts ==> sep !in p
    ensures Split(Join(parts, sep), sep) == parts
  {
    if |parts| == 1 {
      SplitAlone(parts[0], sep);
    } else {
      SplitJoin(parts[..|parts| - 1], sep);
      SplitJoinStep(parts[..|parts| - 1], parts[|parts| - 1], sep);
      FrontLast(parts);
    }
  }
}
