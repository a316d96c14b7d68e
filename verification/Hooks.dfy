// How the decisions of several hooks about one tool call combine.

module Hooks {
  import opened Wrappers
  import opened Sequences

  /** What a hook wants done with a finished call's result. */
  datatype Decision = Decision(replacement: Option<string>, blockReason: Option<string>, addedContext: seq<string>)

  datatype Verdict = Allow | Deny(reason: string)

  datatype Outcome<T> = Returned(value: T) | Panicked

  /** A hook's answers: to a result's text, to an authorization request (whose
      details all hooks see alike), and to a revocation. */
  datatype Hook = Hook(afterCall: string -> Outcome<Decision>, authorize: Outcome<Verdict>, revoke: Option<bool>)

  const ACCEPT := Decision(None, None, [])
  const PANIC_RESULT := "A tool-result hook panicked; the result was withheld for safety"
  const PANIC_DENY := "A tool-approval hook panicked; tool calls were blocked for safety"

  function Block(reason: string): Decision { Decision(None, Some(reason), []) }

  function OrElse<T>(a: Option<T>, b: Option<T>): Option<T> { if a.Some? then a else b }

  function Then(first: Decision, later: Decision): Decision {
    Decision(OrElse(later.replacement, first.replacement), OrElse(first.blockReason, later.blockReason),
             first.addedContext + later.addedContext)
  }

  /** Combining is a monoid: the grouping of hooks does not matter. */
  lemma ThenIsMonoid(a: Decision, b: Decision, c: Decision)
    ensures Then(ACCEPT, a) == a && Then(a, ACCEPT) == a
    ensures Then(Then(a, b), c) == Then(a, Then(b, c))
  {
    assert a.addedContext + b.addedContext + c.addedContext == a.addedContext + (b.addedContext + c.addedContext);
  }

  /** The text a later hook sees. */
  function Seen(content: string, d: Decision): string {
    if d.replacement.Some? then d.replacement.value else content
  }

  /** A list of hooks run in order, first block last. */
  function Composite(hooks: seq<Hook>, content: string): Decision {
    if hooks == [] then ACCEPT
    else
      match hooks[0].afterCall(content)
      case Panicked => Block(PANIC_RESULT)
      case Returned(d) => if d.blockReason.Some? then d else Then(d, Composite(hooks[1..], Seen(content, d)))
  }

  method CompositeAfterCall(hooks: seq<Hook>, content: string) returns (decision: Decision)
    ensures decision == Composite(hooks, content)
  {
    decision := ACCEPT;
    var n := 0;
    while n < |hooks|
      invariant 0 <= n <= |hooks|
      invariant decision.blockReason.None?
      invariant Composite(hooks, content) == Then(decision, Composite(hooks[n..], Seen(content, decision)))
    {
      var rest := hooks[n..];
      assert rest[0] == hooks[n] && rest[1..] == hooks[n + 1..];
      match hooks[n].afterCall(Seen(content, decision)) {
        case Returned(next) =>
          ThenIsMonoid(decision, next, Composite(hooks[n + 1..], Seen(Seen(content, decision), next)));
          decision := Then(decision, next);
        case Panicked =>
          return Then(decision, Block(PANIC_RESULT));
      }
      if decision.blockReason.Some? {
        return;
      }
      n := n + 1;
    }
    ThenIsMonoid(decision, ACCEPT, ACCEPT);
  }

  /** The core hook before the others; it is not shielded from a panic. */
  function Chain(primary: Hook, extras: seq<Hook>, content: string): Outcome<Decision> {
    match primary.afterCall(content)
    case Panicked => Panicked
    case Returned(d) =>
      Returned(if d.blockReason.Some? then d else Then(d, Composite(extras, Seen(content, d))))
  }

  /** The chain is the composite of the flattened list exactly when the core
      hook does not panic on this result. */
  lemma ChainIsComposite(primary: Hook, extras: seq<Hook>, content: string)
    ensures Chain(primary, extras, content) == Returned(Composite([primary] + extras, content))
       <==> !primary.afterCall(content).Panicked?
    ensures primary.afterCall(content).Panicked? ==> Chain(primary, extras, content) == Panicked
  {
    assert ([primary] + extras)[1..] == extras;
  }

  /** A composite inside a composite is the flattened list: after the first
      part, unless it blocked, the second goes on from the text it left. */
  lemma {:induction false} CompositeConcat(a: seq<Hook>, b: seq<Hook>, content: string)
    ensures Composite(a + b, content) ==
      var d := Composite(a, content);
      if d.blockReason.Some? then d else Then(d, Composite(b, Seen(content, d)))
  {
    if a == [] {
      assert a + b == b;
      ThenIsMonoid(Composite(b, content), ACCEPT, ACCEPT);
    } else {
      assert (a + b)[1..] == a[1..] + b;
      match a[0].afterCall(content)
      case Panicked =>
      case Returned(d) =>
        if d.blockReason.None? {
          var next := Composite(a[1..], Seen(content, d));
          CompositeConcat(a[1..], b, Seen(content, d));
          ThenIsMonoid(d, next, Composite(b, Seen(Seen(content, d), next)));
        }
    }
  }

  // ---------------------------------------------------------------------
  // What the combined decision is
  // ---------------------------------------------------------------------

  function FirstBlock(ds: seq<Decision>): Option<string> {
    if ds == [] then None else OrElse(ds[0].blockReason, FirstBlock(ds[1..]))
  }

  function LastReplacement(ds: seq<Decision>): Option<string> {
    if ds == [] then None else OrElse(LastReplacement(ds[1..]), ds[0].replacement)
  }

  function Contexts(ds: seq<Decision>): seq<string> {
    if ds == [] then [] else ds[0].addedContext + Contexts(ds[1..])
  }

  /** What each hook that was asked decided; a panic counts as a block. */
  function Asked(hooks: seq<Hook>, content: string): seq<Decision> {
    if hooks == [] then []
    else
      match hooks[0].afterCall(content)
      case Panicked => [Block(PANIC_RESULT)]
      case Returned(d) => [d] + (if d.blockReason.Some? then [] else Asked(hooks[1..], Seen(content, d)))
  }

  /** The composite's decision: the first block, the last replacement, all
      contexts in order. */
  lemma {:induction false} CompositeIs(hooks: seq<Hook>, content: string)
    ensures
      var ds := Asked(hooks, content);
      Composite(hooks, content) == Decision(LastReplacement(ds), FirstBlock(ds), Contexts(ds))
  {
    if hooks != [] {
      match hooks[0].afterCall(content)
      case Panicked =>
        assert [Block(PANIC_RESULT)][1..] == [];
      case Returned(d) =>
        if d.blockReason.None? {
          var rest := Asked(hooks[1..], Seen(content, d));
          CompositeIs(hooks[1..], Seen(content, d));
          assert ([d] + rest)[1..] == rest;
        } else {
          assert [d][1..] == [];
          assert d.addedContext + [] == d.addedContext;
        }
    }
  }

  /** `r` is the last replacement among the decisions, if there is one. */
  ghost predicate IsLastReplacement(ds: seq<Decision>, r: Option<string>) {
    if r.None? then forall k :: 0 <= k < |ds| ==> ds[k].replacement.None?
    else exists j :: 0 <= j < |ds| && ds[j].replacement == r && forall k :: j < k < |ds| ==> ds[k].replacement.None?
  }

  /** `r` is the first block among them. */
  ghost predicate IsFirstBlock(ds: seq<Decision>, r: Option<string>) {
    if r.None? then forall k :: 0 <= k < |ds| ==> ds[k].blockReason.None?
    else exists j :: 0 <= j < |ds| && ds[j].blockReason == r && forall k :: 0 <= k < j ==> ds[k].blockReason.None?
  }

  /** The text as the decisions left it: that of the last replacement, or the
      result's own. */
  ghost predicate IsTextLeft(ds: seq<Decision>, content: string, text: string) {
    IsLastReplacement(ds, Some(text)) || (IsLastReplacement(ds, None) && text == content)
  }

  /** What a hook decides about a text; a panic counts as a block. */
  predicate Decides(hook: Hook, text: string, d: Decision) {
    match hook.afterCall(text)
    case Panicked => d == Decision(None, Some(PANIC_RESULT), [])
    case Returned(own) => d == own
  }

  lemma {:induction false} LastReplacementIs(ds: seq<Decision>)
    ensures IsLastReplacement(ds, LastReplacement(ds))
  {
    if ds != [] {
      var rest := ds[1..];
      LastReplacementIs(rest);
      if LastReplacement(rest).Some? {
        var j :| 0 <= j < |rest| && rest[j].replacement == LastReplacement(rest) && forall k :: j < k < |rest| ==> rest[k].replacement.None?;
        assert ds[j + 1].replacement == LastReplacement(ds);
        assert forall k :: j + 1 < k < |ds| ==> ds[k] == rest[k - 1];
      } else {
        assert forall k :: 0 < k < |ds| ==> ds[k] == rest[k - 1];
      }
    }
  }

  lemma {:induction false} FirstBlockIs(ds: seq<Decision>)
    ensures IsFirstBlock(ds, FirstBlock(ds))
  {
    if ds != [] && ds[0].blockReason.None? {
      var rest := ds[1..];
      FirstBlockIs(rest);
      assert forall k :: 0 < k < |ds| ==> ds[k] == rest[k - 1];
      if FirstBlock(rest).Some? {
        var j :| 0 <= j < |rest| && rest[j].blockReason == FirstBlock(rest) && forall k :: 0 <= k < j ==> rest[k].blockReason.None?;
        assert ds[j + 1].blockReason == FirstBlock(ds);
      }
    }
  }

  lemma {:induction false} ContextsConcat(a: seq<Decision>, b: seq<Decision>)
    ensures Contexts([]) == [] && (forall d :: Contexts([d]) == d.addedContext)
    ensures Contexts(a + b) == Contexts(a) + Contexts(b)
  {
    forall d ensures Contexts([d]) == d.addedContext {
      assert [d][1..] == [];
    }
    if a == [] {
      assert a + b == b;
    } else {
      ContextsConcat(a[1..], b);
      assert (a + b)[1..] == a[1..] + b;
    }
  }

  /** The composite replaces the text by the last replacement and blocks with the
      first block; it does so exactly if some hook that was asked did. */
  lemma CompositeTells(hooks: seq<Hook>, content: string)
    ensures
      var d := Composite(hooks, content);
      IsLastReplacement(Asked(hooks, content), d.replacement) && IsFirstBlock(Asked(hooks, content), d.blockReason)
  {
    CompositeIs(hooks, content);
    LastReplacementIs(Asked(hooks, content));
    FirstBlockIs(Asked(hooks, content));
  }

  lemma {:induction false} AskedAt(hooks: seq<Hook>, content: string, i: nat)
    requires i < |Asked(hooks, content)|
    ensures |Asked(hooks, content)| <= |hooks|
    ensures
      var ds := Asked(hooks, content);
      && Decides(hooks[i], Seen(content, Decision(LastReplacement(ds[..i]), None, [])), ds[i])
      && (ds[i].blockReason.Some? ==> i == |ds| - 1)
    decreases |hooks|
  {
    AskedLength(hooks, content);
    var ds := Asked(hooks, content);
    if i > 0 {
      var d := ds[0];
      assert ds[1..] == Asked(hooks[1..], Seen(content, d));
      AskedAt(hooks[1..], Seen(content, d), i - 1);
      assert ds[1..][..i - 1] == ds[1..i] == ds[..i][1..];
    }
  }

  /** Each hook is asked about the text as the last replacement before it left
      it, nobody is asked after a block, and without one everybody is. */
  lemma AskedAre(hooks: seq<Hook>, content: string, i: nat)
    requires i < |Asked(hooks, content)|
    ensures |Asked(hooks, content)| <= |hooks|
    ensures exists text ::
      IsTextLeft(Asked(hooks, content)[..i], content, text) && Decides(hooks[i], text, Asked(hooks, content)[i])
    ensures Asked(hooks, content)[i].blockReason.Some? ==> i == |Asked(hooks, content)| - 1
  {
    var before := Asked(hooks, content)[..i];
    AskedAt(hooks, content, i);
    LastReplacementIs(before);
    var text := Seen(content, Decision(LastReplacement(before), None, []));
    assert IsTextLeft(before, content, text);
  }

  /** Everybody is asked unless somebody blocks. */
  lemma {:induction false} AskedLength(hooks: seq<Hook>, content: string)
    ensures |Asked(hooks, content)| <= |hooks|
    ensures IsFirstBlock(Asked(hooks, content), None) ==> |Asked(hooks, content)| == |hooks|
    ensures hooks != [] ==> Asked(hooks, content) != []
  {
    if hooks != [] {
      match hooks[0].afterCall(content)
      case Panicked =>
        assert Asked(hooks, content)[0].blockReason.Some?;
      case Returned(d) =>
        assert Asked(hooks, content)[0] == d;
        if d.blockReason.None? {
          var rest := Asked(hooks[1..], Seen(content, d));
          AskedLength(hooks[1..], Seen(content, d));
          assert Asked(hooks, content) == [d] + rest;
          assert forall k :: 0 <= k < |rest| ==> rest[k] == ([d] + rest)[k + 1];
        }
    }
  }

  // ---------------------------------------------------------------------
  // Authorization and revocation
  // ---------------------------------------------------------------------

  /** A hook's verdict as a composite takes it: a panic denies. */
  function Shielded(hook: Hook): Verdict {
    match hook.authorize
    case Returned(v) => v
    case Panicked => Deny(PANIC_DENY)
  }

  /** The first verdict that does not allow the call. */
  function FirstDenial(hooks: seq<Hook>): Verdict {
    if hooks == [] then Allow
    else if Shielded(hooks[0]).Allow? then FirstDenial(hooks[1..])
    else Shielded(hooks[0])
  }

  lemma {:induction false} FirstDenialAt(hooks: seq<Hook>, n: nat)
    requires n <= |hooks| && forall j :: 0 <= j < n ==> Shielded(hooks[j]).Allow?
    ensures FirstDenial(hooks) == FirstDenial(hooks[n..])
    decreases n
  {
    if n == 0 {
      assert hooks[0..] == hooks;
    } else {
      FirstDenialAt(hooks[1..], n - 1);
      assert hooks[1..][n - 1..] == hooks[n..];
    }
  }

  /** The core hook's verdict, and that of the others if it allows the call; the
      core hook is not shielded from a panic. */
  function ChainVerdict(primary: Hook, extras: seq<Hook>): Outcome<Verdict> {
    match primary.authorize
    case Panicked => Panicked
    case Returned(v) => Returned(if v.Allow? then FirstDenial(extras) else v)
  }

  /** The chain authorizes like the composite of the flattened list exactly when
      the core hook does not panic; then the call is allowed exactly if every hook
      allows it. */
  lemma ChainVerdictIs(primary: Hook, extras: seq<Hook>)
    ensures ChainVerdict(primary, extras) == Returned(FirstDenial([primary] + extras)) <==> !primary.authorize.Panicked?
    ensures primary.authorize.Panicked? ==> ChainVerdict(primary, extras) == Panicked
    ensures ChainVerdict(primary, extras) == Returned(Allow)
       <==> primary.authorize == Returned(Allow) && forall i :: 0 <= i < |extras| ==> Shielded(extras[i]).Allow?
  {
    assert ([primary] + extras)[1..] == extras;
    AllowedIff(extras);
  }

  lemma {:induction false} AllowedIff(hooks: seq<Hook>)
    ensures FirstDenial(hooks).Allow? <==> forall i :: 0 <= i < |hooks| ==> Shielded(hooks[i]).Allow?
  {
    if hooks != [] {
      AllowedIff(hooks[1..]);
      if FirstDenial(hooks).Allow? {
        forall i | 0 <= i < |hooks| ensures Shielded(hooks[i]).Allow? {
          assert i > 0 ==> hooks[i] == hooks[1..][i - 1];
        }
      }
    }
  }

  /** Asks in order and returns the first denial; the call is allowed exactly
      when every hook allows it. */
  method CompositeAuthorize(hooks: seq<Hook>) returns (verdict: Verdict)
    ensures verdict == FirstDenial(hooks)
    ensures verdict.Allow? <==> forall i :: 0 <= i < |hooks| ==> Shielded(hooks[i]).Allow?
    ensures verdict.Deny? ==> exists i :: 0 <= i < |hooks| && Shielded(hooks[i]) == verdict
                                          && forall j :: 0 <= j < i ==> Shielded(hooks[j]).Allow?
  {
    for n := 0 to |hooks|
      invariant forall j :: 0 <= j < n ==> Shielded(hooks[j]).Allow?
    {
      FirstDenialAt(hooks, n);
      match hooks[n].authorize {
        case Returned(v) =>
          if v.Deny? {
            return Shielded(hooks[n]);
          }
        case Panicked =>
          return Shielded(hooks[n]);
      }
    }
    FirstDenialAt(hooks, |hooks|);
    verdict := Allow;
  }

  method ChainAuthorize(primary: Hook, extras: seq<Hook>) returns (verdict: Outcome<Verdict>)
    ensures verdict == ChainVerdict(primary, extras)
    ensures !primary.authorize.Panicked? ==> verdict == Returned(FirstDenial([primary] + extras))
  {
    ChainVerdictIs(primary, extras);
    match primary.authorize {
      case Panicked =>
        verdict := Panicked;
      case Returned(v) =>
        verdict := Returned(v);
        if v.Allow? {
          var others := CompositeAuthorize(extras);
          verdict := Returned(others);
        }
    }
  }

  function Combined(a: Option<bool>, b: Option<bool>): Option<bool> {
    if a == Some(true) || b == Some(true) then Some(true)
    else if a == Some(false) || b == Some(false) then Some(false)
    else None
  }

  method CombineRevocations(answers: seq<Option<bool>>) returns (combined: Option<bool>)
    ensures combined == Some(true) <==> Some(true) in answers
    ensures combined == Some(false) <==> Some(false) in answers && Some(true) !in answers
  {
    combined := None;
    for n := 0 to |answers|
      invariant combined == Some(true) <==> Some(true) in answers[..n]
      invariant combined == Some(false) <==> Some(false) in answers[..n] && Some(true) !in answers[..n]
    {
      TakeSnoc(answers, n);
      combined := Combined(combined, answers[n]);
    }
    TakeAll(answers);
  }

  /** A chain answers a revocation like the flattened list. */
  method ChainRevocations(primary: Hook, extras: seq<Option<bool>>) returns (combined: Option<bool>)
    ensures combined == Some(true) <==> Some(true) in [primary.revoke] + extras
    ensures combined == Some(false) <==>
      Some(false) in [primary.revoke] + extras && Some(true) !in [primary.revoke] + extras
  {
    var others := CombineRevocations(extras);
    combined := CombineRevocations([primary.revoke, others]);
  }
}
