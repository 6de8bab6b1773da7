/** The `console.warn` replacement (src/consoleOverrides.ts): a call is
    dropped when one of its arguments is a string containing one of two
    fixed MobX warning texts, and otherwise forwarded unchanged to the
    original `warn`. The console itself is not modelled: the method returns
    the arguments it would forward. */
module ConsoleOverrides {
  import opened Values

  /** `substringsThatTriggerNoopLog`: the two fixed texts, in order. */
  const SuppressedSubstrings: seq<string> := [
    "invoking a computedFn from outside an reactive context won't be memoized, unless keepAlive is set",
    "WARNING: Debug feature only. MobX will NOT recover from errors when `disableErrorBoundaries` is enabled"
  ]

  /** `sub` occurs in `s` starting at position `i`. */
  ghost predicate OccursAt(s: string, sub: string, i: nat) {
    i + |sub| <= |s| && s[i..i + |sub|] == sub
  }

  /** `s` contains `sub` at some position. */
  ghost predicate Contains(s: string, sub: string) {
    exists i: nat :: OccursAt(s, sub, i)
  }

  /** `s.includes(sub)`. */
  function Includes(s: string, sub: string): (r: bool)
    ensures r <==> Contains(s, sub)
    decreases |s|
  {
    if |sub| > |s| then false
    else if s[..|sub|] == sub then assert OccursAt(s, sub, 0); true
    else
      var r := Includes(s[1..], sub);
      assert r ==> Contains(s, sub) by {
        if r {
          var i: nat :| OccursAt(s[1..], sub, i);
          assert s[i + 1..i + 1 + |sub|] == s[1..][i..i + |sub|];
          assert OccursAt(s, sub, i + 1);
        }
      }
      assert Contains(s, sub) ==> r by {
        if Contains(s, sub) {
          var i: nat :| OccursAt(s, sub, i);
          assert i != 0;
          assert s[1..][i - 1..i - 1 + |sub|] == s[i..i + |sub|];
          assert OccursAt(s[1..], sub, i - 1);
        }
      }
      r
  }

  /** Argument `a` is a string containing one of the fixed texts. */
  ghost predicate TriggersNoop(a: Value): (b: bool)
    ensures b ==> a.IsString()
  {
    a.IsString() && exists j :: 0 <= j < |SuppressedSubstrings| && Contains(a.json.s, SuppressedSubstrings[j])
  }

  /** A call is dropped exactly when one of its arguments triggers it. */
  ghost predicate Suppressed(args: seq<Value>): (b: bool)
    ensures b ==> |args| > 0 && exists i :: 0 <= i < |args| && args[i].IsString()
  {
    exists i :: 0 <= i < |args| && TriggersNoop(args[i])
  }

  /** The replacement `console.warn(...args)`: `None` when the call is
      dropped, `Some(args)` for the single forwarded call to the original. */
  method Warn(args: seq<Value>) returns (forwarded: Option<seq<Value>>)
    ensures forwarded.None? <==> Suppressed(args)
    ensures forwarded.Some? ==> forwarded.value == args
  {
    for i := 0 to |args|
      invariant forall i' :: 0 <= i' < i ==> !TriggersNoop(args[i'])
    {
      var arg := args[i];
      if arg.IsString() {
        for j := 0 to |SuppressedSubstrings|
          invariant forall j' :: 0 <= j' < j ==> !Contains(arg.json.s, SuppressedSubstrings[j'])
        {
          if Includes(arg.json.s, SuppressedSubstrings[j]) {
            return None;
          }
        }
      }
    }
    return Some(args);
  }

  /** Arguments that are not strings never cause a call to be dropped. */
  lemma NonStringsNeverSuppress(args: seq<Value>)
    requires forall i :: 0 <= i < |args| ==> !args[i].IsString()
    ensures !Suppressed(args)
  {
  }

  /** Suppression depends on each argument alone: adding arguments to a
      dropped call keeps it dropped, and a forwarded call stays forwarded
      when only non-triggering arguments are added. */
  lemma SuppressionIsPerArgument(args: seq<Value>, more: seq<Value>)
    ensures Suppressed(args + more) <==> Suppressed(args) || Suppressed(more)
  {
    var all := args + more;
    assert forall i :: 0 <= i < |args| ==> all[i] == args[i];
    assert forall i :: 0 <= i < |more| ==> all[|args| + i] == more[i];
    if Suppressed(all) {
      var i :| 0 <= i < |all| && TriggersNoop(all[i]);
      if i >= |args| {
        assert all[|args| + (i - |args|)] == more[i - |args|];
      }
    }
  }

  /** Each fixed text, passed alone, drops the call; so does any string
      embedding it. */
  lemma EachTextSuppresses(j: nat, prefix: string, suffix: string)
    requires j < |SuppressedSubstrings|
    ensures Suppressed([Json(Str(prefix + SuppressedSubstrings[j] + suffix))])
  {
    var s := prefix + SuppressedSubstrings[j] + suffix;
    assert s[|prefix|..|prefix| + |SuppressedSubstrings[j]|] == SuppressedSubstrings[j];
    assert OccursAt(s, SuppressedSubstrings[j], |prefix|);
    assert TriggersNoop([Json(Str(s))][0]);
  }
}
