/**
 * Client code driving a callback list through the documented scenarios.
 * Callback 1 is `f1`, 2 is `f2` and 3 is `f3`; `returnsFalse` says which of
 * them return `false`.
 */
module Scenarios {
  import opened Flags
  import opened CallbackSpec
  import opened Callbacks

  /** No flags: `add(f1, f2); fire(7)` calls f1 and then f2, once each, with 7. */
  method PlainFire()
  {
    var cache := new FlagsCache();
    var cb := new CallbackList(cache, "", (id, ctx, args) => false);
    cb.Add([Fn(1), Fn(2)]);
    TwoFunctions(1, 2, false);
    assert cb.list == Some([1, 2]);
    InvokedAll(cb.returnsFalse, false, [1, 2], 0, [7]);
    cb.Fire(0, [7]);
    assert cb.log == [Call(1, 0, [7]), Call(2, 0, [7])];
  }

  /** stopOnFalse: with f1 returning false, `add(f1, f2); fire()` calls f1 alone. */
  method HaltedFire()
  {
    var cache := new FlagsCache();
    StopOnFalseFlags();
    var cb := new CallbackList(cache, "stopOnFalse", (id, ctx, args) => id == 1);
    TwoFunctions(1, 2, false);
    HaltedPass(cb.flags, cb.returnsFalse);
    cb.Add([Fn(1), Fn(2)]);
    cb.Fire(0, []);
    assert cb.log == [Call(1, 0, [])] && cb.Fired() && !cb.Disabled();
  }

  lemma StopOnFalseFlags()
    ensures OptionsOf(TokenSet("stopOnFalse")) == Options(false, false, false, true)
  {
    OneFlag("stopOnFalse");
  }

  /** The pass of that scenario: f1 returns false, so f2 is skipped and `memory` becomes `true`. */
  lemma HaltedPass(o: Options, rf: (Id, Context, seq<Value>) -> bool)
    requires o == Options(false, false, false, true) && rf(1, 0, [])
    ensures RunPass(o, rf, [1, 2], 0, Some([]), 0, []) == Outcome(State(Some([1, 2]), Some([]), Fired), [Call(1, 0, [])])
  {
    InvokedUntil(rf, true, [1, 2], 0, [], 0);
    assert [1, 2][..1] == [1];
  }

  /** once and memory: `fire(1); add(f3)` calls f3 at once with 1, and a later `fire(2)` calls nothing. */
  method OnceMemory()
  {
    var cache := new FlagsCache();
    OnceMemoryFlags();
    var cb := new CallbackList(cache, "once memory", (id, ctx, args) => false);
    OnceMemoryPasses(cb.flags, cb.returnsFalse);
    cb.Fire(0, [1]);
    assert cb.log == [] && cb.list == Some([]) && cb.memory == Recorded(0, [1]);
    OneFunction(3);
    cb.Add([Fn(3)]);
    assert cb.log == [Call(3, 0, [1])] && cb.Fired() && !cb.Disabled();
    cb.Fire(0, [2]);
    assert cb.log == [Call(3, 0, [1])];
  }

  lemma OnceMemoryFlags()
    ensures OptionsOf(TokenSet("once memory")) == Options(true, true, false, false)
  {
    OnceMemoryTokens();
    var t: set<string> := {"once", "memory"};
    assert "unique" !in t && "stopOnFalse" !in t;
  }

  lemma OnceMemoryTokens()
    ensures TokenSet("once memory") == {"once", "memory"}
  {
    TwoFlags("once", "memory");
    assert "once" + " " + "memory" == "once memory";
  }

  /** The two passes of that scenario: over no callbacks, then over f3 alone. */
  lemma OnceMemoryPasses(o: Options, rf: (Id, Context, seq<Value>) -> bool)
    requires o == Options(true, true, false, false)
    ensures RunPass(o, rf, [], 0, Some([]), 0, [1]) == Outcome(State(Some([]), Some([]), Recorded(0, [1])), [])
    ensures RunPass(o, rf, [3], 0, Some([]), 0, [1]) ==
            Outcome(State(Some([]), Some([]), Recorded(0, [1])), [Call(3, 0, [1])])
  {
    InvokedAll(rf, false, [], 0, [1]);
    InvokedAll(rf, false, [3], 0, [1]);
  }

  /**
   * No flags, callbacks f1, f2, f3: while f1 runs it removes f2 and adds f4,
   * so the pass goes on with f3 and then f4.
   */
  method ReentrantPass()
  {
    var cb := StartPass();
    InsideF1(cb);
    var stop := cb.FinishCall(false);
    ghost var start: nat := cb.firingIndex;
    var halted := cb.RunCallbacks(start);
    ReentrantRest(cb.returnsFalse);
    assert cb.log == [Call(1, 0, [5]), Call(3, 0, [5]), Call(4, 0, [5])];
    var next := cb.EndPass();
    assert !next;
  }

  /** A list without flags holding f1, f2 and f3, whose pass with argument 5 has just invoked f1. */
  method StartPass() returns (cb: CallbackList)
    ensures fresh(cb) && cb.Valid() && cb.phase.InCall? && cb.flags == Options(false, false, false, false)
    ensures cb.list == Some([1, 2, 3]) && cb.stack == Some([]) && cb.Pending() == [2, 3]
    ensures cb.passContext == 0 && cb.passArgs == [5] && cb.log == [Call(1, 0, [5])]
    ensures forall id, ctx, args :: !cb.returnsFalse(id, ctx, args)
  {
    cb := ThreeCallbacks();
    cb.BeginPass(0, Some([5]));
    var id := cb.InvokeNext();
    SuffixIsSlice([1, 2, 3], 0);
    assert [1, 2, 3][0..] == [1, 2, 3] && [1, 2, 3][1..] == [2, 3];
  }

  /** A list without flags holding f1, f2 and f3. */
  method ThreeCallbacks() returns (cb: CallbackList)
    ensures fresh(cb) && cb.Valid() && cb.phase.Idle? && cb.flags == Options(false, false, false, false)
    ensures cb.list == Some([1, 2, 3]) && cb.stack == Some([]) && cb.memory.Unset? && cb.log == []
    ensures forall id, ctx, args :: !cb.returnsFalse(id, ctx, args)
  {
    var cache := new FlagsCache();
    cb := new CallbackList(cache, "", (id, ctx, args) => false);
    ThreeFunctions(1, 2, 3);
    cb.Add([Fn(1), Fn(2), Fn(3)]);
  }

  /** What f1 does: `remove(f2); add(f4)`. */
  method InsideF1(cb: CallbackList)
    requires cb.Valid() && cb.phase.InCall? && cb.flags == Options(false, false, false, false)
    requires cb.list == Some([1, 2, 3]) && cb.Pending() == [2, 3]
    modifies cb
    ensures cb.Valid() && cb.phase.InCall? && cb.list == Some([1, 3, 4]) && cb.Pending() == [3, 4]
    ensures unchanged(cb`stack, cb`log, cb`passContext, cb`passArgs, cb`memory)
  {
    RemoveF2(cb);
    AddF4(cb);
  }

  method RemoveF2(cb: CallbackList)
    requires cb.Valid() && cb.phase.InCall?
    requires cb.list == Some([1, 2, 3]) && cb.Pending() == [2, 3]
    modifies cb`list, cb`firingLength, cb`firingIndex
    ensures cb.Valid() && cb.list == Some([1, 3]) && cb.Pending() == [3]
  {
    RemoveOnce([1, 2, 3], Fn(2));
    RemoveOnce([2, 3], Fn(2));
    WithoutF2();
    cb.Remove([Fn(2)]);
  }

  method AddF4(cb: CallbackList)
    requires cb.Valid() && cb.phase.InCall? && !cb.flags.unique
    requires cb.list == Some([1, 3]) && cb.Pending() == [3]
    modifies cb
    ensures cb.Valid() && cb.phase.InCall? && cb.list == Some([1, 3, 4]) && cb.Pending() == [3, 4]
    ensures unchanged(cb`stack, cb`log, cb`passContext, cb`passArgs, cb`memory)
  {
    AddedF4();
    cb.Add([Fn(4)]);
  }

  lemma AddedF4()
    ensures Appended([1, 3], Flatten([Fn(4)]), false) == [1, 3, 4]
    ensures [3] + Suffix([1, 3, 4], 2) == [3, 4]
  {
    OneFunction(4);
    AppendedPlain([1, 3], [4]);
    SuffixIsSlice([1, 3, 4], 2);
    assert [1, 3, 4][2..] == [4] && [1, 3] + [4] == [1, 3, 4];
  }

  /** Removing one item is removing its matches. */
  lemma RemoveOnce(list: seq<Id>, x: Item)
    ensures WithoutAll(list, [x]) == Without(list, x)
  {
    assert [x][..0] == [];
  }

  lemma WithoutF2()
    ensures Without([1, 2, 3], Fn(2)) == [1, 3] && Without([2, 3], Fn(2)) == [3]
  {
    WithoutConcat([1], [2, 3], Fn(2));
    WithoutConcat([2], [3], Fn(2));
    assert [1] + [2, 3] == [1, 2, 3] && [2] + [3] == [2, 3];
    assert [1][..0] == [] && [2][..0] == [] && [3][..0] == [];
  }

  /** The rest of that pass runs f3 and then f4. */
  lemma ReentrantRest(rf: (Id, Context, seq<Value>) -> bool)
    ensures Suffix([1, 3, 4], 1) == [3, 4]
    ensures Invoked(rf, false, [3, 4], 0, [5]) == [3, 4] && !Halts(rf, false, [3, 4], 0, [5])
    ensures [Call(1, 0, [5])] + Calls([3, 4], 0, [5]) == [Call(1, 0, [5]), Call(3, 0, [5]), Call(4, 0, [5])]
  {
    InvokedAll(rf, false, [3, 4], 0, [5]);
    assert [1, 3, 4][1..] == [3, 4];
  }

  /** `add(f, g)` appends f and then g to an empty list (g is kept with `unique` when it differs from f). */
  lemma TwoFunctions(f: Id, g: Id, unique: bool)
    requires unique ==> f != g
    ensures Appended([], Flatten([Fn(f), Fn(g)]), unique) == [f, g]
  {
    FlattenCons(Fn(f), [Fn(g)]);
    FlattenCons(Fn(g), []);
    assert [Fn(g)] + [] == [Fn(g)] && [Fn(f)] + [Fn(g)] == [Fn(f), Fn(g)];
    assert Flatten([Fn(f), Fn(g)]) == [f, g];
    assert [f, g][..1] == [f];
    AppendedOne([], f, unique);
    assert Appended([], [f], unique) == [f];
  }

  lemma OneFunction(f: Id)
    ensures Flatten([Fn(f)]) == [f]
  {
    FlattenCons(Fn(f), []);
    assert [Fn(f)] + [] == [Fn(f)];
  }

  lemma ThreeFunctions(f: Id, g: Id, h: Id)
    ensures Appended([], Flatten([Fn(f), Fn(g), Fn(h)]), false) == [f, g, h]
  {
    FlattenCons(Fn(f), [Fn(g), Fn(h)]);
    FlattenCons(Fn(g), [Fn(h)]);
    OneFunction(h);
    assert [Fn(f)] + [Fn(g), Fn(h)] == [Fn(f), Fn(g), Fn(h)] && [Fn(g)] + [Fn(h)] == [Fn(g), Fn(h)];
    assert Flatten([Fn(f), Fn(g), Fn(h)]) == [f, g, h];
    AppendedPlain([], [f, g, h]);
  }

  /** A configuration string of one option. */
  lemma OneFlag(w: string)
    requires w != "" && NoSpace(w)
    ensures TokenSet(w) == {w}
  {
    SplitJoin([w]);
  }

  /** A configuration string of two options separated by one space. */
  lemma TwoFlags(v: string, w: string)
    requires v != "" && NoSpace(v) && w != "" && NoSpace(w)
    ensures TokenSet(v + " " + w) == {v, w}
  {
    SplitJoin([v, w]);
    assert [v, w][1..] == [w];
  }
}
