/**
 * The callback list object returned by the `Callbacks` constructor.
 *
 * The closure variables of the constructor become the fields of one object.
 * A callback is an identity; what it returns is given by `returnsFalse`;
 * every invocation is appended to the ghost `log`. The inner `fire` is
 * written twice: as one method (`FirePass`), whose callbacks do not call
 * back into the list, and as the four steps `BeginPass`, `InvokeNext`,
 * `FinishCall` and `EndPass` it is made of. Between `InvokeNext` and
 * `FinishCall` a callback is running and may call `Add`, `Remove`,
 * `FireWith`, `Lock` or `Disable`; their contracts say what that does to the
 * callbacks still to run in the pass (`Pending`).
 */
module Callbacks {
  import opened Flags
  import opened CallbackSpec

  /** Where the inner `fire` is: not running, at its loop test, inside a callback, or after `break`. */
  datatype Phase = Idle | AtGuard | InCall | Halting

  class CallbackList {
    const flags: Options
    /** Whether the callback `id`, applied to a context and arguments, returns exactly `false`. */
    const returnsFalse: (Id, Context, seq<Value>) -> bool

    /** The callbacks; `None` once disabled. */
    var list: Option<seq<Id>>
    /** Fire requests that arrived during a pass; `None` once locked. */
    var stack: Option<seq<Request>>
    var memory: Memory
    var firing: bool
    var firingStart: nat
    var firingLength: int
    var firingIndex: int
    /** The context and arguments of the running pass (locals of the inner `fire`). */
    var passContext: Context
    var passArgs: seq<Value>

    ghost var phase: Phase
    ghost var log: seq<Call>

    /** What holds at every point where the list can be observed. */
    ghost predicate Inv()
      reads this
    {
      && (list.None? ==> stack.None?)
      && (flags.unique && list.Some? ==> NoDups(list.value))
      && (firing <==> !phase.Idle?)
      && (flags.once && stack.Some? ==> stack.value == [])
      && (phase.AtGuard? && list.Some? ==> 0 <= firingIndex <= firingLength == |list.value|)
      && (phase.InCall? && list.Some? ==> -1 <= firingIndex < firingLength == |list.value|)
      && (firing && list.Some? ==> memory.Truthy())
    }

    /** `Inv`, and no pass start is pending and, outside a pass, no request is queued. */
    ghost predicate Valid()
      reads this
    {
      Inv() && firingStart == 0 && (phase.Idle? ==> stack.None? || stack.value == [])
    }

    /** The points at which code outside the list runs: outside a pass, or inside a callback. */
    ghost predicate OpenForCalls()
      reads this
    {
      phase.Idle? || phase.InCall?
    }

    /**
     * The callbacks the running pass has still to invoke, in order. During a
     * pass `firingLength` is the length of the list (`Inv`), so the pass runs
     * to the end of the list.
     */
    ghost function Pending(): seq<Id>
      reads this
      requires Inv()
    {
      if list.None? then []
      else
        match phase
        case AtGuard => Suffix(list.value, firingIndex)
        case InCall => Suffix(list.value, firingIndex + 1)
        case _ => []
    }

    ghost function Snapshot(): State
      reads this
    {
      State(list, stack, memory)
    }

    /** `jQuery.Callbacks(flags)`, with the flag string resolved through `cache`. */
    constructor (cache: FlagsCache, flagString: string, returnsFalse: (Id, Context, seq<Value>) -> bool)
      requires cache.Valid()
      modifies cache
      ensures cache.Valid()
      ensures flagString == "" ==> cache.entries == old(cache.entries)
      ensures flagString != "" ==> cache.entries == old(cache.entries)[flagString := TokenSet(flagString)]
      ensures flags == OptionsOf(if flagString == "" then {} else TokenSet(flagString))
      ensures this.returnsFalse == returnsFalse
      ensures Valid() && phase.Idle? && log == []
      ensures list == Some([]) && stack == Some([]) && memory.Unset?
    {
      var obj := cache.Resolve(flagString);
      flags := OptionsOf(obj);
      this.returnsFalse := returnsFalse;
      list := Some([]);
      stack := Some([]);
      memory := Unset;
      firing := false;
      firingStart := 0;
      firingLength := 0;
      firingIndex := 0;
      passContext := 0;
      passArgs := [];
      phase := Idle;
      log := [];
    }

    /** `has(fn)`: whether `fn` is identical to a callback in the list; false when disabled. */
    method Has(fn: Item) returns (r: bool)
      ensures r <==> list.Some? && fn.Fn? && fn.id in list.value
    {
      r := false;
      if list.Some? {
        var callbacks := list.value;
        var i := 0;
        while i < |callbacks|
          invariant 0 <= i <= |callbacks|
          invariant forall k :: 0 <= k < i ==> fn != Fn(callbacks[k])
        {
          if fn == Fn(callbacks[i]) {
            return true;
          }
          i := i + 1;
        }
      }
    }

    /** The inner `add`: walks the arguments, descending into arrays, and pushes each function. */
    method AddItems(items: seq<Item>)
      requires list.Some?
      modifies this`list
      ensures list == Some(Appended(old(list).value, Flatten(items), flags.unique))
      decreases Arr(items), 0
    {
      ghost var start := list.value;
      var i := 0;
      while i < |items|
        invariant 0 <= i <= |items|
        invariant list == Some(Appended(start, Flatten(items[..i]), flags.unique))
      {
        FlattenNext(items, i);
        AppendedConcat(start, Flatten(items[..i]), Flatten([items[i]]), flags.unique);
        assert items[i] in items;
        AddItem(items[i]);
        i := i + 1;
      }
      assert items[..i] == items;
    }

    /** One argument of the inner `add`: an array is walked, a function pushed, anything else ignored. */
    method AddItem(elem: Item)
      requires list.Some?
      modifies this`list
      ensures list == Some(Appended(old(list).value, Flatten([elem]), flags.unique))
      decreases elem, 1
    {
      FlattenNext([elem], 0);
      match elem {
        case Arr(sub) =>
          AddItems(sub);
        case Fn(id) =>
          ghost var cur := list.value;
          var present := Has(elem);
          if !flags.unique || !present {
            list := Some(list.value + [id]);
          }
          AppendedOne(cur, id, flags.unique);
        case Other =>
      }
    }

    /**
     * `add(items...)`. A no-op when disabled. During a pass the new
     * callbacks join the end of the pass; outside a pass, a recorded
     * `memory` runs a pass over the new callbacks alone.
     */
    method Add(items: seq<Item>)
      requires Valid() && OpenForCalls()
      modifies this
      ensures Valid() && phase == old(phase)
      ensures old(list).None? ==> unchanged(this)
      ensures old(list).Some? && old(firing) ==>
                && list == Some(Appended(old(list).value, Flatten(items), flags.unique))
                && Pending() == old(Pending()) + Suffix(list.value, |old(list).value|)
                && stack == old(stack) && memory == old(memory) && log == old(log)
                && passContext == old(passContext) && passArgs == old(passArgs)
      ensures old(list).Some? && !old(firing) && !old(memory).Recorded? ==>
                && list == Some(Appended(old(list).value, Flatten(items), flags.unique))
                && stack == old(stack) && memory == old(memory) && log == old(log)
      ensures old(list).Some? && !old(firing) && old(memory).Recorded? ==>
                var added := Appended(old(list).value, Flatten(items), flags.unique);
                var out := RunPass(flags, returnsFalse, added, |old(list).value|, old(stack),
                                   old(memory).ctx, old(memory).args);
                Snapshot() == out.after && log == old(log) + out.calls
    {
      if list.Some? {
        if firing {
          AddDuringPass(items);
        } else {
          AddOutsidePass(items);
        }
      }
    }

    /** `add` inside a callback: the running pass is lengthened to the new end of the list. */
    method AddDuringPass(items: seq<Item>)
      requires Valid() && phase.InCall? && list.Some?
      modifies this`list, this`firingLength
      ensures Valid()
      ensures list == Some(Appended(old(list).value, Flatten(items), flags.unique))
      ensures Pending() == old(Pending()) + Suffix(list.value, |old(list).value|)
    {
      ghost var l0 := list.value;
      assert Pending() == Suffix(l0, firingIndex + 1);
      AddItems(items);
      if flags.unique {
        AppendedUnique(l0, Flatten(items));
      }
      AppendedExtends(l0, Flatten(items), flags.unique);
      ExtendPass(l0);
    }

    /** The list grew from `l0` during a callback; `firingLength` is still the old length. */
    ghost predicate GrownDuringPass(l0: seq<Id>)
      reads this
    {
      && list.Some? && phase.InCall? && firing && firingStart == 0 && memory.Truthy()
      && |l0| <= |list.value| && list.value[..|l0|] == l0 && -1 <= firingIndex < |l0|
      && (flags.unique ==> NoDups(list.value))
      && (flags.once && stack.Some? ==> stack.value == [])
    }

    /** `firingLength = list.length`: the running pass now reaches the new end of the list. */
    method ExtendPass(ghost l0: seq<Id>)
      requires GrownDuringPass(l0)
      modifies this`firingLength
      ensures Valid() && firingLength == |list.value|
      ensures Pending() == Suffix(l0, firingIndex + 1) + Suffix(list.value, |l0|)
    {
      firingLength := |list.value|;
      GrownTail(l0, list.value, firingIndex);
    }

    /** `add` outside a pass: with a recorded `memory`, a pass runs over the new callbacks alone. */
    method AddOutsidePass(items: seq<Item>)
      requires Valid() && phase.Idle? && list.Some?
      modifies this
      ensures Valid() && phase.Idle?
      ensures !old(memory).Recorded? ==>
                && list == Some(Appended(old(list).value, Flatten(items), flags.unique))
                && stack == old(stack) && memory == old(memory) && log == old(log)
      ensures old(memory).Recorded? ==>
                var added := Appended(old(list).value, Flatten(items), flags.unique);
                var out := RunPass(flags, returnsFalse, added, |old(list).value|, old(stack),
                                   old(memory).ctx, old(memory).args);
                Snapshot() == out.after && log == old(log) + out.calls
    {
      var length := |list.value|;
      AddItems(items);
      if flags.unique {
        AppendedUnique(old(list).value, Flatten(items));
      }
      if memory.Recorded? {
        firingStart := length;
        FirePass(memory.ctx, Some(memory.args));
      }
    }

    /** The callbacks after `f` in a grown list: the old ones after `f`, then the new ones. */
    static lemma GrownTail(l0: seq<Id>, l1: seq<Id>, f: int)
      requires -1 <= f < |l0| <= |l1| && l1[..|l0|] == l0
      ensures Suffix(l1, f + 1) == Suffix(l0, f + 1) + Suffix(l1, |l0|)
    {
      SuffixIsSlice(l1, |l0|);
      assert l1 == l0 + l1[|l0|..];
      SuffixOfConcat(l0, Suffix(l1, |l0|), f + 1);
    }

    /**
     * One pass of the inner loop of `remove`: deletes the callbacks identical
     * to `x` (with `unique`, the first one), keeping the indices of a running
     * pass on the callbacks they pointed at.
     */
    method RemoveOne(x: Item)
      requires Valid() && OpenForCalls() && list.Some?
      modifies this`list, this`firingLength, this`firingIndex
      ensures Valid() && list.Some?
      ensures list.value == Without(old(list).value, x)
      ensures Pending() == Without(old(Pending()), x)
    {
      ghost var l0, p0 := list.value, Pending();
      ghost var length0, index0 := firingLength, firingIndex;
      assert firing == phase.InCall?;
      if flags.unique {
        WithoutNoDups(l0, x);
      }
      var l, length, index := Scan(list.value, x, flags.unique, firing, firingLength, firingIndex);
      list, firingLength, firingIndex := Some(l), length, index;
      ScanCorrect(l0, x, flags.unique, firing, length0, index0);
    }

    /**
     * The scan itself, over the list `l` and the indices `length` and `index`
     * of a running pass (no other code runs while it scans). Inside a
     * callback the first `index + 1` callbacks have been started; each
     * removed one among them moves `index` back by one. With `unique` the
     * scan stops after the first match. It computes `ScanFrom`, whose
     * outcome `ScanCorrect` describes.
     */
    static method Scan(l0: seq<Id>, x: Item, unique: bool, firing: bool, length0: int, index0: int)
      returns (l: seq<Id>, length: int, index: int)
      requires firing ==> -1 <= index0 < length0 == |l0|
      requires unique ==> NoDups(l0)
      ensures (l, length, index) == ScanFrom(l0, 0, x, unique, firing, length0, index0)
      ensures l == Without(l0, x)
      ensures !firing ==> length == length0 && index == index0
      ensures firing ==> -1 <= index < length == |l|
    {
      l, length, index := l0, length0, index0;
      var i := 0;
      while i < |l|
        invariant 0 <= i
        invariant ScanFrom(l, i, x, unique, firing, length, index) == ScanFrom(l0, 0, x, unique, firing, length0, index0)
        decreases |l| - i
      {
        if x == Fn(l[i]) {
          if firing {
            // the running pass always ends at the end of the list, so this test holds
            if i <= length {
              length := length - 1;
              if i <= index {
                index := index - 1;
              }
            }
          }
          l := l[..i] + l[i + 1..];
          i := i - 1;
          if unique {
            break;
          }
        }
        i := i + 1;
      }
      ScanCorrect(l0, x, unique, firing, length0, index0);
    }

    /**
     * `remove(items...)`: deletes every callback identical to one of `items`
     * (with `unique`, the first one). Inside a callback, the callbacks still
     * to run are exactly the old ones minus the removed: none is skipped and
     * none runs twice.
     */
    method Remove(items: seq<Item>)
      requires Valid() && OpenForCalls()
      modifies this`list, this`firingLength, this`firingIndex
      ensures Valid()
      ensures list == if old(list).None? then None else Some(WithoutAll(old(list).value, items))
      ensures Pending() == WithoutAll(old(Pending()), items)
    {
      if list.Some? {
        var argIndex := 0;
        while argIndex < |items|
          invariant 0 <= argIndex <= |items|
          invariant Valid() && list.Some?
          invariant list.value == WithoutAll(old(list).value, items[..argIndex])
          invariant Pending() == WithoutAll(old(Pending()), items[..argIndex])
        {
          WithoutAllNext(old(list).value, items, argIndex);
          WithoutAllNext(old(Pending()), items, argIndex);
          RemoveOne(items[argIndex]);
          argIndex := argIndex + 1;
        }
        assert items[..argIndex] == items;
      } else {
        WithoutAllOfEmpty(items);
      }
    }

    /** `empty()`: an empty, enabled list, even after `disable`. */
    method Empty()
      requires Valid() && phase.Idle?
      modifies this`list
      ensures Valid() && list == Some([]) && !Disabled()
    {
      list := Some([]);
    }

    /**
     * `disable()`: forgets the callbacks, the queue and the memory. Inside a
     * callback this also ends the running pass: its loop test reads `list`.
     */
    method Disable()
      requires Inv()
      modifies this`list, this`stack, this`memory
      ensures Inv() && (firingStart == 0 ==> Valid())
      ensures list.None? && stack.None? && memory.Unset?
      ensures Disabled() && Locked() && !Fired()
      ensures Pending() == []
    {
      list, stack, memory := None, None, Unset;
    }

    /** `disabled()`. */
    function Disabled(): (r: bool)
      reads this
      requires Inv()
      ensures r ==> stack.None?
    {
      list.None?
    }

    /** `lock()`: no more fires; disables too, unless a context and arguments are recorded. */
    method Lock()
      requires Valid()
      modifies this`list, this`stack, this`memory
      ensures Valid() && Locked()
      ensures old(memory).Recorded? ==> list == old(list) && memory == old(memory)
      ensures !old(memory).Recorded? ==> Disabled() && memory.Unset?
    {
      stack := None;
      if !memory.Truthy() || memory == Memory.Fired {
        Disable();
      }
    }

    /** `locked()`. */
    function Locked(): (r: bool)
      reads this
      requires Inv()
      ensures !r ==> list.Some?
    {
      stack.None?
    }

    /**
     * `fireWith(context, args)`. Locked: nothing. During a pass: queued,
     * unless `once`. Otherwise a pass runs, unless `once` and fired already.
     */
    method FireWith(ctx: Context, args: Option<seq<Value>>)
      requires Valid() && OpenForCalls()
      modifies this
      ensures Valid() && phase == old(phase)
      ensures old(stack).None? ==> unchanged(this)
      ensures old(stack).Some? && old(firing) ==>
                && stack == (if flags.once then old(stack) else Some(old(stack).value + [Request(ctx, args)]))
                && list == old(list) && memory == old(memory) && log == old(log)
                && Pending() == old(Pending())
                && passContext == old(passContext) && passArgs == old(passArgs)
      ensures !old(firing) && !Accepts(flags, old(Snapshot())) ==> unchanged(this)
      ensures !old(firing) && Accepts(flags, old(Snapshot())) ==>
                var out := RunPass(flags, returnsFalse, old(list).value, 0, old(stack), ctx, Normalize(args));
                Snapshot() == out.after && log == old(log) + out.calls
    {
      if stack.Some? {
        if firing {
          if !flags.once {
            stack := Some(stack.value + [Request(ctx, args)]);
          }
        } else if !(flags.once && memory.Truthy()) {
          FirePass(ctx, args);
        }
      }
    }

    /** `fire(args...)`: `fireWith` with the caller's `this` binding as context. */
    method Fire(thisArg: Context, args: seq<Value>)
      requires Valid() && OpenForCalls()
      modifies this
      ensures Valid() && phase == old(phase)
      ensures old(stack).Some? && old(firing) ==>
                && stack == (if flags.once then old(stack) else Some(old(stack).value + [Request(thisArg, Some(args))]))
                && list == old(list) && memory == old(memory) && log == old(log)
                && Pending() == old(Pending())
                && passContext == old(passContext) && passArgs == old(passArgs)
      ensures !Accepts(flags, old(Snapshot())) && !(old(firing) && old(stack).Some?) ==> unchanged(this)
      ensures !old(firing) && Accepts(flags, old(Snapshot())) ==>
                var out := RunPass(flags, returnsFalse, old(list).value, 0, old(stack), thisArg, args);
                Snapshot() == out.after && log == old(log) + out.calls
    {
      FireWith(thisArg, Some(args));
    }

    /** `fired()`: whether `memory` is truthy. */
    function Fired(): (r: bool)
      reads this
      requires Inv()
      ensures firing && !Disabled() ==> r
    {
      memory.Truthy()
    }

    // ------------------------------------------- the inner fire, step by step

    /** Entry of the inner `fire`: records `memory` and sets up the indices. */
    method BeginPass(ctx: Context, args: Option<seq<Value>>)
      requires Inv() && phase.Idle? && list.Some? && firingStart <= |list.value|
      modifies this`memory, this`firing, this`firingIndex, this`firingStart, this`firingLength,
               this`passContext, this`passArgs, this`phase
      ensures Valid() && phase.AtGuard?
      ensures passContext == ctx && passArgs == Normalize(args)
      ensures memory == Record(flags, ctx, Normalize(args))
      ensures firingIndex == old(firingStart) && firingLength == |list.value|
      ensures Pending() == Suffix(list.value, old(firingStart))
    {
      var a := Normalize(args);
      memory := Record(flags, ctx, a);
      firing := true;
      firingIndex := firingStart;
      firingStart := 0;
      firingLength := |list.value|;
      passContext, passArgs := ctx, a;
      phase := AtGuard;
    }

    /** The loop test held: the callback at `firingIndex` is invoked. */
    method InvokeNext() returns (id: Id)
      requires Valid() && phase.AtGuard? && list.Some? && firingIndex < firingLength
      modifies this`log, this`phase
      ensures Valid() && phase.InCall?
      ensures id == list.value[firingIndex]
      ensures log == old(log) + [Call(id, passContext, passArgs)]
      ensures [id] + Pending() == old(Pending())
    {
      id := list.value[firingIndex];
      log := log + [Call(id, passContext, passArgs)];
      phase := InCall;
      SuffixNext(list.value, firingIndex);
    }

    /**
     * The running callback returned: with stopOnFalse a `false` halts the
     * pass and sets `memory` to `true`; otherwise the loop moves on, and the
     * callbacks still to run are the same as during the call.
     */
    method FinishCall(returnedFalse: bool) returns (stop: bool)
      requires Valid() && phase.InCall?
      modifies this`memory, this`firingIndex, this`phase
      ensures Valid()
      ensures stop <==> returnedFalse && flags.stopOnFalse
      ensures stop ==> phase.Halting? && memory == Memory.Fired && firingIndex == old(firingIndex)
      ensures !stop ==> phase.AtGuard? && memory == old(memory) && firingIndex == old(firingIndex) + 1
      ensures !stop ==> Pending() == old(Pending())
    {
      if returnedFalse && flags.stopOnFalse {
        memory := Memory.Fired;
        phase := Halting;
        stop := true;
      } else {
        firingIndex := firingIndex + 1;
        phase := AtGuard;
        stop := false;
      }
    }

    /**
     * End of the inner `fire`. A repeatable list with queued requests starts
     * the pass of the oldest one at once; otherwise the list settles.
     */
    method EndPass() returns (next: bool)
      requires Valid()
      requires phase.Halting? || (phase.AtGuard? && !(list.Some? && firingIndex < firingLength))
      modifies this
      ensures Valid() && log == old(log)
      ensures next <==> old(list).Some? && !flags.once && old(stack).Some? && old(stack).value != []
      ensures next ==>
                var r := old(stack).value[0];
                && phase.AtGuard? && list == old(list) && stack == Some(old(stack).value[1..])
                && passContext == r.ctx && passArgs == Normalize(r.args)
                && memory == Record(flags, r.ctx, Normalize(r.args))
                && Pending() == list.value
      ensures !next ==> phase.Idle? && Snapshot() == Settle(flags.once, old(Snapshot()))
    {
      firing := false;
      phase := Idle;
      next := false;
      if list.Some? {
        if !flags.once {
          if stack.Some? && |stack.value| > 0 {
            var r := stack.value[0];
            stack := Some(stack.value[1..]);
            // `memory = stack.shift()` is overwritten at once by the pass
            // that `fireWith` starts: the list is not locked, not firing and
            // not `once`, so every test in `fireWith` passes
            BeginPass(r.ctx, r.args);
            next := true;
          }
        } else if memory == Memory.Fired {
          Disable();
        } else {
          list := Some([]);
        }
      }
    }

    /**
     * The inner `fire(context, args)` as one method, for callbacks that do
     * not call back into the list: the callbacks from `firingStart` on run
     * with `context` and `args` until one halts the pass.
     */
    method FirePass(ctx: Context, args: Option<seq<Value>>)
      requires Inv() && phase.Idle? && list.Some? && firingStart <= |list.value|
      requires stack.None? || stack.value == []
      modifies this
      ensures Valid() && phase.Idle?
      ensures var out := RunPass(flags, returnsFalse, old(list).value, old(firingStart), old(stack),
                                 ctx, Normalize(args));
              Snapshot() == out.after && log == old(log) + out.calls
    {
      ghost var l0 := list.value;
      ghost var start := firingStart;
      ghost var a := Normalize(args);
      BeginPass(ctx, args);
      var halted := RunCallbacks(start);
      ghost var out := RunPass(flags, returnsFalse, l0, start, old(stack), ctx, a);
      assert Settle(flags.once, Snapshot()) == out.after;
      var next := EndPass();
    }

    /** The loop of the inner `fire`, from `firingIndex == start` until the end of the list or a halt. */
    method RunCallbacks(ghost start: nat) returns (halted: bool)
      requires Valid() && phase.AtGuard? && list.Some? && firingIndex == start <= firingLength == |list.value|
      modifies this`log, this`phase, this`memory, this`firingIndex
      ensures Valid() && (phase.Halting? || (phase.AtGuard? && firingIndex >= firingLength))
      ensures halted <==> Halts(returnsFalse, flags.stopOnFalse, Suffix(list.value, start), passContext, passArgs)
      ensures memory == if halted then Memory.Fired else old(memory)
      ensures log == old(log) + Calls(Invoked(returnsFalse, flags.stopOnFalse, Suffix(list.value, start), passContext, passArgs),
                                      passContext, passArgs)
    {
      ghost var todo := Suffix(list.value, start);
      halted := false;
      while list.Some? && firingIndex < firingLength
        invariant Valid() && phase.AtGuard? && memory == old(memory)
        invariant start <= firingIndex <= firingLength == |list.value|
        invariant log == old(log) + Calls(todo[..firingIndex - start], passContext, passArgs)
        invariant forall k :: 0 <= k < firingIndex - start ==>
                    !(flags.stopOnFalse && returnsFalse(todo[k], passContext, passArgs))
        decreases firingLength - firingIndex
      {
        ghost var n := firingIndex - start;
        var stop := RunNext(start, todo);
        CallsNext(todo, n, passContext, passArgs);
        if stop {
          InvokedUntil(returnsFalse, flags.stopOnFalse, todo, passContext, passArgs, n);
          halted := true;
          return;
        }
      }
      assert todo[..firingIndex - start] == todo;
      InvokedAll(returnsFalse, flags.stopOnFalse, todo, passContext, passArgs);
    }

    /**
     * One round of that loop: the callback at `firingIndex`, element
     * `firingIndex - start` of `todo`, is invoked and returns.
     */
    method RunNext(ghost start: nat, ghost todo: seq<Id>) returns (stop: bool)
      requires Valid() && phase.AtGuard? && list.Some? && start <= firingIndex < firingLength
      requires todo == Suffix(list.value, start)
      modifies this`log, this`phase, this`memory, this`firingIndex
      ensures Valid()
      ensures var id := todo[old(firingIndex) - start];
              && log == old(log) + [Call(id, passContext, passArgs)]
              && (stop <==> flags.stopOnFalse && returnsFalse(id, passContext, passArgs))
      ensures stop ==> phase.Halting? && memory == Memory.Fired
      ensures !stop ==> phase.AtGuard? && memory == old(memory) && firingIndex == old(firingIndex) + 1
    {
      var id := InvokeNext();
      SuffixAt(list.value, start, firingIndex - start);
      stop := FinishCall(returnsFalse(id, passContext, passArgs));
    }
  }
}
