# jQuery.Callbacks in Dafny

A model of the configurable callback list `jQuery.Callbacks(flags)` from
`source/CallBacks.js`, together with its flag-string parser `createFlags` and
the `flagsCache` memo table.

The list holds callbacks in insertion order and fires them with one context
and one argument list. Four flags change its behaviour:

* `once`: the list fires a single time;
* `memory`: the last context and arguments are recorded, and callbacks
  added later run with them at once;
* `unique`: a callback is held at most once;
* `stopOnFalse`: a callback returning `false` halts the pass.

Callbacks may call back into the list while it fires. They can add or remove
callbacks, queue another fire, lock the list or disable it. The index
bookkeeping that keeps such a pass on track is the heart of the model.

Modules (one per file):

* `Flags` (`flags.dfy`) covers three things:
  * the split of a configuration string at runs of JavaScript white space (`/\s+/`);
  * the set of keys `createFlags` marks;
  * the cache, a class `FlagsCache` whose `entries` map is updated the way `flagsCache` is.
* `CallbackSpec` (`callback_spec.dfy`) holds the reference functions the class is proved against:
  * `Flatten` and `Appended`: what `add` pushes;
  * `Without`, `WithoutFirst` and `WithoutAll`: what `remove` deletes;
  * `ScanFrom`: the inner loop of `remove`, including its index adjustments;
  * `Invoked` and `Calls`: what one pass invokes;
  * `Settle`: how a pass ends;
  * `RunPass`: a whole pass.

  It also holds the lemmas that say what these functions mean.
* `Callbacks` (`callbacks.dfy`) has the class `CallbackList`.
  * Its fields are the closure variables of the constructor: `list`, `stack`, `memory`, `firing`, `firingStart`, `firingLength` and `firingIndex`.
  * Its methods are the operations of the returned object.
  * The inner `fire` is modelled twice. `FirePass` is one method for callbacks that do not re-enter the list. The steps `BeginPass`, `InvokeNext`, `FinishCall` and `EndPass` model the same loop; between `InvokeNext` and `FinishCall` a callback is running and may call any operation.
  * A ghost field `phase` says where the inner `fire` is.
  * A ghost `log` records every invocation.
  * The ghost function `Pending()` is the sequence of callbacks the running pass has still to invoke.
* `Scenarios` (`scenarios.dfy`) is client code driving the class through four scenarios:
  * `add(f1, f2); fire(7)` without flags;
  * a stopOnFalse halt;
  * `once memory` with a late `add`;
  * a callback that removes one callback and adds another while the pass runs.

Values of the source become the following:

* A callback is an identity (`Id`).
* What a callback returns is given by the function `returnsFalse`.
* The argument of `add` is `Item = Fn(id) | Arr(items) | Other`.
* `memory` is `Unset | Fired | Recorded(ctx, args)`. `Fired` is the value `true`.
* `list` and `stack` are `Option` values, with `None` for `undefined`.
* The `flags` argument is a string, with `""` for a falsy one.

## Model

| member | source | states |
|---|---|---|
| Flags.OptionsOf | source/CallBacks.js:53-180 | defines how the list reads its flag object: `flags.once`, `flags.memory`, `flags.unique` and `flags.stopOnFalse` (read at lines 53, 62, 68, 75, 125, 177 and 180) are true exactly when the key is present |
| Flags.IsSpace | source/CallBacks.js:8 | defines the characters of the JavaScript class `\s` |
| Flags.Split | source/CallBacks.js:8 | defines `flags.split(/\s+/)`: the pieces between maximal runs of white space, with an empty first or last piece for leading or trailing white space and `[""]` for the empty string; never an empty array |
| Flags.Keys | source/CallBacks.js:9-11 | defines the keys the loop of `createFlags` sets to true: one per piece, repeats collapsing into one key |
| Flags.TokenSet | source/CallBacks.js:8-11 | defines the flag object `createFlags` builds: the keys of the pieces of the string |
| Flags.DropSpaces | source/CallBacks.js:8 | drops exactly the maximal leading run of white-space characters, and is shorter whenever the text starts with white space |
| Flags.DropSpacesIsRest | source/CallBacks.js:8 | what is left after the leading white space is the tail of the text |
| Flags.SplitPiecesHaveNoSpace | source/CallBacks.js:8 | no piece of `flags.split(/\s+/)` contains white space |
| Flags.SplitLosesOnlySpace | source/CallBacks.js:8 | the pieces, concatenated, are the text with its white space removed: splitting loses nothing else |
| Flags.SplitWordThen | source/CallBacks.js:8 | a word without white space is glued to the first piece of what follows it |
| Flags.SplitSpaceThen | source/CallBacks.js:8 | a single space before a word splits off one empty piece |
| Flags.SplitWordSpaceThen | source/CallBacks.js:8 | a word, one space and a text starting with a word split into that word and the pieces of the text |
| Flags.JoinStartsWithFirst | source/CallBacks.js:8 | words joined by spaces start with the first character of the first word |
| Flags.SplitJoin | source/CallBacks.js:8 | non-empty words without white space, joined by single spaces, split back into exactly those words |
| Flags.StripOfSpaces | source/CallBacks.js:8 | leading white space contributes nothing to the non-space characters |
| Flags.KeysNext | source/CallBacks.js:9-11 | each round of the `createFlags` loop adds exactly the key of the current piece |
| Flags.OptionsOfJoined | source/CallBacks.js:5-13 | a configuration string of option names sets exactly the options it names; an unknown name sets none |
| Flags.FlagsCache.constructor | source/CallBacks.js:2 | the table starts empty |
| Flags.FlagsCache.CreateFlags | source/CallBacks.js:5-13 | returns the set of `/\s+/` pieces of `flags`, and the table's entry for `flags` is that object while every other entry is unchanged |
| Flags.FlagsCache.Resolve | source/CallBacks.js:28 | an empty string gives no flags and leaves the table alone; otherwise the result is the parse of the string, a cached entry is reused unchanged and a new one is stored |
| CallbackSpec.Normalize | source/CallBacks.js:61 | defines the default of `args` in the inner `fire`: missing arguments read as the empty list |
| CallbackSpec.Record | source/CallBacks.js:62 | defines the value the inner `fire` gives `memory` on entry: the pair of context and arguments under the memory flag, `true` otherwise |
| CallbackSpec.Suffix | source/CallBacks.js:67 | the callbacks of the list from index `k` on, which the loop of the inner `fire` visits; its length is the length of the list minus `k` |
| CallbackSpec.SuffixIsSlice | source/CallBacks.js:67 | the callbacks from index `k` on, taken one at a time, are the slice from `k` |
| CallbackSpec.SuffixAt | source/CallBacks.js:67-68 | element `n` of the callbacks from `k` on is the callback at `k + n` |
| CallbackSpec.SuffixNext | source/CallBacks.js:67 | the callbacks from `k` on are the one at `k` followed by those from `k + 1` on |
| CallbackSpec.SuffixOfConcat | source/CallBacks.js:94-95 | the callbacks after `k` in a list grown at its end are the old ones after `k`, then the new ones |
| CallbackSpec.NoDupsSplit | source/CallBacks.js:53 | both parts of a duplicate-free list are duplicate-free and have no callback in common |
| CallbackSpec.NoDupsPush | source/CallBacks.js:53-54 | pushing a callback that is not present keeps the list duplicate-free |
| CallbackSpec.Flatten | source/CallBacks.js:45-56 | defines the functions the inner `add` meets, in argument order, nested arrays expanded where they stand and other values skipped |
| CallbackSpec.FlattenLast | source/CallBacks.js:46-56 | defines what one argument contributes: itself if a function, its flattening if an array, nothing otherwise |
| CallbackSpec.Appended | source/CallBacks.js:51-55 | defines the list after pushing each function in turn, skipping one already present under `unique`; the list never gets shorter |
| CallbackSpec.FlattenNext | source/CallBacks.js:45-56 | the callbacks of the first `i + 1` arguments are those of the first `i`, then the function itself, the flattening of a nested array, or nothing for any other value |
| CallbackSpec.FlattenConcat | source/CallBacks.js:45-50 | flattening distributes over concatenation of the arguments |
| CallbackSpec.FlattenCons | source/CallBacks.js:45-56 | the first argument contributes itself if a function, its own flattening if an array and nothing otherwise, ahead of the rest |
| CallbackSpec.AppendedOne | source/CallBacks.js:53-54 | one function is pushed unless `unique` is on and it is already present |
| CallbackSpec.AppendedExtends | source/CallBacks.js:54 | adding never changes the callbacks already in the list |
| CallbackSpec.AppendedContents | source/CallBacks.js:51-55 | after adding, a callback is in the list exactly when it was there before or was passed |
| CallbackSpec.AppendedPlain | source/CallBacks.js:53-54 | without `unique`, every passed function is appended, in argument order, duplicates included |
| CallbackSpec.AppendedUnique | source/CallBacks.js:53 | with `unique`, a duplicate-free list stays duplicate-free, also when the same function is passed twice in one call |
| CallbackSpec.AppendedConcat | source/CallBacks.js:45-56 | adding two runs of functions is adding the first and then the second |
| CallbackSpec.Without | source/CallBacks.js:110-122 | defines the list after the inner loop of `remove` deletes every callback identical to `x` |
| CallbackSpec.WithoutFirst | source/CallBacks.js:110-127 | defines the list after that loop deletes the first match and breaks, as it does under `unique` |
| CallbackSpec.WithoutAll | source/CallBacks.js:109-130 | defines the list after the outer loop of `remove` has removed each argument in turn |
| CallbackSpec.WithoutConcat | source/CallBacks.js:110-122 | removal distributes over concatenation of the list |
| CallbackSpec.WithoutContents | source/CallBacks.js:110-122 | after removing `x`, a callback is present exactly when it was present and is not `x`; the list never grows |
| CallbackSpec.WithoutNothing | source/CallBacks.js:111 | removing an item that matches no callback changes nothing |
| CallbackSpec.WithoutFirstIsWithout | source/CallBacks.js:123-127 | on a duplicate-free list, deleting the first match and stopping, as `unique` does, is deleting every match |
| CallbackSpec.WithoutNoDups | source/CallBacks.js:122 | removal keeps a list duplicate-free |
| CallbackSpec.WithoutAllContents | source/CallBacks.js:109-130 | after `remove(items...)`, a callback is present exactly when it was present and is none of `items`, so `has` is false for each of them |
| CallbackSpec.WithoutAllConcat | source/CallBacks.js:109-130 | removing several items distributes over concatenation of the list |
| CallbackSpec.WithoutAllNext | source/CallBacks.js:109 | the outer loop of `remove` handles its arguments one after another |
| CallbackSpec.WithoutAllOfEmpty | source/CallBacks.js:110 | removing from an empty list leaves it empty |
| CallbackSpec.WithoutAllNoDups | source/CallBacks.js:109-130 | removing several items keeps a list duplicate-free |
| CallbackSpec.ScanFrom | source/CallBacks.js:110-129 | defines the inner loop of `remove` from position `i` on, with the `firingLength--` and `firingIndex--` adjustments, the `splice(i--, 1)` that revisits position `i`, and the `break` under `unique` |
| CallbackSpec.ScanCorrect | source/CallBacks.js:110-129 | the scan of `remove` deletes every match of `x` (only the first under `unique` on a duplicate-free list), keeps `firingLength` the length of the list and leaves `firingIndex` so that the callbacks after it are exactly the old ones after it minus the matches; outside a pass the indices are untouched |
| CallbackSpec.ScanClosed | source/CallBacks.js:110-129 | the facts gathered at the end of the scan make up its specification |
| CallbackSpec.ScanMeets | source/CallBacks.js:110-129 | from every state the scan can reach, the rest of the scan meets its specification |
| CallbackSpec.ScanMeetsMatch | source/CallBacks.js:111-127 | the same from a state whose current callback matches, so that `firingLength`, `firingIndex` and the list change there |
| CallbackSpec.ScanStart | source/CallBacks.js:110 | the scan starts with nothing scanned and the indices as they were |
| CallbackSpec.MatchKeeps | source/CallBacks.js:113-122 | deleting a match at `i`, lowering `firingLength` and lowering `firingIndex` when `i <= firingIndex` keeps the scan's invariant; under `unique` nothing after it matches |
| CallbackSpec.SkipKeeps | source/CallBacks.js:110-111 | stepping over a callback that does not match keeps the scan's invariant |
| CallbackSpec.ScanDone | source/CallBacks.js:110-129 | at the end of the list, or after the match under `unique`, every match is gone and the running pass still points at its remaining callbacks |
| CallbackSpec.RemovedOnlyMatch | source/CallBacks.js:123-127 | in a duplicate-free list, nothing after a match matches again, which is why `unique` may stop |
| CallbackSpec.ScanOutcome | source/CallBacks.js:113-122 | after the scan, the callbacks after `firingIndex` are the old ones after it minus the matches, so none is skipped and none runs twice |
| CallbackSpec.Calls | source/CallBacks.js:67-68 | defines the invocations of a pass over a sequence of callbacks: one call per callback, in order, all with the same context and arguments |
| CallbackSpec.CallsConcat | source/CallBacks.js:67-68 | the invocations of a pass over two runs of callbacks are those of the first run followed by those of the second |
| CallbackSpec.CallsNext | source/CallBacks.js:67 | the invocations of a pass grow by one call per round of its loop |
| CallbackSpec.Invoked | source/CallBacks.js:67-72 | defines the callbacks a pass invokes: all of them in order, except that under stopOnFalse the pass ends right after the first one returning false |
| CallbackSpec.Halts | source/CallBacks.js:68-70 | defines whether a pass is halted: stopOnFalse is on and some scheduled callback returns false |
| CallbackSpec.InvokedIsPrefix | source/CallBacks.js:67-72 | a pass invokes a prefix of its scheduled callbacks, in order |
| CallbackSpec.InvokedAll | source/CallBacks.js:67-72 | a pass in which no callback halts invokes every scheduled callback and is not halted |
| CallbackSpec.InvokedUntil | source/CallBacks.js:68-70 | with stopOnFalse, a pass ends right after the first callback returning false, and is halted |
| CallbackSpec.HaltsIff | source/CallBacks.js:68-70 | a pass is halted exactly when its last invoked callback returned false under stopOnFalse, and no earlier invoked callback did |
| CallbackSpec.Settle | source/CallBacks.js:74-85 | defines how a pass ends once the queue is dealt with: a disabled or repeatable list is left alone; a `once` list is disabled when `memory` is `true` and emptied otherwise |
| CallbackSpec.Accepts | source/CallBacks.js:175-180 | defines when `fireWith` outside a pass starts one: the list is not locked, and it is not a `once` list that has fired |
| CallbackSpec.RunPass | source/CallBacks.js:60-86 | defines a complete pass whose callbacks do not call back: `memory` recorded, the callbacks from `start` on invoked until a halt (which sets `memory` to `true`), then `Settle` |
| CallbackSpec.RepeatablePass | source/CallBacks.js:60-79 | a pass of a list without `once` keeps its callbacks and queue, and leaves `memory` the recorded pair exactly when the memory flag is on and the pass was not halted, and `true` otherwise |
| CallbackSpec.OncePassIsFinal | source/CallBacks.js:74-85 | after a pass of a `once` list no `fireWith` starts another: the list is disabled exactly when there is no memory flag or the pass halted, and is otherwise empty with the pair recorded |
| CallbackSpec.PassCalls | source/CallBacks.js:60-72 | a pass makes one call per callback from `firingStart` on, in list order, each with its context and arguments, and calls all of them unless halted |
| Callbacks.CallbackList.Inv | source/CallBacks.js:30-38 | defines what always holds of the closure variables: a disabled list is locked; under `unique` no callback is held twice; `firing` exactly while a pass runs; a `once` list never queues; during a pass `firingLength` is the list length, `firingIndex` lies within it and `memory` is truthy |
| Callbacks.CallbackList.Valid | source/CallBacks.js:30-38 | defines `Inv` with `firingStart` back at 0 and, outside a pass, no queued requests |
| Callbacks.CallbackList.Pending | source/CallBacks.js:67 | defines the callbacks the running pass has still to invoke: those after `firingIndex`, to the end of the list; none outside a pass or once disabled |
| Callbacks.CallbackList.constructor | source/CallBacks.js:25-38 | the flags are those of the resolved flag string, the cache is updated as `Resolve` says, and the list starts enabled, unlocked, empty and never fired |
| Callbacks.CallbackList.Has | source/CallBacks.js:135-146 | true exactly when the list is enabled and `fn` is a function identical to one of its callbacks |
| Callbacks.CallbackList.AddItems | source/CallBacks.js:39-58 | the list becomes `Appended(list, Flatten(items), unique)`: nested arrays expanded, other values ignored, duplicates skipped under `unique` |
| Callbacks.CallbackList.AddItem | source/CallBacks.js:46-56 | one argument: a function is pushed unless `unique` and already present, an array is walked in turn, any other value leaves the list unchanged — the list becomes `Appended(list, Flatten([elem]), unique)` |
| Callbacks.CallbackList.Add | source/CallBacks.js:90-102 | a no-op when disabled; during a pass the new callbacks are appended to the callbacks still to run, which keep the pass's context and arguments, and the queue, `memory` and the calls made are unchanged; outside a pass with a recorded pair, a pass over the new callbacks alone runs with that pair; otherwise only the list changes |
| Callbacks.CallbackList.AddDuringPass | source/CallBacks.js:91-95 | inside a callback, the appended callbacks join the end of the running pass |
| Callbacks.CallbackList.ExtendPass | source/CallBacks.js:95 | `firingLength = list.length` makes the pass run the old remaining callbacks and then all new ones |
| Callbacks.CallbackList.AddOutsidePass | source/CallBacks.js:91-99 | outside a pass, a recorded pair runs the inner `fire` from the old length, so only the new callbacks run |
| Callbacks.CallbackList.GrownTail | source/CallBacks.js:94-95 | the callbacks after the cursor in a grown list are the old ones after it followed by the new ones |
| Callbacks.CallbackList.RemoveOne | source/CallBacks.js:110-129 | one argument of `remove`: its matches leave the list and the callbacks still to run, and the running pass stays consistent |
| Callbacks.CallbackList.Scan | source/CallBacks.js:110-129 | the `splice(i--, 1)` loop computes `ScanFrom`: the list without the matches, and indices adjusted as `ScanCorrect` describes |
| Callbacks.CallbackList.Remove | source/CallBacks.js:104-133 | the list loses every callback identical to one of the arguments (a no-op when disabled), and the callbacks still to run lose exactly the same ones |
| Callbacks.CallbackList.Empty | source/CallBacks.js:148-151 | the list becomes empty and enabled, also after `disable`; the queue and `memory` are untouched |
| Callbacks.CallbackList.Disable | source/CallBacks.js:153-156 | callbacks, queue and memory are gone: disabled, locked, not fired, and nothing is left for a running pass |
| Callbacks.CallbackList.Disabled | source/CallBacks.js:158-160 | a disabled list is also locked |
| Callbacks.CallbackList.Lock | source/CallBacks.js:162-168 | the list is locked; with a recorded pair it keeps its callbacks and memory, otherwise it is disabled |
| Callbacks.CallbackList.Locked | source/CallBacks.js:170-172 | an unlocked list is enabled |
| Callbacks.CallbackList.FireWith | source/CallBacks.js:174-185 | a no-op when locked; during a pass the request is queued (dropped under `once`) and nothing else changes: the list, `memory`, the callbacks still to run and the pass's context and arguments stay as they were; outside a pass a complete pass runs unless `once` and already fired |
| Callbacks.CallbackList.Fire | source/CallBacks.js:187-190 | `fireWith` with the caller's `this` and the arguments given: during a pass it only queues, leaving the running pass as it was |
| Callbacks.CallbackList.Fired | source/CallBacks.js:192-194 | during a pass of an enabled list, `fired()` is true |
| Callbacks.CallbackList.BeginPass | source/CallBacks.js:60-66 | records `memory`, starts the cursor at `firingStart` and resets it to 0, so the pass has the callbacks from `firingStart` on to run |
| Callbacks.CallbackList.InvokeNext | source/CallBacks.js:67-68 | the callback under the cursor is invoked with the pass's context and arguments and leaves the callbacks still to run |
| Callbacks.CallbackList.FinishCall | source/CallBacks.js:67-71 | a callback returning false under stopOnFalse halts the pass and sets `memory` to `true`; otherwise the cursor moves on with the same callbacks still to run |
| Callbacks.CallbackList.EndPass | source/CallBacks.js:73-86 | a repeatable list with queued requests starts a pass for the oldest one over the whole list; otherwise the list settles: a `once` list is disabled when `memory` is `true` and emptied otherwise |
| Callbacks.CallbackList.FirePass | source/CallBacks.js:60-86 | a whole pass: the state after it and the calls it makes are those of `RunPass` |
| Callbacks.CallbackList.RunCallbacks | source/CallBacks.js:67-72 | the loop invokes the callbacks from `start` on, in order, until one halts the pass, and halts exactly when one of them returns false under stopOnFalse |
| Callbacks.CallbackList.RunNext | source/CallBacks.js:67-71 | one round of that loop: one logged call, and a halt exactly when that callback returns false under stopOnFalse |

## Left out

- Real callbacks: `apply(context, args)` runs arbitrary code. Here a callback is an identity, its result comes from the function `returnsFalse`, and every call is logged in a ghost sequence.
- Reentrancy: `FirePass` runs callbacks that do not call back into the list. Callbacks that do call back are modelled through the step methods, with the operations called between `InvokeNext` and `FinishCall`.
- Exceptions thrown by a callback, which abort the pass, are not modelled.
- `jQuery.type`: a call into code outside the model. The `Item` datatype takes its place.
- The `this` binding that `fire` passes as context is an opaque `Context` value.
- Methods return nothing: their `return this` chaining is not modelled.
- Callbacks.CallbackList.Empty: requires no running pass. Inside a callback, `empty()` leaves `firingLength` at the old length and the cursor where it was. If a callback followed the running one, the next round reads `list[firingIndex]`, which is `undefined`, and `.apply` throws a TypeError. If the running callback was the last, the loop ends normally. A later `add` inside the same callback sets `firingLength` to the new, shorter length, so the pass can end without running what was added: with `[a, b, c]`, `a` calling `empty(); add(d)` ends the pass without invoking `d`. The model keeps `Pending` a suffix of the list and does not follow these cases.
- Callbacks.CallbackList.EndPass: `memory = stack.shift()` is written and overwritten again at once by the pass that `fireWith` starts. That intermediate value is not modelled.
- Callbacks.CallbackList.Scan: works on a sequence value that `RemoveOne` stores back, instead of splicing the list in place. No other code runs during the scan, so nothing can observe the difference.
- Callbacks.CallbackList.RemoveOne: under `unique` its contract states that every match is removed, not that the scan stops at the first match. On a duplicate-free list, which `Inv` guarantees under `unique`, the two agree (`WithoutFirstIsWithout`). `ScanFrom` models the `break` itself.
- Argument arrays are shared by reference. `memory` (line 62) and a queued request (line 178) hold the caller's `args` object itself, so a caller that changes that object after `fireWith` changes what a later memory catch-up (line 98) or queued pass (line 78) receives. The model stores the arguments as sequence values, which a caller cannot change afterwards.
- `flagsCache` is a plain object. A flag string that names an inherited property, such as "constructor", would find that property instead of a cached entry. The model's table holds only what `createFlags` stored.
- A flag argument that is not a string is not modelled.
- `createFlags` first creates the entry and then fills the same object. This is modelled by storing the growing set after every round of its loop.
- JavaScript numbers are unbounded integers here. The indices never grow past the list length.

## Where the code and its description differ

The model follows the code:

- `fired()` reads `memory`, and `disable()` sets `memory` to `undefined`. So `fired()` is false after `disable()`, including after a `once` pass without the memory flag, which disables the list. See `Disable` and `EndPass`.
- `empty()` has no `if (list)` guard, so it gives a disabled list back an empty, enabled list. The queue stays `undefined`, so the list stays locked. See `Empty`.
- A locked list that keeps a recorded pair still runs callbacks added later. The memory catch-up in `add` calls the inner `fire` without looking at `stack`. See `Add`, `AddOutsidePass` and `Lock`.
- During a pass `firingLength` always equals the length of the list (`Inv`). So the test `i <= firingLength` in `remove` always holds. `Scan` keeps the test as written.
