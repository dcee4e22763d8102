# Weak references in the Kotlin/Native runtime, modelled in Dafny

This project models the weak-reference bookkeeping of the Kotlin/Native runtime, and the
runtime's atomic add on an `int` cell.

- **Metaobject counter slot.** Any heap object can get a metaobject (`MetaObjHeader`). Its
  `counterObject_` slot holds the object's `WeakReferenceCounter`, or null until one is made.
- **`Konan_WeakReference_getCounter(referent)`.** This is a lazily filled cache. It reads the
  slot. On null it allocates a counter, stores the referent's address as the counter's untraced
  `pointer` payload, and installs the counter in the slot. Otherwise it returns the counter that
  is already there.
- **`Konan_WeakReferenceCounter_get(counter)`.** It reads the payload back: the referent, or
  null once the collector has nulled it.
- **`setWeakPointer` / `getWeakPointer`.** These are the Kotlin-side setter and getter of the
  payload.
- **`WeakReference<T>`.** This is the user handle. It refuses a null referent, holds the shared
  counter, resolves through it with `get()`, and drops it with `clear()`.
- **`atomicAdd(where, what)`.** It adds `what` to `*where` and returns the new value.

Files:

- `Wrappers.dfy`: `Option` (null) and `Result` (a thrown error).
- `Atomic.dfy`: `int32`, an `IntCell` class for the memory an `int*` points at, and
  `AtomicAdd`, an in-place read-modify-write.
- `WeakHeap.dfy`: the bookkeeping as a value, `Heap`. It has:
  - the allocated objects;
  - the metaobject slot of each object (`meta`);
  - the payload of each counter (`pointer`);
  - the allocator's next fresh address.

  It also holds the invariant `Valid`, each operation as a function from old state to new
  state, and lemmas about single operations and about arbitrary runs of operations.
- `RuntimeHeap.dfy`: class `Runtime`, which holds the same state in mutable fields. Its methods
  update those fields step by step, as the source does. Each method is proved to compute the
  `WeakHeap` function of the same name.
- `WeakReference.dfy`: class `WeakReference`, with its constructor, `get()` and `clear()`.

Objects are addresses (`Obj = nat`) in a single address space. The allocator is a bump pointer,
so "a fresh counter is distinct from every existing object" is proved, not
assumed.

Two facts about the code shape the model:

- `Weak.cpp` installs the counter with a plain read-then-write, with no compare-and-swap (its
  `TODO: make concurrency friendly`, line 38). The model is sequential.
- No collector code is shown. The clearing step of Weak.kt:38-40 ("atomically nullify
  reference to the object") is the explicit operation `Nullify`, which is
  `setWeakPointer(counter, null)`.

Evident intent modelled instead of the text:

- `Weak.cpp` calls `setWeakReferenceCounter` where `setWeakPointer` is declared (lines 19, 46).
- `Weak.cpp` calls `getWeakPointer()` without its counter argument (line 56).
- `Weak.cpp` uses an undeclared `counterObjectAddress()` as the slot's address (line 47).
- `Weak.cpp` calls `meta->counterObject()` with no result slot (line 49), although its
  `OBJ_GETTER0` declaration (line 25) and the call at line 41 take one. The model returns the
  counter the slot holds.
- `Weak.kt` calls `pointer.get()` on a nullable field (line 70). It is modelled as
  `pointer?.get()`, so a cleared handle yields null.

## Model

| member | source | states |
|---|---|---|
| `Atomic.AtomicAdd` | runtime/src/main/cpp/Atomic.h:4-9 | the cell afterwards holds its old value plus `what`, the result is that new value (add-and-fetch), only the given cell may change, and the caller must keep the sum in 32-bit `int` range |
| `Atomic.AddZero` | runtime/src/main/cpp/Atomic.h:8 | adding 0 returns the cell's current value and leaves the cell unchanged |
| `Atomic.ThreeIncrements` | runtime/src/main/cpp/Atomic.h:4-9 | three adds of 1 to a cell holding 0 return 1, 2, 3 and leave 3 in the cell |
| `Atomic.AddLeavesOtherCells` | runtime/src/main/cpp/Atomic.h:4-9 | an add to one cell returns old + what and leaves a different cell's value as it was |
| `WeakHeap.AllocCounter` | runtime/src/main/cpp/Weak.cpp:43 | allocating a counter yields an address distinct from every allocated object, with a null payload; no slot changes and the invariant holds |
| `WeakHeap.GetOrMakeMeta` | runtime/src/main/cpp/Weak.cpp:39 | afterwards the referent has a metaobject; an existing one is left as it is, a new one starts with a null counter slot; nothing else changes |
| `WeakHeap.SetWeakPointer` | runtime/src/main/kotlin/konan/ref/Weak.kt:51-54 | afterwards `getWeakPointer` of that counter is the value written; every other counter's payload, the slots and the allocated objects are unchanged |
| `WeakHeap.SetThenGetWeakPointer` | runtime/src/main/kotlin/konan/ref/Weak.kt:56-57 | gives the meaning of `getWeakPointer` (`WeakHeap.GetWeakPointer`, the payload read): `getWeakPointer(d)` after `setWeakPointer(c, p)` is `p` when `d` is `c` and the old payload of `d` otherwise |
| `WeakHeap.CounterGet` | runtime/src/main/cpp/Weak.cpp:54-57 | the result is null exactly when the payload is null; in a valid heap a non-null result is the object whose slot holds this very counter; as a function it changes no state |
| `WeakHeap.GetCounter` | runtime/src/main/cpp/Weak.cpp:37-52 | if the slot holds a counter, that counter is returned and the heap is unchanged; otherwise exactly one fresh counter is allocated, its payload is the referent, it is installed in the referent's slot, and no other slot or payload changes; afterwards the slot equals the returned counter and the invariant holds |
| `WeakHeap.GetCounterRoundTrip` | runtime/src/main/cpp/Weak.cpp:37-57 | resolving the counter just returned by `getCounter(r)` yields `r` exactly when `r`'s counter had not already been nulled, and null exactly when it had |
| `WeakHeap.GetCounterIdempotent` | runtime/src/main/cpp/Weak.cpp:39-51 | a second `getCounter(r)` returns the same counter and changes nothing |
| `WeakHeap.Nullify` | runtime/src/main/kotlin/konan/ref/Weak.kt:37-40 | nulling a counter's payload keeps the invariant, makes the counter resolve to null, and changes nothing else |
| `WeakHeap.Run` | runtime/src/main/kotlin/konan/ref/Weak.kt:21-41 | after any run of allocations, `getCounter` calls and nullifications the invariant still holds, and no object or counter has disappeared |
| `WeakHeap.PayloadOneWay` | runtime/src/main/kotlin/konan/ref/Weak.kt:37-40 | over any run, a counter's payload either stays what it was or becomes null; it is never rewritten to another object |
| `WeakHeap.ClearedStaysCleared` | runtime/src/main/kotlin/konan/ref/Weak.kt:38-40 | once a counter resolves to null, it resolves to null after any later run of operations |
| `WeakHeap.SlotStable` | runtime/src/main/kotlin/konan/ref/Weak.kt:24-27 | once an object's slot holds a counter, it holds that same counter after any run of operations |
| `WeakHeap.SharedCounter` | runtime/src/main/kotlin/konan/ref/Weak.kt:26-35 | two `getCounter(r)` calls with any run of operations between them return the same counter |
| `WeakHeap.DistinctReferentsDistinctCounters` | runtime/src/main/kotlin/konan/ref/Weak.kt:24-35 | two different objects never get the same counter: after `getCounter(r1)` and any run of operations, `getCounter(r2)` for `r2 != r1` returns a different counter |
| `RuntimeHeap.Runtime.AllocCounter` | runtime/src/main/cpp/Weak.cpp:43 | the in-place allocation of a counter computes `WeakHeap.AllocCounter` and keeps the invariant |
| `RuntimeHeap.Runtime.GetOrMakeMeta` | runtime/src/main/cpp/Weak.cpp:39 | the in-place metaobject lookup computes `WeakHeap.GetOrMakeMeta` and keeps the invariant |
| `RuntimeHeap.Runtime.SetWeakPointer` | runtime/src/main/kotlin/konan/ref/Weak.kt:51-54 | the field write `counter.pointer = pointer` computes `WeakHeap.SetWeakPointer` |
| `RuntimeHeap.Runtime.GetCounter` | runtime/src/main/cpp/Weak.cpp:37-52 | the in-place get-or-create computes `WeakHeap.GetCounter` and keeps the invariant; an existing counter is returned with the state unchanged, and a new counter is fresh, points at the referent and is the only new slot value |
| `RuntimeHeap.Runtime.Nullify` | runtime/src/main/kotlin/konan/ref/Weak.kt:37-40 | nulling a counter in place computes `WeakHeap.Nullify`, keeps the invariant and only that payload changes |
| `RuntimeHeap.GetCounterTwice` | runtime/src/main/cpp/Weak.cpp:37-52 | on a fresh object, two `getCounter` calls return the same counter, which resolves back to the object |
| `RuntimeHeap.NullifiedCounterStaysNull` | runtime/src/main/kotlin/konan/ref/Weak.kt:37-40 | a counter resolves to its object until nulled, then to null, also through a later `getCounter` of the same object (a call only the model can make, since a nulled counter's object is dead) |
| `WeakReferences.Resolve` | runtime/src/main/kotlin/konan/ref/Weak.kt:70 | a cleared handle yields null; otherwise the result is null exactly when the counter's payload is null; in a valid heap a non-null result is the object whose slot holds the handle's counter |
| `WeakReferences.ResolveOneWay` | runtime/src/main/kotlin/konan/ref/Weak.kt:37-40 | over any run of operations a handle's result stays the same or becomes null, and once null it stays null |
| `WeakReferences.WeakReference.constructor` | runtime/src/main/kotlin/konan/ref/Weak.kt:63-66 | the handle holds exactly the counter `getCounter(referent)` returns, which is the referent's slot value |
| `WeakReferences.WeakReference.Create` | runtime/src/main/kotlin/konan/ref/Weak.kt:63-66 | a null referent fails with "Weak reference to null?" and leaves the heap unchanged; otherwise a new handle holds the referent's counter as `getCounter` computes it |
| `WeakReferences.WeakReference.Get` | runtime/src/main/kotlin/konan/ref/Weak.kt:70 | a cleared handle yields null; otherwise the result is null exactly when the counter's payload is null, and a non-null result is the object whose slot holds the handle's counter |
| `WeakReferences.WeakReference.Clear` | runtime/src/main/kotlin/konan/ref/Weak.kt:72-74 | the handle's counter becomes null, and only the handle itself may change |
| `WeakReferences.NullReferentRefused` | runtime/src/main/kotlin/konan/ref/Weak.kt:64 | constructing from null fails with "Weak reference to null?" and the heap stays empty |
| `WeakReferences.TwoHandlesOneCounter` | runtime/src/main/kotlin/konan/ref/Weak.kt:26-35 | two handles to one object hold the same counter and both resolve to the object |
| `WeakReferences.ClearOnlyDropsTheHandle` | runtime/src/main/kotlin/konan/ref/Weak.kt:72-74 | after `clear()` twice a handle yields null, while another handle to the same object still yields the object |
| `WeakReferences.DeadReferentResolvesToNull` | runtime/src/main/kotlin/konan/ref/Weak.kt:37-40 | after the object's counter is nulled, both the old handle and a handle made afterwards yield null (the later handle exists only in the model, since a nulled counter's object is dead) |

## Left out

- Concurrency. The model is sequential. The code has no compare-and-swap, so racing creators of
  a counter are not modelled. No CAS retry path is added.
- Memory ordering of `__sync_add_and_fetch` (Atomic.h:6). The add is one indivisible step.
- Atomic.AtomicAdd: does not model wrap-around in the threaded branch. The sum must stay in
  `int` range, because in the single-threaded branch signed overflow is undefined.
- The collector's tracing, sweep and reclamation. They are not in the code. A referent's death
  appears only as `Nullify`, and nothing is ever reclaimed, so objects and counters only
  accumulate.
- `getOrMakeMeta`, `AllocInstance`, `UpdateRef`, `ObjHolder` and `OBJ_GETTER`/`RETURN_OBJ`
  rooting. They are not shown, and they are abstracted as "look up or create the metaobject",
  "allocate a fresh address" and "assign".
- Type-info pointer swapping (Weak.kt:25), raw-pointer casts and field layout (Weak.cpp:30-31,
  46, 56). The payload is `Option<Obj>`.
- Kotlin's reified cast `as T?` (Weak.kt:70), which is type-system plumbing.
- Out-of-memory during allocation. The allocator always succeeds.
- WeakHeap.Run: an operation whose argument is not an allocated object (for `getCounter`) or
  not a counter (for nullification) is treated as a no-op instead of being excluded. The run
  lemmas therefore cover more runs than the runtime can produce.
