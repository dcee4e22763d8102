/**
 * The weak-reference bookkeeping of the runtime as a value: the heap state that
 * `Konan_WeakReference_getCounter`, `Konan_WeakReferenceCounter_get`, `setWeakPointer` and
 * `getWeakPointer` read and write (runtime/src/main/cpp/Weak.cpp,
 * runtime/src/main/kotlin/konan/ref/Weak.kt), each operation as a function from the old state
 * to the new one, and what the doc comment of Weak.kt (lines 21-41) promises about runs of
 * these operations.
 *
 * The class `RuntimeHeap.Runtime` holds the same state in mutable fields; its methods are proved
 * to compute exactly these functions.
 */
module WeakHeap {
  import opened Wrappers

  /** The address of a heap object: a referent, a counter, any object the allocator hands out. */
  type Obj = nat

  /**
   * objects: every allocated object.
   * meta:    the metaobject of each object that has one, given by its `counterObject_` slot
   *          (None is the null slot); an object without a key has no metaobject yet.
   * pointer: each `WeakReferenceCounter` instance and its untraced `pointer` payload
   *          (None is null).
   * next:    the allocator's next fresh address.
   */
  datatype Heap = Heap(
    objects: set<Obj>,
    meta: map<Obj, Option<Obj>>,
    pointer: map<Obj, Option<Obj>>,
    next: nat)

  /** The empty heap a runtime starts from. */
  const Empty: Heap := Heap({}, map[], map[], 0)

  /**
   * The invariant the bookkeeping keeps:
   * - the allocator has not yet handed out `next` or anything above it;
   * - metaobjects and counters belong to allocated objects;
   * - a non-null slot names a counter, and that counter points back at the slot's owner or
   *   has been nulled;
   * - a counter with a non-null payload is the counter installed in its referent's slot;
   * - no two objects share a counter.
   */
  ghost predicate Valid(h: Heap) {
    && (forall o :: o in h.objects ==> o < h.next)
    && h.meta.Keys <= h.objects
    && h.pointer.Keys <= h.objects
    && (forall r :: r in h.meta && h.meta[r].Some? ==>
          h.meta[r].value in h.pointer
          && (h.pointer[h.meta[r].value] == Some(r) || h.pointer[h.meta[r].value] == None))
    && (forall c :: c in h.pointer && h.pointer[c].Some? ==>
          h.pointer[c].value in h.meta && h.meta[h.pointer[c].value] == Some(c))
    && (forall r1, r2 :: r1 in h.meta && r2 in h.meta && h.meta[r1].Some? && h.meta[r1] == h.meta[r2] ==> r1 == r2)
  }

  /** True when `r` already has a counter installed in its metaobject. */
  predicate HasCounter(h: Heap, r: Obj) {
    r in h.meta && h.meta[r].Some?
  }

  /** True when `r` has a counter and that counter's payload has been nulled. */
  predicate CounterCleared(h: Heap, r: Obj) {
    HasCounter(h, r) && h.meta[r].value in h.pointer && h.pointer[h.meta[r].value].None?
  }

  /**
   * The allocator (`AllocInstance`) for an ordinary object: a fresh address, distinct from
   * every object already allocated; no metaobject, no counter.
   */
  function AllocObject(h: Heap): (res: (Heap, Obj))
    requires Valid(h)
    ensures Valid(res.0)
    ensures res.1 !in h.objects && res.0.objects == h.objects + {res.1}
    ensures res.0.meta == h.meta && res.0.pointer == h.pointer
  {
    (h.(objects := h.objects + {h.next}, next := h.next + 1), h.next)
  }

  /**
   * The allocator for a `WeakReferenceCounter`: a fresh object whose `pointer` field starts
   * out null, as every reference field of a new instance does.
   */
  function AllocCounter(h: Heap): (res: (Heap, Obj))
    requires Valid(h)
    ensures Valid(res.0)
    ensures res.1 !in h.objects && res.0.objects == h.objects + {res.1}
    ensures res.0.meta == h.meta && res.0.pointer == h.pointer[res.1 := None]
  {
    (h.(objects := h.objects + {h.next}, pointer := h.pointer[h.next := None], next := h.next + 1), h.next)
  }

  /**
   * `getOrMakeMeta(referent)`: the referent's metaobject, created with a null counter slot
   * when the referent has none yet. An existing metaobject is left as it is.
   */
  function GetOrMakeMeta(h: Heap, r: Obj): (h': Heap)
    requires Valid(h) && r in h.objects
    ensures Valid(h')
    ensures r in h'.meta
    ensures r in h.meta ==> h' == h
    ensures r !in h.meta ==> h'.meta == h.meta[r := None]
    ensures h'.objects == h.objects && h'.pointer == h.pointer && h'.next == h.next
  {
    if r in h.meta then h else h.(meta := h.meta[r := None])
  }

  /** `setWeakPointer(counter, what)`: overwrite one counter's payload; nothing else changes. */
  function SetWeakPointer(h: Heap, c: Obj, p: Option<Obj>): (h': Heap)
    requires c in h.pointer
    ensures c in h'.pointer && GetWeakPointer(h', c) == p
    ensures forall d :: d in h.pointer && d != c ==> d in h'.pointer && GetWeakPointer(h', d) == GetWeakPointer(h, d)
    ensures h'.pointer.Keys == h.pointer.Keys
    ensures h'.objects == h.objects && h'.meta == h.meta && h'.next == h.next
  {
    h.(pointer := h.pointer[c := p])
  }

  /** `getWeakPointer(counter)`: the counter's payload. */
  function GetWeakPointer(h: Heap, c: Obj): Option<Obj>
    requires c in h.pointer
  {
    h.pointer[c]
  }

  /**
   * `Konan_WeakReferenceCounter_get(counter)`: the counter's referent, or null once the
   * payload has been nulled. In a valid heap a non-null answer is always the object whose
   * slot holds this very counter, so a counter never resolves to some other object.
   */
  function CounterGet(h: Heap, c: Obj): (r: Option<Obj>)
    requires c in h.pointer
    ensures Valid(h) && r.Some? ==> r.value in h.objects && HasCounter(h, r.value) && h.meta[r.value] == Some(c)
    ensures r.None? <==> h.pointer[c].None?
  {
    GetWeakPointer(h, c)
  }

  /**
   * `Konan_WeakReference_getCounter(referent)`: the referent's counter, created on first use.
   * If the slot already holds a counter, that counter is returned and nothing changes.
   * Otherwise one fresh counter is allocated, its payload set to the referent, and it is
   * installed in the referent's slot; no other slot and no other counter changes.
   */
  function GetCounter(h: Heap, r: Obj): (res: (Heap, Obj))
    requires Valid(h) && r in h.objects
    ensures Valid(res.0)
    ensures HasCounter(res.0, r) && res.0.meta[r] == Some(res.1) && res.1 in res.0.pointer
    ensures HasCounter(h, r) ==> res == (h, h.meta[r].value)
    ensures !HasCounter(h, r) ==>
              && res.1 !in h.objects
              && res.0.objects == h.objects + {res.1}
              && res.0.pointer == h.pointer[res.1 := Some(r)]
              && res.0.meta == h.meta[r := Some(res.1)]
  {
    var h1 := GetOrMakeMeta(h, r);
    match h1.meta[r]
    case Some(c) => (h1, c)
    case None =>
      var (h2, c) := AllocCounter(h1);
      var h3 := SetWeakPointer(h2, c, Some(r));
      (h3.(meta := h3.meta[r := Some(c)]), c)
  }

  /**
   * The collector's clearing step for a dead referent: `setWeakPointer(counter, null)`.
   * The invariant survives it, and only this counter's payload changes.
   */
  function Nullify(h: Heap, c: Obj): (h': Heap)
    requires Valid(h) && c in h.pointer
    ensures Valid(h')
    ensures c in h'.pointer && CounterGet(h', c) == None
    ensures h'.pointer == h.pointer[c := None]
    ensures h'.objects == h.objects && h'.meta == h.meta && h'.next == h.next
  {
    SetWeakPointer(h, c, None)
  }

  /** Resolving the counter of `r` right after getting it yields `r`, unless that counter was already nulled. */
  lemma GetCounterRoundTrip(h: Heap, r: Obj)
    requires Valid(h) && r in h.objects
    ensures CounterGet(GetCounter(h, r).0, GetCounter(h, r).1) == Some(r) <==> !CounterCleared(h, r)
    ensures CounterGet(GetCounter(h, r).0, GetCounter(h, r).1) == None <==> CounterCleared(h, r)
  {
  }

  /** Two successive `getCounter(r)` calls return the same counter, and the second changes nothing. */
  lemma GetCounterIdempotent(h: Heap, r: Obj)
    requires Valid(h) && r in h.objects
    ensures GetCounter(GetCounter(h, r).0, r) == GetCounter(h, r)
  {
  }

  /** A `setWeakPointer` followed by a `getWeakPointer` on the same counter reads back what was written. */
  lemma SetThenGetWeakPointer(h: Heap, c: Obj, p: Option<Obj>, d: Obj)
    requires c in h.pointer && d in h.pointer
    ensures GetWeakPointer(SetWeakPointer(h, c, p), d) == if d == c then p else GetWeakPointer(h, d)
  {
  }

  // ---------------------------------------------------------------------------------------
  // Runs of operations

  /** What can happen to the weak bookkeeping: allocation, `getCounter`, and the collector nulling a counter. */
  datatype Op = AllocOp | GetCounterOp(referent: Obj) | NullifyOp(counter: Obj)

  /** One operation. An operation whose argument is not an allocated object, or not a counter, is a no-op. */
  function Step(h: Heap, op: Op): (h': Heap)
    requires Valid(h)
    ensures Valid(h')
  {
    match op
    case AllocOp => AllocObject(h).0
    case GetCounterOp(r) => if r in h.objects then GetCounter(h, r).0 else h
    case NullifyOp(c) => if c in h.pointer then Nullify(h, c) else h
  }

  /** A run of operations, in order. Objects and counters are never taken away. */
  function Run(h: Heap, ops: seq<Op>): (h': Heap)
    requires Valid(h)
    ensures Valid(h')
    ensures h.objects <= h'.objects && h.pointer.Keys <= h'.pointer.Keys
    decreases |ops|
  {
    if ops == [] then h else Run(Step(h, ops[0]), ops[1..])
  }

  /** One step changes an existing counter's payload only by nulling it. */
  lemma StepPayloadOneWay(h: Heap, op: Op, c: Obj)
    requires Valid(h) && c in h.pointer
    ensures c in Step(h, op).pointer
    ensures Step(h, op).pointer[c] == h.pointer[c] || Step(h, op).pointer[c] == None
  {
  }

  /**
   * A counter's payload is written once, when the counter is created, and afterwards can only
   * become null: over any run it is either what it was or null.
   */
  lemma {:induction false} PayloadOneWay(h: Heap, ops: seq<Op>, c: Obj)
    requires Valid(h) && c in h.pointer
    ensures c in Run(h, ops).pointer
    ensures Run(h, ops).pointer[c] == h.pointer[c] || Run(h, ops).pointer[c] == None
    decreases |ops|
  {
    if ops != [] {
      StepPayloadOneWay(h, ops[0], c);
      PayloadOneWay(Step(h, ops[0]), ops[1..], c);
    }
  }

  /** Once a counter has been nulled, every later get through it yields null: the relationship is never revived. */
  lemma ClearedStaysCleared(h: Heap, ops: seq<Op>, c: Obj)
    requires Valid(h) && c in h.pointer && CounterGet(h, c) == None
    ensures c in Run(h, ops).pointer && CounterGet(Run(h, ops), c) == None
  {
    PayloadOneWay(h, ops, c);
  }

  /** One step never changes a slot that already holds a counter. */
  lemma StepSlotStable(h: Heap, op: Op, r: Obj)
    requires Valid(h) && HasCounter(h, r)
    ensures HasCounter(Step(h, op), r) && Step(h, op).meta[r] == h.meta[r]
  {
  }

  /** Once an object's slot holds a counter, it holds that same counter after any run. */
  lemma {:induction false} SlotStable(h: Heap, ops: seq<Op>, r: Obj)
    requires Valid(h) && HasCounter(h, r)
    ensures HasCounter(Run(h, ops), r) && Run(h, ops).meta[r] == h.meta[r]
    decreases |ops|
  {
    if ops != [] {
      StepSlotStable(h, ops[0], r);
      SlotStable(Step(h, ops[0]), ops[1..], r);
    }
  }

  /**
   * All weak references to an object share one counter: whatever happens between two
   * `getCounter(r)` calls, they return the same counter.
   */
  lemma SharedCounter(h: Heap, r: Obj, ops: seq<Op>)
    requires Valid(h) && r in h.objects
    ensures r in Run(GetCounter(h, r).0, ops).objects
    ensures GetCounter(Run(GetCounter(h, r).0, ops), r).1 == GetCounter(h, r).1
  {
    var (h1, c1) := GetCounter(h, r);
    SlotStable(h1, ops, r);
  }

  /**
   * No two objects ever get the same counter: whatever happens after `getCounter(r1)`, a later
   * `getCounter(r2)` for a different object returns a different counter.
   */
  lemma DistinctReferentsDistinctCounters(h: Heap, r1: Obj, r2: Obj, ops: seq<Op>)
    requires Valid(h) && r1 in h.objects && r2 in h.objects && r1 != r2
    ensures var (h1, c1) := GetCounter(h, r1);
            var h2 := Run(h1, ops);
            r2 in h2.objects && GetCounter(h2, r2).1 != c1
  {
    var (h1, c1) := GetCounter(h, r1);
    SlotStable(h1, ops, r1);
  }
}
