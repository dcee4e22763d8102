/**
 * The user-facing handle `WeakReference<T>` (runtime/src/main/kotlin/konan/ref/Weak.kt):
 * it refuses a null referent, holds a strong reference to the referent's shared counter,
 * resolves through that counter, and can drop the counter with `clear()`.
 */
module WeakReferences {
  import opened Wrappers
  import opened WeakHeap
  import opened RuntimeHeap

  /** The message of the error the constructor throws for a null referent. */
  const NullReferentMessage: string := "Weak reference to null?"

  /**
   * `get()` of a handle whose `pointer` field is `handle`: null once the handle has been
   * cleared, otherwise whatever its counter resolves to.
   */
  function Resolve(h: Heap, handle: Option<Obj>): (r: Option<Obj>)
    requires handle.Some? ==> handle.value in h.pointer
    ensures handle.None? ==> r.None?
    ensures handle.Some? ==> (r.None? <==> h.pointer[handle.value].None?)
    ensures Valid(h) && r.Some? ==> handle.Some? && HasCounter(h, r.value) && h.meta[r.value] == handle
  {
    match handle
    case None => None
    case Some(c) => CounterGet(h, c)
  }

  /**
   * Once a handle resolves to null it resolves to null after any run of allocations,
   * `getCounter` calls and nullifications; until then it resolves to the same object or null.
   */
  lemma ResolveOneWay(h: Heap, handle: Option<Obj>, ops: seq<Op>)
    requires Valid(h) && (handle.Some? ==> handle.value in h.pointer)
    ensures handle.Some? ==> handle.value in Run(h, ops).pointer
    ensures Resolve(Run(h, ops), handle) == Resolve(h, handle) || Resolve(Run(h, ops), handle) == None
    ensures Resolve(h, handle) == None ==> Resolve(Run(h, ops), handle) == None
  {
    if handle.Some? {
      PayloadOneWay(h, ops, handle.value);
    }
  }

  class WeakReference {
    /** The strong reference to the referent's counter; None after `clear()`. */
    var pointer: Option<Obj>

    /** The handle's counter is (still) a counter of `rt`. */
    ghost predicate Attached(rt: Runtime)
      reads this, rt
    {
      pointer.Some? ==> pointer.value in rt.pointer
    }

    /** The constructor for a non-null referent: `pointer = getCounter(referent)`. */
    constructor (rt: Runtime, referent: Obj)
      requires rt.Valid() && referent in rt.objects
      modifies rt
      ensures rt.Valid() && Attached(rt)
      ensures pointer.Some? && (rt.Abs(), pointer.value) == GetCounter(old(rt.Abs()), referent)
      ensures rt.meta[referent] == pointer
    {
      var c := rt.GetCounter(referent);
      pointer := Some(c);
    }

    /** The constructor as user code calls it: it throws for a null referent and changes nothing. */
    static method Create(rt: Runtime, referent: Option<Obj>) returns (res: Result<WeakReference, string>)
      requires rt.Valid() && (referent.Some? ==> referent.value in rt.objects)
      modifies rt
      ensures rt.Valid()
      ensures referent.None? <==> res.Failure?
      ensures res.Failure? ==> res.error == NullReferentMessage && rt.Abs() == old(rt.Abs())
      ensures res.Success? ==>
                && fresh(res.value)
                && res.value.Attached(rt)
                && res.value.pointer.Some?
                && (rt.Abs(), res.value.pointer.value) == GetCounter(old(rt.Abs()), referent.value)
    {
      if referent.None? {
        return Failure(NullReferentMessage);
      }
      var w := new WeakReference(rt, referent.value);
      return Success(w);
    }

    /** `get()`: the referent while its counter is live, null once the counter is nulled or the handle cleared. */
    function Get(rt: Runtime): (r: Option<Obj>)
      reads this, rt
      requires Attached(rt)
      ensures pointer.None? ==> r.None?
      ensures pointer.Some? ==> (r.None? <==> rt.pointer[pointer.value].None?)
      ensures rt.Valid() && r.Some? ==> r.value in rt.meta && rt.meta[r.value] == pointer
    {
      Resolve(rt.Abs(), pointer)
    }

    /** `clear()`: drop the counter. The counter object and the rest of the heap are untouched. */
    method Clear()
      modifies this
      ensures pointer == None
    {
      pointer := None;
    }
  }

  /** A null referent is refused with "Weak reference to null?" and the heap is left alone. */
  method NullReferentRefused() returns (res: Result<WeakReference, string>, heapUnchanged: bool)
    ensures res == Failure(NullReferentMessage)
    ensures heapUnchanged
  {
    var rt := new Runtime();
    res := WeakReference.Create(rt, None);
    heapUnchanged := rt.Abs() == Empty;
  }

  /** Two weak references to one object share one counter, and both resolve to the object. */
  method TwoHandlesOneCounter() returns (o: Obj, c1: Option<Obj>, c2: Option<Obj>, g1: Option<Obj>, g2: Option<Obj>)
    ensures c1.Some? && c1 == c2
    ensures g1 == Some(o) && g2 == Some(o)
  {
    var rt := new Runtime();
    o := rt.AllocObject();
    var w1 := new WeakReference(rt, o);
    var w2 := new WeakReference(rt, o);
    c1, c2 := w1.pointer, w2.pointer;
    g1, g2 := w1.Get(rt), w2.Get(rt);
  }

  /**
   * `clear()` twice on one handle: it resolves to null, while another handle to the same object
   * still resolves to the object, because the shared counter was not touched.
   */
  method ClearOnlyDropsTheHandle() returns (o: Obj, cleared: Option<Obj>, other: Option<Obj>)
    ensures cleared == None && other == Some(o)
  {
    var rt := new Runtime();
    o := rt.AllocObject();
    var w1 := new WeakReference(rt, o);
    var w2 := new WeakReference(rt, o);
    w1.Clear();
    w1.Clear();
    cleared, other := w1.Get(rt), w2.Get(rt);
  }

  /**
   * The collector nulls the object's counter: every handle to it, old or made afterwards,
   * resolves to null from then on. In the runtime a counter is nulled only once its object has
   * died, so no handle can be made afterwards; that second handle exists only in the model.
   */
  method DeadReferentResolvesToNull() returns (o: Obj, before: Option<Obj>, after: Option<Obj>, later: Option<Obj>)
    ensures before == Some(o) && after == None && later == None
  {
    var rt := new Runtime();
    o := rt.AllocObject();
    var w := new WeakReference(rt, o);
    before := w.Get(rt);
    rt.Nullify(w.pointer.value);
    after := w.Get(rt);
    var w' := new WeakReference(rt, o);
    later := w'.Get(rt);
  }
}
