/**
 * The runtime's heap as mutable state: the counter slot of every metaobject
 * (`MetaObjHeader::counterObject_`, runtime/src/main/cpp/Weak.cpp) and the `pointer` field of
 * every `WeakReferenceCounter` (runtime/src/main/kotlin/konan/ref/Weak.kt). Each method
 * updates these fields step by step, as the source does, and is proved to compute the
 * function of the same name in `WeakHeap`.
 */
module RuntimeHeap {
  import opened Wrappers
  import opened WeakHeap

  class Runtime {
    var objects: set<Obj>
    var meta: map<Obj, Option<Obj>>
    var pointer: map<Obj, Option<Obj>>
    var next: nat

    /** The state as a `WeakHeap.Heap` value. */
    function Abs(): Heap
      reads this
    {
      Heap(objects, meta, pointer, next)
    }

    ghost predicate Valid()
      reads this
    {
      WeakHeap.Valid(Abs())
    }

    constructor ()
      ensures Valid() && Abs() == Empty
    {
      objects, meta, pointer, next := {}, map[], map[], 0;
    }

    /** `AllocInstance` of an ordinary object. */
    method AllocObject() returns (o: Obj)
      requires Valid()
      modifies this
      ensures Valid()
      ensures (Abs(), o) == WeakHeap.AllocObject(old(Abs()))
    {
      o := next;
      objects := objects + {o};
      next := next + 1;
    }

    /** `AllocInstance(theWeakReferenceCounterTypeInfo, …)`: a fresh counter with a null payload. */
    method AllocCounter() returns (c: Obj)
      requires Valid()
      modifies this
      ensures Valid()
      ensures (Abs(), c) == WeakHeap.AllocCounter(old(Abs()))
    {
      c := next;
      objects := objects + {c};
      pointer := pointer[c := None];
      next := next + 1;
    }

    /** `getOrMakeMeta(referent)`. */
    method GetOrMakeMeta(r: Obj)
      requires Valid() && r in objects
      modifies this
      ensures Valid()
      ensures Abs() == WeakHeap.GetOrMakeMeta(old(Abs()), r)
    {
      if r !in meta {
        meta := meta[r := None];
      }
    }

    /** `setWeakPointer(counter, pointer)`: `counter.pointer = pointer`. */
    method SetWeakPointer(c: Obj, p: Option<Obj>)
      requires c in pointer
      modifies this
      ensures Abs() == WeakHeap.SetWeakPointer(old(Abs()), c, p)
    {
      pointer := pointer[c := p];
    }

    /** `Konan_WeakReference_getCounter(referent)`: read the slot, and on null create and install a counter. */
    method GetCounter(referent: Obj) returns (counter: Obj)
      requires Valid() && referent in objects
      modifies this
      ensures Valid()
      ensures (Abs(), counter) == WeakHeap.GetCounter(old(Abs()), referent)
      ensures meta[referent] == Some(counter) && counter in pointer
      ensures old(HasCounter(Abs(), referent)) ==> counter == old(meta[referent].value) && Abs() == old(Abs())
      ensures !old(HasCounter(Abs(), referent)) ==>
                counter !in old(objects) && pointer == old(pointer)[counter := Some(referent)]
                && meta == old(meta)[referent := Some(counter)]
    {
      GetOrMakeMeta(referent);
      var slot := meta[referent];
      if slot == None {
        counter := AllocCounter();
        SetWeakPointer(counter, Some(referent));
        meta := meta[referent := Some(counter)];
      } else {
        counter := slot.value;
      }
    }

    /** The collector's clearing step: `setWeakPointer(counter, null)`. */
    method Nullify(c: Obj)
      requires Valid() && c in pointer
      modifies this
      ensures Valid()
      ensures Abs() == WeakHeap.Nullify(old(Abs()), c)
      ensures pointer == old(pointer)[c := None] && CounterGet(Abs(), c) == None
    {
      SetWeakPointer(c, None);
    }
  }

  /** `getCounter` twice on one object: the same counter both times, and a round trip back to the object. */
  method GetCounterTwice() returns (o: Obj, c1: Obj, c2: Obj, resolved: Option<Obj>)
    ensures c1 == c2
    ensures resolved == Some(o)
  {
    var rt := new Runtime();
    o := rt.AllocObject();
    c1 := rt.GetCounter(o);
    c2 := rt.GetCounter(o);
    resolved := CounterGet(rt.Abs(), c2);
  }

  /**
   * An object dies (its counter is nulled): from then on its counter resolves to null, even
   * after another `getCounter`. In the runtime a counter is nulled only once its object has
   * died, so no later `getCounter` can reach that object; that call exists only in the model.
   */
  method NullifiedCounterStaysNull() returns (o: Obj, c: Obj, before: Option<Obj>, after: Option<Obj>, again: Option<Obj>)
    ensures before == Some(o) && after == None && again == None
  {
    var rt := new Runtime();
    o := rt.AllocObject();
    c := rt.GetCounter(o);
    before := CounterGet(rt.Abs(), c);
    rt.Nullify(c);
    after := CounterGet(rt.Abs(), c);
    var c' := rt.GetCounter(o);
    again := CounterGet(rt.Abs(), c');
  }
}
