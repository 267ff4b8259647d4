/** The vector that keeps up to N elements inline and spills to the heap beyond.

An inline slot is raw memory until an element is constructed in it, and raw again
once that element is destroyed; constructing needs raw memory and destroying needs
an element, so no element is overwritten, leaked or destroyed twice. A heap vector
that has been moved from is empty.
*/
module SmallVector {

  datatype Slot<T> = Raw | Holds(value: T)

  /** The elements in a stretch of constructed slots. */
  ghost function Values<T>(s: seq<Slot<T>>): (r: seq<T>)
    requires forall i :: 0 <= i < |s| ==> s[i].Holds?
    ensures |r| == |s| && forall i :: 0 <= i < |s| ==> r[i] == s[i].value
  {
    seq(|s|, i requires 0 <= i < |s| => s[i].value)
  }

  class Vector<T> {
    const N: nat
    const storage: array<Slot<T>>
    var heap: seq<T>
    var size: nat
    var onHeap: bool

    /** Exactly the slots in use are constructed. */
    ghost predicate Inline(from: nat, to: nat)
      requires storage.Length == N
      reads storage
    {
      to <= N && forall i :: 0 <= i < N ==> (storage[i].Holds? <==> from <= i < to)
    }

    ghost predicate Valid()
      reads this, storage
    {
      storage.Length == N
      && (if onHeap then |heap| == size && Inline(0, 0) else heap == [] && size <= N && Inline(0, size))
    }

    /** What iteration from begin to end yields. */
    ghost function Contents(): (s: seq<T>)
      requires Valid()
      reads this, storage
      ensures |s| == size
    {
      if onHeap then heap else Values(storage[..size])
    }

    method Construct(i: nat, value: T)
      requires i < storage.Length && storage[i].Raw?
      modifies storage
      ensures storage[..] == old(storage[..])[i := Holds(value)]
    {
      storage[i] := Holds(value);
    }

    method Destroy(i: nat)
      requires i < storage.Length && storage[i].Holds?
      modifies storage
      ensures storage[..] == old(storage[..])[i := Raw]
    {
      storage[i] := Raw;
    }

    constructor (n: nat)
      ensures Valid() && fresh(storage) && N == n && Contents() == [] && !onHeap
    {
      N, heap, size, onHeap := n, [], 0, false;
      storage := new Slot<T>[n](i => Raw);
    }

    // ---- element by element ------------------------------------------------

    /** Copies `o`'s first `count` elements into this vector's raw slots. */
    method CopyInline(o: Vector<T>, count: nat)
      requires storage != o.storage && storage.Length == N == o.N == o.storage.Length
      requires Inline(0, 0) && count <= N && o.Inline(0, count)
      modifies storage
      ensures Inline(0, count) && storage[..count] == o.storage[..count]
    {
      var i := 0;
      while i < count
        invariant 0 <= i <= count && Inline(0, i)
        invariant storage[..i] == o.storage[..i]
      {
        Construct(i, o.storage[i].value);
        assert forall k :: 0 <= k < N ==> storage[k] == storage[..][k];
        i := i + 1;
      }
    }

    /** Moves them: each slot of `o` is destroyed once its element is here. */
    method MoveInline(o: Vector<T>, count: nat)
      requires storage != o.storage && storage.Length == N == o.N == o.storage.Length
      requires Inline(0, 0) && count <= N && o.Inline(0, count)
      modifies storage, o.storage
      ensures Inline(0, count) && storage[..count] == old(o.storage[..count])
      ensures o.Inline(count, count)
    {
      var i := 0;
      while i < count
        invariant 0 <= i <= count && Inline(0, i) && o.Inline(i, count)
        invariant storage[..i] == old(o.storage[..i])
        invariant o.storage[i..count] == old(o.storage[i..count])
      {
        assert o.storage[i] == o.storage[i..count][0];
        Construct(i, o.storage[i].value);
        assert forall k :: 0 <= k < N ==> storage[k] == storage[..][k];
        o.Destroy(i);
        assert forall k :: 0 <= k < N ==> o.storage[k] == o.storage[..][k];
        i := i + 1;
      }
    }

    method DestroyInline()
      requires Valid()
      modifies storage
      ensures Inline(0, 0)
    {
      if !onHeap {
        var i := 0;
        while i < size
          invariant 0 <= i <= size && Inline(i, size)
        {
          Destroy(i);
          assert forall k :: 0 <= k < N ==> storage[k] == storage[..][k];
          i := i + 1;
        }
      }
    }

    /** Moves every inline element to the heap. */
    method Spill()
      requires Valid() && !onHeap
      modifies this, storage
      ensures Valid() && onHeap && size == old(size) && Contents() == old(Contents())
    {
      var i := 0;
      while i < size
        invariant 0 <= i <= size == old(size) && !onHeap && Inline(i, size)
        invariant heap == old(Contents())[..i]
        invariant forall k :: i <= k < size ==> storage[k] == old(storage[k])
      {
        heap := heap + [storage[i].value];
        Destroy(i);
        assert forall k :: 0 <= k < N ==> storage[k] == storage[..][k];
        i := i + 1;
      }
      onHeap := true;
    }

    // ---- the operations ----------------------------------------------------

    method PushBack(value: T)
      requires Valid()
      modifies this, storage
      ensures Valid() && Contents() == old(Contents()) + [value]
      ensures onHeap <==> old(onHeap) || old(size) == N
    {
      ghost var before := Contents();
      if !onHeap && size < N {
        Construct(size, value);
        assert forall k :: 0 <= k < N ==> storage[k] == storage[..][k];
        size := size + 1;
        assert Contents() == before + [value];
      } else {
        if !onHeap { Spill(); }
        heap := heap + [value];
        size := size + 1;
      }
    }

    method Clear()
      requires Valid()
      modifies this, storage
      ensures Valid() && Contents() == [] && !onHeap
    {
      if onHeap {
        heap := [];
      } else {
        DestroyInline();
      }
      size := 0;
      onHeap := false;
    }

    /** The destructor: nothing is left constructed. */
    method Finish()
      requires Valid()
      modifies storage
      ensures forall i :: 0 <= i < N ==> storage[i].Raw?
    {
      DestroyInline();
    }

    constructor Copy(o: Vector<T>)
      requires o.Valid()
      ensures Valid() && fresh(storage) && N == o.N && Contents() == o.Contents()
    {
      N, size, onHeap, heap := o.N, o.size, o.onHeap, [];
      storage := new Slot<T>[o.N](i => Raw);
      new;
      if onHeap {
        heap := o.heap;
      } else {
        CopyInline(o, size);
      }
    }

    constructor Move(o: Vector<T>)
      requires o.Valid()
      modifies o, o.storage
      ensures Valid() && fresh(storage) && N == o.N && Contents() == old(o.Contents())
      ensures o.Valid() && o.Contents() == []
    {
      N, size, onHeap, heap := o.N, o.size, o.onHeap, [];
      storage := new Slot<T>[o.N](i => Raw);
      new;
      if onHeap {
        heap := o.heap;
        o.heap := [];
      } else {
        MoveInline(o, size);
      }
      o.size := 0;
      o.onHeap := false;
    }

    method Assign(o: Vector<T>)
      requires Valid() && o.Valid() && o.N == N && (o != this ==> o.storage != storage)
      modifies this, storage
      ensures Valid() && Contents() == old(o.Contents())
    {
      if this != o {
        Clear();
        size := o.size;
        onHeap := o.onHeap;
        if onHeap {
          heap := o.heap;
        } else {
          CopyInline(o, size);
        }
      }
    }

    method MoveAssign(o: Vector<T>)
      requires Valid() && o.Valid() && o.N == N && (o != this ==> o.storage != storage)
      modifies this, storage, o, o.storage
      ensures Valid() && Contents() == old(o.Contents())
      ensures o != this ==> o.Valid() && o.Contents() == []
    {
      if this != o {
        Clear();
        size := o.size;
        onHeap := o.onHeap;
        if onHeap {
          heap := o.heap;
          o.heap := [];
        } else {
          MoveInline(o, size);
        }
        o.size := 0;
        o.onHeap := false;
      }
    }

    /** Walks from begin to end. */
    method ToSeq() returns (s: seq<T>)
      requires Valid()
      ensures s == Contents()
    {
      s := [];
      var i := 0;
      while i < size
        invariant 0 <= i <= size && s == Contents()[..i]
      {
        s := s + [if onHeap then heap[i] else storage[i].value];
        i := i + 1;
      }
    }
  }

  // ---- whole programs over several vectors ------------------------------------

  datatype Op<T> =
    | New
    | Push(v: nat, value: T)
    | CopyNew(from: nat)
    | MoveNew(from: nat)
    | CopyAssign(to: nat, from: nat)
    | MoveAssign(to: nat, from: nat)
    | Destroy(v: nat)

  /** The same program over plain sequences. */
  ghost function Effect<T>(s: seq<seq<T>>, op: Op<T>): seq<seq<T>> {
    match op
    case New => s + [[]]
    case Push(v, value) => if v < |s| then s[v := s[v] + [value]] else s
    case CopyNew(from) => if from < |s| then s + [s[from]] else s
    case MoveNew(from) => if from < |s| then s[from := []] + [s[from]] else s
    case CopyAssign(to, from) => if to < |s| && from < |s| then s[to := s[from]] else s
    case MoveAssign(to, from) =>
      if to < |s| && from < |s| && to != from then s[to := s[from]][from := []] else s
    case Destroy(v) => if v < |s| then s[..v] + s[v + 1..] else s
  }

  ghost function Effects<T>(s: seq<seq<T>>, ops: seq<Op<T>>): seq<seq<T>> {
    if ops == [] then s else Effect(Effects(s, ops[..|ops| - 1]), ops[|ops| - 1])
  }

  /** Distinct vectors of capacity `n`; they share no storage. */
  ghost predicate Pool<T>(pool: seq<Vector<T>>, n: nat)
    reads pool, set v | v in pool :: v.storage
  {
    (forall i :: 0 <= i < |pool| ==> pool[i].Valid() && pool[i].N == n)
    && forall i, j :: 0 <= i < j < |pool| ==> pool[i] != pool[j] && pool[i].storage != pool[j].storage
  }

  ghost predicate Agree<T>(pool: seq<Vector<T>>, n: nat, s: seq<seq<T>>)
    requires Pool(pool, n)
    reads pool, set v | v in pool :: v.storage
  {
    |s| == |pool| && forall i :: 0 <= i < |pool| ==> pool[i].Contents() == s[i]
  }

  method RunPush<T>(pool: seq<Vector<T>>, n: nat, v: nat, value: T, ghost s: seq<seq<T>>)
    requires Pool(pool, n) && Agree(pool, n, s) && v < |pool|
    modifies pool[v], pool[v].storage
    ensures Pool(pool, n) && Agree(pool, n, Effect(s, Push(v, value)))
  {
    pool[v].PushBack(value);
    forall i | 0 <= i < |pool| && i != v ensures pool[i].Valid() && pool[i].Contents() == s[i] {
      assert pool[i] != pool[v] && pool[i].storage != pool[v].storage;
    }
  }

  method RunCopy<T>(pool: seq<Vector<T>>, n: nat, to: nat, from: nat, ghost s: seq<seq<T>>)
    requires Pool(pool, n) && Agree(pool, n, s) && to < |pool| && from < |pool|
    modifies pool[to], pool[to].storage
    ensures Pool(pool, n) && Agree(pool, n, Effect(s, CopyAssign(to, from)))
  {
    pool[to].Assign(pool[from]);
    forall i | 0 <= i < |pool| && i != to ensures pool[i].Valid() && pool[i].Contents() == s[i] {
      assert pool[i] != pool[to] && pool[i].storage != pool[to].storage;
    }
  }

  method RunMove<T>(pool: seq<Vector<T>>, n: nat, to: nat, from: nat, ghost s: seq<seq<T>>)
    requires Pool(pool, n) && Agree(pool, n, s) && to < |pool| && from < |pool|
    modifies pool[to], pool[to].storage, pool[from], pool[from].storage
    ensures Pool(pool, n) && Agree(pool, n, Effect(s, MoveAssign(to, from)))
  {
    pool[to].MoveAssign(pool[from]);
    forall i | 0 <= i < |pool| && i != to && i != from ensures pool[i].Valid() && pool[i].Contents() == s[i] {
      assert pool[i] != pool[to] && pool[i].storage != pool[to].storage;
      assert pool[i] != pool[from] && pool[i].storage != pool[from].storage;
    }
  }

  /** Default, copy and move construction. */
  method RunNew<T>(pool: seq<Vector<T>>, n: nat, op: Op<T>, ghost s: seq<seq<T>>) returns (v: Vector<T>)
    requires Pool(pool, n) && Agree(pool, n, s)
    requires op.New? || ((op.CopyNew? || op.MoveNew?) && op.from < |pool|)
    modifies if op.MoveNew? then {pool[op.from], pool[op.from].storage} else {}
    ensures fresh(v) && fresh(v.storage) && Pool(pool + [v], n) && Agree(pool + [v], n, Effect(s, op))
  {
    if op.New? {
      v := new Vector<T>(n);
    } else if op.CopyNew? {
      v := new Vector<T>.Copy(pool[op.from]);
    } else {
      v := new Vector<T>.Move(pool[op.from]);
      forall i | 0 <= i < |pool| && i != op.from ensures pool[i].Valid() && pool[i].Contents() == s[i] {
        assert pool[i] != pool[op.from] && pool[i].storage != pool[op.from].storage;
      }
    }
  }

  method RunDestroy<T>(pool: seq<Vector<T>>, n: nat, v: nat, ghost s: seq<seq<T>>)
    requires Pool(pool, n) && Agree(pool, n, s) && v < |pool|
    modifies pool[v].storage
    ensures Pool(pool[..v] + pool[v + 1..], n) && Agree(pool[..v] + pool[v + 1..], n, Effect(s, Op.Destroy(v)))
    ensures forall i :: 0 <= i < n ==> pool[v].storage[i].Raw?
  {
    Without(pool, n, v, s);
    ghost var rest, t := pool[..v] + pool[v + 1..], Effect(s, Op.Destroy(v));
    pool[v].Finish();
    forall i | 0 <= i < |rest| ensures rest[i].Valid() && rest[i].Contents() == t[i] {
      assert rest[i].storage != pool[v].storage;
    }
  }

  /** A pool stays one when a vector is taken out. */
  lemma Without<T>(pool: seq<Vector<T>>, n: nat, v: nat, s: seq<seq<T>>)
    requires Pool(pool, n) && Agree(pool, n, s) && v < |pool|
    ensures var rest := pool[..v] + pool[v + 1..];
            Pool(rest, n) && Agree(rest, n, s[..v] + s[v + 1..])
            && forall i :: 0 <= i < |rest| ==> rest[i].storage != pool[v].storage
  {
    var rest := pool[..v] + pool[v + 1..];
    assert forall i :: 0 <= i < v ==> rest[i] == pool[i];
    assert forall i :: v <= i < |rest| ==> rest[i] == pool[i + 1];
  }

  /** Vectors of the new pool are of the old one, or new. */
  twostate predicate Grown<T>(pool: seq<Vector<T>>, new pool': seq<Vector<T>>) {
    forall v :: v in pool' ==> v in pool || (fresh(v) && fresh(v.storage))
  }

  method RunOp<T>(pool: seq<Vector<T>>, n: nat, op: Op<T>, ghost s: seq<seq<T>>) returns (pool': seq<Vector<T>>)
    requires Pool(pool, n) && Agree(pool, n, s)
    modifies pool, set v | v in pool :: v.storage
    ensures Grown(pool, pool') && Pool(pool', n) && Agree(pool', n, Effect(s, op))
  {
    pool' := pool;
    if op.New? || ((op.CopyNew? || op.MoveNew?) && op.from < |pool|) {
      var v := RunNew(pool, n, op, s);
      pool' := pool + [v];
    } else if op.Push? && op.v < |pool| {
      RunPush(pool, n, op.v, op.value, s);
    } else if op.CopyAssign? && op.to < |pool| && op.from < |pool| {
      RunCopy(pool, n, op.to, op.from, s);
    } else if op.MoveAssign? && op.to < |pool| && op.from < |pool| {
      RunMove(pool, n, op.to, op.from, s);
    } else if op.Destroy? && op.v < |pool| {
      RunDestroy(pool, n, op.v, s);
      pool' := pool[..op.v] + pool[op.v + 1..];
    }
  }

  /** Any program of constructions, pushes, copies, moves and destructions over any
      vectors, of any capacity and in any mixture of inline and spilled, computes
      what it computes on sequences. */
  method RunAll<T>(pool: seq<Vector<T>>, n: nat, ops: seq<Op<T>>, ghost s: seq<seq<T>>) returns (pool': seq<Vector<T>>)
    requires Pool(pool, n) && Agree(pool, n, s)
    modifies pool, set v | v in pool :: v.storage
    ensures Grown(pool, pool') && Pool(pool', n) && Agree(pool', n, Effects(s, ops))
  {
    pool' := pool;
    var k := 0;
    ghost var now := s;
    while k < |ops|
      invariant 0 <= k <= |ops| && now == Effects(s, ops[..k])
      invariant Grown(pool, pool') && Pool(pool', n) && Agree(pool', n, now)
    {
      pool' := RunOp(pool', n, ops[k], now);
      assert ops[..k + 1][..k] == ops[..k] && ops[..k + 1][k] == ops[k];
      now := Effect(now, ops[k]);
      k := k + 1;
    }
    assert ops[..k] == ops;
  }
}
