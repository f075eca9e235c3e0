/** The macros of chapter03/share/obstack.h as methods that update the control block and the heap in
    place: the out-of-line functions, the GNU C macro set and the portable one. Every method is
    verified against the operation of the same name in ObstackModel. */
module ObstackMacros {
  import opened Align
  import opened ObstackModel
  import opened ObstackProofs

  /** The process's memory, with the functions an obstack calls on it. */
  class Heap {
    var mem: Memory

    constructor (mem: Memory)
      ensures this.mem == mem
    {
      this.mem := mem;
    }

    /** `chunkfun`: the block `g` is now mapped. */
    method Chunkfun(g: Grant)
      requires forall x :: g.addr <= x < g.addr + |g.bytes| ==> x !in mem
      modifies this
      ensures mem == Write(old(mem), g.addr, g.bytes)
    {
      mem := Write(mem, g.addr, g.bytes);
    }

    /** `freefun`: the chunk is no longer mapped. */
    method Freefun(c: Chunk)
      requires c.Chunk? && Block(c) <= mem.Keys
      modifies this
      ensures mem == old(mem) - Block(c)
    {
      mem := mem - Block(c);
    }

    method Store(a: int, b: byte)
      requires a in mem
      modifies this
      ensures mem == Write(old(mem), a, [b])
    {
      mem := mem[a := b];
    }

    method StoreWord(a: int, data: seq<byte>)
      requires Mapped(mem, a, |data|)
      modifies this
      ensures mem == Write(old(mem), a, data)
    {
      mem := Write(mem, a, data);
    }

    /** `memcpy`, byte by byte. */
    method Memcpy(dst: int, src: int, n: nat)
      requires Mapped(mem, src, n) && Mapped(mem, dst, n)
      requires Interval(src, src + n) !! Interval(dst, dst + n)
      modifies this
      ensures mem == Write(old(mem), dst, Read(old(mem), src, n))
    {
      ghost var data := Read(mem, src, n);
      var i := 0;
      assert Write(mem, dst, data[..0]) == mem;
      while i < n
        invariant 0 <= i <= n
        invariant mem == Write(old(mem), dst, data[..i])
      {
        assert src + i !in Interval(dst, dst + n) && mem[src + i] == data[i];
        WriteOne(old(mem), dst, data, i);
        mem := mem[dst + i := mem[src + i]];
        i := i + 1;
      }
      assert data[..n] == data;
    }
  }

  lemma WriteOne(mem: Memory, a: int, data: seq<byte>, i: nat)
    requires i < |data|
    ensures Write(mem, a, data[..i])[a + i := data[i]] == Write(mem, a, data[..i + 1])
  {
  }

  /** Once the new block is mapped, the growing object can be copied into it. */
  lemma BeforeCopy(s: State, n: nat, g: Grant)
    requires Sound(s) && GrantOk(s, n, g)
    ensures var mem := Write(s.mem, g.addr, g.bytes);
            var size := s.nextFree - s.objectBase;
            var base := FirstObject(g.addr, s.mask);
            && Mapped(mem, s.objectBase, size) && Read(mem, s.objectBase, size) == Growing(s)
            && Mapped(mem, base, size)
            && Interval(s.objectBase, s.objectBase + size) !! Interval(base, base + size)
            && Block(s.chunk) <= Relocated(s, g).Keys
  {
    var base := FirstObject(g.addr, s.mask);
    GrowingMapped(s);
    PtrAlignFacts(g.addr, g.addr + HEADER, s.mask);
    WriteFacts(s.mem, g.addr, g.bytes);
    RelocatedFacts(s, n, g);
    assert Interval(s.objectBase, s.nextFree) <= s.mem.Keys;
    assert Interval(base, base + s.nextFree - s.objectBase) <= Interval(g.addr, g.addr + |g.bytes|);
  }

  /** `struct obstack`. */
  class Obstack {
    const heap: Heap
    var chunk: Chunk
    var objectBase: int
    var nextFree: int
    var chunkLimit: int
    var temp: int
    var alignmentMask: int
    var maybeEmptyObject: bool

    ghost function View(): State
      reads this, heap
    {
      State(chunk, objectBase, nextFree, chunkLimit, alignmentMask, maybeEmptyObject, heap.mem)
    }

    /** `_obstack_begin`. */
    constructor Begin(heap: Heap, mask: int, g: Grant)
      requires BeginOk(heap.mem, mask, g)
      modifies heap
      ensures this.heap == heap
      ensures View() == ObstackModel.Begin(old(heap.mem), mask, g)
    {
      this.heap := heap;
      chunk := Chunk(g.addr, g.addr + |g.bytes|, Null);
      objectBase := FirstObject(g.addr, mask);
      nextFree := FirstObject(g.addr, mask);
      chunkLimit := g.addr + |g.bytes|;
      alignmentMask := mask;
      maybeEmptyObject := false;
      temp := 0;
      new;
      heap.Chunkfun(g);
    }

    // ----- the out-of-line functions -----

    /** `_obstack_newchunk`: allocate a chunk, copy the partly built object to its start, and give the
        old chunk back if the object was the only thing in it. */
    method NewChunk(n: nat, g: Grant)
      requires Sound(View()) && GrantOk(View(), n, g)
      modifies this, heap
      ensures View() == ObstackModel.NewChunk(old(View()), n, g)
      ensures temp == old(temp)
    {
      var oldChunk := chunk;
      var size := nextFree - objectBase;
      ghost var s := View();
      BeforeCopy(s, n, g);
      heap.Chunkfun(g);
      var base := FirstObject(g.addr, alignmentMask);
      heap.Memcpy(base, objectBase, size);
      assert heap.mem == Relocated(s, g);
      var prev := oldChunk;
      if !maybeEmptyObject && objectBase == Start(oldChunk, alignmentMask) {
        prev := oldChunk.prev;
        heap.Freefun(oldChunk);
      }
      chunk := Chunk(g.addr, g.addr + |g.bytes|, prev);
      chunkLimit := chunk.limit;
      objectBase := base;
      nextFree := base + size;
      maybeEmptyObject := false;
    }

    /** `__obstack_free`: walk down the chain, giving back each chunk that `x` does not belong to. */
    method OutOfLineFree(x: int)
      requires Sound(View())
      modifies this, heap
      ensures View() == Unwind(old(View()), x)
      ensures temp == old(temp)
    {
      ghost var s := View();
      FindFacts(chunk, x, alignmentMask);
      var lp := chunk;
      while lp.Chunk? && (lp.addr >= x || lp.limit < x)
        invariant Chain(lp, s.mask) && Footprint(lp) <= Footprint(s.chunk)
        invariant Find(lp, x) == Find(s.chunk, x)
        invariant lp == s.chunk || lp < s.chunk
        invariant maybeEmptyObject == (s.maybeEmpty || lp != s.chunk)
        invariant heap.mem == s.mem - (Footprint(s.chunk) - Footprint(lp))
        invariant View() == s.(mem := heap.mem, maybeEmpty := maybeEmptyObject) && temp == old(temp)
        decreases lp
      {
        var plp := lp.prev;
        assert Block(lp) <= heap.mem.Keys;
        heap.Freefun(lp);
        lp := plp;
        maybeEmptyObject := true;
      }
      chunk := lp;
      if lp.Chunk? {
        objectBase, nextFree := x, x;
        chunkLimit := lp.limit;
      }
    }

    // ----- macros common to both sets -----

    /** `obstack_1grow_fast` */
    method Grow1Fast(datum: byte)
      requires Sound(View()) && nextFree + 1 <= chunkLimit
      modifies this, heap
      ensures View() == Append(old(View()), [datum]) && temp == old(temp)
    {
      InRoom(View(), 1);
      heap.Store(nextFree, datum);
      nextFree := nextFree + 1;
    }

    /** The room test written as a sum: `next_free + n > chunk_limit`. */
    method RoomBySum(n: nat, g: Grant)
      requires Sound(View()) && RoomOk(View(), n, g)
      modifies this, heap
      ensures View() == MakeRoom(old(View()), n, g) && temp == old(temp)
    {
      if nextFree + n > chunkLimit {
        NewChunk(n, g);
      }
    }

    /** The room test written as a difference: `chunk_limit - next_free < n`. */
    method RoomByDifference(n: nat, g: Grant)
      requires Sound(View()) && RoomOk(View(), n, g)
      modifies this, heap
      ensures View() == MakeRoom(old(View()), n, g) && temp == old(temp)
    {
      if chunkLimit - nextFree < n {
        NewChunk(n, g);
      }
    }

    /** `memcpy` to `next_free` and advance, as every copying macro does. */
    method CopyIn(where: int, length: nat)
      requires Sound(View()) && nextFree + length <= chunkLimit
      requires Mapped(heap.mem, where, length)
      requires Interval(where, where + length) !! Interval(nextFree, nextFree + length)
      modifies this, heap
      ensures View() == Append(old(View()), Read(old(heap.mem), where, length)) && temp == old(temp)
    {
      InRoom(View(), length);
      heap.Memcpy(nextFree, where, length);
      nextFree := nextFree + length;
    }

    /** The same, then a terminating null. */
    method CopyIn0(where: int, length: nat)
      requires Sound(View()) && nextFree + length + 1 <= chunkLimit
      requires Mapped(heap.mem, where, length)
      requires Interval(where, where + length) !! Interval(nextFree, nextFree + length)
      modifies this, heap
      ensures View() == Append(Append(old(View()), Read(old(heap.mem), where, length)), [0])
    {
      CopyIn(where, length);
      Grow1Fast(0);
    }

    /** `obstack_blank_fast` */
    method BlankFast(n: nat)
      requires Sound(View()) && nextFree + n <= chunkLimit
      modifies this
      ensures View() == Skip(old(View()), n) && temp == old(temp)
    {
      nextFree := nextFree + n;
    }

    /** `obstack_empty_p`, the same in both sets. */
    method IsEmpty() returns (b: bool)
      requires Sound(View())
      ensures b == EmptyP(View())
    {
      b := chunk.prev == Null && nextFree == PtrAlign(chunk.addr, chunk.addr + HEADER, alignmentMask);
    }

    // ----- the GNU C macros: arguments are evaluated once, into locals -----

    method GnuMakeRoom(length: nat, g: Grant)
      requires Sound(View()) && CallOk(View(), OpMakeRoom(length), g)
      modifies this, heap
      ensures View() == Exec(old(View()), OpMakeRoom(length), g)
    {
      RoomByDifference(length, g);
      EmptyAppend(View());
    }

    method GnuGrow(where: int, length: nat, g: Grant)
      requires Sound(View()) && CallOk(View(), OpGrow(where, length), g)
      modifies this, heap
      ensures View() == Exec(old(View()), OpGrow(where, length), g)
    {
      ghost var r := MakeRoom(View(), length, g);
      CopyCall(View(), OpGrow(where, length), g);
      RoomBySum(length, g);
      assert View() == r;
      CopyIn(where, length);
    }

    method GnuGrow0(where: int, length: nat, g: Grant)
      requires Sound(View()) && CallOk(View(), OpGrow0(where, length), g)
      modifies this, heap
      ensures View() == Exec(old(View()), OpGrow0(where, length), g)
    {
      ghost var r := MakeRoom(View(), length + 1, g);
      CopyCall(View(), OpGrow0(where, length), g);
      RoomBySum(length + 1, g);
      assert View() == r;
      CopyIn0(where, length);
    }

    method Gnu1Grow(datum: byte, g: Grant)
      requires Sound(View()) && CallOk(View(), OpGrow1(datum), g)
      modifies this, heap
      ensures View() == Exec(old(View()), OpGrow1(datum), g)
    {
      RoomBySum(1, g);
      Grow1Fast(datum);
    }

    /** `obstack_ptr_grow_fast`: store, then advance. */
    method GnuPtrGrowFast(p: nat)
      requires Sound(View()) && nextFree + POINTER_SIZE <= chunkLimit
      modifies this, heap
      ensures View() == Append(old(View()), Encode(p, POINTER_SIZE))
    {
      InRoom(View(), POINTER_SIZE);
      var p1 := nextFree;
      heap.StoreWord(p1, Encode(p, POINTER_SIZE));
      nextFree := nextFree + POINTER_SIZE;
    }

    /** `obstack_int_grow_fast`: store, then advance. */
    method GnuIntGrowFast(k: int)
      requires Sound(View()) && nextFree + INT_SIZE <= chunkLimit
      modifies this, heap
      ensures View() == Append(old(View()), EncodeInt(k))
    {
      InRoom(View(), INT_SIZE);
      var p1 := nextFree;
      heap.StoreWord(p1, EncodeInt(k));
      nextFree := nextFree + INT_SIZE;
    }

    method GnuPtrGrow(p: nat, g: Grant)
      requires Sound(View()) && CallOk(View(), OpPtrGrow(p), g)
      modifies this, heap
      ensures View() == Exec(old(View()), OpPtrGrow(p), g)
    {
      RoomBySum(POINTER_SIZE, g);
      GnuPtrGrowFast(p);
    }

    method GnuIntGrow(k: int, g: Grant)
      requires Sound(View()) && CallOk(View(), OpIntGrow(k), g)
      modifies this, heap
      ensures View() == Exec(old(View()), OpIntGrow(k), g)
    {
      RoomBySum(INT_SIZE, g);
      GnuIntGrowFast(k);
    }

    method GnuBlank(length: nat, g: Grant)
      requires Sound(View()) && CallOk(View(), OpBlank(length), g)
      modifies this, heap
      ensures View() == Exec(old(View()), OpBlank(length), g)
    {
      RoomByDifference(length, g);
      BlankFast(length);
    }

    method GnuFinish() returns (value: int)
      requires Sound(View())
      modifies this
      ensures View() == Finish(old(View())) && value == old(objectBase)
    {
      value := objectBase;
      if nextFree == value {
        maybeEmptyObject := true;
      }
      nextFree := PtrAlign(objectBase, nextFree, alignmentMask);
      if nextFree - chunk.addr > chunkLimit - chunk.addr {
        nextFree := chunkLimit;
      }
      objectBase := nextFree;
    }

    method GnuAlloc(length: nat, g: Grant) returns (value: int)
      requires Sound(View()) && CallOk(View(), OpAlloc(length), g)
      modifies this, heap
      ensures View() == Exec(old(View()), OpAlloc(length), g)
      ensures value == Grown(old(View()), OpAlloc(length), g).objectBase
    {
      GnuBlank(length, g);
      value := GnuFinish();
    }

    method GnuCopy(where: int, length: nat, g: Grant) returns (value: int)
      requires Sound(View()) && CallOk(View(), OpCopy(where, length), g)
      modifies this, heap
      ensures View() == Exec(old(View()), OpCopy(where, length), g)
      ensures value == Grown(old(View()), OpCopy(where, length), g).objectBase
    {
      GnuGrow(where, length, g);
      value := GnuFinish();
    }

    method GnuCopy0(where: int, length: nat, g: Grant) returns (value: int)
      requires Sound(View()) && CallOk(View(), OpCopy0(where, length), g)
      modifies this, heap
      ensures View() == Exec(old(View()), OpCopy0(where, length), g)
      ensures value == Grown(old(View()), OpCopy0(where, length), g).objectBase
    {
      GnuGrow0(where, length, g);
      value := GnuFinish();
    }

    method GnuFree(obj: int)
      requires Sound(View())
      modifies this, heap
      ensures View() == Free(old(View()), obj)
    {
      if obj > chunk.addr && obj < chunkLimit {
        objectBase := obj;
        nextFree := obj;
      } else {
        OutOfLineFree(obj);
      }
    }

    // ----- the portable macros: one expression each, with `temp` holding the argument -----

    /** The argument goes to `temp`, then comes the room test, for `extra` bytes besides. */
    method TempRoom(length: nat, extra: nat, g: Grant)
      requires Sound(View()) && RoomOk(View(), length + extra, g)
      modifies this, heap
      ensures View() == MakeRoom(old(View()), length + extra, g) && temp == length
    {
      temp := length;
      RoomBySum(temp + extra, g);
    }

    method PortableMakeRoom(length: nat, g: Grant)
      requires Sound(View()) && CallOk(View(), OpMakeRoom(length), g)
      modifies this, heap
      ensures View() == Exec(old(View()), OpMakeRoom(length), g)
    {
      TempRoom(length, 0, g);
      EmptyAppend(View());
    }

    method PortableGrow(where: int, length: nat, g: Grant)
      requires Sound(View()) && CallOk(View(), OpGrow(where, length), g)
      modifies this, heap
      ensures View() == Exec(old(View()), OpGrow(where, length), g)
    {
      ghost var r := MakeRoom(View(), length, g);
      CopyCall(View(), OpGrow(where, length), g);
      TempRoom(length, 0, g);
      assert View() == r;
      CopyIn(where, temp);
    }

    method PortableGrow0(where: int, length: nat, g: Grant)
      requires Sound(View()) && CallOk(View(), OpGrow0(where, length), g)
      modifies this, heap
      ensures View() == Exec(old(View()), OpGrow0(where, length), g)
    {
      ghost var r := MakeRoom(View(), length + 1, g);
      CopyCall(View(), OpGrow0(where, length), g);
      TempRoom(length, 1, g);
      assert View() == r;
      CopyIn0(where, temp);
    }

    method Portable1Grow(datum: byte, g: Grant)
      requires Sound(View()) && CallOk(View(), OpGrow1(datum), g)
      modifies this, heap
      ensures View() == Exec(old(View()), OpGrow1(datum), g)
    {
      RoomBySum(1, g);
      Grow1Fast(datum);
    }

    /** `obstack_ptr_grow_fast`: advance, then store behind. */
    method PortablePtrGrowFast(p: nat)
      requires Sound(View()) && nextFree + POINTER_SIZE <= chunkLimit
      modifies this, heap
      ensures View() == Append(old(View()), Encode(p, POINTER_SIZE))
    {
      InRoom(View(), POINTER_SIZE);
      nextFree := nextFree + POINTER_SIZE;
      heap.StoreWord(nextFree - POINTER_SIZE, Encode(p, POINTER_SIZE));
    }

    /** `obstack_int_grow_fast`: advance, then store behind. */
    method PortableIntGrowFast(k: int)
      requires Sound(View()) && nextFree + INT_SIZE <= chunkLimit
      modifies this, heap
      ensures View() == Append(old(View()), EncodeInt(k))
    {
      InRoom(View(), INT_SIZE);
      nextFree := nextFree + INT_SIZE;
      heap.StoreWord(nextFree - INT_SIZE, EncodeInt(k));
    }

    method PortablePtrGrow(p: nat, g: Grant)
      requires Sound(View()) && CallOk(View(), OpPtrGrow(p), g)
      modifies this, heap
      ensures View() == Exec(old(View()), OpPtrGrow(p), g)
    {
      RoomBySum(POINTER_SIZE, g);
      PortablePtrGrowFast(p);
    }

    method PortableIntGrow(k: int, g: Grant)
      requires Sound(View()) && CallOk(View(), OpIntGrow(k), g)
      modifies this, heap
      ensures View() == Exec(old(View()), OpIntGrow(k), g)
    {
      RoomBySum(INT_SIZE, g);
      PortableIntGrowFast(k);
    }

    method PortableBlank(length: nat, g: Grant)
      requires Sound(View()) && CallOk(View(), OpBlank(length), g)
      modifies this, heap
      ensures View() == Exec(old(View()), OpBlank(length), g)
    {
      temp := length;
      RoomByDifference(temp, g);
      BlankFast(temp);
    }

    method PortableFinish() returns (value: int)
      requires Sound(View())
      modifies this
      ensures View() == Finish(old(View())) && value == old(objectBase)
    {
      if nextFree == objectBase {
        maybeEmptyObject := true;
      }
      temp := objectBase;
      nextFree := PtrAlign(objectBase, nextFree, alignmentMask);
      if nextFree - chunk.addr > chunkLimit - chunk.addr {
        nextFree := chunkLimit;
      }
      objectBase := nextFree;
      value := temp;
    }

    method PortableAlloc(length: nat, g: Grant) returns (value: int)
      requires Sound(View()) && CallOk(View(), OpAlloc(length), g)
      modifies this, heap
      ensures View() == Exec(old(View()), OpAlloc(length), g)
      ensures value == Grown(old(View()), OpAlloc(length), g).objectBase
    {
      PortableBlank(length, g);
      value := PortableFinish();
    }

    method PortableCopy(where: int, length: nat, g: Grant) returns (value: int)
      requires Sound(View()) && CallOk(View(), OpCopy(where, length), g)
      modifies this, heap
      ensures View() == Exec(old(View()), OpCopy(where, length), g)
      ensures value == Grown(old(View()), OpCopy(where, length), g).objectBase
    {
      PortableGrow(where, length, g);
      value := PortableFinish();
    }

    method PortableCopy0(where: int, length: nat, g: Grant) returns (value: int)
      requires Sound(View()) && CallOk(View(), OpCopy0(where, length), g)
      modifies this, heap
      ensures View() == Exec(old(View()), OpCopy0(where, length), g)
      ensures value == Grown(old(View()), OpCopy0(where, length), g).objectBase
    {
      PortableGrow0(where, length, g);
      value := PortableFinish();
    }

    method PortableFree(obj: int)
      requires Sound(View())
      modifies this, heap
      ensures View() == Free(old(View()), obj)
    {
      temp := obj - chunk.addr;
      if temp > 0 && temp < chunkLimit - chunk.addr {
        objectBase := temp + chunk.addr;
        nextFree := objectBase;
      } else {
        OutOfLineFree(temp + chunk.addr);
      }
    }

    // ----- either set, by call -----

    /** Any one call of the GNU C set; `value` is what a finishing call returns. */
    method GnuCall(op: Op, g: Grant) returns (value: int)
      requires Sound(View()) && CallOk(View(), op, g)
      modifies this, heap
      ensures View() == Exec(old(View()), op, g)
      ensures value == Returned(old(View()), op, g)
    {
      value := 0;
      match op
      case OpMakeRoom(n) => GnuMakeRoom(n, g);
      case OpGrow(src, n) => GnuGrow(src, n, g);
      case OpGrow0(src, n) => GnuGrow0(src, n, g);
      case OpGrow1(datum) => Gnu1Grow(datum, g);
      case OpPtrGrow(p) => GnuPtrGrow(p, g);
      case OpIntGrow(k) => GnuIntGrow(k, g);
      case OpBlank(n) => GnuBlank(n, g);
      case OpFinish =>
        EmptyAppend(View());
        value := GnuFinish();
      case OpAlloc(n) => value := GnuAlloc(n, g);
      case OpCopy(src, n) => value := GnuCopy(src, n, g);
      case OpCopy0(src, n) => value := GnuCopy0(src, n, g);
      case OpFree(x) => GnuFree(x);
    }

    /** Any one call of the portable set; `value` is what a finishing call returns. */
    method PortableCall(op: Op, g: Grant) returns (value: int)
      requires Sound(View()) && CallOk(View(), op, g)
      modifies this, heap
      ensures View() == Exec(old(View()), op, g)
      ensures value == Returned(old(View()), op, g)
    {
      value := 0;
      match op
      case OpMakeRoom(n) => PortableMakeRoom(n, g);
      case OpGrow(src, n) => PortableGrow(src, n, g);
      case OpGrow0(src, n) => PortableGrow0(src, n, g);
      case OpGrow1(datum) => Portable1Grow(datum, g);
      case OpPtrGrow(p) => PortablePtrGrow(p, g);
      case OpIntGrow(k) => PortableIntGrow(k, g);
      case OpBlank(n) => PortableBlank(n, g);
      case OpFinish =>
        EmptyAppend(View());
        value := PortableFinish();
      case OpAlloc(n) => value := PortableAlloc(n, g);
      case OpCopy(src, n) => value := PortableCopy(src, n, g);
      case OpCopy0(src, n) => value := PortableCopy0(src, n, g);
      case OpFree(x) => PortableFree(x);
    }
  }

  /** A copying call, once room has been made. */
  lemma CopyCall(s: State, op: Op, g: Grant)
    requires Sound(s) && CallOk(s, op, g) && Copies(op)
    ensures var r := MakeRoom(s, Need(op), g);
            && r.nextFree + Need(op) <= r.chunkLimit
            && Mapped(r.mem, op.src, op.n)
            && Interval(op.src, op.src + op.n) !! Interval(r.nextFree, r.nextFree + op.n)
            && var data := Read(r.mem, op.src, op.n);
            && Grown(s, op, g) == if Terminates(op) then Append(Append(r, data), [0]) else Append(r, data)
  {
  }

  lemma EmptyAppend(s: State)
    requires Sound(s)
    ensures Append(s, []) == s
  {
    assert Write(s.mem, s.nextFree, []) == s.mem;
  }

  /** The calls of a list are each allowed in the state the ones before them leave. */
  ghost predicate CallsOk(s: State, calls: seq<(Op, Grant)>)
    decreases |calls|
  {
    calls == [] ||
    (Sound(s) && CallOk(s, calls[0].0, calls[0].1) && CallsOk(Exec(s, calls[0].0, calls[0].1), calls[1..]))
  }

  /** The two macro sets simulate each other: from equal states over separate heaps, the same calls
      leave equal states and return the same addresses, whatever `temp` holds. */
  method Simulate(a: Obstack, b: Obstack, calls: seq<(Op, Grant)>) returns (fromGnu: seq<int>, fromPortable: seq<int>)
    requires a != b && a.heap != b.heap
    requires a.View() == b.View() && CallsOk(a.View(), calls)
    modifies a, a.heap, b, b.heap
    ensures a.View() == b.View()
    ensures fromGnu == fromPortable && |fromGnu| == |calls|
  {
    fromGnu, fromPortable := [], [];
    var i := 0;
    while i < |calls|
      invariant 0 <= i <= |calls|
      invariant a.View() == b.View() && CallsOk(a.View(), calls[i..])
      invariant fromGnu == fromPortable && |fromGnu| == i
    {
      var (op, g) := calls[i];
      var x := a.GnuCall(op, g);
      var y := b.PortableCall(op, g);
      fromGnu, fromPortable := fromGnu + [x], fromPortable + [y];
      assert calls[i..][1..] == calls[i + 1..];
      i := i + 1;
    }
  }

  lemma InRoom(s: State, n: nat)
    requires Sound(s) && s.nextFree + n <= s.chunkLimit
    ensures Mapped(s.mem, s.nextFree, n)
  {
    PtrAlignFacts(s.chunk.addr, s.chunk.addr + HEADER, s.mask);
    GrowingMapped(s);
  }
}
