/** What each obstack operation keeps. */
module ObstackProofs {
  import opened Align
  import opened ObstackModel

  // ----- chunks and ownership -----

  lemma {:induction false} FindFacts(c: Chunk, x: int, mask: int)
    requires Chain(c, mask)
    ensures var f := Find(c, x);
            && Chain(f, mask)
            && Footprint(f) <= Footprint(c)
            && (f.Chunk? <==> x - 1 in Footprint(c))
            && (f.Chunk? ==> Owns(f, x))
  {
    if c.Null? {
    } else {
      FindFacts(c.prev, x, mask);
    }
  }

  /** An address belongs to one chunk only: a newer chunk does not own what an older one does. */
  lemma OwnedOnce(c: Chunk, x: int, mask: int)
    requires c.Chunk? && Chain(c, mask) && Find(c.prev, x).Chunk?
    ensures !Owns(c, x) && Find(c, x) == Find(c.prev, x)
  {
    FindFacts(c.prev, x, mask);
    assert x - 1 in Footprint(c.prev);
    assert x - 1 !in Block(c);
  }

  // ----- the layout of the live objects -----

  /** Addresses in use below `top`: the lower part of the first chunk and all older chunks. */
  ghost function Below(c: Chunk, top: int): set<int>
    requires c.Chunk?
  {
    Interval(c.addr, top) + Footprint(c.prev)
  }

  ghost predicate Agree(mem: Memory, mem': Memory, region: set<int>) {
    forall x :: x in region && x in mem ==> x in mem' && mem'[x] == mem[x]
  }

  /** The layout depends only on memory below `top`, and `top` may rise. */
  lemma {:induction false} LaidFrame(c: Chunk, top: int, top': int, mask: int, objs: seq<Object>, mem: Memory,
                                     mem': Memory)
    requires c.Chunk? && Laid(c, top, mask, objs, mem)
    requires top <= top' <= c.limit
    requires Agree(mem, mem', Below(c, top))
    ensures Laid(c, top', mask, objs, mem')
    decreases c, |objs|
  {
    if objs != [] && Owns(c, Last(objs).addr) {
      var o := Last(objs);
      assert Interval(c.addr, o.addr) <= Interval(c.addr, top);
      forall x | o.addr <= x < o.addr + |o.bytes|
        ensures x in mem' && mem'[x] == o.bytes[x - o.addr]
      {
        assert x in Below(c, top);
      }
      LaidFrame(c, o.addr, o.addr, mask, Init(objs), mem, mem');
    } else if c.prev.Chunk? {
      assert Below(c.prev, Top(c.prev)) == Footprint(c.prev);
      LaidFrame(c.prev, Top(c.prev), Top(c.prev), mask, objs, mem, mem');
    }
  }

  /** Every live object lies within the one chunk that owns it. */
  lemma {:induction false} LaidObject(c: Chunk, top: int, mask: int, objs: seq<Object>, mem: Memory, i: nat)
    requires c.Chunk? && Chain(c, mask) && Laid(c, top, mask, objs, mem) && i < |objs|
    ensures var o := objs[i];
            var f := Find(c, o.addr);
            && f.Chunk?
            && Owns(f, o.addr)
            && Start(f, mask) <= o.addr
            && o.addr + |o.bytes| <= (if f == c then top else f.limit)
            && (Clear(o.addr, mask) || o.addr == f.limit)
            && Holds(mem, o.addr, o.bytes)
    decreases c, |objs|
  {
    var o := Last(objs);
    if Owns(c, o.addr) {
      if i < |objs| - 1 {
        LaidObject(c, o.addr, mask, Init(objs), mem, i);
      }
    } else {
      LaidObject(c.prev, Top(c.prev), mask, objs, mem, i);
      OwnedOnce(c, objs[i].addr, mask);
    }
  }

  /** Cutting the live objects back to those before the `i`th leaves a layout in which the chunk
      that owned it is current and its address is the top. */
  lemma {:induction false} LaidCut(c: Chunk, top: int, mask: int, objs: seq<Object>, mem: Memory, i: nat)
    requires c.Chunk? && Chain(c, mask) && Laid(c, top, mask, objs, mem) && i < |objs|
    ensures var f := Find(c, objs[i].addr);
            f.Chunk? && Laid(f, objs[i].addr, mask, objs[..i], mem)
    decreases c, |objs|
  {
    var o := Last(objs);
    if Owns(c, o.addr) {
      if i < |objs| - 1 {
        LaidCut(c, o.addr, mask, Init(objs), mem, i);
        assert Init(objs)[..i] == objs[..i];
      } else {
        assert objs[..i] == Init(objs);
      }
    } else {
      LaidCut(c.prev, Top(c.prev), mask, objs, mem, i);
      OwnedOnce(c, objs[i].addr, mask);
    }
  }

  /** Owners of live objects never get newer going down the stack. */
  lemma {:induction false} OwnerOrder(c: Chunk, top: int, mask: int, objs: seq<Object>, mem: Memory, i: nat, j: nat)
    requires c.Chunk? && Chain(c, mask) && Laid(c, top, mask, objs, mem) && i < j < |objs|
    ensures Find(c, objs[i].addr) == Find(Find(c, objs[j].addr), objs[i].addr)
    decreases c, |objs|
  {
    var o := Last(objs);
    if Owns(c, objs[j].addr) {
    } else if Owns(c, o.addr) {
      if j < |objs| - 1 {
        OwnerOrder(c, o.addr, mask, Init(objs), mem, i, j);
      }
    } else {
      OwnerOrder(c.prev, Top(c.prev), mask, objs, mem, i, j);
      LaidObject(c.prev, Top(c.prev), mask, objs, mem, i);
      LaidObject(c.prev, Top(c.prev), mask, objs, mem, j);
      OwnedOnce(c, objs[i].addr, mask);
      OwnedOnce(c, objs[j].addr, mask);
    }
  }

  // ----- _obstack_newchunk -----

  /** With the flag clear and the growing object at the start of the contents, the chunk holds no live
      object, not even a zero-length one. */
  lemma ReplacedHoldsNothing(s: State, objs: seq<Object>, growing: seq<byte>, i: nat)
    requires Represents(s, objs, growing) && i < |objs|
    requires !s.maybeEmpty && s.objectBase == PtrAlign(s.chunk.addr, s.chunk.addr + HEADER, s.mask)
    ensures !Owns(s.chunk, objs[i].addr) && Find(s.chunk, objs[i].addr) == Find(s.chunk.prev, objs[i].addr)
  {
    LaidObject(s.chunk, s.objectBase, s.mask, objs, s.mem, i);
  }

  lemma ReplacedLayout(s: State, objs: seq<Object>, growing: seq<byte>)
    requires Represents(s, objs, growing) && Replaces(s)
    ensures Laid(s.chunk.prev, Top(s.chunk.prev), s.mask, objs, s.mem)
  {
    if objs != [] {
      ReplacedHoldsNothing(s, objs, growing, |objs| - 1);
    }
  }

  lemma WriteFacts(mem: Memory, a: int, data: seq<byte>)
    ensures Write(mem, a, data).Keys == mem.Keys + Interval(a, a + |data|)
    ensures forall x :: x in mem && x !in Interval(a, a + |data|) ==> Write(mem, a, data)[x] == mem[x]
    ensures Holds(Write(mem, a, data), a, data)
  {
  }

  /** Mapping and filling the new block leaves every other byte alone. */
  lemma RelocatedFacts(s: State, n: nat, g: Grant)
    requires Sound(s) && GrantOk(s, n, g)
    ensures var mem := Relocated(s, g);
            && mem.Keys == s.mem.Keys + Interval(g.addr, g.addr + |g.bytes|)
            && s.mem.Keys !! Interval(g.addr, g.addr + |g.bytes|)
            && (forall x :: x in s.mem ==> mem[x] == s.mem[x])
            && Holds(mem, FirstObject(g.addr, s.mask), Growing(s))
  {
    var base := FirstObject(g.addr, s.mask);
    var mem0 := Write(s.mem, g.addr, g.bytes);
    PtrAlignFacts(g.addr, g.addr + HEADER, s.mask);
    WriteFacts(s.mem, g.addr, g.bytes);
    WriteFacts(mem0, base, Growing(s));
    assert Interval(base, base + |Growing(s)|) <= Interval(g.addr, g.addr + |g.bytes|);
  }

  lemma NewChunkGrowing(s: State, n: nat, g: Grant)
    requires Sound(s) && GrantOk(s, n, g)
    ensures Growing(NewChunk(s, n, g)) == Growing(s)
  {
    var r := NewChunk(s, n, g);
    RelocatedFacts(s, n, g);
    PtrAlignFacts(g.addr, g.addr + HEADER, s.mask);
    GrowingMapped(r);
    var base := FirstObject(g.addr, s.mask);
    forall i | 0 <= i < |Growing(s)|
      ensures Growing(r)[i] == Growing(s)[i]
    {
      assert base + i in Block(r.chunk);
      assert base + i !in s.mem;
    }
  }

  lemma NewChunkOutside(s: State, n: nat, g: Grant)
    requires Sound(s) && GrantOk(s, n, g)
    ensures Outside(NewChunk(s, n, g)) == Outside(s)
  {
    RelocatedFacts(s, n, g);
  }

  lemma NewChunkAgree(s: State, n: nat, g: Grant)
    requires Sound(s) && GrantOk(s, n, g)
    ensures var r := NewChunk(s, n, g);
            Agree(s.mem, r.mem, Footprint(r.chunk.prev)) && Footprint(r.chunk.prev) <= s.mem.Keys
  {
    RelocatedFacts(s, n, g);
  }

  /** `_obstack_newchunk` moves the growing object and nothing else. */
  lemma NewChunkKeeps(s: State, n: nat, g: Grant, objs: seq<Object>, growing: seq<byte>)
    requires Represents(s, objs, growing) && GrantOk(s, n, g)
    ensures Represents(NewChunk(s, n, g), objs, growing)
    ensures forall i :: 0 <= i < |objs| ==> Find(NewChunk(s, n, g).chunk, objs[i].addr) == Find(s.chunk, objs[i].addr)
  {
    var r := NewChunk(s, n, g);
    NewChunkGrowing(s, n, g);
    NewChunkAgree(s, n, g);
    forall i | 0 <= i < |objs|
      ensures !Owns(r.chunk, objs[i].addr)
      ensures Find(r.chunk, objs[i].addr) == Find(s.chunk, objs[i].addr)
    {
      LaidObject(s.chunk, s.objectBase, s.mask, objs, s.mem, i);
      FindFacts(s.chunk, objs[i].addr, s.mask);
      assert objs[i].addr - 1 in s.mem;
      assert objs[i].addr - 1 !in Block(r.chunk);
      if Replaces(s) {
        ReplacedHoldsNothing(s, objs, growing, i);
      }
    }
    forall i | 0 <= i < |objs|
      ensures Placed(r.chunk, s.mask, objs, i)
    {
      assert Placed(s.chunk, s.mask, objs, i);
    }
    var rest := r.chunk.prev;
    if Replaces(s) {
      ReplacedLayout(s, objs, growing);
      if rest.Chunk? {
        assert Below(rest, Top(rest)) == Footprint(rest);
        LaidFrame(rest, Top(rest), Top(rest), s.mask, objs, s.mem, r.mem);
      }
    } else {
      assert Interval(rest.addr, s.objectBase) <= Block(rest);
      LaidFrame(rest, s.objectBase, Top(rest), s.mask, objs, s.mem, r.mem);
    }
  }

  // ----- the other steps -----

  /** Making room moves at most the growing object, and only into fresh memory. */
  lemma MakeRoomKeeps(s: State, n: nat, g: Grant, objs: seq<Object>, growing: seq<byte>)
    requires Represents(s, objs, growing) && RoomOk(s, n, g)
    ensures Represents(MakeRoom(s, n, g), objs, growing)
    ensures Outside(MakeRoom(s, n, g)) == Outside(s)
    ensures forall i :: 0 <= i < |objs| ==> Find(MakeRoom(s, n, g).chunk, objs[i].addr) == Find(s.chunk, objs[i].addr)
  {
    if s.nextFree + n > s.chunkLimit {
      NewChunkKeeps(s, n, g, objs, growing);
      NewChunkOutside(s, n, g);
    }
  }

  /** A byte that was mapped before room was made and still is has not changed. */
  lemma MakeRoomReads(s: State, n: nat, g: Grant, a: int, len: nat)
    requires Sound(s) && RoomOk(s, n, g)
    requires Mapped(s.mem, a, len) && Mapped(MakeRoom(s, n, g).mem, a, len)
    ensures Read(MakeRoom(s, n, g).mem, a, len) == Read(s.mem, a, len)
  {
    if s.nextFree + n > s.chunkLimit {
      RelocatedFacts(s, n, g);
    }
  }

  lemma AppendKeeps(s: State, data: seq<byte>, objs: seq<Object>, growing: seq<byte>)
    requires Represents(s, objs, growing) && s.nextFree + |data| <= s.chunkLimit
    ensures Represents(Append(s, data), objs, growing + data)
    ensures Outside(Append(s, data)) == Outside(s)
  {
    var r := Append(s, data);
    PtrAlignFacts(s.chunk.addr, s.chunk.addr + HEADER, s.mask);
    GrowingMapped(s);
    GrowingMapped(r);
    assert Interval(s.nextFree, s.nextFree + |data|) <= Block(s.chunk);
    assert Below(s.chunk, s.objectBase) !! Interval(s.nextFree, s.nextFree + |data|);
    LaidFrame(s.chunk, s.objectBase, s.objectBase, s.mask, objs, s.mem, r.mem);
    assert Growing(r) == growing + data;
  }

  /** `obstack_blank_fast` adds whatever bytes are already there. */
  lemma SkipKeeps(s: State, n: nat, objs: seq<Object>, growing: seq<byte>)
    requires Represents(s, objs, growing) && s.nextFree + n <= s.chunkLimit
    ensures Mapped(s.mem, s.nextFree, n)
    ensures Represents(Skip(s, n), objs, growing + Read(s.mem, s.nextFree, n))
  {
    PtrAlignFacts(s.chunk.addr, s.chunk.addr + HEADER, s.mask);
    GrowingMapped(s);
    GrowingMapped(Skip(s, n));
    assert Growing(Skip(s, n)) == growing + Read(s.mem, s.nextFree, n);
  }

  lemma PlacedPrefix(c: Chunk, mask: int, objs: seq<Object>, objs': seq<Object>, i: nat)
    requires i < |objs| <= |objs'| && objs == objs'[..|objs|]
    ensures Placed(c, mask, objs, i) == Placed(c, mask, objs', i)
  {
    assert objs[..i] == objs'[..i];
  }

  lemma FinishPacked(s: State, objs: seq<Object>, growing: seq<byte>)
    requires Represents(s, objs, growing)
    ensures Packed(s.chunk, Finish(s).objectBase, s.mask, objs + [Object(s.objectBase, growing)])
  {
    var objs' := objs + [Object(s.objectBase, growing)];
    PtrAlignFacts(s.chunk.addr, s.chunk.addr + HEADER, s.mask);
    forall i | 0 <= i < |objs'|
      ensures Placed(s.chunk, s.mask, objs', i)
    {
      if i < |objs| {
        assert objs == objs'[..|objs|];
        PlacedPrefix(s.chunk, s.mask, objs, objs', i);
      } else {
        assert objs'[..i] == objs;
      }
    }
  }

  /** `obstack_finish` turns the growing object into the newest finished one, where it lies. */
  lemma FinishKeeps(s: State, objs: seq<Object>, growing: seq<byte>)
    requires Represents(s, objs, growing)
    ensures Represents(Finish(s), objs + [Object(s.objectBase, growing)], [])
  {
    var o := Object(s.objectBase, growing);
    var objs' := objs + [o];
    PtrAlignFacts(s.chunk.addr, s.chunk.addr + HEADER, s.mask);
    PtrAlignFacts(s.objectBase, s.nextFree, s.mask);
    GrowingMapped(s);
    FinishPacked(s, objs, growing);
    assert Init(objs') == objs && Last(objs') == o;
    assert Holds(s.mem, o.addr, o.bytes);
    assert Owns(s.chunk, o.addr);
  }

  lemma FreePacked(s: State, objs: seq<Object>, growing: seq<byte>, i: nat)
    requires Represents(s, objs, growing) && i < |objs|
    ensures var f := Find(s.chunk, objs[i].addr);
            f.Chunk? && Packed(f, objs[i].addr, s.mask, objs[..i])
  {
    var f := Find(s.chunk, objs[i].addr);
    assert Placed(s.chunk, s.mask, objs, i);
    forall j | 0 <= j < i
      ensures Placed(f, s.mask, objs[..i], j)
    {
      OwnerOrder(s.chunk, s.objectBase, s.mask, objs, s.mem, j, i);
      assert Placed(s.chunk, s.mask, objs, j);
      assert objs[..i][..j] == objs[..j];
    }
  }

  lemma FreeLaid(s: State, objs: seq<Object>, growing: seq<byte>, i: nat)
    requires Represents(s, objs, growing) && i < |objs|
    ensures var x := objs[i].addr;
            var r := Free(s, x);
            && Sound(r) && r.chunk == Find(s.chunk, x) && r.objectBase == r.nextFree == x
            && Laid(r.chunk, x, s.mask, objs[..i], r.mem)
  {
    var x := objs[i].addr;
    var r := Free(s, x);
    LaidObject(s.chunk, s.objectBase, s.mask, objs, s.mem, i);
    LaidCut(s.chunk, s.objectBase, s.mask, objs, s.mem, i);
    FindFacts(s.chunk, x, s.mask);
    var f := Find(s.chunk, x);
    assert Interval(f.addr, x) <= Block(f);
    LaidFrame(f, x, x, s.mask, objs[..i], s.mem, r.mem);
  }

  /** `obstack_free` of a live object, whichever object of that address is meant: the objects before
      it stay, and the growing object is empty and starts at its address. */
  lemma FreeKeeps(s: State, objs: seq<Object>, growing: seq<byte>, i: nat)
    requires Represents(s, objs, growing) && i < |objs|
    ensures var x := objs[i].addr;
            var r := Free(s, x);
            && Represents(r, objs[..i], [])
            && r.chunk == Find(s.chunk, x)
            && r.objectBase == r.nextFree == x
            && Outside(r) == Outside(s)
  {
    FreeLaid(s, objs, growing, i);
    FreePacked(s, objs, growing, i);
    FindFacts(s.chunk, objs[i].addr, s.mask);
  }

  // ----- the client filling its objects -----

  /** `mem'` is `mem` with `bytes` stored at `x`. */
  ghost predicate StoredAt(mem: Memory, mem': Memory, x: int, bytes: seq<byte>) {
    && Holds(mem', x, bytes)
    && forall a :: a in mem && a !in Interval(x, x + |bytes|) ==> a in mem' && mem'[a] == mem[a]
  }

  lemma WriteStores(mem: Memory, x: int, bytes: seq<byte>)
    ensures StoredAt(mem, Write(mem, x, bytes), x, bytes)
  {
  }

  /** A store at the top of the layout of the first chunk leaves what is below alone. */
  lemma StoreAbove(c: Chunk, x: int, mask: int, objs: seq<Object>, mem: Memory, mem': Memory, bytes: seq<byte>)
    requires c.Chunk? && Chain(c, mask) && Laid(c, x, mask, objs, mem)
    requires c.addr <= x && x + |bytes| <= c.limit && StoredAt(mem, mem', x, bytes)
    ensures Laid(c, x, mask, objs, mem')
  {
    assert Interval(x, x + |bytes|) <= Block(c);
    LaidFrame(c, x, x, mask, objs, mem, mem');
  }

  lemma {:induction false} LaidStore(c: Chunk, top: int, mask: int, objs: seq<Object>, mem: Memory, mem': Memory,
                                     i: nat, bytes: seq<byte>)
    requires c.Chunk? && Chain(c, mask) && Laid(c, top, mask, objs, mem)
    requires i < |objs| && |bytes| == |objs[i].bytes| && StoredAt(mem, mem', objs[i].addr, bytes)
    ensures Laid(c, top, mask, objs[i := Object(objs[i].addr, bytes)], mem')
    decreases c, |objs|
  {
    var o, x := Last(objs), objs[i].addr;
    var objs' := objs[i := Object(x, bytes)];
    if Owns(c, o.addr) {
      if i == |objs| - 1 {
        StoreAbove(c, x, mask, Init(objs), mem, mem', bytes);
        assert Init(objs') == Init(objs);
      } else {
        LaidStore(c, o.addr, mask, Init(objs), mem, mem', i, bytes);
        assert Init(objs') == Init(objs)[i := Object(x, bytes)];
        StoreMisses(c, o.addr, mask, Init(objs), mem, i, o.addr + |o.bytes|);
        assert Holds(mem', o.addr, o.bytes);
      }
    } else {
      LaidStore(c.prev, Top(c.prev), mask, objs, mem, mem', i, bytes);
      assert Last(objs').addr == o.addr;
    }
  }

  /** An object below `top` does not reach into the first chunk at or above it. */
  lemma StoreMisses(c: Chunk, top: int, mask: int, objs: seq<Object>, mem: Memory, i: nat, end: int)
    requires c.Chunk? && Chain(c, mask) && Laid(c, top, mask, objs, mem) && i < |objs|
    requires c.addr <= top && end <= c.limit
    ensures Interval(objs[i].addr, objs[i].addr + |objs[i].bytes|) !! Interval(top, end)
  {
    var o := objs[i];
    var f := Find(c, o.addr);
    LaidObject(c, top, mask, objs, mem, i);
    if f != c {
      forall x | x in Interval(o.addr, o.addr + |o.bytes|)
        ensures x !in Block(c)
      {
        FindSame(c, o.addr, x + 1, mask);
      }
      assert Interval(top, end) <= Block(c);
    }
  }

  /** Addresses owned by the chunk of `x` have the same owner. */
  lemma {:induction false} FindSame(c: Chunk, x: int, y: int, mask: int)
    requires Chain(c, mask) && Find(c, x).Chunk? && Owns(Find(c, x), y)
    ensures Find(c, y) == Find(c, x)
    ensures !Owns(c, x) ==> Find(c.prev, y).Chunk? && !Owns(c, y)
  {
    if Owns(c, x) {
    } else {
      FindSame(c.prev, x, y, mask);
      OwnedOnce(c, y, mask);
    }
  }

  lemma StorePacked(s: State, objs: seq<Object>, growing: seq<byte>, i: nat, bytes: seq<byte>)
    requires Represents(s, objs, growing) && i < |objs| && |bytes| == |objs[i].bytes|
    ensures Packed(s.chunk, s.objectBase, s.mask, objs[i := Object(objs[i].addr, bytes)])
  {
    var objs' := objs[i := Object(objs[i].addr, bytes)];
    forall j | 0 <= j < |objs|
      ensures Placed(s.chunk, s.mask, objs', j)
    {
      assert Placed(s.chunk, s.mask, objs, j);
      if j > 0 {
        assert Last(objs[..j]) == objs[j - 1] && Last(objs'[..j]) == objs'[j - 1];
      }
    }
  }

  /** A client that overwrites a live object changes that object only. */
  lemma FillKeeps(s: State, objs: seq<Object>, growing: seq<byte>, i: nat, bytes: seq<byte>)
    requires Represents(s, objs, growing) && i < |objs| && |bytes| == |objs[i].bytes|
    ensures Represents(s.(mem := Write(s.mem, objs[i].addr, bytes)), objs[i := Object(objs[i].addr, bytes)], growing)
  {
    var s' := s.(mem := Write(s.mem, objs[i].addr, bytes));
    WriteFacts(s.mem, objs[i].addr, bytes);
    WriteStores(s.mem, objs[i].addr, bytes);
    LaidStore(s.chunk, s.objectBase, s.mask, objs, s.mem, s'.mem, i, bytes);
    StorePacked(s, objs, growing, i, bytes);
    PtrAlignFacts(s.chunk.addr, s.chunk.addr + HEADER, s.mask);
    StoreMisses(s.chunk, s.objectBase, s.mask, objs, s.mem, i, s.nextFree);
    assert Growing(s') == Growing(s);
  }

  /** So does one that overwrites the growing object. */
  lemma FillGrowingKeeps(s: State, objs: seq<Object>, growing: seq<byte>, bytes: seq<byte>)
    requires Represents(s, objs, growing) && |bytes| == |growing|
    ensures Represents(s.(mem := Write(s.mem, s.objectBase, bytes)), objs, bytes)
  {
    var s' := s.(mem := Write(s.mem, s.objectBase, bytes));
    WriteFacts(s.mem, s.objectBase, bytes);
    PtrAlignFacts(s.chunk.addr, s.chunk.addr + HEADER, s.mask);
    WriteStores(s.mem, s.objectBase, bytes);
    StoreAbove(s.chunk, s.objectBase, s.mask, objs, s.mem, s'.mem, bytes);
    assert Growing(s') == bytes;
  }

  /** Stores into live objects and the growing one do not touch the client's own memory. */
  lemma StoreOutside(s: State, a: int, bytes: seq<byte>)
    requires Interval(a, a + |bytes|) <= Footprint(s.chunk)
    ensures Outside(s.(mem := Write(s.mem, a, bytes))) == Outside(s)
  {
    WriteFacts(s.mem, a, bytes);
  }

  lemma GrowingInFootprint(s: State)
    requires Sound(s)
    ensures Interval(s.objectBase, s.nextFree) <= Footprint(s.chunk)
  {
    PtrAlignFacts(s.chunk.addr, s.chunk.addr + HEADER, s.mask);
    assert Interval(s.objectBase, s.nextFree) <= Block(s.chunk);
  }

  lemma ObjectInFootprint(s: State, objs: seq<Object>, growing: seq<byte>, i: nat)
    requires Represents(s, objs, growing) && i < |objs|
    ensures Interval(objs[i].addr, objs[i].addr + |objs[i].bytes|) <= Footprint(s.chunk)
  {
    var o := objs[i];
    LaidObject(s.chunk, s.objectBase, s.mask, objs, s.mem, i);
    FindFacts(s.chunk, o.addr, s.mask);
    assert Interval(o.addr, o.addr + |o.bytes|) <= Block(Find(s.chunk, o.addr));
  }
}
