/** Consequences of the obstack invariant, which every reachable configuration has. */
module ObstackTheorems {
  import opened Align
  import opened ObstackModel
  import opened ObstackProofs
  import opened ObstackRuns

  // ----- beginning -----

  /** A new obstack is empty, satisfies the invariant, and owns no more than its chunk. */
  lemma BeginRepresents(mem: Memory, mask: int, g: Grant)
    requires BeginOk(mem, mask, g)
    ensures Represents(Begin(mem, mask, g), [], [])
    ensures EmptyP(Begin(mem, mask, g))
    ensures Outside(Begin(mem, mask, g)) == mem
  {
    PtrAlignFacts(g.addr, g.addr + HEADER, mask);
    GrowingMapped(Begin(mem, mask, g));
  }

  /** A configuration some run of a new obstack ends in. */
  ghost predicate Reachable(cfg: Config) {
    exists mem, mask, g, run ::
      && BeginOk(mem, mask, g)
      && ReachedBy(cfg, Config(Begin(mem, mask, g), [], []), run)
  }

  ghost predicate ReachedBy(cfg: Config, start: Config, run: seq<Event>) {
    Inv(start) && ValidRun(start, run) && cfg == Run(start, run)
  }

  /** What follows is stated for every configuration with the invariant, so of every reachable one. */
  lemma ReachableInv(cfg: Config)
    requires Reachable(cfg)
    ensures Inv(cfg)
  {
  }

  // ----- where objects lie -----

  ghost predicate InChain(c: Chunk, d: Chunk) {
    c.Chunk? && d.Chunk? && (d == c || InChain(c.prev, d))
  }

  lemma {:induction false} OneOwner(c: Chunk, d: Chunk, x: int, mask: int)
    requires Chain(c, mask) && InChain(c, d) && Owns(d, x)
    ensures Find(c, x) == d
  {
    if d == c {
    } else {
      OneOwner(c.prev, d, x, mask);
      OwnedOnce(c, x, mask);
    }
  }

  ghost function Range(o: Object): set<int> {
    Interval(o.addr, o.addr + |o.bytes|)
  }

  ghost function GrowingRange(s: State): set<int> {
    Interval(s.objectBase, s.nextFree)
  }

  /** The pointers of the control block are in order. */
  lemma PointersInOrder(cfg: Config)
    requires Inv(cfg)
    ensures var s := cfg.s;
            && s.chunk.Chunk?
            && s.chunk.addr + HEADER <= s.objectBase <= s.nextFree <= s.chunkLimit == s.chunk.limit
            && GrowingRange(s) <= Block(s.chunk)
  {
    PtrAlignFacts(cfg.s.chunk.addr, cfg.s.chunk.addr + HEADER, cfg.s.mask);
  }

  /** Chunks of a chain that meet a common range of one of them are the same. */
  lemma OneChunkEach(c: Chunk, d: Chunk, f: Chunk, range: set<int>, mask: int)
    requires Chain(c, mask) && InChain(c, d) && InChain(c, f)
    requires range <= Block(f) && !(range !! Block(d))
    ensures d == f
  {
    var x :| x in range && x in Block(d);
    OneOwner(c, d, x + 1, mask);
    OneOwner(c, f, x + 1, mask);
  }

  /** `d` is the one chunk of the chain that the object `o` lies in, if it lies in it at all. */
  ghost predicate OnlyIn(c: Chunk, o: Object, d: Chunk) {
    InChain(c, d) && !(Range(o) !! Block(d)) ==> d == Find(c, o.addr)
  }

  /** `o` lies within the contents of the chunk found for its address. */
  ghost predicate Inside(c: Chunk, o: Object) {
    var f := Find(c, o.addr);
    f.Chunk? && InChain(c, f) && Range(o) <= Interval(f.addr + HEADER, f.limit)
  }

  lemma InItsChunk(s: State, objs: seq<Object>, growing: seq<byte>, i: nat)
    requires Represents(s, objs, growing) && i < |objs|
    ensures Inside(s.chunk, objs[i])
  {
    var f := Find(s.chunk, objs[i].addr);
    LaidObject(s.chunk, s.objectBase, s.mask, objs, s.mem, i);
    PtrAlignFacts(f.addr, f.addr + HEADER, s.mask);
    FindInChain(s.chunk, objs[i].addr);
  }

  lemma InItsChunkOnly(s: State, objs: seq<Object>, growing: seq<byte>, i: nat, d: Chunk)
    requires Represents(s, objs, growing) && i < |objs|
    ensures Inside(s.chunk, objs[i]) && OnlyIn(s.chunk, objs[i], d)
  {
    InItsChunk(s, objs, growing, i);
    if InChain(s.chunk, d) && !(Range(objs[i]) !! Block(d)) {
      var f := Find(s.chunk, objs[i].addr);
      assert Range(objs[i]) <= Block(f);
      OneChunkEach(s.chunk, d, f, Range(objs[i]), s.mask);
    }
  }

  /** Every live object lies within the contents of exactly one live chunk. */
  lemma EachInOneChunk(cfg: Config, i: nat, d: Chunk)
    requires Inv(cfg) && i < |cfg.objs|
    ensures Inside(cfg.s.chunk, cfg.objs[i]) && OnlyIn(cfg.s.chunk, cfg.objs[i], d)
  {
    InItsChunkOnly(cfg.s, cfg.objs, cfg.growing, i, d);
  }

  lemma {:induction false} FindInChain(c: Chunk, x: int)
    requires Find(c, x).Chunk?
    ensures InChain(c, Find(c, x))
  {
    if Owns(c, x) {
    } else {
      FindInChain(c.prev, x);
    }
  }

  /** Live objects and the growing one never overlap. */
  lemma Disjoint(cfg: Config, i: nat, j: nat)
    requires Inv(cfg) && i < |cfg.objs|
    ensures Range(cfg.objs[i]) !! GrowingRange(cfg.s)
    ensures i < j < |cfg.objs| ==> Range(cfg.objs[i]) !! Range(cfg.objs[j])
  {
    var s := cfg.s;
    var objs := cfg.objs;
    LaidObject(s.chunk, s.objectBase, s.mask, objs, s.mem, i);
    PointersInOrder(cfg);
    EachInOneChunk(cfg, i, s.chunk);
    if i < j < |objs| {
      var f := Find(s.chunk, objs[j].addr);
      LaidObject(s.chunk, s.objectBase, s.mask, objs, s.mem, j);
      LaidCut(s.chunk, s.objectBase, s.mask, objs, s.mem, j);
      FindFacts(s.chunk, objs[j].addr, s.mask);
      OwnerOrder(s.chunk, s.objectBase, s.mask, objs, s.mem, i, j);
      assert objs[..j][i] == objs[i];
      LaidObject(f, objs[j].addr, s.mask, objs[..j], s.mem, i);
      EachInOneChunk(cfg, i, f);
      EachInOneChunk(cfg, j, f);
    }
  }

  /** Every finished object with at least one byte starts at an aligned address, and so does the
      growing one as soon as it has a byte, although `obstack_finish` may leave `object_base` at an
      unaligned `chunk_limit`. An unaligned address is always the limit of its chunk. */
  lemma Aligned(cfg: Config, i: nat)
    requires Inv(cfg)
    ensures cfg.growing != [] ==> Clear(cfg.s.objectBase, cfg.s.mask)
    ensures i < |cfg.objs| && cfg.objs[i].bytes != [] ==> Clear(cfg.objs[i].addr, cfg.s.mask)
    ensures i < |cfg.objs| && !Clear(cfg.objs[i].addr, cfg.s.mask) ==>
              cfg.objs[i].addr == Top(Find(cfg.s.chunk, cfg.objs[i].addr))
  {
    if i < |cfg.objs| {
      LaidObject(cfg.s.chunk, cfg.s.objectBase, cfg.s.mask, cfg.objs, cfg.s.mem, i);
    }
  }

  // ----- obstack_empty_p -----

  ghost predicate AllEmpty(objs: seq<Object>) {
    forall i :: 0 <= i < |objs| ==> objs[i].bytes == []
  }

  lemma {:induction false} SingleChunkEmpty(s: State, objs: seq<Object>, growing: seq<byte>, i: nat)
    requires Represents(s, objs, growing) && s.chunk.prev.Null? && AllEmpty(objs) && i <= |objs|
    ensures NextBase(s.chunk, s.mask, objs[..i]) == Start(s.chunk, s.mask)
    decreases i
  {
    if i == 0 {
    } else {
      var o := objs[i - 1];
      assert Last(objs[..i]) == o && o.bytes == [];
      SingleChunkEmpty(s, objs, growing, i - 1);
      assert Placed(s.chunk, s.mask, objs, i - 1);
      PtrAlignFacts(s.chunk.addr, s.chunk.addr + HEADER, s.mask);
      PtrAlignFacts(o.addr, o.addr, s.mask);
    }
  }

  /** `obstack_empty_p` says exactly that there is one chunk and nothing with a byte in it. */
  lemma EmptyPMeans(cfg: Config)
    requires Inv(cfg)
    ensures EmptyP(cfg.s) <==> cfg.s.chunk.prev.Null? && cfg.growing == [] && AllEmpty(cfg.objs)
  {
    var s := cfg.s;
    if s.chunk.prev.Null? {
      if EmptyP(s) {
        forall i | 0 <= i < |cfg.objs|
          ensures cfg.objs[i].bytes == []
        {
          LaidObject(s.chunk, s.objectBase, s.mask, cfg.objs, s.mem, i);
        }
      }
      if AllEmpty(cfg.objs) {
        assert cfg.objs[..|cfg.objs|] == cfg.objs;
        SingleChunkEmpty(s, cfg.objs, cfg.growing, |cfg.objs|);
      }
    }
  }

  // ----- memory is conserved -----

  lemma StepOutside(cfg: Config, e: Event)
    requires Inv(cfg) && Ready(cfg, e) && !e.Client?
    ensures Outside(Step(cfg, e).s) == Outside(cfg.s)
  {
    match e
    case Fill(i, bytes) =>
      ObjectInFootprint(cfg.s, cfg.objs, cfg.growing, i);
      StoreOutside(cfg.s, cfg.objs[i].addr, bytes);
    case FillGrowing(bytes) =>
      GrowingInFootprint(cfg.s);
      StoreOutside(cfg.s, cfg.s.objectBase, bytes);
    case Use(op, g, cut) =>
      if op.OpFree? {
        FreeKeeps(cfg.s, cfg.objs, cfg.growing, cut);
      } else {
        GrownKeeps(cfg.s, op, g, cfg.objs, cfg.growing);
      }
  }

  /** The client's memory after a run that begins with `own`: what the client's last change to it
      left, and `own` if it made none. */
  ghost function ClientMemory(own: Memory, cfg: Config, run: seq<Event>): Memory
    requires Inv(cfg) && ValidRun(cfg, run)
    decreases |run|
  {
    if run == [] then own
    else
      var e := run[0];
      ClientMemory(if e.Client? then e.mem - Footprint(cfg.s.chunk) else own, Step(cfg, e), run[1..])
  }

  lemma {:induction false} ClientMemoryKept(own: Memory, cfg: Config, run: seq<Event>)
    requires Inv(cfg) && ValidRun(cfg, run) && forall e :: e in run ==> !e.Client?
    ensures ClientMemory(own, cfg, run) == own
    decreases |run|
  {
    if run == [] {
    } else {
      assert run[0] in run;
      ClientMemoryKept(own, Step(cfg, run[0]), run[1..]);
    }
  }

  /** Memory is conserved over any run: what is mapped is the client's memory, byte for byte as the
      client left it, and the chunks in the chain. No chunk is leaked and no stray byte written. */
  lemma {:induction false} RunConserves(cfg: Config, run: seq<Event>)
    requires Inv(cfg) && ValidRun(cfg, run)
    ensures var r := Run(cfg, run);
            && Outside(r.s) == ClientMemory(Outside(cfg.s), cfg, run)
            && r.s.mem.Keys == Outside(r.s).Keys + Footprint(r.s.chunk)
    decreases |run|
  {
    if run == [] {
    } else {
      if !run[0].Client? {
        StepOutside(cfg, run[0]);
      }
      RunConserves(Step(cfg, run[0]), run[1..]);
    }
  }

  /** `obstack_free` of an address in no chunk, the null pointer among them, gives back every
      chunk; of any other address, it leaves the chunk of that address current. */
  lemma FreeForeign(s: State, x: int)
    requires Sound(s)
    ensures Free(s, x).chunk == Find(s.chunk, x)
    ensures Free(s, x).chunk.Null? <==> x - 1 !in Footprint(s.chunk)
    ensures Free(s, x).chunk.Null? ==> Free(s, x).mem == Outside(s)
    ensures Free(s, 0).mem == Outside(s)
  {
    FindFacts(s.chunk, x, s.mask);
    FindFacts(s.chunk, 0, s.mask);
    NoNull(s.chunk, s.mask);
  }

  lemma {:induction false} NoNull(c: Chunk, mask: int)
    requires Chain(c, mask)
    ensures Find(c, 0).Null?
  {
    if c.Null? {
    } else {
      NoNull(c.prev, mask);
    }
  }

  // ----- a run can always go on -----

  lemma {:induction false} AboveAll(keys: set<int>) returns (a: int)
    ensures a > 0 && forall k :: k in keys ==> k < a
    decreases keys
  {
    if x :| x in keys {
      var b := AboveAll(keys - {x});
      a := if b > x then b else x + 1;
      forall k | k in keys
        ensures k < a
      {
        assert k == x || k in keys - {x};
      }
    } else {
      a := 1;
    }
  }

  /** Whatever is mapped, there is a block that `chunkfun` could hand out, so no growth is ever stuck. */
  lemma GrantExists(s: State, n: nat) returns (g: Grant)
    requires Sound(s)
    ensures GrantOk(s, n, g)
  {
    var a := AboveAll(s.mem.Keys);
    PtrAlignFacts(a, a + HEADER, s.mask);
    g := Grant(a, seq(FirstObject(a, s.mask) - a + (s.nextFree - s.objectBase) + n, i => 0));
  }

  // ----- where memcpy may copy from -----

  lemma ClearOfRoom(s: State, objs: seq<Object>, growing: seq<byte>, i: nat)
    requires Represents(s, objs, growing) && i < |objs|
    ensures var o := objs[i];
            && Mapped(s.mem, o.addr, |o.bytes|)
            && Read(s.mem, o.addr, |o.bytes|) == o.bytes
            && Range(o) !! Interval(s.objectBase, s.chunkLimit)
  {
    var o := objs[i];
    var f := Find(s.chunk, o.addr);
    LaidObject(s.chunk, s.objectBase, s.mask, objs, s.mem, i);
    PtrAlignFacts(s.chunk.addr, s.chunk.addr + HEADER, s.mask);
    FindInChain(s.chunk, o.addr);
    if f != s.chunk {
      forall x | x in Range(o)
        ensures x !in Block(s.chunk)
      {
        OneOwner(s.chunk, f, x + 1, s.mask);
        assert !Owns(s.chunk, x + 1);
      }
    }
  }

  lemma SourceOkFrom(s: State, src: int, n: nat, need: nat, g: Grant, r: State)
    requires Sound(s) && RoomOk(s, need, g) && r == MakeRoom(s, need, g) && n <= need
    requires Mapped(s.mem, src, n) && Mapped(r.mem, src, n)
    requires Interval(src, src + n) !! Interval(r.objectBase, r.chunkLimit)
    ensures SourceOk(s, src, n, need, g)
  {
    assert Interval(r.nextFree, r.nextFree + n) <= Interval(r.objectBase, r.chunkLimit);
  }

  /** A live object can always be copied or appended, whatever chunk has to be allocated for it:
      its bytes are read correctly even when the current chunk is replaced. */
  lemma LiveSource(cfg: Config, i: nat, need: nat, g: Grant)
    requires Inv(cfg) && i < |cfg.objs| && RoomOk(cfg.s, need, g) && |cfg.objs[i].bytes| <= need
    ensures var o := cfg.objs[i];
            && SourceOk(cfg.s, o.addr, |o.bytes|, need, g)
            && Read(MakeRoom(cfg.s, need, g).mem, o.addr, |o.bytes|) == o.bytes
  {
    var o, r := cfg.objs[i], MakeRoom(cfg.s, need, g);
    MakeRoomKeeps(cfg.s, need, g, cfg.objs, cfg.growing);
    ClearOfRoom(cfg.s, cfg.objs, cfg.growing, i);
    ClearOfRoom(r, cfg.objs, cfg.growing, i);
    SourceOkFrom(cfg.s, o.addr, |o.bytes|, need, g, r);
  }

  /** Growing an object from its own bytes is allowed exactly when doing so does not replace the
      chunk they lie in: then the old chunk is given back before `memcpy` reads it. */
  lemma GrowingSource(s: State, src: int, n: nat, need: nat, g: Grant)
    requires Sound(s) && RoomOk(s, need, g) && 0 < n <= need
    requires s.objectBase <= src && src + n <= s.nextFree
    ensures SourceOk(s, src, n, need, g) <==>
              || s.nextFree + need <= s.chunkLimit
              || s.maybeEmpty
              || s.objectBase != PtrAlign(s.chunk.addr, s.chunk.addr + HEADER, s.mask)
  {
    PtrAlignFacts(s.chunk.addr, s.chunk.addr + HEADER, s.mask);
    GrowingMapped(s);
    assert Interval(src, src + n) <= Block(s.chunk);
    if s.nextFree + need > s.chunkLimit {
      var r := MakeRoom(s, need, g);
      PtrAlignFacts(g.addr, g.addr + HEADER, s.mask);
      RelocatedFacts(s, need, g);
      if Replaces(s) {
        assert src in Block(s.chunk) && src !in r.mem;
      } else {
        assert Interval(r.nextFree, r.nextFree + n) <= Block(r.chunk);
        assert Block(r.chunk) !! Block(s.chunk);
      }
    }
  }
}
