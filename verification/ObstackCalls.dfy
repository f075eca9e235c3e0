/** What single calls do to the chunks, the pointers and memory: when an object moves, when a chunk is
    given back, where the next object starts, and what the `maybe_empty_object` flag tells. */
module ObstackCalls {
  import opened Align
  import opened ObstackModel
  import opened ObstackProofs
  import opened ObstackRuns
  import opened ObstackTheorems

  // ----- _obstack_newchunk -----

  /** `a` is the least address at or above `from` that is clear in the mask. */
  ghost predicate LeastClear(from: int, a: int, mask: int)
    requires IsMask(mask)
  {
    && from <= a && Clear(a, mask)
    && forall q :: from <= q && Clear(q, mask) ==> a <= q
  }

  lemma PtrAlignIsLeastClear(b: int, p: int, mask: int)
    requires IsMask(mask)
    ensures LeastClear(p, PtrAlign(b, p, mask), mask)
  {
    BptrAlignLeast(0, p, mask);
    ClearIsOnGrid(PtrAlign(b, p, mask), mask);
    forall q | p <= q && Clear(q, mask)
      ensures PtrAlign(b, p, mask) <= q
    {
      ClearIsOnGrid(q, mask);
    }
  }

  /** The new chunk is the block that was granted, with the growing object at its first clear address.
      The old chunk is given back, all of it, exactly if the flag is clear and the object was the first
      thing in it; if not it stays in the chain and in memory. */
  lemma NewChunkExactly(s: State, n: nat, g: Grant)
    requires Sound(s) && GrantOk(s, n, g)
    ensures var r := NewChunk(s, n, g);
            && r.chunk.addr == g.addr && r.chunkLimit == r.chunk.limit == g.addr + |g.bytes|
            && LeastClear(g.addr + HEADER, r.objectBase, s.mask)
            && Growing(r) == Growing(s) && !r.maybeEmpty && r.mask == s.mask
            && if !s.maybeEmpty && s.objectBase == PtrAlign(s.chunk.addr, s.chunk.addr + HEADER, s.mask)
               then r.chunk.prev == s.chunk.prev && Block(s.chunk) !! r.mem.Keys
               else r.chunk.prev == s.chunk && Block(s.chunk) <= r.mem.Keys
  {
    var r := NewChunk(s, n, g);
    NewChunkGrowing(s, n, g);
    RelocatedFacts(s, n, g);
    PtrAlignIsLeastClear(g.addr, g.addr + HEADER, s.mask);
  }

  // ----- room -----

  /** After `obstack_make_room` there is room for what was asked; the objects and the growing one are
      as they were, and if there was room before nothing happens at all. */
  lemma RoomIsMade(s: State, n: nat, g: Grant, objs: seq<Object>, growing: seq<byte>)
    requires Represents(s, objs, growing) && CallOk(s, OpMakeRoom(n), g)
    ensures var r := Exec(s, OpMakeRoom(n), g);
            && r.nextFree + n <= r.chunkLimit
            && Represents(r, objs, growing)
            && (r == s <==> s.nextFree + n <= s.chunkLimit)
  {
    var m := MakeRoom(s, n, g);
    MakeRoomKeeps(s, n, g, objs, growing);
    assert Write(m.mem, m.nextFree, []) == m.mem;
    if m != s {
      MovedAway(s, n, g);
    }
  }

  lemma MovedAway(s: State, n: nat, g: Grant)
    requires Sound(s) && GrantOk(s, n, g)
    ensures NewChunk(s, n, g).objectBase != s.objectBase && NewChunk(s, n, g).chunk != s.chunk
  {
    var r := NewChunk(s, n, g);
    PtrAlignFacts(s.chunk.addr, s.chunk.addr + HEADER, s.mask);
    PtrAlignFacts(g.addr, g.addr + HEADER, s.mask);
    assert s.objectBase - 1 in Block(s.chunk) && s.chunk.addr in Block(s.chunk);
    assert r.objectBase - 1 in Block(r.chunk);
  }

  /** The object a call has been building: the one it finished, or the one still growing. */
  ghost function Built(before: Config, after: Config): Object {
    if |after.objs| > |before.objs| then Last(after.objs) else Object(after.s.objectBase, after.growing)
  }

  /** A call that grows or finishes the object leaves it where it is exactly if, as long as it has
      become, it fits into the chunk it is in. Then no chunk is allocated, and memory changes at most
      at the bytes that were added, and not at all if the call has nothing to store there. If it does
      not fit it goes to the block that was granted. */
  lemma MovesOnlyWhenFull(cfg: Config, e: Event)
    requires Inv(cfg) && Ready(cfg, e) && e.Use? && !e.op.OpFree? && !e.op.OpMakeRoom?
    ensures var r := Step(cfg, e);
            var s, o := cfg.s, Built(cfg, r);
            && (o.addr == s.objectBase <==> s.objectBase + |o.bytes| <= s.chunkLimit)
            && (o.addr == s.objectBase ==>
                  && r.s.chunk == s.chunk && r.s.mem.Keys == s.mem.Keys
                  && (forall a :: a in s.mem && !(s.nextFree <= a < s.objectBase + |o.bytes|) ==>
                        r.s.mem[a] == s.mem[a])
                  && (e.op.OpBlank? || e.op.OpAlloc? || e.op.OpFinish? ==> r.s.mem == s.mem))
            && (o.addr != s.objectBase ==>
                  r.s.chunk.addr == e.grant.addr && LeastClear(e.grant.addr + HEADER, o.addr, s.mask))
  {
    BuiltWhereGrown(cfg, e);
    GrownWhere(cfg.s, e.op, e.grant);
  }

  /** The same of the state in which a call has finished growing. */
  lemma GrownWhere(s: State, op: Op, g: Grant)
    requires Sound(s) && CallOk(s, op, g) && !op.OpFree? && !op.OpMakeRoom?
    ensures var r := Grown(s, op, g);
            && (r.objectBase == s.objectBase <==> s.objectBase + (r.nextFree - r.objectBase) <= s.chunkLimit)
            && (r.objectBase == s.objectBase ==>
                  && r.chunk == s.chunk && r.mem.Keys == s.mem.Keys
                  && (forall a :: a in s.mem && !(s.nextFree <= a < r.nextFree) ==> r.mem[a] == s.mem[a])
                  && (op.OpBlank? || op.OpAlloc? || op.OpFinish? ==> r.mem == s.mem))
            && (r.objectBase != s.objectBase ==>
                  r.chunk.addr == g.addr && LeastClear(g.addr + HEADER, r.objectBase, s.mask))
  {
    if s.nextFree + Need(op) > s.chunkLimit {
      MovedAway(s, Need(op), g);
      PtrAlignIsLeastClear(g.addr, g.addr + HEADER, s.mask);
    } else {
      StoredInPlace(s, op, g);
    }
  }

  lemma BuiltWhereGrown(cfg: Config, e: Event)
    requires Inv(cfg) && Ready(cfg, e) && e.Use? && !e.op.OpFree?
    ensures var r, grown := Step(cfg, e), Grown(cfg.s, e.op, e.grant);
            var o := Built(cfg, r);
            && o.addr == grown.objectBase && o.addr + |o.bytes| == grown.nextFree
            && r.s.chunk == grown.chunk && r.s.mem == grown.mem
  {
    var r, grown := Step(cfg, e), Grown(cfg.s, e.op, e.grant);
    var growing := cfg.growing + Added(cfg.s, e.op, e.grant);
    GrownKeeps(cfg.s, e.op, e.grant, cfg.objs, cfg.growing);
    assert |growing| == grown.nextFree - grown.objectBase;
    if Finishes(e.op) {
      assert r == Config(Finish(grown), cfg.objs + [Object(grown.objectBase, growing)], []);
    } else {
      assert r == Config(grown, cfg.objs, growing);
    }
  }

  lemma AppendInPlace(s: State, data: seq<byte>)
    requires Sound(s) && s.nextFree + |data| <= s.chunkLimit
    ensures var r := Append(s, data);
            && r.mem.Keys == s.mem.Keys
            && (forall a :: a in s.mem && !(s.nextFree <= a < r.nextFree) ==> r.mem[a] == s.mem[a])
            && (data == [] ==> r.mem == s.mem)
  {
    PtrAlignFacts(s.chunk.addr, s.chunk.addr + HEADER, s.mask);
    assert Interval(s.nextFree, s.nextFree + |data|) <= Block(s.chunk);
    WriteFacts(s.mem, s.nextFree, data);
  }

  lemma StoredInPlace(s: State, op: Op, g: Grant)
    requires Sound(s) && CallOk(s, op, g) && !op.OpFree? && s.nextFree + Need(op) <= s.chunkLimit
    ensures var r := Grown(s, op, g);
            && r.mem.Keys == s.mem.Keys
            && (forall a :: a in s.mem && !(s.nextFree <= a < r.nextFree) ==> r.mem[a] == s.mem[a])
            && (op.OpBlank? || op.OpAlloc? || op.OpFinish? ==> r.mem == s.mem)
  {
    if !op.OpBlank? && !op.OpAlloc? {
      var data := Stored(s.mem, op);
      AppendInPlace(s, data);
      if Terminates(op) {
        AppendInPlace(Append(s, data), [0]);
      }
    }
  }

  /** After a call that finishes an object the next one is empty, and starts at the first clear address
      from the end of that object, or at the end of the chunk if that comes before. */
  lemma NextStarts(cfg: Config, e: Event)
    requires Inv(cfg) && Ready(cfg, e) && e.Use? && |Step(cfg, e).objs| > |cfg.objs|
    ensures var r := Step(cfg, e);
            var o, base := Last(r.objs), r.s.objectBase;
            && r.growing == [] && r.s.nextFree == base
            && o.addr + |o.bytes| <= base <= r.s.chunkLimit
            && (Clear(base, r.s.mask) || base == r.s.chunkLimit)
            && forall q :: o.addr + |o.bytes| <= q && Clear(q, r.s.mask) ==> base <= q
  {
    var grown := Grown(cfg.s, e.op, e.grant);
    GrownKeeps(cfg.s, e.op, e.grant, cfg.objs, cfg.growing);
    PtrAlignIsLeastClear(grown.objectBase, grown.nextFree, grown.mask);
  }

  // ----- free -----

  /** `obstack_free` of any address: memory that is not in a chunk that is given back stays as it is,
      and the flag is set by going back to an older chunk and by nothing else. */
  lemma FreeExactly(s: State, x: int)
    requires Sound(s)
    ensures var r := Free(s, x);
            && r.chunk == Find(s.chunk, x)
            && r.mem.Keys == Outside(s).Keys + Footprint(r.chunk)
            && (forall a :: a in r.mem ==> r.mem[a] == s.mem[a])
            && (r.maybeEmpty <==> s.maybeEmpty || r.chunk != s.chunk)
            && (r.chunk.Chunk? ==> r.objectBase == r.nextFree == x && r.chunkLimit == r.chunk.limit)
  {
    FindFacts(s.chunk, x, s.mask);
  }

  // ----- no chunk is kept for nothing -----

  /** A live object lies in the chunk `d`. */
  ghost predicate InUse(cfg: Config, d: Chunk) {
    exists i :: 0 <= i < |cfg.objs| && Find(cfg.s.chunk, cfg.objs[i].addr) == d
  }

  /** Every chunk but the current one has a live object in it. */
  ghost predicate Tight(cfg: Config)
    requires cfg.s.chunk.Chunk?
  {
    forall d :: InChain(cfg.s.chunk.prev, d) ==> InUse(cfg, d)
  }

  /** The flag is set just when the current chunk has a zero-length object in it. */
  ghost predicate FlagTells(cfg: Config) {
    cfg.s.maybeEmpty <==>
    exists i :: 0 <= i < |cfg.objs| && Find(cfg.s.chunk, cfg.objs[i].addr) == cfg.s.chunk && cfg.objs[i].bytes == []
  }

  /** A call allocates a chunk while the flag is set and the current chunk has no live object. */
  ghost predicate KeepsUnused(cfg: Config, e: Event)
    requires Inv(cfg) && Ready(cfg, e)
  {
    && e.Use? && !e.op.OpFree?
    && Step(cfg, e).s.chunk != cfg.s.chunk
    && cfg.s.maybeEmpty && !InUse(cfg, cfg.s.chunk)
  }

  lemma {:induction false} OlderChunk(c: Chunk, d: Chunk)
    requires InChain(c, d)
    ensures d == c || d < c
  {
    if d == c {
    } else {
      OlderChunk(c.prev, d);
    }
  }

  /** If no live object lies in the current chunk the growing one is at its start. */
  lemma UnusedStart(cfg: Config)
    requires Inv(cfg) && !InUse(cfg, cfg.s.chunk)
    ensures cfg.s.objectBase == Start(cfg.s.chunk, cfg.s.mask)
  {
    assert cfg.objs != [] ==> Last(cfg.objs) == cfg.objs[|cfg.objs| - 1];
  }

  /** The objects a call grows or finishes beside stay in their chunks, and the one it finishes is in
      the current one. */
  lemma UsesKept(cfg: Config, e: Event, d: Chunk)
    requires Inv(cfg) && Ready(cfg, e) && !(e.Use? && e.op.OpFree?) && d != Step(cfg, e).s.chunk
    ensures InUse(Step(cfg, e), d) <==> InUse(cfg, d)
  {
    var r := Step(cfg, e);
    forall i | 0 <= i < |cfg.objs|
      ensures Find(r.s.chunk, r.objs[i].addr) == Find(cfg.s.chunk, cfg.objs[i].addr)
    {
      if e.Use? { GrowthInPlace(cfg, e, i); }
    }
    if |r.objs| > |cfg.objs| {
      FinishingStep(cfg, e);
      assert r.objs[|cfg.objs|] == Last(r.objs);
    }
  }

  lemma FreeTight(cfg: Config, e: Event)
    requires Inv(cfg) && Ready(cfg, e) && Tight(cfg) && e.Use? && e.op.OpFree?
    ensures Tight(Step(cfg, e))
  {
    var s, objs, r := cfg.s, cfg.objs, Step(cfg, e);
    var f := Find(s.chunk, objs[e.cut].addr);
    FreeKeeps(s, objs, cfg.growing, e.cut);
    FindInChain(s.chunk, objs[e.cut].addr);
    forall d | InChain(f.prev, d)
      ensures InUse(r, d)
    {
      OlderChunk(f.prev, d);
      OlderThan(s.chunk, f, d);
      var j :| 0 <= j < |objs| && Find(s.chunk, objs[j].addr) == d;
      if j > e.cut {
        OwnerOrder(s.chunk, s.objectBase, s.mask, objs, s.mem, e.cut, j);
        FindInChain(d, objs[e.cut].addr);
        OlderChunk(d, f);
      }
      OwnerOrder(s.chunk, s.objectBase, s.mask, objs, s.mem, j, e.cut);
      assert r.objs[j] == objs[j];
    }
  }

  lemma {:induction false} OlderThan(c: Chunk, f: Chunk, d: Chunk)
    requires InChain(c, f) && InChain(f.prev, d)
    ensures InChain(c.prev, d)
  {
    if f == c {
    } else {
      OlderThan(c.prev, f, d);
    }
  }

  /** Nothing before the current chunk changes but that a chunk may be added. */
  lemma AllocatedTight(cfg: Config, e: Event)
    requires Inv(cfg) && Ready(cfg, e) && Tight(cfg) && e.Use? && !e.op.OpFree?
    requires Step(cfg, e).s.chunk != cfg.s.chunk
    ensures var prev := Step(cfg, e).s.chunk.prev;
            if cfg.s.maybeEmpty && !InUse(cfg, cfg.s.chunk) then prev == cfg.s.chunk
            else forall d :: InChain(prev, d) ==> InUse(cfg, d)
  {
    NewChunkExactly(cfg.s, Need(e.op), e.grant);
    if !InUse(cfg, cfg.s.chunk) { UnusedStart(cfg); }
  }

  /** If no chunk is kept for nothing, then neither after any one step, be it a free, unless the flag is
      out of date: exactly when a chunk is left that has no live object although the flag is set. */
  lemma StaysTight(cfg: Config, e: Event)
    requires Inv(cfg) && Ready(cfg, e) && Tight(cfg)
    ensures Tight(Step(cfg, e)) <==> !KeepsUnused(cfg, e)
  {
    var r := Step(cfg, e);
    if e.Use? && e.op.OpFree? {
      FreeTight(cfg, e);
    } else {
      forall d | InChain(r.s.chunk.prev, d)
        ensures InUse(r, d) <==> InUse(cfg, d)
      {
        OlderChunk(r.s.chunk.prev, d);
        UsesKept(cfg, e, d);
      }
      if r.s.chunk != cfg.s.chunk {
        AllocatedTight(cfg, e);
      }
    }
  }

  /** Without frees the flag stays up to date. */
  lemma FlagStays(cfg: Config, e: Event)
    requires Inv(cfg) && Ready(cfg, e) && FlagTells(cfg) && !(e.Use? && e.op.OpFree?)
    ensures FlagTells(Step(cfg, e))
  {
    var s, r := cfg.s, Step(cfg, e);
    if e.Use? {
      var grown := Grown(s, e.op, e.grant);
      GrownKeeps(s, e.op, e.grant, cfg.objs, cfg.growing);
      GrownFlag(cfg, e.op, e.grant);
      if Finishes(e.op) {
        FinishingStep(cfg, e);
        assert r.objs[|cfg.objs|] == Last(r.objs);
      }
    } else {
      assert forall i :: 0 <= i < |cfg.objs| ==>
        r.objs[i].addr == cfg.objs[i].addr && |r.objs[i].bytes| == |cfg.objs[i].bytes|;
    }
  }

  lemma GrownFlag(cfg: Config, op: Op, g: Grant)
    requires Inv(cfg) && CallOk(cfg.s, op, g) && FlagTells(cfg) && !op.OpFree?
    ensures FlagTells(cfg.(s := Grown(cfg.s, op, g)))
  {
    GrownKeeps(cfg.s, op, g, cfg.objs, cfg.growing);
    if cfg.s.nextFree + Need(op) > cfg.s.chunkLimit {
      NewChunkExactly(cfg.s, Need(op), g);
      forall i | 0 <= i < |cfg.objs|
        ensures Find(cfg.s.chunk, cfg.objs[i].addr) != NewChunk(cfg.s, Need(op), g).chunk
      {
        LaidObject(cfg.s.chunk, cfg.s.objectBase, cfg.s.mask, cfg.objs, cfg.s.mem, i);
        FindFacts(cfg.s.chunk, cfg.objs[i].addr, cfg.s.mask);
      }
    }
  }

  predicate NoFrees(run: seq<Event>) {
    forall t :: 0 <= t < |run| ==> !(run[t].Use? && run[t].op.OpFree?)
  }

  /** Over any run without frees, no chunk is kept for nothing: every chunk but the current one has a
      live object in it, and the flag tells whether the current one has a zero-length one. */
  lemma {:induction false} NoChunkForNothing(cfg: Config, run: seq<Event>)
    requires Inv(cfg) && ValidRun(cfg, run) && NoFrees(run) && Tight(cfg) && FlagTells(cfg)
    ensures Tight(Run(cfg, run)) && FlagTells(Run(cfg, run))
    decreases |run|
  {
    if run == [] {
    } else {
      StaysTight(cfg, run[0]);
      if KeepsUnused(cfg, run[0]) {
        assert InUse(cfg, cfg.s.chunk);
      }
      FlagStays(cfg, run[0]);
      assert NoFrees(run[1..]);
      NoChunkForNothing(Step(cfg, run[0]), run[1..]);
    }
  }

  /** Where no chunk is kept for nothing, freeing the oldest object leaves one chunk, empty. */
  lemma FreeOldest(cfg: Config, g: Grant)
    requires Inv(cfg) && Tight(cfg) && cfg.objs != []
    ensures Ready(cfg, Freeing(cfg, 0, g)) && EmptyP(Step(cfg, Freeing(cfg, 0, g)).s)
  {
    var e := Freeing(cfg, 0, g);
    var r := Step(cfg, e);
    FreeTight(cfg, e);
    FreeKeeps(cfg.s, cfg.objs, cfg.growing, 0);
    assert InChain(r.s.chunk.prev, r.s.chunk.prev) ==> InUse(r, r.s.chunk.prev);
    EmptyPMeans(r);
  }

  /** A new obstack, in which nothing has been built. */
  ghost function New(mem: Memory, mask: int, g: Grant): (cfg: Config)
    requires BeginOk(mem, mask, g)
    ensures Inv(cfg) && Tight(cfg) && FlagTells(cfg)
  {
    BeginRepresents(mem, mask, g);
    Config(Begin(mem, mask, g), [], [])
  }

  /** Build anything in a new obstack and free the oldest object: it is as empty as when it was new. */
  lemma EmptiedAgain(mem: Memory, mask: int, g: Grant, run: seq<Event>, h: Grant)
    requires BeginOk(mem, mask, g) && ValidRun(New(mem, mask, g), run) && NoFrees(run)
    ensures var cfg := Run(New(mem, mask, g), run);
            && Tight(cfg) && FlagTells(cfg)
            && (cfg.objs != [] ==>
                  Ready(cfg, Freeing(cfg, 0, h)) && EmptyP(Step(cfg, Freeing(cfg, 0, h)).s))
  {
    var cfg := Run(New(mem, mask, g), run);
    NoChunkForNothing(New(mem, mask, g), run);
    if cfg.objs != [] { FreeOldest(cfg, h); }
  }

  /** An object of no length is finished and freed at once. */
  ghost function FinishedAndFreed(cfg: Config, g: Grant): (r: Config)
    requires Inv(cfg) && cfg.objs == [] && cfg.growing == []
    ensures Inv(r) && r.objs == [] && r.s == cfg.s.(maybeEmpty := true, mem := r.s.mem)
  {
    var finish := Use(OpFinish, g, 0);
    FinishingStep(cfg, finish);
    var one := Step(cfg, finish);
    BuiltWhereGrown(cfg, finish);
    FreeKeeps(one.s, one.objs, one.growing, 0);
    FreeExactly(one.s, one.objs[0].addr);
    Step(one, Freeing(one, 0, g))
  }

  lemma BlankLeavesChunk(cfg: Config, e: Event)
    requires Inv(cfg) && Tight(cfg) && cfg.objs == [] && cfg.s.maybeEmpty
    requires e.Use? && e.op.OpBlank? && cfg.s.nextFree + e.op.n > cfg.s.chunkLimit && Ready(cfg, e)
    ensures !Tight(Step(cfg, e))
  {
    StaysTight(cfg, e);
    MovedAway(cfg.s, e.op.n, e.grant);
  }

  /** Frees can leave the flag out of date: finish a zero-length object first thing in a new obstack, free
      it, and the chunk is kept for nothing once the next object does not fit into it. */
  lemma KeptForNothing(mem: Memory, mask: int, g: Grant, e: Event)
    requires BeginOk(mem, mask, g)
    ensures var start := New(mem, mask, g);
            var none := FinishedAndFreed(start, g);
            && Tight(none)
            && (Ready(none, e) && e.Use? && e.op.OpBlank? && start.s.nextFree + e.op.n > start.s.chunkLimit ==>
                  !Tight(Step(none, e)))
  {
    var none := FinishedAndFreed(New(mem, mask, g), g);
    assert Tight(none);
    if Ready(none, e) && e.Use? && e.op.OpBlank? && none.s.nextFree + e.op.n > none.s.chunkLimit {
      BlankLeavesChunk(none, e);
    }
  }
}
