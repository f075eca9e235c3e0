/** Whole runs of an obstack: what holds of every state a client can reach. */
module ObstackRuns {
  import opened Align
  import opened ObstackModel
  import opened ObstackProofs

  /** An obstack with the history of what its client has built in it. */
  datatype Config = Config(s: State, objs: seq<Object>, growing: seq<byte>)

  ghost predicate Inv(cfg: Config) {
    Represents(cfg.s, cfg.objs, cfg.growing)
  }

  /** A step of a run: a use of a macro, the client changing memory of its own, or the client storing
      into a finished object or the growing one. `cut` says which of the live objects at the freed
      address the client means; several can share one address. */
  datatype Event =
    | Use(op: Op, grant: Grant, cut: nat)
    | Client(mem: Memory)
    | Fill(i: nat, bytes: seq<byte>)
    | FillGrowing(bytes: seq<byte>)

  ghost predicate Ready(cfg: Config, e: Event)
    requires Inv(cfg)
  {
    match e
    case Use(op, g, cut) =>
      && CallOk(cfg.s, op, g)
      && (op.OpFree? ==> cut < |cfg.objs| && cfg.objs[cut].addr == op.x)
    case Client(mem) =>
      forall x :: x in Footprint(cfg.s.chunk) ==> x in mem && mem[x] == cfg.s.mem[x]
    case Fill(i, bytes) => i < |cfg.objs| && |bytes| == |cfg.objs[i].bytes|
    case FillGrowing(bytes) => |bytes| == |cfg.growing|
  }

  /** What a growing call appends to the object, given memory before the call. A blank contributes
      the bytes that happen to be there. */
  ghost function Added(s: State, op: Op, g: Grant): seq<byte>
    requires Sound(s) && CallOk(s, op, g) && !op.OpFree?
  {
    if op.OpBlank? || op.OpAlloc? then
      var r := MakeRoom(s, op.n, g);
      GrowingMapped(r.(nextFree := r.chunkLimit));
      GrowingMapped(r);
      Read(r.mem, r.nextFree, op.n)
    else
      Stored(s.mem, op) + (if Terminates(op) then [0] else [])
  }

  lemma StoreKeeps(r: State, data: seq<byte>, zero: bool, objs: seq<Object>, growing: seq<byte>)
    requires Represents(r, objs, growing) && r.nextFree + |data| + (if zero then 1 else 0) <= r.chunkLimit
    ensures var grown := if zero then Append(Append(r, data), [0]) else Append(r, data);
            && Represents(grown, objs, growing + (data + if zero then [0] else []))
            && Outside(grown) == Outside(r)
            && grown.chunk == r.chunk
  {
    AppendKeeps(r, data, objs, growing);
    if zero {
      AppendKeeps(Append(r, data), [0], objs, growing + data);
      assert growing + data + [0] == growing + (data + [0]);
    } else {
      assert data + [] == data;
    }
  }

  /** A growing call keeps the finished objects, their chunks and the client's memory, and appends
      its bytes to the object under construction. */
  lemma GrownKeeps(s: State, op: Op, g: Grant, objs: seq<Object>, growing: seq<byte>)
    requires Represents(s, objs, growing) && CallOk(s, op, g) && !op.OpFree?
    ensures Represents(Grown(s, op, g), objs, growing + Added(s, op, g))
    ensures Outside(Grown(s, op, g)) == Outside(s)
    ensures forall i :: 0 <= i < |objs| ==> Find(Grown(s, op, g).chunk, objs[i].addr) == Find(s.chunk, objs[i].addr)
  {
    var r := MakeRoom(s, Need(op), g);
    MakeRoomKeeps(s, Need(op), g, objs, growing);
    if op.OpBlank? || op.OpAlloc? {
      SkipKeeps(r, op.n, objs, growing);
    } else {
      if Copies(op) {
        MakeRoomReads(s, Need(op), g, op.src, op.n);
      }
      StoreKeeps(r, Stored(s.mem, op), Terminates(op), objs, growing);
    }
  }

  lemma ClientKeeps(cfg: Config, mem: Memory)
    requires Inv(cfg) && Ready(cfg, Client(mem))
    ensures Inv(cfg.(s := cfg.s.(mem := mem)))
  {
    var s := cfg.s;
    var s' := s.(mem := mem);
    PtrAlignFacts(s.chunk.addr, s.chunk.addr + HEADER, s.mask);
    GrowingMapped(s);
    assert Footprint(s.chunk) <= mem.Keys;
    assert Interval(s.objectBase, s.nextFree) <= Block(s.chunk);
    assert Growing(s') == Growing(s);
    assert Interval(s.chunk.addr, s.objectBase) <= Block(s.chunk);
    LaidFrame(s.chunk, s.objectBase, s.objectBase, s.mask, cfg.objs, s.mem, mem);
  }

  /** One step. The history follows the abstract stack: growth appends to the growing object,
      finishing pushes it with its address, freeing drops the freed object and all above it. */
  ghost function Step(cfg: Config, e: Event): (r: Config)
    requires Inv(cfg) && Ready(cfg, e)
    ensures Inv(r)
  {
    match e
    case Client(mem) =>
      ClientKeeps(cfg, mem);
      cfg.(s := cfg.s.(mem := mem))
    case Fill(i, bytes) =>
      FillKeeps(cfg.s, cfg.objs, cfg.growing, i, bytes);
      var o := Object(cfg.objs[i].addr, bytes);
      Config(cfg.s.(mem := Write(cfg.s.mem, o.addr, bytes)), cfg.objs[i := o], cfg.growing)
    case FillGrowing(bytes) =>
      FillGrowingKeeps(cfg.s, cfg.objs, cfg.growing, bytes);
      Config(cfg.s.(mem := Write(cfg.s.mem, cfg.s.objectBase, bytes)), cfg.objs, bytes)
    case Use(op, g, cut) =>
      var s := Exec(cfg.s, op, g);
      if op.OpFree? then
        FreeKeeps(cfg.s, cfg.objs, cfg.growing, cut);
        Config(s, cfg.objs[..cut], [])
      else
        var grown := Grown(cfg.s, op, g);
        var growing := cfg.growing + Added(cfg.s, op, g);
        GrownKeeps(cfg.s, op, g, cfg.objs, cfg.growing);
        if Finishes(op) then
          FinishKeeps(grown, cfg.objs, growing);
          Config(s, cfg.objs + [Object(grown.objectBase, growing)], [])
        else
          Config(s, cfg.objs, growing)
  }

  ghost predicate ValidRun(cfg: Config, run: seq<Event>)
    requires Inv(cfg)
    decreases |run|
  {
    run == [] || (Ready(cfg, run[0]) && ValidRun(Step(cfg, run[0]), run[1..]))
  }

  /** The configuration a run ends in. */
  ghost function Run(cfg: Config, run: seq<Event>): (r: Config)
    requires Inv(cfg) && ValidRun(cfg, run)
    ensures Inv(r)
    decreases |run|
  {
    if run == [] then cfg else Run(Step(cfg, run[0]), run[1..])
  }

  // ----- the abstract stack -----

  /** A stack of byte strings, each with the address it was returned under, and one growing string. */
  datatype Stack = Stack(objs: seq<Object>, growing: seq<byte>)

  ghost function Abstract(cfg: Config): Stack {
    Stack(cfg.objs, cfg.growing)
  }

  /** `added` goes at the end of the growing string. */
  ghost predicate Grows(a: Stack, added: seq<byte>, b: Stack) {
    b == Stack(a.objs, a.growing + added)
  }

  /** The growing string with `added` at its end becomes the newest object, at `value`; the next one
      is empty. */
  ghost predicate Pushes(a: Stack, added: seq<byte>, value: int, b: Stack) {
    b == Stack(a.objs + [Object(value, a.growing + added)], [])
  }

  /** What each call does to the abstract stack, `mem` being memory before the call and `value` the
      address it returns. Blanks add bytes of no value in particular. */
  ghost predicate AbstractStep(a: Stack, op: Op, mem: Memory, value: int, b: Stack) {
    match op
    case OpMakeRoom(_) => b == a
    case OpGrow(src, n) => Mapped(mem, src, n) && Grows(a, Read(mem, src, n), b)
    case OpGrow0(src, n) => Mapped(mem, src, n) && Grows(a, Read(mem, src, n) + [0], b)
    case OpGrow1(datum) => Grows(a, [datum], b)
    case OpPtrGrow(p) => Grows(a, Encode(p, POINTER_SIZE), b)
    case OpIntGrow(k) => Grows(a, Encode(k % INTS, INT_SIZE), b)
    case OpBlank(n) => exists added :: |added| == n && Grows(a, added, b)
    case OpFinish => Pushes(a, [], value, b)
    case OpAlloc(n) => exists added :: |added| == n && Pushes(a, added, value, b)
    case OpCopy(src, n) => Mapped(mem, src, n) && Pushes(a, Read(mem, src, n), value, b)
    case OpCopy0(src, n) => Mapped(mem, src, n) && Pushes(a, Read(mem, src, n) + [0], value, b)
    case OpFree(x) => exists i :: 0 <= i < |a.objs| && a.objs[i].addr == x && b == Stack(a.objs[..i], [])
  }

  lemma StepIsAbstract(cfg: Config, e: Event)
    requires Inv(cfg) && Ready(cfg, e) && e.Use?
    ensures AbstractStep(Abstract(cfg), e.op, cfg.s.mem, Returned(cfg.s, e.op, e.grant), Abstract(Step(cfg, e)))
  {
    var a, b := Abstract(cfg), Abstract(Step(cfg, e));
    if e.op.OpFree? {
      assert cfg.objs[e.cut].addr == e.op.x;
    } else {
      var added := Added(cfg.s, e.op, e.grant);
      assert Stored(cfg.s.mem, e.op) + [] == Stored(cfg.s.mem, e.op);
      assert cfg.growing + [] == cfg.growing;
      assert Grows(a, added, b) || Pushes(a, added, Grown(cfg.s, e.op, e.grant).objectBase, b);
    }
  }

  /** Every use of a macro refines its step of the abstract stack, and afterwards memory holds what the
      stack says: each finished string at its address, the one just finished at the address the call
      returns, and the growing one at `object_base`. */
  lemma StepRefines(cfg: Config, e: Event)
    requires Inv(cfg) && Ready(cfg, e) && e.Use?
    ensures var r := Step(cfg, e);
            && AbstractStep(Abstract(cfg), e.op, cfg.s.mem, Returned(cfg.s, e.op, e.grant), Abstract(r))
            && (forall i :: 0 <= i < |r.objs| ==> Holds(r.s.mem, r.objs[i].addr, r.objs[i].bytes))
            && Sound(r.s) && Growing(r.s) == r.growing
  {
    var r := Step(cfg, e);
    StepIsAbstract(cfg, e);
    forall i | 0 <= i < |r.objs|
      ensures Holds(r.s.mem, r.objs[i].addr, r.objs[i].bytes)
    {
      LaidObject(r.s.chunk, r.s.objectBase, r.s.mask, r.objs, r.s.mem, i);
    }
  }

  // ----- finished objects stay -----

  /** The event does not free the `k`th object or one below it. */
  predicate FreesOnlyAbove(e: Event, k: nat) {
    e.Use? && e.op.OpFree? ==> e.cut > k
  }

  /** No step of the run frees the `k`th object or one below it. Anything else goes. */
  ghost predicate Spares(run: seq<Event>, k: nat) {
    forall t :: 0 <= t < |run| ==> FreesOnlyAbove(run[t], k)
  }

  /** The client does not store into the `i`th object. */
  ghost predicate NeverFills(run: seq<Event>, i: nat) {
    forall t :: 0 <= t < |run| && run[t].Fill? ==> run[t].i != i
  }

  /** The `i`th object of `a` is still live in `b`, at its address, as long as it was and in its chunk. */
  ghost predicate InPlace(a: Config, b: Config, i: nat) {
    && i < |a.objs| && i < |b.objs|
    && b.objs[i].addr == a.objs[i].addr
    && |b.objs[i].bytes| == |a.objs[i].bytes|
    && Find(b.s.chunk, a.objs[i].addr) == Find(a.s.chunk, a.objs[i].addr)
  }

  lemma FreeInPlace(cfg: Config, e: Event, i: nat)
    requires Inv(cfg) && Ready(cfg, e) && e.Use? && e.op.OpFree? && i < e.cut
    ensures InPlace(cfg, Step(cfg, e), i) && Step(cfg, e).objs[i] == cfg.objs[i]
  {
    FreeKeeps(cfg.s, cfg.objs, cfg.growing, e.cut);
    OwnerOrder(cfg.s.chunk, cfg.s.objectBase, cfg.s.mask, cfg.objs, cfg.s.mem, i, e.cut);
  }

  lemma GrowthInPlace(cfg: Config, e: Event, i: nat)
    requires Inv(cfg) && Ready(cfg, e) && e.Use? && !e.op.OpFree? && i < |cfg.objs|
    ensures InPlace(cfg, Step(cfg, e), i) && Step(cfg, e).objs[i] == cfg.objs[i]
  {
    GrownKeeps(cfg.s, e.op, e.grant, cfg.objs, cfg.growing);
  }

  lemma StepInPlace(cfg: Config, e: Event, i: nat)
    requires Inv(cfg) && Ready(cfg, e) && i < |cfg.objs| && FreesOnlyAbove(e, i)
    ensures InPlace(cfg, Step(cfg, e), i)
    ensures (e.Fill? && e.i == i) || Step(cfg, e).objs[i] == cfg.objs[i]
  {
    if e.Use? {
      if e.op.OpFree? { FreeInPlace(cfg, e, i); } else { GrowthInPlace(cfg, e, i); }
    }
  }

  lemma {:induction false} ObjectStays(cfg: Config, run: seq<Event>, i: nat)
    requires Inv(cfg) && ValidRun(cfg, run) && i < |cfg.objs| && Spares(run, i)
    ensures InPlace(cfg, Run(cfg, run), i)
    ensures NeverFills(run, i) ==> Run(cfg, run).objs[i] == cfg.objs[i]
    decreases |run|
  {
    if run == [] {
    } else {
      StepInPlace(cfg, run[0], i);
      ObjectStays(Step(cfg, run[0]), run[1..], i);
    }
  }

  lemma AllStay(cfg: Config, run: seq<Event>, k: nat)
    requires Inv(cfg) && ValidRun(cfg, run) && k < |cfg.objs| && Spares(run, k)
    ensures var r := Run(cfg, run);
            forall i :: 0 <= i <= k ==> InPlace(cfg, r, i) && (NeverFills(run, i) ==> r.objs[i] == cfg.objs[i])
  {
    forall i | 0 <= i <= k
      ensures InPlace(cfg, Run(cfg, run), i)
      ensures NeverFills(run, i) ==> Run(cfg, run).objs[i] == cfg.objs[i]
    {
      ObjectStays(cfg, run, i);
    }
  }

  /** A finished object that is not freed never changes address, size or chunk, nor does any object
      below it, whatever the client does in the meantime; and memory at its address holds the bytes it
      was finished with, unless the client has stored others there itself. */
  lemma FinishedStays(cfg: Config, run: seq<Event>, k: nat)
    requires Inv(cfg) && ValidRun(cfg, run) && k < |cfg.objs| && Spares(run, k)
    ensures var r := Run(cfg, run);
            forall i :: 0 <= i <= k ==>
              && InPlace(cfg, r, i)
              && Holds(r.s.mem, cfg.objs[i].addr, r.objs[i].bytes)
              && (NeverFills(run, i) ==> r.objs[i].bytes == cfg.objs[i].bytes)
  {
    var r := Run(cfg, run);
    AllStay(cfg, run, k);
    forall i | 0 <= i <= k
      ensures Holds(r.s.mem, cfg.objs[i].addr, r.objs[i].bytes)
    {
      assert InPlace(cfg, r, i);
      LaidObject(r.s.chunk, r.s.objectBase, r.s.mask, r.objs, r.s.mem, i);
    }
  }

  /** The event that frees the `k`th object of `cfg`. */
  ghost function Freeing(cfg: Config, k: nat, g: Grant): Event
    requires k < |cfg.objs|
  {
    Use(OpFree(cfg.objs[k].addr), g, k)
  }

  /** `after` is `before` cut back to the objects below the `k`th, with an empty object growing where
      that one was, in its chunk. */
  ghost predicate CutBack(before: Config, k: nat, after: Config) {
    && k < |before.objs|
    && after.objs == before.objs[..k]
    && after.growing == []
    && after.s.chunk == Find(before.s.chunk, before.objs[k].addr)
    && after.s.objectBase == after.s.nextFree == before.objs[k].addr
    && Outside(after.s) == Outside(before.s)
  }

  lemma FreeingCutsBack(cfg: Config, before: Config, k: nat, g: Grant)
    requires Inv(before) && k < |cfg.objs| && forall i :: 0 <= i <= k ==> InPlace(cfg, before, i)
    ensures Ready(before, Freeing(cfg, k, g)) && CutBack(before, k, Step(before, Freeing(cfg, k, g)))
    ensures forall i :: 0 <= i < k ==> InPlace(cfg, Step(before, Freeing(cfg, k, g)), i)
  {
    assert InPlace(cfg, before, k);
    FreeKeeps(before.s, before.objs, before.growing, k);
    forall i | 0 <= i < k
      ensures InPlace(cfg, Step(before, Freeing(cfg, k, g)), i)
    {
      assert InPlace(cfg, before, i);
      FreeInPlace(before, Freeing(cfg, k, g), i);
    }
  }

  /** Unwinding. However long a run has been going since the `k`th object was finished, and whatever
      the client has stored where, freeing it brings back the stack below it in its place, with an
      empty object growing at its address in the chunk that held it; every newer chunk has been given
      back and the client's memory is untouched. */
  lemma UnwindRestores(cfg: Config, run: seq<Event>, k: nat, g: Grant)
    requires Inv(cfg) && ValidRun(cfg, run) && k < |cfg.objs| && Spares(run, k)
    ensures var before := Run(cfg, run);
            && Ready(before, Freeing(cfg, k, g))
            && var after := Step(before, Freeing(cfg, k, g));
            && CutBack(before, k, after)
            && after.s.chunk == Find(cfg.s.chunk, cfg.objs[k].addr)
            && after.s.objectBase == after.s.nextFree == cfg.objs[k].addr
            && forall i :: 0 <= i < k ==>
                 InPlace(cfg, after, i) && (NeverFills(run, i) ==> after.objs[i] == cfg.objs[i])
  {
    var before := Run(cfg, run);
    AllStay(cfg, run, k);
    FreeingCutsBack(cfg, before, k, g);
    assert InPlace(cfg, before, k);
    forall i | 0 <= i < k
      ensures NeverFills(run, i) ==> before.objs[i] == cfg.objs[i]
    {
      assert InPlace(cfg, before, i);
    }
  }

  lemma FinishingStep(cfg: Config, e: Event)
    requires Inv(cfg) && Ready(cfg, e) && e.Use? && Finishes(e.op)
    ensures var r := Step(cfg, e);
            && |r.objs| == |cfg.objs| + 1
            && Find(r.s.chunk, Last(r.objs).addr) == r.s.chunk
            && forall i :: 0 <= i < |cfg.objs| ==> InPlace(cfg, r, i) && r.objs[i] == cfg.objs[i]
  {
    var grown := Grown(cfg.s, e.op, e.grant);
    PtrAlignFacts(grown.chunk.addr, grown.chunk.addr + HEADER, grown.mask);
    forall i | 0 <= i < |cfg.objs|
      ensures InPlace(cfg, Step(cfg, e), i) && Step(cfg, e).objs[i] == cfg.objs[i]
    {
      GrowthInPlace(cfg, e, i);
    }
  }

  /** In particular, finish an object, do anything but free below it, free it: the objects are those
      there were when it was begun, in place and with their bytes but for what the client stored, and
      the chunk in which it was finished is current again. */
  lemma FinishThenFree(cfg: Config, e: Event, run: seq<Event>, g: Grant)
    requires Inv(cfg) && Ready(cfg, e) && e.Use? && Finishes(e.op)
    requires ValidRun(Step(cfg, e), run) && Spares(run, |cfg.objs|)
    ensures var finished := Step(cfg, e);
            var before := Run(finished, run);
            && |cfg.objs| < |finished.objs|
            && Ready(before, Freeing(finished, |cfg.objs|, g))
            && var after := Step(before, Freeing(finished, |cfg.objs|, g));
            && |after.objs| == |cfg.objs|
            && (forall i :: 0 <= i < |cfg.objs| ==>
                  InPlace(cfg, after, i) && (NeverFills(run, i) ==> after.objs[i] == cfg.objs[i]))
            && after.growing == []
            && after.s.chunk == finished.s.chunk
            && after.s.objectBase == after.s.nextFree == Last(finished.objs).addr
  {
    FinishingStep(cfg, e);
    UnwindRestores(Step(cfg, e), run, |cfg.objs|, g);
  }
}
