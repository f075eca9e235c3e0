/** The object stack of chapter03/share/obstack.h as values: memory, the chunk chain, the control
    block, and what each macro does to them.

    Addresses are integers and one memory holds the obstack's chunks beside everything else the
    client has mapped. `objs` and `growing` below are history variables: the objects finished and
    not yet freed, oldest first, and the bytes given to the object under construction. */
module ObstackModel {
  import opened Align

  type byte = x: int | 0 <= x < 256

  /** A mapped address holds a byte. Reading or writing any other address is an error. */
  type Memory = map<int, byte>

  /** Size of the `limit` and `prev` fields in front of a chunk's contents. */
  const HEADER := 16

  /** `struct _obstack_chunk`. Its header is written once, when the chunk is linked in, so the chain
      of `prev` pointers is an inductive list. `limit` is one past the end of the chunk. */
  datatype Chunk = Null | Chunk(addr: int, limit: int, prev: Chunk)

  /** `struct obstack`, with the memory it lives in. */
  datatype State = State(
    chunk: Chunk,
    objectBase: int,
    nextFree: int,
    chunkLimit: int,
    mask: int,
    maybeEmpty: bool,
    mem: Memory)

  /** A finished object: the address `obstack_finish` returned and the bytes it had then. */
  datatype Object = Object(addr: int, bytes: seq<byte>)

  /** A block as `chunkfun` hands it out: where it starts and what it happens to contain. */
  datatype Grant = Grant(addr: int, bytes: seq<byte>)

  // ----- memory -----

  predicate Within(lo: int, x: int, hi: int) {
    lo <= x < hi
  }

  function Interval(lo: int, hi: int): (r: set<int>)
    ensures forall x :: x in r <==> lo <= x < hi
  {
    set x | lo <= x < hi && Within(lo, x, hi)
  }

  predicate Mapped(mem: Memory, a: int, n: int) {
    forall x :: a <= x < a + n ==> x in mem
  }

  function Read(mem: Memory, a: int, n: nat): seq<byte>
    requires Mapped(mem, a, n)
  {
    seq(n, i requires 0 <= i < n => mem[a + i])
  }

  function Write(mem: Memory, a: int, data: seq<byte>): Memory {
    var range := Interval(a, a + |data|);
    mem + map x | x in range :: data[x - a]
  }

  ghost predicate Holds(mem: Memory, a: int, data: seq<byte>) {
    forall x :: a <= x < a + |data| ==> x in mem && mem[x] == data[x - a]
  }

  // ----- chunks -----

  /** `__PTR_ALIGN ((char *) chunk, chunk->contents, mask)` for a chunk at `addr`. */
  function FirstObject(addr: int, mask: int): int {
    PtrAlign(addr, addr + HEADER, mask)
  }

  function Start(c: Chunk, mask: int): int
    requires c.Chunk?
  {
    FirstObject(c.addr, mask)
  }

  function Block(c: Chunk): set<int>
    requires c.Chunk?
  {
    Interval(c.addr, c.limit)
  }

  ghost function Footprint(c: Chunk): set<int> {
    if c.Null? then {} else Block(c) + Footprint(c.prev)
  }

  /** The addresses an object in `c` can have: past the header, up to and including the limit,
      where a zero-length object can lie. */
  predicate Owns(c: Chunk, x: int)
    requires c.Chunk?
  {
    c.addr < x <= c.limit
  }

  /** The newest chunk an address can belong to, with the chunks before it. */
  ghost function Find(c: Chunk, x: int): Chunk {
    if c.Null? || Owns(c, x) then c else Find(c.prev, x)
  }

  ghost predicate Chain(c: Chunk, mask: int) {
    c.Chunk? ==>
      && 0 < c.addr
      && Start(c, mask) <= c.limit
      && Block(c) !! Footprint(c.prev)
      && Chain(c.prev, mask)
  }

  // ----- invariants -----

  /** What holds of the control block whatever objects are live. */
  ghost predicate Sound(s: State) {
    && IsMask(s.mask)
    && s.chunk.Chunk?
    && Chain(s.chunk, s.mask)
    && s.chunkLimit == s.chunk.limit
    && Start(s.chunk, s.mask) <= s.objectBase <= s.nextFree <= s.chunkLimit
    && (Clear(s.objectBase, s.mask) || s.objectBase == s.chunkLimit)
    && Footprint(s.chunk) <= s.mem.Keys
  }

  function Last<T>(s: seq<T>): T
    requires s != []
  {
    s[|s| - 1]
  }

  function Init<T>(s: seq<T>): seq<T>
    requires s != []
  {
    s[..|s| - 1]
  }

  /** The live objects lie in the chain `c`, newest on top: those of the first chunk one above the
      other below `top`, the older ones in the chunks before it. */
  ghost predicate Laid(c: Chunk, top: int, mask: int, objs: seq<Object>, mem: Memory)
    decreases c, |objs|
  {
    if c.Null? then
      objs == []
    else
      && Start(c, mask) <= top <= c.limit
      && if objs != [] && Owns(c, Last(objs).addr) then
           var o := Last(objs);
           && Start(c, mask) <= o.addr
           && o.addr + |o.bytes| <= top
           && Holds(mem, o.addr, o.bytes)
           && (Clear(o.addr, mask) || o.addr == c.limit)
           && Laid(c, o.addr, mask, Init(objs), mem)
         else
           Laid(c.prev, Top(c.prev), mask, objs, mem)
  }

  ghost function Top(c: Chunk): int {
    if c.Null? then 0 else c.limit
  }

  ghost predicate NoEmptyObject(c: Chunk, objs: seq<Object>)
    requires c.Chunk?
  {
    forall i :: 0 <= i < |objs| && Owns(c, objs[i].addr) ==> objs[i].bytes != []
  }

  lemma GrowingMapped(s: State)
    requires Sound(s)
    ensures Mapped(s.mem, s.chunk.addr, s.chunkLimit - s.chunk.addr)
    ensures Mapped(s.mem, s.objectBase, s.nextFree - s.objectBase)
  {
    PtrAlignFacts(s.chunk.addr, s.chunk.addr + HEADER, s.mask);
    assert Block(s.chunk) <= s.mem.Keys;
  }

  /** The bytes of the object under construction. */
  ghost function Growing(s: State): seq<byte>
    requires Sound(s)
  {
    GrowingMapped(s);
    Read(s.mem, s.objectBase, s.nextFree - s.objectBase)
  }

  /** Where the next object of chunk `c` starts, given the objects finished before it. */
  ghost function NextBase(c: Chunk, mask: int, objs: seq<Object>): int
    requires c.Chunk?
  {
    if objs != [] && Owns(c, Last(objs).addr) then
      var o := Last(objs);
      var next := PtrAlign(o.addr, o.addr + |o.bytes|, mask);
      if next > c.limit then c.limit else next
    else
      Start(c, mask)
  }

  ghost predicate Placed(c: Chunk, mask: int, objs: seq<Object>, i: nat)
    requires i < |objs|
  {
    var f := Find(c, objs[i].addr);
    f.Chunk? && objs[i].addr == NextBase(f, mask, objs[..i])
  }

  /** Objects are packed: each starts where the one before it in its chunk ended, aligned up or
      clamped to the chunk's limit, and the first of a chunk at the chunk's start. */
  ghost predicate Packed(c: Chunk, base: int, mask: int, objs: seq<Object>)
    requires c.Chunk?
  {
    && base == NextBase(c, mask, objs)
    && forall i :: 0 <= i < |objs| ==> Placed(c, mask, objs, i)
  }

  /** The obstack `s` holds the finished objects `objs` and is building an object `growing`. */
  ghost predicate Represents(s: State, objs: seq<Object>, growing: seq<byte>) {
    && Sound(s)
    && Laid(s.chunk, s.objectBase, s.mask, objs, s.mem)
    && Packed(s.chunk, s.objectBase, s.mask, objs)
    && (!s.maybeEmpty ==> NoEmptyObject(s.chunk, objs))
    && growing == Growing(s)
  }

  /** Everything mapped that is not part of a chunk: the client's memory. */
  ghost function Outside(s: State): Memory {
    s.mem - Footprint(s.chunk)
  }

  // ----- the operations -----

  /** `_obstack_begin` with a first chunk `g` big enough for its header and alignment. */
  ghost predicate BeginOk(mem: Memory, mask: int, g: Grant) {
    && IsMask(mask)
    && 0 < g.addr
    && (forall x :: g.addr <= x < g.addr + |g.bytes| ==> x !in mem)
    && FirstObject(g.addr, mask) <= g.addr + |g.bytes|
  }

  ghost function Begin(mem: Memory, mask: int, g: Grant): State {
    var base := FirstObject(g.addr, mask);
    var limit := g.addr + |g.bytes|;
    State(Chunk(g.addr, limit, Null), base, base, limit, mask, false, Write(mem, g.addr, g.bytes))
  }

  /** `chunkfun` returned a block of unmapped memory that can take the object with `n` more bytes. */
  ghost predicate GrantOk(s: State, n: nat, g: Grant) {
    && 0 < g.addr
    && (forall x :: g.addr <= x < g.addr + |g.bytes| ==> x !in s.mem)
    && FirstObject(g.addr, s.mask) + (s.nextFree - s.objectBase) + n <= g.addr + |g.bytes|
  }

  /** Whether the old chunk is given back: the growing object was the only thing in it. */
  predicate Replaces(s: State)
    requires s.chunk.Chunk?
  {
    !s.maybeEmpty && s.objectBase == Start(s.chunk, s.mask)
  }

  /** Memory once the new block is mapped and the growing object copied to its start. */
  ghost function Relocated(s: State, g: Grant): (mem: Memory)
    requires Sound(s)
  {
    Write(Write(s.mem, g.addr, g.bytes), FirstObject(g.addr, s.mask), Growing(s))
  }

  /** `_obstack_newchunk`. */
  ghost function NewChunk(s: State, n: nat, g: Grant): (r: State)
    requires Sound(s) && GrantOk(s, n, g)
    ensures Sound(r) && r.nextFree + n <= r.chunkLimit
  {
    PtrAlignFacts(g.addr, g.addr + HEADER, s.mask);
    var size := s.nextFree - s.objectBase;
    var base := FirstObject(g.addr, s.mask);
    var limit := g.addr + |g.bytes|;
    var mem := Relocated(s, g);
    var r := State(
      Chunk(g.addr, limit, if Replaces(s) then s.chunk.prev else s.chunk),
      base, base + size, limit, s.mask, false,
      if Replaces(s) then mem - Block(s.chunk) else mem);
    assert Block(r.chunk) !! Footprint(s.chunk);
    r
  }

  /** No grant is needed when there is room. */
  ghost predicate RoomOk(s: State, n: nat, g: Grant) {
    s.nextFree + n > s.chunkLimit ==> GrantOk(s, n, g)
  }

  /** `obstack_make_room`, and the first half of every checked growth. */
  ghost function MakeRoom(s: State, n: nat, g: Grant): (r: State)
    requires Sound(s) && RoomOk(s, n, g)
    ensures Sound(r) && r.nextFree + n <= r.chunkLimit
  {
    if s.nextFree + n > s.chunkLimit then NewChunk(s, n, g) else s
  }

  /** The second half: store bytes at `next_free` and advance it. */
  ghost function Append(s: State, data: seq<byte>): (r: State)
    requires Sound(s) && s.nextFree + |data| <= s.chunkLimit
    ensures Sound(r)
  {
    s.(mem := Write(s.mem, s.nextFree, data), nextFree := s.nextFree + |data|)
  }

  /** `obstack_blank_fast`: advance without storing. */
  ghost function Skip(s: State, n: nat): (r: State)
    requires Sound(s) && s.nextFree + n <= s.chunkLimit
    ensures Sound(r)
  {
    s.(nextFree := s.nextFree + n)
  }

  /** `obstack_finish`; the object's address is the old `objectBase`. */
  ghost function Finish(s: State): (r: State)
    requires Sound(s)
    ensures Sound(r)
  {
    PtrAlignFacts(s.objectBase, s.nextFree, s.mask);
    var next := PtrAlign(s.objectBase, s.nextFree, s.mask);
    var base := if next > s.chunkLimit then s.chunkLimit else next;
    s.(maybeEmpty := s.maybeEmpty || s.nextFree == s.objectBase, objectBase := base, nextFree := base)
  }

  /** `__obstack_free`: give back every chunk newer than the one `x` belongs to and make that one
      current. `Null` is left when `x` belongs to no chunk. */
  ghost function Unwind(s: State, x: int): State {
    var c := Find(s.chunk, x);
    var mem := s.mem - (Footprint(s.chunk) - Footprint(c));
    var flag := s.maybeEmpty || c != s.chunk;
    if c.Null? then s.(chunk := c, mem := mem, maybeEmpty := flag)
    else State(c, x, x, c.limit, s.mask, flag, mem)
  }

  /** `obstack_free`. */
  ghost function Free(s: State, x: int): State
    requires s.chunk.Chunk?
  {
    if s.chunk.addr < x < s.chunkLimit then s.(objectBase := x, nextFree := x)
    else Unwind(s, x)
  }

  /** `obstack_empty_p`. */
  predicate EmptyP(s: State)
    requires s.chunk.Chunk?
  {
    s.chunk.prev.Null? && s.nextFree == Start(s.chunk, s.mask)
  }

  // ----- values stored by the pointer and int growths -----

  /** The `n` bytes of a machine word, least significant first. */
  function Encode(v: nat, n: nat): (r: seq<byte>)
    ensures |r| == n
  {
    if n == 0 then [] else [(v % 256) as byte] + Encode(v / 256, n - 1)
  }

  function Decode(data: seq<byte>): nat {
    if data == [] then 0 else data[0] + 256 * Decode(data[1..])
  }

  const POINTER_SIZE := 8
  const INT_SIZE := 4
  const POINTERS := 0x1_0000_0000_0000_0000
  const INTS := 0x1_0000_0000

  /** The representation of a C `int` in two's complement. */
  function EncodeInt(k: int): seq<byte> {
    Encode(k % INTS, INT_SIZE)
  }

  // ----- calls -----

  /** A use of one of the macros. `src` is the address `memcpy` copies from. */
  datatype Op =
    | OpMakeRoom(n: nat)
    | OpGrow(src: int, n: nat)
    | OpGrow0(src: int, n: nat)
    | OpGrow1(datum: byte)
    | OpPtrGrow(p: nat)
    | OpIntGrow(k: int)
    | OpBlank(n: nat)
    | OpFinish
    | OpAlloc(n: nat)
    | OpCopy(src: int, n: nat)
    | OpCopy0(src: int, n: nat)
    | OpFree(x: int)

  /** How many bytes the macro makes room for. */
  function Need(op: Op): nat {
    match op
    case OpMakeRoom(n) => n
    case OpGrow(_, n) => n
    case OpGrow0(_, n) => n + 1
    case OpGrow1(_) => 1
    case OpPtrGrow(_) => POINTER_SIZE
    case OpIntGrow(_) => INT_SIZE
    case OpBlank(n) => n
    case OpFinish => 0
    case OpAlloc(n) => n
    case OpCopy(_, n) => n
    case OpCopy0(_, n) => n + 1
    case OpFree(_) => 0
  }

  predicate Copies(op: Op) {
    op.OpGrow? || op.OpGrow0? || op.OpCopy? || op.OpCopy0?
  }

  /** The calls that store a null byte after what they copy. */
  predicate Terminates(op: Op) {
    op.OpGrow0? || op.OpCopy0?
  }

  predicate Finishes(op: Op) {
    op.OpFinish? || op.OpAlloc? || op.OpCopy? || op.OpCopy0?
  }

  /** What `memcpy` asks of its source once room has been made: mapped, and clear of the target. */
  ghost predicate SourceOk(s: State, src: int, n: nat, need: nat, g: Grant)
    requires Sound(s) && RoomOk(s, need, g)
  {
    var r := MakeRoom(s, need, g);
    && Mapped(s.mem, src, n)
    && Mapped(r.mem, src, n)
    && Interval(src, src + n) !! Interval(r.nextFree, r.nextFree + n)
  }

  /** What a call asks of the client and of `chunkfun`. */
  ghost predicate CallOk(s: State, op: Op, g: Grant)
    requires Sound(s)
  {
    && RoomOk(s, Need(op), g)
    && (Copies(op) ==> SourceOk(s, op.src, op.n, Need(op), g))
  }

  /** The bytes stored at `next_free`, but for a terminating null, given memory once room has been made. */
  ghost function Stored(mem: Memory, op: Op): seq<byte>
    requires Copies(op) ==> Mapped(mem, op.src, op.n)
  {
    match op
    case OpGrow(src, n) => Read(mem, src, n)
    case OpGrow0(src, n) => Read(mem, src, n)
    case OpGrow1(datum) => [datum]
    case OpPtrGrow(p) => Encode(p, POINTER_SIZE)
    case OpIntGrow(k) => EncodeInt(k)
    case OpCopy(src, n) => Read(mem, src, n)
    case OpCopy0(src, n) => Read(mem, src, n)
    case _ => []
  }

  /** The state in which a call has finished growing; `objectBase` is then the address returned
      by a call that also finishes the object. */
  ghost function Grown(s: State, op: Op, g: Grant): (r: State)
    requires Sound(s) && CallOk(s, op, g) && !op.OpFree?
    ensures Sound(r)
  {
    var r := MakeRoom(s, Need(op), g);
    if op.OpBlank? || op.OpAlloc? then Skip(r, op.n)
    else if Terminates(op) then Append(Append(r, Stored(r.mem, op)), [0])
    else Append(r, Stored(r.mem, op))
  }

  ghost function Exec(s: State, op: Op, g: Grant): State
    requires Sound(s) && CallOk(s, op, g)
  {
    if op.OpFree? then Free(s, op.x)
    else if Finishes(op) then Finish(Grown(s, op, g))
    else Grown(s, op, g)
  }

  /** The address a call returns, 0 if it returns none. */
  ghost function Returned(s: State, op: Op, g: Grant): int
    requires Sound(s) && CallOk(s, op, g)
  {
    if Finishes(op) then Grown(s, op, g).objectBase else 0
  }
}
