/** The unchecked `*_fast` growths refine the checked ones once room has been made. */
module ObstackFast {
  import opened Align
  import opened ObstackModel
  import opened ObstackProofs
  import opened ObstackRuns
  import opened ObstackCalls

  /** A use of `obstack_1grow_fast`, `obstack_ptr_grow_fast`, `obstack_int_grow_fast` or
      `obstack_blank_fast`. */
  datatype Fast = Fast1Grow(datum: byte) | FastPtrGrow(p: nat) | FastIntGrow(k: int) | FastBlank(n: nat)

  /** The macro that makes the same growth after testing for room. */
  function Checked(f: Fast): Op {
    match f
    case Fast1Grow(datum) => OpGrow1(datum)
    case FastPtrGrow(p) => OpPtrGrow(p)
    case FastIntGrow(k) => OpIntGrow(k)
    case FastBlank(n) => OpBlank(n)
  }

  function Size(f: Fast): nat {
    Need(Checked(f))
  }

  function Total(fs: seq<Fast>): nat {
    if fs == [] then 0 else Size(fs[0]) + Total(fs[1..])
  }

  /** A byte of the object to be built: a stored one, or one of a blank, whose value is unspecified. */
  datatype Cell = Byte(value: byte) | Blank

  ghost function CellsOf(f: Fast): (r: seq<Cell>)
    ensures |r| == Size(f)
  {
    if f.FastBlank? then seq(f.n, _ => Blank)
    else
      var data := Stored(map[], Checked(f));
      seq(|data|, i requires 0 <= i < |data| => Byte(data[i]))
  }

  /** What a list of growths adds to the object. */
  ghost function Cells(fs: seq<Fast>): (r: seq<Cell>)
    ensures |r| == Total(fs)
  {
    if fs == [] then [] else CellsOf(fs[0]) + Cells(fs[1..])
  }

  /** `built` is `growing` with bytes for the cells after it. */
  ghost predicate Fills(built: seq<byte>, growing: seq<byte>, cells: seq<Cell>) {
    && growing <= built
    && |built| == |growing| + |cells|
    && forall i :: 0 <= i < |cells| && cells[i].Byte? ==> built[|growing| + i] == cells[i].value
  }

  /** What the fast macro does: it moves `next_free` without looking at `chunk_limit`. */
  ghost function FastStep(s: State, f: Fast): (r: State)
    requires Sound(s) && s.nextFree + Size(f) <= s.chunkLimit
    ensures Sound(r)
  {
    if f.FastBlank? then Skip(s, f.n) else Append(s, Stored(s.mem, Checked(f)))
  }

  ghost function FastRun(s: State, fs: seq<Fast>): (r: State)
    requires Sound(s) && s.nextFree + Total(fs) <= s.chunkLimit
    ensures Sound(r)
    decreases |fs|
  {
    if fs == [] then s else FastRun(FastStep(s, fs[0]), fs[1..])
  }

  ghost predicate CheckedOk(s: State, fs: seq<Fast>, gs: seq<Grant>)
    requires Sound(s)
    decreases |fs|
  {
    && |gs| == |fs|
    && (fs == [] ||
        (CallOk(s, Checked(fs[0]), gs[0]) && CheckedOk(Exec(s, Checked(fs[0]), gs[0]), fs[1..], gs[1..])))
  }

  ghost function CheckedRun(s: State, fs: seq<Fast>, gs: seq<Grant>): (r: State)
    requires Sound(s) && CheckedOk(s, fs, gs)
    ensures Sound(r)
    decreases |fs|
  {
    if fs == [] then s else CheckedRun(Exec(s, Checked(fs[0]), gs[0]), fs[1..], gs[1..])
  }

  lemma FastStepIsChecked(s: State, f: Fast, g: Grant)
    requires Sound(s) && s.nextFree + Size(f) <= s.chunkLimit
    ensures CallOk(s, Checked(f), g) && Exec(s, Checked(f), g) == FastStep(s, f)
    ensures var r := FastStep(s, f);
            && r.chunk == s.chunk
            && r.objectBase == s.objectBase
            && r.nextFree == s.nextFree + Size(f)
            && r.chunkLimit == s.chunkLimit
  {
    assert Stored(s.mem, Checked(f)) == Stored(map[], Checked(f));
  }

  /** With room for all of them, unchecked growths do what checked ones would, whatever `chunkfun`
      might have offered; the object stays where it is and nothing passes the limit. */
  lemma {:induction false} FastIsChecked(s: State, fs: seq<Fast>, gs: seq<Grant>)
    requires Sound(s) && s.nextFree + Total(fs) <= s.chunkLimit && |gs| == |fs|
    ensures CheckedOk(s, fs, gs) && CheckedRun(s, fs, gs) == FastRun(s, fs)
    ensures var r := FastRun(s, fs);
            && r.chunk == s.chunk
            && r.objectBase == s.objectBase
            && r.nextFree == s.nextFree + Total(fs) <= r.chunkLimit == s.chunkLimit
    decreases |fs|
  {
    if fs == [] {
    } else {
      FastStepIsChecked(s, fs[0], gs[0]);
      FastIsChecked(FastStep(s, fs[0]), fs[1..], gs[1..]);
    }
  }

  lemma AddedBytes(s: State, f: Fast, g: Grant)
    requires Sound(s) && CallOk(s, Checked(f), g)
    ensures var added := Added(s, Checked(f), g);
            |added| == Size(f) && (!f.FastBlank? ==> added == Stored(map[], Checked(f)))
  {
  }

  lemma FillsFirst(growing: seq<byte>, added: seq<byte>, f: Fast)
    requires |added| == Size(f) && (!f.FastBlank? ==> added == Stored(map[], Checked(f)))
    ensures Fills(growing + added, growing, CellsOf(f))
  {
  }

  lemma CheckedStepBuilds(s: State, f: Fast, g: Grant, objs: seq<Object>, growing: seq<byte>) returns (added: seq<byte>)
    requires Represents(s, objs, growing) && CallOk(s, Checked(f), g)
    ensures Represents(Exec(s, Checked(f), g), objs, growing + added)
    ensures Fills(growing + added, growing, CellsOf(f))
  {
    added := Added(s, Checked(f), g);
    GrownKeeps(s, Checked(f), g, objs, growing);
    AddedBytes(s, f, g);
    FillsFirst(growing, added, f);
  }

  lemma FillsFurther(built: seq<byte>, growing: seq<byte>, added: seq<byte>, first: seq<Cell>, rest: seq<Cell>)
    requires Fills(growing + added, growing, first) && Fills(built, growing + added, rest)
    ensures Fills(built, growing, first + rest)
  {
    forall i | 0 <= i < |first + rest| && (first + rest)[i].Byte?
      ensures built[|growing| + i] == (first + rest)[i].value
    {
      if i < |first| {
        assert built[|growing| + i] == (growing + added)[|growing| + i];
      }
    }
  }

  /** Checked growths build the object their list says wherever they move it. */
  lemma {:induction false} CheckedBuilds(s: State, fs: seq<Fast>, gs: seq<Grant>, objs: seq<Object>,
                                         growing: seq<byte>) returns (built: seq<byte>)
    requires Represents(s, objs, growing) && CheckedOk(s, fs, gs)
    ensures Represents(CheckedRun(s, fs, gs), objs, built) && Fills(built, growing, Cells(fs))
    decreases |fs|
  {
    if fs == [] {
      built := growing;
    } else {
      var added := CheckedStepBuilds(s, fs[0], gs[0], objs, growing);
      built := CheckedBuilds(Exec(s, Checked(fs[0]), gs[0]), fs[1..], gs[1..], objs, growing + added);
      FillsFurther(built, growing, added, CellsOf(fs[0]), Cells(fs[1..]));
    }
  }

  /** After `obstack_make_room (h, n)`, fast growths of at most `n` bytes in all stay inside the
      chunk, never move the object, and are the same as checked growths from there. */
  lemma FastAfterMakeRoom(s: State, n: nat, g: Grant, fs: seq<Fast>, gs: seq<Grant>, objs: seq<Object>,
                          growing: seq<byte>) returns (built: seq<byte>)
    requires Represents(s, objs, growing) && CallOk(s, OpMakeRoom(n), g) && Total(fs) <= n && |gs| == |fs|
    ensures var r := Exec(s, OpMakeRoom(n), g);
            && Sound(r) && r.nextFree + Total(fs) <= r.chunkLimit
            && var f := FastRun(r, fs);
            && f.chunk == r.chunk
            && f.objectBase == r.objectBase
            && f.nextFree == r.nextFree + Total(fs) <= f.chunkLimit
            && CheckedOk(r, fs, gs) && f == CheckedRun(r, fs, gs)
            && Represents(f, objs, built) && Fills(built, growing, Cells(fs))
  {
    var r := Exec(s, OpMakeRoom(n), g);
    RoomIsMade(s, n, g, objs, growing);
    FastIsChecked(r, fs, gs);
    built := CheckedBuilds(r, fs, gs, objs, growing);
  }

  /** They build the object that checked growths build without making room first, whatever chunks
      those allocate: as long, and equal but for the bytes of blanks. */
  lemma FastBuildsSame(s: State, n: nat, g: Grant, fs: seq<Fast>, hs: seq<Grant>, objs: seq<Object>, growing: seq<byte>)
    requires Represents(s, objs, growing) && CallOk(s, OpMakeRoom(n), g) && Total(fs) <= n && CheckedOk(s, fs, hs)
    ensures var r := Exec(s, OpMakeRoom(n), g);
            && Sound(r) && r.nextFree + Total(fs) <= r.chunkLimit
            && var a, b := Growing(FastRun(r, fs)), Growing(CheckedRun(s, fs, hs));
            && |a| == |b| == |growing| + Total(fs)
            && a[..|growing|] == b[..|growing|] == growing
            && forall i :: 0 <= i < Total(fs) && Cells(fs)[i].Byte? ==>
                 a[|growing| + i] == b[|growing| + i] == Cells(fs)[i].value
  {
    var a := FastAfterMakeRoom(s, n, g, fs, hs, objs, growing);
    var b := CheckedBuilds(s, fs, hs, objs, growing);
  }

  // ----- words -----

  /** Reading back a stored word gives its value, up to the size of the word. */
  lemma {:induction false} DecodeEncode(v: nat, n: nat)
    ensures Decode(Encode(v, n)) == v % Power256(n)
    decreases n
  {
    if n == 0 {
    } else {
      DecodeEncode(v / 256, n - 1);
      var m := Power256(n - 1);
      var q, t := (v / 256) / m, (v / 256) % m;
      assert v / 256 == Times(m, q) + t;
      assert v == Times(256 * m, q) + (256 * t + v % 256);
      DivModUnique(v, 256 * m, q, 256 * t + v % 256);
    }
  }

  function Power256(n: nat): (r: nat)
    ensures r > 0
  {
    if n == 0 then 1 else 256 * Power256(n - 1)
  }

  lemma PowerValues()
    ensures Power256(INT_SIZE) == INTS && Power256(POINTER_SIZE) == POINTERS
  {
    assert Power256(1) == 0x100;
    assert Power256(2) == 0x1_0000;
    assert Power256(3) == 0x100_0000;
    assert Power256(4) == 0x1_0000_0000;
    assert Power256(5) == 0x100_0000_0000;
    assert Power256(6) == 0x1_0000_0000_0000;
    assert Power256(7) == 0x100_0000_0000_0000;
  }

  /** A pointer stored by `obstack_ptr_grow` reads back as itself. */
  lemma PointerReadsBack(p: nat)
    requires p < POINTERS
    ensures Decode(Encode(p, POINTER_SIZE)) == p
  {
    PowerValues();
    DecodeEncode(p, POINTER_SIZE);
  }

  /** An int stored by `obstack_int_grow` reads back as itself, sign and all. */
  lemma IntReadsBack(k: int)
    requires -0x8000_0000 <= k < 0x8000_0000
    ensures var v := Decode(EncodeInt(k));
            k == if v < 0x8000_0000 then v else v - INTS
  {
    var u := k % INTS;
    assert u == if k < 0 then k + INTS else k;
    PowerValues();
    DecodeEncode(u, INT_SIZE);
    assert u % INTS == u;
  }
}
