/** Walking an argz vector (chapter03/share/argz.h): strings laid end to end, each closed by a NUL. */
module Argz {

  type byte = x: int | 0 <= x < 256

  /** A cursor: the null pointer or an offset from the start of the vector. */
  datatype Ptr = Null | At(offset: nat)

  // ----- argz vectors as values -----

  predicate NulFree(s: seq<byte>) {
    forall k :: 0 <= k < |s| ==> s[k] != 0
  }

  predicate AllNulFree(strings: seq<seq<byte>>) {
    forall i :: 0 <= i < |strings| ==> NulFree(strings[i])
  }

  /** The vector of a list of strings. */
  function Encode(strings: seq<seq<byte>>): seq<byte> {
    if strings == [] then [] else strings[0] + [0] + Encode(strings[1..])
  }

  /** A vector is empty or closed by a NUL. */
  predicate Terminated(v: seq<byte>) {
    v == [] || v[|v| - 1] == 0
  }

  /** The offset of the first NUL at or after `i`, as `strchr` finds it. */
  function NulAt(v: seq<byte>, i: nat): (j: nat)
    requires i < |v| && Terminated(v)
    ensures i <= j < |v| && v[j] == 0
    ensures forall k :: i <= k < j ==> v[k] != 0
    decreases |v| - i
  {
    if v[i] == 0 then i else NulAt(v, i + 1)
  }

  /** The C string at offset `i`. */
  function StringAt(v: seq<byte>, i: nat): seq<byte>
    requires i < |v| && Terminated(v)
  {
    v[i..NulAt(v, i)]
  }

  /** The offsets at or after `i` at which strings begin, one after each NUL. */
  function Starts(v: seq<byte>, i: nat): seq<nat>
    requires Terminated(v)
    decreases |v| - i
  {
    if i >= |v| then [] else [i] + Starts(v, NulAt(v, i) + 1)
  }

  function Nuls(v: seq<byte>): nat {
    if v == [] then 0 else (if v[0] == 0 then 1 else 0) + Nuls(v[1..])
  }

  // ----- the code -----

  /** `strchr (entry, '\0')` */
  method StrchrNul(buf: array<byte>, ghost len: nat, entry: nat) returns (j: nat)
    requires entry < len <= buf.Length && Terminated(buf[..len])
    ensures j == NulAt(buf[..len], entry)
  {
    j := entry;
    ghost var v := buf[..len];
    while buf[j] != 0
      invariant entry <= j < len && NulAt(v, entry) == NulAt(v, j)
      decreases len - j
    {
      j := j + 1;
    }
  }

  /** Where the cursor goes: past the next NUL, or to null at the end of the vector. */
  function Next(v: seq<byte>, entry: Ptr): Ptr
    requires Terminated(v)
  {
    var i :=
      if entry.Null? then 0
      else if entry.offset < |v| then NulAt(v, entry.offset) + 1
      else entry.offset;
    if i < |v| then At(i) else Null
  }

  /** `__argz_next`: the cursor after `entry`, or null when there are no more; the first one when
      `entry` is null. A cursor may point anywhere into the vector, or past it. */
  method ArgzNext(argz: array?<byte>, len: nat, entry: Ptr) returns (next: Ptr)
    requires argz == null ==> len == 0 && entry.Null?
    requires argz != null ==> len <= argz.Length && Terminated(argz[..len])
    ensures argz == null ==> next.Null?
    ensures argz != null ==> next == Next(argz[..len], entry)
  {
    var cursor := entry;
    if cursor.At? {
      if cursor.offset < len {
        var j := StrchrNul(argz, len, cursor.offset);
        cursor := At(j + 1);
      }
      next := if cursor.offset >= len then Null else cursor;
    } else {
      next := if len > 0 then At(0) else Null;
    }
  }

  /** A string begins at `j`. */
  predicate IsStart(v: seq<byte>, j: nat) {
    j < |v| && (j == 0 || v[j - 1] == 0)
  }

  /** The cursor after `entry` is the next place at which a string begins, wherever in the vector or past
      it `entry` points; the first such place if it is null; and null if there is none. */
  lemma NextIsNextStart(v: seq<byte>, entry: Ptr)
    requires Terminated(v)
    ensures var next := Next(v, entry);
            && (next.At? ==> IsStart(v, next.offset) && (entry.At? ==> entry.offset < next.offset))
            && forall j :: IsStart(v, j) && (entry.At? ==> entry.offset < j) ==> next.At? && next.offset <= j
  {
    var next := Next(v, entry);
    forall j: nat | IsStart(v, j) && (entry.At? ==> entry.offset < j)
      ensures next.At? && next.offset <= j
    {
      if entry.At? {
        assert NulAt(v, entry.offset) <= j - 1;
      }
    }
  }

  /** The cursors still to be visited from `entry` on. */
  ghost function Rest(v: seq<byte>, entry: Ptr): seq<nat>
    requires Terminated(v)
  {
    if entry.Null? then [] else Starts(v, entry.offset)
  }

  lemma Regroup(a: seq<nat>, b: seq<nat>, c: seq<nat>)
    ensures a + (b + c) == a + b + c
  {
  }

  lemma Advance(v: seq<byte>, visited: seq<nat>, i: nat)
    requires Terminated(v) && i < |v|
    ensures visited + Rest(v, At(i)) == visited + [i] + Rest(v, Next(v, At(i)))
  {
    var rest := Starts(v, NulAt(v, i) + 1);
    assert Rest(v, At(i)) == [i] + rest;
    assert Rest(v, Next(v, At(i))) == rest;
    Regroup(visited, [i], rest);
  }

  /** The first documented loop: start from null and step until null comes back. */
  method WhileLoop(argz: array?<byte>, len: nat) returns (visited: seq<nat>)
    requires argz == null ==> len == 0
    requires argz != null ==> len <= argz.Length && Terminated(argz[..len])
    ensures visited == if argz == null then [] else Starts(argz[..len], 0)
  {
    visited := [];
    var entry := ArgzNext(argz, len, Null);
    ghost var v := if argz == null then [] else argz[..len];
    ghost var all := Starts(v, 0);
    assert all == [] + Rest(v, entry);
    while entry != Null
      invariant entry.At? ==> argz != null && entry.offset < len
      invariant all == visited + Rest(v, entry)
      decreases if entry.At? then len - entry.offset + 1 else 0
    {
      Advance(v, visited, entry.offset);
      visited := visited + [entry.offset];
      entry := ArgzNext(argz, len, entry);
    }
  }

  /** The second: start from the vector itself. */
  method ForLoop(argz: array?<byte>, len: nat) returns (visited: seq<nat>)
    requires argz == null ==> len == 0
    requires argz != null ==> len <= argz.Length && Terminated(argz[..len])
    ensures visited == if argz == null then [] else if len == 0 then [0] else Starts(argz[..len], 0)
  {
    visited := [];
    var entry := if argz == null then Null else At(0);
    ghost var v := if argz == null then [] else argz[..len];
    ghost var all := if argz == null then [] else if len == 0 then [0] else Starts(v, 0);
    while entry != Null
      invariant entry.At? ==> argz != null && (entry.offset < len || (len == 0 && entry == At(0)))
      invariant all == visited + if len == 0 && entry.At? then [0] else Rest(v, entry)
      decreases if entry.At? then len - entry.offset + 1 else 0
    {
      if entry.offset < len {
        Advance(v, visited, entry.offset);
      }
      visited := visited + [entry.offset];
      entry := ArgzNext(argz, len, entry);
    }
  }

  // ----- what the loops visit -----

  lemma {:induction false} EncodeTerminated(strings: seq<seq<byte>>)
    ensures Terminated(Encode(strings))
  {
    if strings == [] {
    } else {
      EncodeTerminated(strings[1..]);
    }
  }

  lemma NulAtUnique(v: seq<byte>, i: nat, j: nat)
    requires i <= j < |v| && Terminated(v) && v[j] == 0
    requires forall k :: i <= k < j ==> v[k] != 0
    ensures NulAt(v, i) == j
  {
    assert NulAt(v, i) >= j;
    assert NulAt(v, i) <= j;
  }

  /** The strings at the visited cursors, from offset `i` on. */
  function Strings(v: seq<byte>, i: nat): seq<seq<byte>>
    requires Terminated(v)
    decreases |v| - i
  {
    if i >= |v| then [] else [StringAt(v, i)] + Strings(v, NulAt(v, i) + 1)
  }

  lemma {:induction false} StringsAtStarts(v: seq<byte>, i: nat)
    requires Terminated(v)
    ensures |Starts(v, i)| == |Strings(v, i)|
    ensures forall k :: 0 <= k < |Starts(v, i)| ==>
              Starts(v, i)[k] < |v| && Strings(v, i)[k] == StringAt(v, Starts(v, i)[k])
    decreases |v| - i
  {
    if i >= |v| {
    } else {
      StringsAtStarts(v, NulAt(v, i) + 1);
    }
  }

  /** What the vector of `strings` looks like behind any prefix. */
  lemma EncodedHead(pre: seq<byte>, strings: seq<seq<byte>>)
    requires strings != []
    ensures var s := strings[0];
            && Encode(strings) == s + [0] + Encode(strings[1..])
            && pre + Encode(strings) == (pre + s + [0]) + Encode(strings[1..])
  {
    var s, rest := strings[0], Encode(strings[1..]);
    assert pre + (s + [0] + rest) == (pre + s + [0]) + rest;
  }

  lemma MiddleOf(v: seq<byte>, pre: seq<byte>, s: seq<byte>, rest: seq<byte>)
    requires v == pre + s + [0] + rest
    ensures |pre| + |s| < |v| && v[|pre| + |s|] == 0
    ensures v[|pre|..|pre| + |s|] == s
  {
  }

  lemma SliceNulFree(v: seq<byte>, i: nat, j: nat)
    requires i <= j <= |v| && NulFree(v[i..j])
    ensures forall k :: i <= k < j ==> v[k] != 0
  {
    forall k | i <= k < j
      ensures v[k] != 0
    {
      assert v[k] == v[i..j][k - i];
    }
  }

  lemma FirstString(v: seq<byte>, i: nat, j: nat)
    requires i <= j < |v| && Terminated(v) && v[j] == 0 && NulFree(v[i..j])
    ensures NulAt(v, i) == j && StringAt(v, i) == v[i..j]
  {
    SliceNulFree(v, i, j);
    NulAtUnique(v, i, j);
  }

  /** From the offset where the vector of `strings` begins, the strings read are `strings`. */
  lemma {:induction false} StringsFrom(v: seq<byte>, pre: seq<byte>, strings: seq<seq<byte>>)
    requires Terminated(v) && v == pre + Encode(strings) && AllNulFree(strings)
    ensures Strings(v, |pre|) == strings
    decreases |strings|
  {
    if strings == [] {
    } else {
      var s := strings[0];
      var pre' := pre + s + [0];
      EncodedHead(pre, strings);
      MiddleOf(v, pre, s, Encode(strings[1..]));
      FirstString(v, |pre|, |pre| + |s|);
      StringsFrom(v, pre', strings[1..]);
      assert strings == [s] + strings[1..];
    }
  }

  /** Decoding undoes encoding. */
  lemma DecodeEncode(strings: seq<seq<byte>>)
    requires AllNulFree(strings)
    ensures Terminated(Encode(strings)) && Strings(Encode(strings), 0) == strings
  {
    EncodeTerminated(strings);
    assert Encode(strings) == [] + Encode(strings);
    StringsFrom(Encode(strings), [], strings);
  }

  lemma SplitAtNul(v: seq<byte>, i: nat, j: nat)
    requires i <= j < |v| && v[j] == 0
    ensures v[i..] == v[i..j] + [0] + v[j + 1..]
  {
  }

  lemma EncodeCons(s: seq<byte>, tail: seq<seq<byte>>)
    ensures Encode([s] + tail) == s + [0] + Encode(tail)
  {
    assert ([s] + tail)[1..] == tail;
  }

  lemma ConsNulFree(s: seq<byte>, tail: seq<seq<byte>>)
    requires NulFree(s) && AllNulFree(tail)
    ensures AllNulFree([s] + tail)
  {
  }

  lemma StringNulFree(v: seq<byte>, i: nat)
    requires i < |v| && Terminated(v)
    ensures NulFree(StringAt(v, i))
  {
  }

  lemma {:induction false} StringsNulFree(v: seq<byte>, i: nat)
    requires Terminated(v)
    ensures AllNulFree(Strings(v, i))
    decreases |v| - i
  {
    if i >= |v| {
    } else {
      StringsNulFree(v, NulAt(v, i) + 1);
      StringNulFree(v, i);
      ConsNulFree(StringAt(v, i), Strings(v, NulAt(v, i) + 1));
    }
  }

  lemma {:induction false} EncodeStrings(v: seq<byte>, i: nat)
    requires Terminated(v) && i <= |v|
    ensures Encode(Strings(v, i)) == v[i..]
    decreases |v| - i
  {
    if i == |v| {
    } else {
      var j := NulAt(v, i);
      EncodeStrings(v, j + 1);
      EncodeCons(StringAt(v, i), Strings(v, j + 1));
      SplitAtNul(v, i, j);
    }
  }

  /** Encoding undoes decoding: every vector closed by a NUL is the vector of its strings. */
  lemma EncodeDecode(v: seq<byte>)
    requires Terminated(v)
    ensures AllNulFree(Strings(v, 0)) && Encode(Strings(v, 0)) == v
  {
    StringsNulFree(v, 0);
    EncodeStrings(v, 0);
    assert v[0..] == v;
  }

  lemma {:induction false} NulsOfEncode(strings: seq<seq<byte>>)
    requires AllNulFree(strings)
    ensures Nuls(Encode(strings)) == |strings|
  {
    if strings == [] {
    } else {
      NulsOfEncode(strings[1..]);
      NulsConcat(strings[0], [0] + Encode(strings[1..]));
      assert strings[0] + ([0] + Encode(strings[1..])) == Encode(strings);
      NoNuls(strings[0]);
    }
  }

  lemma {:induction false} NulsConcat(a: seq<byte>, b: seq<byte>)
    ensures Nuls(a + b) == Nuls(a) + Nuls(b)
  {
    if a == [] {
      assert a + b == b;
    } else {
      assert (a + b)[1..] == a[1..] + b;
      NulsConcat(a[1..], b);
    }
  }

  lemma {:induction false} NoNuls(s: seq<byte>)
    requires NulFree(s)
    ensures Nuls(s) == 0
  {
    if s == [] {
    } else {
      NoNuls(s[1..]);
    }
  }

  /** Walking the vector of a list visits exactly its strings, in order, as many as it has NULs. */
  lemma VisitsExactly(strings: seq<seq<byte>>)
    requires AllNulFree(strings)
    ensures var v := Encode(strings);
            && Terminated(v)
            && |Starts(v, 0)| == |strings| == Nuls(v)
            && forall k :: 0 <= k < |strings| ==> Starts(v, 0)[k] < |v| && StringAt(v, Starts(v, 0)[k]) == strings[k]
  {
    DecodeEncode(strings);
    StringsAtStarts(Encode(strings), 0);
    NulsOfEncode(strings);
  }

  /** Both loops over the vector of a list, the null pointer standing for the empty list. */
  method BothLoops(argz: array?<byte>, len: nat, ghost strings: seq<seq<byte>>)
    returns (first: seq<nat>, second: seq<nat>)
    requires AllNulFree(strings)
    requires argz == null <==> strings == []
    requires argz == null ==> len == 0
    requires argz != null ==> len <= argz.Length && argz[..len] == Encode(strings)
    ensures first == second && |first| == |strings|
    ensures forall k :: 0 <= k < |strings| ==>
              && first[k] < len && Terminated(argz[..len])
              && StringAt(argz[..len], first[k]) == strings[k]
  {
    VisitsExactly(strings);
    first := WhileLoop(argz, len);
    second := ForLoop(argz, len);
  }

  /** The loops agree unless an empty vector is given by a pointer that is not null: the second then
      visits one entry that is not there. */
  method LoopsAgree(argz: array?<byte>, len: nat) returns (first: seq<nat>, second: seq<nat>)
    requires argz == null ==> len == 0
    requires argz != null ==> len <= argz.Length && Terminated(argz[..len])
    ensures first == second <==> argz == null || len > 0
    ensures argz != null ==> first == Starts(argz[..len], 0)
    ensures argz != null && len == 0 ==> first == [] && second == [0]
  {
    first := WhileLoop(argz, len);
    second := ForLoop(argz, len);
  }
}
