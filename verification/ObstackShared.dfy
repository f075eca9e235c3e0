/** Any number of obstacks over one memory: each is a client's memory to the others. */
module ObstackShared {
  import opened ObstackModel
  import opened ObstackProofs
  import opened ObstackRuns
  import opened ObstackTheorems

  /** Obstacks that share a memory, each with its invariant, and no chunk belonging to two of them. */
  ghost predicate Shared(cs: seq<Config>) {
    && (forall i :: 0 <= i < |cs| ==> Inv(cs[i]))
    && (forall i, j :: 0 <= i < j < |cs| ==> Apart(cs[i], cs[j]))
  }

  ghost predicate Apart(a: Config, b: Config) {
    a.s.mem == b.s.mem && Footprint(a.s.chunk) !! Footprint(b.s.chunk)
  }

  /** A step of one obstack, and what it is to another: a change of memory that is not its own. */
  lemma StepIsClients(a: Config, b: Config, e: Event)
    requires Inv(a) && Inv(b) && Apart(a, b) && !e.Client? && Ready(a, e)
    ensures var a' := Step(a, e);
            && Ready(b, Client(a'.s.mem))
            && Apart(a', Step(b, Client(a'.s.mem)))
  {
    var a' := Step(a, e);
    StepOutside(a, e);
    forall x | x in Footprint(b.s.chunk)
      ensures x in a'.s.mem && a'.s.mem[x] == b.s.mem[x] && x !in Footprint(a'.s.chunk)
    {
      assert x in Outside(a.s) && x in Outside(a'.s);
      assert Outside(a'.s)[x] == Outside(a.s)[x];
    }
  }

  /** The `i`th obstack takes a step and the others see memory change. */
  ghost function StepOne(cs: seq<Config>, i: nat, e: Event): (r: seq<Config>)
    requires Shared(cs) && i < |cs| && !e.Client? && Ready(cs[i], e)
    ensures Shared(r) && |r| == |cs|
    ensures r[i] == Step(cs[i], e)
    ensures forall j :: 0 <= j < |cs| && j != i ==>
              Ready(cs[j], Client(r[i].s.mem)) && r[j] == Step(cs[j], Client(r[i].s.mem))
  {
    var c := Step(cs[i], e);
    OthersReady(cs, i, e);
    seq(|cs|, j requires 0 <= j < |cs| => if j == i then c else cs[j].(s := cs[j].s.(mem := c.s.mem)))
  }

  lemma OthersReady(cs: seq<Config>, i: nat, e: Event)
    requires Shared(cs) && i < |cs| && !e.Client? && Ready(cs[i], e)
    ensures var c := Step(cs[i], e);
            forall j :: 0 <= j < |cs| && j != i ==>
              && Ready(cs[j], Client(c.s.mem))
              && Inv(Step(cs[j], Client(c.s.mem)))
              && Footprint(c.s.chunk) !! Footprint(cs[j].s.chunk)
  {
    var c := Step(cs[i], e);
    forall j | 0 <= j < |cs| && j != i
      ensures Ready(cs[j], Client(c.s.mem)) && Footprint(c.s.chunk) !! Footprint(cs[j].s.chunk)
    {
      assert if i < j then Apart(cs[i], cs[j]) else Apart(cs[j], cs[i]);
      StepIsClients(cs[i], cs[j], e);
    }
  }

  /** The client changes memory that belongs to none of the obstacks. */
  ghost function StepNone(cs: seq<Config>, mem: Memory): (r: seq<Config>)
    requires Shared(cs) && forall j :: 0 <= j < |cs| ==> Ready(cs[j], Client(mem))
    ensures Shared(r) && |r| == |cs|
    ensures forall j :: 0 <= j < |cs| ==> r[j] == Step(cs[j], Client(mem))
  {
    assert forall j :: 0 <= j < |cs| ==> Inv(Step(cs[j], Client(mem)));
    assert forall i, j :: 0 <= i < j < |cs| ==> Apart(cs[i], cs[j]);
    seq(|cs|, j requires 0 <= j < |cs| => cs[j].(s := cs[j].s.(mem := mem)))
  }

  /** A turn: one obstack steps, or the client changes other memory. */
  datatype Turn = Take(i: nat, e: Event) | Other(mem: Memory)

  ghost predicate CanTake(cs: seq<Config>, t: Turn)
    requires Shared(cs)
  {
    match t
    case Take(i, e) => i < |cs| && !e.Client? && Ready(cs[i], e)
    case Other(mem) => forall j :: 0 <= j < |cs| ==> Ready(cs[j], Client(mem))
  }

  ghost function TakeTurn(cs: seq<Config>, t: Turn): (r: seq<Config>)
    requires Shared(cs) && CanTake(cs, t)
    ensures Shared(r) && |r| == |cs|
  {
    match t
    case Take(i, e) => StepOne(cs, i, e)
    case Other(mem) => StepNone(cs, mem)
  }

  ghost predicate ValidTurns(cs: seq<Config>, turns: seq<Turn>)
    requires Shared(cs)
    decreases |turns|
  {
    turns == [] || (CanTake(cs, turns[0]) && ValidTurns(TakeTurn(cs, turns[0]), turns[1..]))
  }

  /** Where any interleaving of any number of obstacks leads: they still share memory safely. */
  ghost function RunTurns(cs: seq<Config>, turns: seq<Turn>): (r: seq<Config>)
    requires Shared(cs) && ValidTurns(cs, turns)
    ensures Shared(r) && |r| == |cs|
    decreases |turns|
  {
    if turns == [] then cs else RunTurns(TakeTurn(cs, turns[0]), turns[1..])
  }

  /** What a turn is to the `j`th obstack: its own step, or the client changing other memory. */
  ghost function Seen(cs: seq<Config>, t: Turn, j: nat): Event
    requires Shared(cs) && CanTake(cs, t)
  {
    match t
    case Take(i, e) => if i == j then e else Client(StepOne(cs, i, e)[i].s.mem)
    case Other(mem) => Client(mem)
  }

  ghost function SeenAll(cs: seq<Config>, turns: seq<Turn>, j: nat): seq<Event>
    requires Shared(cs) && ValidTurns(cs, turns)
    decreases |turns|
  {
    if turns == [] then [] else [Seen(cs, turns[0], j)] + SeenAll(TakeTurn(cs, turns[0]), turns[1..], j)
  }

  lemma SeenStep(cs: seq<Config>, t: Turn, j: nat)
    requires Shared(cs) && CanTake(cs, t) && j < |cs|
    ensures Ready(cs[j], Seen(cs, t, j)) && Step(cs[j], Seen(cs, t, j)) == TakeTurn(cs, t)[j]
  {
  }

  /** An interleaving is, to each obstack, a run of its own in which the others are the client's memory:
      it ends where that run ends. So each keeps its invariant, its finished objects in place and what
      freeing restores, as any single obstack does. */
  lemma {:induction false} InterleavedIsOwnRun(cs: seq<Config>, turns: seq<Turn>, j: nat)
    requires Shared(cs) && ValidTurns(cs, turns) && j < |cs|
    ensures var run := SeenAll(cs, turns, j);
            ValidRun(cs[j], run) && Run(cs[j], run) == RunTurns(cs, turns)[j]
    decreases |turns|
  {
    if turns == [] {
    } else {
      SeenStep(cs, turns[0], j);
      InterleavedIsOwnRun(TakeTurn(cs, turns[0]), turns[1..], j);
    }
  }

  /** The `j`th obstack does not free its `k`th object or one below it. */
  ghost predicate SparesOf(turns: seq<Turn>, j: nat, k: nat) {
    forall t :: 0 <= t < |turns| && turns[t].Take? && turns[t].i == j ==> FreesOnlyAbove(turns[t].e, k)
  }

  /** The client does not store into the `k`th object of the `j`th obstack. */
  ghost predicate NeverFillsOf(turns: seq<Turn>, j: nat, k: nat) {
    forall t :: 0 <= t < |turns| && turns[t].Take? && turns[t].i == j && turns[t].e.Fill? ==> turns[t].e.i != k
  }

  lemma {:induction false} SeenSpares(cs: seq<Config>, turns: seq<Turn>, j: nat, k: nat)
    requires Shared(cs) && ValidTurns(cs, turns)
    ensures SparesOf(turns, j, k) ==> Spares(SeenAll(cs, turns, j), k)
    ensures NeverFillsOf(turns, j, k) ==> NeverFills(SeenAll(cs, turns, j), k)
    decreases |turns|
  {
    if turns == [] {
    } else {
      SeenSpares(TakeTurn(cs, turns[0]), turns[1..], j, k);
      assert SparesOf(turns, j, k) ==> SparesOf(turns[1..], j, k) && FreesOnlyAbove(Seen(cs, turns[0], j), k);
      assert NeverFillsOf(turns, j, k) ==> NeverFillsOf(turns[1..], j, k);
    }
  }

  /** In particular, nothing another obstack does moves or changes a finished object of this one. */
  lemma OthersMoveNothing(cs: seq<Config>, turns: seq<Turn>, j: nat, k: nat)
    requires Shared(cs) && ValidTurns(cs, turns) && j < |cs| && k < |cs[j].objs| && SparesOf(turns, j, k)
    ensures var r := RunTurns(cs, turns)[j];
            && InPlace(cs[j], r, k)
            && Holds(r.s.mem, cs[j].objs[k].addr, r.objs[k].bytes)
            && (NeverFillsOf(turns, j, k) ==> r.objs[k] == cs[j].objs[k])
  {
    InterleavedIsOwnRun(cs, turns, j);
    SeenSpares(cs, turns, j, k);
    FinishedStays(cs[j], SeenAll(cs, turns, j), k);
    assert InPlace(cs[j], RunTurns(cs, turns)[j], k);
  }
}
