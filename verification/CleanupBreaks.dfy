/** What a cleanup block runs when it is left at its end or by `Break`, and exactly when the forms of
    the macros agree on a program. */
module CleanupBreaks {
  import opened Cleanup

  // ----- what a program comes to when it is not cancelled, read off its text -----

  function TypeAfter(h: Handler, t: CancelType): CancelType {
    if h.sets.Some? then h.sets.value else t
  }

  function TypeInside(kind: Kind, t: CancelType): CancelType {
    if kind.Defer? then Deferred else t
  }

  /** The type under which a block begun under `t` runs its handler at the pop, its body ending in `inner`. */
  function TypeAtPop(kind: Kind, t: CancelType, inner: CancelType): CancelType {
    if kind.Defer? then t else inner
  }

  /** The cancel type after `s`, begun under `t`. */
  function EndTypeStmt(s: Stmt, t: CancelType): CancelType
    decreases s
  {
    match s
    case SetType(u) => u
    case Block(kind, h, body, execute) =>
      var inner := EndType(body, TypeInside(kind, t));
      if Breaks(body) then TypeAfter(h, inner)
      else
        var popped := TypeAtPop(kind, t, inner);
        if execute != 0 then TypeAfter(h, popped) else popped
    case _ => t
  }

  function EndType(p: Program, t: CancelType): CancelType
    decreases p
  {
    if p.Nil? || p.head.Break? then t else EndType(p.tail, EndTypeStmt(p.head, t))
  }

  /** What `s` does, begun under `t`, each event with the type in force: its actions, and after those of
      a block the block's handler if it is popped with a non-zero `execute` or left by `Break`. */
  function PerformedStmt(s: Stmt, t: CancelType): seq<Event>
    decreases s
  {
    match s
    case Act(id) => [Did(id, t)]
    case Block(kind, h, body, execute) =>
      var inner := EndType(body, TypeInside(kind, t));
      Performed(body, TypeInside(kind, t)) +
      (if Breaks(body) then [Ran(h, inner)]
       else if execute != 0 then [Ran(h, TypeAtPop(kind, t, inner))]
       else [])
    case _ => []
  }

  function Performed(p: Program, t: CancelType): seq<Event>
    decreases p
  {
    if p.Nil? || p.head.Break? then []
    else PerformedStmt(p.head, t) + Performed(p.tail, EndTypeStmt(p.head, t))
  }

  /** A thread that is not cancelled does, in all its blocks and in order, exactly its actions and the
      handlers popped with a non-zero `execute`, each under the type its text says: a deferred block's
      under the type from before its push. Handlers of blocks left by `Break` are run as well. */
  lemma {:induction false} NormalExit(p: Program, w: World)
    requires Scopes(p, w).1 != Cancelled
    ensures var (w', o) := Scopes(p, w);
            && o == (if Breaks(p) then Broke else Fell)
            && w'.cancelType == EndType(p, w.cancelType)
            && w'.trace == w.trace + Performed(p, w.cancelType)
    decreases p
  {
    if p.Nil? || p.head.Break? {
    } else {
      NormalExitStmt(p.head, w);
      NormalExit(p.tail, ScopeStmt(p.head, w).0);
    }
  }

  /** How the scope form leaves a block that is not cancelled. */
  function ScopeExit(s: Stmt, saved: CancelType, w: World): World
    requires s.Block?
  {
    if Breaks(s.body) then Call(w, s.handler) else Popped(s.kind, s.handler, s.execute, saved, w)
  }

  lemma {:induction false} NormalExitStmt(s: Stmt, w: World)
    requires !s.Break? && ScopeStmt(s, w).1 != Cancelled
    ensures var (w', o) := ScopeStmt(s, w);
            && o == Fell
            && w'.cancelType == EndTypeStmt(s, w.cancelType)
            && w'.trace == w.trace + PerformedStmt(s, w.cancelType)
    decreases s
  {
    if s.Block? {
      var inner := Pushed(s.kind, w);
      NormalExit(s.body, inner);
      assert ScopeStmt(s, w).0 == ScopeExit(s, w.cancelType, Scopes(s.body, inner).0);
    } else {
    }
  }

  // ----- a `Break` in the jump-buffer form -----

  /** The program without its breaks: each body ends where it would have been left. */
  function Trimmed(p: Program): Program
    decreases p
  {
    if p.Nil? || p.head.Break? then Nil
    else Cons(if p.head.Block? then p.head.(body := Trimmed(p.head.body)) else p.head, Trimmed(p.tail))
  }

  /** In the jump-buffer form a `Break` leads to the pop of the block, as reaching its end does. So every
      program, cancelled at whatever step or never, does in it what the program without its breaks does,
      in whichever form, and what is proved of scopes is so proved of jump buffers. */
  lemma {:induction false} BreakIsFallingThrough(p: Program, w: World)
    ensures NoBreak(Trimmed(p))
    ensures var (w', o) := Scopes(Trimmed(p), w);
            Jumps(p, w) == (w', if o == Fell && Breaks(p) then Broke else o)
    ensures Jumps(Trimmed(p), w) == Scopes(Trimmed(p), w)
    decreases p
  {
    if p.Nil? || p.head.Break? {
    } else {
      var s := p.head;
      if s.Block? {
        BreakIsFallingThrough(s.body, Pushed(s.kind, w));
        NoBreakIsSafe(Trimmed(s.body));
        if Scopes(Trimmed(s.body), Pushed(s.kind, w)).1 != Cancelled {
          OutcomeOf(Trimmed(s.body), Pushed(s.kind, w));
        }
      }
      BreakIsFallingThrough(p.tail, JumpStmt(s, w).0);
    }
  }

  /** So a thread that is not cancelled runs in the jump-buffer form the handlers popped with a non-zero
      `execute`, of a block left by `Break` as of any other, and puts the type back in both cases. */
  lemma JumpNormalExit(p: Program, w: World)
    requires Jumps(p, w).1 != Cancelled
    ensures var (w', o) := Jumps(p, w);
            && o == (if Breaks(p) then Broke else Fell)
            && w'.cancelType == EndType(Trimmed(p), w.cancelType)
            && w'.trace == w.trace + Performed(Trimmed(p), w.cancelType)
  {
    BreakIsFallingThrough(p, w);
    NormalExit(Trimmed(p), w);
    NoBreakIsSafe(Trimmed(p));
  }

  // ----- exactly when the forms agree -----

  /** The forms agree on `p` begun under `t`: every block that is reached and left by `Break` has its
      handler executed anyway, and is plain or left under the type it saved. */
  predicate AgreesFrom(p: Program, t: CancelType)
    decreases p
  {
    p.Nil? || p.head.Break? ||
    (AgreesFromStmt(p.head, t) && AgreesFrom(p.tail, EndTypeStmt(p.head, t)))
  }

  predicate AgreesFromStmt(s: Stmt, t: CancelType)
    decreases s
  {
    s.Block? ==>
      && AgreesFrom(s.body, TypeInside(s.kind, t))
      && (Breaks(s.body) ==>
            s.execute != 0 && (s.kind.Plain? || EndType(s.body, Deferred) == t))
  }

  lemma {:induction false} AgreeingForms(p: Program, w: World)
    requires AgreesFrom(p, w.cancelType)
    ensures Jumps(p, w) == Scopes(p, w)
    decreases p
  {
    if p.Nil? || p.head.Break? {
    } else {
      AgreeingStmt(p.head, w);
      if ScopeStmt(p.head, w).1 != Cancelled {
        NormalExitStmt(p.head, w);
        AgreeingForms(p.tail, ScopeStmt(p.head, w).0);
      }
    }
  }

  lemma {:induction false} AgreeingStmt(s: Stmt, w: World)
    requires !s.Break? && AgreesFromStmt(s, w.cancelType)
    ensures JumpStmt(s, w) == ScopeStmt(s, w)
    decreases s
  {
    if s.Block? {
      AgreeingForms(s.body, Pushed(s.kind, w));
      if Scopes(s.body, Pushed(s.kind, w)).1 != Cancelled {
        NormalExit(s.body, Pushed(s.kind, w));
      }
    } else {
    }
  }

  /** A thread that is never cancelled leaves a program as its text says, in either form. */
  lemma {:induction false} NeverCancelled(p: Program, w: World)
    requires w.budget < 0
    ensures Scopes(p, w).1 == Jumps(p, w).1 == if Breaks(p) then Broke else Fell
    ensures Scopes(p, w).0.budget < 0 && Jumps(p, w).0.budget < 0
    decreases p
  {
    if p.Nil? || p.head.Break? {
    } else {
      if p.head.Block? {
        NeverCancelled(p.head.body, Pushed(p.head.kind, w));
      }
      NeverCancelled(p.tail, ScopeStmt(p.head, w).0);
      NeverCancelled(p.tail, JumpStmt(p.head, w).0);
    }
  }

  /** The scope form's trace has come apart from the jump-buffer form's, and is no shorter. */
  ghost predicate Apart(a: World, b: World) {
    a.budget < 0 && b.budget < 0 && |a.trace| >= |b.trace| && a.trace != b.trace
  }

  lemma ExitsApart(s: Stmt, t: CancelType, u: CancelType, a: World, b: World)
    requires s.Block? && Apart(a, b)
    ensures Apart(ScopeExit(s, t, a), Popped(s.kind, s.handler, s.execute, u, b))
  {
    var a', b' := ScopeExit(s, t, a), Popped(s.kind, s.handler, s.execute, u, b);
    if |a'.trace| == |b'.trace| {
      assert a'.trace[..|a.trace|] == a.trace && b'.trace[..|b.trace|] == b.trace;
    }
  }

  /** Traces that have come apart stay apart. */
  lemma {:induction false} StaysApart(p: Program, a: World, b: World)
    requires Apart(a, b)
    ensures Apart(Scopes(p, a).0, Jumps(p, b).0)
    decreases p
  {
    if p.Nil? || p.head.Break? {
    } else {
      StaysApartStmt(p.head, a, b);
      StaysApart(p.tail, ScopeStmt(p.head, a).0, JumpStmt(p.head, b).0);
    }
  }

  lemma {:induction false} StaysApartStmt(s: Stmt, a: World, b: World)
    requires !s.Break? && Apart(a, b)
    ensures ScopeStmt(s, a).1 == JumpStmt(s, b).1 == Fell
    ensures Apart(ScopeStmt(s, a).0, JumpStmt(s, b).0)
    decreases s
  {
    if s.Block? {
      var a1, b1 := Pushed(s.kind, a), Pushed(s.kind, b);
      NeverCancelled(s.body, a1);
      NeverCancelled(s.body, b1);
      StaysApart(s.body, a1, b1);
      ExitsApart(s, a.cancelType, b.cancelType, Scopes(s.body, a1).0, Jumps(s.body, b1).0);
    } else if s.Act? {
      var a', b' := ScopeStmt(s, a).0, JumpStmt(s, b).0;
      assert a'.trace[..|a.trace|] == a.trace && b'.trace[..|b.trace|] == b.trace;
    } else {
    }
  }

  /** Where the text says the forms do not agree, a thread that is never cancelled shows it. */
  lemma {:induction false} DisagreeingForms(p: Program, w: World)
    requires !AgreesFrom(p, w.cancelType) && w.budget < 0
    ensures Apart(Scopes(p, w).0, Jumps(p, w).0)
    decreases p
  {
    var s := p.head;
    NeverCancelled(Cons(s, Nil), w);
    if AgreesFromStmt(s, w.cancelType) {
      AgreeingStmt(s, w);
      NormalExitStmt(s, w);
      DisagreeingForms(p.tail, ScopeStmt(s, w).0);
    } else {
      DisagreeingStmt(s, w);
      StaysApart(p.tail, ScopeStmt(s, w).0, JumpStmt(s, w).0);
    }
  }

  lemma {:induction false} DisagreeingStmt(s: Stmt, w: World)
    requires !AgreesFromStmt(s, w.cancelType) && w.budget < 0
    ensures ScopeStmt(s, w).1 == JumpStmt(s, w).1 == Fell
    ensures Apart(ScopeStmt(s, w).0, JumpStmt(s, w).0)
    decreases s
  {
    var w1 := Pushed(s.kind, w);
    NeverCancelled(s.body, w1);
    if AgreesFrom(s.body, w1.cancelType) {
      AgreeingForms(s.body, w1);
      NormalExit(s.body, w1);
      var a', b' := ScopeStmt(s, w).0, JumpStmt(s, w).0;
      if s.execute != 0 {
        assert a'.trace[|a'.trace| - 1] != b'.trace[|b'.trace| - 1];
      }
    } else {
      DisagreeingForms(s.body, w1);
      ExitsApart(s, w.cancelType, w.cancelType, Scopes(s.body, w1).0, Jumps(s.body, w1).0);
    }
  }

  /** The forms do the same on a program, cancelled at whatever step or never, from every world of a
      cancel type, exactly when its text says so. */
  lemma FormsAgreeExactly(p: Program, t: CancelType)
    ensures (forall w: World :: w.cancelType == t ==> Jumps(p, w) == Scopes(p, w)) <==> AgreesFrom(p, t)
  {
    if AgreesFrom(p, t) {
      forall w: World | w.cancelType == t
        ensures Jumps(p, w) == Scopes(p, w)
      {
        AgreeingForms(p, w);
      }
    } else {
      DisagreeingForms(p, World(t, [], -1));
    }
  }

  /** Breaking safely is enough, under any cancel type. */
  lemma {:induction false} SafeAgrees(p: Program, t: CancelType)
    requires BreaksSafely(p)
    ensures AgreesFrom(p, t)
    decreases p
  {
    if p.Nil? || p.head.Break? {
    } else {
      if p.head.Block? {
        SafeAgrees(p.head.body, TypeInside(p.head.kind, t));
      }
      SafeAgrees(p.tail, EndTypeStmt(p.head, t));
    }
  }

  /** On programs that break safely the forms do the same, cancelled at whatever step or never. */
  lemma FormsAgree(p: Program, w: World)
    requires BreaksSafely(p)
    ensures Jumps(p, w) == Scopes(p, w)
  {
    SafeAgrees(p, w.cancelType);
    AgreeingForms(p, w);
  }

  /** A block left by `Break`, whatever else is in its body, does the same in every form exactly when it
      is plain and its handler is to be executed: a scope runs its handler however it is left and does
      not put the cancel type back, whereas a jump-buffer block is left through its pop. */
  lemma BreakAgreesWhen(kind: Kind, h: Handler, body: Program, execute: int)
    requires BreaksSafely(body) && Breaks(body)
    ensures (forall w :: JumpStmt(Block(kind, h, body, execute), w) == ScopeStmt(Block(kind, h, body, execute), w))
       <==> kind.Plain? && execute != 0
  {
    var s := Block(kind, h, body, execute);
    forall t: CancelType
      ensures AgreesFrom(body, t)
    {
      SafeAgrees(body, t);
    }
    if kind.Plain? && execute != 0 {
      forall w
        ensures JumpStmt(s, w) == ScopeStmt(s, w)
      {
        AgreeingStmt(s, w);
      }
    } else {
      var t := if EndType(body, Deferred) == Deferred then Asynchronous else Deferred;
      DisagreeingStmt(s, World(t, [], -1));
    }
  }

  /** Safe breaks are not needed for agreement: a block that is never reached may break as it likes. */
  lemma SafetyNotNeeded(h: Handler)
    ensures var p := Cons(Break, Cons(Block(Defer, h, Cons(Break, Nil), 0), Nil));
            !BreaksSafely(p) && forall w :: Jumps(p, w) == Scopes(p, w)
  {
    var p := Cons(Break, Cons(Block(Defer, h, Cons(Break, Nil), 0), Nil));
    assert !BreaksSafely(p.tail);
    forall w
      ensures Jumps(p, w) == Scopes(p, w)
    {
      AgreeingForms(p, w);
    }
  }
}
