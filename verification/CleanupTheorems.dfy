/** What cancelling a thread runs, and what deferred blocks do to its cancel type. */
module CleanupTheorems {
  import opened Cleanup
  import opened CleanupBreaks

  // ----- nested blocks and the explicit stack -----

  lemma {:induction false} RunFlatAppend(a: seq<Instr>, b: seq<Instr>, m: Machine)
    requires Executable(a) && Executable(b)
    ensures Executable(a + b) && RunFlat(a + b, m) == RunFlat(b, RunFlat(a, m))
    decreases |a|
  {
    if a == [] {
      assert a + b == b;
    } else {
      assert (a + b)[0] == a[0] && (a + b)[1..] == a[1..] + b;
      RunFlatAppend(a[1..], b, Tick(m, a[0]));
    }
  }

  lemma {:induction false} StaysCancelled(code: seq<Instr>, m: Machine)
    requires Executable(code) && m.cancelled
    ensures RunFlat(code, m) == m
    decreases |code|
  {
    if code == [] {
    } else {
      StaysCancelled(code[1..], m);
    }
  }

  lemma {:induction false} FlattenExecutable(p: Program)
    ensures Executable(Flatten(p))
    decreases p
  {
    if p.Nil? || p.head.Break? {
    } else {
      if p.head.Block? {
        FlattenExecutable(p.head.body);
      }
      FlattenExecutable(p.tail);
    }
  }

  lemma {:induction false} UnwoundAppend(w: World, a: seq<Frame>, b: seq<Frame>)
    ensures Unwound(w, a + b) == Unwound(Unwound(w, b), a)
    decreases |b|
  {
    if b == [] {
      assert a + b == a;
    } else {
      var n := |b| - 1;
      assert (a + b)[|a + b| - 1] == b[n] && (a + b)[..|a + b| - 1] == a + b[..n];
      UnwoundAppend(Call(w, b[n].handler), a, b[..n]);
    }
  }

  /** The flat machine `r` is where running a program from `m` gets it, given what nested blocks make
      of the same program. */
  ghost predicate Matches(m: Machine, length: nat, nested: (World, Outcome), r: Machine) {
    if nested.1 == Cancelled then
      && r.cancelled
      && m.frames <= r.frames
      && Unwound(r.w, r.frames[|m.frames|..]) == nested.0
    else
      && r == Machine(nested.0, m.frames, m.pc + length, false)
  }

  /** How a block is left: at its pop or by a `Break`. */
  function Exit(s: Stmt): Instr
    requires s.Block?
  {
    if Breaks(s.body) then Leave else Pop(s.execute)
  }

  /** A block's flat code pushes its frame, runs its body and leaves. */
  lemma FlatBlockParts(s: Stmt, m: Machine)
    requires s.Block? && !m.cancelled
    ensures Executable(FlattenStmt(s)) && Executable(Flatten(s.body))
    ensures var m1 := Tick(m, Push(s.kind, s.handler));
            RunFlat(FlattenStmt(s), m) == Tick(RunFlat(Flatten(s.body), m1), Exit(s))
  {
    var push, code, exit := [Push(s.kind, s.handler)], Flatten(s.body), [Exit(s)];
    FlattenExecutable(s.body);
    RunFlatAppend(push, code, m);
    RunFlatAppend(push + code, exit, m);
    var m1 := Tick(m, push[0]);
    assert RunFlat(push, m) == RunFlat([], m1) == m1;
    var m2 := RunFlat(code, m1);
    assert RunFlat(exit, m2) == RunFlat([], Tick(m2, exit[0]));
  }

  lemma UnwoundBlock(w: World, f: Frame, extra: seq<Frame>)
    ensures Unwound(w, [f] + extra) == Call(Unwound(w, extra), f.handler)
  {
    UnwoundAppend(w, [f], extra);
    var w1 := Unwound(w, extra);
    assert Unwound(w1, [f]) == Unwound(Call(w1, f.handler), []);
  }

  lemma {:induction false} FlatBlock(s: Stmt, m: Machine)
    requires s.Block? && !m.cancelled
    ensures Executable(FlattenStmt(s))
    ensures Matches(m, |FlattenStmt(s)|, ScopeStmt(s, m.w), RunFlat(FlattenStmt(s), m))
    decreases s
  {
    var f := Frame(s.kind, s.handler, m.w.cancelType);
    var m1 := Tick(m, Push(s.kind, s.handler));
    FlatBlockParts(s, m);
    FlatProgram(s.body, m1);
    var m2 := RunFlat(Flatten(s.body), m1);
    if m2.cancelled {
      var extra := m2.frames[|m1.frames|..];
      assert m2.frames[|m.frames|..] == [f] + extra;
      UnwoundBlock(m2.w, f, extra);
    } else {
      OutcomeOf(s.body, m1.w);
      assert m1.frames[..|m1.frames| - 1] == m.frames;
    }
  }

  /** Nested blocks are a stack: running a program's flat code on an explicit stack of frames gives
      what the nested blocks give, the frames left by a cancellation being unwound at the end. */
  lemma {:induction false} FlatProgram(p: Program, m: Machine)
    requires !m.cancelled
    ensures Executable(Flatten(p))
    ensures Matches(m, |Flatten(p)|, Scopes(p, m.w), RunFlat(Flatten(p), m))
    decreases p
  {
    if p.Nil? || p.head.Break? {
      assert p.Cons? ==> ScopeStmt(p.head, m.w) == (m.w, Broke);
    } else {
      var s := p.head;
      var first, rest := FlattenStmt(s), Flatten(p.tail);
      FlattenExecutable(p.tail);
      if s.Block? {
        FlatBlock(s, m);
      } else {
        assert RunFlat(first, m) == RunFlat([], Tick(m, Step(s)));
      }
      RunFlatAppend(first, rest, m);
      var m1 := RunFlat(first, m);
      assert Matches(m, |first|, ScopeStmt(s, m.w), m1);
      if m1.cancelled {
        StaysCancelled(rest, m1);
      } else {
        assert ScopeStmt(s, m.w).1 == Fell;
        assert Scopes(p, m.w) == Scopes(p.tail, m1.w);
        FlatProgram(p.tail, m1);
      }
    }
  }

  // ----- which handlers a cancellation runs -----

  /** The handlers pushed and not yet popped after `code`, outermost first: brackets, counted. */
  function Open(code: seq<Instr>): seq<Handler>
    decreases |code|
  {
    if code == [] then []
    else
      var open := Open(code[..|code| - 1]);
      match code[|code| - 1]
      case Step(_) => open
      case Push(_, h) => open + [h]
      case _ => if open == [] then [] else open[..|open| - 1]
  }

  predicate RunsHandler(i: Instr) {
    i.Leave? || (i.Pop? && i.execute != 0)
  }

  /** The handlers that leaving blocks runs in `code`, in order: that of each block popped with a
      non-zero `execute` or left by `Break`. */
  function PoppedHandlers(code: seq<Instr>): seq<Handler>
    decreases |code|
  {
    if code == [] then []
    else
      var before, open := PoppedHandlers(code[..|code| - 1]), Open(code[..|code| - 1]);
      if RunsHandler(code[|code| - 1]) && open != [] then before + [open[|open| - 1]] else before
  }

  /** The handlers' events of a trace. */
  function RanEvents(trace: seq<Event>): (ran: seq<Event>)
    ensures forall i :: 0 <= i < |ran| ==> ran[i].Ran?
    decreases |trace|
  {
    if trace == [] then []
    else RanEvents(trace[..|trace| - 1]) + (if trace[|trace| - 1].Ran? then [trace[|trace| - 1]] else [])
  }

  /** The handlers a trace says were run. */
  function RanHandlers(trace: seq<Event>): seq<Handler> {
    var ran := RanEvents(trace);
    seq(|ran|, i requires 0 <= i < |ran| => ran[i].handler)
  }

  function Reversed(handlers: seq<Handler>): seq<Handler> {
    seq(|handlers|, i requires 0 <= i < |handlers| => handlers[|handlers| - 1 - i])
  }

  function Steps(code: seq<Instr>): nat
    decreases |code|
  {
    if code == [] then 0
    else Steps(code[..|code| - 1]) + (if code[|code| - 1].Step? then 1 else 0)
  }

  function Handlers(frames: seq<Frame>): seq<Handler> {
    seq(|frames|, i requires 0 <= i < |frames| => frames[i].handler)
  }

  function Start(w: World): Machine {
    Machine(w, [], 0, false)
  }

  /** Where a machine started in `w` stands after the first `k` instructions. */
  ghost predicate Standing(code: seq<Instr>, w: World, k: nat, m: Machine)
    requires k <= |code|
  {
    && m.pc <= k
    && (m.cancelled ==> m.pc < k && code[m.pc].Step? && m.w.budget == 0)
    && (!m.cancelled ==> m.pc == k)
    && Handlers(m.frames) == Open(code[..m.pc])
    && m.w.budget == w.budget - Steps(code[..m.pc])
    && RanHandlers(m.w.trace) == RanHandlers(w.trace) + PoppedHandlers(code[..m.pc])
  }

  /** Running one more instruction. */
  lemma RunFlatMore(code: seq<Instr>, m: Machine, k: nat)
    requires Executable(code) && k < |code|
    ensures Executable(code[..k]) && Executable(code[..k + 1])
    ensures RunFlat(code[..k + 1], m) == Tick(RunFlat(code[..k], m), code[k])
  {
    var i := code[k];
    assert code[..k + 1] == code[..k] + [i];
    assert Executable([i]);
    RunFlatAppend(code[..k], [i], m);
    var r := RunFlat(code[..k], m);
    assert RunFlat([i], r) == RunFlat([], Tick(r, i)) == Tick(r, i);
  }

  lemma {:induction false} RunStands(code: seq<Instr>, w: World, k: nat)
    requires Executable(code) && k <= |code|
    ensures Executable(code[..k]) && Standing(code, w, k, RunFlat(code[..k], Start(w)))
    decreases k
  {
    if k == 0 {
    } else {
      RunStands(code, w, k - 1);
      RunFlatMore(code, Start(w), k - 1);
      TickStands(code, w, k - 1, RunFlat(code[..k - 1], Start(w)));
    }
  }

  lemma RanHandlersOne(trace: seq<Event>, e: Event)
    ensures RanHandlers(trace + [e]) == RanHandlers(trace) + (if e.Ran? then [e.handler] else [])
  {
    assert (trace + [e])[..|trace|] == trace;
  }

  lemma StepRuns(s: Stmt, w: World)
    requires s.Act? || s.SetType?
    ensures RanHandlers(BodyStep(s, w).0.trace) == RanHandlers(w.trace)
  {
    RanHandlersOne(w.trace, Did(if s.Act? then s.id else 0, w.cancelType));
  }

  lemma PopRuns(f: Frame, execute: int, w: World)
    ensures RanHandlers(Popped(f.kind, f.handler, execute, f.saved, w).trace)
         == RanHandlers(w.trace) + if execute != 0 then [f.handler] else []
  {
    RanHandlersOne(w.trace, Ran(f.handler, w.cancelType));
    RanHandlersOne(w.trace, Ran(f.handler, f.saved));
  }

  lemma PopStands(code: seq<Instr>, w: World, k: nat, m: Machine)
    requires Executable(code) && k < |code| && Standing(code, w, k, m)
    requires !m.cancelled && (code[k].Pop? || code[k].Leave?) && m.frames != []
    ensures Standing(code, w, k + 1, Tick(m, code[k]))
  {
    var n := |m.frames| - 1;
    var r := Tick(m, code[k]);
    assert code[..k + 1][..k] == code[..k] && code[..k + 1][k] == code[k];
    assert Handlers(r.frames) == Handlers(m.frames)[..n] && m.frames[n].handler == Handlers(m.frames)[n];
    if code[k].Pop? {
      PopRuns(m.frames[n], code[k].execute, m.w);
    } else {
      RanHandlersOne(m.w.trace, Ran(m.frames[n].handler, m.w.cancelType));
    }
  }

  lemma TickStands(code: seq<Instr>, w: World, k: nat, m: Machine)
    requires Executable(code) && k < |code| && Standing(code, w, k, m)
    ensures Standing(code, w, k + 1, Tick(m, code[k]))
  {
    if !m.cancelled {
      assert code[..k + 1][..k] == code[..k] && code[..k + 1][k] == code[k];
      if code[k].Step? {
        StepRuns(code[k].s, m.w);
      } else if code[k].Push? {
        assert Handlers(Tick(m, code[k]).frames) == Handlers(m.frames) + [code[k].handler];
      } else if m.frames == [] {
        assert Open(code[..k]) == [];
      } else {
        PopStands(code, w, k, m);
      }
    }
  }

  /** The events of running `open`'s handlers, innermost first, once each: the first under the type `t`,
      each other under the type the one before it left. */
  ghost predicate RunsAll(events: seq<Event>, open: seq<Handler>, t: CancelType) {
    && |events| == |open|
    && forall i :: 0 <= i < |open| ==>
         events[i] == Ran(open[|open| - 1 - i], TypeLeft(events[..i], t))
  }

  /** The type in force after handlers run from the type `t` on. */
  function TypeLeft(events: seq<Event>, t: CancelType): CancelType {
    if events == [] || events[|events| - 1].Did? then t
    else TypeAfter(events[|events| - 1].handler, events[|events| - 1].t)
  }

  /** `w'` is `w` after running `open`'s handlers. */
  ghost predicate RanFrom(w: World, w': World, open: seq<Handler>) {
    && w.trace <= w'.trace
    && RunsAll(w'.trace[|w.trace|..], open, w.cancelType)
    && w'.cancelType == TypeLeft(w'.trace[|w.trace|..], w.cancelType)
  }

  lemma {:induction false} UnwoundRunsAll(w: World, frames: seq<Frame>)
    ensures RanFrom(w, Unwound(w, frames), Handlers(frames))
    decreases |frames|
  {
    if frames == [] {
    } else {
      var n := |frames| - 1;
      UnwoundRunsAll(Call(w, frames[n].handler), frames[..n]);
      RanOneMore(w, frames[n].handler, Unwound(w, frames), Handlers(frames[..n]));
      assert Handlers(frames) == Handlers(frames[..n]) + [frames[n].handler];
    }
  }

  lemma RanOneMore(w: World, h: Handler, w': World, open: seq<Handler>)
    requires RanFrom(Call(w, h), w', open)
    ensures RanFrom(w, w', open + [h])
  {
    var events := w'.trace[|w.trace| + 1..];
    RunsOneMore(h, w.cancelType, events, open);
    assert w'.trace[|w.trace|..] == [Ran(h, w.cancelType)] + events;
  }

  lemma RunsOneMore(h: Handler, t: CancelType, events: seq<Event>, open: seq<Handler>)
    requires RunsAll(events, open, TypeAfter(h, t))
    ensures var all := [Ran(h, t)] + events;
            RunsAll(all, open + [h], t) && TypeLeft(all, t) == TypeLeft(events, TypeAfter(h, t))
  {
    var all := [Ran(h, t)] + events;
    forall i | 0 <= i < |all|
      ensures all[i] == Ran((open + [h])[|open| - i], TypeLeft(all[..i], t))
    {
      if i > 0 {
        assert all[..i] == [Ran(h, t)] + events[..i - 1];
        assert events[i - 1] == Ran(open[|open| - 1 - (i - 1)], TypeLeft(events[..i - 1], TypeAfter(h, t)));
      }
    }
  }

  lemma {:induction false} UnwoundRuns(w: World, frames: seq<Frame>)
    ensures RanHandlers(Unwound(w, frames).trace) == RanHandlers(w.trace) + Reversed(Handlers(frames))
    decreases |frames|
  {
    if frames == [] {
    } else {
      var n := |frames| - 1;
      var h := frames[n].handler;
      UnwoundRuns(Call(w, h), frames[..n]);
      RanHandlersOne(w.trace, Ran(h, w.cancelType));
      assert Reversed(Handlers(frames)) == [h] + Reversed(Handlers(frames[..n]));
    }
  }

  /** Cancelling a thread at a body step: exactly the handlers pushed and not yet popped at that step
      are run, innermost first and once each, after all the thread did before the step, and nothing
      else happens: the cancel type is what the step or the handler before left it. A thread is
      cancelled exactly when its program has that many steps. Over the whole run, the handlers are
      those popped with a non-zero `execute` or left by `Break` before the step, in order, and then the
      open ones; a thread that is not cancelled runs the former for its whole program. */
  lemma CancelRunsOpenHandlers(p: Program, w: World)
    requires w.budget >= 0
    ensures var code := Flatten(p);
            && Executable(code)
            && var m := RunFlat(code, Start(w));
            var (w', o) := Scopes(p, w);
            && (o == Cancelled <==> m.cancelled)
            && (o == Cancelled ==>
                  && m.pc < |code| && code[m.pc].Step? && Steps(code[..m.pc]) == w.budget
                  && m.w.trace <= w'.trace
                  && RunsAll(w'.trace[|m.w.trace|..], Open(code[..m.pc]), m.w.cancelType)
                  && w'.cancelType == TypeLeft(w'.trace[|m.w.trace|..], m.w.cancelType)
                  && RanHandlers(w'.trace)
                  == RanHandlers(w.trace) + PoppedHandlers(code[..m.pc]) + Reversed(Open(code[..m.pc])))
            && (o != Cancelled ==>
                  && w' == m.w && m.pc == |code| && Steps(code) <= w.budget
                  && RanHandlers(w'.trace) == RanHandlers(w.trace) + PoppedHandlers(code))
  {
    FlatProgram(p, Start(w));
    var code := Flatten(p);
    var m := RunFlat(code, Start(w));
    RunStands(code, w, |code|);
    assert code[..|code|] == code;
    if m.cancelled {
      assert m.frames[0..] == m.frames;
      UnwoundRunsAll(m.w, m.frames);
      UnwoundRuns(m.w, m.frames);
    } else {
      StepsWithinBudget(code, w, |code|);
    }
  }

  lemma {:induction false} StepsWithinBudget(code: seq<Instr>, w: World, k: nat)
    requires Executable(code) && k <= |code| && w.budget >= 0
    requires Executable(code[..k]) && !RunFlat(code[..k], Start(w)).cancelled
    ensures RunFlat(code[..k], Start(w)).w.budget >= 0
    decreases k
  {
    if k == 0 {
    } else {
      RunFlatMore(code, Start(w), k - 1);
      StepsWithinBudget(code, w, k - 1);
    }
  }

  /** The same thread, never cancelled. */
  function Never(w: World): World {
    w.(budget := -1)
  }

  lemma {:induction false} TraceGrows(code: seq<Instr>, m: Machine)
    requires Executable(code)
    ensures m.w.trace <= RunFlat(code, m).w.trace
    decreases |code|
  {
    if code == [] {
    } else {
      TraceGrows(code[1..], Tick(m, code[0]));
    }
  }

  /** The machine `u` of a thread that is never cancelled is where `m` is. */
  ghost predicate SameSoFar(m: Machine, u: Machine) {
    && !u.cancelled && u.w.budget < 0
    && u.w.trace == m.w.trace && u.w.cancelType == m.w.cancelType && u.frames == m.frames
  }

  lemma TickSame(m: Machine, u: Machine, i: Instr)
    requires SameSoFar(m, u) && !m.cancelled && (i.Step? ==> i.s.Act? || i.s.SetType?)
    ensures SameSoFar(Tick(m, i), Tick(u, i)) || Tick(m, i) == m.(cancelled := true)
  {
  }

  lemma {:induction false} SameUntilCancelled(code: seq<Instr>, w: World, k: nat)
    requires Executable(code) && k <= |code|
    ensures Executable(code[..k])
    ensures var m := RunFlat(code[..k], Start(w));
            m.pc <= k && SameSoFar(m, RunFlat(code[..m.pc], Start(Never(w))))
    decreases k
  {
    if k == 0 {
    } else {
      SameUntilCancelled(code, w, k - 1);
      RunStands(code, w, k - 1);
      RunFlatMore(code, Start(w), k - 1);
      var m := RunFlat(code[..k - 1], Start(w));
      if !m.cancelled {
        RunFlatMore(code, Start(Never(w)), k - 1);
        TickSame(m, RunFlat(code[..k - 1], Start(Never(w))), code[k - 1]);
      }
    }
  }

  /** A cancellation changes nothing that came before it: up to the step at which a thread is cancelled
      it has done what it would have done had it not been cancelled. */
  lemma CancelledIsPrefix(p: Program, w: World)
    ensures Executable(Flatten(p))
    ensures var m := RunFlat(Flatten(p), Start(w));
            && m.pc <= |Flatten(p)|
            && m.w.trace <= Scopes(p, Never(w)).0.trace
            && |m.w.trace| == |w.trace| + Acts(Flatten(p)[..m.pc]) + |PoppedHandlers(Flatten(p)[..m.pc])|
            && m.w.cancelType == RunFlat(Flatten(p)[..m.pc], Start(Never(w))).w.cancelType
  {
    var code := Flatten(p);
    FlatProgram(p, Start(w));
    FlatProgram(p, Start(Never(w)));
    NeverCancelled(p, Never(w));
    SameUntilCancelled(code, w, |code|);
    assert code[..|code|] == code;
    var m := RunFlat(code, Start(w));
    var so := code[..m.pc];
    assert code == so + code[m.pc..];
    RunFlatAppend(so, code[m.pc..], Start(Never(w)));
    TraceGrows(code[m.pc..], RunFlat(so, Start(Never(w))));
    EventsCounted(so, Never(w), |so|);
    assert so[..|so|] == so;
  }

  /** How many actions a piece of code has. */
  function Acts(code: seq<Instr>): nat
    decreases |code|
  {
    if code == [] then 0
    else
      var i := code[|code| - 1];
      Acts(code[..|code| - 1]) + (if i.Step? && i.s.Act? then 1 else 0)
  }

  lemma TickCounted(code: seq<Instr>, w: World, k: nat, m: Machine)
    requires Executable(code) && k < |code| && Standing(code, w, k, m) && !m.cancelled && m.w.budget < 0
    ensures |Tick(m, code[k]).w.trace| - |m.w.trace|
         == Acts(code[..k + 1]) - Acts(code[..k]) + |PoppedHandlers(code[..k + 1])| - |PoppedHandlers(code[..k])|
  {
    assert code[..k + 1][..k] == code[..k] && code[..k + 1][k] == code[k];
    assert |Handlers(m.frames)| == |Open(code[..k])|;
  }

  lemma {:induction false} EventsCounted(code: seq<Instr>, w: World, k: nat)
    requires Executable(code) && k <= |code| && w.budget < 0
    ensures Executable(code[..k])
    ensures var m := RunFlat(code[..k], Start(w));
            |m.w.trace| == |w.trace| + Acts(code[..k]) + |PoppedHandlers(code[..k])|
    decreases k
  {
    if k == 0 {
    } else {
      EventsCounted(code, w, k - 1);
      RunStands(code, w, k - 1);
      RunFlatMore(code, Start(w), k - 1);
      TickCounted(code, w, k - 1, RunFlat(code[..k - 1], Start(w)));
    }
  }

  // ----- the cancel type -----

  /** Handlers here, and statements outside deferred blocks, leave the cancel type alone. Inside a
      deferred block anything goes. */
  predicate KeepsType(p: Program)
    decreases p
  {
    p.Cons? ==>
      && !p.head.SetType?
      && (p.head.Block? ==> p.head.handler.sets.None? && (p.head.kind.Defer? || KeepsType(p.head.body)))
      && KeepsType(p.tail)
  }

  /** Deferred blocks put back the cancel type, whatever is done in them and however they nest. */
  lemma {:induction false} TypeRestored(p: Program, w: World)
    requires BreaksSafely(p) && KeepsType(p) && Scopes(p, w).1 != Cancelled
    ensures Scopes(p, w).0.cancelType == w.cancelType
    decreases p
  {
    if p.Nil? {
    } else {
      var s := p.head;
      var (w', o) := ScopeStmt(s, w);
      if s.Block? {
        if s.kind.Plain? {
          TypeRestored(s.body, w);
        } else {
          if o != Cancelled { OutcomeOf(s.body, Pushed(Defer, w)); }
        }
      }
      if o == Fell {
        TypeRestored(p.tail, w');
      }
    }
  }

  lemma {:induction false} TrimmedKeepsType(p: Program)
    requires KeepsType(p)
    ensures KeepsType(Trimmed(p))
    decreases p
  {
    if p.Nil? || p.head.Break? {
    } else {
      if p.head.Block? && p.head.kind.Plain? {
        TrimmedKeepsType(p.head.body);
      }
      TrimmedKeepsType(p.tail);
    }
  }

  /** In the jump-buffer form they put it back even if they are left by `Break`. */
  lemma JumpTypeRestored(p: Program, w: World)
    requires KeepsType(p) && Jumps(p, w).1 != Cancelled
    ensures Jumps(p, w).0.cancelType == w.cancelType
  {
    BreakIsFallingThrough(p, w);
    TrimmedKeepsType(p);
    NoBreakIsSafe(Trimmed(p));
    TypeRestored(Trimmed(p), w);
  }

  /** A block has been left through its pop: of its handlers, last, its own runs exactly when `execute`
      is not zero, and in a deferred block under the type from before the push, whatever the body did
      to it; and that type is in force afterwards unless the handler sets another. */
  ghost predicate LeftByPop(s: Stmt, saved: CancelType, inner: World, w': World)
    requires s.Block?
  {
    var t := TypeAtPop(s.kind, saved, inner.cancelType);
    if s.execute != 0 then
      w'.trace == inner.trace + [Ran(s.handler, t)] && w'.cancelType == TypeAfter(s.handler, t)
    else
      w'.trace == inner.trace && w'.cancelType == t
  }

  /** In the scope forms, that is how one block is left at its end. */
  lemma BlockPop(s: Stmt, w: World)
    requires s.Block? && !Breaks(s.body)
    ensures var inner := Scopes(s.body, Pushed(s.kind, w));
            var (w', o) := ScopeStmt(s, w);
            && (o == Cancelled <==> inner.1 == Cancelled)
            && (o != Cancelled ==> LeftByPop(s, w.cancelType, inner.0, w'))
  {
    if Scopes(s.body, Pushed(s.kind, w)).1 != Cancelled { OutcomeOf(s.body, Pushed(s.kind, w)); }
  }

  /** In the jump-buffer form, it is how one block is left at its end or by `Break`. */
  lemma JumpBlockPop(s: Stmt, w: World)
    requires s.Block?
    ensures var inner := Jumps(s.body, Pushed(s.kind, w));
            var (w', o) := JumpStmt(s, w);
            && (o == Cancelled <==> inner.1 == Cancelled)
            && (o != Cancelled ==> LeftByPop(s, w.cancelType, inner.0, w'))
  {
  }

  /** Nothing in the program, at any depth, sets the cancel type. */
  predicate NeverSets(p: Program)
    decreases p
  {
    p.Cons? ==>
      && !p.head.SetType?
      && (p.head.Block? ==> p.head.handler.sets.None? && NeverSets(p.head.body))
      && NeverSets(p.tail)
  }

  ghost predicate DeferredFrom(trace: seq<Event>, from: nat) {
    forall i :: from <= i < |trace| ==> trace[i].t == Deferred
  }

  /** A program begun in deferred mode that never sets the type runs in deferred mode throughout, its
      handlers included, even when it is cancelled; so the body of a deferred block does. */
  lemma {:induction false} DeferredThroughout(p: Program, w: World)
    requires NeverSets(p) && w.cancelType == Deferred
    ensures var w' := Scopes(p, w).0;
            w'.cancelType == Deferred && w.trace <= w'.trace && DeferredFrom(w'.trace, |w.trace|)
    decreases p
  {
    if p.Nil? {
    } else {
      var s := p.head;
      if s.Block? {
        DeferredThroughout(s.body, Pushed(s.kind, w));
      }
      var (w', o) := ScopeStmt(s, w);
      if o == Fell {
        DeferredThroughout(p.tail, w');
      }
    }
  }
}
