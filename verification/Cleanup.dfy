/** Cancellation-cleanup blocks (chapter03/share/pthread.h): programs of nested blocks, what a thread
    running one does, and what cancelling it at any step of a block's body runs. */
module Cleanup {

  datatype CancelType = Deferred | Asynchronous

  datatype Option<T> = None | Some(value: T)

  /** A handler and its argument; it may itself set the thread's cancel type. */
  datatype Handler = Handler(routine: int, arg: int, sets: Option<CancelType>)

  /** `pthread_cleanup_push`/`pop`, or `push_defer_np`/`pop_restore_np`. */
  datatype Kind = Plain | Defer

  /** A statement of a block's body. `Break` leaves the innermost enclosing block. */
  datatype Stmt =
    | Act(id: int)
    | SetType(t: CancelType)
    | Break
    | Block(kind: Kind, handler: Handler, body: Program, execute: int)

  datatype Program = Nil | Cons(head: Stmt, tail: Program)

  /** What can be seen of a run: the body's own actions, and handlers with the cancel type in force. */
  datatype Event = Did(id: int, t: CancelType) | Ran(handler: Handler, t: CancelType)

  /** A thread's cancel type, what it has done, and after how many more body steps it is cancelled;
      never, if `budget` is negative. */
  datatype World = World(cancelType: CancelType, trace: seq<Event>, budget: int)

  datatype Outcome = Fell | Broke | Cancelled

  function Call(w: World, h: Handler): World {
    World(if h.sets.Some? then h.sets.value else w.cancelType, w.trace + [Ran(h, w.cancelType)], w.budget)
  }

  /** One step of a body, at which the thread may be cancelled. */
  function BodyStep(s: Stmt, w: World): (World, Outcome)
    requires s.Act? || s.SetType?
  {
    if w.budget == 0 then (w, Cancelled)
    else if s.Act? then (World(w.cancelType, w.trace + [Did(s.id, w.cancelType)], w.budget - 1), Fell)
    else (World(s.t, w.trace, w.budget - 1), Fell)
  }

  function Pushed(kind: Kind, w: World): World {
    if kind.Defer? then w.(cancelType := Deferred) else w
  }

  /** A block left at its end: the saved type is put back, then the handler runs if asked. */
  function Popped(kind: Kind, h: Handler, execute: int, saved: CancelType, w: World): World {
    var w' := if kind.Defer? then w.(cancelType := saved) else w;
    if execute != 0 then Call(w', h) else w'
  }

  // ----- the forms in which the block is a scope with a destructor -----

  function ScopeStmt(s: Stmt, w: World): (World, Outcome)
    decreases s
  {
    match s
    case Break => (w, Broke)
    case Block(kind, h, body, execute) =>
      var (w', o) := Scopes(body, Pushed(kind, w));
      if o == Fell then (Popped(kind, h, execute, w.cancelType, w'), Fell)
      else (Call(w', h), if o == Broke then Fell else Cancelled)
    case _ => BodyStep(s, w)
  }

  function Scopes(p: Program, w: World): (World, Outcome)
    decreases p
  {
    match p
    case Nil => (w, Fell)
    case Cons(s, rest) =>
      var (w', o) := ScopeStmt(s, w);
      if o == Fell then Scopes(rest, w') else (w', o)
  }

  // ----- the form in which the block registers a jump buffer -----

  function JumpStmt(s: Stmt, w: World): (World, Outcome)
    decreases s
  {
    match s
    case Break => (w, Broke)
    case Block(kind, h, body, execute) =>
      var (w', o) := Jumps(body, Pushed(kind, w));
      if o == Cancelled then (Call(w', h), Cancelled)
      else (Popped(kind, h, execute, w.cancelType, w'), Fell)
    case _ => BodyStep(s, w)
  }

  function Jumps(p: Program, w: World): (World, Outcome)
    decreases p
  {
    match p
    case Nil => (w, Fell)
    case Cons(s, rest) =>
      var (w', o) := JumpStmt(s, w);
      if o == Fell then Jumps(rest, w') else (w', o)
  }

  // ----- leaving blocks by Break -----

  /** A `Break` at the level of this body, not inside a block nested in it. */
  predicate Breaks(p: Program) {
    p.Cons? && (p.head.Break? || Breaks(p.tail))
  }

  /** Every block that is left by `Break` is a plain one whose handler is to be executed anyway. */
  predicate BreaksSafely(p: Program)
    decreases p
  {
    p.Cons? ==>
      && (p.head.Block? ==>
            && BreaksSafely(p.head.body)
            && (Breaks(p.head.body) ==> p.head.kind.Plain? && p.head.execute != 0))
      && BreaksSafely(p.tail)
  }

  predicate NoBreak(p: Program)
    decreases p
  {
    p.Cons? ==> !p.head.Break? && (p.head.Block? ==> NoBreak(p.head.body)) && NoBreak(p.tail)
  }

  /** A program that is not cancelled ends in a `Break` if it has one at its own level. */
  lemma {:induction false} OutcomeOf(p: Program, w: World)
    requires Scopes(p, w).1 != Cancelled
    ensures Scopes(p, w).1 == if Breaks(p) then Broke else Fell
    decreases p
  {
    if p.Nil? || p.head.Break? {
    } else {
      OutcomeOf(p.tail, ScopeStmt(p.head, w).0);
    }
  }

  lemma {:induction false} NoBreakIsSafe(p: Program)
    requires NoBreak(p)
    ensures BreaksSafely(p) && !Breaks(p)
    decreases p
  {
    if p.Nil? {
    } else {
      if p.head.Block? {
        NoBreakIsSafe(p.head.body);
      }
      NoBreakIsSafe(p.tail);
    }
  }

  // ----- an explicit stack of handlers -----

  /** A program without its nesting: what the thread meets one after the other. A scope is left at its
      pop, or by a `Break`. */
  datatype Instr = Step(s: Stmt) | Push(kind: Kind, handler: Handler) | Pop(execute: int) | Leave

  function FlattenStmt(s: Stmt): seq<Instr>
    decreases s
  {
    if s.Block? then
      [Push(s.kind, s.handler)] + Flatten(s.body) + [if Breaks(s.body) then Leave else Pop(s.execute)]
    else
      [Step(s)]
  }

  /** What comes after a `Break` in the same body is never met. */
  function Flatten(p: Program): seq<Instr>
    decreases p
  {
    if p.Nil? || p.head.Break? then [] else FlattenStmt(p.head) + Flatten(p.tail)
  }

  /** A pushed handler with the type in force before it was pushed. */
  datatype Frame = Frame(kind: Kind, handler: Handler, saved: CancelType)

  /** Where a thread stands in flat code: how much is done, its world, and its stack of frames. */
  datatype Machine = Machine(w: World, frames: seq<Frame>, pc: nat, cancelled: bool)

  predicate Executable(code: seq<Instr>) {
    forall i :: 0 <= i < |code| ==> code[i].Step? ==> code[i].s.Act? || code[i].s.SetType?
  }

  /** Execute one instruction; a cancelled machine stays where it is. */
  function Tick(m: Machine, i: Instr): Machine
    requires i.Step? ==> i.s.Act? || i.s.SetType?
  {
    if m.cancelled then m
    else match i
      case Step(s) =>
        var (w, o) := BodyStep(s, m.w);
        if o == Cancelled then m.(cancelled := true) else m.(w := w, pc := m.pc + 1)
      case Push(kind, h) =>
        Machine(Pushed(kind, m.w), m.frames + [Frame(kind, h, m.w.cancelType)], m.pc + 1, false)
      case Pop(execute) =>
        if m.frames == [] then m.(pc := m.pc + 1)
        else
          var f := m.frames[|m.frames| - 1];
          Machine(Popped(f.kind, f.handler, execute, f.saved, m.w), m.frames[..|m.frames| - 1], m.pc + 1, false)
      case Leave =>
        if m.frames == [] then m.(pc := m.pc + 1)
        else
          var f := m.frames[|m.frames| - 1];
          Machine(Call(m.w, f.handler), m.frames[..|m.frames| - 1], m.pc + 1, false)
  }

  function RunFlat(code: seq<Instr>, m: Machine): Machine
    requires Executable(code)
    decreases |code|
  {
    if code == [] then m else RunFlat(code[1..], Tick(m, code[0]))
  }

  /** Run the handlers of all frames, innermost first. */
  function Unwound(w: World, frames: seq<Frame>): World
    decreases |frames|
  {
    if frames == [] then w
    else Unwound(Call(w, frames[|frames| - 1].handler), frames[..|frames| - 1])
  }
}
