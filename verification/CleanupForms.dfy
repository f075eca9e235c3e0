/** The three forms of the cleanup macros as code that updates frames, jump buffers and the thread in
    place (chapter03/share/pthread.h), each verified against Cleanup. */
module CleanupForms {
  import opened Cleanup
  import opened CleanupBreaks

  /** A buffer the thread returns to when it is cancelled, with the handler the block's locals hold
      and the cancel type saved when it was registered. */
  datatype UnwindBuf = UnwindBuf(handler: Handler, saved: CancelType)

  class Thread {
    var cancelType: CancelType
    var trace: seq<Event>
    var budget: int
    var registered: seq<UnwindBuf>

    constructor (w: World)
      ensures View() == w && registered == []
    {
      cancelType, trace, budget, registered := w.cancelType, w.trace, w.budget, [];
    }

    ghost function View(): World
      reads this
    {
      World(cancelType, trace, budget)
    }

    /** `pthread_setcanceltype`, returning the old type. */
    method SetCancelType(t: CancelType) returns (previous: CancelType)
      modifies `cancelType
      ensures cancelType == t && previous == old(cancelType)
    {
      previous := cancelType;
      cancelType := t;
    }

    method CallHandler(h: Handler)
      modifies `cancelType, `trace
      ensures View() == Call(old(View()), h)
    {
      trace := trace + [Ran(h, cancelType)];
      if h.sets.Some? {
        cancelType := h.sets.value;
      }
    }

    /** One step of a body; `cancelled` if the thread is cancelled at it. */
    method DoStep(s: Stmt) returns (cancelled: bool)
      requires s.Act? || s.SetType?
      modifies `cancelType, `trace, `budget
      ensures var (w, o) := BodyStep(s, old(View())); View() == w && cancelled == (o == Cancelled)
    {
      if budget == 0 {
        return true;
      }
      budget := budget - 1;
      if s.Act? {
        trace := trace + [Did(s.id, cancelType)];
      } else {
        var _ := SetCancelType(s.t);
      }
      cancelled := false;
    }

    // ----- the C++ form -----

    method RunClasses(p: Program) returns (o: Outcome)
      modifies `cancelType, `trace, `budget
      ensures (View(), o) == Scopes(p, old(View()))
      decreases p
    {
      o := Fell;
      match p
      case Nil =>
      case Cons(s, rest) =>
        match s {
          case Break => o := Broke;
          case Block(kind, h, body, execute) =>
            var clframe := new CleanupClass(h);
            if kind == Defer {
              clframe.Defer(this);
            }
            var inner := RunClasses(body);
            if inner == Fell {
              if kind == Defer {
                clframe.Restore(this);
              }
              clframe.SetDoIt(execute);
            }
            clframe.Destroy(this);
            o := if inner == Cancelled then Cancelled else Fell;
          case _ =>
            var cancelled := DoStep(s);
            o := if cancelled then Cancelled else Fell;
        }
        if o == Fell {
          o := RunClasses(rest);
        }
    }

    // ----- the form with the cleanup attribute -----

    method RunFrames(p: Program) returns (o: Outcome)
      modifies `cancelType, `trace, `budget
      ensures (View(), o) == Scopes(p, old(View()))
      decreases p
    {
      o := Fell;
      match p
      case Nil =>
      case Cons(s, rest) =>
        match s {
          case Break => o := Broke;
          case Block(kind, h, body, execute) =>
            var clframe := new CleanupFrame(h);
            if kind == Defer {
              clframe.cancelType := SetCancelType(Deferred);
            }
            var inner := RunFrames(body);
            if inner == Fell {
              if kind == Defer {
                var _ := SetCancelType(clframe.cancelType);
              }
              clframe.doIt := execute;
            }
            CleanupRoutine(clframe, this);
            o := if inner == Cancelled then Cancelled else Fell;
          case _ =>
            var cancelled := DoStep(s);
            o := if cancelled then Cancelled else Fell;
        }
        if o == Fell {
          o := RunFrames(rest);
        }
    }

    // ----- the form with jump buffers -----

    /** `__pthread_register_cancel`, or `__pthread_register_cancel_defer`. */
    method Register(kind: Kind, h: Handler)
      modifies `registered, `cancelType
      ensures registered == old(registered) + [UnwindBuf(h, old(cancelType))]
      ensures View() == Pushed(kind, old(View()))
    {
      registered := registered + [UnwindBuf(h, cancelType)];
      if kind == Defer {
        var _ := SetCancelType(Deferred);
      }
    }

    /** `__pthread_unregister_cancel`, or `__pthread_unregister_cancel_restore`. */
    method Unregister(kind: Kind) returns (buf: UnwindBuf)
      requires registered != []
      modifies `registered, `cancelType
      ensures registered == old(registered)[..|old(registered)| - 1]
      ensures buf == old(registered)[|old(registered)| - 1]
      ensures View() == if kind.Defer? then old(View()).(cancelType := buf.saved) else old(View())
    {
      buf := registered[|registered| - 1];
      registered := registered[..|registered| - 1];
      if kind == Defer {
        var _ := SetCancelType(buf.saved);
      }
    }

    /** The thread is cancelled: it jumps to the last buffer, whose block calls its handler and goes on
        to the buffer before (`__pthread_unwind_next`), until none is left. */
    method Unwind()
      modifies `registered, `cancelType, `trace
      ensures registered == []
      ensures View() == Unwound(old(View()), Frames(old(registered)))
    {
      ghost var goal := Unwound(View(), Frames(registered));
      while registered != []
        invariant Unwound(View(), Frames(registered)) == goal
        decreases |registered|
      {
        ghost var frames := Frames(registered);
        var buf := registered[|registered| - 1];
        registered := registered[..|registered| - 1];
        assert Frames(registered) == frames[..|frames| - 1];
        CallHandler(buf.handler);
      }
    }

    /** The jump-buffer form. When the thread is cancelled inside, the handlers of the blocks around
        the program have been run too, for control never comes back to them. */
    method RunJumps(p: Program) returns (o: Outcome)
      modifies this
      ensures var (w, inner) := Jumps(p, old(View()));
              && o == inner
              && (o != Cancelled ==> View() == w && registered == old(registered))
              && (o == Cancelled ==> View() == Unwound(w, Frames(old(registered))) && registered == [])
      decreases p
    {
      o := Fell;
      match p
      case Nil =>
      case Cons(s, rest) =>
        match s {
          case Break => o := Broke;
          case Block(kind, h, body, execute) =>
            ghost var outer := registered;
            Register(kind, h);
            FramesOfPush(outer, UnwindBuf(h, old(cancelType)));
            var inner := RunJumps(body);
            if inner == Cancelled {
              return Cancelled;
            }
            var buf := Unregister(kind);
            assert registered == outer;
            if execute != 0 {
              CallHandler(buf.handler);
            }
          case _ =>
            var cancelled := DoStep(s);
            if cancelled {
              Unwind();
              return Cancelled;
            }
        }
        if o == Fell {
          o := RunJumps(rest);
        }
    }
  }

  ghost function Frames(bufs: seq<UnwindBuf>): seq<Frame> {
    seq(|bufs|, i requires 0 <= i < |bufs| => Frame(Plain, bufs[i].handler, bufs[i].saved))
  }

  /** Unwinding past one more buffer calls its handler first. */
  lemma FramesOfPush(outer: seq<UnwindBuf>, buf: UnwindBuf)
    ensures var frames := Frames(outer + [buf]);
            && |frames| == |outer| + 1
            && frames[|outer|].handler == buf.handler
            && frames[..|outer|] == Frames(outer)
  {
  }

  /** `__pthread_cleanup_class` */
  class CleanupClass {
    var handler: Handler
    var doIt: int
    var cancelType: CancelType

    constructor (h: Handler)
      ensures handler == h && doIt == 1
    {
      handler, doIt := h, 1;
      cancelType := Deferred;  // indeterminate in the source until it is saved
    }

    /** The destructor. */
    method Destroy(thread: Thread)
      modifies thread`cancelType, thread`trace
      ensures thread.View() == if doIt != 0 then Call(old(thread.View()), handler) else old(thread.View())
    {
      if doIt != 0 {
        thread.CallHandler(handler);
      }
    }

    method SetDoIt(newval: int)
      modifies `doIt
      ensures doIt == newval
    {
      doIt := newval;
    }

    method Defer(thread: Thread)
      modifies `cancelType, thread`cancelType
      ensures cancelType == old(thread.cancelType) && thread.cancelType == Deferred
    {
      cancelType := thread.SetCancelType(Deferred);
    }

    method Restore(thread: Thread)
      modifies thread`cancelType
      ensures thread.cancelType == cancelType
    {
      var _ := thread.SetCancelType(cancelType);
    }
  }

  /** `struct __pthread_cleanup_frame` */
  class CleanupFrame {
    var handler: Handler
    var doIt: int
    var cancelType: CancelType

    constructor (h: Handler)
      ensures handler == h && doIt == 1
    {
      handler, doIt := h, 1;
      cancelType := Deferred;  // indeterminate in the source until it is saved
    }
  }

  /** `__pthread_cleanup_routine`, called by the compiler when a frame goes out of scope. */
  method CleanupRoutine(frame: CleanupFrame, thread: Thread)
    modifies thread`cancelType, thread`trace
    ensures thread.View() == if frame.doIt != 0 then Call(old(thread.View()), frame.handler) else old(thread.View())
  {
    if frame.doIt != 0 {
      thread.CallHandler(frame.handler);
    }
  }

  /** Three threads running the same program in the three forms, from the same cancel type and
      cancelled at the same step if at all. The two scope forms do the same and end with the same cancel
      type, and so does the third where the program's text says that the forms agree. */
  method RunAllForms(p: Program, w: World)
    returns (a: Thread, b: Thread, c: Thread, oa: Outcome, ob: Outcome, oc: Outcome)
    ensures (a.View(), oa) == (b.View(), ob) == Scopes(p, w)
    ensures (c.View(), oc) == Jumps(p, w)
    ensures AgreesFrom(p, w.cancelType) ==> (a.View(), oa) == (b.View(), ob) == (c.View(), oc)
  {
    a := new Thread(w);
    b := new Thread(w);
    c := new Thread(w);
    oa := a.RunClasses(p);
    ob := b.RunFrames(p);
    oc := c.RunJumps(p);
    if AgreesFrom(p, w.cancelType) {
      AgreeingForms(p, w);
    }
  }
}
