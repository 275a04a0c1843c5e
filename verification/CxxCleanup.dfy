/** The C++ expansion: the handler is called by the destructor of a scope object. */
module CxxCleanup {
  import opened CancelThread
  import opened CleanupLanguage
  import opened CleanupSemantics

  /** __pthread_cleanup_class. */
  class CleanupObject {
    var routine: Handler
    var doIt: int
    var cancelType: CancelType

    constructor (h: Handler)
      ensures routine == h && doIt == 1
    {
      routine, doIt := h, 1;
    }

    method Destroy(th: Thread)
      modifies th
      ensures th.View() == if doIt != 0 then old(th.View()).Call(routine) else old(th.View())
    {
      if doIt != 0 { th.Call(routine); }
    }

    method SetDoIt(newVal: int)
      modifies `doIt
      ensures doIt == newVal
    {
      doIt := newVal;
    }

    method Defer(th: Thread)
      modifies th, `cancelType
      ensures cancelType == old(th.ctype)
      ensures th.View() == old(th.View()).(ctype := CancelType.Deferred)
    {
      cancelType := th.SetCancelType(CancelType.Deferred);
    }

    method Restore(th: Thread)
      modifies th
      ensures th.View() == old(th.View()).(ctype := cancelType)
    {
      var _ := th.SetCancelType(cancelType);
    }
  }

  /** Every way out of the scope of a block, normal or unwinding, passes the destructor. */
  method Execute(p: Code, th: Thread) returns (how: How)
    modifies th
    ensures Outcome(how, th.View()) == Run(Scoped, p, old(th.View()))
    decreases p
  {
    match p
    case Seq(a, b) =>
      how := Execute(a, th);
      if how.Completed? { how := Execute(b, th); }
    case Block(h, defer, body, execute) =>
      var struck := th.Instant(false);
      if struck { return Cancelled; }
      var frame := new CleanupObject(h);
      label scope: {
        struck := th.Instant(false);
        if struck { how := Cancelled; break scope; }
        if defer {
          frame.Defer(th);
        }
        how := Execute(body, th);
        if !how.Completed? { break scope; }
        struck := th.Instant(false);
        if struck { how := Cancelled; break scope; }
        if defer {
          frame.Restore(th);
          struck := th.Instant(false);
          if struck { how := Cancelled; break scope; }
        }
        frame.SetDoIt(execute);
        struck := th.Instant(false);
        if struck { how := Cancelled; break scope; }
      }
      frame.Destroy(th);
    case _ => how := th.Simple(p, Scoped);
  }
}
