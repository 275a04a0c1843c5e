/** The C expansion with a cleanup attribute: a frame variable and the function run when it goes out of scope. */
module GnuCleanup {
  import opened CancelThread
  import opened CleanupLanguage
  import opened CleanupSemantics

  /** struct __pthread_cleanup_frame. */
  class CleanupFrame {
    var cancelRoutine: Handler
    var doIt: int
    var cancelType: CancelType

    constructor (h: Handler)
      ensures cancelRoutine == h && doIt == 1
    {
      cancelRoutine, doIt := h, 1;
    }
  }

  /** __pthread_cleanup_routine. */
  method CleanupRoutine(frame: CleanupFrame, th: Thread)
    modifies th
    ensures th.View() == if frame.doIt != 0 then old(th.View()).Call(frame.cancelRoutine) else old(th.View())
  {
    if frame.doIt != 0 { th.Call(frame.cancelRoutine); }
  }

  method Execute(p: Code, th: Thread) returns (how: How)
    modifies th
    ensures Outcome(how, th.View()) == Run(Scoped, p, old(th.View()))
    decreases p
  {
    match p
    case Seq(a, b) =>
      how := Execute(a, th);
      if how.Completed? { how := Execute(b, th); }
    case Block(h, defer, body, execute) =>
      var struck := th.Instant(false);
      if struck { return Cancelled; }
      var frame := new CleanupFrame(h);
      label scope: {
        struck := th.Instant(false);
        if struck { how := Cancelled; break scope; }
        if defer {
          frame.cancelType := th.SetCancelType(CancelType.Deferred);
        }
        how := Execute(body, th);
        if !how.Completed? { break scope; }
        struck := th.Instant(false);
        if struck { how := Cancelled; break scope; }
        if defer {
          var _ := th.SetCancelType(frame.cancelType);
          struck := th.Instant(false);
          if struck { how := Cancelled; break scope; }
        }
        frame.doIt := execute;
        struck := th.Instant(false);
        if struck { how := Cancelled; break scope; }
      }
      CleanupRoutine(frame, th);
    case _ => how := th.Simple(p, Scoped);
  }
}
