/** The calling thread, as far as cancellation can see it. */
module CancelThread {
  import opened CleanupLanguage
  import CleanupSemantics

  class Thread {
    var ctype: CancelType
    var clock: int
    var trace: seq<Event>

    function View(): State
      reads this
    {
      State(ctype, clock, trace)
    }

    constructor (s: State)
      ensures View() == s
    {
      ctype, clock, trace := s.ctype, s.clock, s.trace;
    }

    /** pthread_setcanceltype. */
    method SetCancelType(newType: CancelType) returns (oldType: CancelType)
      modifies this
      ensures oldType == old(ctype)
      ensures View() == old(View()).(ctype := newType)
    {
      oldType := ctype;
      ctype := newType;
    }

    /** An instant at which a pending cancellation request may be acted upon. */
    method Instant(point: bool) returns (struck: bool)
      modifies this
      ensures struck == old(View()).Strikes(point)
      ensures View() == if struck then old(View()) else old(View()).Tick()
    {
      struck := clock == 0 && (point || ctype.Asynchronous?);
      if !struck { clock := clock - 1; }
    }

    method Do(id: nat)
      modifies this
      ensures View() == old(View()).Log(Did(id, old(ctype)))
    {
      trace := trace + [Did(id, ctype)];
    }

    method Call(h: Handler)
      modifies this
      ensures View() == old(View()).Call(h)
    {
      trace := trace + [Ran(h, ctype)];
    }

    /** Code that is not a cleanup block does the same however the macros expand. */
    method Simple(p: Code, ghost style: CleanupSemantics.Style) returns (how: How)
      requires !p.Seq? && !p.Block?
      modifies this
      ensures Outcome(how, View()) == CleanupSemantics.Run(style, p, old(View()))
    {
      match p
      case Skip => how := Completed;
      case Exit => how := Exited;
      case Work(id) =>
        var struck := Instant(false);
        if !struck { Do(id); }
        how := if struck then Cancelled else Completed;
      case TestCancel =>
        var struck := Instant(true);
        how := if struck then Cancelled else Completed;
      case SetType(t) =>
        var struck := Instant(false);
        if !struck { var _ := SetCancelType(t); }
        how := if struck then Cancelled else Completed;
    }
  }
}
