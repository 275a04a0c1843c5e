/** The same machine in place: a thread, its program counter, and the library's list of registered buffers. */
module JumpCleanup {
  import opened CancelThread
  import opened CleanupLanguage
  import opened CleanupSemantics
  import opened JumpMachine
  import JumpCorrectness

  class JumpThread {
    const th: Thread
    var pc: nat
    var notFirst: bool
    var bufs: map<nat, Buffer>
    var registered: seq<nat>
    var status: Status
    var why: How

    function View(): Machine
      reads this, th
    {
      Machine(th.View(), pc, notFirst, bufs, registered, status, why)
    }

    constructor (th: Thread)
      ensures this.th == th && View() == JumpCorrectness.Start(th.View())
    {
      this.th := th;
      pc, notFirst, bufs, registered, status, why := 0, false, map[], [], Running, Completed;
    }

    /** __sigsetjmp, when it is called and not returned to by a jump. */
    method SigSetJmp(buf: nat)
      modifies `bufs, `notFirst
      ensures bufs == old(bufs)[buf := Buffer(pc + 1, CancelType.Deferred)] && !notFirst
    {
      bufs, notFirst := bufs[buf := Buffer(pc + 1, CancelType.Deferred)], false;
    }

    /** Assumed contract of __pthread_register_cancel and __pthread_register_cancel_defer. */
    method RegisterCancel(buf: nat, defer: bool)
      requires buf in bufs
      modifies th, `bufs, `registered
      ensures registered == old(registered) + [buf]
      ensures bufs == if defer then old(bufs)[buf := old(bufs)[buf].(saved := old(th.ctype))] else old(bufs)
      ensures th.View() == if defer then old(th.View()).(ctype := CancelType.Deferred) else old(th.View())
    {
      registered := registered + [buf];
      if defer {
        var oldType := th.SetCancelType(CancelType.Deferred);
        bufs := bufs[buf := bufs[buf].(saved := oldType)];
      }
    }

    /** Assumed contract of __pthread_unregister_cancel and __pthread_unregister_cancel_restore. */
    method UnregisterCancel(buf: nat, restore: bool)
      requires buf in bufs && registered != [] && registered[|registered| - 1] == buf
      modifies th, `registered
      ensures registered == old(registered)[..|old(registered)| - 1]
      ensures th.View() == if restore then old(th.View()).(ctype := bufs[buf].saved) else old(th.View())
    {
      registered := registered[..|registered| - 1];
      if restore { var _ := th.SetCancelType(bufs[buf].saved); }
    }

    /** Assumed of the library: a jump to the buffer registered last, or the end of the thread. */
    method Unwind()
      requires registered != [] ==> registered[|registered| - 1] in bufs
      modifies `pc, `notFirst, `status
      ensures View() == JumpMachine.Unwind(old(View()))
    {
      if registered == [] {
        status := Halted(why);
      } else {
        pc, notFirst := bufs[registered[|registered| - 1]].resume, true;
      }
    }

    /** __pthread_unwind_next: on to the buffer registered before this one. */
    method UnwindNext(buf: nat)
      requires IsTop(View(), buf) && !JumpMachine.Unwind(Drop(View())).status.Misused?
      modifies `pc, `notFirst, `status, `registered
      ensures View() == JumpMachine.Unwind(Drop(old(View())))
    {
      registered := registered[..|registered| - 1];
      Unwind();
    }

    method Perform(i: Instr)
      requires status.Running? && !Exec(i, View()).status.Misused?
      requires Plain(i)
      modifies this, th
      ensures View() == Exec(i, old(View()))
    {
      match i
      case Simple(p) =>
        var how := th.Simple(p, Jump);
        if how.Completed? { pc := pc + 1; } else { why := how; Unwind(); }
      case SigSetJmp(buf) => SigSetJmp(buf); pc := pc + 1;
      case IfFirstCall => pc := if notFirst then pc + 1 else pc + 3;
      case CallHandler(h) => th.Call(h); pc := pc + 1;
      case UnwindNext(buf) => UnwindNext(buf);
      case Register(buf, defer) => RegisterCancel(buf, defer); pc := pc + 1;
      case Unregister(buf, restore) => UnregisterCancel(buf, restore); pc := pc + 1;
      case Boundary => pc := pc + 1;
      case IfExecute(execute) => pc := if execute != 0 then pc + 1 else pc + 2;
    }

    method StepOnce(code: seq<Instr>)
      requires status.Running? && !Step(code, View()).status.Misused?
      requires forall i :: i in code ==> Plain(i)
      modifies this, th
      ensures View() == Step(code, old(View()))
    {
      if pc >= |code| { status := Halted(Completed); return; }
      if HasInstant(code[pc]) {
        var struck := th.Instant(false);
        if struck { why := Cancelled; Unwind(); return; }
      }
      Perform(code[pc]);
    }

    /** Runs a thread's code to its end. */
    method Execute(p: Code) returns (how: How)
      requires View() == JumpCorrectness.Start(th.View())
      modifies this, th
      ensures Outcome(how, th.View()) == Run(Jump, p, old(th.View()))
      ensures registered == []
    {
      hide Exec, HasInstant, Run, Compile, Reaches;
      var code := JumpCorrectness.Program(p);
      JumpCorrectness.CompiledSimple(p, 0);
      ghost var final := JumpCorrectness.ProgramMeansRun(p, th.View());
      ghost var left: nat :| Steps(code, View(), left) == final;
      while status.Running?
        invariant Steps(code, View(), left) == final
        decreases left
      {
        if Step(code, View()).status.Misused? { Stopped(code, Step(code, View()), left - 1); }
        StepOnce(code);
        left := left - 1;
      }
      Stopped(code, View(), left);
      how := status.how;
    }
  }
}
