/**
 The sigsetjmp expansion, compiled to the flat code a thread executes: the prologue of a
 push is a re-entry point, and cancellation jumps to the buffer registered last.
 */
module JumpMachine {
  import opened CleanupLanguage
  import opened CleanupSemantics

  /** Buffers are named by the nesting depth of the block that declares them. */
  datatype Instr =
    | Simple(code: Code)                       // not a sequence, not a block
    | SigSetJmp(buf: nat)
    | IfFirstCall                              // skips the two instructions of the re-entry branch
    | CallHandler(handler: Handler)
    | UnwindNext(buf: nat)
    | Register(buf: nat, defer: bool)          // __pthread_register_cancel, or its _defer variant
    | Unregister(buf: nat, restore: bool)      // __pthread_unregister_cancel, or its _restore variant
    | Boundary                                 // an instant between two calls
    | IfExecute(execute: int)                  // skips the handler call when zero

  predicate Plain(i: Instr) { i.Simple? ==> !i.code.Seq? && !i.code.Block? }

  /** __pthread_unwind_buf_t: where sigsetjmp returns to again, and the type saved on registration. */
  datatype Buffer = Buffer(resume: nat, saved: CancelType)

  /** `Misused`: a library call whose contract the code broke. Nothing is assumed of what happens then. */
  datatype Status = Running | Halted(how: How) | Misused

  /** `why` is the reason of the unwinding in progress, if there is one. */
  datatype Machine = Machine(st: State, pc: nat, notFirst: bool, bufs: map<nat, Buffer>,
                             registered: seq<nat>, status: Status, why: How)

  function Push(buf: nat, h: Handler, defer: bool): seq<Instr> {
    [SigSetJmp(buf), IfFirstCall, CallHandler(h), UnwindNext(buf), Register(buf, defer)]
  }

  function PopCode(buf: nat, h: Handler, defer: bool, execute: int): seq<Instr> {
    [Unregister(buf, defer)] + (if defer then [Boundary] else []) + [IfExecute(execute), CallHandler(h)]
  }

  function Compile(p: Code, depth: nat): seq<Instr> {
    match p
    case Seq(a, b) => Compile(a, depth) + Compile(b, depth)
    case Block(h, defer, body, execute) =>
      Push(depth, h, defer) + Compile(body, depth + 1) + PopCode(depth, h, defer, execute)
    case _ => [Simple(p)]
  }

  /** The buffer registered last, the one unwinding jumps to. */
  predicate IsTop(m: Machine, buf: nat) {
    m.registered != [] && m.registered[|m.registered| - 1] == buf && buf in m.bufs
  }

  /** Assumed of the library: unwinding resumes at the buffer registered last, or ends the thread. */
  function Unwind(m: Machine): Machine {
    if m.registered == [] then m.(status := Halted(m.why)) else
    var top := m.registered[|m.registered| - 1];
    if IsTop(m, top) then m.(pc := m.bufs[top].resume, notFirst := true) else m.(status := Misused)
  }

  function Next(m: Machine): Machine { m.(pc := m.pc + 1) }

  function Drop(m: Machine): Machine {
    if m.registered == [] then m else m.(registered := m.registered[..|m.registered| - 1])
  }

  /** May cancellation be acted upon just before this instruction? (Simple code sees to its own instants.) */
  predicate HasInstant(i: Instr) {
    i.SigSetJmp? || i.Register? || i.Unregister? || i.Boundary? || i.IfExecute?
  }

  function Step(code: seq<Instr>, m: Machine): Machine {
    if !m.status.Running? then m
    else if m.pc >= |code| then m.(status := Halted(Completed))
    else if !HasInstant(code[m.pc]) then Exec(code[m.pc], m)
    else if m.st.Strikes(false) then Unwind(m.(why := Cancelled))
    else Exec(code[m.pc], m.(st := m.st.Tick()))
  }

  function Exec(i: Instr, m: Machine): Machine {
    match i
    case Simple(p) =>
      var r := Run(Jump, p, m.st);
      if r.how.Completed? then Next(m.(st := r.st)) else Unwind(m.(st := r.st, why := r.how))
    case SigSetJmp(buf) => Next(m.(bufs := m.bufs[buf := Buffer(m.pc + 1, Deferred)], notFirst := false))
    case IfFirstCall => if m.notFirst then Next(m) else m.(pc := m.pc + 3)
    case CallHandler(h) => Next(m.(st := m.st.Call(h)))
    case UnwindNext(buf) => if IsTop(m, buf) then Unwind(Drop(m)) else m.(status := Misused)
    case Register(buf, defer) =>
      if buf !in m.bufs then m.(status := Misused) else
      var m' := m.(registered := m.registered + [buf]);
      if defer
      then Next(m'.(bufs := m.bufs[buf := m.bufs[buf].(saved := m.st.ctype)], st := m.st.(ctype := Deferred)))
      else Next(m')
    case Unregister(buf, restore) =>
      if !IsTop(m, buf) then m.(status := Misused) else
      Next(if restore then Drop(m).(st := m.st.(ctype := m.bufs[buf].saved)) else Drop(m))
    case Boundary => Next(m)
    case IfExecute(execute) => if execute != 0 then Next(m) else m.(pc := m.pc + 2)
  }

  /** Unwinding machines that go on alike: the same but for the clock, and for where a halted one stood. */
  predicate UnwindsAlike(a: Machine, b: Machine) {
    && a.st.ctype == b.st.ctype && a.st.trace == b.st.trace && a.bufs == b.bufs && a.registered == b.registered
    && a.status == b.status && a.why == b.why && (a.status.Running? ==> a.pc == b.pc && a.notFirst && b.notFirst)
  }

  /**
   The two places where no instant is modelled add no outcome: cancelled between sigsetjmp
   and the test of its result a thread unwinds as it does just before the registration, and
   cancelled between the test of `execute` and the call as it does just before the test.
   */
  lemma BetweenInstants(code: seq<Instr>, m: Machine)
    requires m.status.Running? && m.pc < |code| && !m.st.Strikes(false)
    requires (code[m.pc].IfFirstCall? && !m.notFirst) || (code[m.pc].IfExecute? && code[m.pc].execute != 0)
    ensures UnwindsAlike(Unwind(m.(why := Cancelled)), Unwind(Step(code, m).(why := Cancelled)))
  {
  }

  function Steps(code: seq<Instr>, m: Machine, n: nat): Machine
    decreases n
  {
    if n == 0 then m else Steps(code, Step(code, m), n - 1)
  }

  ghost predicate Reaches(code: seq<Instr>, m: Machine, m': Machine) {
    exists n: nat :: Steps(code, m, n) == m'
  }

  lemma {:induction false} StepsAdd(code: seq<Instr>, m: Machine, n: nat, k: nat)
    ensures Steps(code, m, n + k) == Steps(code, Steps(code, m, n), k)
    decreases n
  {
    if n > 0 { StepsAdd(code, Step(code, m), n - 1, k); }
  }

  lemma ReachesStep(code: seq<Instr>, m: Machine)
    ensures Reaches(code, m, Step(code, m))
  {
    assert Steps(code, m, 1) == Steps(code, Step(code, m), 0);
  }

  lemma ReachesTrans(code: seq<Instr>, a: Machine, b: Machine, c: Machine)
    requires Reaches(code, a, b) && Reaches(code, b, c)
    ensures Reaches(code, a, c)
  {
    var n: nat :| Steps(code, a, n) == b;
    var k: nat :| Steps(code, b, k) == c;
    StepsAdd(code, a, n, k);
    assert Steps(code, a, n + k) == c;
  }

  lemma {:induction false} Stopped(code: seq<Instr>, m: Machine, n: nat)
    requires !m.status.Running?
    ensures Steps(code, m, n) == m
    decreases n
  {
    if n > 0 { Stopped(code, m, n - 1); }
  }

  lemma ThenStep(code: seq<Instr>, a: Machine, b: Machine) returns (c: Machine)
    requires Reaches(code, a, b)
    ensures c == Step(code, b) && Reaches(code, a, c)
  {
    c := Step(code, b);
    ReachesStep(code, b);
    ReachesTrans(code, a, b, c);
  }
}
