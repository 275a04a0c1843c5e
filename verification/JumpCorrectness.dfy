/** The flat code does what the structured meaning of the sigsetjmp expansion says. */
module JumpCorrectness {
  import opened CleanupLanguage
  import opened CleanupSemantics
  import opened JumpMachine

  ghost predicate CodeAt(code: seq<Instr>, pc: nat, part: seq<Instr>) {
    pc + |part| <= |code| && forall i :: 0 <= i < |part| ==> code[pc + i] == part[i]
  }

  /** Every registered buffer belongs to an enclosing block. */
  ghost predicate Registered(m: Machine, depth: nat) {
    forall i :: 0 <= i < |m.registered| ==> m.registered[i] < depth && m.registered[i] in m.bufs
  }

  ghost predicate SameBelow(a: map<nat, Buffer>, b: map<nat, Buffer>, depth: nat) {
    forall k: nat :: k < depth && k in a ==> k in b && a[k] == b[k]
  }

  /** From `m`, code of length `len` was left for `m'` with outcome `r`; the buffer stack is as it was. */
  ghost predicate Arrived(m: Machine, m': Machine, r: Outcome, len: nat, depth: nat)
    requires Registered(m, depth)
  {
    && m'.st == r.st && m'.registered == m.registered && SameBelow(m.bufs, m'.bufs, depth)
    && if r.how.Completed? then m'.status.Running? && m'.pc == m.pc + len
       else m'.why == r.how
            && if m.registered == [] then m'.status == Halted(r.how)
               else m'.status.Running? && m'.notFirst
                    && m'.pc == m.bufs[m.registered[|m.registered| - 1]].resume
  }

  lemma CodeParts(code: seq<Instr>, pc: nat, a: seq<Instr>, b: seq<Instr>)
    requires CodeAt(code, pc, a + b)
    ensures CodeAt(code, pc, a) && CodeAt(code, pc + |a|, b)
  {
    forall i | 0 <= i < |a|
      ensures code[pc + i] == a[i]
    {
      assert (a + b)[i] == a[i];
    }
    forall i | 0 <= i < |b|
      ensures code[pc + |a| + i] == b[i]
    {
      assert (a + b)[|a| + i] == b[i];
    }
  }

  lemma CodeIndex(code: seq<Instr>, pc: nat, part: seq<Instr>, i: nat)
    requires CodeAt(code, pc, part) && i < |part|
    ensures code[pc + i] == part[i]
  {
  }

  lemma {:induction false} Simulates(code: seq<Instr>, m: Machine, p: Code, depth: nat) returns (m': Machine)
    requires m.status.Running? && Registered(m, depth) && CodeAt(code, m.pc, Compile(p, depth))
    ensures Reaches(code, m, m') && Arrived(m, m', Run(Jump, p, m.st), |Compile(p, depth)|, depth)
    decreases p, 1
  {
    hide Reaches, Step, Steps;
    match p
    case Seq(a, b) =>
      CodeParts(code, m.pc, Compile(a, depth), Compile(b, depth));
      m' := Simulates(code, m, a, depth);
      if Run(Jump, a, m.st).how.Completed? {
        var mid := m';
        m' := Simulates(code, mid, b, depth);
        ReachesTrans(code, m, mid, m');
        ArrivedOn(m, mid, m', Run(Jump, b, mid.st), |Compile(a, depth)|, |Compile(b, depth)|, depth);
      }
    case Block(h, defer, body, execute) => m' := SimulatesBlock(code, m, h, defer, body, execute, depth);
    case _ => m' := SimulatesSimple(code, m, p, depth);
  }

  lemma SimulatesSimple(code: seq<Instr>, m: Machine, p: Code, depth: nat) returns (m': Machine)
    requires !p.Seq? && !p.Block?
    requires m.status.Running? && Registered(m, depth) && CodeAt(code, m.pc, [Simple(p)])
    ensures Reaches(code, m, m') && Arrived(m, m', Run(Jump, p, m.st), 1, depth)
  {
    hide Reaches, Steps;
    CodeIndex(code, m.pc, [Simple(p)], 0);
    m' := Step(code, m);
    ReachesStep(code, m);
  }

  lemma ArrivedOn(m: Machine, mid: Machine, m': Machine, r: Outcome, len: nat, len': nat, depth: nat)
    requires Registered(m, depth) && Registered(mid, depth)
    requires mid.pc == m.pc + len && mid.registered == m.registered && SameBelow(m.bufs, mid.bufs, depth)
    requires Arrived(mid, m', r, len', depth)
    ensures Arrived(m, m', r, len + len', depth)
  {
  }

  lemma {:induction false} SimulatesBlock(code: seq<Instr>, m: Machine, h: Handler, defer: bool, body: Code,
                                          execute: int, depth: nat) returns (m': Machine)
    requires m.status.Running? && Registered(m, depth)
    requires CodeAt(code, m.pc, Compile(Block(h, defer, body, execute), depth))
    ensures var p := Block(h, defer, body, execute);
            Reaches(code, m, m') && Arrived(m, m', Run(Jump, p, m.st), |Compile(p, depth)|, depth)
    decreases Block(h, defer, body, execute), 0
  {
    hide Reaches, Step, Steps;
    BlockCode(code, m.pc, h, defer, body, execute, depth);
    m' := SimulatesPush(code, m, h, defer, depth);
    if !m.st.Strikes(false) && !m.st.Tick().Strikes(false) {
      var start := m';
      var left := Simulates(code, start, body, depth + 1);
      ReachesTrans(code, m, start, left);
      m' := LeavesBlock(code, m, start, left, Run(Jump, body, start.st), |Compile(body, depth + 1)|, h, defer, execute, depth);
      ReachesTrans(code, m, left, m');
    }
  }

  lemma BlockCode(code: seq<Instr>, pc: nat, h: Handler, defer: bool, body: Code, execute: int, depth: nat)
    requires CodeAt(code, pc, Compile(Block(h, defer, body, execute), depth))
    ensures var b, pop := Compile(body, depth + 1), PopCode(depth, h, defer, execute);
            && |Compile(Block(h, defer, body, execute), depth)| == 5 + |b| + |pop|
            && CodeAt(code, pc, Push(depth, h, defer)) && CodeAt(code, pc + 5, b) && CodeAt(code, pc + 5 + |b|, pop)
            && CodeAt(code, pc + 1, [IfFirstCall, CallHandler(h), UnwindNext(depth)])
  {
    var push := Push(depth, h, defer);
    CodeParts(code, pc, push + Compile(body, depth + 1), PopCode(depth, h, defer, execute));
    CodeParts(code, pc, push, Compile(body, depth + 1));
    PushCode(code, pc, h, defer, depth);
  }

  lemma PushCode(code: seq<Instr>, pc: nat, h: Handler, defer: bool, depth: nat)
    requires CodeAt(code, pc, Push(depth, h, defer))
    ensures CodeAt(code, pc + 1, [IfFirstCall, CallHandler(h), UnwindNext(depth)])
  {
    var push := Push(depth, h, defer);
    assert push == [SigSetJmp(depth)] + ([IfFirstCall, CallHandler(h), UnwindNext(depth)] + [Register(depth, defer)]);
    CodeParts(code, pc, [SigSetJmp(depth)], [IfFirstCall, CallHandler(h), UnwindNext(depth)] + [Register(depth, defer)]);
    CodeParts(code, pc + 1, [IfFirstCall, CallHandler(h), UnwindNext(depth)], [Register(depth, defer)]);
  }

  /** From the end of the body, reached normally or by a jump, to the end of the block. */
  lemma LeavesBlock(code: seq<Instr>, m: Machine, start: Machine, left: Machine, r: Outcome, len: nat,
                    h: Handler, defer: bool, execute: int, depth: nat) returns (m': Machine)
    requires Registered(m, depth) && start.registered == m.registered + [depth] && SameBelow(m.bufs, start.bufs, depth)
    requires start.pc == m.pc + 5 && depth in start.bufs && start.bufs[depth].resume == m.pc + 1
    requires defer ==> start.bufs[depth].saved == m.st.ctype
    requires Registered(start, depth + 1) && Arrived(start, left, r, len, depth + 1)
    requires CodeAt(code, m.pc + 1, [IfFirstCall, CallHandler(h), UnwindNext(depth)])
    requires CodeAt(code, m.pc + 5 + len, PopCode(depth, h, defer, execute))
    ensures Reaches(code, left, m')
    ensures Arrived(m, m', if r.how.Completed? then Pop(Jump, h, defer, execute, m.st.ctype, r.st) else Outcome(r.how, r.st.Call(h)),
                    5 + len + |PopCode(depth, h, defer, execute)|, depth)
  {
    hide Reaches, Step, Steps;
    assert left.registered[..|m.registered|] == m.registered;
    assert Drop(left).registered == m.registered && SameBelow(m.bufs, left.bufs, depth);
    if r.how.Completed? {
      m' := SimulatesPop(code, left, h, defer, execute, depth);
    } else {
      m' := Reenters(code, left, h, depth);
    }
  }

  /** The prologue: either cancelled in it, or the buffer is registered and the body starts. */
  lemma SimulatesPush(code: seq<Instr>, m: Machine, h: Handler, defer: bool, depth: nat) returns (m': Machine)
    requires m.status.Running? && Registered(m, depth) && CodeAt(code, m.pc, Push(depth, h, defer))
    ensures Reaches(code, m, m')
    ensures if m.st.Strikes(false) then Arrived(m, m', Outcome(Cancelled, m.st), 0, depth)
            else if m.st.Tick().Strikes(false) then Arrived(m, m', Outcome(Cancelled, m.st.Tick()), 0, depth)
            else && m'.st == Pushed(defer, m.st) && m'.pc == m.pc + 5 && m'.status.Running?
                 && m'.registered == m.registered + [depth] && SameBelow(m.bufs, m'.bufs, depth)
                 && depth in m'.bufs && m'.bufs[depth].resume == m.pc + 1 && (defer ==> m'.bufs[depth].saved == m.st.ctype)
  {
    hide Reaches, Steps, Run;
    CodeIndex(code, m.pc, Push(depth, h, defer), 0);
    CodeIndex(code, m.pc, Push(depth, h, defer), 1);
    CodeIndex(code, m.pc, Push(depth, h, defer), 4);
    m' := Step(code, m);
    ReachesStep(code, m);
    if !m.st.Strikes(false) {
      m' := ThenStep(code, m, m');
      assert m'.pc == m.pc + 4 && m'.st == m.st.Tick() && m'.registered == m.registered && depth in m'.bufs;
      m' := ThenStep(code, m, m');
    }
  }

  /** Re-entered by a jump, a push calls its handler and passes the unwinding on to the next buffer. */
  lemma Reenters(code: seq<Instr>, m: Machine, h: Handler, depth: nat) returns (m': Machine)
    requires m.status.Running? && m.notFirst && IsTop(m, depth) && Registered(Drop(m), depth)
    requires CodeAt(code, m.pc, [IfFirstCall, CallHandler(h), UnwindNext(depth)])
    ensures Reaches(code, m, m')
    ensures Arrived(Drop(m), m', Outcome(m.why, m.st.Call(h)), 0, depth) || m.why.Completed?
  {
    hide Reaches, Steps, Run;
    var part := [IfFirstCall, CallHandler(h), UnwindNext(depth)];
    CodeIndex(code, m.pc, part, 0);
    CodeIndex(code, m.pc, part, 1);
    CodeIndex(code, m.pc, part, 2);
    m' := Step(code, m);
    ReachesStep(code, m);
    m' := ThenStep(code, m, m');
    assert m' == m.(pc := m.pc + 2, st := m.st.Call(h));
    m' := ThenStep(code, m, m');
  }

  lemma SimulatesPop(code: seq<Instr>, m: Machine, h: Handler, defer: bool, execute: int, depth: nat) returns (m': Machine)
    requires m.status.Running? && CodeAt(code, m.pc, PopCode(depth, h, defer, execute))
    requires IsTop(m, depth) && Registered(Drop(m), depth)
    requires CodeAt(code, m.bufs[depth].resume, [IfFirstCall, CallHandler(h), UnwindNext(depth)])
    ensures Reaches(code, m, m')
    ensures Arrived(Drop(m), m', Pop(Jump, h, defer, execute, m.bufs[depth].saved, m.st), |PopCode(depth, h, defer, execute)|, depth)
  {
    hide Reaches, Steps, Run;
    var pop := PopCode(depth, h, defer, execute);
    CodeIndex(code, m.pc, pop, 0);
    m' := Step(code, m);
    ReachesStep(code, m);
    if m.st.Strikes(false) {
      var jumped := m';
      m' := Reenters(code, jumped, h, depth);
      ReachesTrans(code, m, jumped, m');
      return;
    }
    if defer {
      CodeIndex(code, m.pc, pop, 1);
      if m'.st.Strikes(false) {
        m' := ThenStep(code, m, m');
        return;
      }
      m' := ThenStep(code, m, m');
    }
    var tail := [IfExecute(execute), CallHandler(h)];
    CodeParts(code, m.pc, [Unregister(depth, defer)] + if defer then [Boundary] else [], tail);
    var mid := m';
    m' := SimulatesExecute(code, mid, h, execute, depth);
    ReachesTrans(code, m, mid, m');
  }

  /** The end of a pop: the buffer is gone, the handler not yet called. */
  lemma SimulatesExecute(code: seq<Instr>, m: Machine, h: Handler, execute: int, depth: nat) returns (m': Machine)
    requires m.status.Running? && Registered(m, depth) && CodeAt(code, m.pc, [IfExecute(execute), CallHandler(h)])
    ensures Reaches(code, m, m')
    ensures var done := if execute != 0 then m.st.Call(h) else m.st;
            Arrived(m, m', if m.st.Strikes(false) then Outcome(Cancelled, m.st) else Outcome(Completed, done.Tick()), 2, depth)
  {
    hide Reaches, Steps, Run;
    CodeIndex(code, m.pc, [IfExecute(execute), CallHandler(h)], 0);
    CodeIndex(code, m.pc, [IfExecute(execute), CallHandler(h)], 1);
    m' := Step(code, m);
    ReachesStep(code, m);
    if !m.st.Strikes(false) && execute != 0 { m' := ThenStep(code, m, m'); }
  }

  lemma {:induction false} CompiledSimple(p: Code, depth: nat)
    ensures forall i :: i in Compile(p, depth) ==> Plain(i)
  {
    match p
    case Seq(a, b) =>
      CompiledSimple(a, depth);
      CompiledSimple(b, depth);
    case Block(_, _, body, _) => CompiledSimple(body, depth + 1);
    case _ =>
  }

  /** The whole program of a thread. */
  function Program(p: Code): seq<Instr> { Compile(p, 0) }

  function Start(s: State): Machine { Machine(s, 0, false, map[], [], Running, Completed) }

  /** Main result: every thread comes to a halt with the structured outcome and no buffer left registered. */
  lemma ProgramMeansRun(p: Code, s: State) returns (m': Machine)
    ensures Reaches(Program(p), Start(s), m')
    ensures m'.status == Halted(Run(Jump, p, s).how) && m'.st == Run(Jump, p, s).st && m'.registered == []
  {
    var code, m := Program(p), Start(s);
    m' := Simulates(code, m, p, 0);
    if m'.status.Running? { m' := ThenStep(code, m, m'); }
  }

  /** Along the whole run every buffer is initialised before use, and only the one registered last is unregistered. */
  lemma NeverMisused(p: Code, s: State, n: nat)
    ensures !Steps(Program(p), Start(s), n).status.Misused?
  {
    var code := Program(p);
    var final := ProgramMeansRun(p, s);
    var k: nat :| Steps(code, Start(s), k) == final;
    var m := Steps(code, Start(s), n);
    if n <= k {
      StepsAdd(code, Start(s), n, k - n);
      if m.status.Misused? { Stopped(code, m, k - n); }
    } else {
      StepsAdd(code, Start(s), k, n - k);
      Stopped(code, final, n - k);
    }
  }
}
