/**
 What running code built from the macros does. The two scoped expansions (C++ object, GCC
 cleanup attribute) and the sigsetjmp expansion differ in three instants only: inside a
 push, and twice between the bookkeeping of a pop and its handler call.
 */
module CleanupSemantics {
  import opened CleanupLanguage

  datatype Style = Scoped | Jump

  function Run(style: Style, p: Code, s: State): Outcome {
    match p
    case Skip => Outcome(Completed, s)
    case Work(id) =>
      if s.Strikes(false) then Outcome(Cancelled, s) else Outcome(Completed, s.Tick().Log(Did(id, s.ctype)))
    case TestCancel =>
      if s.Strikes(true) then Outcome(Cancelled, s) else Outcome(Completed, s.Tick())
    case SetType(t) =>
      if s.Strikes(false) then Outcome(Cancelled, s) else Outcome(Completed, s.Tick().(ctype := t))
    case Exit => Outcome(Exited, s)
    case Seq(a, b) =>
      var r := Run(style, a, s);
      if r.how.Completed? then Run(style, b, r.st) else r
    case Block(h, defer, body, execute) =>
      if s.Strikes(false) then Outcome(Cancelled, s)
      else if s.Tick().Strikes(false) then
        // a scoped frame already exists here, a jump buffer is not registered yet
        Outcome(Cancelled, if style.Scoped? then s.Tick().Call(h) else s.Tick())
      else
        var r := Run(style, body, Pushed(defer, s));
        if r.how.Completed? then Pop(style, h, defer, execute, s.ctype, r.st)
        else Outcome(r.how, r.st.Call(h))
  }

  /** The state in which the body of a block starts. */
  function Pushed(defer: bool, s: State): State {
    if defer then s.Tick().Tick().(ctype := Deferred) else s.Tick().Tick()
  }

  function Pop(style: Style, h: Handler, defer: bool, execute: int, saved: CancelType, s: State): Outcome {
    if s.Strikes(false) then Outcome(Cancelled, s.Call(h)) else
    var restored := if defer then s.Tick().(ctype := saved) else s.Tick();
    if defer && restored.Strikes(false) then
      Outcome(Cancelled, if style.Scoped? then restored.Call(h) else restored)
    else
      var popped := if defer then restored.Tick() else restored;
      var done := if execute != 0 then popped.Call(h) else popped;
      if popped.Strikes(false) then Outcome(Cancelled, if style.Scoped? then done else popped)
      else Outcome(Completed, done.Tick())
  }

  /** The number of instants that code which completes passes through. */
  function Ticks(p: Code): nat {
    match p
    case Skip => 0
    case Work(_) => 1
    case TestCancel => 1
    case SetType(_) => 1
    case Exit => 0
    case Seq(a, b) => Ticks(a) + Ticks(b)
    case Block(_, defer, body, _) => Ticks(body) + if defer then 5 else 4
  }

  /** The cancellation type after code that started under `t` completes. */
  function TypeAfter(p: Code, t: CancelType): CancelType {
    match p
    case SetType(t') => t'
    case Seq(a, b) => TypeAfter(b, TypeAfter(a, t))
    case Block(_, defer, body, _) => if defer then t else TypeAfter(body, t)
    case _ => t
  }

  function BodyType(defer: bool, t: CancelType): CancelType { if defer then Deferred else t }

  /** Does the code contain a call of pthread_exit (which is then always reached)? */
  predicate Exits(p: Code) {
    match p
    case Exit => true
    case Seq(a, b) => Exits(a) || Exits(b)
    case Block(_, _, body, _) => Exits(body)
    case _ => false
  }

  lemma CompletedPop(style: Style, h: Handler, defer: bool, execute: int, saved: CancelType, s: State)
    ensures var r := Pop(style, h, defer, execute, saved, s);
            && s.trace <= r.st.trace
            && (r.how.Completed? ==>
                  r.st.clock == s.clock - (if defer then 3 else 2) && r.st.ctype == if defer then saved else s.ctype)
  {
  }

  /** A run that completes passes every instant, reaches the static type, and only adds events. */
  lemma {:induction false} CompletedRun(style: Style, p: Code, s: State)
    ensures var r := Run(style, p, s);
            r.how.Completed? ==> r.st.clock == s.clock - Ticks(p) && r.st.ctype == TypeAfter(p, s.ctype) && !Exits(p)
    ensures s.trace <= Run(style, p, s).st.trace
  {
    hide Pop;
    match p
    case Seq(a, b) =>
      CompletedRun(style, a, s);
      var r := Run(style, a, s);
      if r.how.Completed? { CompletedRun(style, b, r.st); }
    case Block(h, defer, body, execute) =>
      CompletedRun(style, body, Pushed(defer, s));
      CompletedPop(style, h, defer, execute, s.ctype, Run(style, body, Pushed(defer, s)).st);
    case _ =>
  }
}
