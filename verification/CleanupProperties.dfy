/** Consequences for whole runs. */
module CleanupProperties {
  import opened CleanupLanguage
  import opened CleanupSemantics

  /** The handlers called in a trace, in the order of the calls. */
  function Handlers(trace: seq<Event>): seq<Handler> {
    if trace == [] then [] else
    var e := trace[|trace| - 1];
    Handlers(trace[..|trace| - 1]) + if e.Ran? then [e.handler] else []
  }

  /** The handlers that completing code pops with a nonzero `execute`: inner blocks before outer ones. */
  function Popped(p: Code): seq<Handler> {
    match p
    case Seq(a, b) => Popped(a) + Popped(b)
    case Block(h, _, body, execute) => Popped(body) + if execute != 0 then [h] else []
    case _ => []
  }

  lemma HandlersLog(trace: seq<Event>, e: Event)
    ensures Handlers(trace + [e]) == Handlers(trace) + if e.Ran? then [e.handler] else []
  {
    assert (trace + [e])[..|trace|] == trace;
  }

  lemma HandlersOfPop(style: Style, h: Handler, defer: bool, execute: int, saved: CancelType, s: State)
    ensures var r := Pop(style, h, defer, execute, saved, s);
            r.how.Completed? ==> Handlers(r.st.trace) == Handlers(s.trace) + if execute != 0 then [h] else []
  {
    HandlersLog(s.trace, Ran(h, if defer then saved else s.ctype));
  }

  /** On normal completion each handler ran once if its pop said so and never otherwise, in pop order. */
  lemma {:induction false} HandlersOfCompletedRun(style: Style, p: Code, s: State)
    requires Run(style, p, s).how.Completed?
    ensures Handlers(Run(style, p, s).st.trace) == Handlers(s.trace) + Popped(p)
  {
    hide Handlers;
    match p
    case Seq(a, b) =>
      HandlersOfCompletedRun(style, a, s);
      HandlersOfCompletedRun(style, b, Run(style, a, s).st);
    case Block(h, defer, body, execute) =>
      HandlersOfCompletedRun(style, body, Pushed(defer, s));
      HandlersOfPop(style, h, defer, execute, s.ctype, Run(style, body, Pushed(defer, s)).st);
    case Work(id) => HandlersLog(s.trace, Did(id, s.ctype));
    case _ =>
  }

  /** No direct call of pthread_setcanceltype. */
  predicate NoSetType(p: Code) {
    match p
    case SetType(_) => false
    case Seq(a, b) => NoSetType(a) && NoSetType(b)
    case Block(_, _, body, _) => NoSetType(body)
    case _ => true
  }

  /** `later` extends `trace` by events under type `t`. */
  predicate ExtendsUnder(trace: seq<Event>, later: seq<Event>, t: CancelType) {
    trace <= later && forall i :: |trace| <= i < |later| ==> later[i].under == t
  }

  /** Without direct calls, deferred code stays deferred however deeply it nests, also while it unwinds. */
  lemma {:induction false} StaysDeferred(style: Style, p: Code, s: State)
    requires NoSetType(p) && s.ctype.Deferred?
    ensures var r := Run(style, p, s);
            ExtendsUnder(s.trace, r.st.trace, Deferred) && r.st.ctype.Deferred?
  {
    match p
    case Seq(a, b) =>
      var r := Run(style, a, s);
      StaysDeferred(style, a, s);
      if r.how.Completed? { StaysDeferred(style, b, r.st); }
    case Block(h, defer, body, execute) => StaysDeferred(style, body, Pushed(defer, s));
    case _ =>
  }

  /**
   A completed push_defer_np/pop_restore_np block leaves the cancellation type it found,
   whatever its body did, and its handler is the last event, run under the restored type.
   */
  lemma RestoresType(style: Style, h: Handler, body: Code, execute: int, s: State)
    requires Run(style, Block(h, true, body, execute), s).how.Completed?
    ensures var r := Run(style, Block(h, true, body, execute), s).st;
            r.ctype == s.ctype && (execute != 0 ==> r.trace != [] && r.trace[|r.trace| - 1] == Ran(h, s.ctype))
  {
    CompletedRun(style, Block(h, true, body, execute), s);
  }

  /** Inside any nesting of blocks under a deferring one, everything happens under deferred cancellation. */
  lemma DeferredInside(style: Style, h: Handler, body: Code, execute: int, s: State)
    requires NoSetType(body)
    ensures var later := Run(style, Block(h, true, body, execute), s).st.trace;
            || ExtendsUnder(s.trace, later, Deferred)
            || (later != [] && later[|later| - 1] == Ran(h, s.ctype) && ExtendsUnder(s.trace, later[..|later| - 1], Deferred))
  {
    if !s.Strikes(false) && !s.Tick().Strikes(false) {
      StaysDeferred(style, body, Pushed(true, s));
    }
  }

  // ----- where a run can be cancelled, and what decides it -----

  /** The work a trace shows, in order. */
  function Worked(trace: seq<Event>): seq<nat> {
    if trace == [] then [] else
    var e := trace[|trace| - 1];
    Worked(trace[..|trace| - 1]) + if e.Did? then [e.id] else []
  }

  /** The work code does when it completes. */
  function WorkOf(p: Code): seq<nat> {
    match p
    case Work(id) => [id]
    case Seq(a, b) => WorkOf(a) + WorkOf(b)
    case Block(_, _, body, _) => WorkOf(body)
    case _ => []
  }

  lemma WorkedLog(trace: seq<Event>, e: Event)
    ensures Worked(trace + [e]) == Worked(trace) + if e.Did? then [e.id] else []
  {
    assert (trace + [e])[..|trace|] == trace;
  }

  /** A completed run did all of its work, once and in order. */
  lemma {:induction false} WorkOfCompletedRun(style: Style, p: Code, s: State)
    requires Run(style, p, s).how.Completed?
    ensures Worked(Run(style, p, s).st.trace) == Worked(s.trace) + WorkOf(p)
  {
    hide Worked;
    match p
    case Seq(a, b) =>
      WorkOfCompletedRun(style, a, s);
      WorkOfCompletedRun(style, b, Run(style, a, s).st);
    case Block(h, defer, body, execute) =>
      WorkOfCompletedRun(style, body, Pushed(defer, s));
      var r := Run(style, body, Pushed(defer, s));
      WorkedLog(r.st.trace, Ran(h, if defer then s.ctype else r.st.ctype));
    case Work(id) => WorkedLog(s.trace, Did(id, s.ctype));
    case _ =>
  }

  /** A direct call of pthread_setcanceltype decides under which type the next step is done. */
  lemma DirectCallDecides(style: Style, p: Code, t: CancelType, id: nat, s: State)
    ensures var r := Run(style, Seq(p, Seq(SetType(t), Work(id))), s);
            r.how.Completed? ==> r.st.ctype == t && r.st.trace != [] && r.st.trace[|r.st.trace| - 1] == Did(id, t)
  {
    var r := Run(style, p, s);
    RunSeq(style, p, Seq(SetType(t), Work(id)), s);
    if r.how.Completed? { RunSeq(style, SetType(t), Work(id), r.st); }
  }

  lemma RunSeq(style: Style, a: Code, b: Code, s: State)
    ensures var r := Run(style, a, s);
            Run(style, Seq(a, b), s) == if r.how.Completed? then Run(style, b, r.st) else r
  {
  }

  /** pthread_exit ends a thread wherever it is called: nothing after it is done. */
  lemma ExitDecides(style: Style, p: Code, q: Code, s: State)
    ensures Run(style, Seq(p, Seq(Exit, q)), s) == Run(style, Seq(p, Exit), s)
    ensures !Run(style, p, s).how.Cancelled? ==> Run(style, Seq(p, Exit), s) == Outcome(Exited, Run(style, p, s).st)
  {
    var r := Run(style, p, s);
    RunSeq(style, p, Seq(Exit, q), s);
    RunSeq(style, p, Exit, s);
    RunSeq(style, Exit, q, r.st);
  }

  /** Instant number `c` of the code is a cancellation point. */
  predicate PointAt(p: Code, c: int) {
    match p
    case TestCancel => c == 0
    case Seq(a, b) => PointAt(a, c) || PointAt(b, c - Ticks(a))
    case Block(_, _, body, _) => PointAt(body, c - 2)
    case _ => false
  }

  lemma {:induction false} PointInside(p: Code, c: int)
    requires PointAt(p, c)
    ensures 0 <= c < Ticks(p)
  {
    match p
    case Seq(a, b) => if PointAt(a, c) { PointInside(a, c); } else { PointInside(b, c - Ticks(a)); }
    case Block(_, _, body, _) => PointInside(body, c - 2);
    case _ =>
  }

  /** Deferred code is cancelled at its cancellation points and nowhere else. */
  lemma {:induction false} CancelledExactly(style: Style, p: Code, s: State)
    requires NoSetType(p) && !Exits(p) && s.ctype.Deferred?
    ensures var r := Run(style, p, s);
            (r.how.Cancelled? <==> PointAt(p, s.clock)) && !r.how.Exited? && r.st.ctype.Deferred?
  {
    match p
    case Seq(a, b) =>
      CancelledExactly(style, a, s);
      var r := Run(style, a, s);
      if r.how.Completed? {
        CompletedRun(style, a, s);
        CancelledExactly(style, b, r.st);
      }
    case Block(h, defer, body, execute) => CancelledExactly(style, body, Pushed(defer, s));
    case _ =>
  }

  lemma ClockUnmetInPop(style: Style, h: Handler, defer: bool, execute: int, saved: CancelType, s: State, clock: int)
    requires s.clock < 0 && (if defer then 3 else 2) <= clock
    ensures var r := Pop(style, h, defer, execute, saved, s);
            && r.how.Completed? && r.st.clock == s.clock - (if defer then 3 else 2)
            && Pop(style, h, defer, execute, saved, s.(clock := clock)) == r.(st := r.st.(clock := r.st.clock + clock - s.clock))
  {
  }

  /** The clock does not matter to a run that does not meet its instant. */
  lemma {:induction false} ClockUnmet(style: Style, p: Code, s: State, clock: int)
    requires s.clock < 0 && Ticks(p) <= clock
    ensures var r, r' := Run(style, p, s), Run(style, p, s.(clock := clock));
            && !r.how.Cancelled?
            && r' == r.(st := r.st.(clock := r.st.clock + clock - s.clock))
            && (r.how.Completed? ==> r.st.clock == s.clock - Ticks(p))
  {
    hide Pop;
    match p
    case Seq(a, b) =>
      ClockUnmet(style, a, s, clock);
      var r := Run(style, a, s);
      if r.how.Completed? { ClockUnmet(style, b, r.st, clock - Ticks(a)); }
    case Block(h, defer, body, execute) =>
      ClockUnmet(style, body, Pushed(defer, s), clock - 2);
      var r := Run(style, body, Pushed(defer, s));
      if r.how.Completed? { ClockUnmetInPop(style, h, defer, execute, s.ctype, r.st, clock - 2 - Ticks(body)); }
    case _ =>
  }

  /**
   Cancellation can strike between any two steps under the asynchronous type, and at a
   cancellation point under either: some clock lets `p` be done and nothing of what follows.
   */
  lemma StruckBetween(style: Style, p: Code, next: Code, t: CancelType, trace: seq<Event>) returns (clock: nat)
    requires var r := Run(style, p, State(t, -1, trace));
             r.how.Completed? && (next.TestCancel? || (r.st.ctype.Asynchronous? && !next.Skip? && !next.Exit? && !next.Seq?))
    ensures var r := Run(style, p, State(t, -1, trace));
            Run(style, Seq(p, next), State(t, clock, trace)) == Outcome(Cancelled, r.st.(clock := 0))
  {
    clock := Ticks(p);
    ClockUnmet(style, p, State(t, -1, trace), clock);
  }

  /** Until its pop begins a block is open: struck just before, it has done its body and calls its handler, whatever `execute` is. */
  lemma StruckBeforePop(style: Style, h: Handler, defer: bool, body: Code, execute: int, t: CancelType, trace: seq<Event>)
      returns (clock: nat)
    requires var r := Run(style, body, State(BodyType(defer, t), -1, trace));
             r.how.Completed? && r.st.ctype.Asynchronous?
    ensures var r := Run(style, body, State(BodyType(defer, t), -1, trace));
            Run(style, Block(h, defer, body, execute), State(t, clock, trace)) == Outcome(Cancelled, r.st.(clock := 0).Call(h))
  {
    clock := Ticks(body) + 2;
    ClockUnmet(style, body, State(BodyType(defer, t), -1, trace), clock - 2);
    assert Pushed(defer, State(t, clock, trace)) == State(BodyType(defer, t), clock - 2, trace);
  }
}
