/**
 When do the scoped expansions and the sigsetjmp expansion mean the same? Always, except
 that the sigsetjmp expansion loses one handler when cancellation strikes, asynchronously,
 inside a push or between the bookkeeping of a pop and its handler call.
 */
module CleanupAgreement {
  import opened CleanupLanguage
  import opened CleanupSemantics
  import opened CleanupProperties

  /** Code started under type `t` passes, as its instant number `c`, one of those instants with async cancellation. */
  predicate LostAt(p: Code, t: CancelType, c: int) {
    match p
    case Seq(a, b) => LostAt(a, t, c) || (!Exits(a) && LostAt(b, TypeAfter(a, t), c - Ticks(a)))
    case Block(_, defer, body, execute) =>
      var inner := BodyType(defer, t);
      || (t.Asynchronous? && c == 1)
      || LostAt(body, inner, c - 2)
      || (!Exits(body) && LostInPop(defer, execute, if defer then t else TypeAfter(body, inner), c - 2 - Ticks(body)))
    case _ => false
  }

  predicate LostInPop(defer: bool, execute: int, popped: CancelType, c: int) {
    popped.Asynchronous? && ((defer && c == 1) || (execute != 0 && c == if defer then 2 else 1))
  }

  /** The same trace but for a single handler call. */
  ghost predicate OneCallMissing(full: seq<Event>, part: seq<Event>) {
    exists i :: MissingAt(full, part, i)
  }

  ghost predicate MissingAt(full: seq<Event>, part: seq<Event>, i: int) {
    0 <= i < |full| == |part| + 1 && full[i].Ran? && full[..i] == part[..i] && full[i + 1..] == part[i..]
  }

  ghost predicate Compare(lost: bool, scoped: Outcome, jump: Outcome) {
    if lost then
      && scoped.how.Cancelled?
      && jump == scoped.(st := scoped.st.(trace := jump.st.trace))
      && OneCallMissing(scoped.st.trace, jump.st.trace)
    else scoped == jump
  }

  lemma MissingAtEnd(trace: seq<Event>, e: Event)
    requires e.Ran?
    ensures OneCallMissing(trace + [e], trace)
  {
    assert MissingAt(trace + [e], trace, |trace|);
  }

  lemma MissingThenCall(full: seq<Event>, part: seq<Event>, e: Event)
    requires OneCallMissing(full, part)
    ensures OneCallMissing(full + [e], part + [e])
  {
    var i :| MissingAt(full, part, i);
    assert (full + [e])[i + 1..] == full[i + 1..] + [e] && (part + [e])[i..] == part[i..] + [e];
    assert MissingAt(full + [e], part + [e], i);
  }

  lemma {:induction false} LostInside(p: Code, t: CancelType, c: int)
    requires LostAt(p, t, c)
    ensures 0 <= c
    ensures !Exits(p) ==> c < Ticks(p)
  {
    match p
    case Seq(a, b) =>
      if LostAt(a, t, c) { LostInside(a, t, c); } else { LostInside(b, TypeAfter(a, t), c - Ticks(a)); }
    case Block(_, defer, body, execute) =>
      if LostAt(body, BodyType(defer, t), c - 2) { LostInside(body, BodyType(defer, t), c - 2); }
  }

  /**
   Main result, for all code and every instant at which cancellation may act. Both styles
   end alike; they do the same unless the instant is a losing one, and then the sigsetjmp
   expansion does the same but for one handler call.
   */
  lemma {:induction false} ExpansionsAgree(p: Code, s: State)
    ensures Compare(LostAt(p, s.ctype, s.clock), Run(Scoped, p, s), Run(Jump, p, s))
  {
    match p
    case Seq(a, b) =>
      ExpansionsAgree(a, s);
      var r := Run(Scoped, a, s);
      CompletedRun(Scoped, a, s);
      if r.how.Completed? {
        ExpansionsAgree(b, r.st);
      } else if LostAt(b, TypeAfter(a, s.ctype), s.clock - Ticks(a)) && !Exits(a) {
        LostInside(b, TypeAfter(a, s.ctype), s.clock - Ticks(a));
        NotCompleted(Scoped, a, s);
      }
    case Block(h, defer, body, execute) =>
      var inner := Pushed(defer, s);
      MissingAtEnd(s.trace, Ran(h, s.ctype));
      if !s.Strikes(false) && !s.Tick().Strikes(false) {
        ExpansionsAgree(body, inner);
        BodyAgrees(h, defer, body, execute, s);
      } else if LostAt(body, inner.ctype, inner.clock) {
        LostInside(body, inner.ctype, inner.clock);
      }
    case _ =>
  }

  /** A run that neither completes nor calls pthread_exit was cancelled. */
  lemma {:induction false} NotCompleted(style: Style, p: Code, s: State)
    requires !Exits(p) && !Run(style, p, s).how.Completed?
    ensures Run(style, p, s).how.Cancelled? && 0 <= s.clock < Ticks(p)
  {
    match p
    case Seq(a, b) =>
      var r := Run(style, a, s);
      CompletedRun(style, a, s);
      if r.how.Completed? { NotCompleted(style, b, r.st); } else { NotCompleted(style, a, s); }
    case Block(h, defer, body, execute) =>
      var r := Run(style, body, Pushed(defer, s));
      CompletedRun(style, body, Pushed(defer, s));
      if !s.Strikes(false) && !s.Tick().Strikes(false) && !r.how.Completed? {
        NotCompleted(style, body, Pushed(defer, s));
      }
    case _ =>
  }

  lemma PopAgrees(h: Handler, defer: bool, execute: int, saved: CancelType, s: State)
    ensures Compare(LostInPop(defer, execute, if defer then saved else s.ctype, s.clock),
                    Pop(Scoped, h, defer, execute, saved, s), Pop(Jump, h, defer, execute, saved, s))
  {
    MissingAtEnd(s.trace, Ran(h, if defer then saved else s.ctype));
  }

  lemma BodyAgrees(h: Handler, defer: bool, body: Code, execute: int, s: State)
    requires !s.Strikes(false) && !s.Tick().Strikes(false)
    requires var inner := Pushed(defer, s);
             Compare(LostAt(body, inner.ctype, inner.clock), Run(Scoped, body, inner), Run(Jump, body, inner))
    ensures var p := Block(h, defer, body, execute);
            Compare(LostAt(p, s.ctype, s.clock), Run(Scoped, p, s), Run(Jump, p, s))
  {
    hide OneCallMissing, Pop;
    var inner := Pushed(defer, s);
    var a, b := Run(Scoped, body, inner), Run(Jump, body, inner);
    CompletedRun(Scoped, body, inner);
    if LostAt(body, inner.ctype, inner.clock) {
      MissingThenCall(a.st.trace, b.st.trace, Ran(h, a.st.ctype));
    } else if a.how.Completed? {
      PopAgrees(h, defer, execute, s.ctype, a.st);
    } else if !Exits(body) {
      NotCompleted(Scoped, body, inner);
    }
  }

  // ----- agreement as a property of the code alone -----

  /** Some block is pushed, or some pop calls its handler, while cancellation is asynchronous. */
  predicate Exposed(p: Code, t: CancelType) {
    match p
    case Seq(a, b) => Exposed(a, t) || (!Exits(a) && Exposed(b, TypeAfter(a, t)))
    case Block(_, defer, body, execute) =>
      || t.Asynchronous?
      || Exposed(body, BodyType(defer, t))
      || (!defer && !Exits(body) && execute != 0 && TypeAfter(body, t).Asynchronous?)
    case _ => false
  }

  lemma {:induction false} ExposedHasInstant(p: Code, t: CancelType) returns (c: nat)
    requires Exposed(p, t)
    ensures LostAt(p, t, c)
  {
    match p
    case Seq(a, b) =>
      if Exposed(a, t) {
        c := ExposedHasInstant(a, t);
      } else {
        c := ExposedHasInstant(b, TypeAfter(a, t));
        c := c + Ticks(a);
      }
    case Block(_, defer, body, execute) =>
      if t.Asynchronous? {
        c := 1;
      } else if Exposed(body, BodyType(defer, t)) {
        c := ExposedHasInstant(body, BodyType(defer, t));
        c := c + 2;
      } else {
        c := Ticks(body) + 3;
      }
  }

  lemma {:induction false} InstantIsExposed(p: Code, t: CancelType, c: int)
    requires LostAt(p, t, c)
    ensures Exposed(p, t)
  {
    match p
    case Seq(a, b) =>
      if LostAt(a, t, c) { InstantIsExposed(a, t, c); } else { InstantIsExposed(b, TypeAfter(a, t), c - Ticks(a)); }
    case Block(_, defer, body, execute) =>
      if LostAt(body, BodyType(defer, t), c - 2) { InstantIsExposed(body, BodyType(defer, t), c - 2); }
  }

  /** The expansions agree at every instant exactly when the code never pushes, or pops with a call, out in the open. */
  lemma AgreeEverywhere(p: Code, t: CancelType, trace: seq<Event>)
    ensures (forall c: int :: Run(Scoped, p, State(t, c, trace)) == Run(Jump, p, State(t, c, trace)))
            <==> !Exposed(p, t)
  {
    if Exposed(p, t) {
      var c := ExposedHasInstant(p, t);
      ExpansionsAgree(p, State(t, c, trace));
    } else {
      forall c: int
        ensures Run(Scoped, p, State(t, c, trace)) == Run(Jump, p, State(t, c, trace))
      {
        ExpansionsAgree(p, State(t, c, trace));
        if LostAt(p, t, c) { InstantIsExposed(p, t, c); }
      }
    }
  }

  /** In a thread that keeps the default type, the macros mean one thing whichever way they expand. */
  lemma {:induction false} DefaultTypeAgrees(p: Code, s: State)
    requires NoSetType(p) && s.ctype.Deferred?
    ensures Run(Scoped, p, s) == Run(Jump, p, s)
  {
    ExpansionsAgree(p, s);
    NeverExposed(p);
    if LostAt(p, s.ctype, s.clock) { InstantIsExposed(p, s.ctype, s.clock); }
  }

  lemma {:induction false} NeverExposed(p: Code)
    requires NoSetType(p)
    ensures !Exposed(p, Deferred) && TypeAfter(p, Deferred).Deferred?
  {
    match p
    case Seq(a, b) =>
      NeverExposed(a);
      NeverExposed(b);
    case Block(_, _, body, _) => NeverExposed(body);
    case _ =>
  }

  /** A concrete loss: popping with a nonzero `execute` under asynchronous cancellation. */
  lemma LostHandler(h: Handler)
    ensures var p, s := Block(h, false, Skip, 1), State(Asynchronous, 3, []);
            && Run(Scoped, p, s).st.trace == [Ran(h, Asynchronous)]
            && Run(Jump, p, s).st.trace == []
  {
    assert Run(Scoped, Skip, Pushed(false, State(Asynchronous, 3, []))).how.Completed?;
  }

  /** Inside a push: the scoped frame is there already, the buffer is not. */
  lemma LostInPush(h: Handler, defer: bool, body: Code, execute: int, trace: seq<Event>)
    ensures var p, s := Block(h, defer, body, execute), State(Asynchronous, 1, trace);
            && Run(Scoped, p, s) == Outcome(Cancelled, State(Asynchronous, 0, trace + [Ran(h, Asynchronous)]))
            && Run(Jump, p, s) == Outcome(Cancelled, State(Asynchronous, 0, trace))
  {
  }

  /** Just after a pop restored the asynchronous type: a scoped frame still counts as open, even when it is popped with zero. */
  lemma LostOnRestore(h: Handler, execute: int)
    ensures var p, s := Block(h, true, Skip, execute), State(Asynchronous, 3, []);
            && Run(Scoped, p, s).how.Cancelled? && Run(Scoped, p, s).st.trace == [Ran(h, Asynchronous)]
            && Run(Jump, p, s).how.Cancelled? && Run(Jump, p, s).st.trace == []
  {
    assert Run(Scoped, Skip, Pushed(true, State(Asynchronous, 3, []))).how.Completed?;
  }
}
