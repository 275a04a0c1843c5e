/**
 The promise of the cleanup macros, told without unwinding anything: a timeline of the
 uncancelled run in which every instant lists the handlers that are installed there.
 A run is a walk along its timeline; cancellation stops the walk and calls that list.
 */
module CleanupTimeline {
  import opened CleanupLanguage
  import opened CleanupSemantics

  datatype Moment =
    | Instant(enabled: bool, ctype: CancelType, owed: seq<Handler>)
    | Happens(event: Event)
    | Ends(ctype: CancelType, owed: seq<Handler>)

  /** `open` holds the handlers of the enclosing blocks, innermost first. */
  function Timeline(style: Style, p: Code, t: CancelType, open: seq<Handler>): seq<Moment> {
    match p
    case Skip => []
    case Work(id) => [Instant(t.Asynchronous?, t, open), Happens(Did(id, t))]
    case TestCancel => [Instant(true, t, open)]
    case SetType(_) => [Instant(t.Asynchronous?, t, open)]
    case Exit => [Ends(t, open)]
    case Seq(a, b) => Timeline(style, a, t, open) + Timeline(style, b, TypeAfter(a, t), open)
    case Block(h, defer, body, execute) =>
      PushLine(style, h, t, open)
      + Timeline(style, body, BodyType(defer, t), [h] + open)
      + PopLine(style, h, defer, execute, t, TypeAfter(body, BodyType(defer, t)), open)
  }

  function PushLine(style: Style, h: Handler, t: CancelType, open: seq<Handler>): seq<Moment> {
    [Instant(t.Asynchronous?, t, open), Instant(t.Asynchronous?, t, if style.Scoped? then [h] + open else open)]
  }

  function PopLine(style: Style, h: Handler, defer: bool, execute: int,
                   saved: CancelType, t: CancelType, open: seq<Handler>): seq<Moment> {
    var after := if defer then saved else t;
    [Instant(t.Asynchronous?, t, [h] + open)]
    + (if defer then [Instant(after.Asynchronous?, after, if style.Scoped? then [h] + open else open)] else [])
    + [Instant(after.Asynchronous?, after, if style.Scoped? && execute != 0 then [h] + open else open)]
    + if execute != 0 then [Happens(Ran(h, after))] else []
  }

  function Calls(hs: seq<Handler>, t: CancelType): (es: seq<Event>) {
    if hs == [] then [] else [Ran(hs[0], t)] + Calls(hs[1..], t)
  }

  /** Walks a timeline until the instant number `clock`, or to its end. */
  function Play(line: seq<Moment>, final: CancelType, clock: int, trace: seq<Event>): Outcome {
    if line == [] then Outcome(Completed, State(final, clock, trace)) else
    match line[0]
    case Instant(enabled, t, owed) =>
      if clock == 0 && enabled then Outcome(Cancelled, State(t, clock, trace + Calls(owed, t)))
      else Play(line[1..], final, clock - 1, trace)
    case Happens(e) => Play(line[1..], final, clock, trace + [e])
    case Ends(t, owed) => Outcome(Exited, State(t, clock, trace + Calls(owed, t)))
  }

  lemma {:induction false} PlayAppend(a: seq<Moment>, b: seq<Moment>, mid: CancelType, final: CancelType,
                                      clock: int, trace: seq<Event>)
    ensures var r := Play(a, mid, clock, trace);
            Play(a + b, final, clock, trace)
            == if r.how.Completed? then Play(b, final, r.st.clock, r.st.trace) else r
  {
    if a == [] {
      assert a + b == b;
    } else {
      assert (a + b)[0] == a[0] && (a + b)[1..] == a[1..] + b;
      match a[0]
      case Instant(_, _, _) => PlayAppend(a[1..], b, mid, final, clock - 1, trace);
      case Happens(e) => PlayAppend(a[1..], b, mid, final, clock, trace + [e]);
      case Ends(_, _) =>
    }
  }

  lemma PlayCons(m: Moment, rest: seq<Moment>, final: CancelType, clock: int, trace: seq<Event>)
    ensures Play([m] + rest, final, clock, trace)
            == if m.Happens? then Play(rest, final, clock, trace + [m.event])
               else if m.Instant? && !(clock == 0 && m.enabled) then Play(rest, final, clock - 1, trace)
               else Outcome(if m.Ends? then Exited else Cancelled,
                            State(m.ctype, clock, trace + Calls(m.owed, m.ctype)))
  {
    assert ([m] + rest)[1..] == rest;
  }

  lemma PlayPush(style: Style, h: Handler, defer: bool, s: State, open: seq<Handler>, final: CancelType)
    ensures var r := Play(PushLine(style, h, s.ctype, open), final, s.clock, s.trace);
            r == if s.Strikes(false) then Unwound(Outcome(Cancelled, s), open)
                 else if s.Tick().Strikes(false) then
                   Unwound(Outcome(Cancelled, if style.Scoped? then s.Tick().Call(h) else s.Tick()), open)
                 else Outcome(Completed, State(final, Pushed(defer, s).clock, s.trace))
  {
    CallsInnermost(h, open, s.ctype, s.trace);
    var line := PushLine(style, h, s.ctype, open);
    assert line == [line[0]] + ([line[1]] + []);
    PlayCons(line[1], [], final, s.clock - 1, s.trace);
    PlayCons(line[0], [line[1]] + [], final, s.clock, s.trace);
  }

  lemma PlayPop(style: Style, h: Handler, defer: bool, execute: int, saved: CancelType, s: State, open: seq<Handler>)
    ensures Play(PopLine(style, h, defer, execute, saved, s.ctype, open), if defer then saved else s.ctype, s.clock, s.trace)
            == Unwound(Pop(style, h, defer, execute, saved, s), open)
  {
    CallsInnermost(h, open, s.ctype, s.trace);
    CallsInnermost(h, open, saved, s.trace);
    var final := if defer then saved else s.ctype;
    var line := PopLine(style, h, defer, execute, saved, s.ctype, open);
    var called := if execute != 0 then [Happens(Ran(h, final))] else [];
    if execute != 0 { PlayCons(called[0], [], final, s.clock - if defer then 3 else 2, s.trace); assert called == [called[0]] + []; }
    if defer {
      assert line == [line[0]] + ([line[1]] + ([line[2]] + called));
      PlayCons(line[2], called, final, s.clock - 2, s.trace);
      PlayCons(line[1], [line[2]] + called, final, s.clock - 1, s.trace);
      PlayCons(line[0], [line[1]] + ([line[2]] + called), final, s.clock, s.trace);
    } else {
      assert line == [line[0]] + ([line[1]] + called);
      PlayCons(line[1], called, final, s.clock - 1, s.trace);
      PlayCons(line[0], [line[1]] + called, final, s.clock, s.trace);
    }
  }

  lemma CallsInnermost(h: Handler, open: seq<Handler>, t: CancelType, trace: seq<Event>)
    ensures trace + Calls([h] + open, t) == trace + [Ran(h, t)] + Calls(open, t)
  {
    assert ([h] + open)[1..] == open;
  }

  /** What a run ends as once the handlers of the blocks around it were called as well. */
  function Unwound(r: Outcome, open: seq<Handler>): Outcome {
    if r.how.Completed? then r else Outcome(r.how, r.st.(trace := r.st.trace + Calls(open, r.st.ctype)))
  }

  /** Main result: for both expansion styles, all code, and every instant, a run is its timeline. */
  lemma {:induction false} RunIsTimeline(style: Style, p: Code, s: State, open: seq<Handler>)
    ensures Play(Timeline(style, p, s.ctype, open), TypeAfter(p, s.ctype), s.clock, s.trace)
            == Unwound(Run(style, p, s), open)
    decreases p, 1
  {
    CompletedRun(style, p, s);
    match p
    case Seq(a, b) =>
      var r := Run(style, a, s);
      CompletedRun(style, a, s);
      RunIsTimeline(style, a, s, open);
      if r.how.Completed? { RunIsTimeline(style, b, r.st, open); }
      PlayAppend(Timeline(style, a, s.ctype, open), Timeline(style, b, TypeAfter(a, s.ctype), open),
                 TypeAfter(a, s.ctype), TypeAfter(p, s.ctype), s.clock, s.trace);
    case Block(h, defer, body, execute) => BlockIsTimeline(style, h, defer, body, execute, s, open);
    case Work(id) =>
      var line := Timeline(style, p, s.ctype, open);
      assert line == [line[0]] + ([line[1]] + []);
      PlayCons(line[1], [], s.ctype, s.clock - 1, s.trace);
      PlayCons(line[0], [line[1]] + [], s.ctype, s.clock, s.trace);
    case _ =>
  }

  lemma {:induction false} BlockIsTimeline(style: Style, h: Handler, defer: bool, body: Code, execute: int,
                                           s: State, open: seq<Handler>)
    ensures var p := Block(h, defer, body, execute);
            Play(Timeline(style, p, s.ctype, open), TypeAfter(p, s.ctype), s.clock, s.trace)
            == Unwound(Run(style, p, s), open)
    decreases Block(h, defer, body, execute), 0
  {
    var p := Block(h, defer, body, execute);
    var inner := Pushed(defer, s);
    var r := Run(style, body, inner);
    var final, bodyFinal := TypeAfter(p, s.ctype), TypeAfter(body, inner.ctype);
    var push := PushLine(style, h, s.ctype, open);
    var line := Timeline(style, body, inner.ctype, [h] + open);
    var pop := PopLine(style, h, defer, execute, s.ctype, bodyFinal, open);
    CompletedRun(style, body, inner);
    PlayAppend(push + line, pop, bodyFinal, final, s.clock, s.trace);
    PlayAppend(push, line, s.ctype, bodyFinal, s.clock, s.trace);
    PlayPush(style, h, defer, s, open, s.ctype);
    RunIsTimeline(style, body, inner, [h] + open);
    if r.how.Completed? { PlayPop(style, h, defer, execute, s.ctype, r.st, open); }
    else { CallsInnermost(h, open, r.st.ctype, r.st.trace); }
  }

  // ----- what can be read off a timeline -----

  function InstantsIn(line: seq<Moment>): nat {
    if line == [] then 0 else (if line[0].Instant? then 1 else 0) + InstantsIn(line[1..])
  }

  function EventsIn(line: seq<Moment>): seq<Event> {
    if line == [] then [] else (if line[0].Happens? then [line[0].event] else []) + EventsIn(line[1..])
  }

  /** Would the walk stop at moment `i`, if it got there? */
  predicate StopsAt(line: seq<Moment>, i: nat, clock: int)
    requires i < |line|
  {
    line[i].Ends? || (line[i].Instant? && line[i].enabled && InstantsIn(line[..i]) == clock)
  }

  /** The walk over `line` is cut at moment `i`, the first that stops it. */
  predicate CutAt(line: seq<Moment>, i: nat, clock: int, trace: seq<Event>, r: Outcome) {
    && i < |line|
    && StopsAt(line, i, clock) && (forall j: nat :: j < i ==> !StopsAt(line, j, clock))
    && r.how == (if line[i].Ends? then Exited else Cancelled)
    && r.st.trace == trace + EventsIn(line[..i]) + Calls(line[i].owed, line[i].ctype)
  }

  lemma {:induction false} PlayStops(line: seq<Moment>, final: CancelType, clock: int, trace: seq<Event>)
    ensures var r := Play(line, final, clock, trace);
            if r.how.Completed? then r.st.trace == trace + EventsIn(line)
            else exists i: nat :: CutAt(line, i, clock, trace, r)
  {
    var r := Play(line, final, clock, trace);
    if line != [] {
      var m := line[0];
      if (m.Instant? && clock == 0 && m.enabled) || m.Ends? {
        assert CutAt(line, 0, clock, trace, r);
      } else {
        var clock', trace' := if m.Instant? then clock - 1 else clock, if m.Happens? then trace + [m.event] else trace;
        PlayStops(line[1..], final, clock', trace');
        if !r.how.Completed? {
          var i: nat :| CutAt(line[1..], i, clock', trace', r);
          CutLater(line, i, clock, trace, r);
        }
      }
    }
  }

  lemma StopsLater(line: seq<Moment>, i: nat, clock: int)
    requires i + 1 < |line|
    ensures StopsAt(line, i + 1, clock) <==> StopsAt(line[1..], i, if line[0].Instant? then clock - 1 else clock)
  {
    assert line[..i + 1][1..] == line[1..][..i];
  }

  lemma CutLater(line: seq<Moment>, i: nat, clock: int, trace: seq<Event>, r: Outcome)
    requires line != [] && !StopsAt(line, 0, clock)
    requires CutAt(line[1..], i, if line[0].Instant? then clock - 1 else clock,
                   if line[0].Happens? then trace + [line[0].event] else trace, r)
    ensures CutAt(line, i + 1, clock, trace, r)
  {
    assert line[..i + 1][1..] == line[1..][..i];
    StopsLater(line, i, clock);
    forall j: nat | j < i + 1
      ensures !StopsAt(line, j, clock)
    {
      if j > 0 { StopsLater(line, j - 1, clock); }
    }
  }

  /**
   A thread whose code is cut short has done exactly what comes before the cut, followed by
   the handlers of the blocks open at the cut, innermost first, each once. The cut is the
   first call of pthread_exit or the struck instant, whichever comes first.
   */
  lemma CutShort(style: Style, p: Code, s: State)
    requires !Run(style, p, s).how.Completed?
    ensures exists i: nat :: CutAt(Timeline(style, p, s.ctype, []), i, s.clock, s.trace, Run(style, p, s))
  {
    RunIsTimeline(style, p, s, []);
    assert Unwound(Run(style, p, s), []).st.trace == Run(style, p, s).st.trace;
    PlayStops(Timeline(style, p, s.ctype, []), TypeAfter(p, s.ctype), s.clock, s.trace);
  }

  /**
   A completed thread has done what its timeline lists, in that order: each handler whose
   pop says so after the body of its block and before what follows the block.
   */
  lemma CompletedTrace(style: Style, p: Code, s: State)
    requires Run(style, p, s).how.Completed?
    ensures Run(style, p, s).st.trace == s.trace + EventsIn(Timeline(style, p, s.ctype, []))
  {
    RunIsTimeline(style, p, s, []);
    PlayStops(Timeline(style, p, s.ctype, []), TypeAfter(p, s.ctype), s.clock, s.trace);
  }
}
