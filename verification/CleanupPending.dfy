/**
 A cancellation request that arrives at some instant stays pending until an instant allows
 it to act. Such runs are the runs of a clock, so the results about clocks cover them.
 */
module CleanupPending {
  import opened CleanupLanguage
  import opened CleanupSemantics
  import opened CleanupTimeline
  import opened CleanupAgreement

  /** Walks a timeline with a request arriving at instant number `arrival`. */
  function PlayPending(line: seq<Moment>, final: CancelType, arrival: int, trace: seq<Event>): Outcome {
    if line == [] then Outcome(Completed, State(final, arrival, trace)) else
    match line[0]
    case Instant(enabled, t, owed) =>
      if arrival <= 0 && enabled then Outcome(Cancelled, State(t, arrival, trace + Calls(owed, t)))
      else PlayPending(line[1..], final, arrival - 1, trace)
    case Happens(e) => PlayPending(line[1..], final, arrival, trace + [e])
    case Ends(t, owed) => Outcome(Exited, State(t, arrival, trace + Calls(owed, t)))
  }

  /** The number of the first instant, from number `arrival` on, at which cancellation can act; -1 if there is none. */
  function ActsAt(line: seq<Moment>, arrival: int): int {
    if line == [] || line[0].Ends? then -1
    else if line[0].Happens? then ActsAt(line[1..], arrival)
    else if arrival <= 0 && line[0].enabled then 0
    else var later := ActsAt(line[1..], arrival - 1); if later < 0 then -1 else later + 1
  }

  /** Moment `i` can let a request act that arrived at instant number `arrival`. */
  predicate CanActAt(line: seq<Moment>, i: nat, arrival: int) {
    && i < |line| && line[i].Instant? && line[i].enabled && arrival <= InstantsIn(line[..i])
    && forall j: nat :: j < i ==> !line[j].Ends?
  }

  lemma CanActLater(line: seq<Moment>, i: nat, arrival: int)
    requires line != [] && !line[0].Ends?
    ensures CanActAt(line, i + 1, arrival) <==> CanActAt(line[1..], i, if line[0].Instant? then arrival - 1 else arrival)
  {
    if i + 1 < |line| {
      assert line[..i + 1][1..] == line[1..][..i];
      assert (forall j: nat :: j < i + 1 ==> !line[j].Ends?) <==> (forall j: nat :: j < i ==> !line[1..][j].Ends?) by {
        assert forall j: nat :: j < i ==> line[1..][j] == line[j + 1];
        assert forall j: nat :: 0 < j < i + 1 ==> line[j] == line[1..][j - 1];
      }
    }
  }

  /** A request acts at the first moment that can let it act, wherever that is: it stays pending until then. */
  lemma {:induction false} ActsAtFirst(line: seq<Moment>, arrival: int, i: nat)
    requires CanActAt(line, i, arrival) && forall j: nat :: j < i ==> !CanActAt(line, j, arrival)
    ensures ActsAt(line, arrival) == InstantsIn(line[..i])
  {
    if i > 0 {
      assert !CanActAt(line, 0, arrival) && !line[0].Ends?;
      var later := if line[0].Instant? then arrival - 1 else arrival;
      CanActLater(line, i - 1, arrival);
      forall j: nat | j < i - 1
        ensures !CanActAt(line[1..], j, later)
      {
        CanActLater(line, j, arrival);
      }
      assert line[..i][1..] == line[1..][..i - 1];
      ActsAtFirst(line[1..], later, i - 1);
    }
  }

  lemma {:induction false} ActsNowhere(line: seq<Moment>, arrival: int)
    requires forall i: nat :: !CanActAt(line, i, arrival)
    ensures ActsAt(line, arrival) == -1
  {
    if line != [] && !line[0].Ends? {
      assert !CanActAt(line, 0, arrival);
      var later := if line[0].Instant? then arrival - 1 else arrival;
      forall i: nat
        ensures !CanActAt(line[1..], i, later)
      {
        CanActLater(line, i, arrival);
      }
      ActsNowhere(line[1..], later);
    }
  }

  /** The same to an observer: everything but the clock. */
  predicate SameObserved(a: Outcome, b: Outcome) {
    a.how == b.how && a.st.ctype == b.st.ctype && a.st.trace == b.st.trace
  }

  /** A thread running code in which a request arrives at instant number `arrival`. */
  function RunPending(style: Style, p: Code, t: CancelType, arrival: int, trace: seq<Event>): Outcome {
    PlayPending(Timeline(style, p, t, []), TypeAfter(p, t), arrival, trace)
  }

  lemma {:induction false} PendingIsClock(line: seq<Moment>, final: CancelType, arrival: int, trace: seq<Event>, clock: int)
    requires clock == ActsAt(line, arrival) || (clock < 0 && ActsAt(line, arrival) < 0)
    ensures SameObserved(PlayPending(line, final, arrival, trace), Play(line, final, clock, trace))
  {
    if line != [] {
      var m := line[0];
      if m.Happens? {
        PendingIsClock(line[1..], final, arrival, trace + [m.event], clock);
      } else if m.Instant? && !(arrival <= 0 && m.enabled) {
        PendingIsClock(line[1..], final, arrival - 1, trace, clock - 1);
      }
    }
  }

  /** Every pending request acts as a clock does. */
  lemma PendingRunIsRun(style: Style, p: Code, t: CancelType, arrival: int, trace: seq<Event>)
    ensures var clock := ActsAt(Timeline(style, p, t, []), arrival);
            SameObserved(RunPending(style, p, t, arrival, trace), Run(style, p, State(t, clock, trace)))
  {
    var line := Timeline(style, p, t, []);
    var s := State(t, ActsAt(line, arrival), trace);
    PendingIsClock(line, TypeAfter(p, t), arrival, trace, s.clock);
    RunIsTimeline(style, p, s, []);
    assert Unwound(Run(style, p, s), []).st.trace == Run(style, p, s).st.trace;
  }

  // ----- both styles let a request act at the same instants -----

  predicate SameMoment(a: Moment, b: Moment) {
    match a
    case Instant(enabled, t, _) => b.Instant? && b.enabled == enabled && b.ctype == t
    case Happens(_) => b == a
    case Ends(t, _) => b.Ends? && b.ctype == t
  }

  predicate SameShape(a: seq<Moment>, b: seq<Moment>) {
    |a| == |b| && forall i :: 0 <= i < |a| ==> SameMoment(a[i], b[i])
  }

  lemma SameShapeAppend(a: seq<Moment>, b: seq<Moment>, a': seq<Moment>, b': seq<Moment>)
    requires SameShape(a, b) && SameShape(a', b')
    ensures SameShape(a + a', b + b')
  {
  }

  lemma PushLinesSameShape(h: Handler, t: CancelType, open: seq<Handler>)
    ensures SameShape(PushLine(Scoped, h, t, open), PushLine(Jump, h, t, open))
  {
  }

  lemma PopLinesSameShape(h: Handler, defer: bool, execute: int, saved: CancelType, t: CancelType, open: seq<Handler>)
    ensures SameShape(PopLine(Scoped, h, defer, execute, saved, t, open), PopLine(Jump, h, defer, execute, saved, t, open))
  {
  }

  lemma {:induction false} TimelinesSameShape(p: Code, t: CancelType, open: seq<Handler>)
    ensures SameShape(Timeline(Scoped, p, t, open), Timeline(Jump, p, t, open))
  {
    match p
    case Seq(a, b) =>
      hide SameShape;
      TimelinesSameShape(a, t, open);
      TimelinesSameShape(b, TypeAfter(a, t), open);
      SameShapeAppend(Timeline(Scoped, a, t, open), Timeline(Jump, a, t, open),
                      Timeline(Scoped, b, TypeAfter(a, t), open), Timeline(Jump, b, TypeAfter(a, t), open));
    case Block(h, defer, body, execute) =>
      hide SameShape, PopLine;
      var inner := BodyType(defer, t);
      var x, y := Timeline(Scoped, body, inner, [h] + open), Timeline(Jump, body, inner, [h] + open);
      var push, push' := PushLine(Scoped, h, t, open), PushLine(Jump, h, t, open);
      TimelinesSameShape(body, inner, [h] + open);
      PushLinesSameShape(h, t, open);
      PopLinesSameShape(h, defer, execute, t, TypeAfter(body, inner), open);
      SameShapeAppend(push, push', x, y);
      SameShapeAppend(push + x, push' + y, PopLine(Scoped, h, defer, execute, t, TypeAfter(body, inner), open),
                      PopLine(Jump, h, defer, execute, t, TypeAfter(body, inner), open));
    case _ =>
  }

  lemma {:induction false} SameShapeActsAlike(a: seq<Moment>, b: seq<Moment>, arrival: int)
    requires SameShape(a, b)
    ensures ActsAt(a, arrival) == ActsAt(b, arrival)
  {
    if a != [] {
      assert SameMoment(a[0], b[0]);
      if !a[0].Ends? { SameShapeActsAlike(a[1..], b[1..], if a[0].Happens? then arrival else arrival - 1); }
    }
  }

  /**
   With a request arriving at any instant, the expansions do the same to an observer exactly
   when the instant at which it comes to act is not a losing one.
   */
  lemma PendingAgree(p: Code, t: CancelType, arrival: int, trace: seq<Event>)
    ensures SameObserved(RunPending(Scoped, p, t, arrival, trace), RunPending(Jump, p, t, arrival, trace))
            <==> !LostAt(p, t, ActsAt(Timeline(Scoped, p, t, []), arrival))
  {
    TimelinesSameShape(p, t, []);
    SameShapeActsAlike(Timeline(Scoped, p, t, []), Timeline(Jump, p, t, []), arrival);
    PendingRunIsRun(Scoped, p, t, arrival, trace);
    PendingRunIsRun(Jump, p, t, arrival, trace);
    ExpansionsAgree(p, State(t, ActsAt(Timeline(Scoped, p, t, []), arrival), trace));
  }
}
