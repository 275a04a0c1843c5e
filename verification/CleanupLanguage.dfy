/**
 Code that uses the cancellation cleanup macros of pthread.h, and what one thread
 observably does while it runs such code.
 */
module CleanupLanguage {

  datatype CancelType = Deferred | Asynchronous

  /** A cleanup routine together with the argument it was pushed with. */
  datatype Handler = Handler(routine: nat, arg: int)

  /**
   One path through a thread's code. `Block` is a matching push/pop pair: the plain pair
   pthread_cleanup_push/pop, or, when `defer` is set, the pair push_defer_np/pop_restore_np.
   */
  datatype Code =
    | Skip
    | Work(id: nat)                  // anything that is not a cancellation point
    | TestCancel                     // a cancellation point
    | SetType(ctype: CancelType)     // a direct call of pthread_setcanceltype
    | Exit                           // pthread_exit
    | Seq(first: Code, second: Code)
    | Block(handler: Handler, defer: bool, body: Code, execute: int)

  /** What an observer sees; `under` is the cancellation type in force at the time. */
  datatype Event =
    | Did(id: nat, under: CancelType)
    | Ran(handler: Handler, under: CancelType)

  /**
   `clock` counts down to the one instant at which cancellation would be acted upon; it is
   negative once that instant has passed. A request that arrives earlier and stays pending
   acts at the first instant that allows it, which is one value of the clock.
   */
  datatype State = State(ctype: CancelType, clock: int, trace: seq<Event>) {
    function Tick(): State { this.(clock := clock - 1) }

    function Log(e: Event): State { this.(trace := trace + [e]) }

    function Call(h: Handler): State { Log(Ran(h, ctype)) }

    /** Cancellation acts at a cancellation point, or anywhere while it is asynchronous. */
    predicate Strikes(point: bool) { clock == 0 && (point || ctype.Asynchronous?) }
  }

  datatype How = Completed | Exited | Cancelled

  datatype Outcome = Outcome(how: How, st: State)
}
