/** The three expansions of the cleanup macros side by side, each run on a thread of its own. */
module CleanupExpansions {
  import opened CleanupLanguage
  import opened CleanupSemantics
  import opened CancelThread
  import opened CleanupAgreement
  import opened CleanupProperties
  import CxxCleanup
  import GnuCleanup
  import JumpCleanup

  /**
   The C++ object and the cleanup attribute always do the same. The sigsetjmp expansion does
   the same exactly when cancellation does not strike, asynchronously, inside a push
   or between the bookkeeping of a pop and its handler call; and then one call is missing.
   */
  method RunAll(p: Code, s: State) returns (cxx: Outcome, gnu: Outcome, jump: Outcome)
    ensures cxx == gnu == Run(Scoped, p, s)
    ensures cxx == jump <==> !LostAt(p, s.ctype, s.clock)
    ensures cxx != jump ==> cxx.how.Cancelled? && jump.how.Cancelled? && OneCallMissing(cxx.st.trace, jump.st.trace)
    ensures NoSetType(p) && s.ctype.Deferred? ==> cxx == jump
  {
    var th := new Thread(s);
    var how := CxxCleanup.Execute(p, th);
    cxx := Outcome(how, th.View());
    th := new Thread(s);
    how := GnuCleanup.Execute(p, th);
    gnu := Outcome(how, th.View());
    th := new Thread(s);
    var machine := new JumpCleanup.JumpThread(th);
    how := machine.Execute(p);
    jump := Outcome(how, th.View());
    ExpansionsAgree(p, s);
    if NoSetType(p) && s.ctype.Deferred? { DefaultTypeAgrees(p, s); }
  }
}
