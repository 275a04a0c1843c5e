/** What the comments of features.h promise about any selection of feature-test macros. */
module FeatureProperties {
  import opened FeatureMacros

  /** Running the header on its own result changes nothing. */
  lemma ResolvedTwice(c: Compiler, e: Macros, before: set<Use>)
    requires !Malformed(e)
    ensures !Malformed(Resolved(e)) && Resolved(Resolved(e)) == Resolved(e)
    ensures DerivedSet(c, Resolved(e), DerivedSet(c, e, before)) == DerivedSet(c, e, before)
    ensures FortifyLevel(c, Resolved(e)) == FortifyLevel(c, e) && DeprecatedGets(c, Resolved(e)) == DeprecatedGets(c, e)
  {
    SourcesTwice(e);
    var once := DerivedSet(c, e, before);
    forall u: Use
      ensures Derived(c, Resolved(e), once, u) <==> Derived(c, e, before, u)
    {
      assert u in once <==> Derived(c, e, before, u);
    }
  }

  lemma SourcesTwice(e: Macros)
    requires !Malformed(e)
    ensures Level(Resolved(e)) == Level(e) && Xopen(Resolved(e)) == Xopen(e) && DefaultOn(Resolved(e)) == DefaultOn(e)
    ensures !PosixImplied(Resolved(e)) && Resolved(Resolved(e)) == Resolved(e)
  {
  }

  /** On a clean table the second run does not claim again that POSIX was selected implicitly. */
  lemma NotImplicitAgain(c: Compiler, e: Macros)
    requires !Malformed(e)
    ensures DerivedSet(c, Resolved(e), {}) == DerivedSet(c, e, {}) - {UsePosixImplicitly}
  {
    SourcesTwice(e);
  }

  predicate Keeps(x: Body, y: Body) { x.Def() ==> y == x }

  predicate KeepsOrRaises(x: Body, y: Body) { x.Def() ==> y.Def() && x.Num() <= y.Num() }

  /** `b` defines everything that `a` defines, with higher POSIX and X/Open numbers at most, and possibly more. */
  predicate Grows(a: Macros, b: Macros) {
    && Keeps(a.strictAnsi, b.strictAnsi) && Keeps(a.isoC95Source, b.isoC95Source)
    && Keeps(a.isoC99Source, b.isoC99Source) && Keeps(a.isoC11Source, b.isoC11Source)
    && Keeps(a.posixSource, b.posixSource) && KeepsOrRaises(a.posixCSource, b.posixCSource)
    && KeepsOrRaises(a.xopenSource, b.xopenSource) && Keeps(a.xopenSourceExtended, b.xopenSourceExtended)
    && Keeps(a.largefileSource, b.largefileSource) && Keeps(a.largefile64Source, b.largefile64Source)
    && Keeps(a.fileOffsetBits, b.fileOffsetBits) && Keeps(a.atfileSource, b.atfileSource)
    && Keeps(a.gnuSource, b.gnuSource) && Keeps(a.defaultSource, b.defaultSource)
    && Keeps(a.bsdSource, b.bsdSource) && Keeps(a.svidSource, b.svidSource)
    && Keeps(a.fortifySource, b.fortifySource) && Keeps(a.looseKernelNames, b.looseKernelNames)
    && Keeps(a.reentrant, b.reentrant) && Keeps(a.threadSafe, b.threadSafe)
  }

  /** What an implied POSIX level gave `a`, and nothing gives `b`. */
  predicate Undercut(a: Macros, b: Macros) {
    var level := ImpliedLevel(a.xopenSource);
    || (level >= 199506 && !Level(b).AtLeast(199506))
    || (level >= 200112 && !Level(b).AtLeast(200112) && !Xopen(b).AtLeast(600))
    || (level >= 200809 && !Level(b).AtLeast(200809) && !(Xopen(b).AtLeast(700) && b.atfileSource.Def()))
  }

  /** Going from `a` to `b` switches the default off, allows kernel names, or undercuts an implied POSIX level. */
  predicate Loses(a: Macros, b: Macros) {
    || (DefaultOn(a) && !DefaultOn(b))
    || (a.looseKernelNames.Undefined? && b.looseKernelNames.Def())
    || (PosixImplied(a) && !DefaultOn(b) && Undercut(a, b))
  }

  /** Does the header record that it selected POSIX although the user did not? */
  predicate ImpliesPosix(e: Macros) {
    && e.gnuSource.Undefined? && e.posixSource.Undefined? && e.posixCSource.Undefined?
    && (DefaultOn(e) || e.strictAnsi.Undefined? || e.xopenSource.AtLeast(500))
  }

  /** What growing does to the choices the derived macros depend on, unless it loses something. */
  lemma ChoicesKept(c: Compiler, a: Macros, b: Macros, n: int)
    requires Grows(a, b) && !Loses(a, b)
    ensures n <= 700 && Xopen(a).AtLeast(n) ==> Xopen(b).AtLeast(n)
    ensures Xopen(a).Def() ==> Xopen(b).Def()
    ensures DefaultOn(a) ==> DefaultOn(b)
    ensures n <= 199506 && Level(a).AtLeast(n) ==> Level(b).AtLeast(n) || (n <= 2 && Xopen(b).Def())
    ensures Level(a).AtLeast(200112) ==> Level(b).AtLeast(200112) || Xopen(b).AtLeast(600)
    ensures Level(a).AtLeast(200809) ==> Level(b).AtLeast(200809) || (Xopen(b).AtLeast(700) && b.atfileSource.Def())
    ensures Resolved(a).posixSource.Def() ==> Resolved(b).posixSource.Def() || Level(b).AtLeast(1) || Xopen(b).Def()
    ensures !Malformed(b) ==> FortifyLevel(c, a) <= FortifyLevel(c, b)
  {
  }

  lemma KeptUnlessLoses(c: Compiler, a: Macros, b: Macros, before: set<Use>, u: Use)
    requires Grows(a, b) && !Loses(a, b) && !Malformed(b)
    requires Derived(c, a, before, u) && u != UsePosixImplicitly
    ensures Derived(c, b, before, u)
  {
    hide Level, Xopen, DefaultOn, Resolved, Malformed, PosixImplied, Undercut;
    forall n | n <= 199506 { ChoicesKept(c, a, b, n); }
    ChoicesKept(c, a, b, 0);
  }

  lemma LostIfLoses(c: Compiler, a: Macros, b: Macros, before: set<Use>)
    requires Grows(a, b) && Loses(a, b)
    ensures exists u :: Derived(c, a, before, u) && !Derived(c, b, before, u) && u != UsePosixImplicitly
  {
    if DefaultOn(a) && !DefaultOn(b) {
      assert Derived(c, a, before, UseMisc) && !Derived(c, b, before, UseMisc);
    } else if a.looseKernelNames.Undefined? && b.looseKernelNames.Def() {
      assert Derived(c, a, before, KernelStrictNames) && !Derived(c, b, before, KernelStrictNames);
    } else {
      var level := ImpliedLevel(a.xopenSource);
      assert Level(a).AtLeast(level);
      if level >= 199506 && !Level(b).AtLeast(199506) {
        assert Derived(c, a, before, UsePosix199506) && !Derived(c, b, before, UsePosix199506);
      } else if level >= 200112 && !Level(b).AtLeast(200112) && !Xopen(b).AtLeast(600) {
        assert Derived(c, a, before, UseXopen2K) && !Derived(c, b, before, UseXopen2K);
      } else if !Xopen(b).AtLeast(700) {
        assert Derived(c, a, before, UseXopen2K8) && !Derived(c, b, before, UseXopen2K8);
      } else {
        assert Derived(c, a, before, UseAtfile) && !Derived(c, b, before, UseAtfile);
      }
    }
  }

  lemma ImplicitExactly(c: Compiler, e: Macros, before: set<Use>)
    ensures Derived(c, e, before, UsePosixImplicitly) <==> UsePosixImplicitly in before || ImpliesPosix(e)
  {
  }

  /**
   Main result: "if more than one of these are defined, they accumulate", made exact. For any
   two selections of which one grows into the other, and whatever was defined before, the
   derived macros accumulate if and only if nothing in `Loses` happens and the record that
   POSIX was selected implicitly does not disappear.
   */
  lemma AccumulateExactly(c: Compiler, a: Macros, b: Macros, before: set<Use>)
    requires Grows(a, b) && !Malformed(b)
    ensures DerivedSet(c, a, before) - {UsePosixImplicitly} <= DerivedSet(c, b, before) <==> !Loses(a, b)
    ensures DerivedSet(c, a, before) <= DerivedSet(c, b, before)
            <==> !Loses(a, b) && (ImpliesPosix(a) ==> ImpliesPosix(b) || UsePosixImplicitly in before)
  {
    hide Loses, Grows, Malformed, ImpliesPosix, Derived;
    ImplicitExactly(c, a, before);
    ImplicitExactly(c, b, before);
    if Loses(a, b) {
      LostIfLoses(c, a, b, before);
      var u :| Derived(c, a, before, u) && !Derived(c, b, before, u) && u != UsePosixImplicitly;
      assert u in DerivedSet(c, a, before) - {UsePosixImplicitly} && u !in DerivedSet(c, b, before);
    } else {
      forall u | Derived(c, a, before, u) && u != UsePosixImplicitly
        ensures Derived(c, b, before, u)
      {
        KeptUnlessLoses(c, a, b, before, u);
      }
      assert UsePosixImplicitly in DerivedSet(c, a, before) <==> Derived(c, a, before, UsePosixImplicitly);
      assert UsePosixImplicitly in DerivedSet(c, b, before) <==> Derived(c, b, before, UsePosixImplicitly);
    }
  }

  // ----- particular ways to grow -----

  /** `b` asks for the same as `a`, with higher numbers at most. */
  predicate Raises(a: Macros, b: Macros) {
    && b == a.(xopenSource := b.xopenSource, posixCSource := b.posixCSource)
    && a.xopenSource.Def() == b.xopenSource.Def() && a.xopenSource.Num() <= b.xopenSource.Num()
    && a.posixCSource.Def() == b.posixCSource.Def() && a.posixCSource.Num() <= b.posixCSource.Num()
  }

  /** Raising a level never takes a feature away. */
  lemma RaisingKeepsFeatures(c: Compiler, a: Macros, b: Macros, before: set<Use>)
    requires Raises(a, b) && !Malformed(a) && !Malformed(b)
    ensures DerivedSet(c, a, before) <= DerivedSet(c, b, before)
  {
    RaisingLosesNothing(a, b);
    AccumulateExactly(c, a, b, before);
  }

  lemma RaisingLosesNothing(a: Macros, b: Macros)
    requires Raises(a, b)
    ensures Grows(a, b) && !Loses(a, b) && (ImpliesPosix(a) ==> ImpliesPosix(b))
  {
  }

  /** `b` defines what `a` does and maybe more, but selects no other standard by name. */
  predicate Adds(a: Macros, b: Macros) {
    && Grows(a, b)
    && b.strictAnsi == a.strictAnsi && b.isoC99Source == a.isoC99Source && b.isoC11Source == a.isoC11Source
    && b.posixSource == a.posixSource && b.posixCSource == a.posixCSource && b.xopenSource == a.xopenSource
    && b.looseKernelNames == a.looseKernelNames
  }

  /** Every macro that does not name a standard accumulates. */
  lemma Accumulate(c: Compiler, a: Macros, b: Macros, before: set<Use>)
    requires Adds(a, b) && !Malformed(a) && !Malformed(b)
    ensures DerivedSet(c, a, before) - DerivedSet(c, b, before) <= {UsePosixImplicitly}
  {
    AddingLosesNothing(a, b);
    AccumulateExactly(c, a, b, before);
  }

  lemma AddingLosesNothing(a: Macros, b: Macros)
    requires Adds(a, b)
    ensures !Loses(a, b)
  {
  }

  /** What an implied POSIX level gave that `v`, X/Open and _REENTRANT do not give as well. */
  predicate TooLow(e: Macros, v: Body) {
    if e.xopenSource.Undefined? then v.Num() < 200809
    else || (e.xopenSource.AtLeast(700) && v.Num() < 200809 && e.atfileSource.Undefined?)
         || (e.xopenSource.AtLeast(500) && v.Num() < 199506 && !Threaded(e))
  }

  /**
   Naming a POSIX level where none was named loses features exactly where it switches the
   default off, or undercuts a level that was implied. (The record that POSIX was selected
   implicitly is set aside: `before` holds it already.)
   */
  lemma NamingPosix(c: Compiler, e: Macros, v: Body, before: set<Use>)
    requires e.posixCSource.Undefined? && v.Def() && UsePosixImplicitly in before
    requires !Malformed(e) && !Malformed(e.(posixCSource := v))
    ensures DerivedSet(c, e, before) <= DerivedSet(c, e.(posixCSource := v), before)
            <==> !((NothingRequested(e) && !DefaultNamed(e)) || (PosixImplied(e) && TooLow(e, v)))
  {
    AccumulateExactly(c, e, e.(posixCSource := v), before);
  }

  /** The same for an X/Open issue. */
  lemma NamingXopen(c: Compiler, e: Macros, v: Body, before: set<Use>)
    requires e.xopenSource.Undefined? && v.Def() && UsePosixImplicitly in before
    requires !Malformed(e) && !Malformed(e.(xopenSource := v))
    ensures DerivedSet(c, e, before) <= DerivedSet(c, e.(xopenSource := v), before)
            <==> !((NothingRequested(e) && !DefaultNamed(e)) || (PosixImplied(e) && v.Num() < 700))
  {
    AccumulateExactly(c, e, e.(xopenSource := v), before);
  }

  /** An ISO C standard loses only the default. */
  lemma NamingIsoC(c: Compiler, e: Macros, c99: Body, c11: Body, before: set<Use>)
    requires Keeps(e.isoC99Source, c99) && Keeps(e.isoC11Source, c11) && (c99.Def() || c11.Def())
    requires !Malformed(e) && UsePosixImplicitly in before
    ensures var e' := e.(isoC99Source := c99, isoC11Source := c11);
            && !Malformed(e')
            && (DerivedSet(c, e, before) <= DerivedSet(c, e', before) <==> !(NothingRequested(e) && !DefaultNamed(e)))
  {
    AccumulateExactly(c, e, e.(isoC99Source := c99, isoC11Source := c11), before);
  }

  /** The strict mode loses the default and every implied level that X/Open does not imply again. */
  lemma NamingStrict(c: Compiler, e: Macros, v: Body, before: set<Use>)
    requires e.strictAnsi.Undefined? && v.Def() && UsePosixImplicitly in before
    requires !Malformed(e)
    ensures var e' := e.(strictAnsi := v);
            && !Malformed(e')
            && (DerivedSet(c, e, before) <= DerivedSet(c, e', before)
                <==> !((NothingRequested(e) && !DefaultNamed(e)) || (PosixImplied(e) && e.xopenSource.Undefined?)))
  {
    AccumulateExactly(c, e, e.(strictAnsi := v), before);
  }

  /** _POSIX_SOURCE alone stands for no level, and so undercuts whichever was implied and matters. */
  lemma NamingPosixSource(c: Compiler, e: Macros, v: Body, before: set<Use>)
    requires e.posixSource.Undefined? && v.Def() && UsePosixImplicitly in before
    requires !Malformed(e)
    ensures var e' := e.(posixSource := v);
            && !Malformed(e')
            && (DerivedSet(c, e, before) <= DerivedSet(c, e', before)
                <==> !((NothingRequested(e) && !DefaultNamed(e)) || (PosixImplied(e) && TooLow(e, Int(0)))))
  {
    AccumulateExactly(c, e, e.(posixSource := v), before);
  }

  /** A standard named where nothing was asked for, whichever it is and however many, takes __USE_MISC away. */
  lemma NamingAloneLosesMisc(c: Compiler, a: Macros, b: Macros, before: set<Use>)
    requires NothingRequested(a) && !DefaultNamed(b) && Grows(a, b)
    ensures Derived(c, a, before, UseMisc)
    ensures Derived(c, b, before, UseMisc) <==> NothingRequested(b)
  {
  }

  /** One loss for each macro that names a standard: what `e` derives, the macro defined next to it takes away. */
  lemma NamingWitnesses(c: Compiler, before: set<Use>)
    ensures var nothing, c99 := STRICT.(strictAnsi := Undefined), STRICT.(strictAnsi := Undefined, isoC99Source := Int(1));
            var xopen := STRICT.(strictAnsi := Undefined, xopenSource := Int(700));
            && Lost(c, nothing, nothing.(isoC99Source := Int(1)), before, UseMisc)
            && Lost(c, nothing, nothing.(isoC11Source := Int(1)), before, UseMisc)
            && Lost(c, c99, c99.(strictAnsi := Int(1)), before, UseXopen2K8)
            && Lost(c, c99, c99.(posixCSource := Int(1)), before, UsePosix199506)
            && Lost(c, c99, c99.(xopenSource := Int(500)), before, UseXopen2K8)
            && Lost(c, xopen, xopen.(posixSource := Int(1)), before, UsePosix199506)
            && Lost(c, nothing, nothing.(looseKernelNames := Int(1)), before, KernelStrictNames)
  {
  }

  predicate Lost(c: Compiler, a: Macros, b: Macros, before: set<Use>, u: Use) {
    Derived(c, a, before, u) && !Derived(c, b, before, u)
  }

  /**
   Adding _GNU_SOURCE only adds features, although it overwrites the user's levels. The one
   macro that can disappear records that POSIX was selected implicitly, and it does so
   exactly when POSIX had been.
   */
  lemma GnuAddsFeatures(c: Compiler, e: Macros, v: Body, before: set<Use>)
    requires e.gnuSource.Undefined? && v.Def() && !Malformed(e)
    ensures var e' := e.(gnuSource := v);
            && !Malformed(e')
            && DerivedSet(c, e, before) - DerivedSet(c, e', before)
               == if ImpliesPosix(e) && UsePosixImplicitly !in before then {UsePosixImplicitly} else {}
  {
    var e' := e.(gnuSource := v);
    Accumulate(c, e, e', before);
    ImplicitExactly(c, e, before);
    ImplicitExactly(c, e', before);
    assert UsePosixImplicitly in DerivedSet(c, e, before) <==> Derived(c, e, before, UsePosixImplicitly);
  }

  /** Concretely: what _GNU_SOURCE takes away, XPG7 without 1003.1c, and C99 without C95 in C++11. */
  lemma ConcreteLosses(c: Compiler)
    ensures var e := STRICT.(strictAnsi := Undefined);
            Derived(c, e, {}, UsePosixImplicitly) && !Derived(c, e.(gnuSource := Int(1)), {}, UsePosixImplicitly)
    ensures var e := STRICT.(xopenSource := Int(700), posixCSource := Int(1));
            Derived(c, e, {}, UseXopen2K8) && !Derived(c, e, {}, UsePosix199506)
    ensures var cxx11 := c.(stdcVersion := None, cplusplus := Some(201103));
            Derived(cxx11, STRICT, {}, UseIsoC99) && !Derived(cxx11, STRICT, {}, UseIsoC95)
  {
  }

  /** "Turn on all the other features": what _GNU_SOURCE does not decide is up to the compiler and to three other macros. */
  lemma GnuTurnsOnAll(u: Use)
    ensures u !in {UseIsoCxx11, UseFileOffset64, UsePosixImplicitly, UseExternInlines, KernelStrictNames}
            <==> forall c, e: Macros | e.gnuSource.Def() :: Derived(c, e, {}, u)
  {
    var c := Compiler(None, None, false, None, None, false, false, false, false, false);
    var e := STRICT.(gnuSource := Int(1), looseKernelNames := Int(1));
    assert u in {UseIsoCxx11, UseFileOffset64, UsePosixImplicitly, UseExternInlines, KernelStrictNames}
      ==> !Derived(c, e, {}, u);
  }

  /** The order of the standards: what is derived along with `u`. */
  function Brings(u: Use): set<Use> {
    match u
    case UseXopen2K8 => {UseXopen2K}
    case UseXopen2K => {UseIsoC99, UseIsoC95}
    case UseXopen2K8Xsi => {UseXopen2KXsi, UseXopen2K8}
    case UseXopen2KXsi => {UseUnix98, UseXopen2K}
    case UseUnix98 => {UseXopenExtended, UseLargefile}
    case UseXopenExtended => {UseXopen}
    case UseXopen => {UsePosix2}
    case UsePosix199506 => {UsePosix199309}
    case UsePosix199309 => {UsePosix2}
    case UsePosix2 => {UsePosix}
    case UseIsoC11 => {UseIsoC99}
    case UseMisc => {UseXopen2K8, UsePosix199506, UseAtfile}
    case UseGnu => {UseMisc, UseXopen2K8Xsi, UseIsoC11, UseLargefile64}
    case _ => {}
  }

  /** The derived macros are consistent: a later standard always brings the earlier ones along. */
  lemma Chains(c: Compiler, e: Macros, before: set<Use>, u: Use)
    requires !Malformed(e) && u in DerivedSet(c, e, before)
    ensures Brings(u) <= DerivedSet(c, e, before)
  {
  }

  /** One chain that breaks: X/Open issue 7 next to an explicit, older POSIX level. */
  lemma Xopen2K8WithoutThreads(c: Compiler, e: Macros, before: set<Use>)
    requires !Malformed(e)
    ensures var use := DerivedSet(c, e, before);
            UseXopen2K8 in use && UsePosix199506 !in use
            <==> !DefaultOn(e) && !Threaded(e) && e.xopenSource.AtLeast(700)
                 && !e.posixCSource.AtLeast(199506) && (e.posixCSource.Def() || e.posixSource.Def())
  {
  }

  /** Another: only a C++ compiler asks for C99 without the 1995 amendment. */
  lemma C99WithoutC95(c: Compiler, e: Macros, before: set<Use>)
    requires !Malformed(e)
    ensures var use := DerivedSet(c, e, before);
            UseIsoC99 in use && UseIsoC95 !in use
            <==> Cxx11(c) && !WantsC99(e) && !AtLeast(c.stdcVersion, 199409)
                 && !Level(e).AtLeast(200112) && !Xopen(e).AtLeast(600)
  {
  }

  /** _REENTRANT and _THREAD_SAFE never lower the level, guarantee 199506, and take no feature away. */
  lemma ThreadsOnlyRaise(c: Compiler, e: Macros, r: Body, t: Body, before: set<Use>)
    requires !Malformed(e) && (e.reentrant.Def() ==> r.Def()) && (e.threadSafe.Def() ==> t.Def()) && (r.Def() || t.Def())
    ensures var e' := e.(reentrant := r, threadSafe := t);
            && !Malformed(e') && Level(e').AtLeast(199506)
            && (Level(e).Def() ==> Level(e).Num() <= Level(e').Num())
            && DerivedSet(c, e, before) <= DerivedSet(c, e', before)
  {
    var e' := e.(reentrant := r, threadSafe := t);
    assert forall n :: Level(e).AtLeast(n) ==> Level(e').AtLeast(n);
  }

  /** When the header cannot be processed, in terms of what the user wrote. */
  lemma MalformedExactly(e: Macros)
    ensures Malformed(e) <==>
      || (e.posixCSource.Empty? && !DefaultNamed(e) && !Threaded(e))
      || e.fileOffsetBits.Empty? || e.fortifySource.Empty?
  {
  }

  /** _ISOC95_SOURCE, which _GNU_SOURCE goes out of its way to define, decides nothing. */
  lemma IsoC95SourceIsIdle(c: Compiler, e: Macros, v: Body, before: set<Use>)
    ensures var e' := e.(isoC95Source := v);
            DerivedSet(c, e', before) == DerivedSet(c, e, before) && Malformed(e') == Malformed(e)
  {
    var e' := e.(isoC95Source := v);
    assert Level(e') == Level(e) && Xopen(e') == Xopen(e) && DefaultOn(e') == DefaultOn(e);
    assert forall u :: Derived(c, e', before, u) == Derived(c, e, before, u);
  }

  /** The header's own example: strict ISO C with POSIX and level 2 gives 1003.1 and 1003.2 but nothing else. */
  lemma StrictPosix2(c: Compiler, s: Body, p: Body, n: int)
    requires c.stdcVersion.None? && c.cplusplus.None? && !InlinesWanted(c)
    requires s.Def() && p.Def() && 2 <= n < 199309
    ensures var e := STRICT.(strictAnsi := s, posixSource := p, posixCSource := Int(n));
            DerivedSet(c, e, {}) == {UsePosix, UsePosix2, KernelStrictNames}
  {
  }
}
