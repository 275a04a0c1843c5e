/**
 The table of features.h, macro by macro: exactly what each source macro brings when it is
 the only one defined next to __STRICT_ANSI__, for every value it may have.
 */
module FeatureTables {
  import opened FeatureMacros

  /** A C90 compiler that predefines nothing of interest. */
  const PLAIN: Compiler := Compiler(None, None, false, None, None, false, false, false, false, false)

  const STRICT_ONLY: set<Use> := {KernelStrictNames}
  const C99_USES: set<Use> := {UseIsoC95, UseIsoC99}
  const POSIX_TO_1C: set<Use> := {UsePosix, UsePosix2, UsePosix199309, UsePosix199506}
  const POSIX_2008: set<Use> := {
    UsePosix, UsePosix2, UsePosix199309, UsePosix199506, UseIsoC95, UseIsoC99, UseXopen2K, UseXopen2K8, UseAtfile}

  /** Apart from __STRICT_ANSI__ and the kernel names, `e` brings `uses` and nothing else. */
  ghost predicate JustBrings(e: Macros, uses: set<Use>) {
    DerivedSet(PLAIN, e, {}) == STRICT_ONLY + uses
  }

  /** _POSIX_C_SOURCE (lines 37-42). */
  function PosixTable(n: int): set<Use> {
    if n < 1 then {}
    else if n < 2 then {UsePosix}
    else if n < 199309 then {UsePosix, UsePosix2}
    else if n < 199506 then {UsePosix, UsePosix2, UsePosix199309}
    else if n < 200112 then POSIX_TO_1C
    else if n < 200809 then POSIX_TO_1C + C99_USES + {UseXopen2K}
    else POSIX_2008
  }

  lemma PosixCSourceTable(n: int)
    ensures DerivedSet(PLAIN, STRICT.(posixCSource := Int(n)), {}) == STRICT_ONLY + PosixTable(n)
    ensures Resolved(STRICT.(posixCSource := Int(n)))
            == STRICT.(posixCSource := Int(n), atfileSource := if n >= 200809 then Int(1) else Undefined)
  {
  }

  /** _XOPEN_SOURCE (lines 43-45); from issue 5 on it selects a POSIX level also in strict mode. */
  function XopenTable(n: int): set<Use> {
    if n < 500 then {UsePosix, UsePosix2, UseXopen}
    else if n < 600 then {
      UsePosix, UsePosix2, UsePosix199309, UsePosix199506, UsePosixImplicitly,
      UseXopen, UseXopenExtended, UseUnix98, UseLargefile}
    else if n < 700 then {
      UsePosix, UsePosix2, UsePosix199309, UsePosix199506, UsePosixImplicitly,
      UseXopen, UseXopenExtended, UseUnix98, UseLargefile, UseIsoC95, UseIsoC99, UseXopen2K, UseXopen2KXsi}
    else {
      UsePosix, UsePosix2, UsePosix199309, UsePosix199506, UsePosixImplicitly,
      UseXopen, UseXopenExtended, UseUnix98, UseLargefile, UseIsoC95, UseIsoC99, UseXopen2K, UseXopen2KXsi,
      UseXopen2K8, UseXopen2K8Xsi, UseAtfile}
  }

  function XopenLevel(n: int): int { if n < 600 then 199506 else if n < 700 then 200112 else 200809 }

  lemma XopenSourceResolved(v: Body)
    requires v.Def()
    ensures Resolved(STRICT.(xopenSource := v))
            == if v.Num() < 500 then STRICT.(xopenSource := v)
               else STRICT.(xopenSource := v, posixSource := Int(1), posixCSource := Int(XopenLevel(v.Num())),
                            largefileSource := Int(1), atfileSource := if v.Num() >= 700 then Int(1) else Undefined)
  {
  }

  lemma XopenBefore5(v: Body, u: Use)
    requires v.Def() && v.Num() < 500
    ensures Derived(PLAIN, STRICT.(xopenSource := v), {}, u) <==> u == KernelStrictNames || u in XopenTable(v.Num())
  {
    var e := STRICT.(xopenSource := v);
    assert Level(e).Undefined? && !PosixImplied(e) && Resolved(e).posixSource.Undefined?;
    assert Xopen(e) == v && !DefaultOn(e);
    hide Level, Xopen, DefaultOn, PosixImplied, Resolved;
  }

  lemma Xopen5(v: Body, u: Use)
    requires v.Def() && 500 <= v.Num() < 600
    ensures Derived(PLAIN, STRICT.(xopenSource := v), {}, u) <==> u == KernelStrictNames || u in XopenTable(v.Num())
  {
    var e := STRICT.(xopenSource := v);
    assert Level(e) == Int(199506) && PosixImplied(e) && Resolved(e).posixSource.Def();
    assert Xopen(e) == v && !DefaultOn(e);
    hide Level, Xopen, DefaultOn, PosixImplied, Resolved;
  }

  lemma Xopen6(v: Body, u: Use)
    requires v.Def() && 600 <= v.Num() < 700
    ensures Derived(PLAIN, STRICT.(xopenSource := v), {}, u) <==> u == KernelStrictNames || u in XopenTable(v.Num())
  {
    var e := STRICT.(xopenSource := v);
    assert Level(e) == Int(200112) && PosixImplied(e) && Resolved(e).posixSource.Def();
    assert Xopen(e) == v && !DefaultOn(e);
    hide Level, Xopen, DefaultOn, PosixImplied, Resolved;
  }

  lemma Xopen7(v: Body, u: Use)
    requires v.Def() && 700 <= v.Num()
    ensures Derived(PLAIN, STRICT.(xopenSource := v), {}, u) <==> u == KernelStrictNames || u in XopenTable(v.Num())
  {
    var e := STRICT.(xopenSource := v);
    assert Level(e) == Int(200809) && PosixImplied(e) && Resolved(e).posixSource.Def();
    assert Xopen(e) == v && !DefaultOn(e);
    hide Level, Xopen, DefaultOn, PosixImplied, Resolved;
  }

  lemma XopenSourceTable(v: Body)
    requires v.Def()
    ensures JustBrings(STRICT.(xopenSource := v), XopenTable(v.Num()))
  {
    hide Derived, XopenTable;
    forall u: Use
      ensures Derived(PLAIN, STRICT.(xopenSource := v), {}, u) <==> u == KernelStrictNames || u in XopenTable(v.Num())
    {
      if v.Num() < 500 { XopenBefore5(v, u); }
      else if v.Num() < 600 { Xopen5(v, u); }
      else if v.Num() < 700 { Xopen6(v, u); }
      else { Xopen7(v, u); }
    }
  }

  /** Outside strict mode an issue before 5 implies POSIX.2, and _XOPEN_SOURCE_EXTENDED is looked at. */
  lemma OldXopenTable(v: Body, extended: Body)
    requires v.Def() && v.Num() < 500
    ensures var e := STRICT.(strictAnsi := Undefined, xopenSource := v, xopenSourceExtended := extended);
            && Resolved(e) == e.(posixSource := Int(1), posixCSource := Int(2))
            && DerivedSet(PLAIN, e, {})
               == STRICT_ONLY + {UsePosix, UsePosix2, UseXopen, UsePosixImplicitly}
                  + if extended.Def() then {UseXopenExtended} else {}
  {
  }

  // The macros whose value does not matter.

  lemma IsoFlagTable(v: Body)
    requires v.Def()
    ensures JustBrings(STRICT.(isoC99Source := v), C99_USES)
    ensures JustBrings(STRICT.(isoC11Source := v), C99_USES + {UseIsoC11})
  {
  }

  lemma StandardFlagTable(v: Body)
    requires v.Def()
    ensures JustBrings(STRICT, {})
    ensures JustBrings(STRICT.(posixSource := v), {UsePosix})
    ensures JustBrings(STRICT.(xopenSourceExtended := v), {})
  {
  }

  lemma LargeFileFlagTable(v: Body)
    requires v.Def()
    ensures JustBrings(STRICT.(largefileSource := v), {UseLargefile})
    ensures JustBrings(STRICT.(largefile64Source := v), {UseLargefile64})
  {
  }

  lemma AtfileFlagTable(v: Body)
    requires v.Def()
    ensures JustBrings(STRICT.(atfileSource := v), {UseAtfile})
  {
  }

  lemma KernelNamesTable(v: Body)
    requires v.Def()
    ensures DerivedSet(PLAIN, STRICT.(looseKernelNames := v), {}) == {}
  {
  }

  /** _REENTRANT and _THREAD_SAFE stand for _POSIX_C_SOURCE 199506, and raise a lower level to it. */
  lemma ThreadTable(r: Body, t: Body, n: int)
    requires r.Def() || t.Def()
    ensures var e := STRICT.(reentrant := r, threadSafe := t);
            && DerivedSet(PLAIN, e, {}) == STRICT_ONLY + POSIX_TO_1C
            && Resolved(e) == e.(posixSource := Int(1), posixCSource := Int(199506))
    ensures Resolved(STRICT.(posixCSource := Int(n), reentrant := r, threadSafe := t)).posixCSource
            == Int(if n < 199506 then 199506 else n)
  {
  }

  /** The default, by name in strict mode or by asking for nothing. */
  lemma DefaultTable(e: Macros)
    requires e in {STRICT.(defaultSource := Int(1)), STRICT.(bsdSource := Int(1)), STRICT.(svidSource := Int(1)),
                   STRICT.(strictAnsi := Undefined)}
    ensures JustBrings(e, POSIX_2008 + {UseMisc, UsePosixImplicitly})
    ensures Resolved(e) == e.(defaultSource := Int(1), posixSource := Int(1), posixCSource := Int(200809), atfileSource := Int(1))
  {
    assert Level(e) == Int(200809) && Xopen(e).Undefined? && DefaultOn(e) && !PosixImplied(e);
    assert Resolved(e) == e.(defaultSource := Int(1), posixSource := Int(1), posixCSource := Int(200809), atfileSource := Int(1));
    hide Level, Xopen, DefaultOn, PosixImplied, Resolved;
  }

  /** By name, the default overrides whatever POSIX level is named beside it. */
  lemma DefaultOverrides(v: Body, level: Body)
    requires v.Def() && level.Def()
    ensures JustBrings(STRICT.(defaultSource := v, posixCSource := level), POSIX_2008 + {UseMisc})
    ensures Resolved(STRICT.(defaultSource := v, posixCSource := level)).posixCSource == Int(200809)
  {
    var e := STRICT.(defaultSource := v, posixCSource := level);
    assert Level(e) == Int(200809) && Xopen(e).Undefined? && DefaultOn(e) && !PosixImplied(e);
    hide Level, Xopen, DefaultOn, PosixImplied;
  }

  lemma GnuResolved(v: Body, level: Body, issue: Body)
    requires v.Def()
    ensures var e := STRICT.(gnuSource := v, posixCSource := level, xopenSource := issue);
            && Resolved(e)
               == e.(isoC95Source := Int(1), isoC99Source := Int(1), isoC11Source := Int(1), posixSource := Int(1),
                     posixCSource := Int(200809), xopenSource := Int(700), xopenSourceExtended := Int(1),
                     largefileSource := Int(1), largefile64Source := Int(1), defaultSource := Int(1),
                     atfileSource := Int(1))
  {
  }

  /** _GNU_SOURCE, whatever levels are named beside it. */
  lemma GnuTable(v: Body, level: Body, issue: Body)
    requires v.Def()
    ensures JustBrings(STRICT.(gnuSource := v, posixCSource := level, xopenSource := issue),
                       {UsePosix, UsePosix2, UsePosix199309, UsePosix199506, UseIsoC95, UseIsoC99, UseIsoC11, UseXopen,
                        UseXopenExtended, UseUnix98, UseXopen2K, UseXopen2KXsi, UseXopen2K8, UseXopen2K8Xsi,
                        UseLargefile, UseLargefile64, UseMisc, UseAtfile, UseGnu})
  {
    var e := STRICT.(gnuSource := v, posixCSource := level, xopenSource := issue);
    GnuResolved(v, level, issue);
    assert Level(e) == Int(200809) && Xopen(e) == Int(700) && DefaultOn(e) && !PosixImplied(e);
    hide Level, Xopen, DefaultOn, PosixImplied, Resolved;
  }

  /** Not strict, and only ISO C asked for: POSIX.1-2008 is implied, but not the default. */
  lemma ImpliedTable(v: Body)
    requires v.Def()
    ensures var e := STRICT.(strictAnsi := Undefined, isoC99Source := v);
            && JustBrings(e, POSIX_2008 + {UsePosixImplicitly})
            && Resolved(e) == e.(posixSource := Int(1), posixCSource := Int(200809), atfileSource := Int(1))
  {
    var e := STRICT.(strictAnsi := Undefined, isoC99Source := v);
    assert Level(e) == Int(200809) && Xopen(e).Undefined? && !DefaultOn(e) && PosixImplied(e);
    assert Resolved(e) == e.(posixSource := Int(1), posixCSource := Int(200809), atfileSource := Int(1));
    hide Level, Xopen, DefaultOn, PosixImplied, Resolved;
  }

  /** Not strict, and only POSIX asked for without a level: that and no more. */
  lemma PosixSourceTable(v: Body)
    requires v.Def()
    ensures var e := STRICT.(strictAnsi := Undefined, posixSource := v);
            JustBrings(e, {UsePosix}) && Resolved(e) == e
  {
  }

  /** _FILE_OFFSET_BITS, on any compiler. */
  lemma FileOffsetTable(c: Compiler, n: int)
    ensures var use := DerivedSet(c, STRICT.(fileOffsetBits := Int(n)), {});
            && (UseFileOffset64 in use <==> n == 64)
            && (UseLargefile in use <==> n == 64 && !c.assembler && !c.redirect)
            && (UseLargefile64 in use <==> n == 64 && !c.assembler && !c.redirect)
  {
  }

  /** The ISO C and C++ standards, for every compiler. */
  lemma IsoTable(c: Compiler)
    ensures var use := DerivedSet(c, STRICT, {});
            && (UseIsoC11 in use <==> (c.stdcVersion.Some? && c.stdcVersion.value >= 201112)
                                      || (c.cplusplus.Some? && c.cplusplus.value >= 201703))
            && (UseIsoC99 in use <==> (c.stdcVersion.Some? && c.stdcVersion.value >= 199901)
                                      || (c.cplusplus.Some? && (c.cplusplus.value >= 201103 || c.gxxExperimental)))
            && (UseIsoC95 in use <==> c.stdcVersion.Some? && c.stdcVersion.value >= 199409)
            && (UseIsoCxx11 in use <==> c.cplusplus.Some? && (c.cplusplus.value >= 201103 || c.gxxExperimental))
            && use <= {UseIsoC11, UseIsoC99, UseIsoC95, UseIsoCxx11, UseExternInlines, KernelStrictNames}
  {
  }

  /** gets is declared up to C99 and, in C++, up to C++11. */
  lemma GetsTable(c: Compiler, e: Macros)
    ensures DeprecatedGets(c, e)
            <==> if c.cplusplus.Some? then c.cplusplus.value < 201402
                 else e.isoC11Source.Undefined? && e.gnuSource.Undefined? && !(c.stdcVersion.Some? && c.stdcVersion.value >= 201112)
  {
  }

  /** _FORTIFY_SOURCE counts from gcc 4.1 on when optimizing; every value above 1 is level 2. */
  lemma FortifyTable(c: Compiler, e: Macros, n: int)
    requires e.fortifySource == Int(n) && (c.gnuc.Some? ==> c.gnuc.value.1 < 0x1_0000)
    ensures FortifyLevel(c, e)
            == if n > 0 && c.gnuc.Some? && NewerOrSame(c.gnuc.value.0, c.gnuc.value.1, 4, 1)
                  && c.optimize.Some? && c.optimize.value > 0
               then if n == 1 then 1 else 2
               else 0
    ensures FortifyLevel(c, e.(fortifySource := Undefined)) == 0
  {
    PrereqIsVersion(c.gnuc, 4, 1);
  }

  /** `extern inline` in headers: gcc 2.7 on, optimizing, not for size, and with inlining allowed. */
  lemma InlinesTable(c: Compiler, e: Macros)
    requires c.gnuc.Some? ==> c.gnuc.value.1 < 0x1_0000
    ensures UseExternInlines in DerivedSet(c, e, {})
            <==> c.gnuc.Some? && NewerOrSame(c.gnuc.value.0, c.gnuc.value.1, 2, 7)
                 && c.optimize.Some? && !c.optimizeSize && !c.noInline && c.externInline
  {
    PrereqIsVersion(c.gnuc, 2, 7);
  }

  /** What was derived before is forgotten, but for the two macros the header does not clear. */
  lemma CleanSlate(c: Compiler, e: Macros, before: set<Use>)
    ensures DerivedSet(c, e, before) == DerivedSet(c, e, {}) + before * {UsePosixImplicitly, UseExternInlines}
  {
  }
}
