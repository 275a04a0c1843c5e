/** features.h as the preprocessor goes through it, directive by directive. */
module FeatureResolver {
  import opened FeatureMacros

  /** What one group of directives adds to the derived macros, given the source macros it sees. */
  predicate IsoAdds(c: Compiler, e: Macros, u: Use) {
    match u
    case UseIsoC11 => e.isoC11Source.Def() || AtLeast(c.stdcVersion, 201112) || AtLeast(c.cplusplus, 201703)
    case UseIsoC99 => e.isoC99Source.Def() || e.isoC11Source.Def() || AtLeast(c.stdcVersion, 199901) || Cxx11(c)
    case UseIsoC95 => e.isoC99Source.Def() || e.isoC11Source.Def() || AtLeast(c.stdcVersion, 199409)
    case UseIsoCxx11 => Cxx11(c)
    case _ => false
  }

  predicate PosixAdds(e: Macros, u: Use) {
    match u
    case UsePosix => e.posixSource.Def() || e.posixCSource.AtLeast(1) || e.xopenSource.Def()
    case UsePosix2 => e.posixCSource.AtLeast(2) || e.xopenSource.Def()
    case UsePosix199309 => e.posixCSource.AtLeast(199309)
    case UsePosix199506 => e.posixCSource.AtLeast(199506)
    case UseXopen2K => e.posixCSource.AtLeast(200112)
    case UseIsoC95 => e.posixCSource.AtLeast(200112)
    case UseIsoC99 => e.posixCSource.AtLeast(200112)
    case UseXopen2K8 => e.posixCSource.AtLeast(200809)
    case _ => false
  }

  predicate XopenAdds(e: Macros, u: Use) {
    match u
    case UseXopen => e.xopenSource.Def()
    case UseXopenExtended => e.xopenSource.AtLeast(500) || (e.xopenSource.Def() && e.xopenSourceExtended.Def())
    case UseUnix98 => e.xopenSource.AtLeast(500)
    case UseXopen2K => e.xopenSource.AtLeast(600)
    case UseXopen2KXsi => e.xopenSource.AtLeast(600)
    case UseIsoC95 => e.xopenSource.AtLeast(600)
    case UseIsoC99 => e.xopenSource.AtLeast(600)
    case UseXopen2K8 => e.xopenSource.AtLeast(700)
    case UseXopen2K8Xsi => e.xopenSource.AtLeast(700)
    case _ => false
  }

  predicate LargeFilesAdd(e: Macros, u: Use) {
    match u
    case UseLargefile => e.largefileSource.Def()
    case UseLargefile64 => e.largefile64Source.Def()
    case UseFileOffset64 => e.fileOffsetBits == Int(64)
    case _ => false
  }

  predicate ExtensionsAdd(e: Macros, u: Use) {
    match u
    case UseMisc => e.defaultSource.Def()
    case UseAtfile => e.atfileSource.Def()
    case UseGnu => e.gnuSource.Def()
    case _ => false
  }

  predicate CdefsAdds(c: Compiler, offset64: bool, u: Use) {
    match u
    case UseLargefile => offset64 && !c.assembler && !c.redirect
    case UseLargefile64 => offset64 && !c.assembler && !c.redirect
    case UseExternInlines => InlinesWanted(c)
    case _ => false
  }

  /** The source macros at the point where a POSIX level has been chosen. */
  function Selected(e: Macros): Macros {
    Resolved(e).(largefileSource := e.largefileSource, atfileSource := if e.gnuSource.Def() then Int(1) else e.atfileSource)
  }

  /** The groups of directives together add exactly what is declared. */
  lemma GroupsAddUp(c: Compiler, e: Macros, before: set<Use>, u: Use)
    requires !Malformed(e)
    ensures Derived(c, e, before, u) <==>
      || (u in before && !Cleared(u)) || (u == KernelStrictNames && e.looseKernelNames.Undefined?)
      || IsoAdds(c, Selected(e), u) || (u == UsePosixImplicitly && Derived(c, e, {}, u))
      || PosixAdds(Selected(e), u) || XopenAdds(Selected(e), u)
      || LargeFilesAdd(Resolved(e), u) || ExtensionsAdd(Resolved(e), u)
      || CdefsAdds(c, e.fileOffsetBits == Int(64), u)
  {
  }

  lemma AllGroupsAddUp(c: Compiler, e: Macros, before: set<Use>)
    requires !Malformed(e)
    ensures forall u :: Derived(c, e, before, u) <==>
      || (u in before && !Cleared(u)) || (u == KernelStrictNames && e.looseKernelNames.Undefined?)
      || IsoAdds(c, Selected(e), u) || (u == UsePosixImplicitly && Derived(c, e, {}, u))
      || PosixAdds(Selected(e), u) || XopenAdds(Selected(e), u)
      || LargeFilesAdd(Resolved(e), u) || ExtensionsAdd(Resolved(e), u)
      || CdefsAdds(c, e.fileOffsetBits == Int(64), u)
  {
    forall u { GroupsAddUp(c, e, before, u); }
  }

  /** The macro table of one compilation. */
  class Preprocessor {
    const compiler: Compiler
    var src: Macros
    var use: set<Use>
    var fortifyLevel: int
    var deprecatedGets: bool

    constructor (compiler: Compiler, src: Macros, use: set<Use>)
      ensures this.compiler == compiler && this.src == src && this.use == use
    {
      this.compiler, this.src, this.use := compiler, src, use;
      fortifyLevel, deprecatedGets := 0, false;
    }

    method Define(u: Use)
      modifies `use
      ensures use == old(use) + {u}
    {
      use := use + {u};
    }

    /** A clean slate, except for the two derived macros the header does not list. */
    method Clean()
      modifies `use
      ensures forall u :: u in use <==> (u in old(use) && !Cleared(u)) || (u == KernelStrictNames && src.looseKernelNames.Undefined?)
    {
      use := set u | u in use && !Cleared(u);
      if src.looseKernelNames.Undefined? { Define(KernelStrictNames); }
    }

    /** The deprecated names of _DEFAULT_SOURCE. */
    method DeprecatedNames()
      modifies `src
      ensures src == if (old(src).bsdSource.Def() || old(src).svidSource.Def()) && old(src).defaultSource.Undefined?
                     then old(src).(defaultSource := Int(1)) else old(src)
    {
      if (src.bsdSource.Def() || src.svidSource.Def()) && !src.defaultSource.Def() {
        src := src.(defaultSource := Int(1));
      }
    }

    /** _GNU_SOURCE turns on all the other features. */
    method GnuTurnsOn()
      modifies `src
      ensures old(src).gnuSource.Undefined? ==> src == old(src)
      ensures old(src).gnuSource.Def() ==>
        src == old(src).(isoC95Source := Int(1), isoC99Source := Int(1), isoC11Source := Int(1),
                         posixSource := Int(1), posixCSource := Int(200809), xopenSource := Int(700),
                         xopenSourceExtended := Int(1), largefile64Source := Int(1), defaultSource := Int(1),
                         atfileSource := Int(1))
    {
      if src.gnuSource.Def() {
        src := src.(isoC95Source := Int(1));
        src := src.(isoC99Source := Int(1));
        src := src.(isoC11Source := Int(1));
        src := src.(posixSource := Int(1));
        src := src.(posixCSource := Int(200809));
        src := src.(xopenSource := Int(700));
        src := src.(xopenSourceExtended := Int(1));
        src := src.(largefile64Source := Int(1));
        src := src.(defaultSource := Int(1));
        src := src.(atfileSource := Int(1));
      }
    }

    method DefaultIfNothingElse()
      modifies `src
      ensures src == if old(src).defaultSource.Def() || NothingRequested(old(src))
                     then old(src).(defaultSource := Int(1)) else old(src)
    {
      if src.defaultSource.Def()
         || (!src.strictAnsi.Def() && !src.isoC99Source.Def() && !src.isoC11Source.Def()
             && !src.posixSource.Def() && !src.posixCSource.Def() && !src.xopenSource.Def())
      {
        src := src.(defaultSource := Int(1));
      }
    }

    /** The ISO C and C++ standards. */
    method IsoStandards()
      modifies `use
      ensures forall u :: u in use <==> u in old(use) || IsoAdds(compiler, src, u)
    {
      var stdc, cpp := compiler.stdcVersion, compiler.cplusplus;
      if src.isoC11Source.Def() || (stdc.Some? && stdc.value >= 201112) { Define(UseIsoC11); }
      if src.isoC99Source.Def() || src.isoC11Source.Def() || (stdc.Some? && stdc.value >= 199901) { Define(UseIsoC99); }
      if src.isoC99Source.Def() || src.isoC11Source.Def() || (stdc.Some? && stdc.value >= 199409) { Define(UseIsoC95); }
      if cpp.Some? {
        if cpp.value >= 201703 { Define(UseIsoC11); }
        if cpp.value >= 201103 || compiler.gxxExperimental {
          Define(UseIsoCxx11);
          Define(UseIsoC99);
        }
      }
    }

    /** _DEFAULT_SOURCE means POSIX.1-2008. */
    method PosixByDefault()
      modifies `src, `use
      ensures src == if old(src).defaultSource.Def()
                     then old(src).(posixSource := Int(1), posixCSource := Int(200809)) else old(src)
      ensures use == old(use) + if old(src).defaultSource.Def() && old(src).posixSource.Undefined? && old(src).posixCSource.Undefined?
                                then {UsePosixImplicitly} else {}
    {
      if src.defaultSource.Def() {
        if !src.posixSource.Def() && !src.posixCSource.Def() { Define(UsePosixImplicitly); }
        src := src.(posixSource := Int(1));
        src := src.(posixCSource := Int(200809));
      }
    }

    /** Outside strict ISO mode, or with X/Open issue 5 and later, POSIX is implied. */
    method PosixByImplication()
      modifies `src, `use
      ensures var implied := (old(src).strictAnsi.Undefined? || old(src).xopenSource.AtLeast(500))
                             && old(src).posixSource.Undefined? && old(src).posixCSource.Undefined?;
              && src == (if implied then old(src).(posixSource := Int(1), posixCSource := Int(ImpliedLevel(old(src).xopenSource)))
                         else old(src))
              && use == old(use) + if implied then {UsePosixImplicitly} else {}
    {
      if (!src.strictAnsi.Def() || (src.xopenSource.Def() && src.xopenSource.Num() >= 500))
         && !src.posixSource.Def() && !src.posixCSource.Def()
      {
        src := src.(posixSource := Int(1));
        if src.xopenSource.Def() && src.xopenSource.Num() < 500 {
          src := src.(posixCSource := Int(2));
        } else if src.xopenSource.Def() && src.xopenSource.Num() < 600 {
          src := src.(posixCSource := Int(199506));
        } else if src.xopenSource.Def() && src.xopenSource.Num() < 700 {
          src := src.(posixCSource := Int(200112));
        } else {
          src := src.(posixCSource := Int(200809));
        }
        Define(UsePosixImplicitly);
      }
    }

    /** _REENTRANT and _THREAD_SAFE raise the level to 199506. */
    method RaiseForThreads()
      modifies `src
      ensures src == if !old(src).posixCSource.AtLeast(199506) && Threaded(old(src))
                     then old(src).(posixSource := Int(1), posixCSource := Int(199506)) else old(src)
    {
      if (!src.posixCSource.Def() || src.posixCSource.Num() < 199506) && (src.reentrant.Def() || src.threadSafe.Def()) {
        src := src.(posixSource := Int(1));
        src := src.(posixCSource := Int(199506));
      }
    }

    /** The macros derived from the POSIX level; an empty level cannot be compared. */
    method PosixLevels() returns (ok: bool)
      modifies `src, `use
      ensures ok <==> !old(src).posixCSource.Empty?
      ensures ok ==> src == if old(src).posixCSource.AtLeast(200809) then old(src).(atfileSource := Int(1)) else old(src)
      ensures ok ==> forall u :: u in use <==> u in old(use) || PosixAdds(old(src), u)
    {
      if src.posixCSource.Empty? { return false; }
      var level := src.posixCSource;
      if src.posixSource.Def() || (level.Def() && level.n >= 1) || src.xopenSource.Def() { Define(UsePosix); }
      if (level.Def() && level.n >= 2) || src.xopenSource.Def() { Define(UsePosix2); }
      if level.Def() && level.Num() >= 199309 { Define(UsePosix199309); }
      if level.Def() && level.Num() >= 199506 { Define(UsePosix199506); }
      if level.Def() && level.Num() >= 200112 {
        Define(UseXopen2K);
        Define(UseIsoC95);
        Define(UseIsoC99);
      }
      if level.Def() && level.Num() >= 200809 {
        Define(UseXopen2K8);
        src := src.(atfileSource := Int(1));
      }
      return true;
    }

    /** The macros derived from the X/Open issue. */
    method XopenIssues()
      modifies `src, `use
      ensures src == if old(src).xopenSource.AtLeast(500) then old(src).(largefileSource := Int(1)) else old(src)
      ensures forall u :: u in use <==> u in old(use) || XopenAdds(old(src), u)
    {
      if src.xopenSource.Def() {
        Define(UseXopen);
        if src.xopenSource.Num() >= 500 {
          Define(UseXopenExtended);
          Define(UseUnix98);
          src := src.(largefileSource := Int(1));
          if src.xopenSource.Num() >= 600 { LaterXopenIssues(); }
        } else if src.xopenSourceExtended.Def() {
          Define(UseXopenExtended);
        }
      }
    }

    /** Issue 6 and, if asked for, issue 7. */
    method LaterXopenIssues()
      modifies `use
      ensures use == old(use) + {UseXopen2K, UseXopen2KXsi, UseIsoC95, UseIsoC99}
                     + if src.xopenSource.Num() >= 700 then {UseXopen2K8, UseXopen2K8Xsi} else {}
    {
      if src.xopenSource.Num() >= 700 {
        Define(UseXopen2K8);
        Define(UseXopen2K8Xsi);
      }
      Define(UseXopen2K);
      Define(UseXopen2KXsi);
      Define(UseIsoC95);
      Define(UseIsoC99);
    }

    /** Large files; an empty _FILE_OFFSET_BITS cannot be compared. */
    method LargeFiles() returns (ok: bool)
      modifies `use
      ensures ok <==> !src.fileOffsetBits.Empty?
      ensures ok ==> forall u :: u in use <==> u in old(use) || LargeFilesAdd(src, u)
    {
      if src.largefileSource.Def() { Define(UseLargefile); }
      if src.largefile64Source.Def() { Define(UseLargefile64); }
      if src.fileOffsetBits.Empty? { return false; }
      if src.fileOffsetBits.Def() && src.fileOffsetBits.n == 64 { Define(UseFileOffset64); }
      return true;
    }

    method Extensions()
      modifies `use
      ensures forall u :: u in use <==> u in old(use) || ExtensionsAdd(src, u)
    {
      if src.defaultSource.Def() { Define(UseMisc); }
      if src.atfileSource.Def() { Define(UseAtfile); }
      if src.gnuSource.Def() { Define(UseGnu); }
    }

    /** The fortification level; an empty _FORTIFY_SOURCE cannot be compared. */
    method Fortify() returns (ok: bool)
      modifies `fortifyLevel
      ensures ok <==> !src.fortifySource.Empty?
      ensures ok ==> fortifyLevel == FortifyLevel(compiler, src)
    {
      if src.fortifySource.Empty? { return false; }
      if src.fortifySource.Def() && src.fortifySource.n > 0 && Prereq(compiler.gnuc, 4, 1)
         && compiler.optimize.Some? && compiler.optimize.value > 0
      {
        fortifyLevel := if src.fortifySource.n > 1 then 2 else 1;
      } else {
        fortifyLevel := 0;
      }
      return true;
    }

    /** Is gets still declared? */
    method Gets()
      modifies `deprecatedGets
      ensures deprecatedGets == if compiler.cplusplus.Some? then compiler.cplusplus.value < 201402 else UseIsoC11 !in use
    {
      deprecatedGets := !(if compiler.cplusplus.Some? then compiler.cplusplus.value >= 201402 else UseIsoC11 in use);
    }

    /** What follows the inclusion of sys/cdefs.h. */
    method AfterCdefs()
      modifies `use
      ensures forall u :: u in use <==> u in old(use) || CdefsAdds(compiler, UseFileOffset64 in old(use), u)
    {
      if !compiler.assembler && UseFileOffset64 in use && !compiler.redirect {
        Define(UseLargefile);
        Define(UseLargefile64);
      }
      if Prereq(compiler.gnuc, 2, 7) && compiler.optimize.Some? && !compiler.optimizeSize && !compiler.noInline
         && compiler.externInline
      {
        Define(UseExternInlines);
      }
    }

    /** The directives up to the choice of a POSIX level. */
    method SelectSources()
      modifies `src, `use
      ensures src == Selected(old(src))
      ensures forall u :: u in use <==>
        u in old(use) || IsoAdds(compiler, src, u) || (u == UsePosixImplicitly && Derived(compiler, old(src), {}, u))
    {
      DeprecatedNames();
      GnuTurnsOn();
      DefaultIfNothingElse();
      IsoStandards();
      PosixByDefault();
      PosixByImplication();
      RaiseForThreads();
    }

    /** From the chosen standards to the macros derived from them. */
    method DeriveStandards() returns (ok: bool)
      modifies `src, `use
      ensures ok <==> !old(src).posixCSource.Empty?
      ensures ok ==> src == old(src).(
        atfileSource := if old(src).posixCSource.AtLeast(200809) then Int(1) else old(src).atfileSource,
        largefileSource := if old(src).xopenSource.AtLeast(500) then Int(1) else old(src).largefileSource)
      ensures ok ==> forall u :: u in use <==> u in old(use) || PosixAdds(old(src), u) || XopenAdds(old(src), u)
    {
      ok := PosixLevels();
      if ok { XopenIssues(); }
    }

    /** Everything after the standards. */
    method DeriveRest() returns (ok: bool)
      modifies `use, `fortifyLevel, `deprecatedGets
      ensures ok <==> !src.fileOffsetBits.Empty? && !src.fortifySource.Empty?
      ensures ok ==> fortifyLevel == FortifyLevel(compiler, src)
      ensures ok ==> deprecatedGets == if compiler.cplusplus.Some? then compiler.cplusplus.value < 201402 else UseIsoC11 !in old(use)
      ensures ok ==> forall u :: u in use <==>
        || u in old(use) || LargeFilesAdd(src, u) || ExtensionsAdd(src, u)
        || CdefsAdds(compiler, UseFileOffset64 in old(use) || src.fileOffsetBits == Int(64), u)
    {
      ok := LargeFiles();
      if !ok { return; }
      Extensions();
      ok := Fortify();
      if !ok { return; }
      Gets();
      AfterCdefs();
    }

    /**
     The whole header, run on any source macros: it fails exactly where a directive is
     malformed, and otherwise concludes what is declared.
     */
    method Resolve() returns (ok: bool)
      modifies this
      ensures ok <==> !Malformed(old(src))
      ensures ok ==> src == Resolved(old(src))
      ensures ok ==> use == DerivedSet(compiler, old(src), old(use))
      ensures ok ==> fortifyLevel == FortifyLevel(compiler, old(src)) && deprecatedGets == DeprecatedGets(compiler, old(src))
    {
      ghost var e, before := src, use;
      Clean();
      SelectSources();
      ok := DeriveStandards();
      if !ok { return; }
      assert src == Resolved(e);
      assert UseIsoC11 in use <==> Derived(compiler, e, {}, UseIsoC11);
      assert UseFileOffset64 !in use;
      ok := DeriveRest();
      if ok { AllGroupsAddUp(compiler, e, before); }
    }
  }
}
