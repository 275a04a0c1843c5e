/** The macros features.h reads and writes, and what it is meant to conclude from them. */
module FeatureMacros {

  datatype Option<T> = None | Some(value: T)

  /** What a name stands for: nothing, an empty body (as after a bare `#define X`), or an integer. */
  datatype Body = Undefined | Empty | Int(n: int) {
    predicate Def() { !Undefined? }

    /** The value of `(X - 0)` in a directive. */
    function Num(): int { if Int? then n else 0 }

    /** `defined X && (X - 0) >= bound`. */
    predicate AtLeast(bound: int) { Def() && Num() >= bound }
  }

  /** The macros the user (or a compiler option) defines to ask for features. */
  datatype Macros = Macros(
    strictAnsi: Body, isoC95Source: Body, isoC99Source: Body, isoC11Source: Body,
    posixSource: Body, posixCSource: Body, xopenSource: Body, xopenSourceExtended: Body,
    largefileSource: Body, largefile64Source: Body, fileOffsetBits: Body, atfileSource: Body,
    gnuSource: Body, defaultSource: Body, bsdSource: Body, svidSource: Body,
    fortifySource: Body, reentrant: Body, threadSafe: Body, looseKernelNames: Body)

  datatype Use =
    | UseIsoC11 | UseIsoC99 | UseIsoC95 | UseIsoCxx11
    | UsePosix | UsePosix2 | UsePosix199309 | UsePosix199506
    | UseXopen | UseXopenExtended | UseUnix98
    | UseXopen2K | UseXopen2KXsi | UseXopen2K8 | UseXopen2K8Xsi
    | UseLargefile | UseLargefile64 | UseFileOffset64
    | UseMisc | UseAtfile | UseGnu
    | UsePosixImplicitly | KernelStrictNames | UseExternInlines

  /** The macros the header clears before it starts (the two not cleared survive from before). */
  predicate Cleared(u: Use) { u != UsePosixImplicitly && u != UseExternInlines }

  /** What the compiler predefines, and what sys/cdefs.h adds (redirect, externInline). */
  datatype Compiler = Compiler(stdcVersion: Option<int>, cplusplus: Option<int>, gxxExperimental: bool,
                               gnuc: Option<(nat, nat)>, optimize: Option<int>, optimizeSize: bool, noInline: bool,
                               assembler: bool, redirect: bool, externInline: bool)

  predicate AtLeast(v: Option<int>, n: int) { v.Some? && v.value >= n }

  /** The packed comparison of __GNUC_PREREQ, __glibc_clang_prereq and __GLIBC_PREREQ. */
  predicate PackedAtLeast(maj: nat, min: nat, maj': nat, min': nat) {
    maj * 0x1_0000 + min >= maj' * 0x1_0000 + min'
  }

  /** __GNUC_PREREQ; __glibc_clang_prereq is the same test of clang's numbers. */
  predicate Prereq(version: Option<(nat, nat)>, maj: nat, min: nat) {
    version.Some? && PackedAtLeast(version.value.0, version.value.1, maj, min)
  }

  predicate NewerOrSame(maj: nat, min: nat, maj': nat, min': nat) {
    maj > maj' || (maj == maj' && min >= min')
  }

  /** With both minor numbers below 65536 the packed test orders versions. */
  lemma PackedIsLexicographic(maj: nat, min: nat, maj': nat, min': nat)
    requires min < 0x1_0000 && min' < 0x1_0000
    ensures PackedAtLeast(maj, min, maj', min') <==> NewerOrSame(maj, min, maj', min')
  {
    if maj > maj' { assert maj * 0x1_0000 >= (maj' + 1) * 0x1_0000; }
    if maj < maj' { assert maj' * 0x1_0000 >= (maj + 1) * 0x1_0000; }
  }

  ghost predicate OrdersQueries(maj: nat, min: nat) {
    forall maj': nat, min': nat | min' < 0x1_0000 :: PackedAtLeast(maj, min, maj', min') == NewerOrSame(maj, min, maj', min')
  }

  ghost predicate OrdersVersions(maj': nat, min': nat) {
    forall maj: nat, min: nat | min < 0x1_0000 :: PackedAtLeast(maj, min, maj', min') == NewerOrSame(maj, min, maj', min')
  }

  /** How large a minor number may be: the bound is exact for a version, and off by one for a query. */
  lemma PackedBounds(maj: nat, min: nat)
    ensures OrdersQueries(maj, min) <==> min < 0x1_0000
    ensures OrdersVersions(maj, min) <==> min <= 0x1_0000
  {
    if min >= 0x1_0000 {
      assert PackedAtLeast(maj, min, maj + 1, 0) != NewerOrSame(maj, min, maj + 1, 0);
    }
    if min > 0x1_0000 {
      assert PackedAtLeast(maj + 1, 0, maj, min) != NewerOrSame(maj + 1, 0, maj, min);
    }
    if min <= 0x1_0000 {
      forall maj': nat, min': nat | min' < 0x1_0000
        ensures PackedAtLeast(maj', min', maj, min) == NewerOrSame(maj', min', maj, min)
      {
        if min < 0x1_0000 { PackedIsLexicographic(maj', min', maj, min); }
        else { PackedIsLexicographic(maj', min', maj + 1, 0); }
      }
    }
    if min < 0x1_0000 {
      forall maj': nat, min': nat | min' < 0x1_0000
        ensures PackedAtLeast(maj, min, maj', min') == NewerOrSame(maj, min, maj', min')
      {
        PackedIsLexicographic(maj, min, maj', min');
      }
    }
  }

  /** __GNUC_PREREQ asks whether the compiler is of the given version or newer; without a version, it never is. */
  lemma PrereqIsVersion(version: Option<(nat, nat)>, maj: nat, min: nat)
    requires min < 0x1_0000 && (version.Some? ==> version.value.1 < 0x1_0000)
    ensures Prereq(version, maj, min) <==> version.Some? && NewerOrSame(version.value.0, version.value.1, maj, min)
  {
    if version.Some? { PackedIsLexicographic(version.value.0, version.value.1, maj, min); }
  }

  // ----- the declared meaning, in terms of the macros the user defined -----

  /** No macro that selects a standard (_GNU_SOURCE and _DEFAULT_SOURCE aside). */
  predicate NothingRequested(e: Macros) {
    && e.strictAnsi.Undefined? && e.isoC99Source.Undefined? && e.isoC11Source.Undefined?
    && e.posixSource.Undefined? && e.posixCSource.Undefined? && e.xopenSource.Undefined?
  }

  predicate DefaultNamed(e: Macros) {
    e.defaultSource.Def() || e.bsdSource.Def() || e.svidSource.Def() || e.gnuSource.Def()
  }

  predicate DefaultOn(e: Macros) { DefaultNamed(e) || NothingRequested(e) }

  /** The X/Open issue asked for, if any. */
  function Xopen(e: Macros): Body {
    if e.gnuSource.Def() then Int(700) else e.xopenSource
  }

  /** POSIX is selected although the user named no POSIX level. */
  predicate PosixImplied(e: Macros) {
    && !DefaultOn(e) && e.posixSource.Undefined? && e.posixCSource.Undefined?
    && (e.strictAnsi.Undefined? || Xopen(e).AtLeast(500))
  }

  function ImpliedLevel(x: Body): int {
    if x.Undefined? || x.Num() >= 700 then 200809
    else if x.Num() < 500 then 2 else if x.Num() < 600 then 199506 else 200112
  }

  /** The POSIX level before _REENTRANT and _THREAD_SAFE are looked at. */
  function BaseLevel(e: Macros): Body {
    if DefaultOn(e) then Int(200809)
    else if PosixImplied(e) then Int(ImpliedLevel(Xopen(e)))
    else e.posixCSource
  }

  predicate Threaded(e: Macros) { e.reentrant.Def() || e.threadSafe.Def() }

  predicate LevelRaised(e: Macros) { Threaded(e) && !BaseLevel(e).AtLeast(199506) }

  /** The POSIX level finally selected. */
  function Level(e: Macros): Body {
    if LevelRaised(e) then Int(199506) else BaseLevel(e)
  }

  /** The source macros after the header is done with them. */
  function Resolved(e: Macros): Macros {
    var gnu := e.gnuSource.Def();
    e.(isoC95Source := if gnu then Int(1) else e.isoC95Source,
       isoC99Source := if gnu then Int(1) else e.isoC99Source,
       isoC11Source := if gnu then Int(1) else e.isoC11Source,
       xopenSource := Xopen(e),
       xopenSourceExtended := if gnu then Int(1) else e.xopenSourceExtended,
       largefileSource := if Xopen(e).AtLeast(500) then Int(1) else e.largefileSource,
       largefile64Source := if gnu then Int(1) else e.largefile64Source,
       atfileSource := if Level(e).AtLeast(200809) then Int(1) else e.atfileSource,
       defaultSource := if DefaultOn(e) then Int(1) else Undefined,
       posixSource := if DefaultOn(e) || PosixImplied(e) || LevelRaised(e) then Int(1) else e.posixSource,
       posixCSource := Level(e))
  }

  /** A directive compares a macro whose body is empty, which is an error. */
  predicate Malformed(e: Macros) {
    Level(e).Empty? || e.fileOffsetBits.Empty? || e.fortifySource.Empty?
  }

  predicate Cxx11(c: Compiler) {
    c.cplusplus.Some? && (c.cplusplus.value >= 201103 || c.gxxExperimental)
  }

  predicate WantsC99(e: Macros) { e.isoC99Source.Def() || e.isoC11Source.Def() || e.gnuSource.Def() }

  /** 64-bit file offsets without symbol redirection bring in the large-file names. */
  predicate NoRedirect(c: Compiler, e: Macros) {
    e.fileOffsetBits == Int(64) && !c.assembler && !c.redirect
  }

  predicate InlinesWanted(c: Compiler) {
    Prereq(c.gnuc, 2, 7) && c.optimize.Some? && !c.optimizeSize && !c.noInline && c.externInline
  }

  /** Is the derived macro `u` defined, `before` being those defined beforehand? */
  predicate Derived(c: Compiler, e: Macros, before: set<Use>, u: Use) {
    var x, level := Xopen(e), Level(e);
    match u
    case UseIsoC11 => e.isoC11Source.Def() || e.gnuSource.Def() || AtLeast(c.stdcVersion, 201112) || AtLeast(c.cplusplus, 201703)
    case UseIsoC99 => WantsC99(e) || AtLeast(c.stdcVersion, 199901) || Cxx11(c) || level.AtLeast(200112) || x.AtLeast(600)
    case UseIsoC95 => WantsC99(e) || AtLeast(c.stdcVersion, 199409) || level.AtLeast(200112) || x.AtLeast(600)
    case UseIsoCxx11 => Cxx11(c)
    case UsePosix => Resolved(e).posixSource.Def() || level.AtLeast(1) || x.Def()
    case UsePosix2 => level.AtLeast(2) || x.Def()
    case UsePosix199309 => level.AtLeast(199309)
    case UsePosix199506 => level.AtLeast(199506)
    case UseXopen => x.Def()
    case UseXopenExtended => x.AtLeast(500) || (x.Def() && e.xopenSourceExtended.Def())
    case UseUnix98 => x.AtLeast(500)
    case UseXopen2K => level.AtLeast(200112) || x.AtLeast(600)
    case UseXopen2KXsi => x.AtLeast(600)
    case UseXopen2K8 => level.AtLeast(200809) || x.AtLeast(700)
    case UseXopen2K8Xsi => x.AtLeast(700)
    case UseLargefile => e.largefileSource.Def() || x.AtLeast(500) || NoRedirect(c, e)
    case UseLargefile64 => e.largefile64Source.Def() || e.gnuSource.Def() || NoRedirect(c, e)
    case UseFileOffset64 => e.fileOffsetBits == Int(64)
    case UseMisc => DefaultOn(e)
    case UseAtfile => e.atfileSource.Def() || level.AtLeast(200809)
    case UseGnu => e.gnuSource.Def()
    case KernelStrictNames => e.looseKernelNames.Undefined?
    case UsePosixImplicitly =>
      || u in before || PosixImplied(e)
      || (DefaultOn(e) && e.gnuSource.Undefined? && e.posixSource.Undefined? && e.posixCSource.Undefined?)
    case UseExternInlines => u in before || InlinesWanted(c)
  }

  function DerivedSet(c: Compiler, e: Macros, before: set<Use>): set<Use> {
    set u: Use | Derived(c, e, before, u)
  }

  /** __USE_FORTIFY_LEVEL. */
  function FortifyLevel(c: Compiler, e: Macros): int {
    if e.fortifySource.AtLeast(1) && Prereq(c.gnuc, 4, 1) && AtLeast(c.optimize, 1)
    then if e.fortifySource.AtLeast(2) then 2 else 1
    else 0
  }

  /** __GLIBC_USE_DEPRECATED_GETS: C++ decides by its own version alone. */
  predicate DeprecatedGets(c: Compiler, e: Macros) {
    if c.cplusplus.Some? then c.cplusplus.value < 201402 else !Derived(c, e, {}, UseIsoC11)
  }

  /** Nothing defined but the strict ISO mode. */
  const STRICT: Macros :=
    var u := Undefined; Macros(Int(1), u, u, u, u, u, u, u, u, u, u, u, u, u, u, u, u, u, u, u)
}
