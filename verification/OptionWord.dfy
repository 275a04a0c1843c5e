/** class RE_Options of pcrecpp.h: nine options packed into one word, and two limits. */
module OptionWord {

  // ----- 32-bit words and the operators | & ~ on them -----

  /** A word is the set of the positions of its one bits. */
  type Word = w: set<nat> | forall k :: k in w ==> k < 32

  const ALL_BITS: Word := set k: nat | k < 32

  function Or(a: Word, b: Word): Word { a + b }

  function And(a: Word, b: Word): Word { a * b }

  function Not(a: Word): Word { ALL_BITS - a }

  /** The positions of the ones in the binary digits of `n`, the last digit being number `k`. */
  function Digits(n: nat, k: nat): set<nat> {
    if n == 0 then {} else (if n % 2 == 1 then {k} else {}) + Digits(n / 2, k + 1)
  }

  /** The word of a numeric constant. */
  function BitsOf(n: nat): Word {
    set k | k in Digits(n, 0) && k < 32
  }

  /** The number a word stands for, read from bit `k` on, `m` bits of it. */
  function Value(w: set<nat>, k: nat, m: nat): nat
    decreases m
  {
    if m == 0 then 0 else (if k in w then 1 else 0) + 2 * Value(w, k + 1, m - 1)
  }

  lemma {:induction false} DigitsStart(n: nat, k: nat, j: nat)
    requires j in Digits(n, k)
    ensures k <= j
  {
    if n > 0 && !(n % 2 == 1 && j == k) { DigitsStart(n / 2, k + 1, j); }
  }

  lemma {:induction false} ValueDepends(w: set<nat>, w': set<nat>, k: nat, m: nat)
    requires forall j: nat :: k <= j < k + m ==> (j in w <==> j in w')
    ensures Value(w, k, m) == Value(w', k, m)
    decreases m
  {
    if m > 0 { ValueDepends(w, w', k + 1, m - 1); }
  }

  lemma {:induction false} ValueOfDigits(n: nat, k: nat, m: nat)
    requires n < Pow2(m)
    ensures Value(Digits(n, k), k, m) == n
    decreases m
  {
    if m > 0 {
      var rest := Digits(n / 2, k + 1);
      ValueOfDigits(n / 2, k + 1, m - 1);
      if k in rest { DigitsStart(n / 2, k + 1, k); }
      assert n > 0 ==> Digits(n, k) == (if n % 2 == 1 then {k} else {}) + rest;
      assert k in Digits(n, k) <==> n % 2 == 1;
      ValueDepends(Digits(n, k), rest, k + 1, m - 1);
    }
  }

  /** A 32-bit number is the number its word stands for: no two numbers share a word. */
  lemma WordIsNumber(n: nat)
    requires n < Pow2(32)
    ensures Value(BitsOf(n), 0, 32) == n
  {
    ValueOfDigits(n, 0, 32);
    ValueDepends(BitsOf(n), Digits(n, 0), 0, 32);
  }

  function Pow2(k: nat): nat { if k == 0 then 1 else 2 * Pow2(k - 1) }

  /** A power of two has a single one digit. */
  lemma {:induction false} PowerIsOneDigit(i: nat, k: nat)
    ensures Digits(Pow2(i), k) == {k + i} && Pow2(i) > 0
  {
    if i == 0 {
      assert Digits(1, k) == {k} + Digits(0, k + 1);
    } else {
      PowerIsOneDigit(i - 1, k + 1);
      assert Pow2(i) % 2 == 0 && Pow2(i) / 2 == Pow2(i - 1);
    }
  }

  // ----- the nine options -----

  datatype Opt =
    | Caseless | Multiline | Dotall | Extended | DollarEndonly | Extra | Ungreedy | Utf8 | NoAutoCapture

  /** The constants of pcre.h. */
  function Constant(o: Opt): nat {
    match o
    case Caseless => 0x0000_0001
    case Multiline => 0x0000_0002
    case Dotall => 0x0000_0004
    case Extended => 0x0000_0008
    case DollarEndonly => 0x0000_0020
    case Extra => 0x0000_0040
    case Ungreedy => 0x0000_0200
    case Utf8 => 0x0000_0800
    case NoAutoCapture => 0x0000_1000
  }

  function Mask(o: Opt): Word { BitsOf(Constant(o)) }

  function Position(o: Opt): nat {
    match o
    case Caseless => 0
    case Multiline => 1
    case Dotall => 2
    case Extended => 3
    case DollarEndonly => 5
    case Extra => 6
    case Ungreedy => 9
    case Utf8 => 11
    case NoAutoCapture => 12
  }

  lemma ConstantIsPower(o: Opt)
    ensures Constant(o) == Pow2(Position(o))
  {
    assert Pow2(1) == 2 && Pow2(2) == 4;
    assert Pow2(3) == 8 && Pow2(4) == 16;
    assert Pow2(5) == 32 && Pow2(6) == 64;
    assert Pow2(7) == 128 && Pow2(8) == 256;
    assert Pow2(9) == 512 && Pow2(10) == 1024;
    assert Pow2(11) == 2048 && Pow2(12) == 4096;
  }

  /** Each option is one bit, and no two share it. */
  lemma MaskIsOneBit(o: Opt)
    ensures Mask(o) == {Position(o)}
    ensures forall o': Opt :: Position(o') == Position(o) ==> o' == o
  {
    hide Pow2, Digits;
    ConstantIsPower(o);
    PowerIsOneDigit(Position(o), 0);
  }

  const NINE_BITS: Word := {0, 1, 2, 3, 5, 6, 9, 11, 12}

  /** PCRE_IS_SET. */
  predicate IsSet(w: Word, o: Opt) { And(w, Mask(o)) == Mask(o) }

  /** What PCRE_SET_OR_CLEAR makes of the word. */
  function SetOrClear(w: Word, o: Opt, b: bool): Word {
    if b then Or(w, Mask(o)) else And(w, Not(Mask(o)))
  }

  /** A call of one of the setters. */
  datatype Call =
    | SetOption(opt: Opt, on: bool)
    | SetAllOptions(word: Word)
    | SetMatchLimit(limit: int)
    | SetMatchLimitRecursion(limit: int)

  datatype Options = Options(word: Word, matchLimit: int, matchLimitRecursion: int) {
    function Apply(c: Call): Options {
      match c
      case SetOption(o, b) => this.(word := SetOrClear(word, o, b))
      case SetAllOptions(w) => this.(word := w)
      case SetMatchLimit(n) => this.(matchLimit := n)
      case SetMatchLimitRecursion(n) => this.(matchLimitRecursion := n)
    }

    function ApplyAll(cs: seq<Call>): Options
      decreases |cs|
    {
      if cs == [] then this else Apply(cs[0]).ApplyAll(cs[1..])
    }
  }

  class REOptions {
    var matchLimit: int
    var matchLimitRecursion: int
    var allOptions: Word

    function View(): Options
      reads this
    {
      Options(allOptions, matchLimit, matchLimitRecursion)
    }

    constructor ()
      ensures View() == Options({}, 0, 0)
    {
      matchLimit, matchLimitRecursion, allOptions := 0, 0, {};
    }

    constructor FromFlags(optionFlags: Word)
      ensures View() == Options(optionFlags, 0, 0)
    {
      matchLimit, matchLimitRecursion, allOptions := 0, 0, optionFlags;
    }

    method SetMatchLimit(limit: int) returns (self: REOptions)
      modifies this
      ensures self == this && View() == old(View()).(matchLimit := limit)
      ensures View() == old(View()).Apply(Call.SetMatchLimit(limit))
    {
      matchLimit := limit;
      return this;
    }

    method SetMatchLimitRecursion(limit: int) returns (self: REOptions)
      modifies this
      ensures self == this && View() == old(View()).(matchLimitRecursion := limit)
      ensures View() == old(View()).Apply(Call.SetMatchLimitRecursion(limit))
    {
      matchLimitRecursion := limit;
      return this;
    }

    /** The nine setters set_caseless to set_no_auto_capture. */
    method SetOption(o: Opt, x: bool) returns (self: REOptions)
      modifies this
      ensures self == this && View() == old(View()).Apply(Call.SetOption(o, x))
      ensures IsSet(allOptions, o) == x
      ensures forall o': Opt | o' != o :: IsSet(allOptions, o') == IsSet(old(allOptions), o')
    {
      ghost var was := allOptions;
      if x {
        allOptions := Or(allOptions, Mask(o));
      } else {
        allOptions := And(allOptions, Not(Mask(o)));
      }
      forall o': Opt { ReadAfterWrite(was, o, x, o'); }
      return this;
    }

    /** The nine getters. */
    method Get(o: Opt) returns (r: bool)
      ensures r == IsSet(allOptions, o)
    {
      return And(allOptions, Mask(o)) == Mask(o);
    }

    method SetAllOptions(opt: Word) returns (self: REOptions)
      modifies this
      ensures self == this && View() == old(View()).(word := opt)
      ensures View() == old(View()).Apply(Call.SetAllOptions(opt))
    {
      allOptions := opt;
      return this;
    }
  }

  /** A fresh object with one option on. */
  method Only(o: Opt) returns (options: REOptions)
    ensures fresh(options) && options.View() == Options(Mask(o), 0, 0)
    ensures forall o': Opt :: IsSet(options.allOptions, o') <==> o' == o
  {
    options := new REOptions();
    options := options.SetOption(o, true);
    forall o': Opt
      ensures IsSet(options.allOptions, o') <==> o' == o
    {
      SwitchIsBit(options.allOptions, o');
      MaskIsOneBit(o);
    }
  }

  // The convenience constructors; the flags are those of pcre.h: 0x800, 0x1, 0x2, 0x4 and 0x8.

  method UTF8() returns (options: REOptions)
    ensures fresh(options) && options.View() == Options({11}, 0, 0)
  {
    MaskIsOneBit(Utf8);
    options := Only(Utf8);
  }

  method CASELESS() returns (options: REOptions)
    ensures fresh(options) && options.View() == Options({0}, 0, 0)
  {
    MaskIsOneBit(Caseless);
    options := Only(Caseless);
  }

  method MULTILINE() returns (options: REOptions)
    ensures fresh(options) && options.View() == Options({1}, 0, 0)
  {
    MaskIsOneBit(Multiline);
    options := Only(Multiline);
  }

  method DOTALL() returns (options: REOptions)
    ensures fresh(options) && options.View() == Options({2}, 0, 0)
  {
    MaskIsOneBit(Dotall);
    options := Only(Dotall);
  }

  method EXTENDED() returns (options: REOptions)
    ensures fresh(options) && options.View() == Options({3}, 0, 0)
  {
    MaskIsOneBit(Extended);
    options := Only(Extended);
  }

  // ----- the word refines a table of nine switches -----

  lemma SwitchIsBit(w: Word, o: Opt)
    ensures IsSet(w, o) <==> Position(o) in w
  {
    MaskIsOneBit(o);
    assert IsSet(w, o) ==> Position(o) in And(w, Mask(o));
  }

  lemma SwitchOfOneDigit(k: nat, o: Opt)
    requires k < 32
    ensures IsSet(BitsOf(Pow2(k)), o) <==> Position(o) == k
  {
    PowerIsOneDigit(k, 0);
    SwitchIsBit(BitsOf(Pow2(k)), o);
  }

  lemma PowersInHex()
    ensures Pow2(0) == 0x1 && Pow2(1) == 0x2 && Pow2(2) == 0x4 && Pow2(3) == 0x8 && Pow2(5) == 0x20
    ensures Pow2(6) == 0x40 && Pow2(9) == 0x200 && Pow2(11) == 0x800 && Pow2(12) == 0x1000
  {
    ConstantIsPower(Caseless);
    ConstantIsPower(Multiline);
    ConstantIsPower(Dotall);
    ConstantIsPower(Extended);
    ConstantIsPower(DollarEndonly);
    ConstantIsPower(Extra);
    ConstantIsPower(Ungreedy);
    ConstantIsPower(Utf8);
    ConstantIsPower(NoAutoCapture);
  }

  /** What each number of pcre.h switches on when it is passed as flags. */
  lemma FlagsByNumber(o: Opt)
    ensures IsSet(BitsOf(0x0000_0001), o) <==> o == Caseless
    ensures IsSet(BitsOf(0x0000_0002), o) <==> o == Multiline
    ensures IsSet(BitsOf(0x0000_0004), o) <==> o == Dotall
    ensures IsSet(BitsOf(0x0000_0008), o) <==> o == Extended
    ensures IsSet(BitsOf(0x0000_0020), o) <==> o == DollarEndonly
    ensures IsSet(BitsOf(0x0000_0040), o) <==> o == Extra
    ensures IsSet(BitsOf(0x0000_0200), o) <==> o == Ungreedy
    ensures IsSet(BitsOf(0x0000_0800), o) <==> o == Utf8
    ensures IsSet(BitsOf(0x0000_1000), o) <==> o == NoAutoCapture
  {
    hide Pow2, BitsOf, IsSet;
    PowersInHex();
    SwitchOfOneDigit(0, o);
    SwitchOfOneDigit(1, o);
    SwitchOfOneDigit(2, o);
    SwitchOfOneDigit(3, o);
    SwitchOfOneDigit(5, o);
    SwitchOfOneDigit(6, o);
    SwitchOfOneDigit(9, o);
    SwitchOfOneDigit(11, o);
    SwitchOfOneDigit(12, o);
  }

  /** Flags combine by `|`: the word of PCRE_CASELESS|PCRE_MULTILINE is that of 0x3. */
  lemma FlagsCombine(a: Word, b: Word, o: Opt)
    ensures IsSet(Or(a, b), o) <==> IsSet(a, o) || IsSet(b, o)
    ensures BitsOf(0x3) == Or(BitsOf(0x1), BitsOf(0x2)) == {0, 1}
  {
    SwitchIsBit(a, o);
    SwitchIsBit(b, o);
    SwitchIsBit(Or(a, b), o);
    assert Digits(3, 0) == {0} + Digits(1, 1) && Digits(2, 0) == Digits(1, 1) && Digits(1, 0) == {0} + Digits(0, 1);
    assert Digits(1, 1) == {1} + Digits(0, 2);
  }

  /** A getter sees the last write to its option, and no write to another one. */
  lemma ReadAfterWrite(w: Word, o: Opt, b: bool, o': Opt)
    ensures IsSet(SetOrClear(w, o, b), o') == if o == o' then b else IsSet(w, o')
  {
    hide IsSet, BitsOf, Constant;
    MaskIsOneBit(o);
    SwitchIsBit(w, o');
    SwitchIsBit(SetOrClear(w, o, b), o');
  }

  /** Bits that belong to none of the nine options are left alone. */
  lemma OtherBitsKept(w: Word, o: Opt, b: bool)
    ensures And(SetOrClear(w, o, b), Not(NINE_BITS)) == And(w, Not(NINE_BITS))
  {
    MaskIsOneBit(o);
  }

  /** Setters of different options commute. */
  lemma SettersCommute(w: Word, o: Opt, b: bool, o': Opt, b': bool)
    requires o != o'
    ensures SetOrClear(SetOrClear(w, o, b), o', b') == SetOrClear(SetOrClear(w, o', b'), o, b)
  {
    MaskIsOneBit(o);
    MaskIsOneBit(o');
  }

  function OptionAt(k: nat): (o: Opt)
    requires k in NINE_BITS
    ensures Position(o) == k
  {
    match k
    case 0 => Caseless
    case 1 => Multiline
    case 2 => Dotall
    case 3 => Extended
    case 5 => DollarEndonly
    case 6 => Extra
    case 9 => Ungreedy
    case 11 => Utf8
    case _ => NoAutoCapture
  }

  /** The nine switches and the other bits together are the whole word. */
  lemma SwitchesDetermineWord(w: Word, w': Word)
    requires And(w, Not(NINE_BITS)) == And(w', Not(NINE_BITS))
    requires forall o: Opt :: IsSet(w, o) == IsSet(w', o)
    ensures w == w'
  {
    forall k: nat
      ensures k in w <==> k in w'
    {
      if k in NINE_BITS {
        SwitchIsBit(w, OptionAt(k));
        SwitchIsBit(w', OptionAt(k));
      } else {
        assert k in w <==> k in And(w, Not(NINE_BITS));
        assert k in w' <==> k in And(w', Not(NINE_BITS));
      }
    }
  }

  // ----- any run of setters -----

  /** What option `o` was last set to along `cs`, counting back from the end. */
  function LastSwitch(cs: seq<Call>, o: Opt, start: bool): bool {
    if cs == [] then start else
    match cs[|cs| - 1]
    case SetOption(o', b) => if o == o' then b else LastSwitch(cs[..|cs| - 1], o, start)
    case SetAllOptions(w) => IsSet(w, o)
    case _ => LastSwitch(cs[..|cs| - 1], o, start)
  }

  /** The last word set as a whole. */
  function LastWord(cs: seq<Call>, start: Word): Word {
    if cs == [] then start
    else if cs[|cs| - 1].SetAllOptions? then cs[|cs| - 1].word
    else LastWord(cs[..|cs| - 1], start)
  }

  function LastLimit(cs: seq<Call>, start: int): int {
    if cs == [] then start
    else if cs[|cs| - 1].SetMatchLimit? then cs[|cs| - 1].limit
    else LastLimit(cs[..|cs| - 1], start)
  }

  function LastRecursionLimit(cs: seq<Call>, start: int): int {
    if cs == [] then start
    else if cs[|cs| - 1].SetMatchLimitRecursion? then cs[|cs| - 1].limit
    else LastRecursionLimit(cs[..|cs| - 1], start)
  }

  lemma {:induction false} ApplyLast(s: Options, cs: seq<Call>)
    requires cs != []
    ensures s.ApplyAll(cs) == s.ApplyAll(cs[..|cs| - 1]).Apply(cs[|cs| - 1])
    decreases |cs|
  {
    if |cs| > 1 {
      ApplyLast(s.Apply(cs[0]), cs[1..]);
      assert cs[1..][..|cs| - 2] == cs[..|cs| - 1][1..];
    }
  }

  /**
   After any run of setters from any start, each getter returns what its option was last
   set to, the remaining bits are those of the last whole word, and each limit is its own.
   */
  lemma {:induction false} RunOfSetters(s: Options, cs: seq<Call>)
    ensures var r := s.ApplyAll(cs);
            && (forall o: Opt :: IsSet(r.word, o) == LastSwitch(cs, o, IsSet(s.word, o)))
            && And(r.word, Not(NINE_BITS)) == And(LastWord(cs, s.word), Not(NINE_BITS))
            && r.matchLimit == LastLimit(cs, s.matchLimit)
            && r.matchLimitRecursion == LastRecursionLimit(cs, s.matchLimitRecursion)
    decreases |cs|
  {
    if cs != [] {
      var before, c := cs[..|cs| - 1], cs[|cs| - 1];
      RunOfSetters(s, before);
      ApplyLast(s, cs);
      WordAfter(s.ApplyAll(before), c);
    }
  }

  lemma WordAfter(s: Options, c: Call)
    ensures c.SetOption? ==> And(s.Apply(c).word, Not(NINE_BITS)) == And(s.word, Not(NINE_BITS))
    ensures c.SetOption? ==> forall o: Opt :: IsSet(s.Apply(c).word, o) == if o == c.opt then c.on else IsSet(s.word, o)
  {
    if c.SetOption? {
      OtherBitsKept(s.word, c.opt, c.on);
      forall o: Opt
        ensures IsSet(s.Apply(c).word, o) == if o == c.opt then c.on else IsSet(s.word, o)
      {
        ReadAfterWrite(s.word, c.opt, c.on, o);
      }
    }
  }
}
