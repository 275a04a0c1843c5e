/** pcre_stringpiece.h. */
module StringPieces {
  import opened ByteOrder
  import opened Windows

  /** `static_cast<int>` of a size_t, on a machine with 32-bit two's complement int. */
  function NarrowToInt(n: nat): int {
    var low := n % 0x1_0000_0000;
    if low < 0x8000_0000 then low else low - 0x1_0000_0000
  }

  /** The narrowed length is the int that agrees with the length modulo 2 to the 32. */
  lemma NarrowWraps(n: nat)
    ensures -0x8000_0000 <= NarrowToInt(n) < 0x8000_0000
    ensures (n - NarrowToInt(n)) % 0x1_0000_0000 == 0
  {
    assert n - n % 0x1_0000_0000 == 0x1_0000_0000 * (n / 0x1_0000_0000);
  }

  /** Lengths survive the narrowing to int exactly when they fit it. */
  lemma NarrowIsExact(n: nat)
    ensures NarrowToInt(n) == n <==> n < 0x8000_0000
  {
  }

  /** The `n` bytes at `buffer + at`; a null pointer has none. */
  function BytesAt(buffer: array?<Byte>, at: int, n: int): seq<Byte>
    requires Readable(buffer, at, n)
    reads buffer
  {
    if buffer == null then [] else buffer[at..at + n]
  }

  predicate Readable(buffer: array?<Byte>, at: int, n: int) {
    0 <= n && if buffer == null then n == 0 else 0 <= at && at + n <= buffer.Length
  }

  /** memcmp; only the sign of the result is specified. */
  method Memcmp(a: array?<Byte>, i: int, b: array?<Byte>, j: int, n: int) returns (r: int)
    requires Readable(a, i, n) && Readable(b, j, n)
    ensures r < 0 <==> Less(BytesAt(a, i, n), BytesAt(b, j, n))
    ensures r == 0 <==> BytesAt(a, i, n) == BytesAt(b, j, n)
    ensures r > 0 <==> Less(BytesAt(b, j, n), BytesAt(a, i, n))
  {
    Trichotomy(BytesAt(a, i, n), BytesAt(b, j, n));
    ghost var x, y := BytesAt(a, i, n), BytesAt(b, j, n);
    var k := 0;
    while k < n
      invariant 0 <= k <= n
      invariant x[..k] == y[..k]
    {
      var u: int, v: int := a[i + k], b[j + k];
      assert x[k] == u && y[k] == v;
      if u != v {
        FirstDifference(x, y);
        FirstDifference(y, x);
        assert SmallerAt(x, y, k) || SmallerAt(y, x, k);
        return u - v;
      }
      assert x[..k + 1] == x[..k] + [x[k]] && y[..k + 1] == y[..k] + [y[k]];
      k := k + 1;
    }
    assert x == x[..n] == y[..n] == y;
    return 0;
  }

  /** strlen. */
  method Strlen(str: array<Byte>, at: nat) returns (n: nat)
    requires at <= str.Length && 0 in str[at..]
    ensures at + n < str.Length && str[at + n] == 0 && 0 !in str[at..at + n]
    ensures str[at..at + n] == UpToNul(str[at..])
  {
    n := 0;
    while str[at + n] != 0
      invariant at + n < str.Length
      invariant 0 !in str[at..at + n]
      decreases str.Length - n
    {
      assert str[at..at + n + 1] == str[at..at + n] + [str[at + n]];
      n := n + 1;
    }
    assert str[at..][..n] == str[at..at + n] && str[at..][n] == 0;
    UpToFirstNul(str[at..], n);
  }

  class StringPiece {
    var ptr: array?<Byte>
    var offset: int
    var length: int

    /** What the comparisons demand of their callers: a view of `length` readable bytes. */
    predicate Valid()
      reads this
    {
      Readable(ptr, offset, length)
    }

    function View(): seq<Byte>
      requires Valid()
      reads this, ptr
    {
      BytesAt(ptr, offset, length)
    }

    function Win(): Window
      reads this
    {
      Window(offset, length)
    }

    constructor ()
      ensures Valid() && View() == []
    {
      ptr, offset, length := null, 0, 0;
    }

    constructor FromCString(str: array<Byte>, at: nat)
      requires at <= str.Length && 0 in str[at..]
      ensures ptr == str && offset == at && length == NarrowToInt(|UpToNul(str[at..])|)
      ensures Valid() && View() == UpToNul(str[at..]) <==> |UpToNul(str[at..])| < 0x8000_0000
    {
      var n := Strlen(str, at);
      NarrowIsExact(n);
      ptr, offset, length := str, at, NarrowToInt(n);
    }

    /** From a std::string, whose data is `str`. */
    constructor FromString(str: array<Byte>)
      ensures ptr == str && offset == 0 && length == NarrowToInt(str.Length)
      ensures Valid() && View() == str[..] <==> str.Length < 0x8000_0000
    {
      NarrowIsExact(str.Length);
      ptr, offset, length := str, 0, NarrowToInt(str.Length);
    }

    constructor FromBuffer(buffer: array?<Byte>, at: int, len: int)
      ensures ptr == buffer && Win() == Window(at, len)
    {
      ptr, offset, length := buffer, at, len;
    }

    method Clear()
      modifies this
      ensures Valid() && View() == [] && ptr == null
    {
      ptr, offset, length := null, 0, 0;
    }

    method Set(buffer: array?<Byte>, at: int, len: int)
      modifies this
      ensures ptr == buffer && Win() == Window(at, len)
    {
      ptr, offset, length := buffer, at, len;
    }

    method SetCString(str: array<Byte>, at: nat)
      requires at <= str.Length && 0 in str[at..]
      modifies this
      ensures ptr == str && offset == at && length == NarrowToInt(|UpToNul(str[at..])|)
      ensures Valid() && View() == UpToNul(str[at..]) <==> |UpToNul(str[at..])| < 0x8000_0000
    {
      ptr, offset := str, at;
      var n := Strlen(str, at);
      NarrowIsExact(n);
      length := NarrowToInt(n);
    }

    method RemovePrefix(n: int)
      modifies `offset, `length
      ensures Win() == old(Win()).Trim(Prefix(n))
      ensures old(Valid()) && 0 <= n <= old(length) ==> Valid() && View() == old(View())[n..]
    {
      offset := offset + n;
      length := length - n;
    }

    method RemoveSuffix(n: int)
      modifies `length
      ensures Win() == old(Win()).Trim(Suffix(n))
      ensures old(Valid()) && 0 <= n <= old(length) ==> Valid() && View() == old(View())[..old(length) - n]
    {
      length := length - n;
    }

    method Equals(x: StringPiece) returns (r: bool)
      requires Valid() && x.Valid()
      ensures r <==> View() == x.View()
    {
      if length != x.length { return false; }
      var c := Memcmp(ptr, offset, x.ptr, x.offset, length);
      return c == 0;
    }

    method NotEquals(x: StringPiece) returns (r: bool)
      requires Valid() && x.Valid()
      ensures r <==> View() != x.View()
    {
      var eq := Equals(x);
      return !eq;
    }

    /** The comparison over the shorter length, shared by what follows. */
    method CompareShorter(x: StringPiece) returns (r: int)
      requires Valid() && x.Valid()
      ensures Less(View(), x.View()) <==> r < 0 || (r == 0 && length < x.length)
      ensures Less(x.View(), View()) <==> r > 0 || (r == 0 && x.length < length)
      ensures View() == x.View() <==> r == 0 && length == x.length
    {
      var n := if length < x.length then length else x.length;
      r := Memcmp(ptr, offset, x.ptr, x.offset, n);
      ShorterLengthDecides(View(), x.View());
      ShorterLengthDecides(x.View(), View());
      assert View()[..n] == BytesAt(ptr, offset, n) && x.View()[..n] == BytesAt(x.ptr, x.offset, n);
      assert length == x.length ==> View() == View()[..n] && x.View() == x.View()[..n];
    }

    method LessThan(x: StringPiece) returns (r: bool)
      requires Valid() && x.Valid()
      ensures r <==> Less(View(), x.View())
    {
      var c := CompareShorter(x);
      return c < 0 || (c == 0 && length < x.length);
    }

    method LessOrEqual(x: StringPiece) returns (r: bool)
      requires Valid() && x.Valid()
      ensures r <==> AtMost(View(), x.View())
    {
      var c := CompareShorter(x);
      return c < 0 || (c == 0 && length <= x.length);
    }

    method GreaterOrEqual(x: StringPiece) returns (r: bool)
      requires Valid() && x.Valid()
      ensures r <==> AtMost(x.View(), View())
    {
      var c := CompareShorter(x);
      return c > 0 || (c == 0 && length >= x.length);
    }

    method GreaterThan(x: StringPiece) returns (r: bool)
      requires Valid() && x.Valid()
      ensures r <==> Less(x.View(), View())
    {
      var c := CompareShorter(x);
      return c > 0 || (c == 0 && length > x.length);
    }

    method Compare(x: StringPiece) returns (r: int)
      requires Valid() && x.Valid()
      ensures r < 0 <==> Less(View(), x.View())
      ensures r == 0 <==> View() == x.View()
      ensures r > 0 <==> Less(x.View(), View())
    {
      r := CompareShorter(x);
      if r == 0 {
        if length < x.length { r := -1; }
        else if length > x.length { r := 1; }
      }
    }

    method StartsWith(x: StringPiece) returns (r: bool)
      requires Valid() && x.Valid()
      ensures r <==> x.View() <= View()
    {
      if length < x.length { return false; }
      var c := Memcmp(ptr, offset, x.ptr, x.offset, x.length);
      assert View()[..x.length] == BytesAt(ptr, offset, x.length);
      return c == 0;
    }

    method AsString() returns (s: array<Byte>)
      requires Valid()
      ensures fresh(s) && s[..] == View()
    {
      s := new Byte[length];
      for k := 0 to length
        invariant s[..k] == View()[..k]
      {
        s[k] := ptr[offset + k];
      }
    }
  }

  /** Rebuilding a view from its own string gives an equal view, embedded NULs and all. */
  method Rebuilt(x: StringPiece) returns (y: StringPiece, eq: bool)
    requires x.Valid() && x.length < 0x8000_0000
    ensures fresh(y) && y.Valid() && y.View() == x.View() && eq
  {
    var s := x.AsString();
    y := new StringPiece.FromString(s);
    eq := y.Equals(x);
  }

  /** Two views start with each other exactly when they are equal. */
  method MutualPrefix(x: StringPiece, y: StringPiece) returns (mutual: bool, eq: bool)
    requires x.Valid() && y.Valid()
    ensures mutual == eq && (eq <==> x.View() == y.View())
  {
    var a := x.StartsWith(y);
    var b := y.StartsWith(x);
    eq := x.Equals(y);
    mutual := a && b;
  }
}
