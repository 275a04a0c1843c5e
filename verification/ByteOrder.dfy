/** The order of byte strings that StringPiece's comparisons are meant to implement. */
module ByteOrder {

  type Byte = x: int | 0 <= x < 256

  predicate Less(a: seq<Byte>, b: seq<Byte>) {
    b != [] && (a == [] || a[0] < b[0] || (a[0] == b[0] && Less(a[1..], b[1..])))
  }

  predicate AtMost(a: seq<Byte>, b: seq<Byte>) { a == b || Less(a, b) }

  /** `a` and `b` agree up to `k`, where `a` ends or has the smaller byte. */
  predicate SmallerAt(a: seq<Byte>, b: seq<Byte>, k: nat) {
    k <= |a| && k < |b| && a[..k] == b[..k] && (k == |a| || a[k] < b[k])
  }

  lemma HeadsAgree(a: seq<Byte>, b: seq<Byte>, k: nat)
    requires 0 < k <= |a| && k <= |b| && a[..k] == b[..k]
    ensures a[0] == b[0]
  {
    assert a[..k][0] == b[..k][0];
  }

  /** Lexicographic order, said without recursion: the first difference decides. */
  lemma {:induction false} FirstDifference(a: seq<Byte>, b: seq<Byte>)
    ensures Less(a, b) <==> exists k: nat :: SmallerAt(a, b, k)
  {
    if a != [] && b != [] && a[0] == b[0] {
      FirstDifference(a[1..], b[1..]);
      if Less(a, b) {
        var k: nat :| SmallerAt(a[1..], b[1..], k);
        assert a[..k + 1] == [a[0]] + a[1..][..k] && b[..k + 1] == [b[0]] + b[1..][..k];
        assert SmallerAt(a, b, k + 1);
      }
      if k: nat :| SmallerAt(a, b, k) {
        assert a[..k][1..] == a[1..][..k - 1] && b[..k][1..] == b[1..][..k - 1];
        assert SmallerAt(a[1..], b[1..], k - 1);
      }
    } else if Less(a, b) {
      assert SmallerAt(a, b, 0);
    } else if k: nat :| SmallerAt(a, b, k) {
      if k > 0 { HeadsAgree(a, b, k); }
      assert false;
    }
  }

  /** Exactly one of the three holds. */
  lemma {:induction false} Trichotomy(a: seq<Byte>, b: seq<Byte>)
    ensures Less(a, b) || Less(b, a) || a == b
    ensures !(Less(a, b) && Less(b, a)) && !Less(a, a)
  {
    if a != [] { Trichotomy(a[1..], a[1..]); }
    if a != [] && b != [] && a[0] == b[0] {
      Trichotomy(a[1..], b[1..]);
      assert a == [a[0]] + a[1..] && b == [b[0]] + b[1..];
    }
  }

  lemma {:induction false} Transitive(a: seq<Byte>, b: seq<Byte>, c: seq<Byte>)
    requires Less(a, b) && Less(b, c)
    ensures Less(a, c)
  {
    if a != [] && a[0] == b[0] == c[0] { Transitive(a[1..], b[1..], c[1..]); }
  }

  /** Comparing over the shorter length, with the lengths to break a tie, is enough. */
  lemma {:induction false} ShorterLengthDecides(a: seq<Byte>, b: seq<Byte>)
    ensures var n := if |a| < |b| then |a| else |b|;
            Less(a, b) <==> Less(a[..n], b[..n]) || (a[..n] == b[..n] && |a| < |b|)
  {
    if a != [] && b != [] {
      var n := if |a| < |b| then |a| else |b|;
      ShorterLengthDecides(a[1..], b[1..]);
      assert a[..n][1..] == a[1..][..n - 1] && b[..n][1..] == b[1..][..n - 1];
      assert a[..n] == [a[0]] + a[..n][1..] && b[..n] == [b[0]] + b[..n][1..];
    }
  }

  /** A prefix is at most what it is a prefix of. */
  lemma {:induction false} PrefixAtMost(p: seq<Byte>, a: seq<Byte>)
    requires p <= a
    ensures AtMost(p, a)
  {
    if p != [] {
      PrefixAtMost(p[1..], a[1..]);
      assert p == [p[0]] + p[1..] && a == [a[0]] + a[1..];
    }
  }

  /** The strings with a given prefix are contiguous in the order. */
  lemma {:induction false} PrefixRange(p: seq<Byte>, a: seq<Byte>, b: seq<Byte>, c: seq<Byte>)
    requires p <= a && p <= c && AtMost(a, b) && AtMost(b, c)
    ensures p <= b
  {
    if p != [] && a != b && b != c {
      assert a[0] == b[0] == c[0] == p[0];
      PrefixRange(p[1..], a[1..], b[1..], c[1..]);
      assert p == [p[0]] + p[1..] && b == [b[0]] + b[1..];
    }
  }

  /** The part of a buffer a C string function sees. */
  function UpToNul(s: seq<Byte>): seq<Byte> {
    if s == [] || s[0] == 0 then [] else [s[0]] + UpToNul(s[1..])
  }

  lemma {:induction false} UpToFirstNul(s: seq<Byte>, n: nat)
    requires n < |s| && s[n] == 0 && 0 !in s[..n]
    ensures UpToNul(s) == s[..n]
  {
    if n > 0 {
      assert s[0] == s[..n][0] && s[..n][1..] == s[1..][..n - 1];
      UpToFirstNul(s[1..], n - 1);
      assert s[..n] == [s[0]] + s[1..][..n - 1];
    }
  }

  /** Terminated by a NUL, bytes are read back by the C string functions exactly when they contain none. */
  lemma {:induction false} NulRoundTrip(v: seq<Byte>, rest: seq<Byte>)
    ensures UpToNul(v + [0] + rest) == v <==> 0 !in v
  {
    var s := v + [0] + rest;
    if v == [] {
      assert s[0] == 0;
    } else {
      NulRoundTrip(v[1..], rest);
      assert s[1..] == v[1..] + [0] + rest && s[0] == v[0];
      assert v == [v[0]] + v[1..];
    }
  }
}
