/** Windows into a buffer, and what trimming them leaves. */
module Windows {
  import opened ByteOrder

  datatype Window = Window(offset: int, length: int) {
    predicate In(buffer: seq<Byte>) { 0 <= offset && 0 <= length && offset + length <= |buffer| }

    function Bytes(buffer: seq<Byte>): seq<Byte>
      requires In(buffer)
    {
      buffer[offset..offset + length]
    }

    function Trim(t: Trim): Window {
      match t
      case Prefix(n) => Window(offset + n, length - n)
      case Suffix(n) => Window(offset, length - n)
    }

    function TrimAll(ts: seq<Trim>): Window
      decreases |ts|
    {
      if ts == [] then this else Trim(ts[0]).TrimAll(ts[1..])
    }

    /** Every call removes no more than there is. */
    predicate InRange(ts: seq<Trim>)
      decreases |ts|
    {
      ts == [] || (0 <= ts[0].n <= length && Trim(ts[0]).InRange(ts[1..]))
    }
  }

  datatype Trim = Prefix(n: int) | Suffix(n: int)

  function FrontTotal(ts: seq<Trim>): int {
    if ts == [] then 0 else (if ts[0].Prefix? then ts[0].n else 0) + FrontTotal(ts[1..])
  }

  function Total(ts: seq<Trim>): int {
    if ts == [] then 0 else ts[0].n + Total(ts[1..])
  }

  /** The prefixes removed, first to last. */
  function Front(w: Window, ts: seq<Trim>, buffer: seq<Byte>): seq<Byte>
    requires w.In(buffer) && w.InRange(ts)
    decreases |ts|
  {
    if ts == [] then [] else
    var rest := Front(w.Trim(ts[0]), ts[1..], buffer);
    if ts[0].Prefix? then w.Bytes(buffer)[..ts[0].n] + rest else rest
  }

  /** The suffixes removed, last to first. */
  function Back(w: Window, ts: seq<Trim>, buffer: seq<Byte>): seq<Byte>
    requires w.In(buffer) && w.InRange(ts)
    decreases |ts|
  {
    if ts == [] then [] else
    var rest := Back(w.Trim(ts[0]), ts[1..], buffer);
    if ts[0].Suffix? then rest + w.Bytes(buffer)[w.length - ts[0].n..] else rest
  }

  /** Nothing is lost: removed prefixes, what is left, and removed suffixes make up the original view. */
  lemma {:induction false} TrimConserves(w: Window, ts: seq<Trim>, buffer: seq<Byte>)
    requires w.In(buffer) && w.InRange(ts)
    ensures w.TrimAll(ts).In(buffer)
    ensures Front(w, ts, buffer) + w.TrimAll(ts).Bytes(buffer) + Back(w, ts, buffer) == w.Bytes(buffer)
    decreases |ts|
  {
    if ts != [] {
      var t, w' := ts[0], w.Trim(ts[0]);
      TrimConserves(w', ts[1..], buffer);
      CutConserves(w, t, Front(w', ts[1..], buffer), w'.TrimAll(ts[1..]).Bytes(buffer), Back(w', ts[1..], buffer), buffer);
    }
  }

  lemma CutConserves(w: Window, t: Trim, front: seq<Byte>, mid: seq<Byte>, back: seq<Byte>, buffer: seq<Byte>)
    requires w.In(buffer) && 0 <= t.n <= w.length
    requires front + mid + back == w.Trim(t).Bytes(buffer)
    ensures var bytes := w.Bytes(buffer);
            if t.Prefix? then bytes[..t.n] + front + mid + back == bytes
            else front + mid + (back + bytes[w.length - t.n..]) == bytes
  {
    var bytes, left := w.Bytes(buffer), w.Trim(t).Bytes(buffer);
    if t.Prefix? {
      assert bytes == bytes[..t.n] + left;
      assert bytes[..t.n] + front + mid + back == bytes[..t.n] + (front + mid + back);
    } else {
      var cut := bytes[w.length - t.n..];
      assert bytes == left + cut;
      assert front + mid + (back + cut) == (front + mid + back) + cut;
    }
  }

  /** The order of the calls does not matter, and they stay in range exactly when their total does. */
  lemma {:induction false} TrimTotals(w: Window, ts: seq<Trim>)
    requires forall i :: 0 <= i < |ts| ==> ts[i].n >= 0
    ensures w.TrimAll(ts) == Window(w.offset + FrontTotal(ts), w.length - Total(ts)) && Total(ts) >= 0
    ensures 0 <= w.length ==> (w.InRange(ts) <==> Total(ts) <= w.length)
    decreases |ts|
  {
    if ts != [] {
      assert forall i :: 0 <= i < |ts[1..]| ==> ts[1..][i] == ts[i + 1];
      TrimTotals(w.Trim(ts[0]), ts[1..]);
    }
  }
}
