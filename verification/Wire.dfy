/** Little-endian fixed-width fields, and readers that invert writers. */
module Wire {
  import opened Arith

  type byte = x: int | 0 <= x < 256

  datatype Option<+T> = None | Some(value: T)

  function Pow256(w: nat): pos { if w == 0 then 1 else 256 * Pow256(w - 1) }

  function Encode(v: nat, w: nat): (s: seq<byte>)
    ensures |s| == w
  {
    if w == 0 then [] else [v % 256] + Encode(v / 256, w - 1)
  }

  function Decode(s: seq<byte>): nat {
    if s == [] then 0 else s[0] + 256 * Decode(s[1..])
  }

  lemma {:induction false} DecodeEncode(v: nat, w: nat)
    requires v < Pow256(w)
    ensures Decode(Encode(v, w)) == v
  {
    if w == 0 {
    } else {
      DecodeEncode(v / 256, w - 1);
      assert Encode(v, w)[1..] == Encode(v / 256, w - 1);
    }
  }

  lemma {:induction false} EncodeDecode(s: seq<byte>)
    ensures Decode(s) < Pow256(|s|) && Encode(Decode(s), |s|) == s
  {
    if s == [] {
    } else {
      EncodeDecode(s[1..]);
      var v := Decode(s);
      assert v % 256 == s[0] && v / 256 == Decode(s[1..]);
    }
  }

  // ----- records ------------------------------------------------------------------------------

  function Size(ws: seq<nat>): nat { if ws == [] then 0 else ws[0] + Size(ws[1..]) }

  predicate FitAll(vals: seq<nat>, ws: seq<nat>) {
    |vals| == |ws| && forall i | 0 <= i < |ws| :: vals[i] < Pow256(ws[i])
  }

  function Pack(vals: seq<nat>, ws: seq<nat>): (s: seq<byte>)
    requires |vals| == |ws|
    ensures |s| == Size(ws)
  {
    if ws == [] then [] else Encode(vals[0], ws[0]) + Pack(vals[1..], ws[1..])
  }

  function Unpack(s: seq<byte>, ws: seq<nat>): (vals: seq<nat>)
    requires |s| == Size(ws)
    ensures |vals| == |ws|
  {
    if ws == [] then [] else [Decode(s[..ws[0]])] + Unpack(s[ws[0]..], ws[1..])
  }

  lemma {:induction false} UnpackPack(vals: seq<nat>, ws: seq<nat>)
    requires FitAll(vals, ws)
    ensures Unpack(Pack(vals, ws), ws) == vals
  {
    if ws == [] {
    } else {
      DecodeEncode(vals[0], ws[0]);
      UnpackPack(vals[1..], ws[1..]);
      assert Pack(vals, ws)[..ws[0]] == Encode(vals[0], ws[0]);
      assert Pack(vals, ws)[ws[0]..] == Pack(vals[1..], ws[1..]);
    }
  }

  lemma {:induction false} PackUnpack(s: seq<byte>, ws: seq<nat>)
    requires |s| == Size(ws)
    ensures FitAll(Unpack(s, ws), ws) && Pack(Unpack(s, ws), ws) == s
  {
    if ws == [] {
    } else {
      EncodeDecode(s[..ws[0]]);
      PackUnpack(s[ws[0]..], ws[1..]);
      assert Unpack(s, ws)[1..] == Unpack(s[ws[0]..], ws[1..]);
      assert s == s[..ws[0]] + s[ws[0]..];
    }
  }

  /** Reads one record off the front; fails on a truncated one. */
  function ReadRecord(s: seq<byte>, ws: seq<nat>): Option<(seq<nat>, seq<byte>)> {
    if Size(ws) > |s| then None else Some((Unpack(s[..Size(ws)], ws), s[Size(ws)..]))
  }

  lemma ReadPacked(vals: seq<nat>, ws: seq<nat>, rest: seq<byte>)
    requires FitAll(vals, ws)
    ensures ReadRecord(Pack(vals, ws) + rest, ws) == Some((vals, rest))
  {
    var s := Pack(vals, ws) + rest;
    assert s[..Size(ws)] == Pack(vals, ws) && s[Size(ws)..] == rest;
    UnpackPack(vals, ws);
  }

  lemma ReadMeans(s: seq<byte>, ws: seq<nat>)
    requires ReadRecord(s, ws).Some?
    ensures var (vals, rest) := ReadRecord(s, ws).value; FitAll(vals, ws) && s == Pack(vals, ws) + rest
  {
    PackUnpack(s[..Size(ws)], ws);
    assert s == s[..Size(ws)] + s[Size(ws)..];
  }

  // ----- readers and writers --------------------------------------------------------------------

  type Writer<!T> = T -> seq<byte>
  type Reader<!T> = seq<byte> -> Option<(T, seq<byte>)>

  /** The reader takes back what the writer makes of a good value, whatever follows. */
  ghost predicate ReadsBack<T(!new)>(write: Writer<T>, read: Reader<T>, good: T -> bool) {
    forall x, rest {:trigger write(x) + rest} | good(x) :: read(write(x) + rest) == Some((x, rest))
  }

  /** The reader accepts nothing else. */
  ghost predicate ReadsOnly<T(!new)>(write: Writer<T>, read: Reader<T>, good: T -> bool) {
    forall s {:trigger read(s)} | read(s).Some? ::
        good(read(s).value.0) && s == write(read(s).value.0) + read(s).value.1
  }

  ghost predicate Inverts<T(!new)>(write: Writer<T>, read: Reader<T>, good: T -> bool) {
    ReadsBack(write, read, good) && ReadsOnly(write, read, good)
  }

  function WriteAll<T>(xs: seq<T>, write: Writer<T>): seq<byte> {
    if xs == [] then [] else write(xs[0]) + WriteAll(xs[1..], write)
  }

  function ReadAll<T>(s: seq<byte>, n: nat, read: Reader<T>): Option<(seq<T>, seq<byte>)>
    decreases n
  {
    if n == 0 then Some(([], s))
    else
      match read(s)
      case None => None
      case Some((x, rest)) =>
        match ReadAll(rest, n - 1, read)
        case None => None
        case Some((xs, end)) => Some(([x] + xs, end))
  }

  predicate AllGood<T>(xs: seq<T>, good: T -> bool) {
    forall i | 0 <= i < |xs| :: good(xs[i])
  }

  lemma {:induction false} ReadWritten<T(!new)>(xs: seq<T>, write: Writer<T>, read: Reader<T>, good: T -> bool,
      rest: seq<byte>)
    requires ReadsBack(write, read, good) && AllGood(xs, good)
    ensures ReadAll(WriteAll(xs, write) + rest, |xs|, read) == Some((xs, rest))
  {
    if xs == [] {
      assert WriteAll(xs, write) + rest == rest;
    } else {
      var tail := WriteAll(xs[1..], write);
      assert WriteAll(xs, write) + rest == write(xs[0]) + (tail + rest);
      assert good(xs[0]) && read(write(xs[0]) + (tail + rest)) == Some((xs[0], tail + rest));
      ReadWritten(xs[1..], write, read, good, rest);
      assert [xs[0]] + xs[1..] == xs;
    }
  }

  lemma {:induction false} ReadAllMeans<T(!new)>(s: seq<byte>, n: nat, write: Writer<T>, read: Reader<T>,
      good: T -> bool)
    requires ReadsOnly(write, read, good) && ReadAll(s, n, read).Some?
    ensures var (xs, rest) := ReadAll(s, n, read).value;
            |xs| == n && AllGood(xs, good) && s == WriteAll(xs, write) + rest
    decreases n
  {
    if n == 0 {
      assert WriteAll([], write) + s == s;
    } else {
      var (x, rest) := read(s).value;
      ReadAllMeans(rest, n - 1, write, read, good);
      var (xs, end) := ReadAll(rest, n - 1, read).value;
      assert ([x] + xs)[1..] == xs;
      assert write(x) + (WriteAll(xs, write) + end) == write(x) + WriteAll(xs, write) + end;
    }
  }

  lemma {:induction false} WriteAllAppend<T>(xs: seq<T>, x: T, write: Writer<T>)
    ensures WriteAll(xs + [x], write) == WriteAll(xs, write) + write(x)
  {
    if xs == [] {
      assert xs + [x] == [x] && WriteAll([x], write) == write(x) + WriteAll([], write);
    } else {
      assert (xs + [x])[1..] == xs[1..] + [x];
      WriteAllAppend(xs[1..], x, write);
    }
  }

  /** Writes the items one after the other. */
  method WriteLoop<T>(xs: seq<T>, write: Writer<T>) returns (out: seq<byte>)
    ensures out == WriteAll(xs, write)
  {
    out := [];
    var k := 0;
    while k < |xs|
      invariant 0 <= k <= |xs| && out == WriteAll(xs[..k], write)
    {
      WriteAllAppend(xs[..k], xs[k], write);
      assert xs[..k + 1] == xs[..k] + [xs[k]];
      out := out + write(xs[k]);
      k := k + 1;
    }
    assert xs[..k] == xs;
  }

  /** What has been read so far, in front of what is still to come. */
  function Onto<T>(done: seq<T>, more: Option<(seq<T>, seq<byte>)>): Option<(seq<T>, seq<byte>)> {
    match more
    case None => None
    case Some((xs, rest)) => Some((done + xs, rest))
  }

  lemma OntoStep<T>(done: seq<T>, s: seq<byte>, n: nat, read: Reader<T>)
    requires n > 0
    ensures Onto(done, ReadAll(s, n, read)) ==
              match read(s)
              case None => None
              case Some((x, rest)) => Onto(done + [x], ReadAll(rest, n - 1, read))
  {
    if read(s).Some? {
      var (x, rest) := read(s).value;
      var more := ReadAll(rest, n - 1, read);
      if more.Some? {
        assert done + ([x] + more.value.0) == done + [x] + more.value.0;
      }
    }
  }

  /** Reads `n` items off the front, one after the other. */
  method ReadLoop<T>(s: seq<byte>, n: nat, read: Reader<T>) returns (r: Option<(seq<T>, seq<byte>)>)
    ensures r == ReadAll(s, n, read)
  {
    var items: seq<T> := [];
    var rest := s;
    var k := 0;
    assert Onto([], ReadAll(s, n, read)) == ReadAll(s, n, read) by {
      if ReadAll(s, n, read).Some? {
        assert [] + ReadAll(s, n, read).value.0 == ReadAll(s, n, read).value.0;
      }
    }
    while k < n
      invariant 0 <= k <= n && Onto(items, ReadAll(rest, n - k, read)) == ReadAll(s, n, read)
    {
      OntoStep(items, rest, n - k, read);
      match read(rest) {
        case None => return None;
        case Some((x, next)) =>
          items, rest := items + [x], next;
      }
      k := k + 1;
    }
    assert items + [] == items;
    r := Some((items, rest));
  }
}
