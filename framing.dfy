/**
 * The length-prefixed framing that the test transport's `read` decodes:
 * a 4-byte unsigned big-endian length (`struct.unpack(">I", ...)`)
 * followed by that many payload bytes. The transport's receive buffer is a
 * Python byte string; here it is a sequence of bytes.
 */
module Framing {
  import opened Results

  newtype byte = x: int | 0 <= x < 256

  /** Size of the length header. */
  const HeaderSize: nat := 4

  /** One more than the largest length a 4-byte header can hold. */
  const FrameLimit: nat := 0x1_0000_0000

  /** `struct.unpack(">I", b)`: the unsigned big-endian value of four bytes. */
  function Be32(b: seq<byte>): (n: nat)
    requires |b| == HeaderSize
    ensures n < FrameLimit
  {
    var hi := b[0] as nat * 256 + b[1] as nat;
    assert hi < 0x1_0000;
    var mid := hi * 256 + b[2] as nat;
    assert mid < 0x100_0000;
    mid * 256 + b[3] as nat
  }

  /** The four header bytes that `Be32` decodes back to `n`. */
  function EncodeBe32(n: nat): (b: seq<byte>)
    requires n < FrameLimit
    ensures |b| == HeaderSize && Be32(b) == n
  {
    var b := [(n / 0x100_0000) as byte, (n / 0x1_0000 % 256) as byte,
              (n / 256 % 256) as byte, (n % 256) as byte];
    Be32Encode(n);
    b
  }

  /** The byte-wise arithmetic behind `EncodeBe32`. */
  lemma Be32Encode(n: nat)
    requires n < FrameLimit
    ensures n / 0x100_0000 < 256
    ensures ((n / 0x100_0000 * 256 + n / 0x1_0000 % 256) * 256 + n / 256 % 256) * 256 + n % 256 == n
  {
    assert n / 0x1_0000 == n / 0x100_0000 * 256 + n / 0x1_0000 % 256;
    assert n / 256 == n / 0x1_0000 * 256 + n / 256 % 256;
  }

  /** A header is determined by its value: decoding loses nothing. */
  lemma EncodeOfBe32(b: seq<byte>)
    requires |b| == HeaderSize
    ensures EncodeBe32(Be32(b)) == b
  {
    var n := Be32(b);
    var hi := b[0] as nat * 256 + b[1] as nat;
    var mid := hi * 256 + b[2] as nat;
    assert n / 256 == mid && n % 256 == b[3] as nat;
    assert mid / 256 == hi && mid % 256 == b[2] as nat;
    assert hi / 256 == b[0] as nat && hi % 256 == b[1] as nat;
    assert n / 0x1_0000 == mid / 256;
    assert n / 0x100_0000 == hi / 256;
  }

  /** One frame on the stream: the length header, then the payload. */
  function Frame(p: seq<byte>): (f: seq<byte>)
    requires |p| < FrameLimit
    ensures |f| == HeaderSize + |p| && f[HeaderSize..] == p
    ensures Be32(f[..HeaderSize]) == |p|
  {
    EncodeBe32(|p|) + p
  }

  /** Why a read failed: the two assertions of the transport's `read`. */
  datatype ReadError =
    | ShortHeader(have: nat)            // fewer than 4 bytes buffered
    | ShortPayload(want: nat, have: nat) // header read, payload incomplete

  /** What one `read` returns, and what is left in the buffer afterwards. */
  datatype ReadStep = ReadStep(payload: Result<seq<byte>, ReadError>, rest: seq<byte>)

  /**
   * One `read` on a buffer holding `buf`. The header is removed before the
   * payload length is checked, so a short payload leaves the buffer without
   * its header.
   */
  function ReadFrame(buf: seq<byte>): (r: ReadStep)
    ensures r.payload.Ok? <==>
              |buf| >= HeaderSize && Be32(buf[..HeaderSize]) <= |buf| - HeaderSize
    ensures r.payload.Ok? ==>
              |r.payload.value| < FrameLimit && buf == Frame(r.payload.value) + r.rest
    ensures r.payload.Err? ==>
              r.rest == if |buf| < HeaderSize then buf else buf[HeaderSize..]
    ensures r.payload.Err? ==>
              r.payload.error == if |buf| < HeaderSize then ShortHeader(|buf|)
                                 else ShortPayload(Be32(buf[..HeaderSize]), |buf| - HeaderSize)
  {
    if |buf| < HeaderSize then ReadStep(Err(ShortHeader(|buf|)), buf)
    else
      var l := Be32(buf[..HeaderSize]);
      var body := buf[HeaderSize..];
      if |body| < l then ReadStep(Err(ShortPayload(l, |body|)), body)
      else
        EncodeOfBe32(buf[..HeaderSize]);
        assert buf == buf[..HeaderSize] + body[..l] + body[l..];
        ReadStep(Ok(body[..l]), body[l..])
  }

  /** Round trip: a frame followed by anything reads back as its payload. */
  lemma ReadFrameOfFrame(p: seq<byte>, rest: seq<byte>)
    requires |p| < FrameLimit
    ensures ReadFrame(Frame(p) + rest) == ReadStep(Ok(p), rest)
  {
  }

  /**
   * Bytes written after a complete frame do not change what `read` returns:
   * they stay behind the remainder.
   */
  lemma ReadFrameExtend(buf: seq<byte>, more: seq<byte>)
    requires ReadFrame(buf).payload.Ok?
    ensures ReadFrame(buf + more) == ReadStep(ReadFrame(buf).payload, ReadFrame(buf).rest + more)
  {
    var r := ReadFrame(buf);
    assert buf + more == Frame(r.payload.value) + (r.rest + more);
    ReadFrameOfFrame(r.payload.value, r.rest + more);
  }

  /**
   * Any strict prefix of a frame fails to read. Once four bytes are there the
   * header is consumed anyway, leaving only the partial payload.
   */
  lemma TruncatedFrame(p: seq<byte>, k: nat)
    requires |p| < FrameLimit && k < HeaderSize + |p|
    ensures ReadFrame(Frame(p)[..k]).payload.Err?
    ensures ReadFrame(Frame(p)[..k]).rest == if k < HeaderSize then Frame(p)[..k] else p[..k - HeaderSize]
  {
  }

  /** The sum of the lengths of `parts`. */
  function TotalLength(parts: seq<seq<byte>>): nat
  {
    if parts == [] then 0 else |parts[0]| + TotalLength(parts[1..])
  }

  /** `''.join(parts)`: the parts, in order, with nothing between them. */
  function Join(parts: seq<seq<byte>>): (s: seq<byte>)
    ensures |s| == TotalLength(parts)
    ensures parts != [] ==> parts[0] <= s
    ensures parts != [] ==>
              |parts[|parts| - 1]| <= |s| && s[|s| - |parts[|parts| - 1]|..] == parts[|parts| - 1]
  {
    if parts == [] then [] else parts[0] + Join(parts[1..])
  }

  /** Joining is compositional: writing two batches is writing their join. */
  lemma {:induction false} JoinAppend(a: seq<seq<byte>>, b: seq<seq<byte>>)
    ensures Join(a + b) == Join(a) + Join(b)
  {
    if a != [] {
      assert (a + b)[1..] == a[1..] + b;
      JoinAppend(a[1..], b);
    } else {
      assert a + b == b;
    }
  }

  lemma JoinPair(x: seq<byte>, y: seq<byte>)
    ensures Join([x, y]) == x + y
  {
    assert [x, y][1..] == [y] && [y][1..] == [];
    assert Join([y]) == y + Join([]);
  }

  /** Every payload fits in a frame header. */
  ghost predicate Frameable(ps: seq<seq<byte>>)
  {
    forall i :: 0 <= i < |ps| ==> |ps[i]| < FrameLimit
  }

  /** The frames of `ps`, back to back. */
  function FrameAll(ps: seq<seq<byte>>): seq<byte>
    requires Frameable(ps)
  {
    if ps == [] then [] else Frame(ps[0]) + FrameAll(ps[1..])
  }

  /**
   * `n` successive reads: the payloads in the order they came out, or the
   * first failure, together with the buffer left afterwards.
   */
  function ReadMany(buf: seq<byte>, n: nat): (Result<seq<seq<byte>>, ReadError>, seq<byte>)
  {
    if n == 0 then (Ok([]), buf)
    else
      var s := ReadFrame(buf);
      match s.payload
      case Err(e) => (Err(e), s.rest)
      case Ok(p) =>
        var (more, left) := ReadMany(s.rest, n - 1);
        match more
        case Err(e) => (Err(e), left)
        case Ok(ps) => (Ok([p] + ps), left)
  }

  lemma FrameAllCons(ps: seq<seq<byte>>, rest: seq<byte>)
    requires Frameable(ps) && ps != []
    ensures FrameAll(ps) + rest == Frame(ps[0]) + (FrameAll(ps[1..]) + rest)
  {
  }

  /** A successful read followed by successful reads is a successful run. */
  lemma ReadManyCons(buf: seq<byte>, n: nat, p: seq<byte>, tail: seq<byte>, ps: seq<seq<byte>>, rest: seq<byte>)
    requires n > 0 && ReadFrame(buf) == ReadStep(Ok(p), tail)
    requires ReadMany(tail, n - 1) == (Ok(ps), rest)
    ensures ReadMany(buf, n) == (Ok([p] + ps), rest)
  {
  }

  /**
   * FIFO: frames written back to back are read back in the order written,
   * and whatever followed them is left in the buffer.
   */
  lemma {:induction false} ReadManyFrames(ps: seq<seq<byte>>, rest: seq<byte>)
    requires Frameable(ps)
    ensures ReadMany(FrameAll(ps) + rest, |ps|) == (Ok(ps), rest)
  {
    if ps != [] {
      var buf, tail := FrameAll(ps) + rest, FrameAll(ps[1..]) + rest;
      FrameAllCons(ps, rest);
      ReadFrameOfFrame(ps[0], tail);
      ReadManyFrames(ps[1..], rest);
      ReadManyCons(buf, |ps|, ps[0], tail, ps[1..], rest);
      assert [ps[0]] + ps[1..] == ps;
    } else {
      assert FrameAll(ps) + rest == rest;
    }
  }
}
