/** The length-prefixed framing between the servers, for every split of the bytes into chunks.

    Whether a payload parses is a parameter of the decoder, so payloads are plain bytes. */
module Codec {
  import opened Sfu

  newtype byte = x: int | 0 <= x < 256

  type Payload = seq<byte>

  /** The decoder and the bytes that it has not consumed. */
  datatype Decoder = Decoder(size: Option<nat>, buffer: seq<byte>)

  datatype Decoded = Frame(payload: Payload) | Incomplete | Malformed

  // ---------------------------------------------------------------- four bytes, most significant first

  function U32(n: nat): (b: seq<byte>)
    requires n < U32_MODULUS
    ensures |b| == 4
  {
    [(n / 0x100_0000) as byte, (n / 0x1_0000 % 0x100) as byte, (n / 0x100 % 0x100) as byte, (n % 0x100) as byte]
  }

  function ReadU32(b: seq<byte>): (n: nat)
    requires |b| == 4
    ensures n < U32_MODULUS
  {
    b[0] as int * 0x100_0000 + b[1] as int * 0x1_0000 + b[2] as int * 0x100 + b[3] as int
  }

  lemma ReadBack(n: nat)
    requires n < U32_MODULUS
    ensures ReadU32(U32(n)) == n
  {
    var a, b, c := n / 0x100, n / 0x1_0000, n / 0x100_0000;
    assert n == 0x100 * a + n % 0x100;
    assert a == 0x100 * (a / 0x100) + a % 0x100 && a / 0x100 == b;
    assert b == 0x100 * (b / 0x100) + b % 0x100 && b / 0x100 == c;
  }

  /** `read_u32 as usize - 4`, which wraps on a header below 4. */
  function SizeOf(header: nat): (size: nat)
    requires header < U32_MODULUS
    ensures header >= 4 ==> size == header - 4
  {
    if header >= 4 then header - 4 else USIZE_MODULUS + header - 4
  }

  // ---------------------------------------------------------------- one call of the decoder

  function DecodeSized(valid: Payload -> bool, d: Decoder): (Decoded, Decoder)
    requires d.size.Some?
  {
    var n := d.size.value;
    if |d.buffer| < n then (Incomplete, d)
    else if valid(d.buffer[..n]) then (Frame(d.buffer[..n]), Decoder(None, d.buffer[n..]))
    else (Malformed, d)
  }

  function ReadSize(d: Decoder): Decoder
    requires d.size.None? && |d.buffer| >= 4
  {
    Decoder(Some(SizeOf(ReadU32(d.buffer[..4]))), d.buffer[4..])
  }

  function Decode(valid: Payload -> bool, d: Decoder): (Decoded, Decoder) {
    if d.size.Some? then DecodeSized(valid, d)
    else if |d.buffer| < 4 then (Incomplete, d)
    else DecodeSized(valid, ReadSize(d))
  }

  /** `ServerCodec`. */
  class ServerCodec {
    var size: Option<nat>

    constructor ()
      ensures size == None
    {
      size := None;
    }

    method DecodeNext(valid: Payload -> bool, src: seq<byte>) returns (r: Decoded, rest: seq<byte>)
      modifies this
      ensures (r, Decoder(size, rest)) == Decode(valid, Decoder(old(size), src))
      ensures r.Malformed? && old(size).Some? ==> size == old(size) && rest == src
    {
      rest := src;
      while true
        invariant Decode(valid, Decoder(size, rest)) == Decode(valid, Decoder(old(size), src))
        invariant old(size).Some? ==> size == old(size) && rest == src
        decreases if size.None? then 1 else 0
      {
        match size
        case Some(n) =>
          if |rest| >= n {
            if !valid(rest[..n]) {
              return Malformed, rest;
            }
            r := Frame(rest[..n]);
            rest := rest[n..];
            size := None;
            return r, rest;
          } else {
            return Incomplete, rest;
          }
        case None =>
          if |rest| < 4 {
            return Incomplete, rest;
          }
          size := Some(SizeOf(ReadU32(rest[..4])));
          rest := rest[4..];
      }
    }

    /** Room for the length is left in front of the payload and filled in afterwards. */
    method Encode(dst: seq<byte>, payload: Payload) returns (dst': seq<byte>)
      ensures dst' == dst + Encoded(payload)
    {
      var base := |dst|;
      dst' := dst + [0, 0, 0, 0];
      dst' := dst' + payload;
      var len := (|dst'| - base) % U32_MODULUS;
      dst' := dst'[..base] + U32(len) + dst'[base + 4..];
    }
  }

  function Encoded(payload: Payload): seq<byte> {
    U32((|payload| + 4) % U32_MODULUS) + payload
  }

  // ---------------------------------------------------------------- draining

  function Measure(d: Decoder): nat {
    2 * |d.buffer| + if d.size.Some? then 1 else 0
  }

  lemma FrameShrinks(valid: Payload -> bool, d: Decoder)
    ensures Decode(valid, d).0.Frame? ==> Measure(Decode(valid, d).1) < Measure(d)
  {
  }

  /** Decodes until no further frame comes out: the frames and what is left. */
  function Drain(valid: Payload -> bool, d: Decoder): (seq<Payload>, Decoder)
    decreases Measure(d)
  {
    FrameShrinks(valid, d);
    var (r, d') := Decode(valid, d);
    if r.Frame? then
      var (frames, left) := Drain(valid, d');
      ([r.payload] + frames, left)
    else ([], d')
  }

  function Receive(d: Decoder, bytes: seq<byte>): Decoder {
    d.(buffer := d.buffer + bytes)
  }

  function Concat<T>(xs: seq<seq<T>>): seq<T> {
    if xs == [] then [] else xs[0] + Concat(xs[1..])
  }

  /** What comes out when `chunks` arrive one after the other, with a drain after each. */
  function Feed(valid: Payload -> bool, d: Decoder, chunks: seq<seq<byte>>): (seq<Payload>, Decoder)
    decreases |chunks|
  {
    if chunks == [] then ([], d)
    else
      var (frames, d1) := Drain(valid, Receive(d, chunks[0]));
      var (more, d2) := Feed(valid, d1, chunks[1..]);
      (frames + more, d2)
  }

  /** A frame that is complete does not depend on what comes after it. */
  lemma DecodeAppend(valid: Payload -> bool, d: Decoder, bytes: seq<byte>)
    requires Decode(valid, d).0.Frame?
    ensures Decode(valid, Receive(d, bytes)) == (Decode(valid, d).0, Receive(Decode(valid, d).1, bytes))
  {
    if d.size.Some? {
      var n := d.size.value;
      assert (d.buffer + bytes)[..n] == d.buffer[..n] && (d.buffer + bytes)[n..] == d.buffer[n..] + bytes;
    } else {
      assert (d.buffer + bytes)[..4] == d.buffer[..4] && (d.buffer + bytes)[4..] == d.buffer[4..] + bytes;
      var s := ReadSize(d);
      var n := s.size.value;
      assert (s.buffer + bytes)[..n] == s.buffer[..n] && (s.buffer + bytes)[n..] == s.buffer[n..] + bytes;
    }
  }

  /** Without a frame, decoding first and receiving then is the same as the other way round. */
  lemma DecodeAgain(valid: Payload -> bool, d: Decoder, bytes: seq<byte>)
    requires !Decode(valid, d).0.Frame?
    ensures Decode(valid, Receive(Decode(valid, d).1, bytes)) == Decode(valid, Receive(d, bytes))
  {
    if d.size.None? && |d.buffer| >= 4 {
      assert (d.buffer + bytes)[..4] == d.buffer[..4] && (d.buffer + bytes)[4..] == d.buffer[4..] + bytes;
    }
  }

  lemma {:induction false} DrainAppend(valid: Payload -> bool, d: Decoder, bytes: seq<byte>)
    ensures var (frames, left) := Drain(valid, d);
      var (more, left') := Drain(valid, Receive(left, bytes));
      Drain(valid, Receive(d, bytes)) == (frames + more, left')
    decreases Measure(d)
  {
    FrameShrinks(valid, d);
    var (r, d') := Decode(valid, d);
    if r.Frame? {
      DecodeAppend(valid, d, bytes);
      DrainAppend(valid, d', bytes);
      var (frames, left) := Drain(valid, d');
      var (more, left') := Drain(valid, Receive(left, bytes));
      assert [r.payload] + (frames + more) == ([r.payload] + frames) + more;
    } else {
      DecodeAgain(valid, d, bytes);
      var (more, left') := Drain(valid, Receive(d', bytes));
      assert [] + more == more;
    }
  }

  lemma {:induction false} DrainTwice(valid: Payload -> bool, d: Decoder)
    ensures Drain(valid, Drain(valid, d).1) == ([], Drain(valid, d).1)
    decreases Measure(d)
  {
    FrameShrinks(valid, d);
    var (r, d') := Decode(valid, d);
    if r.Frame? {
      DrainTwice(valid, d');
    }
  }

  /** However the bytes are cut into chunks, the same frames come out, in the same order, and the
      decoder is left in the same state. */
  lemma {:induction false} ChunkIndependence(valid: Payload -> bool, d: Decoder, chunks: seq<seq<byte>>)
    requires Drain(valid, d) == ([], d)
    ensures Feed(valid, d, chunks) == Drain(valid, Receive(d, Concat(chunks)))
    decreases |chunks|
  {
    if chunks == [] {
      assert Receive(d, []) == d;
    } else {
      var first, rest := chunks[0], Concat(chunks[1..]);
      var (frames, d1) := Drain(valid, Receive(d, first));
      DrainTwice(valid, Receive(d, first));
      ChunkIndependence(valid, d1, chunks[1..]);
      DrainAppend(valid, Receive(d, first), rest);
      assert Receive(Receive(d, first), rest) == Receive(d, first + rest);
    }
  }

  // ---------------------------------------------------------------- the round trip

  const Start := Decoder(None, [])

  predicate Sendable(valid: Payload -> bool, p: Payload) {
    valid(p) && |p| + 4 < U32_MODULUS
  }

  function EncodedAll(ps: seq<Payload>): seq<byte> {
    if ps == [] then [] else Encoded(ps[0]) + EncodedAll(ps[1..])
  }

  /** The first four bytes are the length, and the others the payload and what follows it. */
  lemma EncodedParts(p: Payload, length: seq<byte>, rest: seq<byte>)
    requires |length| == 4
    ensures (length + p + rest)[..4] == length && (length + p + rest)[4..] == p + rest
  {
  }

  lemma SizeEncoded(p: Payload, rest: seq<byte>)
    requires |p| + 4 < U32_MODULUS
    ensures |Encoded(p) + rest| >= 4 && ReadSize(Decoder(None, Encoded(p) + rest)) == Decoder(Some(|p|), p + rest)
  {
    LengthBack(|p|);
    EncodedParts(p, U32(|p| + 4), rest);
  }

  lemma LengthBack(length: nat)
    requires length + 4 < U32_MODULUS
    ensures SizeOf(ReadU32(U32(length + 4))) == length && (length + 4) % U32_MODULUS == length + 4
  {
    ReadBack(length + 4);
  }

  lemma DecodeEncoded(valid: Payload -> bool, p: Payload, rest: seq<byte>)
    requires Sendable(valid, p)
    ensures Decode(valid, Decoder(None, Encoded(p) + rest)) == (Frame(p), Decoder(None, rest))
  {
    SizeEncoded(p, rest);
    assert (p + rest)[..|p|] == p && (p + rest)[|p|..] == rest;
  }

  lemma {:induction false} DrainEncoded(valid: Payload -> bool, ps: seq<Payload>)
    requires forall p :: p in ps ==> Sendable(valid, p)
    ensures Drain(valid, Decoder(None, EncodedAll(ps))) == (ps, Start)
  {
    if ps != [] {
      DecodeEncoded(valid, ps[0], EncodedAll(ps[1..]));
      DrainEncoded(valid, ps[1..]);
      assert [ps[0]] + ps[1..] == ps;
    }
  }

  /** Every list of payloads comes out as it went in, for every split of its bytes into chunks. */
  lemma FramingRoundTrip(valid: Payload -> bool, ps: seq<Payload>, chunks: seq<seq<byte>>)
    requires forall p :: p in ps ==> Sendable(valid, p)
    requires Concat(chunks) == EncodedAll(ps)
    ensures Feed(valid, Start, chunks) == (ps, Start)
  {
    ChunkIndependence(valid, Start, chunks);
    DrainEncoded(valid, ps);
    assert Receive(Start, EncodedAll(ps)) == Decoder(None, EncodedAll(ps));
  }

  lemma PrefixDrains(valid: Payload -> bool, ps: seq<Payload>, bytes: seq<byte>, rest: seq<byte>)
    requires forall p :: p in ps ==> Sendable(valid, p)
    requires bytes + rest == EncodedAll(ps)
    ensures Drain(valid, Decoder(None, bytes)).0 <= ps
  {
    DrainEncoded(valid, ps);
    DrainAppend(valid, Decoder(None, bytes), rest);
    assert Receive(Decoder(None, bytes), rest) == Decoder(None, EncodedAll(ps));
  }

  /** Of a stream that stops anywhere, a prefix of the payloads comes out. */
  lemma PrefixDecodes(valid: Payload -> bool, ps: seq<Payload>, chunks: seq<seq<byte>>, rest: seq<byte>)
    requires forall p :: p in ps ==> Sendable(valid, p)
    requires Concat(chunks) + rest == EncodedAll(ps)
    ensures Feed(valid, Start, chunks).0 <= ps
  {
    ChunkIndependence(valid, Start, chunks);
    assert Receive(Start, Concat(chunks)) == Decoder(None, Concat(chunks));
    PrefixDrains(valid, ps, Concat(chunks), rest);
  }

  /** A payload survives on its own exactly if its length and header fit into the length field. */
  lemma RoundTripIff(valid: Payload -> bool, p: Payload)
    requires valid(p) && |p| + 4 < USIZE_MODULUS
    ensures Drain(valid, Decoder(None, Encoded(p))) == ([p], Start) <==> |p| + 4 < U32_MODULUS
  {
    if |p| + 4 < U32_MODULUS {
      DrainEncoded(valid, [p]);
      assert EncodedAll([p]) == Encoded(p) by { assert [p][1..] == [] && Encoded(p) + [] == Encoded(p); }
    } else {
      var header := (|p| + 4) % U32_MODULUS;
      ReadBack(header);
      var d := Decoder(None, Encoded(p));
      assert d.buffer[..4] == U32(header) && d.buffer[4..] == p;
      assert ReadSize(d) == Decoder(Some(SizeOf(header)), p);
      assert Decode(valid, d).0.Frame? ==> |Decode(valid, d).0.payload| < |p|;
    }
  }

  // ---------------------------------------------------------------- the bytes on the wire

  /** The number that the bytes say, the first one being the highest. */
  function BigEndian(b: seq<byte>): nat {
    if b == [] then 0 else 0x100 * BigEndian(b[..|b| - 1]) + b[|b| - 1] as int
  }

  lemma TwoBytes(b: seq<byte>)
    requires |b| == 2
    ensures BigEndian(b) == 0x100 * (b[0] as int) + b[1] as int
  {
    assert b[..1][..0] == [];
    assert BigEndian(b[..1]) == b[0] as int;
  }

  lemma FourBytes(b: seq<byte>)
    requires |b| == 4
    ensures BigEndian(b) == ReadU32(b)
  {
    assert b[..3][..2] == b[..2];
    TwoBytes(b[..2]);
  }

  lemma U32Is(n: nat)
    requires n < U32_MODULUS
    ensures BigEndian(U32(n)) == n
  {
    ReadBack(n);
    FourBytes(U32(n));
  }

  /** A frame is its length, which counts itself, as four bytes, and then the payload. */
  lemma EncodedIs(p: Payload)
    requires |p| + 4 < U32_MODULUS
    ensures |Encoded(p)| == |p| + 4 && BigEndian(Encoded(p)[..4]) == |p| + 4 && Encoded(p)[4..] == p
  {
    LengthBack(|p|);
    EncodedParts(p, U32(|p| + 4), []);
    U32Is(|p| + 4);
    assert Encoded(p) + [] == Encoded(p) && p + [] == p;
  }

  /** The length of the payload that the first four bytes announce: a length that does not even count
      itself wraps round. */
  function Announced(b: seq<byte>): nat
    requires |b| >= 4
  {
    var length := BigEndian(b[..4]);
    if length >= 4 then length - 4 else length + (USIZE_MODULUS - 4)
  }

  /** What any bytes decode to at the start of a frame: the announced part, if it is there and valid. */
  lemma DecodesIff(valid: Payload -> bool, b: seq<byte>)
    ensures var (r, d) := Decode(valid, Decoder(None, b));
      if |b| < 4 then r == Incomplete && d == Decoder(None, b)
      else
        var n := Announced(b);
        if |b| - 4 < n then r == Incomplete && d == Decoder(Some(n), b[4..])
        else if valid(b[4..n + 4]) then r == Frame(b[4..n + 4]) && d == Decoder(None, b[n + 4..])
        else r == Malformed && d == Decoder(Some(n), b[4..])
  {
    if |b| >= 4 {
      FourBytes(b[..4]);
      var n := Announced(b);
      if |b| - 4 >= n {
        assert b[4..][..n] == b[4..n + 4] && b[4..][n..] == b[n + 4..];
      }
    }
  }

  // ---------------------------------------------------------------- the client's codec

  function ReadU16(b: seq<byte>): (n: nat)
    requires |b| == 2
    ensures n < 0x1_0000
  {
    b[0] as int * 0x100 + b[1] as int
  }

  /** `ClientCodec`: the length does not count itself, and is cut to two bytes. */
  function ClientEncoded(payload: Payload): seq<byte> {
    var n := |payload| % 0x1_0000;
    [(n / 0x100) as byte, (n % 0x100) as byte] + payload
  }

  function ClientDecode(valid: Payload -> bool, src: seq<byte>): (Decoded, seq<byte>) {
    if |src| < 2 then (Incomplete, src)
    else
      var n := ReadU16(src[..2]);
      if |src| < n + 2 then (Incomplete, src)
      else (if valid(src[2..n + 2]) then Frame(src[2..n + 2]) else Malformed, src[n + 2..])
  }

  lemma ClientSplit(p: Payload, rest: seq<byte>)
    ensures var src := ClientEncoded(p) + rest;
      |src| >= 2 && ReadU16(src[..2]) == |p| % 0x1_0000 && src[2..] == p + rest
  {
    var n := |p| % 0x1_0000;
    assert (ClientEncoded(p) + rest)[..2] == [(n / 0x100) as byte, (n % 0x100) as byte];
  }

  /** The client's frame is the payload's length alone, as two bytes, and then the payload. */
  lemma ClientEncodedIs(p: Payload)
    ensures |ClientEncoded(p)| == |p| + 2
    ensures BigEndian(ClientEncoded(p)[..2]) == |p| % 0x1_0000 && ClientEncoded(p)[2..] == p
  {
    TwoBytes(ClientEncoded(p)[..2]);
  }

  lemma ClientDecodesIff(valid: Payload -> bool, b: seq<byte>)
    ensures
      if |b| < 2 || |b| - 2 < BigEndian(b[..2]) then ClientDecode(valid, b) == (Incomplete, b)
      else
        var n := BigEndian(b[..2]);
        ClientDecode(valid, b) == (if valid(b[2..n + 2]) then Frame(b[2..n + 2]) else Malformed, b[n + 2..])
  {
    if |b| >= 2 {
      TwoBytes(b[..2]);
    }
  }

  /** A payload survives exactly if its length fits into two bytes. */
  lemma ClientRoundTripIff(valid: Payload -> bool, p: Payload)
    requires valid(p)
    ensures ClientDecode(valid, ClientEncoded(p)) == (Frame(p), []) <==> |p| < 0x1_0000
  {
    ClientSplit(p, []);
    assert ClientEncoded(p) + [] == ClientEncoded(p) && p + [] == p;
    var src := ClientEncoded(p);
    assert |p| < 0x1_0000 ==> src[2..|p| + 2] == p;
  }

  /** A frame that does not parse is skipped here, where `ServerCodec` stays with it for good. */
  lemma MalformedSkippedOrKept(valid: Payload -> bool, p: Payload, rest: seq<byte>)
    requires !valid(p) && |p| < 0x1_0000
    ensures ClientDecode(valid, ClientEncoded(p) + rest) == (Malformed, rest)
    ensures Drain(valid, Decoder(None, Encoded(p) + rest)) == ([], Decoder(Some(|p|), p + rest))
  {
    ClientSplit(p, rest);
    SizeEncoded(p, rest);
    assert (p + rest)[..|p|] == p && (p + rest)[|p|..] == rest;
    var src := ClientEncoded(p) + rest;
    assert src[2..|p| + 2] == p && src[|p| + 2..] == rest;
  }
}
