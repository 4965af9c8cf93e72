/** gRPC-Web framing: the encoder, the decoder and the trailer block. */
module GrpcWeb {
  import opened Delimiter
  import opened Domain

  const HEADER: nat := 5
  const MAX_UINT32: int := 0x1_0000_0000

  datatype Piece = Piece(flag: byte, payload: bytes)

  /** A decoded body: the first message, and the last trailer block parsed. */
  datatype Decoded = Decoded(message: Option<bytes>, trailers: Option<map<bytes, bytes>>)

  type Parser = bytes -> map<bytes, bytes>

  predicate IsTrailer(flag: byte) {
    flag >= 0x80
  }

  /** The top bit marks a trailer frame. */
  lemma TrailerBit(flag: byte)
    ensures IsTrailer(flag) <==> (flag as bv8) & 0x80 != 0
  {
    BitAndOrder(flag as bv8);
    assert (flag as bv8) as int == flag;
  }

  lemma BitAndOrder(b: bv8)
    ensures b & 0x80 != 0 <==> b >= 0x80
  {
  }

  // ---- the length prefix ----

  /** binary.BigEndian.PutUint32 of a value already cut to 32 bits. */
  function PutUint32(n: int): (b: bytes)
    requires 0 <= n < MAX_UINT32
    ensures |b| == 4 && Uint32(b) == n
  {
    var n1 := n / 0x100;
    var n2 := n1 / 0x100;
    [n2 / 0x100, n2 % 0x100, n1 % 0x100, n % 0x100]
  }

  function Uint32(b: bytes): (n: int)
    requires |b| == 4
    ensures 0 <= n < MAX_UINT32
  {
    var b0: int, b1: int, b2: int, b3: int := b[0], b[1], b[2], b[3];
    0x100 * (0x100 * (0x100 * b0 + b1) + b2) + b3
  }

  /** The most significant byte comes first. */
  lemma BigEndian(b: bytes)
    requires |b| == 4
    ensures var b0: int, b1: int, b2: int, b3: int := b[0], b[1], b[2], b[3];
            Uint32(b) == 16777216 * b0 + 65536 * b1 + 256 * b2 + b3
  {
  }

  lemma Uint32Injective(a: bytes, b: bytes)
    requires |a| == 4 && |b| == 4 && Uint32(a) == Uint32(b)
    ensures a == b
  {
    assert a[0] == b[0] && a[1] == b[1] && a[2] == b[2] && a[3] == b[3];
  }

  lemma PutOfUint32(b: bytes)
    requires |b| == 4
    ensures PutUint32(Uint32(b) % MAX_UINT32) == b
  {
    var n := Uint32(b);
    assert n % MAX_UINT32 == n;
    Uint32Injective(PutUint32(n), b);
  }

  /** encodeGRPCFrame: uint32(len(msg)) drops the high bits of a longer message's length. */
  method EncodeFrame(flag: byte, msg: bytes) returns (out: bytes)
    ensures out == Encode(Piece(flag, msg))
  {
    out := [flag] + PutUint32(|msg| % MAX_UINT32);
    out := out + msg;
  }

  function Encode(p: Piece): (b: bytes)
    ensures |b| == HEADER + |p.payload|
  {
    [p.flag] + PutUint32(|p.payload| % MAX_UINT32) + p.payload
  }

  function EncodeAll(ps: seq<Piece>): (b: bytes) {
    if ps == [] then [] else Encode(ps[0]) + EncodeAll(ps[1..])
  }

  // ---- the decoder ----

  /** Whether a whole frame starts at `off`, and how long its payload is. */
  predicate WholeAt(body: bytes, off: nat) {
    off + HEADER <= |body| && off + HEADER + SizeAt(body, off) <= |body|
  }

  function SizeAt(body: bytes, off: nat): (n: nat)
    requires off + HEADER <= |body|
  {
    Uint32(body[off + 1..off + HEADER])
  }

  /** The frames of a body, or None when it is not a concatenation of whole frames. */
  function Parse(body: bytes): (r: Option<seq<Piece>>)
    decreases |body|
  {
    if body == [] then Some([])
    else if !WholeAt(body, 0) then None
    else
      var n := HEADER + SizeAt(body, 0);
      match Parse(body[n..])
      case None => None
      case Some(rest) => Some([Piece(body[0], body[HEADER..n])] + rest)
  }

  function FirstMessage(ps: seq<Piece>): (m: Option<bytes>) {
    if ps == [] then None
    else if !IsTrailer(ps[0].flag) then Some(ps[0].payload)
    else FirstMessage(ps[1..])
  }

  function LastTrailers(ps: seq<Piece>): (t: Option<bytes>) {
    if ps == [] then None
    else
      var later := LastTrailers(ps[1..]);
      if later.Some? then later else if IsTrailer(ps[0].flag) then Some(ps[0].payload) else None
  }

  function Meaning(parse: Parser, ps: seq<Piece>): (d: Decoded) {
    Decoded(FirstMessage(ps), match LastTrailers(ps) case None => None case Some(t) => Some(parse(t)))
  }

  /** Frames already read, put in front of what the rest parses to. */
  function Glue(seen: seq<Piece>, rest: Option<seq<Piece>>): (r: Option<seq<Piece>>) {
    match rest
    case None => None
    case Some(ps) => Some(seen + ps)
  }

  lemma GlueGlue(a: seq<Piece>, b: seq<Piece>, r: Option<seq<Piece>>)
    ensures Glue(a, Glue(b, r)) == Glue(a + b, r)
  {
    if r.Some? {
      assert a + (b + r.value) == (a + b) + r.value;
    }
  }

  /** One turn of the decoding loop, seen from the reference parse. */
  lemma LoopStep(body: bytes, off: nat, seen: seq<Piece>)
    requires off < |body|
    ensures if !WholeAt(body, off) then Parse(body[off..]) == None
            else
              var start := off + HEADER;
              var end := start + SizeAt(body, off);
              Glue(seen, Parse(body[off..])) == Glue(seen + [Piece(body[off], body[start..end])], Parse(body[end..]))
  {
    var rest := body[off..];
    if off + HEADER <= |body| {
      assert body[off + 1..off + HEADER] == rest[1..HEADER];
      if WholeAt(body, off) {
        var n := HEADER + SizeAt(body, off);
        assert body[off + HEADER..off + n] == rest[HEADER..n] && body[off + n..] == rest[n..];
        var p, tail := Piece(rest[0], rest[HEADER..n]), Parse(rest[n..]);
        assert Parse(rest) == Glue([p], tail);
        GlueGlue(seen, [p], tail);
      }
    }
  }

  /** The bounds checks of one turn: the frame at `off`, or None when its header or its payload is cut off. */
  method FrameAt(body: bytes, off: nat, ghost seen: seq<Piece>) returns (frame: Option<Piece>)
    requires off < |body|
    ensures frame.None? ==> Parse(body[off..]) == None
    ensures frame.Some? ==>
      var end := off + HEADER + |frame.value.payload|;
      end <= |body| && Glue(seen, Parse(body[off..])) == Glue(seen + [frame.value], Parse(body[end..]))
  {
    LoopStep(body, off, seen);
    if off + HEADER > |body| {
      return None;
    }
    var size, start := SizeAt(body, off), off + HEADER;
    if start + size > |body| {
      return None;
    }
    return Some(Piece(body[off], body[start..start + size]));
  }

  method DecodeResponse(body: bytes, parse: Parser) returns (r: Option<Decoded>)
    ensures r == match Parse(body) case None => None case Some(ps) => Some(Meaning(parse, ps))
  {
    var message: Option<bytes>, trailers: Option<map<bytes, bytes>> := None, None;
    ghost var seen: seq<Piece> := [];
    var off := 0;
    assert body[0..] == body && (Parse(body).Some? ==> [] + Parse(body).value == Parse(body).value);
    while off < |body|
      invariant 0 <= off <= |body|
      invariant Decoded(message, trailers) == Meaning(parse, seen)
      invariant Parse(body) == Glue(seen, Parse(body[off..]))
    {
      var frame := FrameAt(body, off, seen);
      if frame.None? {
        return None;
      }
      var (flag, payload) := (frame.value.flag, frame.value.payload);
      MeaningStep(parse, seen, frame.value);
      if IsTrailer(flag) {
        trailers := Some(parse(payload));
      } else if message.None? {
        message := Some(payload);
      }
      seen := seen + [frame.value];
      off := off + HEADER + |payload|;
    }
    assert body[off..] == [] && seen + [] == seen;
    return Some(Decoded(message, trailers));
  }

  /** One more frame: a trailer block replaces the last one, a message counts only when there is none yet. */
  lemma MeaningStep(parse: Parser, ps: seq<Piece>, p: Piece)
    ensures var d := Meaning(parse, ps);
            Meaning(parse, ps + [p]) ==
            if IsTrailer(p.flag) then d.(trailers := Some(parse(p.payload)))
            else if d.message.None? then d.(message := Some(p.payload)) else d
  {
    MeaningAppend(parse, ps, p);
  }

  lemma {:induction false} MeaningAppend(parse: Parser, ps: seq<Piece>, p: Piece)
    ensures FirstMessage(ps + [p]) ==
            if FirstMessage(ps).Some? then FirstMessage(ps) else if IsTrailer(p.flag) then None else Some(p.payload)
    ensures LastTrailers(ps + [p]) == if IsTrailer(p.flag) then Some(p.payload) else LastTrailers(ps)
  {
    if ps == [] {
      assert ps + [p] == [p];
      assert LastTrailers([]) == None;
    } else {
      assert (ps + [p])[0] == ps[0] && (ps + [p])[1..] == ps[1..] + [p];
      MeaningAppend(parse, ps[1..], p);
    }
  }

  // ---- round trips ----

  ghost predicate Short(ps: seq<Piece>) {
    forall i :: 0 <= i < |ps| ==> |ps[i].payload| < MAX_UINT32
  }

  /** The frame at the front of a body that starts with an encoded piece. */
  lemma FrontFrame(p: Piece, rest: bytes)
    ensures var body := Encode(p) + rest;
            && body[0] == p.flag && SizeAt(body, 0) == |p.payload| % MAX_UINT32 && WholeAt(body, 0)
            && body[HEADER..HEADER + SizeAt(body, 0)] == p.payload[..|p.payload| % MAX_UINT32]
            && body[HEADER + SizeAt(body, 0)..] == p.payload[|p.payload| % MAX_UINT32..] + rest
  {
    var body := Encode(p) + rest;
    assert body[1..HEADER] == PutUint32(|p.payload| % MAX_UINT32);
    assert body[HEADER..] == p.payload + rest;
    var n := |p.payload| % MAX_UINT32;
    assert n <= |p.payload|;
    assert body[HEADER..HEADER + n] == (p.payload + rest)[..n];
    assert body[HEADER + n..] == (p.payload + rest)[n..];
  }

  lemma ParseFront(p: Piece, rest: bytes)
    requires |p.payload| < MAX_UINT32
    ensures Parse(Encode(p) + rest) == Glue([p], Parse(rest))
  {
    FrontFrame(p, rest);
    assert |p.payload| % MAX_UINT32 == |p.payload|;
    assert p.payload[..|p.payload|] == p.payload && p.payload[|p.payload|..] + rest == rest;
  }

  /** Decoding undoes encoding, for any list of frames whose lengths fit the prefix. */
  lemma {:induction false} ParseOfEncode(ps: seq<Piece>)
    requires Short(ps)
    ensures Parse(EncodeAll(ps)) == Some(ps)
  {
    if ps != [] {
      ParseOfEncode(ps[1..]);
      ParseFront(ps[0], EncodeAll(ps[1..]));
      assert [ps[0]] + ps[1..] == ps;
    }
  }

  /** A whole frame read off the front of a body encodes back to the bytes it was read from. */
  lemma FrameBytes(body: bytes)
    requires WholeAt(body, 0)
    ensures var n := HEADER + SizeAt(body, 0);
            |body[HEADER..n]| < MAX_UINT32 && Encode(Piece(body[0], body[HEADER..n])) == body[..n]
  {
    var n := HEADER + SizeAt(body, 0);
    var flag, size, payload := [body[0]], body[1..HEADER], body[HEADER..n];
    PutOfUint32(size);
    assert body[..n] == flag + size + payload;
  }

  /** And encoding undoes decoding, so a body parses exactly when it is a concatenation of whole frames. */
  lemma {:induction false} EncodeOfParse(body: bytes)
    ensures Parse(body).Some? ==> Short(Parse(body).value) && EncodeAll(Parse(body).value) == body
    decreases |body|
  {
    if body != [] && WholeAt(body, 0) {
      var n := HEADER + SizeAt(body, 0);
      EncodeOfParse(body[n..]);
      FrameBytes(body);
      if Parse(body[n..]).Some? {
        var p, rest := Piece(body[0], body[HEADER..n]), Parse(body[n..]).value;
        assert Parse(body).value == [p] + rest && ([p] + rest)[1..] == rest;
        assert EncodeAll([p] + rest) == body[..n] + body[n..];
        assert body == body[..n] + body[n..];
      }
    }
  }

  lemma ParsesIffWholeFrames(body: bytes)
    ensures Parse(body).Some? <==> exists ps :: Short(ps) && EncodeAll(ps) == body
  {
    EncodeOfParse(body);
    if ps :| Short(ps) && EncodeAll(ps) == body {
      ParseOfEncode(ps);
    }
  }

  /** A body cut anywhere inside a frame is rejected. */
  lemma CutIsRejected(ps: seq<Piece>, p: Piece, cut: nat)
    requires Short(ps) && |p.payload| < MAX_UINT32 && 0 < cut < |Encode(p)|
    ensures Parse(EncodeAll(ps) + Encode(p)[..cut]) == None
  {
    CutTail(p, cut);
    AfterFrames(ps, Encode(p)[..cut]);
  }

  lemma CutTail(p: Piece, cut: nat)
    requires |p.payload| < MAX_UINT32 && 0 < cut < |Encode(p)|
    ensures Parse(Encode(p)[..cut]) == None
  {
    var part := Encode(p)[..cut];
    if HEADER <= cut {
      assert Encode(p) + [] == Encode(p);
      FrontFrame(p, []);
      assert part[1..HEADER] == Encode(p)[1..HEADER];
    }
  }

  lemma {:induction false} AfterOne(front: bytes, more: bytes, rest: bytes, ps: seq<Piece>)
    requires ps != [] && Parse(more + rest) == Glue(ps[1..], Parse(rest))
    requires Parse(front + (more + rest)) == Glue([ps[0]], Parse(more + rest))
    ensures Parse(front + more + rest) == Glue(ps, Parse(rest))
  {
    assert front + more + rest == front + (more + rest);
    GlueGlue([ps[0]], ps[1..], Parse(rest));
    assert [ps[0]] + ps[1..] == ps;
  }

  lemma {:induction false} AfterFrames(ps: seq<Piece>, rest: bytes)
    requires Short(ps)
    ensures Parse(EncodeAll(ps) + rest) == Glue(ps, Parse(rest))
  {
    if ps == [] {
      assert [] + rest == rest;
      if Parse(rest).Some? { assert ps + Parse(rest).value == Parse(rest).value; }
    } else {
      AfterFrames(ps[1..], rest);
      ParseFront(ps[0], EncodeAll(ps[1..]) + rest);
      AfterOne(Encode(ps[0]), EncodeAll(ps[1..]), rest, ps);
    }
  }

  /** A single frame survives the wire iff its length fits in 32 bits. */
  lemma FrameRoundTrip(p: Piece)
    ensures Parse(Encode(p)) == Some([p]) <==> |p.payload| < MAX_UINT32
  {
    assert Encode(p) + [] == Encode(p);
    if |p.payload| < MAX_UINT32 {
      ParseOfEncode([p]);
      assert EncodeAll([p]) == Encode(p) + EncodeAll([]);
    } else {
      FrontFrame(p, []);
      EncodeOfParse(Encode(p));
    }
  }

  /** `m` is the payload of the first data frame. */
  ghost predicate IsFirst(ps: seq<Piece>, m: Option<bytes>) {
    if m.None? then forall i :: 0 <= i < |ps| ==> IsTrailer(ps[i].flag)
    else exists i :: 0 <= i < |ps| && !IsTrailer(ps[i].flag) && m.value == ps[i].payload
                     && forall j :: 0 <= j < i ==> IsTrailer(ps[j].flag)
  }

  /** `t` is the payload of the last trailer frame. */
  ghost predicate IsLast(ps: seq<Piece>, t: Option<bytes>) {
    if t.None? then forall i :: 0 <= i < |ps| ==> !IsTrailer(ps[i].flag)
    else exists i :: 0 <= i < |ps| && IsTrailer(ps[i].flag) && t.value == ps[i].payload
                     && forall j :: i < j < |ps| ==> !IsTrailer(ps[j].flag)
  }

  /** For every list of frames: the first data frame's payload and the last trailer frame's parse. */
  lemma DecodesFirstAndLast(parse: Parser, ps: seq<Piece>)
    requires Short(ps)
    ensures Parse(EncodeAll(ps)) == Some(ps)
    ensures IsFirst(ps, Meaning(parse, ps).message)
    ensures exists t :: IsLast(ps, t) && (t.Some? <==> Meaning(parse, ps).trailers.Some?)
                        && (t.Some? ==> Meaning(parse, ps).trailers.value == parse(t.value))
  {
    ParseOfEncode(ps);
    FirstIsFirst(ps);
    LastIsLast(ps);
  }

  lemma {:induction false} FirstIsFirst(ps: seq<Piece>)
    ensures IsFirst(ps, FirstMessage(ps))
  {
    if ps != [] && IsTrailer(ps[0].flag) {
      var qs := ps[1..];
      FirstIsFirst(qs);
      if FirstMessage(qs).None? {
        assert forall i :: 1 <= i < |ps| ==> ps[i] == qs[i - 1];
      } else {
        var i :| 0 <= i < |qs| && !IsTrailer(qs[i].flag) && FirstMessage(qs).value == qs[i].payload
                 && forall j :: 0 <= j < i ==> IsTrailer(qs[j].flag);
        assert ps[i + 1] == qs[i] && forall j :: 1 <= j < i + 1 ==> ps[j] == qs[j - 1];
      }
    }
  }

  lemma {:induction false} LastIsLast(ps: seq<Piece>)
    ensures IsLast(ps, LastTrailers(ps))
  {
    if ps != [] {
      var qs := ps[1..];
      LastIsLast(qs);
      assert forall i :: 1 <= i < |ps| ==> ps[i] == qs[i - 1];
      if LastTrailers(qs).Some? {
        var i :| 0 <= i < |qs| && IsTrailer(qs[i].flag) && LastTrailers(qs).value == qs[i].payload
                 && forall j :: i < j < |qs| ==> !IsTrailer(qs[j].flag);
        assert ps[i + 1] == qs[i];
      }
    }
  }
}
