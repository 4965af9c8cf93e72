/** parseGRPCTrailers: the header-shaped block a gRPC-Web body ends with. */
module GrpcTrailers {
  import opened Delimiter
  import opened Domain
  import GrpcWeb

  const CRLF: bytes := [13, 10]
  const COLON: byte := 58

  /** strings.ToLower of strings.TrimSpace, and strings.TrimSpace. */
  datatype Norms = Norms(key: bytes -> bytes, value: bytes -> bytes)

  function IndexByte(line: bytes, c: byte): (i: int)
    ensures -1 <= i < |line|
    ensures i >= 0 ==> line[i] == c && c !in line[..i]
    ensures i == -1 ==> c !in line
  {
    if line == [] then -1
    else if line[0] == c then 0
    else
      var j := IndexByte(line[1..], c);
      if j == -1 then -1 else assert line[..j + 1] == [line[0]] + line[1..][..j]; j + 1
  }

  /** strings.Cut at the first colon; a line without one is skipped. */
  function Field(n: Norms, line: bytes): (f: Option<(bytes, bytes)>) {
    var i := IndexByte(line, COLON);
    if i == -1 then None else Some((n.key(line[..i]), n.value(line[i + 1..])))
  }

  /** Later lines overwrite earlier ones. */
  function Fields(n: Norms, lines: seq<bytes>): (m: map<bytes, bytes>) {
    if lines == [] then map[]
    else
      var last := |lines| - 1;
      var m := Fields(n, lines[..last]);
      match Field(n, lines[last])
      case None => m
      case Some((k, v)) => m[k := v]
  }

  method ParseTrailers(n: Norms, payload: bytes) returns (out: map<bytes, bytes>)
    ensures out == Fields(n, Split(CRLF, payload))
  {
    out := map[];
    var lines := Split(CRLF, payload);
    for i := 0 to |lines|
      invariant out == Fields(n, lines[..i])
    {
      assert lines[..i + 1][..i] == lines[..i];
      match Field(n, lines[i]) {
        case None =>
        case Some((k, v)) => out := out[k := v];
      }
    }
    assert lines[..|lines|] == lines;
  }

  predicate Carries(n: Norms, line: bytes, k: bytes) {
    Field(n, line).Some? && Field(n, line).value.0 == k
  }

  /** The last line that carries a key, or -1. */
  function LastWith(n: Norms, lines: seq<bytes>, k: bytes): (i: int)
    ensures -1 <= i < |lines|
    ensures i >= 0 ==> Carries(n, lines[i], k)
    ensures forall j :: i < j < |lines| ==> !Carries(n, lines[j], k)
  {
    if lines == [] then -1
    else
      var last := |lines| - 1;
      if Carries(n, lines[last], k) then last
      else
        var i := LastWith(n, lines[..last], k);
        assert forall j :: 0 <= j < last ==> lines[..last][j] == lines[j];
        i
  }

  /** A key is present iff some line carries it, with the value of the last such line. */
  lemma {:induction false} LastLineWins(n: Norms, lines: seq<bytes>, k: bytes)
    ensures var i := LastWith(n, lines, k);
            if i == -1 then k !in Fields(n, lines)
            else k in Fields(n, lines) && Field(n, lines[i]) == Some((k, Fields(n, lines)[k]))
  {
    if lines != [] {
      LastLineWins(n, lines[..|lines| - 1], k);
    }
  }

  // ---- a well-formed block parses back ----

  function Line(k: bytes, v: bytes): (line: bytes) {
    k + [58, 32] + v
  }

  /** "key: value" lines, each ended by a carriage return and a line feed. */
  function Block(lines: seq<bytes>): (b: bytes) {
    Join([13, 10], lines + [[]])
  }

  lemma CrlfHasNoBorder(k: int)
    ensures !Border(CRLF, k)
  {
    if k == 1 {
      assert CRLF[..1][0] != CRLF[1..][0];
    }
  }

  lemma BlockSplits(lines: seq<bytes>)
    requires forall line :: line in lines ==> !Contains(CRLF, line)
    ensures Split(CRLF, Block(lines)) == lines + [[]]
  {
    var ts := lines + [[]];
    forall i | 0 <= i < |ts| - 1
      ensures Terminates(CRLF, ts[i])
    {
      assert ts[i] in lines;
      TerminatesIff(CRLF, ts[i]);
      forall k
        ensures !Border(CRLF, k)
      {
        CrlfHasNoBorder(k);
      }
    }
    SplitOfJoin(CRLF, ts);
  }

  lemma FieldOfLine(n: Norms, k: bytes, v: bytes)
    requires COLON !in k && n.key(k) == k && n.value([32] + v) == v
    ensures Field(n, Line(k, v)) == Some((k, v))
  {
    var line := Line(k, v);
    var i := IndexByte(line, COLON);
    assert line[|k|] == COLON;
    assert i >= |k| by {
      assert forall j :: 0 <= j < |k| ==> line[j] == k[j] && k[j] in k;
    }
    assert i == |k|;
    assert line[..i] == k && line[i + 1..] == [32] + v;
  }

  /** A pair a "key: value" line can carry: already normalised, without a colon in the key or a line break. */
  ghost predicate Plain(n: Norms, k: bytes, v: bytes) {
    58 !in k && n.key(k) == k && n.value([32] + v) == v && !Contains([13, 10], Line(k, v))
  }

  /** The lines of a map, in any order and with any repetition, come back as exactly that map. */
  lemma TrailersRoundTrip(n: Norms, m: map<bytes, bytes>, keys: seq<bytes>, lines: seq<bytes>)
    requires |lines| == |keys| && forall k :: k in m <==> k in keys
    requires forall i :: 0 <= i < |keys| ==> keys[i] in m && lines[i] == Line(keys[i], m[keys[i]])
    requires forall k :: k in m ==> Plain(n, k, m[k])
    ensures Fields(n, Split(CRLF, Block(lines))) == m
  {
    forall line | line in lines
      ensures !Contains(CRLF, line)
    {
      var i :| 0 <= i < |lines| && lines[i] == line;
      assert keys[i] in m;
    }
    BlockSplits(lines);
    var all := lines + [[]];
    forall i | 0 <= i < |all|
      ensures Field(n, all[i]) == if i < |keys| then Some((keys[i], m[keys[i]])) else None
    {
      if i < |keys| { FieldOfLine(n, keys[i], m[keys[i]]); }
    }
    forall k
      ensures k in Fields(n, all) <==> k in m
      ensures k in m ==> k in Fields(n, all) && Fields(n, all)[k] == m[k]
    {
      KeyComesBack(n, m, keys, all, k);
    }
  }

  lemma KeyComesBack(n: Norms, m: map<bytes, bytes>, keys: seq<bytes>, all: seq<bytes>, k: bytes)
    requires |all| == |keys| + 1 && forall k :: k in m <==> k in keys
    requires forall i :: 0 <= i < |keys| ==> keys[i] in m && Field(n, all[i]) == Some((keys[i], m[keys[i]]))
    requires Field(n, all[|keys|]) == None
    ensures k in Fields(n, all) <==> k in m
    ensures k in m ==> k in Fields(n, all) && Fields(n, all)[k] == m[k]
  {
    LastLineWins(n, all, k);
    if k in m {
      var i :| 0 <= i < |keys| && keys[i] == k;
      assert Carries(n, all[i], k);
    }
  }

  // ---- a whole reply ----

  /** The parser decodeGRPCWebResponse applies to a trailer frame. */
  function Parser(n: Norms): GrpcWeb.Parser {
    payload => Fields(n, Split(CRLF, payload))
  }

  /** A reply, end to end: frames ended by a trailer frame that holds the lines of a map decode to the first message
      among them and to exactly that map. */
  lemma ReplyRoundTrip(n: Norms, front: seq<GrpcWeb.Piece>, flag: byte, m: map<bytes, bytes>,
                       keys: seq<bytes>, lines: seq<bytes>)
    requires |lines| == |keys| && forall k :: k in m <==> k in keys
    requires forall i :: 0 <= i < |keys| ==> keys[i] in m && lines[i] == Line(keys[i], m[keys[i]])
    requires forall k :: k in m ==> Plain(n, k, m[k])
    requires GrpcWeb.Short(front) && GrpcWeb.IsTrailer(flag) && |Block(lines)| < GrpcWeb.MAX_UINT32
    ensures var ps := front + [GrpcWeb.Piece(flag, Block(lines))];
            && GrpcWeb.Parse(GrpcWeb.EncodeAll(ps)) == Some(ps)
            && GrpcWeb.Meaning(Parser(n), ps) == GrpcWeb.Decoded(GrpcWeb.FirstMessage(front), Some(m))
  {
    var last := GrpcWeb.Piece(flag, Block(lines));
    var ps := front + [last];
    assert GrpcWeb.Short(ps);
    GrpcWeb.ParseOfEncode(ps);
    GrpcWeb.MeaningAppend(Parser(n), front, last);
    TrailersRoundTrip(n, m, keys, lines);
  }
}
