/** From the batches a miner writes to the batches consumeBatches hands on, through the scanner and its window. */
module Wire {
  import opened Delimiter
  import opened Scanner
  import opened Stream
  import opened RelayProofs
  import opened ChunkIndependence

  /** A streaming answer that carries `batches` on the wire, cut into reads in any way. */
  ghost predicate Carries(resp: Response, batches: seq<bytes>, closed: bool) {
    && resp.streaming && resp.body.ending == EndOfStream
    && !Stalls(resp.body.chunks, 0)
    && Flat(resp.body.chunks) == Encode(STREAM_DELIMITER, batches, closed)
  }

  /** The condition of the framing round trip. */
  ghost predicate Framable(batches: seq<bytes>, closed: bool) {
    && (forall b :: b in batches ==> !Contains(STREAM_DELIMITER, b))
    && (forall i :: 0 <= i < |batches| && (closed || i < |batches| - 1) ==> !Ambiguous(batches[i]))
  }

  /** The window holds every terminated batch with its delimiter, and the unterminated one up to the borderline. */
  ghost predicate Room(batches: seq<bytes>, closed: bool, joint: bool) {
    && (forall i :: 0 <= i < |batches| && (closed || i < |batches| - 1) ==>
          |batches[i]| + 15 <= 262144)
    && (!closed && batches != [] ==>
          |batches[|batches| - 1]| < 262144 || (|batches[|batches| - 1]| == 262144 && joint))
  }

  lemma RoomIsFitting(batches: seq<bytes>, closed: bool, joint: bool)
    requires batches != []
    ensures var ts := Tokens(batches, closed);
            Room(batches, closed, joint) <==> Fitting(STREAM_DELIMITER, MAX_BATCH_BYTES, ts, joint) == |ts|
  {
    var ts := Tokens(batches, closed);
    var k := Fitting(STREAM_DELIMITER, MAX_BATCH_BYTES, ts, joint);
    assert |STREAM_DELIMITER| == 15 && MAX_BATCH_BYTES == 262144;
    assert forall i :: 0 <= i < |ts| - 1 ==> ts[i] == batches[i];
    if k == |ts| {
      forall i | 0 <= i < |batches| && (closed || i < |batches| - 1)
        ensures |batches[i]| + 15 <= 262144
      {
        assert ts[i] == batches[i];
      }
    }
  }

  /** What splitting the wire bytes gives when nothing is lost. */
  lemma SplitOfFramable(batches: seq<bytes>, closed: bool)
    requires batches != [] && Framable(batches, closed)
    ensures Split(STREAM_DELIMITER, Encode(STREAM_DELIMITER, batches, closed)) == Tokens(batches, closed)
  {
    FramedBatches(batches, closed);
    SplitOfJoin(STREAM_DELIMITER, Tokens(batches, closed));
  }

  /** The round trip through the consumer and exactly when it holds: every batch comes back, and the stream ends well,
      iff the framing loses nothing and the window has room. */
  lemma WireRoundTrip(resp: Response, batches: seq<bytes>, closed: bool)
    requires Carries(resp, batches, closed) && forall b :: b in batches ==> b != []
    ensures EndsWell(resp) && BatchesOf(resp) == batches <==>
            Framable(batches, closed) && Room(batches, closed, resp.body.joint)
  {
    CarriedReading(resp, batches, closed);
    var ts := Split(STREAM_DELIMITER, Encode(STREAM_DELIMITER, batches, closed));
    var fits := Fitting(STREAM_DELIMITER, MAX_BATCH_BYTES, ts, resp.body.joint) == |ts|;
    assert NonEmpty(ts) == batches <==> Framable(batches, closed) by {
      FramingRoundTrip(batches, closed);
    }
    assert Framable(batches, closed) ==> (fits <==> Room(batches, closed, resp.body.joint)) by {
      if batches == [] {
        EmptyBody();
      } else if Framable(batches, closed) {
        SplitOfFramable(batches, closed);
        RoomIsFitting(batches, closed, resp.body.joint);
      }
    }
  }

  /** A carried body is read as its split: well exactly when every token fits, and then without its empty tokens. */
  lemma CarriedReading(resp: Response, batches: seq<bytes>, closed: bool)
    requires Carries(resp, batches, closed)
    ensures var ts := Split(STREAM_DELIMITER, Encode(STREAM_DELIMITER, batches, closed));
            && (EndsWell(resp) <==> Fitting(STREAM_DELIMITER, MAX_BATCH_BYTES, ts, resp.body.joint) == |ts|)
            && (EndsWell(resp) ==> BatchesOf(resp) == NonEmpty(ts))
  {
    YieldIsFlat(resp.body.chunks, 0);
    CompleteBatchesAreTheSplit(resp.body);
  }

  lemma EmptyBody()
    ensures Split(STREAM_DELIMITER, []) == [[]] && NonEmpty([[]]) == []
  {
    assert Index(STREAM_DELIMITER, []) == -1;
  }

  /** The window is a condition of its own: a batch the framing carries and the consumer refuses. */
  lemma WindowMatters(b: bytes, resp: Response)
    requires |b| > 262144 && forall i :: 0 <= i < |b| ==> b[i] == 0
    requires Carries(resp, [b], false)
    ensures Recovered([b], false) && !(EndsWell(resp) && BatchesOf(resp) == [b])
  {
    forall i
      ensures !At(STREAM_DELIMITER, b, i)
    {
      if 0 <= i && i + 15 <= |b| {
        assert b[i..i + 15][0] == 0 && STREAM_DELIMITER[0] == 124;
      }
    }
    FramingRoundTrip([b], false);
    WireRoundTrip(resp, [b], false);
  }
}
