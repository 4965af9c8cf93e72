/** How a body is cut into reads does not change its batches, with one exact exception. */
module ChunkIndependence {
  import opened Delimiter
  import opened Scanner
  import opened Stream
  import opened RelayProofs

  /** An unterminated token needs room for one more read to learn that the stream is over. */
  predicate TailFits(window: nat, tail: bytes, joint: bool) {
    |tail| < window || (|tail| == window && joint)
  }

  /** How many leading tokens of a split fit the scanner's window. */
  function Fitting(d: bytes, window: nat, ts: seq<bytes>, joint: bool): (k: nat)
    requires |ts| > 0
    ensures k <= |ts|
    ensures forall i :: 0 <= i < k && i < |ts| - 1 ==> |ts[i]| + |d| <= window
    ensures k < |ts| - 1 ==> |ts[k]| + |d| > window
    ensures k == |ts| - 1 ==> !TailFits(window, ts[k], joint)
    ensures k == |ts| ==> TailFits(window, ts[k - 1], joint)
  {
    if |ts| == 1 then (if TailFits(window, ts[0], joint) then 1 else 0)
    else if |ts[0]| + |d| <= window then 1 + Fitting(d, window, ts[1..], joint)
    else 0
  }

  lemma {:induction false} PrependToken(ts: seq<bytes>, n: nat, t: Token, tokens: seq<Token>, clean: bool)
    requires |ts| > 0 && n <= |ts| - 1 && t == Token(ts[0], false)
    requires Batches(tokens, clean) == NonEmpty(ts[1..][..n])
    ensures Batches([t] + tokens, clean) == NonEmpty(ts[..n + 1])
  {
    BatchesStep([t] + tokens, clean);
    assert ([t] + tokens)[1..] == tokens;
    assert ts[..n + 1][0] == ts[0] && ts[..n + 1][1..] == ts[1..][..n];
  }

  /** A schedule returns exactly the tokens of a split that fit. */
  ghost predicate Agrees(p: Schedule, ts: seq<bytes>, k: nat) {
    && k <= |ts|
    && (p.overlong <==> k < |ts|)
    && Batches(p.tokens, true) == NonEmpty(ts[..k])
    && Batches(p.tokens, false) == NonEmpty(ts[..if p.overlong || k == 0 then k else k - 1])
  }

  lemma {:induction false} AgreesStep(p: Schedule, ts: seq<bytes>, k: nat)
    requires |ts| > 1 && Agrees(p, ts[1..], k)
    ensures Agrees(Schedule([Token(ts[0], false)] + p.tokens, p.overlong), ts, k + 1)
  {
    PrependToken(ts, k, Token(ts[0], false), p.tokens, true);
    PrependToken(ts, if p.overlong || k == 0 then k else k - 1, Token(ts[0], false), p.tokens, false);
  }

  lemma AgreesLast(data: bytes)
    ensures Agrees(Schedule(if data == [] then [] else [Token(data, true)], false), [data], 1)
    ensures Agrees(Schedule([], true), [data], 0)
  {
    assert [data][..1] == [data] && [data][..0] == [];
    assert NonEmpty([data]) == if data == [] then [] else [data];
    assert Batches([Token(data, true)], false) == [];
    assert Batches([Token(data, true)], true) == if data == [] then [] else [data];
  }

  lemma AgreesNone(ts: seq<bytes>)
    requires |ts| > 1
    ensures Agrees(Schedule([], true), ts, 0)
  {
    assert ts[..0] == [];
  }

  /** A terminated token that fits is the next of both. */
  lemma {:induction false} PlanStep(d: bytes, window: nat, data: bytes, joint: bool, ts: seq<bytes>)
    requires |d| > 0 && |ts| > 1 && 0 <= Index(d, data) <= window - |d| && ts[0] == data[..Index(d, data)]
    requires Agrees(Plan(d, window, data[Index(d, data) + |d|..], joint), ts[1..], Fitting(d, window, ts[1..], joint))
    ensures Agrees(Plan(d, window, data, joint), ts, Fitting(d, window, ts, joint))
  {
    AgreesStep(Plan(d, window, data[Index(d, data) + |d|..], joint), ts, Fitting(d, window, ts[1..], joint));
  }

  lemma {:induction false} PlanIsSplit(d: bytes, window: nat, data: bytes, joint: bool)
    requires |d| > 0
    ensures Agrees(Plan(d, window, data, joint), Split(d, data), Fitting(d, window, Split(d, data), joint))
    decreases |data|
  {
    var i, ts := Index(d, data), Split(d, data);
    if i == -1 {
      assert ts == [data];
      AgreesLast(data);
    } else {
      var rest := data[i + |d|..];
      assert ts[0] == data[..i] && ts[1..] == Split(d, rest);
      if i + |d| <= window {
        PlanIsSplit(d, window, rest, joint);
        PlanStep(d, window, data, joint, ts);
      } else {
        AgreesNone(ts);
      }
    }
  }

  /** The bytes a body delivers and how it ends decide everything but the borderline tail. */
  function DataOf(body: Reader): (b: bytes) {
    Yield(body.chunks, 0)
  }

  function EndOf(body: Reader): (e: ScanErr) {
    EndingOf(body.chunks, 0, body.ending)
  }

  predicate EndsWithBytes(body: Reader) {
    body.joint && !Stalls(body.chunks, 0)
  }

  function Fits(body: Reader): (k: nat) {
    Fitting(STREAM_DELIMITER, MAX_BATCH_BYTES, Split(STREAM_DELIMITER, DataOf(body)), EndsWithBytes(body))
  }

  /** The batches of any reader: the leftmost split with empty tokens dropped; the unterminated
      token only on a clean end; everything before the first over-long token otherwise. */
  lemma CompleteBatchesAreTheSplit(body: Reader)
    ensures var ts, k := Split(STREAM_DELIMITER, DataOf(body)), Fits(body);
            if k < |ts| then
              VerdictOf(body) == TooLong && CompleteBatches(body) == NonEmpty(ts[..k])
            else if EndOf(body) == CleanEnd then
              VerdictOf(body) == CleanEnd && CompleteBatches(body) == NonEmpty(ts)
            else
              VerdictOf(body) == EndOf(body) && CompleteBatches(body) == NonEmpty(ts[..|ts| - 1])
  {
    var ts := Split(STREAM_DELIMITER, DataOf(body));
    PlanIsSplit(STREAM_DELIMITER, MAX_BATCH_BYTES, DataOf(body), EndsWithBytes(body));
    assert ts[..|ts|] == ts;
  }

  /** A reader that never stalls delivers exactly the bytes of its chunks. */
  lemma {:induction false} YieldIsFlat(chunks: seq<bytes>, idle: nat)
    ensures !Stalls(chunks, idle) ==> Yield(chunks, idle) == Flat(chunks)
  {
    if chunks != [] {
      YieldIsFlat(chunks[1..], if chunks[0] == [] then idle + 1 else 0);
    }
  }

  // ---- readers that stall ----

  /** From read `i` on, more reads in a row return nothing than the scanner puts up with. */
  ghost predicate IdleAt(chunks: seq<bytes>, i: int) {
    0 <= i <= |chunks| - 101 && forall j :: i <= j < i + 101 ==> chunks[j] == []
  }

  ghost predicate Idles(chunks: seq<bytes>) {
    exists i :: IdleAt(chunks, i)
  }

  ghost predicate FirstIdle(chunks: seq<bytes>, i: int) {
    IdleAt(chunks, i) && forall j :: 0 <= j < i ==> !IdleAt(chunks, j)
  }

  /** The first `n` reads return nothing, and then, if they are not enough, comes one that does, or none. */
  lemma {:induction false} IdleFront(chunks: seq<bytes>, idle: nat) returns (n: nat)
    requires idle <= 100
    ensures n <= |chunks| && n <= 101 - idle && (forall j :: 0 <= j < n ==> chunks[j] == [])
    ensures n < 101 - idle ==> n == |chunks| || chunks[n] != []
    ensures n == 101 - idle ==> Stalls(chunks, idle) && Yield(chunks, idle) == []
    ensures n < 101 - idle ==> Yield(chunks, idle) == Yield(chunks[n..], 0)
    ensures n < 101 - idle ==> Stalls(chunks, idle) == Stalls(chunks[n..], 0)
    decreases |chunks|
  {
    n := 0;
    if chunks == [] || chunks[0] != [] {
      assert chunks[0..] == chunks;
    } else if idle == 100 {
      n := 1;
    } else {
      var m := IdleFront(chunks[1..], idle + 1);
      n := m + 1;
      assert chunks[n..] == chunks[1..][m..];
      assert forall j :: 1 <= j < n ==> chunks[j] == chunks[1..][j - 1];
    }
  }

  /** A reader stalls exactly when 101 reads in a row return nothing, and what it gave until then is what it read
      before the first such run. */
  lemma {:induction false} StallsIff(chunks: seq<bytes>)
    ensures Stalls(chunks, 0) <==> Idles(chunks)
    ensures forall i :: FirstIdle(chunks, i) ==> Yield(chunks, 0) == Flat(chunks[..i])
    decreases |chunks|
  {
    var n := IdleFront(chunks, 0);
    if n == 101 {
      assert IdleAt(chunks, 0);
      assert chunks[..0] == [];
    } else if n == |chunks| {
      assert chunks[n..] == [];
    } else {
      var back := chunks[n + 1..];
      StallsIff(back);
      BusyFront(chunks, n, back);
      assert chunks[n..][0] == chunks[n] && chunks[n..][1..] == back;
      forall i | FirstIdle(chunks, i)
        ensures Yield(chunks, 0) == Flat(chunks[..i])
      {
        BusyYield(chunks, n, back, i);
      }
    }
  }

  /** The first read with bytes is at `n`, after too few empty ones to stall. */
  ghost predicate BusyAt(chunks: seq<bytes>, n: nat) {
    n < |chunks| && n <= 100 && chunks[n] != [] && forall j :: 0 <= j < n ==> chunks[j] == []
  }

  /** Then every idle run lies behind it. */
  lemma BusyFront(chunks: seq<bytes>, n: nat, back: seq<bytes>)
    requires BusyAt(chunks, n) && back == chunks[n + 1..]
    ensures forall i :: IdleAt(chunks, i) <==> IdleAt(back, i - n - 1)
    ensures Idles(chunks) <==> Idles(back)
  {
    assert forall j :: 0 <= j < |back| ==> back[j] == chunks[n + 1 + j];
    assert forall j :: n < j < |chunks| ==> chunks[j] == back[j - n - 1];
    forall i
      ensures IdleAt(chunks, i) <==> IdleAt(back, i - n - 1)
    {
      if IdleAt(chunks, i) {
        assert i > n;
      }
    }
    if i :| IdleAt(back, i) {
      assert IdleAt(chunks, i + n + 1);
    }
  }

  lemma {:induction false} BusyYield(chunks: seq<bytes>, n: nat, back: seq<bytes>, i: int)
    requires BusyAt(chunks, n) && back == chunks[n + 1..] && FirstIdle(chunks, i)
    requires Yield(chunks, 0) == chunks[n] + Yield(back, 0)
    requires forall k :: FirstIdle(back, k) ==> Yield(back, 0) == Flat(back[..k])
    ensures Yield(chunks, 0) == Flat(chunks[..i])
  {
    BusyFront(chunks, n, back);
    var k := i - n - 1;
    forall j | 0 <= j < k
      ensures !IdleAt(back, j)
    {
      assert !IdleAt(chunks, j + n + 1);
      assert IdleAt(back, j + n + 1 - n - 1) <==> IdleAt(chunks, j + n + 1);
    }
    assert FirstIdle(back, k);
    FlatOfIdle(chunks[..n]);
    FlatOf(chunks, n, i);
  }

  lemma {:induction false} FlatOfIdle(chunks: seq<bytes>)
    requires forall j :: 0 <= j < |chunks| ==> chunks[j] == []
    ensures Flat(chunks) == []
  {
    if chunks != [] { FlatOfIdle(chunks[1..]); }
  }

  lemma FlatOf(chunks: seq<bytes>, n: nat, i: nat)
    requires n < i <= |chunks| && Flat(chunks[..n]) == []
    ensures Flat(chunks[..i]) == chunks[n] + Flat(chunks[n + 1..][..i - n - 1])
  {
    var front, back := chunks[..n], chunks[n..i];
    var mid, rest := [chunks[n]], chunks[n + 1..][..i - n - 1];
    assert chunks[..i] == front + back;
    assert |back| == |mid + rest| && back[0] == mid[0];
    assert forall k :: 1 <= k < |back| ==> back[k] == chunks[n + k] == rest[k - 1];
    assert back == mid + rest;
    FlatAppend(front, back);
    FlatAppend(mid, rest);
  }

  /** How a reader is seen to end: stalled, broken or clean, each exactly when it is. */
  lemma EndOfMeans(body: Reader)
    ensures EndOf(body) == NoProgress <==> Idles(body.chunks)
    ensures EndOf(body) == CleanEnd <==> body.ending == EndOfStream && !Idles(body.chunks)
    ensures forall c :: EndOf(body) == ReadFailed(c) <==> body.ending == Broke(c) && !Idles(body.chunks)
    ensures EndOf(body) != NoErr && EndOf(body) != TooLong
  {
    StallsIff(body.chunks);
  }

  /** Every terminated token fits, and the unterminated one fills the window to the byte. */
  predicate Borderline(data: bytes) {
    var ts := Split(STREAM_DELIMITER, data);
    && Fitting(STREAM_DELIMITER, MAX_BATCH_BYTES, ts, true) == |ts|
    && |ts[|ts| - 1]| == MAX_BATCH_BYTES
  }

  lemma {:induction false} FittingJoint(d: bytes, window: nat, ts: seq<bytes>)
    requires |ts| > 0
    ensures Fitting(d, window, ts, true) == Fitting(d, window, ts, false) ||
            (Fitting(d, window, ts, true) == |ts| && Fitting(d, window, ts, false) == |ts| - 1)
    ensures Fitting(d, window, ts, true) == Fitting(d, window, ts, false) <==>
            !(Fitting(d, window, ts, true) == |ts| && |ts[|ts| - 1]| == window)
  {
    if |ts| > 1 { FittingJoint(d, window, ts[1..]); }
  }

  /** A last token with bytes in it makes a batch of its own. */
  lemma LastCounts(ts: seq<bytes>)
    requires |ts| > 0
    ensures ts[|ts| - 1] != [] ==> NonEmpty(ts[..|ts| - 1]) != NonEmpty(ts)
  {
    var front, last := ts[..|ts| - 1], ts[|ts| - 1];
    assert front + [last] == ts;
    NonEmptyAppend(front, [last]);
    if last != [] {
      var kept := NonEmpty(front);
      assert NonEmpty([last]) == [last];
      assert |kept + [last]| == |kept| + 1;
    }
  }

  /** Two ways of reading the same bytes to the same end give the same batches, unless the stream ends
      cleanly on a borderline tail and only one of them reports the end with the last bytes. */
  lemma SameBytesSameBatches(a: Reader, b: Reader)
    requires DataOf(a) == DataOf(b) && EndOf(a) == EndOf(b)
    ensures CompleteBatches(a) == CompleteBatches(b) <==>
            !(Borderline(DataOf(a)) && EndOf(a) == CleanEnd && EndsWithBytes(a) != EndsWithBytes(b))
    ensures VerdictOf(a) == VerdictOf(b) <==>
            !(Borderline(DataOf(a)) && EndsWithBytes(a) != EndsWithBytes(b))
  {
    var ts := Split(STREAM_DELIMITER, DataOf(a));
    CompleteBatchesAreTheSplit(a);
    CompleteBatchesAreTheSplit(b);
    FittingJoint(STREAM_DELIMITER, MAX_BATCH_BYTES, ts);
    LastCounts(ts);
  }

  /** The exception is real: a window of zero bytes, ended in the same read or in the next one. */
  lemma BorderlineIsReal(data: bytes)
    requires |data| == 262144 && forall i :: 0 <= i < |data| ==> data[i] == 0
    ensures CompleteBatches(Reader([data], EndOfStream, true)) == [data]
    ensures CompleteBatches(Reader([data], EndOfStream, false)) == []
    ensures VerdictOf(Reader([data], EndOfStream, false)) == TooLong
  {
    assert [data][0] == data && Yield([data], 0) == data + Yield([], 0);
    assert data + [] == data;
    forall i
      ensures !At(STREAM_DELIMITER, data, i)
    {
      if 0 <= i && i + 15 <= |data| {
        assert data[i..i + 15][0] == 0 && STREAM_DELIMITER[0] == 124;
      }
    }
    IndexMeans(STREAM_DELIMITER, data);
    assert Split(STREAM_DELIMITER, data) == [data];
    assert [data][..1] == [data] && [data][..0] == [];
    assert NonEmpty([data]) == [data];
    var joint: Reader := Reader([data], EndOfStream, true);
    assert !Stalls([data], 0);
    assert Fits(joint) == 1;
    CompleteBatchesAreTheSplit(joint);
    CompleteBatchesAreTheSplit(Reader([data], EndOfStream, false));
  }
}
