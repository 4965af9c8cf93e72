/** consumeBatches: validate every complete batch of a response and hand it on. */
module Stream {
  import opened Delimiter
  import opened Scanner
  import opened Domain

  const MAX_RESPONSE_BYTES: nat := 64 * 1024 * 1024

  /** Why an attempt failed. */
  datatype Cause =
    | SendFailed(code: int)
    | ReadBroke(code: int)
    | StreamBroke(err: ScanErr)
    | TooLarge
    | Invalid(code: int)
    | Refused
    | Panicked

  datatype Response = Response(streaming: bool, body: Reader)

  /** How one response was consumed: the sink's state, what it was given, and the failure if any. */
  datatype Consumed<S> = Consumed(state: S, got: seq<RelayResult>, failure: Option<Cause>)

  type Validator = bytes -> Result<RelayResult, int>

  /** How the onBatch callback answers: nil, an error, or a panic that unwinds through its callers. */
  datatype Taking = Takes | Refuses | Panics

  /** The callback, as a step of the variables it captures. */
  type Sink<!S> = (S, RelayResult) -> (S, Taking)

  function Fault(t: Taking): (f: Option<Cause>) {
    match t
    case Takes => None
    case Refuses => Some(Refused)
    case Panics => Some(Panicked)
  }

  // ---- reference meaning ----

  /** Tokens that count as batches: non-empty, and terminated unless the stream ended cleanly. */
  function Batches(tokens: seq<Token>, clean: bool): (bs: seq<bytes>) {
    if tokens == [] then []
    else
      (if tokens[0].data == [] || (tokens[0].leftover && !clean) then [] else [tokens[0].data])
      + Batches(tokens[1..], clean)
  }

  /** Validate and hand over batches in order, stopping at the first failure. */
  function Feed<S>(validate: Validator, onBatch: Sink<S>, s: S, bs: seq<bytes>): (c: Consumed<S>) {
    if bs == [] then Consumed(s, [], None)
    else match validate(bs[0])
      case Err(e) => Consumed(s, [], Some(Invalid(e)))
      case Ok(r) =>
        var (s', answer) := onBatch(s, r);
        if !answer.Takes? then Consumed(s', [r], Fault(answer))
        else Prepend([r], Feed(validate, onBatch, s', bs[1..]))
  }

  function Prepend<S>(got: seq<RelayResult>, c: Consumed<S>): (r: Consumed<S>) {
    c.(got := got + c.got)
  }

  function Closing<S>(c: Consumed<S>, verdict: ScanErr): (r: Consumed<S>) {
    if c.failure == None && verdict != CleanEnd then c.(failure := Some(StreamBroke(verdict))) else c
  }

  /** What the scanner makes of a body: its tokens and how it ended. */
  function ScheduleOf(body: Reader): (p: Schedule) {
    Plan(STREAM_DELIMITER, MAX_BATCH_BYTES, Yield(body.chunks, 0), body.joint && !Stalls(body.chunks, 0))
  }

  function VerdictOf(body: Reader): (e: ScanErr) {
    if ScheduleOf(body).overlong then TooLong else EndingOf(body.chunks, 0, body.ending)
  }

  /** The batches of a streaming body that will be validated. */
  function CompleteBatches(body: Reader): (bs: seq<bytes>) {
    Batches(ScheduleOf(body).tokens, VerdictOf(body) == CleanEnd)
  }

  function Flat(chunks: seq<bytes>): (b: bytes) {
    if chunks == [] then [] else chunks[0] + Flat(chunks[1..])
  }

  /** A body read whole under a cap. */
  function Whole(body: Reader, cap: nat): (r: Result<bytes, Cause>) {
    var all := Flat(body.chunks);
    if |all| > cap + 1 || (|all| == cap + 1 && !(body.joint && body.ending.Broke?)) then Err(TooLarge)
    else match body.ending
      case Broke(c) => Err(ReadBroke(c))
      case EndOfStream => Ok(all)
  }

  function Consume<S>(validate: Validator, onBatch: Sink<S>, s: S, resp: Response): (c: Consumed<S>) {
    if resp.streaming then
      Closing(Feed(validate, onBatch, s, CompleteBatches(resp.body)), VerdictOf(resp.body))
    else match Whole(resp.body, MAX_RESPONSE_BYTES)
      case Err(e) => Consumed(s, [], Some(e))
      case Ok(data) => Feed(validate, onBatch, s, [data])
  }

  // ---- the code ----

  /** io.ReadAll over io.LimitReader(body, cap + 1), then the length check. */
  method ReadCapped(body: Reader, cap: nat) returns (r: Result<bytes, Cause>)
    ensures r == Whole(body, cap)
  {
    var chunks, data := body.chunks, [];
    while chunks != [] && |data| < cap + 1
      invariant data + Flat(chunks) == Flat(body.chunks) && |data| <= cap + 1
      invariant |data| == cap + 1 || chunks == body.chunks[|body.chunks| - |chunks|..]
      invariant |chunks| <= |body.chunks|
      invariant |data| == cap + 1 && chunks != [] && body.joint ==> Flat(chunks) != []
      decreases |chunks|, |Flat(chunks)|
    {
      var n := if |chunks[0]| <= cap + 1 - |data| then |chunks[0]| else cap + 1 - |data|;
      FlatTake(data, chunks, n);
      data := data + chunks[0][..n];
      if n == |chunks[0]| {
        chunks := chunks[1..];
        if chunks != [] && body.joint { FlatLast(chunks); }
      } else {
        chunks := [chunks[0][n..]] + chunks[1..];
      }
    }
    if chunks == [] && body.ending.Broke? && (|data| < cap + 1 || body.joint) {
      return Err(ReadBroke(body.ending.code));
    }
    if |data| > cap {
      return Err(TooLarge);
    }
    assert data + [] == data;
    return Ok(data);
  }

  /** Bytes moved from the first chunk to the data read so far. */
  lemma {:induction false} FlatTake(data: bytes, chunks: seq<bytes>, n: nat)
    requires chunks != [] && n <= |chunks[0]|
    ensures var rest := if n == |chunks[0]| then chunks[1..] else [chunks[0][n..]] + chunks[1..];
            && (data + chunks[0][..n]) + Flat(rest) == data + Flat(chunks)
            && |Flat(rest)| == |Flat(chunks)| - n
  {
    var head, tail := chunks[0], Flat(chunks[1..]);
    assert Flat(chunks) == head + tail;
    assert head[..n] + (head[n..] + tail) == head + tail;
    assert (data + head[..n]) + (head[n..] + tail) == data + (head + tail);
    if n < |head| {
      var rest := [head[n..]] + chunks[1..];
      assert rest[1..] == chunks[1..];
      assert Flat(rest) == head[n..] + tail;
    } else {
      assert head[n..] + tail == tail;
    }
  }

  lemma {:induction false} FlatLast(chunks: seq<bytes>)
    requires chunks != [] && chunks[|chunks| - 1] != []
    ensures Flat(chunks) != []
  {
    if |chunks| > 1 { FlatLast(chunks[1..]); }
  }

  /** Validate the batch held back, if any, and pass it on. */
  method Flush<S>(validate: Validator, onBatch: Sink<S>, s: S, pending: Option<bytes>)
    returns (c: Consumed<S>)
    ensures c == Feed(validate, onBatch, s, Held(pending))
  {
    if pending.None? {
      return Consumed(s, [], None);
    }
    match validate(pending.value) {
      case Err(e) => return Consumed(s, [], Some(Invalid(e)));
      case Ok(r) =>
        var (s', answer) := onBatch(s, r);
        return Consumed(s', [r], Fault(answer));
    }
  }

  method ConsumeBatches<S>(validate: Validator, onBatch: Sink<S>, s0: S, resp: Response)
    returns (c: Consumed<S>)
    ensures c == Consume(validate, onBatch, s0, resp)
  {
    if !resp.streaming {
      var whole := ReadCapped(resp.body, MAX_RESPONSE_BYTES);
      match whole {
        case Err(e) => return Consumed(s0, [], Some(e));
        case Ok(data) =>
          c := Flush(validate, onBatch, s0, Some(data));
          return c;
      }
    }
    var scanner := new Scanner(resp.body, STREAM_DELIMITER, MAX_BATCH_BYTES);
    c := ConsumeStream(validate, onBatch, s0, scanner);
  }

  lemma {:induction false} FeedAppend<S>(validate: Validator, onBatch: Sink<S>, s: S,
                                          a: seq<bytes>, b: seq<bytes>)
    ensures var first := Feed(validate, onBatch, s, a);
            Feed(validate, onBatch, s, a + b) ==
            if first.failure.Some? then first
            else Prepend(first.got, Feed(validate, onBatch, first.state, b))
  {
    if a == [] {
      assert a + b == b;
    } else {
      assert (a + b)[0] == a[0] && (a + b)[1..] == a[1..] + b;
      if validate(a[0]).Ok? {
        var (s', answer) := onBatch(s, validate(a[0]).value);
        if answer.Takes? { FeedAppend(validate, onBatch, s', a[1..], b); }
      }
    }
  }

  /** The held token as a list of at most one. */
  function Held(pending: Option<bytes>): (bs: seq<bytes>) {
    if pending.Some? then [pending.value] else []
  }

  /** What of the held token will count as a batch. */
  function Kept(pending: Option<bytes>, leftover: bool, clean: bool): (bs: seq<bytes>) {
    if leftover && !clean then [] else Held(pending)
  }

  /** What was handed over and what feeding `todo` from here would add make the goal. */
  ghost predicate OnTrack<S>(validate: Validator, onBatch: Sink<S>, goal: Consumed<S>, s: S,
                             got: seq<RelayResult>, todo: seq<bytes>)
  {
    goal == Prepend(got, Feed(validate, onBatch, s, todo))
  }

  lemma {:induction false} FlushStep<S>(validate: Validator, onBatch: Sink<S>, goal: Consumed<S>, s: S,
                                        got: seq<RelayResult>, held: seq<bytes>, todo: seq<bytes>, f: Consumed<S>)
    requires OnTrack(validate, onBatch, goal, s, got, held + todo)
    requires f == Feed(validate, onBatch, s, held)
    ensures f.failure.Some? ==> goal == Consumed(f.state, got + f.got, f.failure)
    ensures f.failure.None? ==> OnTrack(validate, onBatch, goal, f.state, got + f.got, todo)
  {
    FeedAppend(validate, onBatch, s, held, todo);
    var after := Feed(validate, onBatch, f.state, todo);
    assert got + (f.got + after.got) == (got + f.got) + after.got;
  }

  /** A token is skipped, or held back, or dropped as an unterminated end of a broken stream. */
  lemma BatchesStep(tokens: seq<Token>, clean: bool)
    requires tokens != []
    ensures var t := tokens[0];
            Batches(tokens, clean) ==
            (if t.data == [] || (t.leftover && !clean) then [] else [t.data]) + Batches(tokens[1..], clean)
  {
  }

  method ConsumeStream<S>(validate: Validator, onBatch: Sink<S>, s0: S, scanner: Scanner)
    returns (c: Consumed<S>)
    requires scanner.Valid() && scanner.err != TooLong
    modifies scanner
    ensures var tokens, verdict := old(scanner.Agenda()).tokens, old(scanner.Verdict());
            c == Closing(Feed(validate, onBatch, s0, Batches(tokens, verdict == CleanEnd)), verdict)
  {
    ghost var verdict, rest := scanner.Verdict(), scanner.Agenda().tokens;
    ghost var clean := verdict == CleanEnd;
    ghost var todo := Batches(rest, clean);
    ghost var goal := Feed(validate, onBatch, s0, todo);
    var s, got: seq<RelayResult> := s0, [];
    var pending: Option<bytes>, pendingLeftover := None, false;
    assert [] + todo == todo;
    while true
      invariant scanner.Valid() && scanner.err != TooLong
      invariant scanner.Verdict() == verdict && scanner.Agenda().tokens == rest
      invariant pending.Some? && pendingLeftover ==> rest == []
      invariant todo == Batches(rest, clean)
      invariant OnTrack(validate, onBatch, goal, s, got, Kept(pending, pendingLeftover, clean) + todo)
      decreases |rest|
    {
      var more := scanner.Scan();
      if !more {
        break;
      }
      var f := Flush(validate, onBatch, s, pending);
      FlushStep(validate, onBatch, goal, s, got, Held(pending), todo, f);
      if f.failure.Some? {
        return Consumed(f.state, got + f.got, f.failure);
      }
      s, got, pending := f.state, got + f.got, None;
      BatchesStep(rest, clean);
      if scanner.token != [] {
        pending, pendingLeftover := Some(scanner.token), scanner.leftover;
      }
      rest := rest[1..];
      todo := Batches(rest, clean);
    }
    assert Kept(pending, pendingLeftover, clean) + [] == Kept(pending, pendingLeftover, clean);
    c := Finish(validate, onBatch, s, got, pending, pendingLeftover, scanner.err, goal);
  }

  /** After the last token: keep the held batch on a clean end, drop an unterminated one otherwise. */
  method Finish<S>(validate: Validator, onBatch: Sink<S>, s: S, got: seq<RelayResult>,
                   pending: Option<bytes>, pendingLeftover: bool, err: ScanErr, ghost goal: Consumed<S>)
    returns (c: Consumed<S>)
    requires OnTrack(validate, onBatch, goal, s, got, Kept(pending, pendingLeftover, err == CleanEnd))
    ensures c == Closing(goal, err)
  {
    if err != CleanEnd && (pending.None? || pendingLeftover) {
      return Consumed(s, got, Some(StreamBroke(err)));
    }
    var f := Flush(validate, onBatch, s, pending);
    if f.failure.None? && err != CleanEnd {
      return Consumed(f.state, got + f.got, Some(StreamBroke(err)));
    }
    return Consumed(f.state, got + f.got, f.failure);
  }
}
