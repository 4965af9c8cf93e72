/** serveStream: the HTTP response a RelayStream run turns into. */
module HttpFront {
  import opened Delimiter
  import opened Domain
  import opened Stream
  import opened Relay
  import opened RelayProofs
  import opened Explanations
  import opened Text
  import opened Wire

  /** What the handler knows about the request and its client. */
  datatype Config = Config(
    grpc: bool,
    http2: bool,
    /** Adds the CORS headers for a browser origin, and changes nothing otherwise. */
    cors: Header -> Header,
    /** Whether writing this chunk, under this status and after these bytes, succeeds. */
    accepts: (int, bytes, bytes) -> bool,
    /** The text of a failed relay. */
    describe: Failure -> bytes)

  /** The variables the callback captures, and what it has put on the wire: `blocks` are the status
      codes of the header blocks, in order. */
  datatype Front = Front(wroteHeader: bool, blocks: seq<int>, header: Header, body: bytes, grpcTrailers: Header)

  datatype Reply = Reply(front: Front, badGateway: bool, aborted: bool, trailers: map<string, string>)

  /** What net/http's WriteHeader does with a code: send it as the response's header block, send it as an
      informational block that the first Write follows with a 200, or panic. */
  datatype Sending = Final | Informational | Unsendable

  function SendingOf(code: int, http2: bool): (k: Sending) {
    if code < 100 || code > 999 then Unsendable
    else if code <= 199 && (http2 || code != 101) then Informational
    else Final
  }

  const GRPC_TRAILERS: set<string> := {"grpc-status", "grpc-message", "grpc-status-details-bin"}

  const START := Front(false, [], map[], [], map[])

  predicate IsTrailer(name: string) {
    Lower(name) in GRPC_TRAILERS
  }

  function PlainPart(h: Header): (r: Header) {
    map k | k in h && !IsTrailer(k) :: h[k]
  }

  function TrailerPart(h: Header): (r: Header) {
    map k | k in h && IsTrailer(k) :: h[k]
  }

  /** Go ranges over the map in any order; every order gives the same two parts. */
  method SplitGrpcTrailers(h: Header) returns (headers: Header, trailers: Header)
    ensures headers == PlainPart(h) && trailers == TrailerPart(h)
    ensures headers.Keys !! trailers.Keys && headers + trailers == h
  {
    headers, trailers := map[], map[];
    var left := h.Keys;
    while left != {}
      invariant left <= h.Keys
      invariant headers == map k | k in h && k !in left && !IsTrailer(k) :: h[k]
      invariant trailers == map k | k in h && k !in left && IsTrailer(k) :: h[k]
      decreases left
    {
      var name :| name in left;
      left := left - {name};
      if IsTrailer(name) {
        trailers := trailers[name := h[name]];
      } else {
        headers := headers[name := h[name]];
      }
    }
  }

  /** Set keeps the last value of each name. */
  function LastValues(h: Header): (r: map<string, string>) {
    map k | k in h && h[k] != [] :: h[k][|h[k]| - 1]
  }

  method WriteGrpcTrailers(h: Header) returns (r: map<string, string>)
    ensures r == LastValues(h)
  {
    r := map[];
    var left := h.Keys;
    while left != {}
      invariant left <= h.Keys
      invariant r == map k | k in h && k !in left && h[k] != [] :: h[k][|h[k]| - 1]
      decreases left
    {
      var name :| name in left;
      left := left - {name};
      for i := 0 to |h[name]|
        invariant r == (map k | k in h && k !in left && k != name && h[k] != [] :: h[k][|h[k]| - 1])
                       + (if i == 0 then map[] else map[name := h[name][i - 1]])
      {
        r := r[name := h[name][i]];
      }
    }
  }

  /** The code a result is answered with. */
  function Code(x: RelayResult): (code: int) {
    if x.status == 0 then 200 else x.status
  }

  function KindOf(cfg: Config, x: RelayResult): (k: Sending) {
    SendingOf(Code(x), cfg.http2)
  }

  /** The header blocks the first result puts on the wire. */
  function BlocksOf(cfg: Config, x: RelayResult): (blocks: seq<int>) {
    match KindOf(cfg, x)
    case Final => [Code(x)]
    case Informational => [Code(x), 200]
    case Unsendable => []
  }

  function HeaderOf(cfg: Config, x: RelayResult): (h: Header) {
    cfg.cors(if cfg.grpc then PlainPart(x.header) else x.header)
  }

  /** The header of the first result, written unless its code is invalid. */
  function Open(cfg: Config, f: Front, x: RelayResult): (g: Front) {
    Front(!KindOf(cfg, x).Unsendable?, f.blocks + BlocksOf(cfg, x), HeaderOf(cfg, x), f.body,
          if cfg.grpc then TrailerPart(x.header) else f.grpcTrailers)
  }

  function Status(f: Front): (code: int) {
    if f.blocks == [] then 200 else f.blocks[|f.blocks| - 1]
  }

  /** The onBatch callback, as a step of the captured variables. */
  function Step(cfg: Config, f: Front, x: RelayResult): (r: (Front, Taking)) {
    var g := if f.wroteHeader then f else Open(cfg, f, x);
    if !g.wroteHeader then (g, Panics)
    else if cfg.accepts(Status(g), g.body, x.body) then (g.(body := g.body + x.body), Takes)
    else (g, Refuses)
  }

  function OnBatch(cfg: Config): Sink<Front> {
    (f, x) => Step(cfg, f, x)
  }

  const LINE_FEED: byte := 10

  /** The headers http.Error sets. */
  const ERROR_HEADER: Header :=
    map["Content-Type" := ["text/plain; charset=utf-8"], "X-Content-Type-Options" := ["nosniff"]]

  /** http.Error: its headers, the 502 block and the text as one line. */
  function BadGateway(cfg: Config, f: Front, e: Failure): (g: Front) {
    f.(blocks := f.blocks + [502], header := f.header + ERROR_HEADER, body := f.body + cfg.describe(e) + [LINE_FEED])
  }

  /** The server's part once the handler has returned: a response without a header block gets an empty 200. */
  function Concluded(f: Front): (g: Front) {
    if f.blocks == [] then f.(blocks := [200]) else f
  }

  method ServeStream(r: Relayer, q: Request, cfg: Config) returns (reply: Reply)
    ensures reply == Answered(cfg, StreamRun(r, q, START, OnBatch(cfg)))
  {
    var run := RelayStream(r, q, START, OnBatch(cfg));
    var f := run.state;
    if run.result == Err(Unwound) {
      return Reply(f, false, true, map[]);
    }
    if run.result.Err? {
      if !f.wroteHeader {
        return Reply(BadGateway(cfg, f, run.result.error), true, false, map[]);
      }
      return Reply(f, false, true, map[]);
    }
    var trailers := WriteGrpcTrailers(f.grpcTrailers);
    return Reply(Concluded(f), false, false, trailers);
  }

  /** What becomes of a finished run. A panic leaves the handler too, and the server aborts the connection. */
  function Answered(cfg: Config, run: Run<Front, ()>): (reply: Reply) {
    var f := run.state;
    if run.result.Ok? then Reply(Concluded(f), false, false, LastValues(f.grpcTrailers))
    else if run.result.error.Unwound? || f.wroteHeader then Reply(f, false, true, map[])
    else Reply(BadGateway(cfg, f, run.result.error), true, false, map[])
  }

  // ---- what reaches the client ----

  function Bodies(got: seq<RelayResult>): (b: bytes) {
    if got == [] then [] else got[0].body + Bodies(got[1..])
  }

  /** After the header is out, no delivery changes it or panics. */
  lemma {:induction false} HeaderKept(cfg: Config, f: Front, got: seq<RelayResult>, last: Taking)
    requires f.wroteHeader && TookAllBut(OnBatch(cfg), f, got, last)
    ensures var g := Absorb(OnBatch(cfg), f, got);
            && g.wroteHeader && g.blocks == f.blocks && g.header == f.header && g.grpcTrailers == f.grpcTrailers
            && !last.Panics?
    decreases |got|
  {
    if got != [] {
      var g := Step(cfg, f, got[0]).0;
      if |got| == 1 {
        assert Absorb(OnBatch(cfg), g, got[1..]) == g;
      } else {
        HeaderKept(cfg, g, got[1..], last);
      }
    }
  }

  /** The first delivery decides the header blocks, and whether the callback panics, for good. */
  lemma {:induction false} HeaderOnce(cfg: Config, got: seq<RelayResult>, last: Taking)
    requires got != [] && TookAllBut(OnBatch(cfg), START, got, last)
    ensures var g := Absorb(OnBatch(cfg), START, got);
            && g.blocks == BlocksOf(cfg, got[0]) && g.header == HeaderOf(cfg, got[0])
            && g.grpcTrailers == (if cfg.grpc then TrailerPart(got[0].header) else map[])
            && (g.wroteHeader <==> !KindOf(cfg, got[0]).Unsendable?)
            && (last.Panics? <==> KindOf(cfg, got[0]).Unsendable?)
  {
    var g := Step(cfg, START, got[0]).0;
    assert START.blocks + BlocksOf(cfg, got[0]) == BlocksOf(cfg, got[0]);
    if |got| == 1 {
      assert Absorb(OnBatch(cfg), g, got[1..]) == g;
    } else {
      HeaderKept(cfg, g, got[1..], last);
    }
  }

  /** The results that were written: all of them, or all but one that was not taken. */
  function Written(got: seq<RelayResult>, last: Taking): (w: seq<RelayResult>) {
    if last.Takes? || got == [] then got else got[..|got| - 1]
  }

  lemma {:induction false} BodyInOrder(cfg: Config, f: Front, got: seq<RelayResult>, last: Taking)
    requires TookAllBut(OnBatch(cfg), f, got, last)
    ensures Absorb(OnBatch(cfg), f, got).body == f.body + Bodies(Written(got, last))
    decreases |got|
  {
    if got == [] {
      assert f.body + [] == f.body;
    } else if |got| == 1 {
      OneBody(cfg, f, got, last);
    } else {
      var g := Step(cfg, f, got[0]).0;
      BodyInOrder(cfg, g, got[1..], last);
      WrittenTail(got, last);
      var more := Bodies(Written(got[1..], last));
      assert g.body == f.body + got[0].body;
      assert (f.body + got[0].body) + more == f.body + (got[0].body + more);
    }
  }

  lemma OneBody(cfg: Config, f: Front, got: seq<RelayResult>, last: Taking)
    requires |got| == 1 && TookAllBut(OnBatch(cfg), f, got, last)
    ensures Absorb(OnBatch(cfg), f, got).body == f.body + Bodies(Written(got, last))
  {
    var g := Step(cfg, f, got[0]).0;
    assert got[1..] == [] && Absorb(OnBatch(cfg), g, []) == g;
    assert got[0].body + [] == got[0].body && f.body + [] == f.body;
    assert Written(got, last) == if last.Takes? then got else [];
  }

  lemma WrittenTail(got: seq<RelayResult>, last: Taking)
    requires |got| > 1
    ensures var w := Written(got, last); w != [] && w[0] == got[0] && w[1..] == Written(got[1..], last)
  {
    if !last.Takes? {
      var front := got[..|got| - 1];
      assert front[1..] == got[1..][..|got| - 2];
    }
  }

  /** The results a run delivered, in order. */
  function Results(log: seq<Event>): (got: seq<RelayResult>) {
    if log == [] then []
    else (if log[0].Delivered? then [log[0].result] else []) + Results(log[1..])
  }

  lemma {:induction false} ResultsOfOnly(log: seq<Event>)
    ensures Results(log) == Results(Only(log, IsDelivered))
  {
    if log != [] {
      ResultsOfOnly(log[1..]);
      if log[0].Delivered? {
        assert Only(log, IsDelivered)[1..] == Only(log[1..], IsDelivered);
      } else {
        assert Only(log, IsDelivered) == Only(log[1..], IsDelivered);
      }
    }
  }

  lemma {:induction false} ResultsOfDeliveries(supplier: string, got: seq<RelayResult>)
    ensures Results(Deliveries(supplier, got)) == got
  {
    if got != [] {
      ResultsOfDeliveries(supplier, got[1..]);
      assert Deliveries(supplier, got)[1..] == Deliveries(supplier, got[1..]);
    }
  }

  /** Whatever the sink does, its final state is what absorbing the run's deliveries gives, and how the run ended
      tells how it answered the last. */
  lemma RunState<S>(r: Relayer, q: Request, s: S, onBatch: Sink<S>)
    ensures var run := StreamRun(r, q, s, onBatch);
            var got := Results(run.log);
            && run.state == Absorb(onBatch, s, got)
            && TookAllBut(onBatch, s, got, LastOf(run.result))
            && (run.result.Err? ==>
                  (run.result.error.AfterDelivery? || run.result.error.Unwound? <==> got != []))
  {
    DeliveredByOne(r, q, s, onBatch);
    if r.hasStreamSender && Candidates(r, q).Ok? {
      ExplainedState(LoopOf(r, q, s, onBatch), StreamRun(r, q, s, onBatch));
    }
  }

  /** The sink absorbed what was delivered, and answered the last of it as the run's ending tells. */
  ghost predicate SinkTells<S>(l: Loop<S>, run: Run<S, ()>, got: seq<RelayResult>) {
    && run.state == Absorb(l.onBatch, l.s, got)
    && TookAllBut(l.onBatch, l.s, got, LastOf(run.result))
    && (run.result.Err? ==> (run.result.error.AfterDelivery? || run.result.error.Unwound? <==> got != []))
  }

  lemma {:induction false} ExplainedState<S>(l: Loop<S>, run: Run<S, ()>)
    requires Explained(l, 0, Nothing, run)
    ensures SinkTells(l, run, Results(run.log))
  {
    if k: nat, whys, resp, got, failure :| Explains(l, 0, run, k, whys, resp, got, failure) {
      StoppedState(l, run, l.eps[k].supplier, got, failure);
    } else {
      var k: nat, whys :| Fruitless(l, 0, Nothing, run, k, whys);
      ResultsOfOnly(run.log);
    }
  }

  lemma {:induction false} StoppedState<S>(l: Loop<S>, run: Run<S, ()>, supplier: string, got: seq<RelayResult>,
                                           failure: Option<Cause>)
    requires Only(run.log, IsDelivered) == Deliveries(supplier, got) && run.state == Absorb(l.onBatch, l.s, got)
    requires TookAllBut(l.onBatch, l.s, got, LastAnswer(failure)) && run.result == ResultOf(failure)
    requires failure.None? || got != []
    ensures SinkTells(l, run, Results(run.log))
  {
    ResultsOfOnly(run.log);
    ResultsOfDeliveries(supplier, got);
    assert LastOf(ResultOf(failure)) == LastAnswer(failure);
  }

  // ---- what the first result comes to, in terms of the result alone ----

  /** The header blocks a status puts on the wire: an absent one is a 200, an informational one is followed by a 200,
      and an invalid one puts out none. */
  ghost predicate BlocksFor(status: int, http2: bool, blocks: seq<int>) {
    && (status == 0 ==> blocks == [200])
    && (200 <= status <= 999 ==> blocks == [status])
    && (status == 101 && !http2 ==> blocks == [101])
    && (100 <= status <= 199 && (status != 101 || http2) ==> blocks == [status, 200])
    && (status < 0 || 0 < status < 100 || status > 999 ==> blocks == [])
  }

  lemma BlocksOfStatus(cfg: Config, x: RelayResult)
    ensures BlocksFor(x.status, cfg.http2, BlocksOf(cfg, x))
  {
  }

  /** What the callback answers: it panics for a code that cannot be sent; otherwise it takes the result exactly when
      the client accepts the body under the code of the last header block. */
  lemma CallbackAnswers(cfg: Config, f: Front, x: RelayResult)
    ensures var answer := Step(cfg, f, x).1;
            if f.wroteHeader then
              f.blocks != [] ==>
                (answer == if cfg.accepts(f.blocks[|f.blocks| - 1], f.body, x.body) then Takes else Refuses)
            else if x.status < 0 || 0 < x.status < 100 || x.status > 999 then answer == Panics
            else
              var code := if 200 <= x.status || (x.status == 101 && !cfg.http2) then x.status else 200;
              answer == if cfg.accepts(code, f.body, x.body) then Takes else Refuses
  {
  }

  /** The name is one of the three that carry a gRPC status, whatever its letter case. */
  ghost predicate CarriesStatus(k: string) {
    Spells(k, "grpc-status") || Spells(k, "grpc-message") || Spells(k, "grpc-status-details-bin")
  }

  ghost predicate Spells(k: string, w: string) {
    |k| == |w| && forall i :: 0 <= i < |w| ==> Lowers(k[i], w[i])
  }

  lemma IsTrailerMeans(k: string)
    ensures IsTrailer(k) <==> CarriesStatus(k)
  {
    LowerIs(k, "grpc-status");
    LowerIs(k, "grpc-message");
    LowerIs(k, "grpc-status-details-bin");
  }

  /** `plain` is the header without the names that carry a gRPC status, which are taken out of a gRPC reply only. */
  ghost predicate PlainOf(grpc: bool, h: Header, plain: Header) {
    && (forall k :: k in plain <==> k in h && !(grpc && CarriesStatus(k)))
    && (forall k :: k in plain ==> plain[k] == h[k])
  }

  /** `trailers` are those names, in a gRPC reply only, each with its last value. */
  ghost predicate TrailersOf(grpc: bool, h: Header, trailers: map<string, string>) {
    && (forall k :: k in trailers <==> grpc && k in h && CarriesStatus(k) && h[k] != [])
    && (forall k :: k in trailers ==> trailers[k] == h[k][|h[k]| - 1])
  }

  /** The client's headers: those of the first result, with what a browser origin adds. */
  ghost predicate HeadersFrom(cfg: Config, h: Header, sent: Header) {
    exists plain :: PlainOf(cfg.grpc, h, plain) && sent == cfg.cors(plain)
  }

  lemma HeaderOfMeans(cfg: Config, x: RelayResult)
    ensures HeadersFrom(cfg, x.header, HeaderOf(cfg, x))
    ensures TrailersOf(cfg.grpc, x.header, LastValues(if cfg.grpc then TrailerPart(x.header) else map[]))
  {
    forall k
      ensures IsTrailer(k) <==> CarriesStatus(k)
    {
      IsTrailerMeans(k);
    }
    assert PlainOf(cfg.grpc, x.header, if cfg.grpc then PlainPart(x.header) else x.header);
  }

  /** End to end: 502 exactly when the relay failed with nothing delivered; the connection aborted exactly when it
      failed after delivery; an empty 200 when it succeeded with nothing delivered; otherwise header blocks and headers
      those of the first batch, trailers only after success, and the body the deliveries in order, without the last
      when it was not taken. */
  lemma EndToEnd(r: Relayer, q: Request, cfg: Config)
    ensures var run := StreamRun(r, q, START, OnBatch(cfg));
            var got, reply := Results(run.log), Answered(cfg, run);
            && (reply.badGateway <==> run.result.Err? && got == [])
            && (reply.badGateway ==>
                  && reply.front.blocks == [502] && reply.trailers == map[]
                  && reply.front.header == map["Content-Type" := ["text/plain; charset=utf-8"],
                                               "X-Content-Type-Options" := ["nosniff"]]
                  && reply.front.body == cfg.describe(run.result.error) + [10])
            && (run.result.Ok? && got == [] ==>
                  && reply.front.blocks == [200] && reply.front.header == map[]
                  && reply.front.body == [] && reply.trailers == map[])
            && (reply.aborted <==> run.result.Err? && got != [])
            && (reply.aborted ==> reply.trailers == map[])
            && (got != [] ==> BlocksFor(got[0].status, cfg.http2, reply.front.blocks))
            && (got != [] ==> HeadersFrom(cfg, got[0].header, reply.front.header))
            && (got != [] && run.result.Ok? ==> TrailersOf(cfg.grpc, got[0].header, reply.trailers))
            && (!reply.badGateway ==> reply.front.body == Bodies(Written(got, LastOf(run.result))))
            && (run.result.Ok? ==> reply.front.body == Bodies(got))
  {
    var run := StreamRun(r, q, START, OnBatch(cfg));
    var got := Results(run.log);
    RunState(r, q, START, OnBatch(cfg));
    if got != [] {
      HeaderOnce(cfg, got, LastOf(run.result));
      BlocksOfStatus(cfg, got[0]);
      HeaderOfMeans(cfg, got[0]);
    }
    BodyInOrder(cfg, START, got, LastOf(run.result));
    assert [] + Bodies(Written(got, LastOf(run.result))) == Bodies(Written(got, LastOf(run.result)));
    assert LastValues(map[]) == map[];
  }

  /** One header block, carrying the code of the first batch, exactly when that code is a final one: 0 for 200, 101
      over HTTP/1, or 200 to 999. An informational code puts two blocks out. An invalid one unwinds the run: the
      supplier's body stays open and the last send has no outcome. */
  lemma OneHeaderBlockIff(r: Relayer, q: Request, cfg: Config)
    ensures var run := StreamRun(r, q, START, OnBatch(cfg));
            var got, blocks := Results(run.log), Answered(cfg, run).front.blocks;
            got != [] ==>
              var status := got[0].status;
              var invalid := status < 0 || 0 < status < 100 || status > 999;
              && BlocksFor(status, cfg.http2, blocks)
              && (blocks == [if status == 0 then 200 else status] <==>
                    status == 0 || (status == 101 && !cfg.http2) || 200 <= status <= 999)
              && (|blocks| == 2 <==> 100 <= status <= 199 && (status != 101 || cfg.http2))
              && (invalid <==> run.result == Err(Unwound))
              && (invalid <==> !Tidy(run.log))
              && (invalid <==> |Only(run.log, IsObserved)| < |Only(run.log, IsSent)|)
  {
    var run := StreamRun(r, q, START, OnBatch(cfg));
    var got := Results(run.log);
    EndToEnd(r, q, cfg);
    RunState(r, q, START, OnBatch(cfg));
    NoSplicing(r, q, START, OnBatch(cfg));
    StreamFeed(r, q, START, OnBatch(cfg));
    if got != [] {
      HeaderOnce(cfg, got, LastOf(run.result));
    }
  }

  /** The two failing families are inhabited: a supplier that signs status 42 unwinds the run, and one that signs
      103 puts two header blocks on the wire. */
  lemma BadStatusIsReal(code: int, cfg: Config)
    requires code == 42 || code == 103
    ensures var run := StreamRun(OneSupplier(code), ANY_REQUEST, START, OnBatch(cfg));
            && (code == 42 ==> run.result == Err(Unwound) && !Tidy(run.log))
            && (code == 103 ==> Answered(cfg, run).front.blocks == [103, 200])
  {
    var r, onBatch := OneSupplier(code), OnBatch(cfg);
    var run := StreamRun(r, ANY_REQUEST, START, onBatch);
    var x := RelayResult(code, map[], []);
    var c := Consume(b => r.validate("a", b), onBatch, START, EMPTY_ANSWER);
    FeedsOne(b => r.validate("a", b), onBatch, START, x);
    SettledLog("a", c);
    assert Candidates(r, ANY_REQUEST).value.1 == [ONLY_ENDPOINT];
    assert run.log == Settled("a", c).log;
    ResultsOfOnly(run.log);
    ResultsOfDeliveries("a", [x]);
    OneHeaderBlockIff(r, ANY_REQUEST, cfg);
    EndToEnd(r, ANY_REQUEST, cfg);
  }

  const EMPTY_ANSWER := Response(false, Scanner.Reader([], Scanner.EndOfStream, false))

  /** An empty answer that validates is handed over as one result. */
  lemma FeedsOne<S>(v: Validator, onBatch: Sink<S>, s: S, x: RelayResult)
    requires v([]) == Ok(x)
    ensures Consume(v, onBatch, s, EMPTY_ANSWER).got == [x]
  {
    var one: seq<bytes> := [[]];
    assert Whole(EMPTY_ANSWER.body, MAX_RESPONSE_BYTES) == Ok([]);
    assert one[1..] == [] && [x] + [] == [x];
  }

  const ONLY_ENDPOINT := Endpoint("a", map[JSONRPC := "u"])
  const ANY_REQUEST := Request("svc", JSONRPC, RelayInput("POST", "/", map[], []))

  /** A relayer with one supplier, whose whole answer validates to an empty result with this status. */
  function OneSupplier(code: int): (r: Relayer) {
    Relayer(service => Ok(Session("s", service, "app", 1, [ONLY_ENDPOINT])),
            (service, eps, rpc) => Ok(eps),
            (session, ep, rpc, input) => Ok([]),
            (i, url, signed, rpc) => Answer(EMPTY_ANSWER),
            (supplier, data) => Ok(RelayResult(code, map[], [])),
            1, true)
  }

  // ---- from the miner's batches to the client's bytes ----

  /** Every attempt before the k-th was barren. */
  ghost predicate Reaches<S>(l: Loop<S>, k: nat) {
    exists whys :: AllBarren(l, 0, k, whys)
  }

  /** Attempt `k` succeeds with these deliveries. */
  ghost predicate Succeeds<S>(l: Loop<S>, k: nat, want: seq<Event>)
    requires k < |l.eps|
  {
    var a := TryStream(l.r, l.session, l.q, k, l.eps[k], l.s, l.onBatch);
    a.next == Stop(Ok(())) && Only(a.log, IsDelivered) == want
  }

  /** And so does the run from attempt `i` on, whatever failed before. */
  ghost predicate Delivers<S>(l: Loop<S>, i: nat, last: LastErr, want: seq<Event>)
    requires i <= |l.eps|
  {
    var run := StreamFrom(l.r, l.session, l.q, l.eps, i, l.s, l.onBatch, last);
    run.result.Ok? && Only(run.log, IsDelivered) == want
  }

  ghost predicate AlwaysDelivers<S>(l: Loop<S>, i: nat, want: seq<Event>)
    requires i <= |l.eps|
  {
    forall last :: Delivers(l, i, last, want)
  }

  lemma {:induction false} DeliversHere<S>(l: Loop<S>, k: nat, last: LastErr, want: seq<Event>)
    requires k < |l.eps| && Succeeds(l, k, want)
    ensures Delivers(l, k, last, want)
  {
  }

  lemma {:induction false} DeliversBefore<S>(l: Loop<S>, i: nat, why: LastErr, last: LastErr, want: seq<Event>)
    requires i < |l.eps| && Barren(l, i, why) && AlwaysDelivers(l, i + 1, want)
    ensures Delivers(l, i, last, want)
  {
    var a := TryStream(l.r, l.session, l.q, i, l.eps[i], l.s, l.onBatch);
    BarrenGoesOn(l, i, why);
    ContinueIsQuiet(l.r, l.session, l.q, i, l.eps[i], l.s, l.onBatch);
    assert Delivers(l, i + 1, why, want);
    OnlyAppend(a.log, StreamFrom(l.r, l.session, l.q, l.eps, i + 1, l.s, l.onBatch, why).log, IsDelivered);
    assert [] + want == want;
  }

  /** A run that reaches such an attempt delivers that and nothing else. */
  lemma {:induction false} DeliversFrom<S>(l: Loop<S>, i: nat, k: nat, whys: seq<LastErr>, want: seq<Event>)
    requires i <= k < |l.eps| && AllBarren(l, 0, k, whys) && Succeeds(l, k, want)
    ensures AlwaysDelivers(l, i, want)
    decreases k - i
  {
    if i < k {
      DeliversFrom(l, i + 1, k, whys, want);
      assert Barren(l, 0 + i, whys[i]);
    }
    forall last
      ensures Delivers(l, i, last, want)
    {
      if i < k {
        DeliversBefore(l, i, whys[i], last, want);
      } else {
        DeliversHere(l, k, last, want);
      }
    }
  }

  /** The first supplier whose answer lets the loop stop, if its batches can be carried and all validate, reaches the
      client whole, however it is read and whatever was tried before it. */
  lemma MinerToClient(r: Relayer, q: Request, cfg: Config, k: nat, resp: Response, batches: seq<bytes>, closed: bool,
                      got: seq<RelayResult>)
    requires r.hasStreamSender && Candidates(r, q).Ok? && k < |Candidates(r, q).value.1|
    requires var l := LoopOf(r, q, START, OnBatch(cfg));
             && Reaches(l, k) && Opens(l, k, resp) && |got| == |batches|
             && forall n :: 0 <= n < |batches| ==> r.validate(l.eps[k].supplier, batches[n]) == Ok(got[n])
    requires Carries(resp, batches, closed) && forall b :: b in batches ==> b != []
    requires Framable(batches, closed) && Room(batches, closed, resp.body.joint)
    requires forall code, a, b :: cfg.accepts(code, a, b)
    requires got != [] ==> got[0].status == 0 || 100 <= got[0].status <= 999
    ensures var run := StreamRun(r, q, START, OnBatch(cfg));
            && run.result.Ok? && Results(run.log) == got
            && Answered(cfg, run).front.body == Bodies(got)
            && !Answered(cfg, run).aborted && !Answered(cfg, run).badGateway
  {
    var l := LoopOf(r, q, START, OnBatch(cfg));
    CarriedDelivers(l, cfg, k, resp, batches, closed, got);
    LoopDelivers(l, k, got);
    AnsweredWell(r, q, cfg);
  }

  lemma {:induction false} CarriedDelivers(l: Loop<Front>, cfg: Config, k: nat, resp: Response, batches: seq<bytes>,
                                           closed: bool, got: seq<RelayResult>)
    requires l.s == START && l.onBatch == OnBatch(cfg) && k < |l.eps| && Opens(l, k, resp) && |got| == |batches|
    requires forall n :: 0 <= n < |batches| ==> l.r.validate(l.eps[k].supplier, batches[n]) == Ok(got[n])
    requires Carries(resp, batches, closed) && forall b :: b in batches ==> b != []
    requires Framable(batches, closed) && Room(batches, closed, resp.body.joint)
    requires forall code, a, b :: cfg.accepts(code, a, b)
    requires got != [] ==> got[0].status == 0 || 100 <= got[0].status <= 999
    ensures Succeeds(l, k, Deliveries(l.eps[k].supplier, got))
  {
    WireRoundTrip(resp, batches, closed);
    AttemptDelivers(l, cfg, k, resp, got);
  }

  lemma AnsweredWell(r: Relayer, q: Request, cfg: Config)
    ensures var run := StreamRun(r, q, START, OnBatch(cfg));
            var reply := Answered(cfg, run);
            run.result.Ok? ==> reply.front.body == Bodies(Results(run.log)) && !reply.aborted && !reply.badGateway
  {
    EndToEnd(r, q, cfg);
  }

  lemma {:induction false} LoopDelivers<S>(l: Loop<S>, k: nat, got: seq<RelayResult>)
    requires k < |l.eps| && Reaches(l, k) && Succeeds(l, k, Deliveries(l.eps[k].supplier, got))
    ensures var run := StreamFrom(l.r, l.session, l.q, l.eps, 0, l.s, l.onBatch, Nothing);
            run.result.Ok? && Results(run.log) == got
  {
    var want := Deliveries(l.eps[k].supplier, got);
    var whys :| AllBarren(l, 0, k, whys);
    DeliversFrom(l, 0, k, whys, want);
    assert Delivers(l, 0, Nothing, want);
    ResultsOfOnly(StreamFrom(l.r, l.session, l.q, l.eps, 0, l.s, l.onBatch, Nothing).log);
    ResultsOfDeliveries(l.eps[k].supplier, got);
  }

  /** An attempt whose answer ends well and validates delivers all of it and stops the loop. */
  lemma {:induction false} AttemptDelivers(l: Loop<Front>, cfg: Config, k: nat, resp: Response, got: seq<RelayResult>)
    requires l.s == START && l.onBatch == OnBatch(cfg) && k < |l.eps|
    requires Opens(l, k, resp) && EndsWell(resp) && |got| == |BatchesOf(resp)|
    requires forall n :: 0 <= n < |got| ==> l.r.validate(l.eps[k].supplier, BatchesOf(resp)[n]) == Ok(got[n])
    requires forall code, a, b :: cfg.accepts(code, a, b)
    requires got != [] ==> !KindOf(cfg, got[0]).Unsendable?
    ensures Succeeds(l, k, Deliveries(l.eps[k].supplier, got))
  {
    var v := Checker(l, k);
    AllAccepted(v, cfg, START, BatchesOf(resp), got);
    SettledLog(l.eps[k].supplier, Consume(v, OnBatch(cfg), START, resp));
  }

  lemma {:induction false} AllAccepted(v: Validator, cfg: Config, f: Front, bs: seq<bytes>, got: seq<RelayResult>)
    requires |got| == |bs| && forall n :: 0 <= n < |bs| ==> v(bs[n]) == Ok(got[n])
    requires forall code, a, b :: cfg.accepts(code, a, b)
    requires got != [] ==> f.wroteHeader || !KindOf(cfg, got[0]).Unsendable?
    ensures var c := Feed(v, OnBatch(cfg), f, bs); c.failure.None? && c.got == got
    decreases |bs|
  {
    if bs != [] {
      AllAccepted(v, cfg, Step(cfg, f, got[0]).0, bs[1..], got[1..]);
      assert [got[0]] + got[1..] == got;
    } else {
      assert got == [];
    }
  }
}
