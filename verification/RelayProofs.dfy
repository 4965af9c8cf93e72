/** What every run of the failover loops guarantees. */
module RelayProofs {
  import opened Delimiter
  import opened Scanner
  import opened Domain
  import opened Stream
  import opened Relay

  // ---- reading a log ----

  predicate IsSent(e: Event) { e.Sent? }
  predicate IsDelivered(e: Event) { e.Delivered? }
  predicate IsObserved(e: Event) { e.Observed? }

  function Only(log: seq<Event>, p: Event -> bool): (r: seq<Event>)
    ensures forall i :: 0 <= i < |r| ==> p(r[i])
  {
    if log == [] then [] else (if p(log[0]) then [log[0]] else []) + Only(log[1..], p)
  }

  lemma {:induction false} OnlyAppend(a: seq<Event>, b: seq<Event>, p: Event -> bool)
    ensures Only(a + b, p) == Only(a, p) + Only(b, p)
  {
    if a == [] {
      assert a + b == b;
    } else {
      assert (a + b)[0] == a[0] && (a + b)[1..] == a[1..] + b;
      OnlyAppend(a[1..], b, p);
    }
  }

  lemma {:induction false} OnlyUniform(log: seq<Event>, p: Event -> bool)
    ensures (forall e :: e in log ==> p(e)) ==> Only(log, p) == log
    ensures (forall e :: e in log ==> !p(e)) ==> Only(log, p) == []
  {
    if log != [] {
      assert log[0] in log && forall e :: e in log[1..] ==> e in log;
      OnlyUniform(log[1..], p);
      assert [log[0]] + log[1..] == log;
    }
  }

  lemma OnlyPair(x: Event, y: Event, p: Event -> bool)
    ensures Only([x, y], p) == (if p(x) then [x] else []) + (if p(y) then [y] else [])
  {
    assert [x, y][1..] == [y];
    assert Only([y], p) == if p(y) then [y] else [];
  }

  lemma {:induction false} SettledOnly(supplier: string, got: seq<RelayResult>, failure: Option<Cause>,
                                       p: Event -> bool)
    ensures Only([Sent(supplier), Opened(supplier)] + Deliveries(supplier, got) + Wrapup(supplier, failure), p)
         == Only([Sent(supplier), Opened(supplier)], p) + Only(Deliveries(supplier, got), p)
            + Only(Wrapup(supplier, failure), p)
  {
    var a, d, z := [Sent(supplier), Opened(supplier)], Deliveries(supplier, got), Wrapup(supplier, failure);
    OnlyAppend(a + d, z, p);
    OnlyAppend(a, d, p);
  }

  lemma OnlyDeliveries(supplier: string, got: seq<RelayResult>, p: Event -> bool, keep: bool)
    requires forall x :: p(Delivered(supplier, x)) == keep
    ensures Only(Deliveries(supplier, got), p) == if keep then Deliveries(supplier, got) else []
  {
    OnlyUniform(Deliveries(supplier, got), p);
  }

  /** The outcome an attempt reports, unless a panic unwound past it. */
  function Reported(supplier: string, failure: Option<Cause>): (log: seq<Event>) {
    if failure == Some(Panicked) then [] else [Observed(supplier, failure)]
  }

  /** One projection of a settled attempt, given its verdict on each kind of event. */
  lemma {:induction false} SettledProject<S>(supplier: string, c: Consumed<S>, p: Event -> bool, onDelivered: bool)
    requires !p(Opened(supplier)) && !p(Closed(supplier))
    requires forall x :: p(Delivered(supplier, x)) == onDelivered
    ensures Only(Settled(supplier, c).log, p)
         == (if p(Sent(supplier)) then [Sent(supplier)] else [])
            + (if onDelivered then Deliveries(supplier, c.got) else [])
            + (if p(Observed(supplier, c.failure)) then Reported(supplier, c.failure) else [])
  {
    SettledOnly(supplier, c.got, c.failure, p);
    OnlyDeliveries(supplier, c.got, p, onDelivered);
    assert Only([Sent(supplier), Opened(supplier)], p) == if p(Sent(supplier)) then [Sent(supplier)] else [] by {
      OnlyPair(Sent(supplier), Opened(supplier), p);
    }
    assert Only(Wrapup(supplier, c.failure), p)
        == if p(Observed(supplier, c.failure)) then Reported(supplier, c.failure) else [] by {
      OnlyPair(Closed(supplier), Observed(supplier, c.failure), p);
    }
  }

  /** The three projections of a settled attempt. */
  lemma {:induction false} SettledLog<S>(supplier: string, c: Consumed<S>)
    ensures Only(Settled(supplier, c).log, IsSent) == [Sent(supplier)]
    ensures Only(Settled(supplier, c).log, IsDelivered) == Deliveries(supplier, c.got)
    ensures Only(Settled(supplier, c).log, IsObserved) == Reported(supplier, c.failure)
  {
    SettledProject(supplier, c, IsSent, false);
    SettledProject(supplier, c, IsDelivered, true);
    SettledProject(supplier, c, IsObserved, false);
  }

  // ---- what feeding batches does ----

  /** The sink's state after a list of results. */
  function Absorb<S>(onBatch: Sink<S>, s: S, got: seq<RelayResult>): (r: S) {
    if got == [] then s else Absorb(onBatch, onBatch(s, got[0]).0, got[1..])
  }

  /** `got` is the validated image of the first batches of `bs`. */
  predicate ValidatedPrefix(validate: Validator, bs: seq<bytes>, got: seq<RelayResult>) {
    |got| <= |bs| && forall n :: 0 <= n < |got| ==> validate(bs[n]) == Ok(got[n])
  }

  /** The sink took every result but the last, which it answered with `last`. */
  ghost predicate TookAllBut<S>(onBatch: Sink<S>, s: S, got: seq<RelayResult>, last: Taking) {
    if got == [] then last == Takes
    else if |got| == 1 then onBatch(s, got[0]).1 == last
    else onBatch(s, got[0]).1 == Takes && TookAllBut(onBatch, onBatch(s, got[0]).0, got[1..], last)
  }

  /** What the sink's last answer was, read off how consuming ended. */
  function LastAnswer(failure: Option<Cause>): (t: Taking) {
    if failure == Some(Panicked) then Panics else if failure == Some(Refused) then Refuses else Takes
  }

  /** `got` is as long as it can be: all of `bs`, or up to the first batch that does not validate, or up to the first
      result the sink does not take; `failure` says which, and is the body's own fault when all were handed on. */
  ghost predicate Accounts<S>(validate: Validator, onBatch: Sink<S>, s: S, bs: seq<bytes>, fault: Option<Cause>,
                              got: seq<RelayResult>, failure: Option<Cause>)
  {
    && ValidatedPrefix(validate, bs, got)
    && TookAllBut(onBatch, s, got, LastAnswer(failure))
    && match failure
       case None => |got| == |bs| && fault == None
       case Some(Invalid(e)) => |got| < |bs| && validate(bs[|got|]) == Err(e)
       case Some(Refused) => got != []
       case Some(Panicked) => got != []
       case Some(cause) => |got| == |bs| && fault == Some(cause)
  }

  /** A fault of the body itself. */
  predicate OfTheBody(cause: Cause) {
    cause.StreamBroke? || cause.ReadBroke? || cause.TooLarge?
  }

  /** Nothing else accounts for the same batches: what is handed on, and why it ends, is determined. */
  lemma {:induction false} AccountsUnique<S>(validate: Validator, onBatch: Sink<S>, s: S, bs: seq<bytes>,
                                             fault: Option<Cause>, got: seq<RelayResult>, failure: Option<Cause>,
                                             got': seq<RelayResult>, failure': Option<Cause>)
    requires fault.Some? ==> OfTheBody(fault.value)
    requires Accounts(validate, onBatch, s, bs, fault, got, failure)
    requires Accounts(validate, onBatch, s, bs, fault, got', failure')
    ensures got == got' && failure == failure'
    decreases |bs|
  {
    if bs != [] && got != [] && got' != [] {
      assert got[0] == got'[0];
      var (s', answer) := onBatch(s, got[0]);
      if answer.Takes? {
        AccountsTail(validate, onBatch, s, bs, fault, got, failure);
        AccountsTail(validate, onBatch, s, bs, fault, got', failure');
        AccountsUnique(validate, onBatch, s', bs[1..], fault, got[1..], failure, got'[1..], failure');
        assert got == [got[0]] + got[1..] && got' == [got'[0]] + got'[1..];
      } else {
        assert |got| == 1 && |got'| == 1;
      }
    }
  }

  /** After a result the sink took, the rest accounts for the rest. */
  lemma {:induction false} AccountsTail<S>(validate: Validator, onBatch: Sink<S>, s: S, bs: seq<bytes>,
                                           fault: Option<Cause>, got: seq<RelayResult>, failure: Option<Cause>)
    requires got != [] && bs != [] && onBatch(s, got[0]).1.Takes?
    ensures Accounts(validate, onBatch, s, bs, fault, got, failure) <==>
            && validate(bs[0]) == Ok(got[0])
            && Accounts(validate, onBatch, onBatch(s, got[0]).0, bs[1..], fault, got[1..], failure)
  {
    assert forall n :: 0 <= n < |bs| - 1 ==> bs[1..][n] == bs[n + 1];
    assert forall n :: 0 <= n < |got| - 1 ==> got[1..][n] == got[n + 1];
    assert forall n :: 0 < n < |bs| ==> bs[n] == bs[1..][n - 1];
    assert forall n :: 0 < n < |got| ==> got[n] == got[1..][n - 1];
  }

  /** Feeding hands on as much as it can, and leaves the sink in the state of having absorbed exactly that. */
  lemma {:induction false} FeedMeaning<S>(validate: Validator, onBatch: Sink<S>, s: S, bs: seq<bytes>)
    ensures var c := Feed(validate, onBatch, s, bs);
            && Accounts(validate, onBatch, s, bs, None, c.got, c.failure)
            && c.state == Absorb(onBatch, s, c.got)
  {
    if bs != [] && validate(bs[0]).Ok? {
      var r := validate(bs[0]).value;
      var (s', answer) := onBatch(s, r);
      if answer.Takes? {
        var rest := Feed(validate, onBatch, s', bs[1..]);
        FeedMeaning(validate, onBatch, s', bs[1..]);
        var got := [r] + rest.got;
        assert got[1..] == rest.got;
        AccountsTail(validate, onBatch, s, bs, None, got, rest.failure);
      }
    }
  }

  /** The batches of a response: those of its stream, or the one it is when read whole within 64 MiB. */
  function BatchesOf(resp: Response): (bs: seq<bytes>) {
    if resp.streaming then CompleteBatches(resp.body)
    else match Whole(resp.body, 67108864)
      case Ok(data) => [data]
      case Err(_) => []
  }

  predicate EndsWell(resp: Response) {
    if resp.streaming then VerdictOf(resp.body) == CleanEnd else Whole(resp.body, 67108864).Ok?
  }

  /** Why a body did not end well, when it did not. */
  function BodyFault(resp: Response): (fault: Option<Cause>)
    ensures fault.None? <==> EndsWell(resp)
    ensures fault.Some? ==> OfTheBody(fault.value)
  {
    if EndsWell(resp) then None
    else if resp.streaming then Some(StreamBroke(VerdictOf(resp.body)))
    else Some(Whole(resp.body, 67108864).error)
  }

  /** Every complete batch of a response is handed on, however the body ends, until one does not validate or is not
      taken; the failure says which, and a streaming body's own break is reported exactly when all were taken. */
  lemma ConsumeMeaning<S>(validate: Validator, onBatch: Sink<S>, s: S, resp: Response)
    ensures var c := Consume(validate, onBatch, s, resp);
            && Accounts(validate, onBatch, s, BatchesOf(resp), BodyFault(resp), c.got, c.failure)
            && c.state == Absorb(onBatch, s, c.got)
            && (c.failure == Some(StreamBroke(VerdictOf(resp.body))) <==>
                  && resp.streaming && VerdictOf(resp.body) != CleanEnd
                  && |c.got| == |BatchesOf(resp)| && TookAllBut(onBatch, s, c.got, Takes))
  {
    var c := Consume(validate, onBatch, s, resp);
    ConsumeAccounts(validate, onBatch, s, resp);
    BrokeIff(validate, onBatch, s, BatchesOf(resp), BodyFault(resp), c.got, c.failure);
  }

  lemma ConsumeAccounts<S>(validate: Validator, onBatch: Sink<S>, s: S, resp: Response)
    ensures var c := Consume(validate, onBatch, s, resp);
            && Accounts(validate, onBatch, s, BatchesOf(resp), BodyFault(resp), c.got, c.failure)
            && c.state == Absorb(onBatch, s, c.got)
  {
    FeedMeaning(validate, onBatch, s, BatchesOf(resp));
  }

  /** The body's own fault is the failure exactly when every batch was handed on and taken. */
  lemma BrokeIff<S>(validate: Validator, onBatch: Sink<S>, s: S, bs: seq<bytes>, fault: Option<Cause>,
                    got: seq<RelayResult>, failure: Option<Cause>)
    requires Accounts(validate, onBatch, s, bs, fault, got, failure) && (fault.Some? ==> OfTheBody(fault.value))
    ensures failure.Some? && OfTheBody(failure.value) <==>
            fault.Some? && |got| == |bs| && TookAllBut(onBatch, s, got, Takes)
    ensures failure.Some? && OfTheBody(failure.value) ==> failure == fault
  {
    if |got| == |bs| && TookAllBut(onBatch, s, got, Takes) {
      LastIsOne(onBatch, s, got, Takes, LastAnswer(failure));
    }
  }

  lemma {:induction false} LastIsOne<S>(onBatch: Sink<S>, s: S, got: seq<RelayResult>, a: Taking, b: Taking)
    requires TookAllBut(onBatch, s, got, a) && TookAllBut(onBatch, s, got, b)
    ensures a == b
    decreases |got|
  {
    if |got| > 1 {
      LastIsOne(onBatch, onBatch(s, got[0]).0, got[1..], a, b);
    }
  }

  /** A whole read succeeds exactly on a body that ends cleanly within the cap, with all its bytes. A body past the cap
      is too large; a break is reported up to the cap, and one byte past it only when it comes with that byte. */
  lemma WholeMeans(body: Reader, cap: nat)
    ensures var all, r := Flat(body.chunks), Whole(body, cap);
            && (r.Ok? <==> body.ending == EndOfStream && |all| <= cap)
            && (r.Ok? ==> r.value == all)
            && (r == Err(TooLarge) <==> |all| > cap && !(|all| == cap + 1 && body.joint && body.ending.Broke?))
            && (r.Err? && r.error.ReadBroke? <==>
                  body.ending.Broke? && (|all| <= cap || (|all| == cap + 1 && body.joint)))
            && (r.Err? ==> r.error == TooLarge || (body.ending.Broke? && r.error == ReadBroke(body.ending.code)))
  {
  }

  /** The concatenation of the reads: every byte of every read, in order. */
  lemma {:induction false} FlatAppend(a: seq<bytes>, b: seq<bytes>)
    ensures Flat(a + b) == Flat(a) + Flat(b)
    ensures forall x: bytes :: Flat([x]) == x
  {
    forall x: bytes
      ensures Flat([x]) == x
    {
      assert [x][1..] == [] && x + [] == x;
    }
    if a == [] {
      assert a + b == b;
    } else {
      assert (a + b)[0] == a[0] && (a + b)[1..] == a[1..] + b;
      FlatAppend(a[1..], b);
      assert a[0] + (Flat(a[1..]) + Flat(b)) == (a[0] + Flat(a[1..])) + Flat(b);
    }
  }

  // ---- which endpoints a run may try ----

  /** The first endpoints of the selection, as many as the limit allows; every failure named by its own step. */
  lemma CandidatesMeans(r: Relayer, q: Request)
    ensures match Candidates(r, q)
            case Ok((session, eps)) =>
              && r.session(q.service) == Ok(session) && r.choose(q.service, session.endpoints, q.rpc).Ok?
              && var ordered := r.choose(q.service, session.endpoints, q.rpc).value;
                 && ordered != [] && eps <= ordered
                 && (if 0 < r.maxAttempts < |ordered| then |eps| == r.maxAttempts else eps == ordered)
            case Err(NoSession(e)) => r.session(q.service) == Err(e)
            case Err(NoSelection(e)) =>
              r.session(q.service).Ok? && r.choose(q.service, r.session(q.service).value.endpoints, q.rpc) == Err(e)
            case Err(NoEndpoint) =>
              r.session(q.service).Ok? && r.choose(q.service, r.session(q.service).value.endpoints, q.rpc) == Ok([])
            case Err(_) => false
  {
  }

  // ---- no splicing ----

  /** Once something was delivered, nothing is sent again and every delivery is the same supplier's. */
  ghost predicate NoSplice(log: seq<Event>) {
    forall i, j :: 0 <= i < j < |log| && log[i].Delivered? ==>
      !log[j].Sent? && (log[j].Delivered? ==> log[j].supplier == log[i].supplier)
  }

  /** Every opened body is closed before anything else is sent. */
  ghost predicate Tidy(log: seq<Event>) {
    forall i :: 0 <= i < |log| && log[i].Opened? ==> ClosedAfter(log, i)
  }

  ghost predicate ClosedAfter(log: seq<Event>, i: nat)
    requires i < |log|
  {
    exists k :: ClosedAt(log, i, k)
  }

  /** The body opened by entry `i` is closed by entry `k`, with nothing sent in between. */
  ghost predicate ClosedAt(log: seq<Event>, i: nat, k: int) {
    && i < k < |log| && log[k] == Closed(log[i].supplier)
    && forall j :: i < j < k ==> !log[j].Sent?
  }

  lemma ClosedShift(a: seq<Event>, b: seq<Event>, c: seq<Event>, i: nat, k: int)
    requires i < |b|
    ensures ClosedAt(b, i, k) ==> ClosedAt(a + b + c, |a| + i, |a| + k)
    ensures ClosedAt(a + b + c, |a| + i, |a| + k) && k < |b| ==> ClosedAt(b, i, k)
  {
    var log := a + b + c;
    assert forall j :: 0 <= j < |b| ==> log[|a| + j] == b[j];
    assert forall j :: |a| <= j < |a| + |b| ==> log[j] == b[j - |a|];
  }

  lemma TidyAppend(a: seq<Event>, b: seq<Event>)
    requires Tidy(a)
    ensures Tidy(a + b) <==> Tidy(b)
  {
    var log := a + b;
    if Tidy(b) {
      forall i | 0 <= i < |log| && log[i].Opened?
        ensures ClosedAfter(log, i)
      {
        ClosedInPart(a, b, i);
      }
    }
    if Tidy(log) {
      forall i | 0 <= i < |b| && b[i].Opened?
        ensures ClosedAfter(b, i)
      {
        ClosedInTail(a, b, i);
      }
    }
  }

  lemma ClosedInTail(a: seq<Event>, b: seq<Event>, i: nat)
    requires i < |b| && b[i].Opened? && Tidy(a + b)
    ensures ClosedAfter(b, i)
  {
    assert a + b + [] == a + b;
    assert (a + b)[|a| + i] == b[i] && ClosedAfter(a + b, |a| + i);
    var k :| ClosedAt(a + b, |a| + i, k);
    ClosedShift(a, b, [], i, k - |a|);
    assert ClosedAt(b, i, k - |a|);
  }

  lemma ClosedInPart(a: seq<Event>, b: seq<Event>, i: nat)
    requires Tidy(a) && Tidy(b) && i < |a + b| && (a + b)[i].Opened?
    ensures ClosedAfter(a + b, i)
  {
    if i < |a| {
      assert ClosedAfter(a, i);
      var k :| ClosedAt(a, i, k);
      ClosedShift([], a, b, i, k);
      assert [] + a + b == a + b;
      assert ClosedAt(a + b, i, k);
    } else {
      assert ClosedAfter(b, i - |a|);
      var k :| ClosedAt(b, i - |a|, k);
      ClosedShift(a, b, [], i - |a|, k);
      assert a + b + [] == a + b;
      assert ClosedAt(a + b, i, |a| + k);
    }
  }

  lemma SettledTidy<S>(supplier: string, c: Consumed<S>)
    ensures Tidy(Settled(supplier, c).log) <==> c.failure != Some(Panicked)
    ensures NoSplice(Settled(supplier, c).log)
  {
    var log, k := Settled(supplier, c).log, 2 + |c.got|;
    assert forall j :: 2 <= j < k ==> log[j] == Deliveries(supplier, c.got)[j - 2];
    assert log[0] == Sent(supplier) && log[1] == Opened(supplier);
    if c.failure == Some(Panicked) {
      assert |log| == k;
      UnwoundShape(log, supplier);
    } else {
      assert log[k] == Closed(supplier) && log[k + 1] == Observed(supplier, c.failure) && |log| == k + 2;
      SettledShape(log, supplier, k);
    }
  }

  /** A log of this shape: sent, opened, delivered from one supplier, closed, observed. */
  lemma SettledShape(log: seq<Event>, supplier: string, k: nat)
    requires 2 <= k && |log| == k + 2 && log[0] == Sent(supplier) && log[1] == Opened(supplier)
    requires forall j :: 2 <= j < k ==> log[j].Delivered? && log[j].supplier == supplier
    requires log[k] == Closed(supplier) && log[k + 1].Observed?
    ensures Tidy(log) && NoSplice(log)
  {
    assert ClosedAt(log, 1, k);
  }

  /** And one cut off after a delivery: its body is never closed. */
  lemma UnwoundShape(log: seq<Event>, supplier: string)
    requires 2 <= |log| && log[0] == Sent(supplier) && log[1] == Opened(supplier)
    requires forall j :: 2 <= j < |log| ==> log[j].Delivered? && log[j].supplier == supplier
    ensures !Tidy(log) && NoSplice(log)
  {
    assert !ClosedAfter(log, 1);
  }

  lemma NoSpliceAppend(a: seq<Event>, b: seq<Event>)
    requires Only(a, IsDelivered) == [] && NoSplice(b)
    ensures NoSplice(a + b)
  {
    NoneDelivered(a);
    var log := a + b;
    forall i, j | 0 <= i < j < |log| && log[i].Delivered?
      ensures !log[j].Sent? && (log[j].Delivered? ==> log[j].supplier == log[i].supplier)
    {
      assert i >= |a| && log[i] == b[i - |a|] && log[j] == b[j - |a|];
    }
  }

  lemma {:induction false} NoneDelivered(log: seq<Event>)
    requires Only(log, IsDelivered) == []
    ensures forall i :: 0 <= i < |log| ==> !log[i].Delivered?
  {
    if log != [] {
      NoneDelivered(log[1..]);
      assert forall i :: 1 <= i < |log| ==> log[i] == log[1..][i - 1];
    }
  }

  /** An attempt that lets the loop go on delivered nothing and left the sink alone. */
  lemma ContinueIsQuiet<S>(r: Relayer, session: Session, q: Request, i: nat, ep: Endpoint, s: S,
                           onBatch: Sink<S>)
    ensures var a := TryStream(r, session, q, i, ep, s, onBatch);
            && (Tidy(a.log) <==> a.next != Stop(Err(Unwound))) && NoSplice(a.log)
            && (a.next.Continue? ==> a.state == s && Only(a.log, IsDelivered) == [])
  {
    if q.rpc in ep.urls && r.sign(session, ep, q.rpc, q.input).Ok? {
      var answer := r.send(i, ep.urls[q.rpc], r.sign(session, ep, q.rpc, q.input).value, q.rpc);
      if answer.Answer? {
        var v: Validator := b => r.validate(ep.supplier, b);
        var c := Consume(v, onBatch, s, answer.resp);
        ConsumeMeaning(v, onBatch, s, answer.resp);
        SettledTidy(ep.supplier, c);
        SettledLog(ep.supplier, c);
      } else {
        OnlyPair(Sent(ep.supplier), Observed(ep.supplier, Some(SendFailed(answer.code))), IsDelivered);
      }
    }
  }

  lemma {:induction false} NoSplicingFrom<S>(r: Relayer, session: Session, q: Request, eps: seq<Endpoint>, i: nat, s: S,
                                             onBatch: Sink<S>, last: LastErr)
    requires i <= |eps|
    ensures var run := StreamFrom(r, session, q, eps, i, s, onBatch, last);
            NoSplice(run.log) && (Tidy(run.log) <==> run.result != Err(Unwound))
    decreases |eps| - i
  {
    if i < |eps| {
      var a := TryStream(r, session, q, i, eps[i], s, onBatch);
      ContinueIsQuiet(r, session, q, i, eps[i], s, onBatch);
      if a.next.Continue? {
        NoSplicingFrom(r, session, q, eps, i + 1, a.state, onBatch, a.next.last);
        var rest := StreamFrom(r, session, q, eps, i + 1, a.state, onBatch, a.next.last);
        TidyAppend(a.log, rest.log);
        NoSpliceAppend(a.log, rest.log);
      }
    }
  }

  /** No RelayStream run sends again after its first delivery or mixes suppliers, and it leaves a body open
      exactly when the callback's panic ended it. */
  lemma NoSplicing<S>(r: Relayer, q: Request, s: S, onBatch: Sink<S>)
    ensures var run := StreamRun(r, q, s, onBatch);
            NoSplice(run.log) && (Tidy(run.log) <==> run.result != Err(Unwound))
  {
    if Candidates(r, q).Ok? {
      var (session, eps) := Candidates(r, q).value;
      NoSplicingFrom(r, session, q, eps, 0, s, onBatch, Nothing);
    }
  }

  // ---- the outcome feed ----

  /** One outcome per send, in order; only the last can be a success, and it is one exactly when the run succeeded.
      A run that a panic unwound (`lost`) reports failures only, and nothing for its last send. */
  ghost predicate Faithful(sends: seq<Event>, seen: seq<Event>, ok: bool, lost: bool)
    requires forall i :: 0 <= i < |seen| ==> seen[i].Observed?
  {
    && |sends| == |seen| + (if lost then 1 else 0)
    && (forall i :: 0 <= i < |seen| ==> seen[i].supplier == sends[i].supplier)
    && (forall i :: 0 <= i < |seen| - 1 ==> seen[i].cause.Some?)
    && (ok <==> seen != [] && seen[|seen| - 1].cause.None?)
    && !(ok && lost)
  }

  ghost predicate FaithfulFeed(log: seq<Event>, ok: bool, lost: bool) {
    Faithful(Only(log, IsSent), Only(log, IsObserved), ok, lost)
  }

  lemma {:induction false} FeedAfterFailure(a: seq<Event>, b: seq<Event>, ok: bool, lost: bool, s: string,
                                            c: Option<Cause>)
    requires Only(a, IsSent) == [] == Only(a, IsObserved) ||
             (Only(a, IsSent) == [Sent(s)] && Only(a, IsObserved) == [Observed(s, c)] && c.Some?)
    requires FaithfulFeed(b, ok, lost)
    ensures FaithfulFeed(a + b, ok, lost)
  {
    OnlyAppend(a, b, IsSent);
    OnlyAppend(a, b, IsObserved);
    FaithfulCons(s, c, Only(b, IsSent), Only(b, IsObserved), ok, lost);
  }

  lemma FaithfulCons(s: string, c: Option<Cause>, sends: seq<Event>, seen: seq<Event>, ok: bool, lost: bool)
    requires forall i :: 0 <= i < |seen| ==> seen[i].Observed?
    requires Faithful(sends, seen, ok, lost)
    ensures [] + sends == sends && [] + seen == seen
    ensures c.Some? ==> Faithful([Sent(s)] + sends, [Observed(s, c)] + seen, ok, lost)
  {
    var a, b := [Sent(s)] + sends, [Observed(s, c)] + seen;
    assert a[0] == Sent(s) && forall i :: 0 < i < |a| ==> a[i] == sends[i - 1];
    assert b[0] == Observed(s, c) && forall i :: 0 < i < |b| ==> b[i] == seen[i - 1];
    if seen != [] {
      assert b[|b| - 1] == seen[|seen| - 1];
    }
  }

  lemma {:induction false} TryFeed<S>(r: Relayer, session: Session, q: Request, i: nat, ep: Endpoint, s: S,
                                      onBatch: Sink<S>) returns (c: Option<Cause>)
    ensures var a := TryStream(r, session, q, i, ep, s, onBatch);
            if Only(a.log, IsSent) == [] then
              Only(a.log, IsObserved) == [] && a.next != Stop(Ok(())) && a.next != Stop(Err(Unwound))
            else
              && Only(a.log, IsSent) == [Sent(ep.supplier)] && Only(a.log, IsObserved) == Reported(ep.supplier, c)
              && (c.None? <==> a.next == Stop(Ok(()))) && (c == Some(Panicked) <==> a.next == Stop(Err(Unwound)))
  {
    c := None;
    if q.rpc in ep.urls && r.sign(session, ep, q.rpc, q.input).Ok? {
      var answer := r.send(i, ep.urls[q.rpc], r.sign(session, ep, q.rpc, q.input).value, q.rpc);
      if answer.Answer? {
        var v: Validator := b => r.validate(ep.supplier, b);
        var done := Consume(v, onBatch, s, answer.resp);
        SettledLog(ep.supplier, done);
        c := done.failure;
      } else {
        c := Some(SendFailed(answer.code));
        OnlyPair(Sent(ep.supplier), Observed(ep.supplier, c), IsSent);
        OnlyPair(Sent(ep.supplier), Observed(ep.supplier, c), IsObserved);
      }
    }
  }

  lemma {:induction false} FeedFrom<S>(r: Relayer, session: Session, q: Request, eps: seq<Endpoint>, i: nat, s: S,
                                       onBatch: Sink<S>, last: LastErr)
    requires i <= |eps|
    ensures var run := StreamFrom(r, session, q, eps, i, s, onBatch, last);
            FaithfulFeed(run.log, run.result.Ok?, run.result == Err(Unwound))
    decreases |eps| - i
  {
    if i < |eps| {
      var a := TryStream(r, session, q, i, eps[i], s, onBatch);
      var c := TryFeed(r, session, q, i, eps[i], s, onBatch);
      if a.next.Continue? {
        FeedFrom(r, session, q, eps, i + 1, a.state, onBatch, a.next.last);
        var rest := StreamFrom(r, session, q, eps, i + 1, a.state, onBatch, a.next.last);
        FeedAfterFailure(a.log, rest.log, rest.result.Ok?, rest.result == Err(Unwound), eps[i].supplier, c);
      }
    }
  }

  lemma StreamFeed<S>(r: Relayer, q: Request, s: S, onBatch: Sink<S>)
    ensures var run := StreamRun(r, q, s, onBatch); FaithfulFeed(run.log, run.result.Ok?, run.result == Err(Unwound))
  {
    if Candidates(r, q).Ok? {
      var (session, eps) := Candidates(r, q).value;
      FeedFrom(r, session, q, eps, 0, s, onBatch, Nothing);
    }
  }

  lemma {:induction false} RelayTryFeed(r: Relayer, session: Session, q: Request, i: nat, ep: Endpoint)
    returns (c: Option<Cause>)
    ensures var a := TryRelay(r, session, q, i, ep);
            var won := a.next.Stop? && a.next.result.Ok?;
            if a.log == [] then Only(a.log, IsSent) == [] == Only(a.log, IsObserved) && !won
            else
              && Only(a.log, IsSent) == [Sent(ep.supplier)] && Only(a.log, IsObserved) == [Observed(ep.supplier, c)]
              && (c.None? <==> won) && (c.None? <==> a.next.Stop?)
  {
    var a := TryRelay(r, session, q, i, ep);
    c := if a.log == [] then None else a.log[1].cause;
    RelayLog(ep.supplier, c);
  }

  lemma {:induction false} RelayFeedFrom(r: Relayer, session: Session, q: Request, eps: seq<Endpoint>, i: nat,
                                         last: LastErr)
    requires i <= |eps|
    ensures var run := RelayFrom(r, session, q, eps, i, last); FaithfulFeed(run.log, run.result.Ok?, false)
    decreases |eps| - i
  {
    if i < |eps| {
      var a := TryRelay(r, session, q, i, eps[i]);
      var c := RelayTryFeed(r, session, q, i, eps[i]);
      if a.next.Continue? {
        RelayFeedFrom(r, session, q, eps, i + 1, a.next.last);
        var rest := RelayFrom(r, session, q, eps, i + 1, a.next.last);
        FeedAfterFailure(a.log, rest.log, rest.result.Ok?, false, eps[i].supplier, c);
      }
    }
  }

  lemma RelayFeed(r: Relayer, q: Request)
    ensures FaithfulFeed(RelayRun(r, q).log, RelayRun(r, q).result.Ok?, false)
  {
    if Candidates(r, q).Ok? {
      var (session, eps) := Candidates(r, q).value;
      RelayFeedFrom(r, session, q, eps, 0, Nothing);
    }
  }

  // ---- RelayStream refines Relay ----

  /** Both loops: the same sends, the same outcomes, the same errors, and the one result delivered once. */
  ghost predicate SameRun<S>(onBatch: Sink<S>, s: S, a: Run<S, ()>, b: Run<(), RelayResult>) {
    && Only(a.log, IsSent) == Only(b.log, IsSent)
    && Only(a.log, IsObserved) == Only(b.log, IsObserved)
    && match b.result
       case Err(e) => a.result == Err(e) && a.state == s && Only(a.log, IsDelivered) == []
       case Ok(x) =>
         && a.result == Ok(()) && a.state == onBatch(s, x).0
         && Only(a.log, IsSent) != []
         && Only(a.log, IsDelivered) == [Delivered(Only(a.log, IsSent)[|Only(a.log, IsSent)| - 1].supplier, x)]
  }

  lemma ConsumeWhole<S>(v: Validator, onBatch: Sink<S>, s: S, resp: Response)
    requires !resp.streaming && forall x :: onBatch(s, x).1.Takes?
    ensures Consume(v, onBatch, s, resp) ==
            match Whole(resp.body, MAX_RESPONSE_BYTES)
            case Err(e) => Consumed(s, [], Some(e))
            case Ok(data) =>
              match v(data)
              case Err(e) => Consumed(s, [], Some(Invalid(e)))
              case Ok(x) => Consumed(onBatch(s, x).0, [x], None)
  {
    match Whole(resp.body, MAX_RESPONSE_BYTES)
    case Err(_) =>
    case Ok(data) =>
      if v(data).Ok? {
        assert Feed(v, onBatch, onBatch(s, v(data).value).0, [data][1..]).got == [];
      }
  }

  /** The attempt a Relay loop makes, given how its exchange ended. */
  lemma {:induction false} RelayLog(supplier: string, cause: Option<Cause>)
    ensures var log := [Sent(supplier), Observed(supplier, cause)];
            && Only(log, IsSent) == [Sent(supplier)] && Only(log, IsObserved) == [Observed(supplier, cause)]
            && Only(log, IsDelivered) == []
  {
    OnlyPair(Sent(supplier), Observed(supplier, cause), IsSent);
    OnlyPair(Sent(supplier), Observed(supplier, cause), IsObserved);
    OnlyPair(Sent(supplier), Observed(supplier, cause), IsDelivered);
  }

  ghost predicate SameStep<S>(onBatch: Sink<S>, s: S, a: Attempt<S, ()>, b: Attempt<(), RelayResult>) {
    && Only(a.log, IsSent) == Only(b.log, IsSent)
    && Only(a.log, IsObserved) == Only(b.log, IsObserved)
    && match b.next
       case Continue(e) => a.next == Continue(e) && a.state == s && Only(a.log, IsDelivered) == []
       case Stop(result) =>
         a.next.Stop? && SameRun(onBatch, s, Run(a.state, a.log, a.next.result), Run((), b.log, result))
  }

  lemma {:induction false} SameAnswer<S>(supplier: string, v: Validator, onBatch: Sink<S>, s: S, resp: Response)
    requires !resp.streaming && forall x :: onBatch(s, x).1.Takes?
    ensures var a := Settled(supplier, Consume(v, onBatch, s, resp));
            match Whole(resp.body, MAX_RESPONSE_BYTES)
            case Err(e) => SameStep(onBatch, s, a, Missed(supplier, e))
            case Ok(data) =>
              match v(data)
              case Err(e) => SameStep(onBatch, s, a, Missed(supplier, Invalid(e)))
              case Ok(x) =>
                SameStep(onBatch, s, a, Attempt((), [Sent(supplier), Observed(supplier, None)], Stop(Ok(x))))
  {
    var c := Consume(v, onBatch, s, resp);
    ConsumeWhole(v, onBatch, s, resp);
    SettledLog(supplier, c);
    RelayLog(supplier, c.failure);
  }

  lemma {:induction false} SameAttempt<S>(r: Relayer, session: Session, q: Request, i: nat, ep: Endpoint, s: S,
                                          onBatch: Sink<S>)
    requires forall url, b :: r.send(i, url, b, q.rpc).Answer? ==> !r.send(i, url, b, q.rpc).resp.streaming
    requires forall x :: onBatch(s, x).1.Takes?
    ensures SameStep(onBatch, s, TryStream(r, session, q, i, ep, s, onBatch), TryRelay(r, session, q, i, ep))
  {
    if q.rpc in ep.urls && r.sign(session, ep, q.rpc, q.input).Ok? {
      var answer := r.send(i, ep.urls[q.rpc], r.sign(session, ep, q.rpc, q.input).value, q.rpc);
      if answer.Answer? {
        var v: Validator := b => r.validate(ep.supplier, b);
        SameAnswer(ep.supplier, v, onBatch, s, answer.resp);
      } else {
        RelayLog(ep.supplier, Some(SendFailed(answer.code)));
      }
    }
  }

  lemma {:induction false} SameFrom<S>(r: Relayer, session: Session, q: Request, eps: seq<Endpoint>, i: nat, s: S,
                                       onBatch: Sink<S>, last: LastErr)
    requires i <= |eps|
    requires forall n, url, b :: r.send(n, url, b, q.rpc).Answer? ==> !r.send(n, url, b, q.rpc).resp.streaming
    requires forall x :: onBatch(s, x).1.Takes?
    ensures SameRun(onBatch, s, StreamFrom(r, session, q, eps, i, s, onBatch, last),
                    RelayFrom(r, session, q, eps, i, last))
    decreases |eps| - i
  {
    if i < |eps| {
      var a, b := TryStream(r, session, q, i, eps[i], s, onBatch), TryRelay(r, session, q, i, eps[i]);
      SameAttempt(r, session, q, i, eps[i], s, onBatch);
      if b.next.Continue? {
        SameFrom(r, session, q, eps, i + 1, s, onBatch, b.next.last);
        var x := StreamFrom(r, session, q, eps, i + 1, s, onBatch, b.next.last);
        var y := RelayFrom(r, session, q, eps, i + 1, b.next.last);
        OnlyAppend(a.log, x.log, IsSent);
        OnlyAppend(a.log, x.log, IsObserved);
        OnlyAppend(a.log, x.log, IsDelivered);
        OnlyAppend(b.log, y.log, IsSent);
        OnlyAppend(b.log, y.log, IsObserved);
      }
    }
  }

  /** On responses that do not stream, and with a sink that accepts, RelayStream is Relay. */
  lemma StreamRefinesRelay<S>(r: Relayer, q: Request, s: S, onBatch: Sink<S>)
    requires r.hasStreamSender
    requires forall n, url, b :: r.send(n, url, b, q.rpc).Answer? ==> !r.send(n, url, b, q.rpc).resp.streaming
    requires forall x :: onBatch(s, x).1.Takes?
    ensures SameRun(onBatch, s, StreamRun(r, q, s, onBatch), RelayRun(r, q))
  {
    if Candidates(r, q).Ok? {
      var (session, eps) := Candidates(r, q).value;
      SameFrom(r, session, q, eps, 0, s, onBatch, Nothing);
    }
  }

  /** The same collaborators, with every response taken as one that does not stream. */
  function AsWhole(r: Relayer): (w: Relayer) {
    r.(hasStreamSender := true,
       send := (i: nat, url, signed, rpc) => match r.send(i, url, signed, rpc)
                                             case SendError(e) => SendError(e)
                                             case Answer(resp) => Answer(resp.(streaming := false)))
  }

  /** Relay never looks at whether a response streams. */
  lemma {:induction false} RelayTakesWhole(r: Relayer, session: Session, q: Request, eps: seq<Endpoint>, i: nat,
                                           last: LastErr)
    requires i <= |eps|
    ensures RelayFrom(AsWhole(r), session, q, eps, i, last) == RelayFrom(r, session, q, eps, i, last)
    decreases |eps| - i
  {
    if i < |eps| {
      var a := TryRelay(r, session, q, i, eps[i]);
      assert TryRelay(AsWhole(r), session, q, i, eps[i]) == a;
      if a.next.Continue? {
        RelayTakesWhole(r, session, q, eps, i + 1, a.next.last);
      }
    }
  }

  /** Whatever its collaborators answer, Relay is RelayStream over the same answers read whole, into a sink that
      accepts. */
  lemma RelayIsWholeStream<S>(r: Relayer, q: Request, s: S, onBatch: Sink<S>)
    requires forall x :: onBatch(s, x).1.Takes?
    ensures SameRun(onBatch, s, StreamRun(AsWhole(r), q, s, onBatch), RelayRun(r, q))
  {
    assert Candidates(AsWhole(r), q) == Candidates(r, q);
    if Candidates(r, q).Ok? {
      RelayTakesWhole(r, Candidates(r, q).value.0, q, Candidates(r, q).value.1, 0, Nothing);
    }
    StreamRefinesRelay(AsWhole(r), q, s, onBatch);
  }
}
