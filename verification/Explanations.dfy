/** What every RelayStream run did, told by its collaborators' answers alone. */
module Explanations {
  import opened Domain
  import opened Stream
  import opened Relay
  import opened RelayProofs

  /** One run of the failover loop: its collaborators, the endpoints to try, and the sink it feeds. */
  datatype Loop<!S> = Loop(r: Relayer, session: Session, q: Request, eps: seq<Endpoint>, s: S, onBatch: Sink<S>)

  ghost predicate Signs<S>(l: Loop<S>, k: nat)
    requires k < |l.eps|
  {
    l.q.rpc in l.eps[k].urls && l.r.sign(l.session, l.eps[k], l.q.rpc, l.q.input).Ok?
  }

  /** What the supplier of endpoint `k` answers to the request signed for it, at the URL it serves the type on. */
  function AnswerOf<S>(l: Loop<S>, k: nat): (a: SendAnswer)
    requires k < |l.eps| && Signs(l, k)
  {
    l.r.send(k, l.eps[k].urls[l.q.rpc], l.r.sign(l.session, l.eps[k], l.q.rpc, l.q.input).value, l.q.rpc)
  }

  ghost predicate Opens<S>(l: Loop<S>, k: nat, resp: Response)
    requires k < |l.eps|
  {
    Signs(l, k) && AnswerOf(l, k) == Answer(resp)
  }

  function Checker<S>(l: Loop<S>, k: nat): Validator
    requires k < |l.eps|
  {
    b => l.r.validate(l.eps[k].supplier, b)
  }

  /** `got` and `failure` are what the response of attempt `k` comes to for this sink. */
  ghost predicate Yields<S>(l: Loop<S>, k: nat, resp: Response, got: seq<RelayResult>, failure: Option<Cause>)
    requires k < |l.eps|
  {
    Opens(l, k, resp) && Accounts(Checker(l, k), l.onBatch, l.s, BatchesOf(resp), BodyFault(resp), got, failure)
  }

  /** Attempt `k` had nothing to hand on, for this reason: no URL, a failed send, or a response without a first
      result. */
  ghost predicate Barren<S>(l: Loop<S>, k: nat, why: LastErr)
    requires k < |l.eps|
  {
    match why
    case Nothing => false
    case NoURL => l.q.rpc !in l.eps[k].urls
    case Attempted(cause) =>
      || (Signs(l, k) && AnswerOf(l, k).SendError? && cause == SendFailed(AnswerOf(l, k).code))
      || (exists resp :: Yields(l, k, resp, [], Some(cause)))
  }

  /** Attempts `i` to `k - 1` were barren, one reason each. */
  ghost predicate AllBarren<S>(l: Loop<S>, i: nat, k: nat, whys: seq<LastErr>) {
    i <= k <= |l.eps| && |whys| == k - i && forall n :: 0 <= n < |whys| ==> Barren(l, i + n, whys[n])
  }

  /** One send for every endpoint with a URL. */
  function Asked(eps: seq<Endpoint>, rpc: RPCType): (log: seq<Event>)
    ensures |log| <= |eps|
  {
    if eps == [] then []
    else (if rpc in eps[0].urls then [Sent(eps[0].supplier)] else []) + Asked(eps[1..], rpc)
  }

  /** One failed outcome for every reason that is an attempt. */
  function Outcomes(eps: seq<Endpoint>, whys: seq<LastErr>): (log: seq<Event>)
    requires |eps| == |whys|
  {
    if eps == [] then []
    else (if whys[0].Attempted? then [Observed(eps[0].supplier, Some(whys[0].cause))] else [])
         + Outcomes(eps[1..], whys[1..])
  }

  /** How a run ends with an attempt that stops it. */
  function ResultOf(failure: Option<Cause>): (r: Result<(), Failure>) {
    match failure
    case None => Ok(())
    case Some(Panicked) => Err(Unwound)
    case Some(cause) => Err(AfterDelivery(cause))
  }

  /** The callback's last answer, read off how the run ended. */
  function LastOf(result: Result<(), Failure>): (t: Taking) {
    match result
    case Ok(_) => Takes
    case Err(Unwound) => Panics
    case Err(AfterDelivery(cause)) => if cause.Refused? then Refuses else Takes
    case Err(_) => Takes
  }

  /** From attempt `i` on: barren attempts, then attempt `k`, whose response stopped the run. It was all handed on, or
      something of it was; the run delivered exactly that, and the sink absorbed exactly that. */
  ghost predicate Explains<S>(l: Loop<S>, i: nat, run: Run<S, ()>, k: nat, whys: seq<LastErr>, resp: Response,
                              got: seq<RelayResult>, failure: Option<Cause>)
  {
    && k < |l.eps| && AllBarren(l, i, k, whys) && Yields(l, k, resp, got, failure)
    && (failure.None? || got != [])
    && run.result == ResultOf(failure) && run.state == Absorb(l.onBatch, l.s, got)
    && Only(run.log, IsDelivered) == Deliveries(l.eps[k].supplier, got)
    && Only(run.log, IsSent) == Asked(l.eps[i..k], l.q.rpc) + [Sent(l.eps[k].supplier)]
    && Only(run.log, IsObserved) == Outcomes(l.eps[i..k], whys) + Reported(l.eps[k].supplier, failure)
  }

  /** From attempt `i` on: barren attempts, to the last endpoint or to one whose request could not be signed. */
  ghost predicate Fruitless<S>(l: Loop<S>, i: nat, last: LastErr, run: Run<S, ()>, k: nat, whys: seq<LastErr>) {
    && AllBarren(l, i, k, whys) && run.state == l.s && Only(run.log, IsDelivered) == []
    && Only(run.log, IsSent) == Asked(l.eps[i..k], l.q.rpc)
    && Only(run.log, IsObserved) == Outcomes(l.eps[i..k], whys)
    && if k == |l.eps| then
         run.result == Err(AllFailed(|l.eps|, if whys == [] then last else whys[|whys| - 1]))
       else
         && l.q.rpc in l.eps[k].urls && l.r.sign(l.session, l.eps[k], l.q.rpc, l.q.input).Err?
         && run.result == Err(SignFailed(l.r.sign(l.session, l.eps[k], l.q.rpc, l.q.input).error))
  }

  ghost predicate Explained<S>(l: Loop<S>, i: nat, last: LastErr, run: Run<S, ()>) {
    || (exists k, whys :: Fruitless(l, i, last, run, k, whys))
    || (exists k, whys, resp, got, failure :: Explains(l, i, run, k, whys, resp, got, failure))
  }

  // ---- one attempt ----

  /** An attempt after which the loop goes on was barren, and its log says so. */
  lemma {:induction false} TryBarren<S>(l: Loop<S>, i: nat)
    requires i < |l.eps|
    ensures var a := TryStream(l.r, l.session, l.q, i, l.eps[i], l.s, l.onBatch);
            a.next.Continue? ==>
              && a.state == l.s && Barren(l, i, a.next.last)
              && Only(a.log, IsDelivered) == []
              && Only(a.log, IsSent) == Asked([l.eps[i]], l.q.rpc)
              && Only(a.log, IsObserved) == Outcomes([l.eps[i]], [a.next.last])
  {
    var ep := l.eps[i];
    ContinueIsQuiet(l.r, l.session, l.q, i, ep, l.s, l.onBatch);
    AskedOne(ep, l.q.rpc);
    if Signs(l, i) {
      match AnswerOf(l, i)
      case SendError(e) =>
        RelayLog(ep.supplier, Some(SendFailed(e)));
        OutcomesOne(ep, Attempted(SendFailed(e)));
      case Answer(resp) =>
        var c := Consume(Checker(l, i), l.onBatch, l.s, resp);
        ConsumeMeaning(Checker(l, i), l.onBatch, l.s, resp);
        SettledLog(ep.supplier, c);
        if Settled(ep.supplier, c).next.Continue? {
          assert Yields(l, i, resp, [], c.failure);
          OutcomesOne(ep, Attempted(c.failure.value));
        }
    } else {
      OutcomesOne(ep, NoURL);
    }
  }

  /** And an attempt that is barren lets the loop go on, for that reason. */
  lemma {:induction false} BarrenGoesOn<S>(l: Loop<S>, k: nat, why: LastErr)
    requires k < |l.eps| && Barren(l, k, why)
    ensures TryStream(l.r, l.session, l.q, k, l.eps[k], l.s, l.onBatch).next == Continue(why)
  {
    if why.Attempted? && AnswerOf(l, k).Answer? {
      var resp :| Yields(l, k, resp, [], Some(why.cause));
      YieldsIsConsume(l, k, resp, [], Some(why.cause));
    }
  }

  /** What a response yields is what consuming it gives: nothing else accounts for it. */
  lemma YieldsIsConsume<S>(l: Loop<S>, k: nat, resp: Response, got: seq<RelayResult>, failure: Option<Cause>)
    requires k < |l.eps| && Yields(l, k, resp, got, failure)
    ensures var c := Consume(Checker(l, k), l.onBatch, l.s, resp); c.got == got && c.failure == failure
  {
    var c := Consume(Checker(l, k), l.onBatch, l.s, resp);
    ConsumeMeaning(Checker(l, k), l.onBatch, l.s, resp);
    AccountsUnique(Checker(l, k), l.onBatch, l.s, BatchesOf(resp), BodyFault(resp), got, failure, c.got, c.failure);
  }

  lemma AskedOne(ep: Endpoint, rpc: RPCType)
    ensures Asked([ep], rpc) == if rpc in ep.urls then [Sent(ep.supplier)] else []
  {
    assert [ep][1..] == [];
  }

  lemma OutcomesOne(ep: Endpoint, why: LastErr)
    ensures Outcomes([ep], [why]) == if why.Attempted? then [Observed(ep.supplier, Some(why.cause))] else []
  {
    assert [ep][1..] == [] && [why][1..] == [];
  }

  /** An attempt that stops the loop explains the run it is. */
  lemma {:induction false} TryStops<S>(l: Loop<S>, i: nat, last: LastErr)
    requires i < |l.eps|
    ensures var a := TryStream(l.r, l.session, l.q, i, l.eps[i], l.s, l.onBatch);
            a.next.Stop? ==> Explained(l, i, last, Run(a.state, a.log, a.next.result))
  {
    if Signs(l, i) {
      if AnswerOf(l, i).Answer? {
        AnswerStops(l, i, AnswerOf(l, i).resp);
      }
    } else if l.q.rpc in l.eps[i].urls {
      SigningStopsRun(l, i, last);
    }
  }

  lemma {:induction false} SigningStopsRun<S>(l: Loop<S>, i: nat, last: LastErr)
    requires i < |l.eps| && l.q.rpc in l.eps[i].urls && !Signs(l, i)
    ensures var a := TryStream(l.r, l.session, l.q, i, l.eps[i], l.s, l.onBatch);
            a.next.Stop? && Fruitless(l, i, last, Run(a.state, a.log, a.next.result), i, [])
  {
    assert l.eps[i..i] == [];
  }

  lemma {:induction false} AnswerStops<S>(l: Loop<S>, i: nat, resp: Response)
    requires i < |l.eps| && Opens(l, i, resp)
    ensures var a := TryStream(l.r, l.session, l.q, i, l.eps[i], l.s, l.onBatch);
            a.next.Stop? ==>
              exists k, whys, r, got, failure ::
                Explains(l, i, Run(a.state, a.log, a.next.result), k, whys, r, got, failure)
  {
    var c := Consume(Checker(l, i), l.onBatch, l.s, resp);
    var a := Settled(l.eps[i].supplier, c);
    ConsumeMeaning(Checker(l, i), l.onBatch, l.s, resp);
    SettledLog(l.eps[i].supplier, c);
    assert TryStream(l.r, l.session, l.q, i, l.eps[i], l.s, l.onBatch) == a;
    if a.next.Stop? {
      Stopped(l, i, Run(a.state, a.log, a.next.result), resp, c);
    }
  }

  lemma Stopped<S>(l: Loop<S>, i: nat, run: Run<S, ()>, resp: Response, c: Consumed<S>)
    requires i < |l.eps| && Yields(l, i, resp, c.got, c.failure) && (c.failure.None? || c.got != [])
    requires run.result == ResultOf(c.failure) && run.state == Absorb(l.onBatch, l.s, c.got)
    requires Only(run.log, IsDelivered) == Deliveries(l.eps[i].supplier, c.got)
    requires Only(run.log, IsSent) == [Sent(l.eps[i].supplier)]
    requires Only(run.log, IsObserved) == Reported(l.eps[i].supplier, c.failure)
    ensures exists k, whys, r, got, failure :: Explains(l, i, run, k, whys, r, got, failure)
  {
    assert l.eps[i..i] == [];
    assert [] + [Sent(l.eps[i].supplier)] == [Sent(l.eps[i].supplier)];
    assert [] + Reported(l.eps[i].supplier, c.failure) == Reported(l.eps[i].supplier, c.failure);
    assert Explains(l, i, run, i, [], resp, c.got, c.failure);
  }

  // ---- one more barren attempt in front ----

  /** The projections of a log with one barren attempt in front. */
  ghost predicate InFront<S>(l: Loop<S>, i: nat, why: LastErr, rest: Run<S, ()>, run: Run<S, ()>) {
    && i < |l.eps| && Barren(l, i, why) && run.state == rest.state && run.result == rest.result
    && Only(run.log, IsDelivered) == Only(rest.log, IsDelivered)
    && Only(run.log, IsSent) == Asked([l.eps[i]], l.q.rpc) + Only(rest.log, IsSent)
    && Only(run.log, IsObserved) == Outcomes([l.eps[i]], [why]) + Only(rest.log, IsObserved)
  }

  lemma {:induction false} BarrenInFront<S>(l: Loop<S>, i: nat, k: nat, why: LastErr, whys: seq<LastErr>)
    requires i < |l.eps| && Barren(l, i, why) && AllBarren(l, i + 1, k, whys)
    ensures AllBarren(l, i, k, [why] + whys)
    ensures Asked(l.eps[i..k], l.q.rpc) == Asked([l.eps[i]], l.q.rpc) + Asked(l.eps[i + 1..k], l.q.rpc)
    ensures Outcomes(l.eps[i..k], [why] + whys) == Outcomes([l.eps[i]], [why]) + Outcomes(l.eps[i + 1..k], whys)
  {
    var part, all := l.eps[i..k], [why] + whys;
    assert part[0] == l.eps[i] && part[1..] == l.eps[i + 1..k];
    assert all[0] == why && all[1..] == whys;
    AskedOne(l.eps[i], l.q.rpc);
    OutcomesOne(l.eps[i], why);
    forall n | 0 <= n < |all|
      ensures Barren(l, i + n, all[n])
    {
      if n > 0 { assert all[n] == whys[n - 1] && Barren(l, i + 1 + (n - 1), whys[n - 1]); }
    }
  }

  lemma {:induction false} FruitlessInFront<S>(l: Loop<S>, i: nat, last: LastErr, why: LastErr, rest: Run<S, ()>,
                                               run: Run<S, ()>, k: nat, whys: seq<LastErr>)
    requires InFront(l, i, why, rest, run) && Fruitless(l, i + 1, why, rest, k, whys)
    ensures Fruitless(l, i, last, run, k, [why] + whys)
  {
    BarrenInFront(l, i, k, why, whys);
    var all := [why] + whys;
    assert all[|all| - 1] == if whys == [] then why else whys[|whys| - 1];
  }

  lemma {:induction false} ExplainsInFront<S>(l: Loop<S>, i: nat, why: LastErr, rest: Run<S, ()>, run: Run<S, ()>,
                                              k: nat, whys: seq<LastErr>, resp: Response, got: seq<RelayResult>,
                                              failure: Option<Cause>)
    requires InFront(l, i, why, rest, run) && Explains(l, i + 1, rest, k, whys, resp, got, failure)
    ensures Explains(l, i, run, k, [why] + whys, resp, got, failure)
  {
    BarrenInFront(l, i, k, why, whys);
    LogAssoc(Asked([l.eps[i]], l.q.rpc), Asked(l.eps[i + 1..k], l.q.rpc), [Sent(l.eps[k].supplier)]);
    LogAssoc(Outcomes([l.eps[i]], [why]), Outcomes(l.eps[i + 1..k], whys), Reported(l.eps[k].supplier, failure));
  }

  lemma {:induction false} ExplainedInFront<S>(l: Loop<S>, i: nat, last: LastErr, why: LastErr, rest: Run<S, ()>,
                                               run: Run<S, ()>)
    requires InFront(l, i, why, rest, run) && Explained(l, i + 1, why, rest)
    ensures Explained(l, i, last, run)
  {
    var next := i + 1;
    if k, whys :| Fruitless(l, next, why, rest, k, whys) {
      FruitlessInFront(l, i, last, why, rest, run, k, whys);
    } else {
      var k, whys, resp, got, failure :| Explains(l, next, rest, k, whys, resp, got, failure);
      ExplainsInFront(l, i, why, rest, run, k, whys, resp, got, failure);
    }
  }

  lemma {:induction false} AttemptInFront<S>(l: Loop<S>, i: nat, rest: Run<S, ()>)
    requires i < |l.eps| && TryStream(l.r, l.session, l.q, i, l.eps[i], l.s, l.onBatch).next.Continue?
    ensures var a := TryStream(l.r, l.session, l.q, i, l.eps[i], l.s, l.onBatch);
            InFront(l, i, a.next.last, rest, rest.(log := a.log + rest.log))
  {
    var a := TryStream(l.r, l.session, l.q, i, l.eps[i], l.s, l.onBatch);
    TryBarren(l, i);
    OnlyAppend(a.log, rest.log, IsDelivered);
    OnlyAppend(a.log, rest.log, IsSent);
    OnlyAppend(a.log, rest.log, IsObserved);
    assert [] + Only(rest.log, IsDelivered) == Only(rest.log, IsDelivered);
  }

  lemma {:induction false} ExplainedFrom<S>(l: Loop<S>, i: nat, last: LastErr)
    requires i <= |l.eps|
    ensures Explained(l, i, last, StreamFrom(l.r, l.session, l.q, l.eps, i, l.s, l.onBatch, last))
    decreases |l.eps| - i
  {
    var run := StreamFrom(l.r, l.session, l.q, l.eps, i, l.s, l.onBatch, last);
    if i == |l.eps| {
      assert l.eps[i..i] == [];
      assert Fruitless(l, i, last, run, i, []);
    } else {
      var a := TryStream(l.r, l.session, l.q, i, l.eps[i], l.s, l.onBatch);
      TryStops(l, i, last);
      if a.next.Continue? {
        TryBarren(l, i);
        ExplainedFrom(l, i + 1, a.next.last);
        var rest := StreamFrom(l.r, l.session, l.q, l.eps, i + 1, l.s, l.onBatch, a.next.last);
        AttemptInFront(l, i, rest);
        ExplainedInFront(l, i, last, a.next.last, rest, run);
      }
    }
  }

  ghost function LoopOf<S>(r: Relayer, q: Request, s: S, onBatch: Sink<S>): (l: Loop<S>)
    requires Candidates(r, q).Ok?
  {
    Loop(r, Candidates(r, q).value.0, q, Candidates(r, q).value.1, s, onBatch)
  }

  /** Every RelayStream run: barren attempts, then one response that all deliveries come from, or none. */
  lemma DeliveredByOne<S>(r: Relayer, q: Request, s: S, onBatch: Sink<S>)
    ensures var run := StreamRun(r, q, s, onBatch);
            if !r.hasStreamSender then run == Run(s, [], Err(NoStreamSender))
            else if Candidates(r, q).Err? then run == Run(s, [], Err(Candidates(r, q).error))
            else Explained(LoopOf(r, q, s, onBatch), 0, Nothing, run)
  {
    if Candidates(r, q).Ok? {
      ExplainedFrom(LoopOf(r, q, s, onBatch), 0, Nothing);
    }
  }

  /** No run of RelayStream sends more often than the configured limit, or than there are selected endpoints. */
  lemma SendsBounded<S>(r: Relayer, q: Request, s: S, onBatch: Sink<S>)
    ensures var sends := |Only(StreamRun(r, q, s, onBatch).log, IsSent)|;
            && (r.maxAttempts > 0 ==> sends <= r.maxAttempts)
            && (sends > 0 ==> Candidates(r, q).Ok? && sends <= |Candidates(r, q).value.1|)
  {
    DeliveredByOne(r, q, s, onBatch);
    CandidatesMeans(r, q);
  }

  /** Nor does any run of Relay. */
  lemma RelaySendsBounded(r: Relayer, q: Request)
    ensures var sends := |Only(RelayRun(r, q).log, IsSent)|;
            && (r.maxAttempts > 0 ==> sends <= r.maxAttempts)
            && (sends > 0 ==> Candidates(r, q).Ok? && sends <= |Candidates(r, q).value.1|)
  {
    var accepts := (s: (), x: RelayResult) => (s, Takes);
    RelayIsWholeStream(r, q, (), accepts);
    SendsBounded(AsWhole(r), q, (), accepts);
    assert Candidates(AsWhole(r), q) == Candidates(r, q);
  }
}
