/** The relay counters of the admin endpoint, fed by the outcome feed. */
module Health {
  import opened Domain
  import opened Relay
  import opened Stream
  import opened RelayProofs

  datatype Counters = Counters(attempts: nat, successes: nat, failures: nat)

  const ZERO := Counters(0, 0, 0)

  function Bump(c: Counters, success: bool): (r: Counters) {
    if success then Counters(c.attempts + 1, c.successes + 1, c.failures)
    else Counters(c.attempts + 1, c.successes, c.failures + 1)
  }

  /** The counters of one service after a list of outcomes. */
  function Tally(c: Counters, feed: seq<Event>): (r: Counters)
    requires forall i :: 0 <= i < |feed| ==> feed[i].Observed?
    decreases |feed|
  {
    if feed == [] then c else Tally(Bump(c, feed[0].cause.None?), feed[1..])
  }

  class Stats {
    var byService: map<string, Counters>

    ghost function Of(service: string): (c: Counters)
      reads this
    {
      if service in byService then byService[service] else ZERO
    }

    /** Every service's attempts are its successes plus its failures. */
    ghost predicate Valid()
      reads this
    {
      forall s :: s in byService ==> byService[s].attempts == byService[s].successes + byService[s].failures
    }

    constructor ()
      ensures Valid() && byService == map[]
    {
      byService := map[];
    }

    method Observe(service: string, success: bool)
      requires Valid()
      modifies this
      ensures Valid()
      ensures byService == old(byService)[service := Bump(old(Of(service)), success)]
    {
      var c := if service in byService then byService[service] else ZERO;
      c := c.(attempts := c.attempts + 1);
      if success {
        c := c.(successes := c.successes + 1);
      } else {
        c := c.(failures := c.failures + 1);
      }
      byService := byService[service := c];
    }

    /** The observer's side of one run: each outcome in the log, as it happened. */
    method ObserveRun(service: string, log: seq<Event>)
      requires Valid()
      modifies this
      ensures Valid()
      ensures Of(service) == Tally(old(Of(service)), Only(log, IsObserved))
      ensures forall other :: other != service ==> Of(other) == old(Of(other))
    {
      for i := 0 to |log|
        invariant Valid()
        invariant Tally(Of(service), Only(log[i..], IsObserved)) == Tally(old(Of(service)), Only(log, IsObserved))
        invariant forall other :: other != service ==> Of(other) == old(Of(other))
      {
        assert log[i..][0] == log[i] && log[i..][1..] == log[i + 1..];
        if log[i].Observed? {
          assert Only(log[i..], IsObserved)[1..] == Only(log[i + 1..], IsObserved);
          Observe(service, log[i].cause.None?);
        } else {
          assert Only(log[i..], IsObserved) == Only(log[i + 1..], IsObserved);
        }
      }
    }
  }

  lemma {:induction false} TallyFaithful(c: Counters, sends: seq<Event>, seen: seq<Event>, ok: bool, lost: bool)
    requires forall i :: 0 <= i < |seen| ==> seen[i].Observed?
    requires Faithful(sends, seen, ok, lost)
    ensures var wins := if ok then 1 else 0;
            var t := Tally(c, seen);
            && t.attempts + (if lost then 1 else 0) == c.attempts + |sends|
            && t.successes == c.successes + wins
            && t.failures + wins + (if lost then 1 else 0) == c.failures + |sends|
    decreases |seen|
  {
    if |seen| > 1 {
      TallyFaithful(Bump(c, false), sends[1..], seen[1..], ok, lost);
    } else if |seen| == 1 {
      assert Tally(Bump(c, seen[0].cause.None?), seen[1..]) == Bump(c, seen[0].cause.None?);
    }
  }

  /** A log adds one attempt per send, one success exactly when its run succeeded, and a failure for every other send;
      only the send whose delivery made the callback panic goes uncounted. */
  ghost predicate Counted(log: seq<Event>, ok: bool, lost: bool, c: Counters) {
    var sends, wins := |Only(log, IsSent)| - (if lost then 1 else 0), if ok then 1 else 0;
    var t := Tally(c, Only(log, IsObserved));
    t.attempts == c.attempts + sends && t.successes == c.successes + wins && t.failures + wins == c.failures + sends
  }

  /** Both loops, whatever their collaborators answer. */
  lemma RunCounts<S>(r: Relayer, q: Request, s: S, onBatch: Sink<S>, c: Counters)
    ensures var run := StreamRun(r, q, s, onBatch); Counted(run.log, run.result.Ok?, run.result == Err(Unwound), c)
    ensures Counted(RelayRun(r, q).log, RelayRun(r, q).result.Ok?, false, c)
  {
    var run, once := StreamRun(r, q, s, onBatch), RelayRun(r, q);
    StreamFeed(r, q, s, onBatch);
    RelayFeed(r, q);
    TallyFaithful(c, Only(run.log, IsSent), Only(run.log, IsObserved), run.result.Ok?, run.result == Err(Unwound));
    TallyFaithful(c, Only(once.log, IsSent), Only(once.log, IsObserved), once.result.Ok?, false);
  }
}
