/** Which suppliers a relay may pay: the selectors, and what every run does with their answer. */
module Selection {
  import opened Domain
  import opened Stream
  import opened Relay
  import opened Suppliers

  predicate Supports(ep: Endpoint, rpc: RPCType) {
    rpc in ep.urls
  }

  /** `out` is, up to order, the endpoints of `eps` that satisfy `p`. */
  ghost predicate ExactlyThose(out: seq<Endpoint>, eps: seq<Endpoint>, p: Endpoint -> bool) {
    forall ep :: multiset(out)[ep] == if p(ep) then multiset(eps)[ep] else 0
  }

  lemma ExactlyThoseStep(out: seq<Endpoint>, eps: seq<Endpoint>, i: nat, p: Endpoint -> bool)
    requires i < |eps| && ExactlyThose(out, eps[..i], p)
    ensures ExactlyThose(if p(eps[i]) then out + [eps[i]] else out, eps[..i + 1], p)
  {
    assert eps[..i + 1] == eps[..i] + [eps[i]];
    assert multiset(eps[..i + 1]) == multiset(eps[..i]) + multiset{eps[i]};
    assert multiset(out + [eps[i]]) == multiset(out) + multiset{eps[i]};
  }

  lemma ExactlyThoseCompose(out: seq<Endpoint>, kept: seq<Endpoint>, eps: seq<Endpoint>,
                            p: Endpoint -> bool, q: Endpoint -> bool, both: Endpoint -> bool)
    requires ExactlyThose(kept, eps, p) && ExactlyThose(out, kept, q)
    requires forall ep :: both(ep) <==> p(ep) && q(ep)
    ensures ExactlyThose(out, eps, both)
  {
    forall ep
      ensures multiset(out)[ep] == if both(ep) then multiset(eps)[ep] else 0
    {
      assert multiset(kept)[ep] == if p(ep) then multiset(eps)[ep] else 0;
    }
  }

  lemma ExactlyThoseMembers(out: seq<Endpoint>, eps: seq<Endpoint>, p: Endpoint -> bool)
    requires ExactlyThose(out, eps, p)
    ensures forall ep :: ep in out <==> ep in eps && p(ep)
    ensures out == [] <==> forall ep :: ep in eps ==> !p(ep)
  {
    forall ep
      ensures ep in out <==> ep in eps && p(ep)
    {
      assert ep in out <==> ep in multiset(out);
      assert ep in eps <==> ep in multiset(eps);
      assert multiset(out)[ep] == if p(ep) then multiset(eps)[ep] else 0;
    }
    if out != [] {
      assert out[0] in out;
    }
  }

  method KeepOnly(eps: seq<Endpoint>, p: Endpoint -> bool) returns (kept: seq<Endpoint>)
    ensures ExactlyThose(kept, eps, p)
  {
    kept := [];
    for i := 0 to |eps|
      invariant ExactlyThose(kept, eps[..i], p)
    {
      ExactlyThoseStep(kept, eps, i, p);
      if p(eps[i]) {
        kept := kept + [eps[i]];
      }
    }
    assert eps[..|eps|] == eps;
  }

  /** Fisher-Yates in place, with every choice left open. */
  method Shuffle(a: array<Endpoint>)
    modifies a
    ensures multiset(a[..]) == multiset(old(a[..]))
  {
    var i := a.Length;
    while i > 1
      invariant 0 <= i <= a.Length
      invariant multiset(a[..]) == multiset(old(a[..]))
    {
      i := i - 1;
      var j :| 0 <= j <= i;
      a[i], a[j] := a[j], a[i];
    }
  }

  method RandomSelect(eps: seq<Endpoint>, rpc: RPCType) returns (r: Option<seq<Endpoint>>)
    ensures r.Some? <==> exists ep :: ep in eps && Supports(ep, rpc)
    ensures r.Some? ==> ExactlyThose(r.value, eps, ep => Supports(ep, rpc))
  {
    var supported := KeepOnly(eps, ep => Supports(ep, rpc));
    ExactlyThoseMembers(supported, eps, ep => Supports(ep, rpc));
    if supported == [] {
      return None;
    }
    var a := new Endpoint[|supported|](i requires 0 <= i < |supported| => supported[i]);
    assert a[..] == supported;
    Shuffle(a);
    return Some(a[..]);
  }

  /** Filter around Random: the configured and the requested policy must both permit an endpoint. */
  method FilterSelect(net: Net, configured: Policy, requested: Policy, eps: seq<Endpoint>, rpc: RPCType)
    returns (r: Option<seq<Endpoint>>)
    ensures r.Some? <==> exists ep :: ep in eps && Eligible(net, configured, requested, ep, rpc)
    ensures r.Some? ==> ExactlyThose(r.value, eps, ep => Eligible(net, configured, requested, ep, rpc))
  {
    var both := ep => PermitsEndpoint(net, configured, ep, rpc) && PermitsEndpoint(net, requested, ep, rpc);
    ghost var eligible := ep => Eligible(net, configured, requested, ep, rpc);
    var kept := eps;
    if !Empty(configured) || !Empty(requested) {
      kept := KeepOnly(eps, both);
      ExactlyThoseMembers(kept, eps, both);
      if kept == [] {
        return None;
      }
    }
    assert ExactlyThose(kept, eps, both);
    ExactlyThoseMembers(kept, eps, both);
    r := RandomSelect(kept, rpc);
    if r.Some? {
      ExactlyThoseCompose(r.value, kept, eps, both, ep => Supports(ep, rpc), eligible);
    }
  }

  predicate Eligible(net: Net, configured: Policy, requested: Policy, ep: Endpoint, rpc: RPCType) {
    Supports(ep, rpc) && PermitsEndpoint(net, configured, ep, rpc) && PermitsEndpoint(net, requested, ep, rpc)
  }

  // ---- from a request's headers to its suppliers ----

  datatype Choice = BadRequest | NoneLeft | Chosen(eps: seq<Endpoint>)

  /** Supports the type, passes the operator's policy and is asked for by the request's own headers. */
  ghost predicate Payable(net: Net, configured: Policy, h: Header, ep: Endpoint, rpc: RPCType) {
    Supports(ep, rpc) && PermitsEndpoint(net, configured, ep, rpc) && Admitted(net, h, ROUTING, ep, rpc)
  }

  method ChooseForRequest(h: HeaderMap, net: Net, policies: map<string, Policy>, service: string,
                          eps: seq<Endpoint>, rpc: RPCType) returns (c: Choice)
    modifies h
    ensures h.m == Stripped(old(h.m), ROUTING)
    ensures c.BadRequest? <==> Malformed(old(h.m), ROUTING)
    ensures !c.BadRequest? ==>
      (c.Chosen? <==> exists ep :: ep in eps && Payable(net, Configured(policies, service), old(h.m), ep, rpc))
    ensures c.Chosen? ==> ExactlyThose(c.eps, eps, ep => Payable(net, Configured(policies, service), old(h.m), ep, rpc))
    // By name: no supplier that is denied, and, when some are allowed, only those.
    ensures c.Chosen? ==> forall ep :: ep in c.eps ==> !Listed(old(h.m), "X-Pocket-Deny-Suppliers", ep.supplier)
    ensures c.Chosen? && !NoneListed(old(h.m), "X-Pocket-Allow-Suppliers") ==>
              forall ep :: ep in c.eps ==> Listed(old(h.m), "X-Pocket-Allow-Suppliers", ep.supplier)
    ensures c.Chosen? && service in policies ==>
              forall ep :: ep in c.eps ==> PermitsEndpoint(net, policies[service], ep, rpc)
  {
    ghost var h0 := h.m;
    var requested := TakeSupplierPolicy(h);
    if requested.None? {
      return BadRequest;
    }
    var configured := Configured(policies, service);
    var r := FilterSelect(net, configured, requested.value, eps, rpc);
    EligibleIsPayable(net, configured, requested.value, h0, rpc);
    if r.None? {
      return NoneLeft;
    }
    ExactlyThoseSame(r.value, eps, ep => Eligible(net, configured, requested.value, ep, rpc),
                     ep => Payable(net, configured, h0, ep, rpc));
    ExactlyThoseMembers(r.value, eps, ep => Payable(net, configured, h0, ep, rpc));
    return Chosen(r.value);
  }

  /** A service without a configured policy gets the zero one. */
  function Configured(policies: map<string, Policy>, service: string): (p: Policy) {
    if service in policies then policies[service] else NO_POLICY
  }

  /** And the zero policy turns no endpoint away. */
  lemma Unconfigured(net: Net, policies: map<string, Policy>, service: string, ep: Endpoint, rpc: RPCType)
    requires service !in policies
    ensures PermitsEndpoint(net, Configured(policies, service), ep, rpc)
  {
  }

  lemma EligibleIsPayable(net: Net, configured: Policy, requested: Policy, h: Header, rpc: RPCType)
    requires Describes(h, ROUTING, requested)
    ensures forall ep :: Eligible(net, configured, requested, ep, rpc) <==> Payable(net, configured, h, ep, rpc)
  {
    forall ep
      ensures Eligible(net, configured, requested, ep, rpc) <==> Payable(net, configured, h, ep, rpc)
    {
      PermitsIffAdmitted(net, h, ROUTING, requested, ep, rpc);
    }
  }

  lemma ExactlyThoseSame(out: seq<Endpoint>, eps: seq<Endpoint>, p: Endpoint -> bool, q: Endpoint -> bool)
    requires ExactlyThose(out, eps, p) && forall ep :: p(ep) <==> q(ep)
    ensures ExactlyThose(out, eps, q)
  {
    forall ep
      ensures multiset(out)[ep] == if q(ep) then multiset(eps)[ep] else 0
    {
      assert multiset(out)[ep] == if p(ep) then multiset(eps)[ep] else 0;
    }
  }

  /** A request only narrows: what it may use is among what the same relay could use without its headers. */
  lemma NarrowOnly(net: Net, configured: Policy, h: Header, eps: seq<Endpoint>, rpc: RPCType,
                   out: seq<Endpoint>, free: seq<Endpoint>)
    requires ExactlyThose(out, eps, ep => Payable(net, configured, h, ep, rpc))
    requires ExactlyThose(free, eps, ep => Eligible(net, configured, NO_POLICY, ep, rpc))
    ensures multiset(out) <= multiset(free)
  {
    var p, q := ep => Payable(net, configured, h, ep, rpc), ep => Eligible(net, configured, NO_POLICY, ep, rpc);
    forall ep
      ensures multiset(out)[ep] <= multiset(free)[ep]
    {
      assert multiset(out)[ep] == if p(ep) then multiset(eps)[ep] else 0;
      assert multiset(free)[ep] == if q(ep) then multiset(eps)[ep] else 0;
    }
  }

  // ---- what a run does with the selection ----

  ghost predicate AllFrom(eps: seq<Endpoint>, rpc: RPCType, log: seq<Event>) {
    forall i :: 0 <= i < |log| ==> Serves(eps, rpc, log[i].supplier)
  }

  ghost predicate Serves(eps: seq<Endpoint>, rpc: RPCType, supplier: string) {
    exists ep :: ep in eps && Supports(ep, rpc) && ep.supplier == supplier
  }

  lemma AttemptFrom<S>(r: Relayer, session: Session, q: Request, i: nat, eps: seq<Endpoint>, s: S,
                       onBatch: Sink<S>)
    requires i < |eps|
    ensures AllFrom(eps, q.rpc, TryStream(r, session, q, i, eps[i], s, onBatch).log)
    ensures AllFrom(eps, q.rpc, TryRelay(r, session, q, i, eps[i]).log)
  {
    if q.rpc in eps[i].urls {
      assert eps[i] in eps && Supports(eps[i], q.rpc);
      assert Serves(eps, q.rpc, eps[i].supplier);
    }
  }

  lemma {:induction false} StreamStaysWithin<S>(r: Relayer, session: Session, q: Request, eps: seq<Endpoint>, i: nat,
                                                s: S, onBatch: Sink<S>, last: LastErr)
    requires i <= |eps|
    ensures AllFrom(eps, q.rpc, StreamFrom(r, session, q, eps, i, s, onBatch, last).log)
    decreases |eps| - i
  {
    if i < |eps| {
      AttemptFrom(r, session, q, i, eps, s, onBatch);
      var a := TryStream(r, session, q, i, eps[i], s, onBatch);
      if a.next.Continue? {
        StreamStaysWithin(r, session, q, eps, i + 1, a.state, onBatch, a.next.last);
      }
    }
  }

  lemma {:induction false} RelayStaysWithin(r: Relayer, session: Session, q: Request, eps: seq<Endpoint>, i: nat,
                                            last: LastErr)
    requires i <= |eps|
    ensures AllFrom(eps, q.rpc, RelayFrom(r, session, q, eps, i, last).log)
    decreases |eps| - i
  {
    if i < |eps| {
      AttemptFrom(r, session, q, i, eps, (), (s: (), x: RelayResult) => (s, Takes));
      var a := TryRelay(r, session, q, i, eps[i]);
      if a.next.Continue? {
        RelayStaysWithin(r, session, q, eps, i + 1, a.next.last);
      }
    }
  }

  /** The relayer's selector answers as ChooseForRequest does for a request carrying the headers `h`. */
  ghost predicate SelectsFor(r: Relayer, net: Net, configured: Policy, h: Header, service: string, rpc: RPCType) {
    forall eps :: r.choose(service, eps, rpc).Ok? ==>
      ExactlyThose(r.choose(service, eps, rpc).value, eps, ep => Payable(net, configured, h, ep, rpc))
  }

  /** The supplier belongs to an endpoint of the session that both policies allow to be paid. */
  ghost predicate MayBePaid(net: Net, configured: Policy, h: Header, session: Session, rpc: RPCType, supplier: string) {
    exists ep :: ep in session.endpoints && Payable(net, configured, h, ep, rpc) && ep.supplier == supplier
  }

  /** Every supplier that either loop sends to, observes or delivers from may be paid for this request. */
  lemma PaysOnlyPermitted<S>(r: Relayer, q: Request, s: S, onBatch: Sink<S>,
                             net: Net, configured: Policy, h: Header)
    requires SelectsFor(r, net, configured, h, q.service, q.rpc)
    ensures forall e :: e in StreamRun(r, q, s, onBatch).log + RelayRun(r, q).log ==>
      r.session(q.service).Ok? && MayBePaid(net, configured, h, r.session(q.service).value, q.rpc, e.supplier)
  {
    if Candidates(r, q).Ok? {
      var (session, eps) := Candidates(r, q).value;
      StreamStaysWithin(r, session, q, eps, 0, s, onBatch, Nothing);
      RelayStaysWithin(r, session, q, eps, 0, Nothing);
      CandidatesPayable(r, q, net, configured, h);
    }
  }

  lemma CandidatesPayable(r: Relayer, q: Request, net: Net, configured: Policy, h: Header)
    requires SelectsFor(r, net, configured, h, q.service, q.rpc) && Candidates(r, q).Ok?
    ensures r.session(q.service) == Ok(Candidates(r, q).value.0)
    ensures forall supplier :: Serves(Candidates(r, q).value.1, q.rpc, supplier) ==>
      MayBePaid(net, configured, h, Candidates(r, q).value.0, q.rpc, supplier)
  {
    var (session, eps) := Candidates(r, q).value;
    var ordered := r.choose(q.service, session.endpoints, q.rpc).value;
    ExactlyThoseMembers(ordered, session.endpoints, ep => Payable(net, configured, h, ep, q.rpc));
    forall supplier | Serves(eps, q.rpc, supplier)
      ensures MayBePaid(net, configured, h, session, q.rpc, supplier)
    {
      var ep :| ep in eps && Supports(ep, q.rpc) && ep.supplier == supplier;
      assert ep in ordered;
    }
  }

  // ---- the one supplier of a bridge ----

  const TARGET_SERVICE := "Target-Service-Id"
  const APP_ADDRESS := "App-Address"
  const RPC_TYPE := "Rpc-Type"

  /** The frame processor of one bridge: pinned to a session and a supplier, and signing until deactivated. */
  datatype Processor = Processor(session: Session, supplier: string, active: bool)

  datatype Prepared = Prepared(session: Session, endpoint: Endpoint, url: string, headers: Header, processor: Processor)

  /** `p` uses the first endpoint of `ordered` with a URL for the type, and names the session's own app. */
  ghost predicate FirstWithURL(p: Prepared, ordered: seq<Endpoint>, q: Request, wire: RPCType -> string) {
    && (exists i :: 0 <= i < |ordered| && p.endpoint == ordered[i]
                    && forall j :: 0 <= j < i ==> !Supports(ordered[j], q.rpc))
    && Supports(p.endpoint, q.rpc) && p.url == p.endpoint.urls[q.rpc]
    && Handshake(p.headers, q.service, p.session.app, wire(q.rpc))
    && p.processor == Processor(p.session, p.endpoint.supplier, true)
  }

  /** The headers name the service, the paying app and, when there is one, the type's wire value; nothing else. */
  ghost predicate Handshake(h: Header, service: string, app: string, wire: string) {
    && h.Keys == {"Target-Service-Id", "App-Address"} + (if wire == "" then {} else {"Rpc-Type"})
    && h["Target-Service-Id"] == [service] && h["App-Address"] == [app]
    && (wire != "" ==> h["Rpc-Type"] == [wire])
  }

  method BuildHandshake(service: string, app: string, wire: string) returns (h: Header)
    ensures Handshake(h, service, app, wire)
  {
    h := map[TARGET_SERVICE := [service], APP_ADDRESS := [app]];
    if wire != "" {
      h := h[RPC_TYPE := [wire]];
    }
    assert TARGET_SERVICE[0] == 'T' && APP_ADDRESS[0] == 'A' && RPC_TYPE[0] == 'R';
  }

  /** Bridge.Prepare: no failover, so the endpoint chosen here is the only one the bridge ever pays. */
  method PrepareBridge(r: Relayer, q: Request, wire: RPCType -> string) returns (p: Result<Prepared, Failure>)
    ensures p.Ok? ==>
      && r.session(q.service) == Ok(p.value.session)
      && r.choose(q.service, p.value.session.endpoints, q.rpc).Ok?
      && FirstWithURL(p.value, r.choose(q.service, p.value.session.endpoints, q.rpc).value, q, wire)
    ensures p.Ok? <==>
      && r.session(q.service).Ok? && r.choose(q.service, r.session(q.service).value.endpoints, q.rpc).Ok?
      && exists ep :: && ep in r.choose(q.service, r.session(q.service).value.endpoints, q.rpc).value
                      && Supports(ep, q.rpc)
  {
    var session := r.session(q.service);
    if session.Err? {
      return Err(NoSession(session.error));
    }
    var ordered := r.choose(q.service, session.value.endpoints, q.rpc);
    if ordered.Err? {
      return Err(NoSelection(ordered.error));
    }
    for i := 0 to |ordered.value|
      invariant forall j :: 0 <= j < i ==> !Supports(ordered.value[j], q.rpc)
    {
      var ep := ordered.value[i];
      if q.rpc !in ep.urls {
        continue;
      }
      var headers := BuildHandshake(q.service, session.value.app, wire(q.rpc));
      assert ep in ordered.value;
      var processor := Processor(session.value, ep.supplier, true);
      return Ok(Prepared(session.value, ep, ep.urls[q.rpc], headers, processor));
    }
    return Err(NoEndpoint);
  }

  /** The supplier a bridge is pinned to may be paid for the request that opened it. */
  lemma BridgePaysOnlyPermitted(r: Relayer, q: Request, wire: RPCType -> string, p: Prepared,
                                net: Net, configured: Policy, h: Header)
    requires SelectsFor(r, net, configured, h, q.service, q.rpc)
    requires r.session(q.service) == Ok(p.session) && r.choose(q.service, p.session.endpoints, q.rpc).Ok?
    requires FirstWithURL(p, r.choose(q.service, p.session.endpoints, q.rpc).value, q, wire)
    ensures MayBePaid(net, configured, h, p.session, q.rpc, p.endpoint.supplier)
  {
    var ordered := r.choose(q.service, p.session.endpoints, q.rpc).value;
    ExactlyThoseMembers(ordered, p.session.endpoints, ep => Payable(net, configured, h, ep, q.rpc));
    assert p.endpoint in ordered;
  }
}
