/** Session lookup and rotation, and the signer that must own every session it is handed. */
module Sessions {
  import opened Domain

  datatype ServiceApp = ServiceApp(service: string, app: string)

  /** A session as the full node returns it; the header may be missing. */
  datatype RawSession = RawSession(id: string, end: Option<int>, endpoints: seq<Endpoint>)

  datatype SessionErr = NoApp | FetchFailed(code: int) | NilHeader

  function CacheKey(service: string, app: string): (k: string) {
    service + ":" + app
  }

  function FromRaw(service: string, app: string, raw: RawSession): (s: Session)
    requires raw.end.Some?
  {
    Session(raw.id, service, app, raw.end.value, raw.endpoints)
  }

  // ---- NewSessionManager ----

  ghost predicate Unique(apps: seq<ServiceApp>) {
    forall i, j :: 0 <= i < j < |apps| ==> apps[i].service != apps[j].service
  }

  /** Every service with its own app, in configured order; refused exactly when a service is claimed twice. */
  method IndexApps(apps: seq<ServiceApp>) returns (r: Option<(map<string, string>, seq<string>)>)
    ensures r.Some? <==> Unique(apps)
    ensures r.Some? ==> |r.value.1| == |apps| && forall i :: 0 <= i < |apps| ==>
              && r.value.1[i] == apps[i].service
              && apps[i].service in r.value.0 && r.value.0[apps[i].service] == apps[i].app
    ensures r.Some? ==> forall s :: s in r.value.0 ==> exists i :: 0 <= i < |apps| && apps[i].service == s
  {
    var byService: map<string, string>, services: seq<string> := map[], [];
    for i := 0 to |apps|
      invariant Unique(apps[..i]) && |services| == i
      invariant forall j :: 0 <= j < i ==>
        services[j] == apps[j].service && apps[j].service in byService && byService[apps[j].service] == apps[j].app
      invariant forall s :: s in byService ==> exists j :: 0 <= j < i && apps[j].service == s
    {
      if apps[i].service in byService {
        return None;
      }
      byService := byService[apps[i].service := apps[i].app];
      services := services + [apps[i].service];
    }
    assert apps[..|apps|] == apps;
    return Some((byService, services));
  }

  // ---- Session and pollBlockHeight ----

  datatype Cached = Cached(height: int, sessions: map<string, Session>)

  /** Session, against what the full node would answer now. */
  function Lookup(apps: map<string, string>, c: Cached, service: string, answer: Result<RawSession, int>)
    : (r: (Cached, Result<Session, SessionErr>))
  {
    if service !in apps then (c, Err(NoApp))
    else
      var key := CacheKey(service, apps[service]);
      if key in c.sessions && c.height < c.sessions[key].end then (c, Ok(c.sessions[key]))
      else match answer
        case Err(e) => (c, Err(FetchFailed(e)))
        case Ok(raw) =>
          if raw.end.None? then (c, Err(NilHeader))
          else
            var s := FromRaw(service, apps[service], raw);
            (c.(sessions := c.sessions[key := s]), Ok(s))
  }

  class SessionManager {
    const apps: map<string, string>
    var height: int
    var sessions: map<string, Session>
    var lastPollErr: Option<int>

    constructor (appByService: map<string, string>)
      ensures apps == appByService && height == 0 && sessions == map[] && lastPollErr == None
    {
      apps, height, sessions, lastPollErr := appByService, 0, map[], None;
    }

    /** The height is stored as reported; a failed poll keeps the last one. */
    method PollBlockHeight(answer: Result<int, int>)
      modifies this`height, this`lastPollErr
      ensures height == (if answer.Ok? then answer.value else old(height))
      ensures lastPollErr == (if answer.Ok? then None else Some(answer.error))
    {
      if answer.Err? {
        lastPollErr := Some(answer.error);
        return;
      }
      height := answer.value;
      lastPollErr := None;
    }

    method SessionFor(service: string, answer: Result<RawSession, int>) returns (r: Result<Session, SessionErr>)
      modifies this`sessions
      ensures (Cached(height, sessions), r) == Lookup(apps, Cached(old(height), old(sessions)), service, answer)
      // A cached session that is not yet over is returned, and nothing is fetched or stored.
      ensures service in apps && CacheKey(service, apps[service]) in old(sessions)
              && height < old(sessions)[CacheKey(service, apps[service])].end ==>
                r == Ok(old(sessions)[CacheKey(service, apps[service])]) && sessions == old(sessions)
      // Otherwise the full node's answer decides, is stored, and becomes the session field by field.
      ensures service in apps && !(CacheKey(service, apps[service]) in old(sessions)
              && height < old(sessions)[CacheKey(service, apps[service])].end) ==>
                && (r.Ok? <==> answer.Ok? && answer.value.end.Some?)
                && (answer.Err? ==> r == Err(FetchFailed(answer.error)))
                && (answer.Ok? && answer.value.end.None? ==> r == Err(NilHeader))
                && (r.Ok? ==>
                      && r.value.id == answer.value.id && r.value.service == service && r.value.app == apps[service]
                      && r.value.end == answer.value.end.value && r.value.endpoints == answer.value.endpoints
                      && sessions == old(sessions)[CacheKey(service, apps[service]) := r.value])
      ensures service !in apps ==> r == Err(NoApp)
      // What is returned was fetched now, or cached and not yet over at the height just read.
      ensures r.Ok? ==>
                || (&& answer.Ok? && service in apps && answer.value.end.Some?
                    && r.value == FromRaw(service, apps[service], answer.value))
                || (r.value in old(sessions).Values && height < r.value.end && sessions == old(sessions))
      ensures r.Err? ==> sessions == old(sessions)
    {
      if service !in apps {
        return Err(NoApp);
      }
      var app := apps[service];
      var key := CacheKey(service, app);
      if key in sessions {
        var s := sessions[key];
        if height < s.end {
          return Ok(s);
        }
      }
      if answer.Err? {
        return Err(FetchFailed(answer.error));
      }
      if answer.value.end.None? {
        return Err(NilHeader);
      }
      var s := FromRaw(service, app, answer.value);
      sessions := sessions[key := s];
      return Ok(s);
    }
  }

  // ---- runs of polls and requests ----

  datatype Op = Poll(answer: Result<int, int>) | Ask(service: string, fetched: Result<RawSession, int>)

  function Next(apps: map<string, string>, c: Cached, op: Op): (r: Cached) {
    match op
    case Poll(answer) => if answer.Ok? then c.(height := answer.value) else c
    case Ask(service, fetched) => Lookup(apps, c, service, fetched).0
  }

  function NextAll(apps: map<string, string>, c: Cached, ops: seq<Op>): (r: Cached)
    decreases |ops|
  {
    if ops == [] then c else NextAll(apps, Next(apps, c, ops[0]), ops[1..])
  }

  const EMPTY := Cached(0, map[])

  /** The session belongs to the service asked for and to that service's own app. */
  predicate Right(apps: map<string, string>, service: string, s: Session) {
    service in apps && s.service == service && s.app == apps[service]
  }

  /** After any run, any request is answered with the right session or an error. */
  ghost predicate AlwaysRight(apps: map<string, string>) {
    forall ops, service, answer ::
      var r := Lookup(apps, NextAll(apps, EMPTY, ops), service, answer).1;
      r.Ok? ==> Right(apps, service, r.value)
  }

  /** No two configured services share a cache key. */
  ghost predicate KeysDistinct(apps: map<string, string>) {
    forall s, t :: s in apps && t in apps && CacheKey(s, apps[s]) == CacheKey(t, apps[t]) ==> s == t
  }

  ghost predicate Coherent(apps: map<string, string>, c: Cached) {
    forall s :: s in apps && CacheKey(s, apps[s]) in c.sessions ==> Right(apps, s, c.sessions[CacheKey(s, apps[s])])
  }

  lemma NextCoherent(apps: map<string, string>, c: Cached, op: Op)
    requires KeysDistinct(apps) && Coherent(apps, c)
    ensures Coherent(apps, Next(apps, c, op))
  {
  }

  lemma {:induction false} RunCoherent(apps: map<string, string>, c: Cached, ops: seq<Op>)
    requires KeysDistinct(apps) && Coherent(apps, c)
    ensures Coherent(apps, NextAll(apps, c, ops))
    decreases |ops|
  {
    if ops != [] {
      NextCoherent(apps, c, ops[0]);
      RunCoherent(apps, Next(apps, c, ops[0]), ops[1..]);
    }
  }

  /** Two services behind one key: the second is handed the first one's session. */
  lemma CollisionMisleads(apps: map<string, string>, s: string, t: string)
    requires s in apps && t in apps && s != t && CacheKey(s, apps[s]) == CacheKey(t, apps[t])
    ensures !AlwaysRight(apps)
  {
    var raw := Ok(RawSession("x", Some(1), []));
    var ops := [Ask(s, raw)];
    var c := Next(apps, EMPTY, ops[0]);
    assert ops[1..] == [];
    assert NextAll(apps, EMPTY, ops) == NextAll(apps, c, []) == c;
    var r := Lookup(apps, NextAll(apps, EMPTY, ops), t, raw).1;
    assert r.Ok? && r.value.service == s;
  }

  /** Sessions are never mixed up, in any run, exactly when the cache keys of the configured services differ. */
  lemma RightIffKeysDistinct(apps: map<string, string>)
    ensures AlwaysRight(apps) <==> KeysDistinct(apps)
  {
    if KeysDistinct(apps) {
      forall ops, service, answer
        ensures var r := Lookup(apps, NextAll(apps, EMPTY, ops), service, answer).1;
                r.Ok? ==> Right(apps, service, r.value)
      {
        RunCoherent(apps, EMPTY, ops);
      }
    } else {
      var s, t :| s in apps && t in apps && CacheKey(s, apps[s]) == CacheKey(t, apps[t]) && s != t;
      CollisionMisleads(apps, s, t);
    }
  }

  /** Addresses without a colon, such as every bech32 address, keep the keys apart whatever the services are called. */
  lemma NoColonKeepsKeysApart(apps: map<string, string>)
    requires forall s :: s in apps ==> ':' !in apps[s]
    ensures KeysDistinct(apps)
  {
    forall s, t | s in apps && t in apps && CacheKey(s, apps[s]) == CacheKey(t, apps[t])
      ensures s == t
    {
      SameKeySameService(s, apps[s], t, apps[t]);
    }
  }

  lemma SameKeySameService(s: string, a: string, t: string, b: string)
    requires ':' !in a && ':' !in b && CacheKey(s, a) == CacheKey(t, b)
    ensures s == t && a == b
  {
    var key := CacheKey(s, a);
    assert key[|s|] == ':' && key[|t|] == ':';
    assert forall i :: |s| < i < |key| ==> key[i] == a[i - |s| - 1] && key[i] in a;
    assert forall i :: |t| < i < |key| ==> key[i] == b[i - |t| - 1] && key[i] in b;
    assert |s| == |t|;
    assert key[..|s|] == s && key[..|t|] == t;
    assert key[|s| + 1..] == a && key[|t| + 1..] == b;
  }

  // ---- MultiSigner ----

  datatype SignerRef = SignerRef(address: string, id: nat)

  ghost predicate SignersOf(signers: seq<SignerRef>, byAddr: map<string, SignerRef>) {
    && (forall a :: a in byAddr ==> byAddr[a] in signers && byAddr[a].address == a)
    && (forall s :: s in signers ==> s.address in byAddr)
  }

  method IndexSigners(signers: seq<SignerRef>) returns (byAddr: map<string, SignerRef>)
    ensures SignersOf(signers, byAddr)
  {
    byAddr := map[];
    for i := 0 to |signers|
      invariant forall a :: a in byAddr ==> byAddr[a] in signers[..i] && byAddr[a].address == a
      invariant forall j :: 0 <= j < i ==> signers[j].address in byAddr
    {
      byAddr := byAddr[signers[i].address := signers[i]];
    }
  }

  /** Built from the same apps, the signer set always holds the key of the session it is handed: for any run, any
      service and any answer, and for addresses resolved one per signer as startup resolves them. */
  lemma SessionAlwaysSignable(signers: seq<SignerRef>, byAddr: map<string, SignerRef>, apps: map<string, string>,
                              ops: seq<Op>, service: string, answer: Result<RawSession, int>)
    requires SignersOf(signers, byAddr)
    requires forall s :: s in apps ==> ':' !in apps[s]
    requires forall s :: s in apps ==> exists i :: 0 <= i < |signers| && signers[i].address == apps[s]
    requires forall i, j :: 0 <= i < j < |signers| ==> signers[i].address != signers[j].address
    requires Lookup(apps, NextAll(apps, EMPTY, ops), service, answer).1.Ok?
    ensures var session := Lookup(apps, NextAll(apps, EMPTY, ops), service, answer).1.value;
            && Right(apps, service, session)
            && session.app in byAddr && byAddr[session.app].address == session.app
            && forall x :: x in signers && x.address == apps[service] ==> x == byAddr[session.app]
  {
    NoColonKeepsKeysApart(apps);
    RightIffKeysDistinct(apps);
    var session := Lookup(apps, NextAll(apps, EMPTY, ops), service, answer).1.value;
    assert Right(apps, service, session);
    var i :| 0 <= i < |signers| && signers[i].address == apps[service];
    assert signers[i] in signers;
  }
}
