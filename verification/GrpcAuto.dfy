/** The gRPC sender under any number of interleaved Sends: the framing memo and the client cache. */
module GrpcAuto {
  import opened Domain

  datatype Mode = Auto | Native | Web

  /** Any other string in the configuration means auto. */
  function ModeOf(config: string): (m: Mode)
    ensures m == Native <==> config == "native"
    ensures m == Web <==> config == "web"
  {
    if config == "native" then Native else if config == "web" then Web else Auto
  }

  /** Where one Send is. `url` is what it was called with; `conn` the client it got. */
  datatype Send =
    | Deciding(url: string)
    | Finding(url: string)
    | Locking(url: string)
    | Rechecking(url: string)
    | Dialing(url: string)
    | Storing(url: string, conn: nat)
    | InNative(url: string, conn: nat)
    | Remembering(url: string)
    | InWeb(url: string)
    | Over(url: string)

  /** Something a Send did, as it happened. */
  datatype Event =
    | NativeAttempt(id: nat, url: string)
    | Used(id: nat, url: string, conn: nat)
    | NotHTTP2(id: nat, host: string)
    | Stored(host: string)
    | WebAttempt(id: nat, url: string)
    | Looked(id: nat, host: string, known: bool)
    | Created(url: string, conn: nat)

  datatype State = State(
    sends: map<nat, Send>,
    webOnly: set<string>,
    conns: map<string, nat>,
    lock: Option<nat>,
    nextConn: nat,
    log: seq<Event>)

  /** The sender's mode, and the dial target of a URL, when it has one. */
  datatype Env = Env(mode: Mode, host: string -> Option<string>)

  datatype Step =
    | Call(id: nat, url: string)
    | Decide(id: nat)
    | FindConn(id: nat)
    | Acquire(id: nat)
    | Recheck(id: nat)
    | Dial(id: nat, ok: bool, notHTTP2: bool)
    | Store(id: nat)
    | Reply(id: nat, notHTTP2: bool)
    | Remember(id: nat)
    | WebReply(id: nat)

  predicate Init(s: State) {
    s == State(map[], {}, map[], None, 0, [])
  }

  predicate Can(s: State, a: Step) {
    match a
    case Call(id, _) => id !in s.sends
    case Decide(id) => id in s.sends && s.sends[id].Deciding?
    case FindConn(id) => id in s.sends && s.sends[id].Finding?
    case Acquire(id) => id in s.sends && s.sends[id].Locking? && s.lock.None?
    case Recheck(id) => id in s.sends && s.sends[id].Rechecking?
    case Dial(id, _, _) => id in s.sends && s.sends[id].Dialing?
    case Store(id) => id in s.sends && s.sends[id].Storing?
    case Reply(id, _) => id in s.sends && s.sends[id].InNative?
    case Remember(id) => id in s.sends && s.sends[id].Remembering?
    case WebReply(id) => id in s.sends && s.sends[id].InWeb?
  }

  function Go(s: State, id: nat, pc: Send, events: seq<Event>): (t: State) {
    s.(sends := s.sends[id := pc], log := s.log + events)
  }

  function Do(env: Env, s: State, a: Step): (t: State)
    requires Can(s, a)
  {
    match a
    case Call(id, url) => Go(s, id, Deciding(url), [])
    case Decide(id) => Decided(env, s, id)
    case FindConn(id) =>
      var url := s.sends[id].url;
      if url in s.conns then Go(s, id, InNative(url, s.conns[url]), [Used(id, url, s.conns[url])])
      else Go(s, id, Locking(url), [])
    case Acquire(id) => Go(s, id, Rechecking(s.sends[id].url), []).(lock := Some(id))
    case Recheck(id) =>
      var url := s.sends[id].url;
      if url in s.conns then Go(s, id, InNative(url, s.conns[url]), [Used(id, url, s.conns[url])]).(lock := None)
      else Go(s, id, Dialing(url), [])
    case Dial(id, ok, notHTTP2) =>
      var url := s.sends[id].url;
      if ok then Go(s, id, Storing(url, s.nextConn), [Created(url, s.nextConn)]).(nextConn := s.nextConn + 1)
      else Finished(env, s, id, notHTTP2).(lock := None)
    case Store(id) =>
      var url, conn := s.sends[id].url, s.sends[id].conn;
      Go(s, id, InNative(url, conn), [Used(id, url, conn)]).(conns := s.conns[url := conn], lock := None)
    case Reply(id, notHTTP2) => Finished(env, s, id, notHTTP2)
    case Remember(id) =>
      var url := s.sends[id].url;
      if env.host(url).None? then s
      else Go(s, id, InWeb(url), [Stored(env.host(url).value), WebAttempt(id, url)])
             .(webOnly := s.webOnly + {env.host(url).value})
    case WebReply(id) => Go(s, id, Over(s.sends[id].url), [])
  }

  /** sendNative returned, from a dial or from a call. Pinned native returns whatever came back; auto goes on only when
      the error reads as a front door that does not speak HTTP/2, whichever of the two it came from. */
  function Finished(env: Env, s: State, id: nat, notHTTP2: bool): (t: State)
    requires id in s.sends
  {
    var url := s.sends[id].url;
    if env.mode == Auto && notHTTP2 && env.host(url).Some? then
      Go(s, id, Remembering(url), [NotHTTP2(id, env.host(url).value)])
    else Go(s, id, Over(url), [])
  }

  /** The switch at the top of Send, and the memo lookup of auto mode. */
  function Decided(env: Env, s: State, id: nat): (t: State)
    requires id in s.sends && s.sends[id].Deciding?
  {
    var url := s.sends[id].url;
    match env.host(url)
    case None => Go(s, id, Over(url), [])
    case Some(host) =>
      match env.mode
      case Web => Go(s, id, InWeb(url), [WebAttempt(id, url)])
      case Native => Go(s, id, Finding(url), [NativeAttempt(id, url)])
      case Auto =>
        if host in s.webOnly then Go(s, id, InWeb(url), [Looked(id, host, true), WebAttempt(id, url)])
        else Go(s, id, Finding(url), [Looked(id, host, false), NativeAttempt(id, url)])
  }

  predicate HoldsLock(p: Send) {
    p.Rechecking? || p.Dialing? || p.Storing?
  }

  ghost predicate Inv(env: Env, s: State) {
    InvLock(s) && InvCallers(s) && InvCreated(s) && OneClient(s.log) && InvMemo(env, s) && InvModes(env, s)
  }

  /** At most one Send is between lock and unlock. */
  ghost predicate InvLock(s: State) {
    forall id :: id in s.sends && HoldsLock(s.sends[id]) ==> s.lock == Some(id)
  }

  /** The lock's holder found no client under its URL; every caller in a native call shares the cached one. */
  ghost predicate InvCallers(s: State) {
    InvDialers(s) && InvSharing(s)
  }

  ghost predicate InvDialers(s: State) {
    forall id :: id in s.sends && (s.sends[id].Dialing? || s.sends[id].Storing?) ==> s.sends[id].url !in s.conns
  }

  ghost predicate InvSharing(s: State) {
    && (forall id :: id in s.sends && s.sends[id].InNative? ==> Has(s.conns, s.sends[id].url, s.sends[id].conn))
    && (forall i :: 0 <= i < |s.log| && s.log[i].Used? ==> Has(s.conns, s.log[i].url, s.log[i].conn))
  }

  predicate Has(conns: map<string, nat>, url: string, conn: nat) {
    url in conns && conns[url] == conn
  }

  /** A created client is cached, or in the hands of the Send that holds the lock. */
  ghost predicate Placed(s: State, url: string, conn: nat) {
    || (url in s.conns && s.conns[url] == conn)
    || (url !in s.conns && s.lock.Some? && s.lock.value in s.sends && s.sends[s.lock.value] == Storing(url, conn))
  }

  ghost predicate InvCreated(s: State) {
    forall i :: 0 <= i < |s.log| && s.log[i].Created? ==> Placed(s, s.log[i].url, s.log[i].conn)
  }

  /** No URL has had two clients. */
  ghost predicate OneClient(log: seq<Event>) {
    forall i, j :: 0 <= i < j < |log| && log[i].Created? && log[j].Created? ==> log[i].url != log[j].url
  }

  /** The memo holds only hosts that answered some Send's native attempt with "not HTTP/2". */
  ghost predicate InvMemo(env: Env, s: State) {
    && (forall h :: h in s.webOnly ==> Refused(s.log, h))
    && (forall id :: id in s.sends && s.sends[id].Remembering? && env.host(s.sends[id].url).Some? ==>
          Refused(s.log, env.host(s.sends[id].url).value))
    && (forall id :: id in s.sends && Trying(s.sends[id]) ==> Tried(s.log, id))
    && (forall i :: 0 <= i < |s.log| && s.log[i].Stored? ==> s.log[i].host in s.webOnly)
    // A lookup that follows a store finds it.
    && LookupsFindStores(s.log)
  }

  predicate LooksAfterStore(a: Event, b: Event) {
    a.Stored? && b.Looked? && a.host == b.host
  }

  ghost predicate LookupsFindStores(log: seq<Event>) {
    forall i, j :: 0 <= i < j < |log| && LooksAfterStore(log[i], log[j]) ==> log[j].known
  }

  /** Somewhere in sendNative. */
  predicate Trying(p: Send) {
    p.Finding? || p.Locking? || p.Rechecking? || p.Dialing? || p.Storing? || p.InNative?
  }

  ghost predicate Tried(log: seq<Event>, id: nat) {
    exists j :: 0 <= j < |log| && log[j].NativeAttempt? && log[j].id == id
  }

  ghost predicate Refused(log: seq<Event>, h: string) {
    exists i :: 0 <= i < |log| && Denied(log, i, h)
  }

  /** Entry `i` is a "not HTTP/2" answer for `h` to a Send that had made a native attempt. */
  ghost predicate Denied(log: seq<Event>, i: nat, h: string)
    requires i < |log|
  {
    log[i].NotHTTP2? && log[i].host == h && Tried(log[..i], log[i].id)
  }

  /** Pinned modes never cross framings, and a Send that found its host in the memo makes no native attempt. */
  ghost predicate InvModes(env: Env, s: State) {
    InvPinned(env, s) && InvSkipped(s) && InvAttempts(s)
  }

  ghost predicate InvPinned(env: Env, s: State) {
    && (forall id :: id in s.sends ==> PinnedPC(env.mode, s.sends[id]))
    && (forall i :: 0 <= i < |s.log| ==> PinnedEvent(env.mode, s.log[i]))
  }

  ghost predicate InvSkipped(s: State) {
    forall i :: 0 <= i < |s.log| && s.log[i].Looked? && s.log[i].known ==>
      s.log[i].id in s.sends && (s.sends[s.log[i].id].InWeb? || s.sends[s.log[i].id].Over?)
      && forall j :: 0 <= j < |s.log| && s.log[j].NativeAttempt? ==> s.log[j].id != s.log[i].id
  }

  ghost predicate InvAttempts(s: State) {
    forall i :: 0 <= i < |s.log| && s.log[i].NativeAttempt? ==>
      s.log[i].id in s.sends && !s.sends[s.log[i].id].Deciding?
  }

  predicate PinnedPC(mode: Mode, p: Send) {
    match mode
    case Auto => true
    case Web => p.Deciding? || p.InWeb? || p.Over?
    case Native => !p.InWeb? && !p.Remembering?
  }

  predicate PinnedEvent(mode: Mode, e: Event) {
    match mode
    case Auto => true
    case Web => !e.NativeAttempt? && !e.Used? && !e.Created?
    case Native => !e.WebAttempt?
  }

  // ---- every step keeps the invariant ----

  lemma LockKept(env: Env, s: State, a: Step)
    requires InvLock(s) && Can(s, a)
    ensures InvLock(Do(env, s, a))
  {
  }

  /** What a step adds to the log. */
  function Added(env: Env, s: State, a: Step): (events: seq<Event>)
    requires Can(s, a)
    ensures Do(env, s, a).log == s.log + events
  {
    Do(env, s, a).log[|s.log|..]
  }

  lemma CallersKept(env: Env, s: State, a: Step)
    requires InvLock(s) && InvCallers(s) && Can(s, a)
    ensures InvCallers(Do(env, s, a))
    ensures forall url :: url in s.conns ==> url in Do(env, s, a).conns && Do(env, s, a).conns[url] == s.conns[url]
  {
    DialersKept(env, s, a);
    SharingKept(env, s, a);
  }

  lemma DialersKept(env: Env, s: State, a: Step)
    requires InvLock(s) && InvDialers(s) && Can(s, a)
    ensures InvDialers(Do(env, s, a))
  {
  }

  lemma SharingKept(env: Env, s: State, a: Step)
    requires InvDialers(s) && InvSharing(s) && Can(s, a)
    ensures InvSharing(Do(env, s, a))
    ensures forall url :: url in s.conns ==> url in Do(env, s, a).conns && Do(env, s, a).conns[url] == s.conns[url]
  {
    var t := Do(env, s, a);
    assert t.log == s.log + Added(env, s, a);
  }

  lemma CreatedKept(env: Env, s: State, a: Step)
    requires InvLock(s) && InvCallers(s) && InvCreated(s) && Can(s, a)
    ensures InvCreated(Do(env, s, a))
  {
    var t := Do(env, s, a);
    forall i | 0 <= i < |t.log| && t.log[i].Created?
      ensures Placed(t, t.log[i].url, t.log[i].conn)
    {
      if i < |s.log| {
        assert t.log[i] == s.log[i] && Placed(s, s.log[i].url, s.log[i].conn);
        CallersKept(env, s, a);
      }
    }
  }

  lemma OneClientKept(env: Env, s: State, a: Step)
    requires InvLock(s) && InvCallers(s) && InvCreated(s) && OneClient(s.log) && Can(s, a)
    ensures OneClient(Do(env, s, a).log)
  {
    var t := Do(env, s, a);
    forall i, j | 0 <= i < j < |t.log| && t.log[i].Created? && t.log[j].Created?
      ensures t.log[i].url != t.log[j].url
    {
      if j >= |s.log| {
        assert a.Dial? && a.ok && i < |s.log|;
        assert Placed(s, s.log[i].url, s.log[i].conn);
      }
    }
  }

  lemma DeniedKept(log: seq<Event>, more: seq<Event>, h: string)
    requires Refused(log, h)
    ensures Refused(log + more, h)
  {
    var i :| 0 <= i < |log| && Denied(log, i, h);
    assert (log + more)[..i] == log[..i];
    assert Denied(log + more, i, h);
  }

  lemma TriedKept(log: seq<Event>, more: seq<Event>, id: nat)
    requires Tried(log, id)
    ensures Tried(log + more, id)
  {
    var j :| 0 <= j < |log| && log[j].NativeAttempt? && log[j].id == id;
    assert (log + more)[j] == log[j];
  }

  lemma StoresKept(env: Env, s: State, a: Step)
    requires Can(s, a)
    requires forall i :: 0 <= i < |s.log| && s.log[i].Stored? ==> s.log[i].host in s.webOnly
    requires LookupsFindStores(s.log)
    ensures var t := Do(env, s, a);
            && (forall i :: 0 <= i < |t.log| && t.log[i].Stored? ==> t.log[i].host in t.webOnly)
            && LookupsFindStores(t.log)
  {
  }

  lemma TriedStep(env: Env, s: State, a: Step, id: nat)
    requires Can(s, a) && id in Do(env, s, a).sends && Trying(Do(env, s, a).sends[id])
    requires id in s.sends && Trying(s.sends[id]) ==> Tried(s.log, id)
    ensures Tried(Do(env, s, a).log, id)
  {
    var t := Do(env, s, a);
    if id in s.sends && Trying(s.sends[id]) {
      TriedKept(s.log, Added(env, s, a), id);
    } else {
      var j := |t.log| - 1;
      assert t.log[j].NativeAttempt? && t.log[j].id == id;
    }
  }

  lemma RefusedStep(env: Env, s: State, a: Step)
    requires Can(s, a) && (a.Reply? || a.Dial?) && Do(env, s, a).sends[a.id].Remembering? && Tried(s.log, a.id)
    ensures var t := Do(env, s, a); |s.log| < |t.log| && Denied(t.log, |s.log|, env.host(s.sends[a.id].url).value)
  {
    assert Do(env, s, a).log[..|s.log|] == s.log;
  }

  lemma RememberStep(env: Env, s: State, a: Step, id: nat)
    requires Can(s, a)
    requires var t := Do(env, s, a); id in t.sends && t.sends[id].Remembering? && env.host(t.sends[id].url).Some?
    requires id in s.sends && s.sends[id].Remembering? && env.host(s.sends[id].url).Some? ==>
               Refused(s.log, env.host(s.sends[id].url).value)
    requires id in s.sends && Trying(s.sends[id]) ==> Tried(s.log, id)
    ensures Refused(Do(env, s, a).log, env.host(Do(env, s, a).sends[id].url).value)
  {
    if id in s.sends && s.sends[id].Remembering? {
      DeniedKept(s.log, Added(env, s, a), env.host(s.sends[id].url).value);
    } else {
      RefusedStep(env, s, a);
    }
  }

  lemma WebOnlyStep(env: Env, s: State, a: Step, h: string)
    requires InvMemo(env, s) && Can(s, a) && h in Do(env, s, a).webOnly
    ensures var t := Do(env, s, a); Refused(t.log, h)
  {
    DeniedKept(s.log, Added(env, s, a), h);
  }

  lemma MemoKept(env: Env, s: State, a: Step)
    requires InvMemo(env, s) && Can(s, a)
    ensures InvMemo(env, Do(env, s, a)) && s.webOnly <= Do(env, s, a).webOnly
  {
    var t := Do(env, s, a);
    StoresKept(env, s, a);
    forall id | id in t.sends && Trying(t.sends[id])
      ensures Tried(t.log, id)
    {
      TriedStep(env, s, a, id);
    }
    forall id | id in t.sends && t.sends[id].Remembering? && env.host(t.sends[id].url).Some?
      ensures Refused(t.log, env.host(t.sends[id].url).value)
    {
      RememberStep(env, s, a, id);
    }
    forall h | h in t.webOnly
      ensures Refused(t.log, h)
    {
      WebOnlyStep(env, s, a, h);
    }
  }

  lemma PinnedKept(env: Env, s: State, a: Step)
    requires InvPinned(env, s) && Can(s, a)
    ensures InvPinned(env, Do(env, s, a))
  {
    var t := Do(env, s, a);
    assert t.log == s.log + Added(env, s, a);
  }

  lemma SkippedKept(env: Env, s: State, a: Step)
    requires InvSkipped(s) && InvAttempts(s) && Can(s, a)
    ensures InvSkipped(Do(env, s, a))
  {
    var t := Do(env, s, a);
    assert t.log == s.log + Added(env, s, a);
  }

  lemma AttemptsKept(env: Env, s: State, a: Step)
    requires InvAttempts(s) && Can(s, a)
    ensures InvAttempts(Do(env, s, a))
  {
    var t := Do(env, s, a);
    assert t.log == s.log + Added(env, s, a);
  }

  lemma ModesKept(env: Env, s: State, a: Step)
    requires InvModes(env, s) && Can(s, a)
    ensures InvModes(env, Do(env, s, a))
  {
    PinnedKept(env, s, a);
    SkippedKept(env, s, a);
    AttemptsKept(env, s, a);
  }

  lemma StepKeeps(env: Env, s: State, a: Step)
    requires Inv(env, s) && Can(s, a)
    ensures Inv(env, Do(env, s, a)) && s.webOnly <= Do(env, s, a).webOnly
    ensures forall url :: url in s.conns ==> url in Do(env, s, a).conns && Do(env, s, a).conns[url] == s.conns[url]
  {
    LockKept(env, s, a);
    CallersKept(env, s, a);
    CreatedKept(env, s, a);
    OneClientKept(env, s, a);
    MemoKept(env, s, a);
    ModesKept(env, s, a);
  }

  ghost predicate Leads(env: Env, s: State, run: seq<Step>, t: State)
    decreases |run|
  {
    if run == [] then s == t else Can(s, run[0]) && Leads(env, Do(env, s, run[0]), run[1..], t)
  }

  /** Along any run the memo only grows and no cached client is ever replaced. */
  lemma {:induction false} RunKeeps(env: Env, s: State, run: seq<Step>, t: State)
    requires Inv(env, s) && Leads(env, s, run, t)
    ensures Inv(env, t) && s.webOnly <= t.webOnly
    ensures forall url :: url in s.conns ==> url in t.conns && t.conns[url] == s.conns[url]
    decreases |run|
  {
    if run != [] {
      StepKeeps(env, s, run[0]);
      RunKeeps(env, Do(env, s, run[0]), run[1..], t);
    }
  }

  // ---- over the steps of a run ----

  /** Every Send works on the URL it was called with. */
  lemma {:induction false} URLsAreKept(env: Env, s: State, run: seq<Step>, t: State, id: nat)
    requires Leads(env, s, run, t) && id in t.sends
    ensures if id in s.sends then s.sends[id].url == t.sends[id].url else Call(id, t.sends[id].url) in run
    decreases |run|
  {
    if run != [] {
      URLsAreKept(env, Do(env, s, run[0]), run[1..], t, id);
      assert forall a :: a in run[1..] ==> a in run;
    }
  }

  /** Step `i` of the run is taken in state `u`. */
  ghost predicate TakenIn(env: Env, s: State, run: seq<Step>, i: nat, u: State) {
    i < |run| && Leads(env, s, run[..i], u) && Can(u, run[i])
  }

  lemma TakenLater(env: Env, s: State, run: seq<Step>, i: nat, u: State)
    requires run != [] && Can(s, run[0]) && TakenIn(env, Do(env, s, run[0]), run[1..], i, u)
    ensures TakenIn(env, s, run, i + 1, u) && run[i + 1] == run[1..][i]
  {
    var front := run[..i + 1];
    assert front[0] == run[0] && front[1..] == run[1..][..i];
  }

  lemma TakenFirst(env: Env, s: State, run: seq<Step>)
    requires run != [] && Can(s, run[0])
    ensures TakenIn(env, s, run, 0, s)
  {
    assert run[..0] == [];
  }

  /** In auto mode, a Send of this host learns that it does not speak HTTP/2: from a failed dial or a failed call. */
  ghost predicate Refuses(env: Env, u: State, a: Step, h: string) {
    && env.mode == Auto && Can(u, a) && a.id in u.sends && env.host(u.sends[a.id].url) == Some(h)
    && (a == Reply(a.id, true) || a == Dial(a.id, false, true))
  }

  /** At some step of the run, a Send of this host is refused. */
  ghost predicate RefusedIn(env: Env, s: State, run: seq<Step>, h: string) {
    exists i: nat, u :: TakenIn(env, s, run, i, u) && Refuses(env, u, run[i], h)
  }

  /** Some Send of this host has learnt it and not yet stored it. */
  ghost predicate Pending(env: Env, s: State, h: string) {
    exists id :: id in s.sends && s.sends[id].Remembering? && env.host(s.sends[id].url) == Some(h)
  }

  /** A step adds a host to the memo only for a Send that was about to, and a Send is so only by being refused. */
  lemma MemoStep(env: Env, s: State, a: Step, h: string)
    requires Can(s, a)
    ensures h in Do(env, s, a).webOnly ==> h in s.webOnly || Pending(env, s, h)
    ensures Pending(env, Do(env, s, a), h) ==> Pending(env, s, h) || Refuses(env, s, a, h)
  {
    var t := Do(env, s, a);
    if h in t.webOnly && h !in s.webOnly {
      assert a.Remember? && s.sends[a.id].Remembering? && env.host(s.sends[a.id].url) == Some(h);
    }
    if Pending(env, t, h) {
      var id :| id in t.sends && t.sends[id].Remembering? && env.host(t.sends[id].url) == Some(h);
      if id in s.sends && s.sends[id].Remembering? {
        assert s.sends[id].url == t.sends[id].url;
      } else {
        assert id == a.id;
      }
    }
  }

  /** A host is in the memo only if some Send of it was refused, at the dial or in the call, earlier in the run. */
  lemma {:induction false} MemoFromRefusals(env: Env, s: State, run: seq<Step>, t: State, h: string)
    requires Leads(env, s, run, t) && (h in t.webOnly || Pending(env, t, h))
    ensures h in s.webOnly || Pending(env, s, h) || RefusedIn(env, s, run, h)
    decreases |run|
  {
    if run != [] {
      var n := Do(env, s, run[0]);
      MemoFromRefusals(env, n, run[1..], t, h);
      MemoStep(env, s, run[0], h);
      if Refuses(env, s, run[0], h) {
        TakenFirst(env, s, run);
      } else if RefusedIn(env, n, run[1..], h) {
        var i: nat, u :| TakenIn(env, n, run[1..], i, u) && Refuses(env, u, run[1..][i], h);
        TakenLater(env, s, run, i, u);
      }
    }
  }

  /** The holder of the lock is a Send that can go on, and every Send under way dialled a host. */
  ghost predicate Sane(env: Env, s: State) {
    LockInUse(s) && InvLock(s) && Addressed(env, s)
  }

  ghost predicate LockInUse(s: State) {
    s.lock.Some? ==> s.lock.value in s.sends && HoldsLock(s.sends[s.lock.value])
  }

  ghost predicate Addressed(env: Env, s: State) {
    forall id :: id in s.sends && !s.sends[id].Deciding? && !s.sends[id].Over? ==> env.host(s.sends[id].url).Some?
  }

  lemma LockStep(env: Env, s: State, a: Step)
    requires LockInUse(s) && InvLock(s) && Can(s, a)
    ensures LockInUse(Do(env, s, a))
  {
  }

  lemma AddressedStep(env: Env, s: State, a: Step)
    requires Addressed(env, s) && Can(s, a)
    ensures Addressed(env, Do(env, s, a))
  {
  }

  lemma SaneStep(env: Env, s: State, a: Step)
    requires Sane(env, s) && Can(s, a)
    ensures Sane(env, Do(env, s, a))
  {
    LockKept(env, s, a);
    LockStep(env, s, a);
    AddressedStep(env, s, a);
  }

  lemma {:induction false} StaysSane(env: Env, s: State, run: seq<Step>, t: State)
    requires Sane(env, s) && Leads(env, s, run, t)
    ensures Sane(env, t)
    decreases |run|
  {
    if run != [] {
      SaneStep(env, s, run[0]);
      StaysSane(env, Do(env, s, run[0]), run[1..], t);
    }
  }

  lemma {:induction false} Splits(env: Env, s: State, run: seq<Step>, t: State, i: nat, u: State)
    requires Leads(env, s, run, t) && TakenIn(env, s, run, i, u)
    ensures Leads(env, Do(env, u, run[i]), run[i + 1..], t)
    decreases i
  {
    var front := run[..i];
    if i > 0 {
      assert front[0] == run[0] && front[1..] == run[1..][..i - 1] && run[1..][i..] == run[i + 1..];
      Splits(env, Do(env, s, run[0]), run[1..], t, i - 1, u);
    }
  }

  /** A Send that has returned takes no further step. */
  lemma {:induction false} OverStays(env: Env, s: State, run: seq<Step>, t: State, id: nat)
    requires Leads(env, s, run, t) && id in s.sends && s.sends[id].Over?
    ensures id in t.sends && t.sends[id] == s.sends[id] && forall i :: 0 <= i < |run| ==> run[i].id != id
    ensures s.webOnly <= t.webOnly
    decreases |run|
  {
    if run != [] {
      assert run[0].id != id;
      OverStays(env, Do(env, s, run[0]), run[1..], t, id);
      assert forall i :: 1 <= i < |run| ==> run[i] == run[1..][i - 1];
    }
  }

  /** What follows a refusal: the host is still to be stored, or it is in the memo and the web attempt is on or over. */
  ghost predicate FallsBack(env: Env, s: State, run: seq<Step>, t: State, id: nat) {
    && id in s.sends && id in t.sends && t.sends[id].url == s.sends[id].url && env.host(s.sends[id].url).Some?
    && (|| (t.sends[id].Remembering? && Can(t, Remember(id)))
        || (&& env.host(s.sends[id].url).value in t.webOnly
            && (|| (t.sends[id].InWeb? && Can(t, WebReply(id)))
                || (t.sends[id].Over? && WebReply(id) in run))))
  }

  /** A Send that was refused stores its host and goes on to the web attempt, and does nothing else first. */
  lemma {:induction false} RefusedFallsBack(env: Env, s: State, run: seq<Step>, t: State, id: nat)
    requires Leads(env, s, run, t) && id in s.sends && env.host(s.sends[id].url).Some?
    requires s.sends[id].Remembering? || (s.sends[id].InWeb? && env.host(s.sends[id].url).value in s.webOnly)
    ensures FallsBack(env, s, run, t, id)
    decreases |run|
  {
    if run != [] {
      var n := Do(env, s, run[0]);
      if run[0] == WebReply(id) {
        OverStays(env, n, run[1..], t, id);
      } else {
        RefusedGoesOn(env, s, run[0], id);
        RefusedFallsBack(env, n, run[1..], t, id);
        assert forall i :: 1 <= i < |run| ==> run[i] == run[1..][i - 1];
      }
    }
  }

  lemma RefusedGoesOn(env: Env, s: State, a: Step, id: nat)
    requires Can(s, a) && a != WebReply(id) && id in s.sends && env.host(s.sends[id].url).Some?
    requires s.sends[id].Remembering? || (s.sends[id].InWeb? && env.host(s.sends[id].url).value in s.webOnly)
    ensures var n := Do(env, s, a);
            && id in n.sends && n.sends[id].url == s.sends[id].url
            && (n.sends[id].Remembering? || (n.sends[id].InWeb? && env.host(s.sends[id].url).value in n.webOnly))
  {
  }

  /** A Send in a native attempt has made no web attempt, nor stored its host. */
  lemma {:induction false} NoWebBefore(env: Env, s: State, run: seq<Step>, t: State, id: nat)
    requires Sane(env, s) && Leads(env, s, run, t) && id in t.sends && (t.sends[id].InNative? || t.sends[id].Dialing?)
    ensures WebReply(id) !in run && Remember(id) !in run
    decreases |run|
  {
    if run != [] {
      var n := Do(env, s, run[0]);
      SaneStep(env, s, run[0]);
      NoWebBefore(env, n, run[1..], t, id);
      if run[0] == WebReply(id) {
        OverStays(env, n, run[1..], t, id);
      } else if run[0] == Remember(id) {
        RefusedFallsBack(env, n, run[1..], t, id);
      }
      assert forall a :: a in run ==> a == run[0] || a in run[1..];
    }
  }

  /** The end of a native attempt: a dial that failed, or a call that came back. */
  predicate EndsNative(a: Step) {
    a.Reply? || (a.Dial? && !a.ok)
  }

  /** It leads to a fallback exactly when it was a refusal in auto mode. */
  lemma NativeEnds(env: Env, u: State, a: Step)
    requires Sane(env, u) && Can(u, a) && EndsNative(a)
    ensures var n := Do(env, u, a);
            && a.id in u.sends && (u.sends[a.id].InNative? || u.sends[a.id].Dialing?)
            && env.host(u.sends[a.id].url).Some?
            && a.id in n.sends
            && n.sends[a.id] == if env.mode == Auto && a.notHTTP2 then Remembering(u.sends[a.id].url)
                                else Over(u.sends[a.id].url)
  {
  }

  /**
   * What a run makes of the end of a native attempt. Refused in auto mode, the Send falls back; ended any other way, it
   * is over, and makes no web attempt before or after.
   */
  lemma NativeOutcome(env: Env, s: State, run: seq<Step>, t: State, i: nat, u: State)
    requires Init(s) && Leads(env, s, run, t) && TakenIn(env, s, run, i, u) && EndsNative(run[i])
    ensures var id := run[i].id;
            if env.mode == Auto && run[i].notHTTP2 then
              FallsBack(env, u, run[i + 1..], t, id)
            else
              && id in u.sends && id in t.sends && t.sends[id] == Over(u.sends[id].url)
              && WebReply(id) !in run && Remember(id) !in run && forall j :: i < j < |run| ==> run[j].id != id
  {
    if env.mode == Auto && run[i].notHTTP2 {
      RefusedOutcome(env, s, run, t, i, u);
    } else {
      EndedOutcome(env, s, run, t, i, u);
    }
  }

  lemma RefusedOutcome(env: Env, s: State, run: seq<Step>, t: State, i: nat, u: State)
    requires Init(s) && Leads(env, s, run, t) && TakenIn(env, s, run, i, u) && EndsNative(run[i])
    requires env.mode == Auto && run[i].notHTTP2
    ensures FallsBack(env, u, run[i + 1..], t, run[i].id)
  {
    StaysSane(env, s, run[..i], u);
    NativeEnds(env, u, run[i]);
    Splits(env, s, run, t, i, u);
    RefusedFallsBack(env, Do(env, u, run[i]), run[i + 1..], t, run[i].id);
  }

  lemma EndedOutcome(env: Env, s: State, run: seq<Step>, t: State, i: nat, u: State)
    requires Init(s) && Leads(env, s, run, t) && TakenIn(env, s, run, i, u) && EndsNative(run[i])
    requires env.mode != Auto || !run[i].notHTTP2
    ensures var id := run[i].id;
            && id in u.sends && id in t.sends && t.sends[id] == Over(u.sends[id].url)
            && WebReply(id) !in run && Remember(id) !in run && forall j :: i < j < |run| ==> run[j].id != id
  {
    var id, rest := run[i].id, run[i + 1..];
    StaysSane(env, s, run[..i], u);
    NativeEnds(env, u, run[i]);
    Splits(env, s, run, t, i, u);
    OverStays(env, Do(env, u, run[i]), rest, t, id);
    NoWebBefore(env, s, run[..i], u, id);
    forall j | i < j < |run|
      ensures run[j].id != id
    {
      assert run[j] == rest[j - i - 1];
    }
    NotBefore(run, i, WebReply(id));
    NotBefore(run, i, Remember(id));
  }

  lemma NotBefore(run: seq<Step>, i: nat, a: Step)
    requires i < |run| && a !in run[..i] && a != run[i] && forall j :: i < j < |run| ==> run[j].id != a.id
    ensures a !in run
  {
    forall j | 0 <= j < |run|
      ensures run[j] != a
    {
      assert j < i ==> run[j] in run[..i];
    }
  }

  /** What sends `id` to gRPC-Web: its mode, a memo that already holds its host, or being refused itself. */
  ghost predicate Turns(env: Env, u: State, a: Step, id: nat) {
    && a.id == id && id in u.sends && env.host(u.sends[id].url).Some?
    && (|| (a.Decide? && (env.mode == Web || (env.mode == Auto && env.host(u.sends[id].url).value in u.webOnly)))
        || Refuses(env, u, a, env.host(u.sends[id].url).value))
  }

  /** At some step of the run, the Send turns to gRPC-Web for one of these reasons. */
  ghost predicate TurnedIn(env: Env, s: State, run: seq<Step>, id: nat) {
    exists i: nat, u :: TakenIn(env, s, run, i, u) && Turns(env, u, run[i], id)
  }

  ghost predicate OnTheWeb(s: State, id: nat) {
    id in s.sends && (s.sends[id].Remembering? || s.sends[id].InWeb?)
  }

  lemma TurnStep(env: Env, s: State, a: Step, id: nat)
    requires Can(s, a) && OnTheWeb(Do(env, s, a), id)
    ensures OnTheWeb(s, id) || Turns(env, s, a, id)
  {
  }

  /** No Send turns to gRPC-Web without one of these reasons. */
  lemma {:induction false} WebOnlyIfDue(env: Env, s: State, run: seq<Step>, t: State, id: nat)
    requires Leads(env, s, run, t) && OnTheWeb(t, id)
    ensures OnTheWeb(s, id) || TurnedIn(env, s, run, id)
    decreases |run|
  {
    if run != [] {
      var n := Do(env, s, run[0]);
      WebOnlyIfDue(env, n, run[1..], t, id);
      if OnTheWeb(n, id) {
        TurnStep(env, s, run[0], id);
        TakenFirst(env, s, run);
      } else {
        var i: nat, u :| TakenIn(env, n, run[1..], i, u) && Turns(env, u, run[1..][i], id);
        TakenLater(env, s, run, i, u);
      }
    }
  }

  /** And with the reason at its decision it turns at once; without one, and with a host, it tries the native call. */
  lemma DecidesBy(env: Env, s: State, id: nat)
    requires Can(s, Decide(id))
    ensures var url, p := s.sends[id].url, Do(env, s, Decide(id)).sends[id];
            if env.host(url).None? then p == Over(url)
            else if Turns(env, s, Decide(id), id) then p == InWeb(url)
            else p == Finding(url)
  {
  }

  /** A client that exists is used at once, whoever holds the lock. */
  lemma CachedNeedsNoLock(env: Env, s: State, id: nat)
    requires Can(s, FindConn(id)) && s.sends[id].url in s.conns
    ensures var url, t := s.sends[id].url, Do(env, s, FindConn(id));
            t.sends[id] == InNative(url, s.conns[url]) && t.lock == s.lock && t.conns == s.conns
  {
  }

  /** Until every Send has returned, some Send can take a step: its own, or the one that holds the lock it waits for. */
  lemma SomeSendMoves(env: Env, s: State, run: seq<Step>, t: State, id: nat) returns (a: Step)
    requires Init(s) && Leads(env, s, run, t) && id in t.sends && !t.sends[id].Over?
    ensures Can(t, a) && !a.Call? && (a.id == id || (t.sends[id].Locking? && Some(a.id) == t.lock))
  {
    StaysSane(env, s, run, t);
    var who := if t.sends[id].Locking? && t.lock.Some? then t.lock.value else id;
    match t.sends[who]
    case Deciding(_) => a := Decide(who);
    case Finding(_) => a := FindConn(who);
    case Locking(_) => a := Acquire(who);
    case Rechecking(_) => a := Recheck(who);
    case Dialing(_) => a := Dial(who, true, false);
    case Storing(_, _) => a := Store(who);
    case InNative(_, _) => a := Reply(who, false);
    case Remembering(_) => a := Remember(who);
    case InWeb(_) => a := WebReply(who);
  }

  /** How many steps a Send may still take. */
  function Left(p: Send): (n: nat) {
    match p
    case Deciding(_) => 9
    case Finding(_) => 8
    case Locking(_) => 7
    case Rechecking(_) => 6
    case Dialing(_) => 5
    case Storing(_, _) => 4
    case InNative(_, _) => 3
    case Remembering(_) => 2
    case InWeb(_) => 1
    case Over(_) => 0
  }

  function StepsOf(run: seq<Step>, id: nat): (n: nat) {
    if run == [] then 0 else (if run[0].id == id then 1 else 0) + StepsOf(run[1..], id)
  }

  lemma SendStep(env: Env, s: State, a: Step, id: nat)
    requires Sane(env, s) && Can(s, a) && id in s.sends
    ensures var n := Do(env, s, a);
            && id in n.sends
            && (if a.id == id then Left(n.sends[id]) < Left(s.sends[id]) else n.sends[id] == s.sends[id])
  {
  }

  /** A Send returns within nine steps of its own, whatever the others do. */
  lemma {:induction false} SendReturns(env: Env, s: State, run: seq<Step>, t: State, id: nat)
    requires Sane(env, s) && Leads(env, s, run, t) && id in s.sends
    ensures id in t.sends && StepsOf(run, id) + Left(t.sends[id]) <= Left(s.sends[id])
    decreases |run|
  {
    if run != [] {
      var n := Do(env, s, run[0]);
      SaneStep(env, s, run[0]);
      SendStep(env, s, run[0], id);
      SendReturns(env, n, run[1..], t, id);
    }
  }

  /** In every run of any number of Sends. */
  lemma AutoModeSound(env: Env, s: State, run: seq<Step>, t: State)
    requires Init(s) && Leads(env, s, run, t)
    // The memo holds only hosts of which a Send, in auto mode, had a native attempt refused.
    ensures forall h :: h in t.webOnly ==> RefusedIn(env, s, run, h)
    // A Send is on gRPC-Web only by its mode, by the memo, or by being refused.
    ensures forall id :: OnTheWeb(t, id) ==> TurnedIn(env, s, run, id)
    ensures forall h :: h in t.webOnly ==> Refused(t.log, h)
    // A Send that looks its host up after it was stored makes no native attempt.
    ensures forall i, j :: 0 <= i < j < |t.log| && LooksAfterStore(t.log[i], t.log[j]) ==>
              !Tried(t.log, t.log[j].id)
    // Pinned modes never cross framings.
    ensures forall i :: 0 <= i < |t.log| ==> PinnedEvent(env.mode, t.log[i])
    // One client per URL, shared by every native call.
    ensures OneClient(t.log)
    ensures forall i, j | 0 <= i < j < |t.log| && t.log[i].Used? && t.log[j].Used? ::
              t.log[i].url == t.log[j].url ==> t.log[i].conn == t.log[j].conn
  {
    RunKeeps(env, s, run, t);
    forall h | h in t.webOnly
      ensures RefusedIn(env, s, run, h)
    {
      MemoFromRefusals(env, s, run, t, h);
    }
    forall id | OnTheWeb(t, id)
      ensures TurnedIn(env, s, run, id)
    {
      WebOnlyIfDue(env, s, run, t, id);
    }
  }
}
