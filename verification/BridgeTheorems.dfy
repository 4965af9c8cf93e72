/** What holds in every run of the bridge. */
module BridgeTheorems {
  import opened Domain
  import opened CloseCodes
  import opened Bridge
  import opened BridgeInvariants

  // ---- signing stops at expiry ----

  /** The watcher closes the gate after it read a height at or past the end, and asks for a shutdown until one is
      done. */
  ghost predicate InvWatch(end: int, w: WatcherPC, active: bool, offAt: Option<int>, heights: seq<int>, done: bool) {
    && (active <==> offAt.None?)
    && (offAt.Some? ==> offAt.value >= end && offAt.value in heights)
    && (w.Expired? ==> active && w.height >= end && w.height in heights)
    && (w.Watching? ==> active && forall h :: h in heights ==> h < end)
    && (forall h :: h in heights && h >= end ==> w.Expired? || !active)
    && (!active ==> w.WatcherCloses? || done)
  }

  ghost predicate InvGate(env: Env, s: State) {
    && InvWatch(env.end, s.watcher, s.active, s.offAt, s.heights, s.once.Finished?)
    && (s.router.Gate? || s.router.Signing? ==> s.router.msg.source == Client)
  }

  lemma GateKept(env: Env, s: State, a: Step)
    requires InvGate(env, s) && Can(env, s, a)
    ensures InvGate(env, Do(env, s, a))
    ensures !s.active ==> !Do(env, s, a).active
  {
    match a
    case ByRouter(r) => RouterFrame(env, s, r); GateSource(env, s, r);
    case ByReader(x, d) => ReaderFrame(s, x, d);
    case ByOther(o) => GateOther(env, s, o);
    case Enter(who) =>
    case Body =>
      var t := DoBody(s);
      assert t.router == s.router && t.watcher == s.watcher && t.active == s.active;
      assert t.heights == s.heights && t.offAt == s.offAt;
    case Return(who) => GateReturn(s, who);
  }

  lemma GateSource(env: Env, s: State, r: RouterStep)
    requires InvGate(env, s) && RouterCan(env, s, r)
    ensures var t := RouterDo(env, s, r).router; t.Gate? || t.Signing? ==> t.msg.source == Client
  {
  }

  lemma GateOther(env: Env, s: State, o: OtherStep)
    requires InvGate(env, s) && OtherCan(s, o)
    ensures InvGate(env, OtherDo(env, s, o)) && (!s.active ==> !OtherDo(env, s, o).active)
  {
    var t := OtherDo(env, s, o);
    assert t.router == s.router && t.once == s.once;
  }

  lemma GateReturn(s: State, who: Who)
    requires CanReturn(s, who)
    ensures var t := DoReturn(s, who);
            && t.active == s.active && t.offAt == s.offAt && t.heights == s.heights && t.once == s.once
            && (t.watcher == s.watcher || t.watcher.WatcherGone?)
            && (t.router == s.router || (!t.router.Gate? && !t.router.Signing?))
  {
  }

  // ---- close codes ----

  /** A captured code is stored once, by a read loop that is already leaving. */
  ghost predicate InvInfo(p: Peer) {
    p.reader.Reading? || p.reader.Pushing? || p.reader.Noting? ==> p.info.code == 0
  }

  /** What the shutdown body saw are the captured codes, and codes captured before it began were seen. */
  ghost predicate Informed(start: Start, c: Choice, supplier: Info, client: Info) {
    && (c.endpoint.code != 0 ==> c.endpoint == supplier)
    && (c.client.code != 0 ==> c.client == client)
    && (start.endpoint.code != 0 ==> c.endpoint == start.endpoint)
    && (start.client.code != 0 && c.endpoint.code == 0 ==> c.client == start.client)
    && c.err == start.err
  }

  ghost predicate InvCodes(s: State) {
    var n := Progress(s.once);
    && InvInfo(s.client) && InvInfo(s.supplier)
    && (n >= 0 ==> s.start.Some?)
    && (n >= 0 && s.start.value.endpoint.code != 0 ==> s.start.value.endpoint == s.supplier.info)
    && (n >= 0 && s.start.value.client.code != 0 ==> s.start.value.client == s.client.info)
    && (n == 2 ==> s.start.value.endpoint.code == 0)
    && (s.once.Running? ==> s.start.value.who == s.once.who && s.start.value.err == s.once.err)
    && (n >= 3 ==> s.choice.Some? && Informed(s.start.value, s.choice.value, s.supplier.info, s.client.info))
    && s.client.closeFrames == (if n >= 4 then [ClientFrame(Meant(s.choice.value))] else [])
    && s.supplier.closeFrames == (if n >= 6 then [EndpointFrame(Meant(s.choice.value))] else [])
  }

  lemma CodesRouter(env: Env, s: State, r: RouterStep)
    requires InvCodes(s) && RouterCan(env, s, r)
    ensures InvCodes(RouterDo(env, s, r))
  {
    RouterFrame(env, s, r);
  }

  lemma CodesReader(s: State, x: Source, d: ReaderStep)
    requires InvCodes(s) && ReaderCan(s, x, d)
    ensures InvCodes(ReaderDo(s, x, d))
  {
    ReaderFrame(s, x, d);
    var p, q := PeerOf(s, x), PeerOf(ReaderDo(s, x, d), x);
    assert InvInfo(p);
    assert q.info == p.info || p.info.code == 0;
    assert InvInfo(q);
  }

  lemma CodesBody(s: State)
    requires InvCodes(s) && CanBody(s)
    ensures InvCodes(DoBody(s))
  {
    var t := DoBody(s);
    assert t.client.info == s.client.info && t.supplier.info == s.supplier.info;
    assert t.client.reader == s.client.reader && t.supplier.reader == s.supplier.reader && t.start == s.start;
  }

  lemma CodesKept(env: Env, s: State, a: Step)
    requires InvCodes(s) && Can(env, s, a)
    ensures InvCodes(Do(env, s, a))
  {
    match a
    case ByRouter(r) => CodesRouter(env, s, r);
    case ByReader(x, d) => CodesReader(s, x, d);
    case ByOther(o) =>
      var t := OtherDo(env, s, o);
      assert t.client == s.client && t.supplier == s.supplier;
      assert t.once == s.once && t.start == s.start && t.choice == s.choice;
    case Enter(who) => CodesEnter(s, who);
    case Body => CodesBody(s);
    case Return(who) => CodesReturn(s, who);
  }

  lemma CodesEnter(s: State, who: Who)
    requires InvCodes(s) && CanEnter(s, who)
    ensures InvCodes(DoEnter(s, who))
  {
    var t := DoEnter(s, who);
    assert t.client == s.client && t.supplier == s.supplier && Progress(t.once) == 0;
  }

  lemma CodesReturn(s: State, who: Who)
    requires InvCodes(s) && CanReturn(s, who)
    ensures InvCodes(DoReturn(s, who))
  {
    var t := DoReturn(s, who);
    assert t.once == s.once && t.start == s.start && t.choice == s.choice;
    assert t.client.info == s.client.info && t.client.closeFrames == s.client.closeFrames;
    assert t.supplier.info == s.supplier.info && t.supplier.closeFrames == s.supplier.closeFrames;
  }

  // ---- frames taken after the connections are closed ----

  /** Frames that can still reach the routing loop once nothing more can be read. */
  function Pot(s: State): (n: nat) {
    |s.chan| + |Held(s.client.reader)| + |Held(s.supplier.reader)|
  }

  /** Once both connections are closed nothing is added, and every frame taken is one less. */
  lemma PotKept(env: Env, s: State, a: Step)
    requires |s.chan| <= MSG_CHAN_SIZE && Can(env, s, a)
    ensures BothClosed(s) ==> BothClosed(Do(env, s, a)) && Pot(Do(env, s, a)) <= Pot(s)
    ensures BothClosed(s) && a == ByRouter(Take) ==> Pot(Do(env, s, a)) == Pot(s) - 1
  {
    var t := Do(env, s, a);
    match a
    case ByRouter(r) => RouterFrame(env, s, r);
    case ByReader(x, d) => ReaderFrame(s, x, d); PotReader(s, x, d);
    case ByOther(o) =>
      assert t.client == s.client && t.supplier == s.supplier && t.chan == s.chan;
    case Enter(who) =>
    case Body => PotBody(s);
    case Return(who) => PotReturn(s, who);
  }

  lemma PotBody(s: State)
    requires CanBody(s)
    ensures BothClosed(s) ==> BothClosed(DoBody(s))
    ensures Pot(DoBody(s)) == Pot(s)
  {
    var t := DoBody(s);
    assert t.client.reader == s.client.reader && t.supplier.reader == s.supplier.reader;
  }

  lemma PotReturn(s: State, who: Who)
    requires CanReturn(s, who)
    ensures BothClosed(s) ==> BothClosed(DoReturn(s, who))
    ensures Pot(DoReturn(s, who)) <= Pot(s)
  {
    assert DoReturn(s, who).chan == s.chan;
  }

  lemma PotReader(s: State, x: Source, d: ReaderStep)
    requires ReaderCan(s, x, d)
    ensures PeerOf(s, x).closed ==> Pot(ReaderDo(s, x, d)) <= Pot(s)
  {
  }

  // ---- who asks for a shutdown, and why ----

  /** The error a goroutine asks with: a read loop's is a connection failure, the watcher's is the session's end. */
  ghost predicate Fits(who: Who, err: Cause) {
    match who
    case Router => Is(err, BridgeCanceled) || Is(err, MessageProcessing) || Is(err, ConnectionFailed)
    case Reader(_) => Is(err, ConnectionFailed)
    case Watcher => err == Error({SessionExpired}, "websockets: session expired")
    case Outside(_) => true
  }

  ghost predicate ReaderFits(r: ReaderPC) {
    r.ReaderCloses? || r.Noting? ==> Is(r.err, ConnectionFailed)
  }

  ghost predicate InvErr(s: State) {
    && (s.router.RouterCloses? ==> Fits(Router, s.router.err))
    && ReaderFits(s.client.reader) && ReaderFits(s.supplier.reader)
    && (s.start.Some? ==> Fits(s.start.value.who, s.start.value.err))
  }

  lemma ErrKept(env: Env, s: State, a: Step)
    requires InvErr(s) && Can(env, s, a)
    ensures InvErr(Do(env, s, a))
  {
    match a
    case ByRouter(r) => RouterFrame(env, s, r); ErrRouter(env, s, r);
    case ByReader(x, d) => ReaderFrame(s, x, d); ErrReader(s, x, d);
    case ByOther(o) =>
      var t := OtherDo(env, s, o);
      assert t.client == s.client && t.supplier == s.supplier && t.router == s.router && t.start == s.start;
    case Enter(who) => ErrEnter(s, who);
    case Body =>
      var t := DoBody(s);
      assert t.client.reader == s.client.reader && t.supplier.reader == s.supplier.reader;
      assert t.router == s.router && t.start == s.start;
    case Return(who) => ErrReturn(s, who);
  }

  lemma ErrRouter(env: Env, s: State, r: RouterStep)
    requires InvErr(s) && RouterCan(env, s, r)
    ensures var t := RouterDo(env, s, r).router; t.RouterCloses? ==> Fits(Router, t.err)
  {
  }

  lemma ErrReturn(s: State, who: Who)
    requires InvErr(s) && CanReturn(s, who)
    ensures InvErr(DoReturn(s, who))
  {
  }

  lemma ErrReader(s: State, x: Source, d: ReaderStep)
    requires ReaderCan(s, x, d) && ReaderFits(PeerOf(s, x).reader)
    ensures ReaderFits(PeerOf(ReaderDo(s, x, d), x).reader)
  {
  }

  lemma ErrEnter(s: State, who: Who)
    requires InvErr(s) && CanEnter(s, who)
    ensures InvErr(DoEnter(s, who))
  {
    assert Fits(who, Waiting(s, who).value);
  }

  // ---- all of it, over whole runs ----

  ghost predicate Inv(env: Env, s: State) {
    InvOnce(s) && InvExit(s) && InvFlow(env, s) && InvGate(env, s) && InvCodes(s) && InvErr(s)
  }

  lemma InvInit(env: Env, s: State)
    requires Init(s)
    ensures Inv(env, s)
  {
  }

  lemma InvStep(env: Env, s: State, a: Step)
    requires Inv(env, s) && Can(env, s, a)
    ensures Inv(env, Do(env, s, a))
  {
    GateKept(env, s, a);
    CodesKept(env, s, a);
    ErrKept(env, s, a);
    match a
    case ByRouter(r) => OnceByRouter(env, s, r); FlowRouter(env, s, r);
    case ByReader(x, d) => OnceByReader(s, x, d); FlowReader(env, s, x, d);
    case ByOther(o) => OnceByOther(env, s, o); FlowOther(env, s, o);
    case Enter(who) => OnceByShutdown(s, who); FlowEnter(env, s, who);
    case Body => OnceByShutdown(s, Router); FlowBody(env, s);
    case Return(who) => OnceByShutdown(s, who); FlowReturn(env, s, who);
  }

  lemma {:induction false} InvRun(env: Env, s: State, run: seq<Step>, t: State)
    requires Inv(env, s) && Leads(env, s, run, t)
    ensures Inv(env, t)
    decreases |run|
  {
    if run != [] {
      InvStep(env, s, run[0]);
      InvRun(env, Do(env, s, run[0]), run[1..], t);
    }
  }

  lemma InvReachable(env: Env, t: State)
    requires Reachable(env, t)
    ensures Inv(env, t)
  {
    var s, run :| Init(s) && Leads(env, s, run, t);
    InvInit(env, s);
    InvRun(env, s, run, t);
  }

  /** Order and no gaps: what each peer was sent is, frame by frame and with its type, the image of a prefix of what
      the other peer sent; and while the loop is idle and the bridge up, of everything it has taken. */
  lemma OrderNoGaps(env: Env, s: State)
    requires Reachable(env, s)
    ensures Images(env, Client, s.client.read, s.supplier.wrote)
    ensures Images(env, Supplier, s.supplier.read, s.client.wrote)
    ensures s.router.Selecting? && !s.once.Finished? ==>
              |s.supplier.wrote| == |s.client.taken| && |s.client.wrote| == |s.supplier.taken|
    ensures s.client.taken <= s.client.read && s.supplier.taken <= s.supplier.read
  {
    InvReachable(env, s);
    TakenPrefix(s.client, Queued(s.chan, Client));
    TakenPrefix(s.supplier, Queued(s.chan, Supplier));
  }

  lemma TakenPrefix(p: Peer, queued: seq<Frame>)
    requires InvRead(p, queued)
    ensures p.taken <= p.read
  {
    if p.reader.Reading? || p.reader.Pushing? {
      assert p.read == p.taken + (queued + Held(p.reader));
    }
  }

  /** The shutdown body runs at most once and closes `done` last; nobody leaves, and no Shutdown call returns, before
      that. */
  lemma ShutdownOnce(env: Env, s: State)
    requires Reachable(env, s)
    ensures s.bodies <= 1 && s.done <= 1
    ensures s.done == 1 ==> s.cancelled && BothClosed(s) && s.bodies == 1
    ensures s.router.RouterGone? || s.client.reader.ReaderGone? || s.supplier.reader.ReaderGone? ==> s.done == 1
    ensures forall id :: id in s.outside && s.outside[id].Returned? ==> s.done == 1
    ensures !s.once.Idle? ==> s.bodies == 1
  {
    InvReachable(env, s);
  }

  /** How many steps of a run are of a kind. */
  function Count(run: seq<Step>, p: Step -> bool): (n: nat) {
    if run == [] then 0 else (if p(run[0]) then 1 else 0) + Count(run[1..], p)
  }

  predicate Takes(a: Step) { a == ByRouter(Take) }

  /** The step hands a client frame to the signer. */
  predicate Signs(env: Env, s: State, a: Step)
    requires Can(env, s, a)
  {
    var t := Do(env, s, a);
    !s.router.Processing? && t.router.Processing? && t.router.msg.source.Client?
  }

  /** How often a run does. */
  function Signings(env: Env, s: State, run: seq<Step>): (n: nat)
    decreases |run|
  {
    if run == [] || !Can(env, s, run[0]) then 0
    else (if Signs(env, s, run[0]) then 1 else 0) + Signings(env, Do(env, s, run[0]), run[1..])
  }

  /** Once the processor is inactive it stays so, and at most one SignFrame call begins: that of a frame that was
      already past the gate. */
  lemma {:induction false} SigningStops(env: Env, s: State, run: seq<Step>, t: State)
    requires Inv(env, s) && !s.active && Leads(env, s, run, t)
    ensures !t.active
    ensures Signings(env, s, run) + (if t.router.Signing? then 1 else 0) <= if s.router.Signing? then 1 else 0
    decreases |run|
  {
    if run != [] {
      InvStep(env, s, run[0]);
      GateKept(env, s, run[0]);
      NoNewSigning(env, s, run[0]);
      SigningStops(env, Do(env, s, run[0]), run[1..], t);
    }
  }

  lemma NoNewSigning(env: Env, s: State, a: Step)
    requires !s.active && Can(env, s, a)
    ensures var t := Do(env, s, a);
            (if Signs(env, s, a) then 1 else 0) + (if t.router.Signing? then 1 else 0)
            <= if s.router.Signing? then 1 else 0
  {
    match a
    case ByRouter(r) =>
    case ByReader(x, d) => ReaderFrame(s, x, d);
    case ByOther(o) =>
    case Enter(who) =>
    case Body => assert DoBody(s).router == s.router;
    case Return(who) =>
  }

  /** The watcher acts on the first height at or past the session's end that it reads, and only then. Until it reads
      one it watches and the processor signs; once it has, deactivating is its only step; and from then on it asks
      for a shutdown, with the error of an ended session, until the shutdown is done. */
  lemma ExpiryIsHeeded(env: Env, s: State)
    requires Reachable(env, s)
    ensures (exists h :: h in s.heights && h >= env.end) <==> s.watcher.Expired? || !s.active
    ensures s.watcher.Watching? ==> s.active && forall h :: h in s.heights ==> h < env.end
    ensures s.watcher.Expired? ==> forall o :: OfTheWatcher(o) ==> (OtherCan(s, o) <==> o == Deactivate)
    ensures !s.active && !s.once.Finished? ==>
              Waiting(s, Watcher) == Some(Error({SessionExpired}, "websockets: session expired"))
  {
    InvReachable(env, s);
  }

  predicate OfTheWatcher(o: OtherStep) {
    o.Tick? || o.Deactivate? || o.SeeDone? || o.WatchPanics?
  }

  /** Reading such a height leads there, and the next step of the watcher closes the gate. */
  lemma ExpiryActs(env: Env, s: State, h: int)
    requires Reachable(env, s) && s.watcher.Watching?
    ensures Can(env, s, ByOther(Tick(h)))
    ensures var t := Do(env, s, ByOther(Tick(h)));
            && t.heights == s.heights + [h] && t.active
            && (h < env.end ==> t.watcher.Watching?)
            && (h >= env.end ==> t.watcher == Expired(h) && Can(env, t, ByOther(Deactivate)))
            && (h >= env.end ==>
                  var u := Do(env, t, ByOther(Deactivate));
                  !u.active && Waiting(u, Watcher).Some? && Is(Waiting(u, Watcher).value, SessionExpired))
  {
    InvReachable(env, s);
  }

  /** Only client frames ever stand at the gate: a supplier frame is validated whether or not the session is over. */
  lemma GateIsForClients(env: Env, s: State)
    requires Reachable(env, s)
    ensures s.router.Gate? || s.router.Signing? ==> s.router.msg.source == Client
  {
    InvReachable(env, s);
  }

  /** The supplier frame a step of the routing loop is about: the one in hand, or the one it takes. */
  predicate AboutSupplier(s: State, r: RouterStep) {
    || (InHand(s.router).Some? && InHand(s.router).value.source == Supplier)
    || (r.Take? && s.chan != [] && s.chan[0].source == Supplier)
  }

  /** An expired session still drains: in every reachable state a step about a supplier frame is possible, and does the
      same, whether or not the processor is active; it keeps the frame in hand, ends in its image on the client's
      socket, or shuts down for a processing or connection failure. */
  lemma SupplierFramesDrain(env: Env, s: State, r: RouterStep, active: bool)
    requires Reachable(env, s) && AboutSupplier(s, r) && RouterCan(env, s, r)
    ensures RouterCan(env, s.(active := active), r)
    ensures RouterDo(env, s.(active := active), r) == RouterDo(env, s, r).(active := active)
    ensures var t := RouterDo(env, s, r);
            || (t.router.Processing? && r.Take? && t.router.msg == s.chan[0])
            || (t.router.Writing? && s.router.Processing? && t.router.msg == s.router.msg
                && env.vouches(s.router.msg.frame.data, t.router.out))
            || (t.router.Selecting? && s.router.Writing?
                && t.client.wrote == s.client.wrote + [Frame(s.router.msg.frame.kind, s.router.out)])
            || (t.router.RouterCloses? && r != SeeCancel && r != RunPanics
                && (Is(t.router.err, MessageProcessing) || Is(t.router.err, ConnectionFailed)))
  {
    InvReachable(env, s);
  }

  /** Close frames over whole runs: at most one per peer, both from one choice, made from what the body saw: the
      supplier's code, else the client's, else the error it began with. A code captured before it began is seen. */
  lemma CloseFrames(env: Env, s: State)
    requires Reachable(env, s)
    ensures |s.client.closeFrames| <= 1 && |s.supplier.closeFrames| <= 1
    ensures s.client.closeFrames + s.supplier.closeFrames != [] ==> s.choice.Some?
    ensures s.choice.Some? ==>
              var c, seen := s.choice.value, s.start;
              && seen.Some?
              && (seen.value.endpoint.code != 0 ==> c.endpoint == seen.value.endpoint)
              && (seen.value.client.code != 0 && c.endpoint.code == 0 ==> c.client == seen.value.client)
              && (c.endpoint.code != 0 ==> c.endpoint == s.supplier.info)
              && (c.client.code != 0 ==> c.client == s.client.info)
    ensures s.choice.Some? ==>
              var c := s.choice.value;
              if c.endpoint.code != 0 then
                Tells(s.client.closeFrames, s.supplier.closeFrames, s.supplier.info.code, s.supplier.info.text)
              else if c.client.code != 0 then
                Tells(s.client.closeFrames, s.supplier.closeFrames, s.client.info.code, s.client.info.text)
              else
                Tells(s.client.closeFrames, s.supplier.closeFrames, ByError(c.err).code, ByError(c.err).text)
    ensures forall f :: f in s.client.closeFrames + s.supplier.closeFrames ==> f.code !in {1005, 1006, 1015}
    ensures forall f :: f in s.supplier.closeFrames ==> f.code !in {1011, 1012, 1013}
  {
    InvReachable(env, s);
    if s.choice.Some? {
      FramesTell(Meant(s.choice.value));
    }
  }

  /** A shutdown is begun by someone who asked for it, with the error they asked with; when no peer gave a code, an
      ended session tells the client to reconnect, and a failed connection that something went wrong. */
  lemma ErrorsReachTheClient(env: Env, s: State)
    requires Reachable(env, s)
    ensures s.start.Some? ==> Fits(s.start.value.who, s.start.value.err)
    ensures s.choice.Some? ==> s.start.Some? && s.choice.value.err == s.start.value.err
    ensures s.choice.Some? && s.choice.value.endpoint.code == 0 && s.choice.value.client.code == 0 ==>
              && s.start.Some?
              && (s.start.value.who == Watcher ==>
                    && (forall f :: f in s.client.closeFrames ==> f == Info(1012, "session ended, please reconnect"))
                    && (forall f :: f in s.supplier.closeFrames ==> f == Info(1001, "session ended, please reconnect")))
              && (s.start.value.who.Reader? && s.start.value.err.wraps <= {ConnectionFailed} ==>
                    forall f :: f in s.client.closeFrames ==> f.code == 1011)
  {
    InvReachable(env, s);
    CloseFrames(env, s);
    EndedSession();
  }

  lemma EndedSession()
    ensures ByError(Error({SessionExpired}, "websockets: session expired"))
         == Info(1012, "session ended, please reconnect")
  {
    Reasons(Error({SessionExpired}, "websockets: session expired"));
  }

  /** A read loop hands its frame over unless 32 frames wait; more never do. */
  lemma HandsOver(env: Env, s: State, x: Source)
    requires Reachable(env, s) && PeerOf(s, x).reader.Pushing?
    ensures Can(env, s, ByReader(x, Push)) <==> |s.chan| != 32
    ensures |s.chan| <= 32
  {
    InvReachable(env, s);
  }

  /** After both connections are closed the routing loop takes at most 34 frames, whatever the schedule. */
  lemma FewLateFrames(env: Env, s: State, run: seq<Step>, t: State)
    requires Reachable(env, s) && BothClosed(s) && Leads(env, s, run, t)
    ensures Count(run, Takes) + |t.chan| <= 34
  {
    InvReachable(env, s);
    TakesUsePot(env, s, run, t);
  }

  lemma {:induction false} TakesUsePot(env: Env, s: State, run: seq<Step>, t: State)
    requires Inv(env, s) && BothClosed(s) && Leads(env, s, run, t)
    ensures Count(run, Takes) + Pot(t) <= Pot(s)
    decreases |run|
  {
    if run != [] {
      InvStep(env, s, run[0]);
      PotKept(env, s, run[0]);
      TakesUsePot(env, Do(env, s, run[0]), run[1..], t);
    }
  }

  // ---- convergence ----

  function RouterWeight(r: RouterPC): (n: nat)
    ensures n <= 8
  {
    match r
    case RouterGone => 0
    case RouterCloses(_, t) => (match t case Exit => 1 case Leave => 2 case Loop => 4)
    case Selecting => 3
    case Writing(_, _) => 5
    case Processing(_) => 6
    case Signing(_) => 7
    case Gate(_) => 8
  }

  function ReaderWeight(r: ReaderPC): (n: nat)
    ensures n <= 5
  {
    match r
    case ReaderGone => 0
    case ReaderCloses(_, t) => (if t.Exit? then 1 else 2)
    case Noting(_, _) => 3
    case Reading => 4
    case Pushing(_) => 5
  }

  /** How much work the bridge's own goroutines have left once the connections are closed. */
  function Rank(s: State): (n: int) {
    9 * Pot(s) + RouterWeight(s.router) + ReaderWeight(s.client.reader) + ReaderWeight(s.supplier.reader)
    + 9 - Progress(s.once)
  }

  /** A step of the routing loop, a read loop or the shutdown body. */
  predicate Own(a: Step) {
    a.ByRouter? || a.ByReader? || a.Body? || (a.Return? && (a.who.Router? || a.who.Reader?))
  }

  lemma RankRouter(env: Env, s: State, r: RouterStep)
    requires InvOnce(s) && BothClosed(s) && RouterCan(env, s, r)
    ensures Rank(RouterDo(env, s, r)) < Rank(s)
  {
    RouterFrame(env, s, r);
    var t := RouterDo(env, s, r);
    if r.Take? {
      assert |t.chan| == |s.chan| - 1;
    } else {
      assert t.chan == s.chan;
      assert RouterWeight(t.router) < RouterWeight(s.router);
    }
  }

  lemma RankReader(s: State, x: Source, d: ReaderStep)
    requires InvOnce(s) && BothClosed(s) && ReaderCan(s, x, d)
    ensures Rank(ReaderDo(s, x, d)) < Rank(s)
  {
    ReaderFrame(s, x, d);
    var t := ReaderDo(s, x, d);
    assert ReaderWeight(PeerOf(t, x).reader) < ReaderWeight(PeerOf(s, x).reader);
    assert |t.chan| + |Held(PeerOf(t, x).reader)| <= |s.chan| + |Held(PeerOf(s, x).reader)|;
  }

  lemma RankStep(env: Env, s: State, a: Step)
    requires Inv(env, s) && BothClosed(s) && Can(env, s, a)
    ensures Rank(Do(env, s, a)) <= Rank(s) - (if Own(a) then 1 else 0)
  {
    match a
    case ByRouter(r) => RankRouter(env, s, r);
    case ByReader(x, d) => RankReader(s, x, d);
    case ByOther(o) =>
      var t := OtherDo(env, s, o);
      assert t.client == s.client && t.supplier == s.supplier;
      assert t.chan == s.chan && t.router == s.router && t.once == s.once;
    case Enter(who) =>
    case Body => OnceByShutdown(s, Router); RankBody(s);
    case Return(who) => RankReturn(s, who);
  }

  lemma RankBody(s: State)
    requires CanBody(s) && Progress(DoBody(s).once) > Progress(s.once)
    ensures Rank(DoBody(s)) < Rank(s)
  {
    var t := DoBody(s);
    assert t.router == s.router && t.chan == s.chan;
    assert t.client.reader == s.client.reader && t.supplier.reader == s.supplier.reader;
  }

  lemma RankReturn(s: State, who: Who)
    requires CanReturn(s, who)
    ensures Rank(DoReturn(s, who)) <= Rank(s) - (if who.Router? || who.Reader? then 1 else 0)
  {
  }

  /** Once the connections are closed, every run, however scheduled, has only so many own steps left. */
  lemma {:induction false} OwnStepsBounded(env: Env, s: State, run: seq<Step>, t: State)
    requires Inv(env, s) && BothClosed(s) && Leads(env, s, run, t)
    ensures BothClosed(t) && Count(run, Own) + Rank(t) <= Rank(s)
    decreases |run|
  {
    if run != [] {
      InvStep(env, s, run[0]);
      PotKept(env, s, run[0]);
      RankStep(env, s, run[0]);
      OwnStepsBounded(env, Do(env, s, run[0]), run[1..], t);
    }
  }

  /** And until the routing loop and both read loops are gone, one of those steps is always possible. */
  lemma NeverStuck(env: Env, s: State) returns (a: Step)
    requires Inv(env, s) && BothClosed(s)
    requires !(s.router.RouterGone? && s.client.reader.ReaderGone? && s.supplier.reader.ReaderGone?)
    ensures Own(a) && Can(env, s, a)
  {
    var failed := Error({ConnectionFailed, MessageProcessing}, "");
    if s.once.Running? {
      OnceByShutdown(s, Router);
      return Body;
    }
    match s.router
    case Selecting => return ByRouter(SeeCancel);
    case Gate(_) => return ByRouter(LoadGate);
    case Signing(_) => return ByRouter(BeginSign);
    case Processing(_) => return ByRouter(ProcessFails(failed));
    case Writing(_, _) => return ByRouter(WriteFails(failed));
    case RouterCloses(_, _) => return Return(Router);
    case RouterGone =>
      var x := if s.client.reader.ReaderGone? then Supplier else Client;
      match PeerOf(s, x).reader
      case Reading => return ByReader(x, ReadFails(NO_INFO, failed));
      case Noting(_, _) => return ByReader(x, Note);
      case Pushing(_) => return ByReader(x, GiveUp);
      case ReaderCloses(_, _) => return Return(Reader(x));
      case ReaderGone => assert false;
  }

  /** Any reachable bridge with closed connections is a bounded number of own steps from complete exit, with `done`
      closed. */
  lemma {:induction false} Converges(env: Env, s: State) returns (run: seq<Step>, t: State)
    requires Inv(env, s) && BothClosed(s)
    ensures Leads(env, s, run, t) && Count(run, Own) == |run| <= Rank(s)
    ensures t.router.RouterGone? && t.client.reader.ReaderGone? && t.supplier.reader.ReaderGone? && t.done == 1
    decreases Rank(s)
  {
    RankNonNegative(s);
    if s.router.RouterGone? && s.client.reader.ReaderGone? && s.supplier.reader.ReaderGone? {
      return [], s;
    }
    var a := NeverStuck(env, s);
    var n := Do(env, s, a);
    InvStep(env, s, a);
    PotKept(env, s, a);
    RankStep(env, s, a);
    RankNonNegative(n);
    var rest;
    rest, t := Converges(env, n);
    run := [a] + rest;
    assert run[1..] == rest;
  }

  lemma RankNonNegative(s: State)
    requires |s.chan| <= MSG_CHAN_SIZE
    ensures 0 <= Rank(s) <= 334
  {
  }

  /** From any reachable state with closed connections, every schedule of the bridge's own goroutines is bounded by a
      constant, and some schedule reaches complete exit with `done` closed. */
  lemma ShutdownConverges(env: Env, s: State, run: seq<Step>, t: State)
    requires Reachable(env, s) && BothClosed(s) && Leads(env, s, run, t)
    ensures Count(run, Own) <= 334
    ensures exists more, end :: Leads(env, t, more, end) && AllGone(end) && end.done == 1
  {
    InvReachable(env, s);
    InvRun(env, s, run, t);
    OwnStepsBounded(env, s, run, t);
    RankNonNegative(s);
    RankNonNegative(t);
    var more, end := Converges(env, t);
  }

  /** The shutdown body has begun, or some goroutine is waiting to run it. */
  ghost predicate ShuttingDown(s: State) {
    !s.once.Idle? || exists who :: Waiting(s, who).Some?
  }

  /** From any invariant state in which a shutdown has begun or is asked for, complete exit can be reached. */
  lemma {:induction false} ExitWithinReach(env: Env, s: State) returns (run: seq<Step>, t: State)
    requires Inv(env, s) && ShuttingDown(s)
    ensures Leads(env, s, run, t) && AllGone(t) && t.done == 1
    decreases 10 - Progress(s.once)
  {
    if BothClosed(s) {
      run, t := Converges(env, s);
    } else {
      var a := Body;
      if s.once.Idle? {
        var who :| Waiting(s, who).Some?;
        a := Enter(who);
      }
      OnceByShutdown(s, if a.Enter? then a.who else Router);
      InvStep(env, s, a);
      var rest;
      rest, t := ExitWithinReach(env, Do(env, s, a));
      run := [a] + rest;
      assert run[1..] == rest;
    }
  }

  /** Once a shutdown is asked for, by anyone and for any cause, no run can lose it: from every state that any further
      run leads to, complete exit with `done` closed is still reachable. */
  lemma ShutdownIsNeverLost(env: Env, s: State, run: seq<Step>, t: State)
    requires Reachable(env, s) && ShuttingDown(s) && Leads(env, s, run, t)
    ensures exists more, end :: Leads(env, t, more, end) && AllGone(end) && end.done == 1
  {
    InvReachable(env, s);
    StaysShuttingDown(env, s, run, t);
    var more, end := ExitWithinReach(env, t);
  }

  lemma {:induction false} StaysShuttingDown(env: Env, s: State, run: seq<Step>, t: State)
    requires Inv(env, s) && ShuttingDown(s) && Leads(env, s, run, t)
    ensures Inv(env, t) && ShuttingDown(t)
    decreases |run|
  {
    if run != [] {
      InvStep(env, s, run[0]);
      StillShuttingDown(env, s, run[0]);
      StaysShuttingDown(env, Do(env, s, run[0]), run[1..], t);
    }
  }

  lemma StillShuttingDown(env: Env, s: State, a: Step)
    requires ShuttingDown(s) && Can(env, s, a)
    ensures ShuttingDown(Do(env, s, a))
  {
    var t := Do(env, s, a);
    match a
    case ByRouter(r) => RouterLeavesWaiting(env, s, r);
    case ByReader(x, d) => ReaderLeavesWaiting(s, x, d);
    case ByOther(o) => OtherLeavesWaiting(env, s, o);
    case Enter(who) => assert t.once.Running?;
    case Body => assert !t.once.Idle?;
    case Return(who) => assert t.once == s.once;
  }

  /** Nobody who waits in Shutdown moves on by any other step. */
  ghost predicate KeepsWaiting(s: State, t: State) {
    t.once == s.once && forall who :: Waiting(s, who).Some? ==> Waiting(t, who).Some?
  }

  lemma RouterLeavesWaiting(env: Env, s: State, r: RouterStep)
    requires RouterCan(env, s, r)
    ensures KeepsWaiting(s, RouterDo(env, s, r))
  {
    RouterFrame(env, s, r);
    assert !s.router.RouterCloses?;
  }

  lemma ReaderLeavesWaiting(s: State, x: Source, d: ReaderStep)
    requires ReaderCan(s, x, d)
    ensures KeepsWaiting(s, ReaderDo(s, x, d))
  {
    ReaderFrame(s, x, d);
    assert !PeerOf(s, x).reader.ReaderCloses?;
  }

  lemma OtherLeavesWaiting(env: Env, s: State, o: OtherStep)
    requires OtherCan(s, o)
    ensures KeepsWaiting(s, OtherDo(env, s, o))
  {
    var t := OtherDo(env, s, o);
    assert t.client == s.client && t.supplier == s.supplier && t.router == s.router;
    assert !s.watcher.WatcherCloses? || t.watcher == s.watcher;
  }

  predicate AllGone(s: State) {
    s.router.RouterGone? && s.client.reader.ReaderGone? && s.supplier.reader.ReaderGone?
  }
}
