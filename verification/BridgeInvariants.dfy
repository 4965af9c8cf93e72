/** What every step of the bridge keeps. */
module BridgeInvariants {
  import opened Domain
  import opened Bridge

  // ---- the shutdown body ----

  /** How far the once has got: -1 before it starts, 9 when it has returned. */
  function Progress(o: Once): (n: int) {
    match o
    case Idle => -1
    case Finished => 9
    case Running(_, _, stage) =>
      match stage
      case Cancel => 0 case AskEndpoint => 1 case AskClient => 2 case TellClient => 3 case CloseClient => 4
      case TellEndpoint => 5 case CloseEndpoint => 6 case CloseDone => 7 case Finish => 8
  }

  ghost predicate InvOnce(s: State) {
    var n := Progress(s.once);
    && s.bodies == (if n >= 0 then 1 else 0)
    && (n >= 1 ==> s.cancelled)
    && (s.client.closed <==> n >= 5)
    && (s.supplier.closed <==> n >= 7)
    && s.done == (if n >= 8 then 1 else 0)
    && (s.start.Some? <==> n >= 0)
    && (s.choice.Some? <==> n >= 3)
  }

  /** A goroutine that is past its last Shutdown call, or that returned from one, saw the body finish. */
  ghost predicate InvExit(s: State) {
    && (s.router.RouterGone? ==> s.once.Finished?)
    && (s.client.reader.ReaderGone? ==> s.once.Finished?)
    && (s.supplier.reader.ReaderGone? ==> s.once.Finished?)
    && (forall id :: id in s.outside && s.outside[id].Returned? ==> s.once.Finished?)
  }

  /** The parts of the state only Shutdown and the surroundings change. */
  ghost predicate SameShutdown(s: State, t: State) {
    && t.once == s.once && t.bodies == s.bodies && t.cancelled == s.cancelled && t.done == s.done
    && t.start == s.start && t.choice == s.choice && t.outside == s.outside
    && t.heights == s.heights && t.offAt == s.offAt
    && t.client.closed == s.client.closed && t.supplier.closed == s.supplier.closed
    && t.client.closeFrames == s.client.closeFrames && t.supplier.closeFrames == s.supplier.closeFrames
  }

  /** The routing loop touches no read loop and no close information. */
  ghost predicate SameReaders(s: State, t: State) {
    && t.client.reader == s.client.reader && t.supplier.reader == s.supplier.reader
    && t.client.info == s.client.info && t.supplier.info == s.supplier.info
    && t.client.read == s.client.read && t.supplier.read == s.supplier.read
  }

  lemma RouterFrame(env: Env, s: State, a: RouterStep)
    requires RouterCan(env, s, a)
    ensures SameShutdown(s, RouterDo(env, s, a)) && SameReaders(s, RouterDo(env, s, a))
    ensures RouterDo(env, s, a).watcher == s.watcher && RouterDo(env, s, a).active == s.active
    ensures !RouterDo(env, s, a).router.RouterGone?
  {
    if a.Take? || a.WriteOk? {
      TransferFrame(env, s, a);
    }
  }

  /** The two steps of the routing loop that change a peer, and there only what was taken and written. */
  lemma TransferFrame(env: Env, s: State, a: RouterStep)
    requires RouterCan(env, s, a) && (a.Take? || a.WriteOk?)
    ensures SameShutdown(s, RouterDo(env, s, a)) && SameReaders(s, RouterDo(env, s, a))
    ensures RouterDo(env, s, a).watcher == s.watcher && RouterDo(env, s, a).active == s.active
    ensures !RouterDo(env, s, a).router.RouterGone?
  {
    TransferPeers(env, s, a);
  }

  lemma TransferPeers(env: Env, s: State, a: RouterStep)
    requires RouterCan(env, s, a) && (a.Take? || a.WriteOk?)
    ensures var t := RouterDo(env, s, a);
            && t == s.(client := t.client, supplier := t.supplier, chan := t.chan, router := t.router)
            && t.client == s.client.(taken := t.client.taken, wrote := t.client.wrote)
            && t.supplier == s.supplier.(taken := t.supplier.taken, wrote := t.supplier.wrote)
            && !t.router.RouterGone?
  {
  }

  lemma OnceByRouter(env: Env, s: State, a: RouterStep)
    requires InvOnce(s) && InvExit(s) && RouterCan(env, s, a)
    ensures InvOnce(RouterDo(env, s, a)) && InvExit(RouterDo(env, s, a))
  {
    RouterFrame(env, s, a);
  }

  /** A read loop changes its own peer, and there only what it read, what it captured and where it stands. */
  lemma ReaderPeer(s: State, x: Source, a: ReaderStep)
    requires ReaderCan(s, x, a)
    ensures var t := ReaderDo(s, x, a);
            var p, q := PeerOf(s, x), PeerOf(t, x);
            && t == Put(s, x, q).(chan := t.chan)
            && q == p.(reader := q.reader, read := q.read, info := q.info)
            && !q.reader.ReaderGone? && (!a.Push? ==> t.chan == s.chan)
  {
  }

  lemma OnceByReader(s: State, x: Source, a: ReaderStep)
    requires InvOnce(s) && InvExit(s) && ReaderCan(s, x, a)
    ensures InvOnce(ReaderDo(s, x, a)) && InvExit(ReaderDo(s, x, a))
  {
    ReaderPeer(s, x, a);
    if x.Client? {
      assert ReaderDo(s, x, a).supplier == s.supplier;
    } else {
      assert ReaderDo(s, x, a).client == s.client;
    }
  }

  lemma OnceByOther(env: Env, s: State, a: OtherStep)
    requires InvOnce(s) && InvExit(s) && OtherCan(s, a)
    ensures InvOnce(OtherDo(env, s, a)) && InvExit(OtherDo(env, s, a))
  {
  }

  lemma OnceByShutdown(s: State, who: Who)
    requires InvOnce(s) && InvExit(s)
    ensures CanEnter(s, who) ==> InvOnce(DoEnter(s, who)) && InvExit(DoEnter(s, who))
    ensures s.once.Running? ==> CanBody(s)
    ensures CanBody(s) ==> InvOnce(DoBody(s)) && InvExit(DoBody(s)) && Progress(DoBody(s).once) > Progress(s.once)
    ensures CanReturn(s, who) ==> InvOnce(DoReturn(s, who)) && InvExit(DoReturn(s, who))
  {
  }

  // ---- order and no gaps ----

  /** The frames from one peer waiting in the channel. */
  function Queued(chan: seq<Message>, x: Source): (fs: seq<Frame>) {
    if chan == [] then [] else (if chan[0].source == x then [chan[0].frame] else []) + Queued(chan[1..], x)
  }

  lemma {:induction false} QueuedPush(chan: seq<Message>, m: Message, x: Source)
    ensures Queued(chan + [m], x) == Queued(chan, x) + (if m.source == x then [m.frame] else [])
  {
    if chan == [] {
      assert chan + [m] == [m];
    } else {
      assert (chan + [m])[0] == chan[0] && (chan + [m])[1..] == chan[1..] + [m];
      QueuedPush(chan[1..], m, x);
    }
  }

  /** The frame the read loop holds but has not queued. */
  function Held(r: ReaderPC): (fs: seq<Frame>) {
    if r.Pushing? then [r.frame] else []
  }

  /** The message the routing loop is working on. */
  function InHand(r: RouterPC): (m: Option<Message>) {
    match r
    case Gate(m) => Some(m)
    case Signing(m) => Some(m)
    case Processing(m) => Some(m)
    case Writing(m, _) => Some(m)
    case _ => None
  }

  /** Everything read from a peer is taken, queued or held, in that order; only a read loop on its way out may lose
      its last frame. */
  ghost predicate InvRead(p: Peer, queued: seq<Frame>) {
    if p.reader.Reading? || p.reader.Pushing? then p.read == p.taken + queued + Held(p.reader)
    else p.taken + queued <= p.read
  }

  /** What was written to the far side of `x` is the image of the first frames taken from `x`. */
  ghost predicate Images(env: Env, x: Source, taken: seq<Frame>, wrote: seq<Frame>) {
    && |wrote| <= |taken|
    && forall i :: 0 <= i < |wrote| ==> wrote[i].kind == taken[i].kind && Image(env, x, taken[i].data, wrote[i].data)
  }

  /** Whether the routing loop holds a frame from `x`. */
  predicate Busy(r: RouterPC, x: Source) {
    InHand(r).Some? && InHand(r).value.source == x
  }

  /** `stuck` once the shutdown body has finished: from then on no write succeeds. Until then, and while the routing
      loop is not itself shutting down, nothing it took is missing on the far side. */
  ghost predicate InvWrite(env: Env, x: Source, taken: seq<Frame>, wrote: seq<Frame>, r: RouterPC, stuck: bool) {
    && Images(env, x, taken, wrote)
    && (Busy(r, x) ==> taken != [] && taken[|taken| - 1] == InHand(r).value.frame)
    && (r.Writing? && r.msg.source == x ==> Image(env, x, r.msg.frame.data, r.out))
    && (!stuck && !r.RouterCloses? && !r.RouterGone? ==> |wrote| + (if Busy(r, x) then 1 else 0) == |taken|)
  }

  ghost predicate InvFlow(env: Env, s: State) {
    && |s.chan| <= MSG_CHAN_SIZE
    && InvRead(s.client, Queued(s.chan, Client)) && InvRead(s.supplier, Queued(s.chan, Supplier))
    && InvWrite(env, Client, s.client.taken, s.supplier.wrote, s.router, s.once.Finished?)
    && InvWrite(env, Supplier, s.supplier.taken, s.client.wrote, s.router, s.once.Finished?)
  }

  /** Taking a frame moves it from the queue to the taken list and into the loop's hand. */
  lemma TakeMoves(env: Env, x: Source, p: Peer, chan: seq<Message>, wrote: seq<Frame>, stuck: bool)
    requires chan != [] && InvRead(p, Queued(chan, x)) && InvWrite(env, x, p.taken, wrote, Selecting, stuck)
    ensures var m := chan[0];
            var r := if m.source.Client? then Gate(m) else Processing(m);
            var q := if m.source == x then p.(taken := p.taken + [m.frame]) else p;
            InvRead(q, Queued(chan[1..], x)) && InvWrite(env, x, q.taken, wrote, r, stuck)
  {
    TakeReads(x, p, chan);
  }

  lemma {:induction false} TakeReads(x: Source, p: Peer, chan: seq<Message>)
    requires chan != [] && InvRead(p, Queued(chan, x))
    ensures InvRead(if chan[0].source == x then p.(taken := p.taken + [chan[0].frame]) else p, Queued(chan[1..], x))
  {
    var f, rest := chan[0].frame, Queued(chan[1..], x);
    if chan[0].source == x {
      assert Queued(chan, x) == [f] + rest;
      assert p.taken + ([f] + rest) == (p.taken + [f]) + rest;
    } else {
      assert Queued(chan, x) == [] + rest == rest;
    }
  }

  lemma FlowTake(env: Env, s: State)
    requires InvFlow(env, s) && RouterCan(env, s, Take)
    ensures InvFlow(env, RouterDo(env, s, Take))
  {
    TakeMoves(env, Client, s.client, s.chan, s.supplier.wrote, s.once.Finished?);
    TakeMoves(env, Supplier, s.supplier, s.chan, s.client.wrote, s.once.Finished?);
  }

  /** A write that succeeds extends the image by exactly the frame in hand. */
  lemma WriteExtends(env: Env, x: Source, taken: seq<Frame>, wrote: seq<Frame>, r: RouterPC)
    requires r.Writing? && InvWrite(env, x, taken, wrote, r, false)
    ensures InvWrite(env, x, taken,
                     if r.msg.source == x then wrote + [Frame(r.msg.frame.kind, r.out)] else wrote, Selecting, false)
  {
  }

  lemma FlowWrite(env: Env, s: State)
    requires InvFlow(env, s) && InvOnce(s) && RouterCan(env, s, WriteOk)
    ensures InvFlow(env, RouterDo(env, s, WriteOk))
  {
    assert !s.once.Finished?;
    WriteExtends(env, Client, s.client.taken, s.supplier.wrote, s.router);
    WriteExtends(env, Supplier, s.supplier.taken, s.client.wrote, s.router);
  }

  /** The steps that only move the routing loop's own program counter. */
  lemma RouterMoves(env: Env, x: Source, taken: seq<Frame>, wrote: seq<Frame>, s: State, a: RouterStep, stuck: bool)
    requires RouterCan(env, s, a) && !a.Take? && !a.WriteOk? && InvWrite(env, x, taken, wrote, s.router, stuck)
    ensures InvWrite(env, x, taken, wrote, RouterDo(env, s, a).router, stuck)
  {
  }

  lemma RouterOnlyMoves(env: Env, s: State, a: RouterStep)
    requires RouterCan(env, s, a) && !a.Take? && !a.WriteOk?
    ensures var t := RouterDo(env, s, a); t.chan == s.chan && t.client == s.client && t.supplier == s.supplier
  {
  }

  lemma FlowRouter(env: Env, s: State, a: RouterStep)
    requires InvFlow(env, s) && InvOnce(s) && RouterCan(env, s, a)
    ensures InvFlow(env, RouterDo(env, s, a))
  {
    if a.Take? {
      FlowTake(env, s);
    } else if a.WriteOk? {
      FlowWrite(env, s);
    } else {
      RouterFrame(env, s, a);
      RouterOnlyMoves(env, s, a);
      RouterMoves(env, Client, s.client.taken, s.supplier.wrote, s, a, s.once.Finished?);
      RouterMoves(env, Supplier, s.supplier.taken, s.client.wrote, s, a, s.once.Finished?);
    }
  }

  /** A read loop's step keeps its own accounting. */
  lemma ReaderKeeps(s: State, x: Source, a: ReaderStep)
    requires ReaderCan(s, x, a) && InvRead(PeerOf(s, x), Queued(s.chan, x)) && |s.chan| <= MSG_CHAN_SIZE
    ensures var t := ReaderDo(s, x, a); InvRead(PeerOf(t, x), Queued(t.chan, x)) && |t.chan| <= MSG_CHAN_SIZE
  {
    var p, queued := PeerOf(s, x), Queued(s.chan, x);
    match a
    case Push =>
      QueuedPush(s.chan, Message(x, p.reader.frame), x);
      assert p.taken + queued + [p.reader.frame] == p.taken + (queued + [p.reader.frame]) + [];
    case ReadOk(f) =>
      assert p.taken + queued + [] == p.taken + queued;
    case _ =>
  }

  lemma ReaderFrame(s: State, x: Source, a: ReaderStep)
    requires ReaderCan(s, x, a)
    ensures var t := ReaderDo(s, x, a);
            && SameShutdown(s, t) && t.router == s.router && t.watcher == s.watcher && t.active == s.active
            && t.client.taken == s.client.taken && t.client.wrote == s.client.wrote
            && t.supplier.taken == s.supplier.taken && t.supplier.wrote == s.supplier.wrote
            && PeerOf(t, Other(x)) == PeerOf(s, Other(x)) && Queued(t.chan, Other(x)) == Queued(s.chan, Other(x))
  {
    ReaderPeer(s, x, a);
    if a.Push? {
      QueuedPush(s.chan, Message(x, PeerOf(s, x).reader.frame), Other(x));
    }
  }

  lemma FlowReader(env: Env, s: State, x: Source, a: ReaderStep)
    requires InvFlow(env, s) && ReaderCan(s, x, a)
    ensures InvFlow(env, ReaderDo(s, x, a))
  {
    ReaderKeeps(s, x, a);
    ReaderFrame(s, x, a);
  }

  /** What the rest of the system leaves alone. */
  ghost predicate SameFlow(s: State, t: State) {
    && t.chan == s.chan
    && t.client.taken == s.client.taken && t.client.wrote == s.client.wrote && t.client.read == s.client.read
    && t.supplier.taken == s.supplier.taken && t.supplier.wrote == s.supplier.wrote
    && t.supplier.read == s.supplier.read
  }

  lemma FlowOther(env: Env, s: State, o: OtherStep)
    requires InvFlow(env, s) && OtherCan(s, o)
    ensures InvFlow(env, OtherDo(env, s, o)) && SameFlow(s, OtherDo(env, s, o))
  {
    var t := OtherDo(env, s, o);
    assert t.client == s.client && t.supplier == s.supplier && t.router == s.router && t.once == s.once;
  }

  lemma FlowEnter(env: Env, s: State, who: Who)
    requires InvFlow(env, s) && CanEnter(s, who)
    ensures InvFlow(env, DoEnter(s, who)) && SameFlow(s, DoEnter(s, who))
  {
  }

  lemma FlowBody(env: Env, s: State)
    requires InvFlow(env, s) && CanBody(s)
    ensures InvFlow(env, DoBody(s)) && SameFlow(s, DoBody(s))
  {
    var t := DoBody(s);
    assert SameFlow(s, t) && t.router == s.router;
    assert t.client.reader == s.client.reader && t.supplier.reader == s.supplier.reader;
  }

  lemma ReturnFlow(s: State, who: Who)
    requires CanReturn(s, who)
    ensures SameFlow(s, DoReturn(s, who))
  {
  }

  lemma FlowReturn(env: Env, s: State, who: Who)
    requires InvFlow(env, s) && CanReturn(s, who)
    ensures InvFlow(env, DoReturn(s, who)) && SameFlow(s, DoReturn(s, who))
  {
    var t := DoReturn(s, who);
    ReturnFlow(s, who);
    assert InHand(t.router) == InHand(s.router) && (t.router.Writing? ==> t.router == s.router);
  }
}
