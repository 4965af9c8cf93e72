/** Nothing happens on the bridge without its cause: no shutdown, no close code, no loop that ends. */
module BridgeCauses {
  import opened Domain
  import opened CloseCodes
  import opened Bridge
  import opened BridgeInvariants
  import opened BridgeTheorems
  import opened BridgeTraffic

  // ---- no shutdown without a cause ----

  /** What may bring a bridge down: a failed read, frame or write, a panic, the session's end, or somebody outside. */
  predicate Breaks(a: Step) {
    match a
    case ByRouter(r) => r.ProcessFails? || r.WriteFails? || r.RoutePanics? || r.RunPanics?
    case ByReader(_, d) => d.ReadFails? || d.ReadPanics?
    case ByOther(o) => o.Deactivate? || o.Call? || o.ParentCancels?
    case _ => false
  }

  /** Nobody has asked for a shutdown, or is about to. */
  ghost predicate Calm(s: State) {
    && Up(s) && !s.cancelled && !s.watcher.WatcherCloses?
    && forall id :: id in s.outside ==> !s.outside[id].Calling?
  }

  lemma CalmStep(env: Env, s: State, a: Step)
    requires Calm(s) && Can(env, s, a) && !Breaks(a)
    ensures var t := Do(env, s, a);
            Calm(t) && t.client.closed == s.client.closed && t.supplier.closed == s.supplier.closed
  {
    match a
    case ByRouter(r) => RouterFrame(env, s, r);
    case ByReader(x, d) => ReaderFrame(s, x, d); CalmReader(s, x, d);
    case ByOther(o) =>
    case Enter(who) =>
    case Body =>
    case Return(who) =>
  }

  lemma CalmReader(s: State, x: Source, d: ReaderStep)
    requires Calm(s) && ReaderCan(s, x, d) && !d.ReadFails? && !d.ReadPanics?
    ensures ReaderUp(PeerOf(ReaderDo(s, x, d), x).reader) && ReaderDo(s, x, d).cancelled == s.cancelled
  {
  }

  /** A calm bridge, such as a new one, stays up with both connections open until something breaks it. */
  lemma {:induction false} NoShutdownWithoutCause(env: Env, s: State, run: seq<Step>, t: State)
    requires Calm(s) && Leads(env, s, run, t) && forall i :: 0 <= i < |run| ==> !Breaks(run[i])
    ensures Calm(t) && t.client.closed == s.client.closed && t.supplier.closed == s.supplier.closed
    decreases |run|
  {
    if run != [] {
      CalmStep(env, s, run[0]);
      assert forall i :: 0 <= i < |run[1..]| ==> run[1..][i] == run[i + 1];
      NoShutdownWithoutCause(env, Do(env, s, run[0]), run[1..], t);
    }
  }

  lemma NewBridgeIsCalm(s: State)
    requires Init(s)
    ensures Calm(s)
  {
  }

  // ---- close codes ----

  /** The code a read failed with is stored, or about to be. */
  predicate Caught(p: Peer, info: Info) {
    || (p.reader.Noting? && p.reader.info == info)
    || (p.info == info && (p.reader.ReaderCloses? || p.reader.ReaderGone?))
  }

  lemma CaughtStep(env: Env, s: State, a: Step, x: Source, info: Info)
    requires Can(env, s, a) && Caught(PeerOf(s, x), info)
    ensures Caught(PeerOf(Do(env, s, a), x), info)
    ensures a == ByReader(x, Note) ==> PeerOf(Do(env, s, a), x).info == info
  {
    var p, q := PeerOf(s, x), PeerOf(Do(env, s, a), x);
    match a
    case ByRouter(r) => RouterFrame(env, s, r);
    case ByReader(y, d) => ReaderFrame(s, y, d);
    case ByOther(o) => assert q == p;
    case Enter(who) => assert q == p;
    case Body => assert q.reader == p.reader && q.info == p.info;
    case Return(who) =>
  }

  lemma {:induction false} StaysCaught(env: Env, s: State, run: seq<Step>, t: State, x: Source, info: Info)
    requires Leads(env, s, run, t) && Caught(PeerOf(s, x), info)
    ensures Caught(PeerOf(t, x), info)
    decreases |run|
  {
    if run != [] {
      CaughtStep(env, s, run[0], x, info);
      StaysCaught(env, Do(env, s, run[0]), run[1..], t, x, info);
    }
  }

  /** A code that a peer's read fails with is stored for good: by the next step of its read loop, before that loop
      asks for the shutdown. */
  lemma CodeIsCaught(env: Env, s: State, x: Source, info: Info, err: Cause, run: seq<Step>, t: State)
    requires Can(env, s, ByReader(x, ReadFails(info, err))) && info.code != 0
    requires Leads(env, Do(env, s, ByReader(x, ReadFails(info, err))), run, t)
    ensures Caught(PeerOf(t, x), info)
  {
    StaysCaught(env, Do(env, s, ByReader(x, ReadFails(info, err))), run, t, x, info);
  }

  /** Some read of this peer failed with this code. */
  ghost predicate FailedWith(run: seq<Step>, x: Source, info: Info) {
    exists i :: 0 <= i < |run| && FailsWith(run[i], x, info)
  }

  predicate FailsWith(a: Step, x: Source, info: Info) {
    a.ByReader? && a.side == x && a.d.ReadFails? && a.d.info == info
  }

  predicate Knows(p: Peer, info: Info) {
    p.info == info || (p.reader.Noting? && p.reader.info == info)
  }

  lemma KnowsStep(env: Env, s: State, a: Step, x: Source, info: Info)
    requires Can(env, s, a) && Knows(PeerOf(Do(env, s, a), x), info)
    ensures Knows(PeerOf(s, x), info) || FailsWith(a, x, info)
  {
    var p, q := PeerOf(s, x), PeerOf(Do(env, s, a), x);
    match a
    case ByRouter(r) => RouterFrame(env, s, r);
    case ByReader(y, d) => ReaderFrame(s, y, d);
    case ByOther(o) => assert q == p;
    case Enter(who) => assert q == p;
    case Body => assert q.reader == p.reader && q.info == p.info;
    case Return(who) => KnowsReturn(s, who, x);
  }

  lemma KnowsReturn(s: State, who: Who, x: Source)
    requires CanReturn(s, who)
    ensures var p, q := PeerOf(s, x), PeerOf(DoReturn(s, who), x);
            q.info == p.info && (q.reader.Noting? ==> q.reader == p.reader)
  {
  }

  /** And no code is stored that the peer did not send. */
  lemma {:induction false} CodeHasSource(env: Env, s: State, run: seq<Step>, t: State, x: Source, info: Info)
    requires Leads(env, s, run, t) && Knows(PeerOf(t, x), info)
    ensures Knows(PeerOf(s, x), info) || FailedWith(run, x, info)
    decreases |run|
  {
    if run != [] {
      var n := Do(env, s, run[0]);
      CodeHasSource(env, n, run[1..], t, x, info);
      if Knows(PeerOf(n, x), info) {
        KnowsStep(env, s, run[0], x, info);
      } else {
        var i :| 0 <= i < |run[1..]| && FailsWith(run[1..][i], x, info);
        assert run[i + 1] == run[1..][i];
      }
    }
  }

  // ---- how the loops end ----

  predicate RouterLastWords(r: RouterPC) {
    r.RouterCloses? && r.then_.Exit? ==> r.err == Error({BridgeCanceled}, "websockets: context canceled")
  }

  predicate ReaderLastWords(r: ReaderPC) {
    r.ReaderCloses? && r.then_.Exit? ==> r.err == Error({ConnectionFailed}, "read loop ended")
  }

  predicate LastWords(s: State) {
    RouterLastWords(s.router) && ReaderLastWords(s.client.reader) && ReaderLastWords(s.supplier.reader)
  }

  lemma LastWordsStep(env: Env, s: State, a: Step)
    requires LastWords(s) && Can(env, s, a)
    ensures LastWords(Do(env, s, a))
  {
    match a
    case ByRouter(r) => RouterFrame(env, s, r);
    case ByReader(x, d) => ReaderFrame(s, x, d); ReaderWords(s, x, d);
    case ByOther(o) =>
    case Enter(who) =>
    case Body =>
      var t := DoBody(s);
      assert t.router == s.router && t.client.reader == s.client.reader && t.supplier.reader == s.supplier.reader;
    case Return(who) =>
  }

  lemma ReaderWords(s: State, x: Source, d: ReaderStep)
    requires ReaderCan(s, x, d)
    ensures ReaderLastWords(PeerOf(ReaderDo(s, x, d), x).reader)
  {
  }

  lemma {:induction false} LastWordsRun(env: Env, s: State, run: seq<Step>, t: State)
    requires LastWords(s) && Leads(env, s, run, t)
    ensures LastWords(t)
    decreases |run|
  {
    if run != [] {
      LastWordsStep(env, s, run[0]);
      LastWordsRun(env, Do(env, s, run[0]), run[1..], t);
    }
  }

  /** A loop ends only by returning from its own deferred Shutdown, asked for with its own error. */
  lemma LoopsEndWithShutdown(env: Env, s: State, a: Step)
    requires Reachable(env, s) && Can(env, s, a)
    ensures var t := Do(env, s, a);
            && (t.router.RouterGone? && !s.router.RouterGone? ==>
                  a == Return(Router)
                  && Waiting(s, Router) == Some(Error({BridgeCanceled}, "websockets: context canceled")))
            && forall x :: PeerOf(t, x).reader.ReaderGone? && !PeerOf(s, x).reader.ReaderGone? ==>
                  a == Return(Reader(x))
                  && Waiting(s, Reader(x)) == Some(Error({ConnectionFailed}, "read loop ended"))
  {
    var s0, run :| Init(s0) && Leads(env, s0, run, s);
    LastWordsRun(env, s0, run, s);
    forall x
      ensures PeerOf(Do(env, s, a), x).reader.ReaderGone? && !PeerOf(s, x).reader.ReaderGone? ==>
                a == Return(Reader(x))
                && Waiting(s, Reader(x)) == Some(Error({ConnectionFailed}, "read loop ended"))
    {
      ReaderEnds(env, s, a, x);
    }
    RouterEnds(env, s, a);
  }

  lemma ReaderEnds(env: Env, s: State, a: Step, x: Source)
    requires LastWords(s) && Can(env, s, a)
    ensures PeerOf(Do(env, s, a), x).reader.ReaderGone? && !PeerOf(s, x).reader.ReaderGone? ==>
              a == Return(Reader(x)) && Waiting(s, Reader(x)) == Some(Error({ConnectionFailed}, "read loop ended"))
  {
    match a
    case ByRouter(r) => RouterFrame(env, s, r);
    case ByReader(y, d) => ReaderFrame(s, y, d); ReaderPeer(s, y, d);
    case ByOther(o) =>
    case Enter(who) =>
    case Body =>
    case Return(who) =>
  }

  lemma RouterEnds(env: Env, s: State, a: Step)
    requires LastWords(s) && Can(env, s, a)
    ensures Do(env, s, a).router.RouterGone? && !s.router.RouterGone? ==>
              a == Return(Router)
              && Waiting(s, Router) == Some(Error({BridgeCanceled}, "websockets: context canceled"))
  {
    match a
    case ByRouter(r) => RouterFrame(env, s, r);
    case ByReader(x, d) => ReaderFrame(s, x, d);
    case ByOther(o) =>
    case Enter(who) =>
    case Body =>
    case Return(who) =>
  }

  /** The routing loop is on its way out, or gone. */
  predicate Leaving(r: RouterPC) {
    r.RouterGone? || (r.RouterCloses? && !r.then_.Loop?)
  }

  predicate Leaves(a: Step) {
    a.ByRouter? && (a.r.SeeCancel? || a.r.RoutePanics? || a.r.RunPanics?)
  }

  lemma LeavingStep(env: Env, s: State, a: Step)
    requires Can(env, s, a) && Leaving(Do(env, s, a).router)
    ensures Leaving(s.router) || Leaves(a)
  {
    match a
    case ByRouter(r) => LeavingRouter(env, s, r);
    case ByReader(x, d) => ReaderFrame(s, x, d);
    case ByOther(o) => assert OtherDo(env, s, o).router == s.router;
    case Enter(who) => assert DoEnter(s, who).router == s.router;
    case Body => assert DoBody(s).router == s.router;
    case Return(who) => LeavingReturn(s, who);
  }

  lemma LeavingRouter(env: Env, s: State, r: RouterStep)
    requires RouterCan(env, s, r) && Leaving(RouterDo(env, s, r).router)
    ensures Leaves(ByRouter(r))
  {
  }

  lemma LeavingReturn(s: State, who: Who)
    requires CanReturn(s, who) && Leaving(DoReturn(s, who).router)
    ensures Leaving(s.router)
  {
  }

  /** The routing loop survives every failure of a frame: it leaves only for a cancel it has seen or a panic. */
  lemma {:induction false} RouterLeavesFor(env: Env, s: State, run: seq<Step>, t: State)
    requires Leads(env, s, run, t) && !Leaving(s.router) && Leaving(t.router)
    ensures exists i :: 0 <= i < |run| && Leaves(run[i])
    decreases |run|
  {
    if run != [] {
      var n := Do(env, s, run[0]);
      if Leaving(n.router) {
        LeavingStep(env, s, run[0]);
      } else {
        RouterLeavesFor(env, n, run[1..], t);
        var i :| 0 <= i < |run[1..]| && Leaves(run[1..][i]);
        assert run[i + 1] == run[1..][i];
      }
    }
  }

  lemma LeavingOn(env: Env, s: State, a: Step)
    requires Can(env, s, a) && (Leaving(s.router) || Leaves(a))
    ensures Leaving(Do(env, s, a).router)
  {
    match a
    case ByRouter(r) =>
    case ByReader(x, d) => ReaderFrame(s, x, d);
    case ByOther(o) => assert OtherDo(env, s, o).router == s.router;
    case Enter(who) => assert DoEnter(s, who).router == s.router;
    case Body => assert DoBody(s).router == s.router;
    case Return(who) =>
  }

  /** And for those it leaves for good. */
  lemma {:induction false} LeavesForGood(env: Env, s: State, run: seq<Step>, t: State)
    requires Leads(env, s, run, t) && (Leaving(s.router) || (run != [] && Leaves(run[0])))
    ensures Leaving(t.router)
    decreases |run|
  {
    if run != [] {
      LeavingOn(env, s, run[0]);
      LeavesForGood(env, Do(env, s, run[0]), run[1..], t);
    }
  }

  // ---- the watcher ----

  lemma WatchStep(env: Env, s: State, a: Step)
    requires Inv(env, s) && Can(env, s, a) && a != ByOther(WatchPanics) && (s.watcher.WatcherGone? ==> s.done == 1)
    ensures Do(env, s, a).watcher.WatcherGone? ==> Do(env, s, a).done == 1
  {
    InvStep(env, s, a);
    match a
    case ByRouter(r) => RouterFrame(env, s, r);
    case ByReader(x, d) => ReaderFrame(s, x, d);
    case ByOther(o) =>
    case Enter(who) =>
    case Body => assert DoBody(s).watcher == s.watcher && DoBody(s).done >= s.done;
    case Return(who) =>
  }

  /** A watcher that does not panic watches until the bridge is done. */
  lemma {:induction false} WatchIsKept(env: Env, s: State, run: seq<Step>, t: State)
    requires Inv(env, s) && Leads(env, s, run, t) && (s.watcher.WatcherGone? ==> s.done == 1)
    requires ByOther(WatchPanics) !in run
    ensures t.watcher.WatcherGone? ==> t.done == 1
    decreases |run|
  {
    if run != [] {
      WatchStep(env, s, run[0]);
      InvStep(env, s, run[0]);
      assert forall a :: a in run[1..] ==> a in run;
      WatchIsKept(env, Do(env, s, run[0]), run[1..], t);
    }
  }

  // ---- being cancelled, and what the client is told ----

  lemma {:induction false} StaysCancelled(env: Env, s: State, run: seq<Step>, t: State)
    requires Leads(env, s, run, t) && s.cancelled
    ensures t.cancelled
    decreases |run|
  {
    if run != [] {
      match run[0] {
        case ByRouter(r) => RouterFrame(env, s, r);
        case ByReader(x, d) => ReaderFrame(s, x, d);
        case ByOther(o) =>
        case Enter(who) =>
        case Body =>
        case Return(who) =>
      }
      StaysCancelled(env, Do(env, s, run[0]), run[1..], t);
    }
  }

  /** Once the parent has cancelled, the routing loop can leave whenever it is idle, and a read loop that waits for
      room in the channel can give up; before anyone has cancelled neither can. */
  lemma CancelIsSeen(env: Env, s: State, run: seq<Step>, t: State, x: Source)
    requires Leads(env, Do(env, s, ByOther(ParentCancels)), run, t)
    ensures t.router.Selecting? ==> Can(env, t, ByRouter(SeeCancel))
    ensures PeerOf(t, x).reader.Pushing? ==> Can(env, t, ByReader(x, GiveUp))
    ensures !s.cancelled ==> !Can(env, s, ByRouter(SeeCancel)) && !Can(env, s, ByReader(x, GiveUp))
  {
    StaysCancelled(env, Do(env, s, ByOther(ParentCancels)), run, t);
  }

  /** Whoever calls Shutdown from outside asks with the error they gave. */
  lemma CallAsks(env: Env, s: State, id: nat, err: Cause)
    requires id !in s.outside
    ensures Can(env, s, ByOther(Call(id, err)))
    ensures Waiting(Do(env, s, ByOther(Call(id, err))), Outside(id)) == Some(err)
  {
  }

  /** And waits with it until the shutdown is over. */
  lemma {:induction false} CallerWaits(env: Env, s: State, run: seq<Step>, t: State, id: nat)
    requires Inv(env, s) && Leads(env, s, run, t) && id in s.outside && s.outside[id].Calling?
    ensures id in t.outside && (t.outside[id] == s.outside[id] || (t.outside[id] == Returned && t.once.Finished?))
    decreases |run|
  {
    if run != [] {
      var n := Do(env, s, run[0]);
      InvStep(env, s, run[0]);
      CallerStep(env, s, run[0], id);
      if n.outside[id].Calling? {
        CallerWaits(env, n, run[1..], t, id);
      } else {
        CallerReturned(env, n, run[1..], t, id);
      }
    }
  }

  lemma CallerStep(env: Env, s: State, a: Step, id: nat)
    requires Can(env, s, a) && id in s.outside
    ensures var n := Do(env, s, a);
            && id in n.outside
            && (n.outside[id] == s.outside[id] || (a == Return(Outside(id)) && n.outside[id] == Returned))
  {
    match a
    case ByRouter(r) => RouterFrame(env, s, r);
    case ByReader(x, d) => ReaderFrame(s, x, d);
    case ByOther(o) =>
    case Enter(who) =>
    case Body =>
    case Return(who) =>
  }

  lemma {:induction false} CallerReturned(env: Env, s: State, run: seq<Step>, t: State, id: nat)
    requires Inv(env, s) && Leads(env, s, run, t) && id in s.outside && s.outside[id] == Returned
    ensures id in t.outside && t.outside[id] == Returned && t.once.Finished?
    decreases |run|
  {
    if run != [] {
      InvStep(env, s, run[0]);
      CallerStep(env, s, run[0], id);
      CallerReturned(env, Do(env, s, run[0]), run[1..], t, id);
    }
  }

  /** Seeing the cancel, or unwinding by a panic, the routing loop asks for a shutdown as one that was cancelled. */
  lemma CancelAsks(env: Env, s: State, r: RouterStep)
    requires RouterCan(env, s, r) && (r.SeeCancel? || r.RunPanics?)
    ensures Waiting(RouterDo(env, s, r), Router) == Some(Error({BridgeCanceled}, "websockets: context canceled"))
  {
  }

  /** And a body begun for that, which saw no code, tells the client to reconnect and the supplier that it leaves. */
  lemma CancelReachesBoth(env: Env, s: State)
    requires Reachable(env, s) && s.choice.Some? && s.start.Some?
    requires s.choice.value.endpoint.code == 0 && s.choice.value.client.code == 0
    requires s.start.value.err == Error({BridgeCanceled}, "websockets: context canceled")
    ensures forall f :: f in s.client.closeFrames ==> f == Info(1012, "service restarting, please reconnect")
    ensures forall f :: f in s.supplier.closeFrames ==> f == Info(1001, "service restarting, please reconnect")
  {
    CloseFrames(env, s);
    ErrorsReachTheClient(env, s);
    Reasons(s.start.value.err);
  }
}
