/** The bridge does its work: any traffic can be carried, and every failure ends in a complete shutdown. */
module BridgeTraffic {
  import opened Delimiter
  import opened Bridge
  import opened BridgeInvariants
  import opened BridgeTheorems

  // ---- any traffic can be carried ----

  /** Every payload can be signed, and every supplier frame validates. */
  ghost predicate Willing(env: Env) {
    forall x, d :: HasImage(env, x, d)
  }

  ghost predicate HasImage(env: Env, x: Source, d: bytes) {
    exists o :: Image(env, x, d, o)
  }

  /** Both read loops are reading or handing over, the routing loop is routing, and the session is not over. */
  ghost predicate Up(s: State) {
    && s.once.Idle? && s.active && !s.router.RouterCloses? && !s.router.RouterGone?
    && ReaderUp(s.client.reader) && ReaderUp(s.supplier.reader)
  }

  predicate ReaderUp(r: ReaderPC) {
    r.Reading? || r.Pushing?
  }

  /** Nothing is under way. */
  ghost predicate Quiet(s: State) {
    Up(s) && s.router.Selecting? && s.chan == [] && s.client.reader.Reading? && s.supplier.reader.Reading?
  }

  function Work(s: State): (n: nat) {
    9 * Pot(s) + RouterWeight(s.router) + ReaderWeight(s.client.reader) + ReaderWeight(s.supplier.reader)
  }

  /** While something is under way, some step brings it closer to its peer. */
  lemma {:induction false} Advances(env: Env, s: State) returns (a: Step)
    requires Willing(env) && Inv(env, s) && Up(s) && !Quiet(s)
    ensures Can(env, s, a) && Up(Do(env, s, a)) && Work(Do(env, s, a)) < Work(s)
    ensures Do(env, s, a).client.read == s.client.read && Do(env, s, a).supplier.read == s.supplier.read
  {
    if s.router.Selecting? && s.chan == [] {
      var x := if s.client.reader.Pushing? then Client else Supplier;
      a := ByReader(x, Push);
      PushAdvances(s, x);
    } else {
      var r := NextRouting(env, s);
      a := ByRouter(r);
      RoutingAdvances(env, s, r);
    }
  }

  lemma NextRouting(env: Env, s: State) returns (r: RouterStep)
    requires Willing(env) && Up(s) && (s.router.Selecting? ==> s.chan != []) && !s.client.closed && !s.supplier.closed
    ensures RouterCan(env, s, r) && (r.Take? || r.LoadGate? || r.BeginSign? || r.Processed? || r.WriteOk?)
  {
    match s.router
    case Selecting => r := Take;
    case Gate(_) => r := LoadGate;
    case Signing(_) => r := BeginSign;
    case Processing(m) =>
      assert HasImage(env, m.source, m.frame.data);
      var o :| Image(env, m.source, m.frame.data, o);
      r := Processed(o);
    case Writing(_, _) => r := WriteOk;
  }

  lemma PushAdvances(s: State, x: Source)
    requires Up(s) && s.chan == [] && PeerOf(s, x).reader.Pushing?
    ensures ReaderCan(s, x, Push)
    ensures var t := ReaderDo(s, x, Push);
            Up(t) && Work(t) < Work(s) && t.client.read == s.client.read && t.supplier.read == s.supplier.read
  {
  }

  lemma RoutingAdvances(env: Env, s: State, r: RouterStep)
    requires Up(s) && RouterCan(env, s, r) && (r.Take? || r.LoadGate? || r.BeginSign? || r.Processed? || r.WriteOk?)
    ensures var t := RouterDo(env, s, r);
            Up(t) && Work(t) < Work(s) && t.client.read == s.client.read && t.supplier.read == s.supplier.read
  {
    RouterFrame(env, s, r);
  }

  lemma {:induction false} Settles(env: Env, s: State) returns (run: seq<Step>, t: State)
    requires Willing(env) && Inv(env, s) && Up(s)
    ensures Leads(env, s, run, t) && Inv(env, t) && Quiet(t)
    ensures t.client.read == s.client.read && t.supplier.read == s.supplier.read
    decreases Work(s)
  {
    if Quiet(s) {
      return [], s;
    }
    var a := Advances(env, s);
    InvStep(env, s, a);
    var rest;
    rest, t := Settles(env, Do(env, s, a));
    run := [a] + rest;
    assert run[1..] == rest;
  }

  /** One more frame from a peer. */
  lemma Receives(env: Env, s: State, x: Source, f: Frame)
    requires Inv(env, s) && Quiet(s)
    ensures var a := ByReader(x, ReadOk(f));
            && Can(env, s, a) && Up(Do(env, s, a))
            && Do(env, s, a).client.read == s.client.read + (if x.Client? then [f] else [])
            && Do(env, s, a).supplier.read == s.supplier.read + (if x.Supplier? then [f] else [])
  {
  }

  datatype Traffic = Traffic(from: Source, frame: Frame)

  /** The frames of one peer. */
  function FramesOf(ts: seq<Traffic>, x: Source): (fs: seq<Frame>) {
    if ts == [] then [] else (if ts[0].from == x then [ts[0].frame] else []) + FramesOf(ts[1..], x)
  }

  /** When nothing is under way, everything read has been written to the far side. */
  lemma QuietIsDelivered(env: Env, s: State)
    requires Inv(env, s) && Quiet(s)
    ensures |s.supplier.wrote| == |s.client.read| && Images(env, Client, s.client.read, s.supplier.wrote)
    ensures |s.client.wrote| == |s.supplier.read| && Images(env, Supplier, s.supplier.read, s.client.wrote)
  {
    assert Queued(s.chan, Client) == [] && Queued(s.chan, Supplier) == [];
    assert s.client.read == s.client.taken + [] + [] == s.client.taken;
    assert s.supplier.read == s.supplier.taken + [] + [] == s.supplier.taken;
  }

  lemma {:induction false} Carries(env: Env, s: State, ts: seq<Traffic>) returns (run: seq<Step>, t: State)
    requires Willing(env) && Inv(env, s) && Up(s)
    ensures Leads(env, s, run, t) && Inv(env, t) && Quiet(t)
    ensures t.client.read == s.client.read + FramesOf(ts, Client)
    ensures t.supplier.read == s.supplier.read + FramesOf(ts, Supplier)
    decreases |ts|
  {
    var first, u := Settles(env, s);
    if ts == [] {
      assert s.client.read + [] == s.client.read && s.supplier.read + [] == s.supplier.read;
      return first, u;
    }
    var a := ByReader(ts[0].from, ReadOk(ts[0].frame));
    Receives(env, u, ts[0].from, ts[0].frame);
    InvStep(env, u, a);
    var rest;
    rest, t := Carries(env, Do(env, u, a), ts[1..]);
    assert ([a] + rest)[1..] == rest;
    run := first + ([a] + rest);
    LeadsOn(env, s, first, u, [a] + rest, t);
    Grown(s.client.read, Do(env, u, a).client.read, t.client.read, ts, Client);
    Grown(s.supplier.read, Do(env, u, a).supplier.read, t.supplier.read, ts, Supplier);
  }

  lemma {:induction false} LeadsOn(env: Env, s: State, a: seq<Step>, u: State, b: seq<Step>, t: State)
    requires Leads(env, s, a, u) && Leads(env, u, b, t)
    ensures Leads(env, s, a + b, t)
    decreases |a|
  {
    if a == [] {
      assert a + b == b;
    } else {
      assert (a + b)[0] == a[0] && (a + b)[1..] == a[1..] + b;
      LeadsOn(env, Do(env, s, a[0]), a[1..], u, b, t);
    }
  }

  lemma Grown(before: seq<Frame>, then_: seq<Frame>, after: seq<Frame>, ts: seq<Traffic>, x: Source)
    requires ts != [] && then_ == before + (if ts[0].from == x then [ts[0].frame] else [])
    requires after == then_ + FramesOf(ts[1..], x)
    ensures after == before + FramesOf(ts, x)
  {
    var first, rest := if ts[0].from == x then [ts[0].frame] else [], FramesOf(ts[1..], x);
    assert FramesOf(ts, x) == first + rest;
    assert (before + first) + rest == before + (first + rest);
  }

  /** From every reachable state of a bridge that is up, whatever frames the two peers go on to send, and in whatever
      order, some schedule reads them all and writes the image of every frame, old and new, to the other peer. */
  lemma AnyTraffic(env: Env, s: State, ts: seq<Traffic>) returns (run: seq<Step>, t: State)
    requires Willing(env) && Reachable(env, s) && Up(s)
    ensures Leads(env, s, run, t) && Up(t)
    ensures t.client.read == s.client.read + FramesOf(ts, Client)
    ensures t.supplier.read == s.supplier.read + FramesOf(ts, Supplier)
    ensures |t.supplier.wrote| == |t.client.read| && Images(env, Client, t.client.read, t.supplier.wrote)
    ensures |t.client.wrote| == |t.supplier.read| && Images(env, Supplier, t.supplier.read, t.client.wrote)
  {
    InvReachable(env, s);
    run, t := Carries(env, s, ts);
    QuietIsDelivered(env, t);
  }

  // ---- no failure goes unnoticed ----

  /** A step that fails: a read, a frame that does not process or a write, a panic, or being cancelled. */
  predicate Fails(s: State, a: Step) {
    match a
    case ByRouter(r) =>
      r.SeeCancel? || r.ProcessFails? || r.WriteFails? || r.RoutePanics? || r.RunPanics? || (r.LoadGate? && !s.active)
    case ByReader(_, d) => d.ReadFails? || d.ReadPanics? || d.GiveUp?
    case ByOther(o) => o.Deactivate? || o.Call?
    case _ => false
  }

  /** A shutdown is under way, or asked for, or about to be by a read loop that is storing its peer's close code. */
  ghost predicate Doomed(s: State) {
    ShuttingDown(s) || s.client.reader.Noting? || s.supplier.reader.Noting?
  }

  lemma FailureDooms(env: Env, s: State, a: Step)
    requires Can(env, s, a) && Fails(s, a)
    ensures Doomed(Do(env, s, a))
  {
    var t := Do(env, s, a);
    match a
    case ByRouter(r) => assert Waiting(t, Router).Some?;
    case ByReader(x, d) => assert PeerOf(t, x).reader.Noting? || Waiting(t, Reader(x)).Some?;
    case ByOther(o) =>
      if o.Deactivate? {
        assert Waiting(t, Watcher).Some?;
      } else {
        assert Waiting(t, Outside(o.id)).Some?;
      }
  }

  lemma StillDoomed(env: Env, s: State, a: Step)
    requires Doomed(s) && Can(env, s, a)
    ensures Doomed(Do(env, s, a))
  {
    if ShuttingDown(s) {
      StillShuttingDown(env, s, a);
    } else {
      var x := if s.client.reader.Noting? then Client else Supplier;
      NotingGoesOn(env, s, x, a);
    }
  }

  /** A read loop that stores a close code goes on to ask for a shutdown and does nothing else. */
  lemma NotingGoesOn(env: Env, s: State, x: Source, a: Step)
    requires PeerOf(s, x).reader.Noting? && Can(env, s, a)
    ensures Doomed(Do(env, s, a))
  {
    var t := Do(env, s, a);
    match a
    case ByRouter(r) => RouterFrame(env, s, r);
    case ByReader(y, d) =>
      ReaderPeer(s, y, d);
      NotedReader(s, x, y, d);
    case ByOther(o) => assert t.client == s.client && t.supplier == s.supplier;
    case Enter(who) => assert t.once.Running?;
    case Body => assert !t.once.Idle?;
    case Return(who) => assert !t.once.Idle?;
  }

  lemma NotedReader(s: State, x: Source, y: Source, d: ReaderStep)
    requires PeerOf(s, x).reader.Noting? && ReaderCan(s, y, d)
    ensures Doomed(ReaderDo(s, y, d))
  {
    var t := ReaderDo(s, y, d);
    if y == x {
      assert Waiting(t, Reader(x)).Some?;
    } else {
      assert PeerOf(t, x) == PeerOf(s, x);
    }
  }

  lemma {:induction false} DoomRun(env: Env, s: State, run: seq<Step>, t: State)
    requires Inv(env, s) && Doomed(s) && Leads(env, s, run, t)
    ensures Inv(env, t) && Doomed(t)
    decreases |run|
  {
    if run != [] {
      InvStep(env, s, run[0]);
      StillDoomed(env, s, run[0]);
      DoomRun(env, Do(env, s, run[0]), run[1..], t);
    }
  }

  lemma {:induction false} DoomEnds(env: Env, s: State) returns (run: seq<Step>, t: State)
    requires Inv(env, s) && Doomed(s)
    ensures Leads(env, s, run, t) && AllGone(t) && t.done == 1
  {
    if ShuttingDown(s) {
      run, t := ExitWithinReach(env, s);
    } else {
      var x := if s.client.reader.Noting? then Client else Supplier;
      var a := ByReader(x, Note);
      InvStep(env, s, a);
      assert Waiting(Do(env, s, a), Reader(x)).Some?;
      var rest;
      rest, t := ExitWithinReach(env, Do(env, s, a));
      run := [a] + rest;
      assert run[1..] == rest;
    }
  }

  /** No failure goes unnoticed: after any failing step, and any further run, a shutdown is under way or asked for, and
      complete exit with `done` closed is within reach. */
  lemma NoSilentFailure(env: Env, s: State, a: Step, run: seq<Step>, t: State)
    requires Reachable(env, s) && Can(env, s, a) && Fails(s, a) && Leads(env, Do(env, s, a), run, t)
    ensures Doomed(t) && exists more, end :: Leads(env, t, more, end) && AllGone(end) && end.done == 1
  {
    InvReachable(env, s);
    InvStep(env, s, a);
    FailureDooms(env, s, a);
    DoomRun(env, Do(env, s, a), run, t);
    var more, end := DoomEnds(env, t);
  }
}
