/** Connection slots and the bridge set of one WebSocket listener, for any number of handlers
    stepping at the granularity of atomic loads and compare-and-swaps. */
module Slots {
  import opened Domain
  import opened Sets

  datatype Handler =
    | Arrived
    | Loaded(cur: int)
    | Holding
    | Waiting
    | Releasing
    | Left

  /** `max` is None for the nil limiter, which admits everyone and counts nobody. */
  datatype State = State(max: Option<int>, active: int, handlers: map<nat, Handler>, bridges: set<nat>)

  datatype Step =
    | Arrive(id: nat)
    | Refuse(id: nat)
    | Load(id: nat)
    | Swap(id: nat)
    | Fail(id: nat)
    | Start(id: nat)
    | Finish(id: nat)
    | Release(id: nat)

  predicate Init(s: State) {
    (s.max.Some? ==> s.max.value > 0) && s.active == 0 && s.handlers == map[] && s.bridges == {}
  }

  predicate At(s: State, id: nat, h: Handler) {
    id in s.handlers && s.handlers[id] == h
  }

  predicate Can(s: State, a: Step) {
    match a
    case Arrive(id) => id !in s.handlers
    case Refuse(id) => At(s, id, Arrived)
    case Load(id) => At(s, id, Arrived)
    case Swap(id) => id in s.handlers && s.handlers[id].Loaded?
    case Fail(id) => At(s, id, Holding)
    case Start(id) => At(s, id, Holding)
    case Finish(id) => At(s, id, Waiting)
    case Release(id) => At(s, id, Releasing)
  }

  function Move(s: State, id: nat, h: Handler): (t: State) {
    s.(handlers := s.handlers[id := h])
  }

  function Do(s: State, a: Step): (t: State)
    requires Can(s, a)
  {
    match a
    case Arrive(id) => Move(s, id, Arrived)
    // Host not allowed: before any slot is touched.
    case Refuse(id) => Move(s, id, Left)
    case Load(id) =>
      if s.max.None? then Move(s, id, Holding)
      else if s.active >= s.max.value then Move(s, id, Left)
      else Move(s, id, Loaded(s.active))
    case Swap(id) =>
      var cur := s.handlers[id].cur;
      if s.active == cur then Move(s, id, Holding).(active := cur + 1) else Move(s, id, Arrived)
    // A malformed header, a failed prepare or a bridge that did not start.
    case Fail(id) => Move(s, id, Releasing)
    case Start(id) => Move(s, id, Waiting).(bridges := s.bridges + {id})
    // Done was closed: the deferred remove runs before the deferred Release.
    case Finish(id) => Move(s, id, Releasing).(bridges := s.bridges - {id})
    case Release(id) => Move(s, id, Left).(active := if s.max.None? then s.active else s.active - 1)
  }

  predicate Holds(h: Handler) {
    h.Holding? || h.Waiting? || h.Releasing?
  }

  function Holders(s: State): (ids: set<nat>) {
    set id | id in s.handlers && Holds(s.handlers[id])
  }

  ghost predicate Inv(s: State) {
    && (s.max.Some? ==> s.max.value > 0 && s.active == |Holders(s)| && 0 <= s.active <= s.max.value)
    && (s.max.None? ==> s.active == 0 && forall id :: id in s.handlers ==> !s.handlers[id].Loaded?)
    && s.bridges == (set id | id in s.handlers && s.handlers[id].Waiting?)
    // A loaded value was below the cap, so the swap it leads to stays within it.
    && (s.max.Some? ==> forall id :: id in s.handlers && s.handlers[id].Loaded? ==> s.handlers[id].cur < s.max.value)
  }

  /** Moving one handler changes the holders by at most that handler. */
  lemma HoldersMove(s: State, id: nat, h: Handler)
    ensures Holders(Move(s, id, h)) == if Holds(h) then Holders(s) + {id} else Holders(s) - {id}
    ensures |Holders(Move(s, id, h))| ==
            |Holders(s)| + (if Holds(h) then 1 else 0) - (if id in Holders(s) then 1 else 0)
  {
    var before, after := Holders(s), Holders(Move(s, id, h));
    assert forall x :: x != id ==> (x in after <==> x in before);
    assert after == if Holds(h) then before + {id} else before - {id};
  }

  lemma BridgesKept(s: State, a: Step)
    requires s.bridges == (set id | id in s.handlers && s.handlers[id].Waiting?) && Can(s, a)
    ensures var t := Do(s, a); t.bridges == set id | id in t.handlers && t.handlers[id].Waiting?
  {
  }

  lemma CountKept(s: State, a: Step)
    requires s.max.Some? && s.active == |Holders(s)| && Can(s, a)
    ensures Do(s, a).active == |Holders(Do(s, a))|
  {
    var t := Do(s, a);
    HoldersMove(s, a.id, t.handlers[a.id]);
    assert Holders(t) == Holders(Move(s, a.id, t.handlers[a.id]));
  }

  lemma StepKeeps(s: State, a: Step)
    requires Inv(s) && Can(s, a)
    ensures Inv(Do(s, a))
  {
    BridgesKept(s, a);
    if s.max.Some? { CountKept(s, a); }
  }

  ghost predicate Leads(s: State, run: seq<Step>, t: State)
    decreases |run|
  {
    if run == [] then s == t else Can(s, run[0]) && Leads(Do(s, run[0]), run[1..], t)
  }

  lemma {:induction false} RunKeeps(s: State, run: seq<Step>, t: State)
    requires Inv(s) && Leads(s, run, t)
    ensures Inv(t) && t.max == s.max
    decreases |run|
  {
    if run != [] {
      StepKeeps(s, run[0]);
      RunKeeps(Do(s, run[0]), run[1..], t);
    }
  }

  /** In every run: the counter is the number of slots held and never passes the cap, live bridges hold slots,
      and a listener whose handlers have all returned is empty again. */
  lemma SlotConservation(s: State, run: seq<Step>, t: State)
    requires Init(s) && Leads(s, run, t)
    ensures t.max.Some? ==> t.active == |Holders(t)| && 0 <= t.active <= t.max.value && |t.bridges| <= t.active
    ensures t.bridges <= Holders(t)
    ensures (forall id :: id in t.handlers ==> t.handlers[id].Left?) ==> t.active == 0 && t.bridges == {}
  {
    assert Holders(s) == {};
    RunKeeps(s, run, t);
    Subset(t.bridges, Holders(t));
    if forall id :: id in t.handlers ==> t.handlers[id].Left? {
      assert Holders(t) == {};
    }
  }

  /** A handler that is turned away changes neither the counter nor the bridge set nor any other handler. */
  lemma RejectionIsFree(s: State, a: Step)
    requires Can(s, a) && Do(s, a).handlers[a.id].Left? && !a.Release?
    ensures var t := Do(s, a);
            t.active == s.active && t.bridges == s.bridges && t.handlers - {a.id} == s.handlers - {a.id}
    ensures a.Refuse? || (a.Load? && s.max.Some? && s.active >= s.max.value)
  {
  }

  /** And a handler that finds room is let in, by its load alone or by a swap that nobody else came before. */
  lemma RoomAdmits(s: State, id: nat) returns (run: seq<Step>, t: State)
    requires At(s, id, Arrived) && (s.max.Some? ==> s.active < s.max.value)
    ensures Leads(s, run, t) && At(t, id, Holding) && forall i :: 0 <= i < |run| ==> run[i].id == id
    ensures t.active == s.active + (if s.max.Some? then 1 else 0) && t.bridges == s.bridges
    ensures t.handlers - {id} == s.handlers - {id}
  {
    var u := Do(s, Load(id));
    if s.max.None? {
      run, t := [Load(id)], u;
      assert run[1..] == [];
    } else {
      run, t := [Load(id), Swap(id)], Do(u, Swap(id));
      assert run[1..] == [Swap(id)] && run[1..][1..] == [];
      assert Leads(u, run[1..], t);
    }
  }

  /** A handler in possession of a slot can always go on to give it back. */
  lemma SlotsComeBack(s: State, id: nat) returns (run: seq<Step>, t: State)
    requires id in s.handlers && Holds(s.handlers[id])
    ensures Leads(s, run, t) && At(t, id, Left)
    ensures t.bridges == if s.handlers[id].Waiting? then s.bridges - {id} else s.bridges
    ensures t.active == s.active - (if s.max.Some? then 1 else 0)
    ensures t.handlers - {id} == s.handlers - {id}
  {
    var first := match s.handlers[id]
      case Holding => [Fail(id)]
      case Waiting => [Finish(id)]
      case Releasing => [];
    run := first + [Release(id)];
    if first == [] {
      t := Do(s, Release(id));
      assert run[0] == Release(id) && run[1..] == [];
    } else {
      var u := Do(s, first[0]);
      t := Do(u, Release(id));
      assert run[0] == first[0] && run[1..] == [Release(id)] && run[1..][1..] == [];
      assert Leads(u, run[1..], t);
    }
  }

  /** Step `i` of the run, taken in state `u`, changes the counter: a swap that is won, or a release. */
  ghost predicate Moves(s: State, run: seq<Step>, i: nat, u: State) {
    && i < |run| && Leads(s, run[..i], u) && Can(u, run[i])
    && Do(u, run[i]).active != u.active
    && (run[i].Release? || (run[i].Swap? && Do(u, run[i]).handlers[run[i].id].Holding?))
  }

  lemma MovesLater(s: State, run: seq<Step>, i: nat, u: State)
    requires run != [] && Can(s, run[0]) && Moves(Do(s, run[0]), run[1..], i, u)
    ensures Moves(s, run, i + 1, u)
  {
    var front := run[..i + 1];
    assert front[0] == run[0] && front[1..] == run[1..][..i];
  }

  /** A swap is lost only when another handler won one, or released, since the load: someone made progress. */
  lemma {:induction false} LostSwap(s: State, run: seq<Step>, t: State, id: nat)
    requires At(s, id, Loaded(s.active)) && Leads(s, run, t)
    requires forall i :: 0 <= i < |run| ==> run[i].id != id
    requires t.active != s.active
    ensures exists i: nat, u :: Moves(s, run, i, u) && run[i].id != id
    decreases |run|
  {
    var n := Do(s, run[0]);
    if n.active != s.active {
      assert run[..0] == [] && Leads(s, run[..0], s);
      assert Moves(s, run, 0, s);
    } else {
      LostSwap(n, run[1..], t, id);
      var i: nat, u :| Moves(n, run[1..], i, u) && run[1..][i].id != id;
      MovesLater(s, run, i, u);
      assert run[i + 1] == run[1..][i];
    }
  }
}
