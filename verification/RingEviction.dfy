/** Ring eviction over whole runs: how many session heights the cache can hold, and the highest session under races. */
module RingEviction {
  import opened Domain
  import opened Rings
  import opened Sets

  const EMPTY := Cache(0, map[])

  function AfterAll(c: Cache, us: seq<Use>): (r: Cache)
    decreases |us|
  {
    if us == [] then c else AfterAll(After(c, us[0]), us[1..])
  }

  function Heights(rings: map<RingKey, Ring>): (hs: set<nat>) {
    set k | k in rings :: k.height
  }

  predicate NonDecreasing(from: nat, us: seq<Use>)
    decreases |us|
  {
    us == [] || (us[0].key.height >= from && NonDecreasing(us[0].key.height, us[1..]))
  }

  /** The current session and one before it. */
  ghost predicate AtMostTwo(c: Cache, prev: nat) {
    prev <= c.highest && forall k :: k in c.rings ==> k.height == prev || k.height == c.highest
  }

  lemma AtMostTwoStep(c: Cache, prev: nat, u: Use)
    requires AtMostTwo(c, prev) && u.key.height >= c.highest
    ensures AtMostTwo(After(c, u), if u.key.height > c.highest then c.highest else prev)
  {
  }

  lemma {:induction false} AtMostTwoRun(c: Cache, prev: nat, us: seq<Use>)
    requires AtMostTwo(c, prev) && NonDecreasing(c.highest, us)
    ensures |Heights(AfterAll(c, us).rings)| <= 2
    decreases |us|
  {
    if us == [] {
      TwoHeights(c, prev);
    } else {
      AtMostTwoStep(c, prev, us[0]);
      AtMostTwoRun(After(c, us[0]), if us[0].key.height > c.highest then c.highest else prev, us[1..]);
    }
  }

  lemma TwoHeights(c: Cache, prev: nat)
    requires AtMostTwo(c, prev)
    ensures |Heights(c.rings)| <= 2
  {
    assert Heights(c.rings) <= {prev, c.highest};
    Subset(Heights(c.rings), {prev, c.highest});
  }

  /** Over any calls whose sessions never go back, successful or not, two session heights at most are cached. */
  lemma BoundedCache(us: seq<Use>)
    requires NonDecreasing(0, us)
    ensures |Heights(AfterAll(EMPTY, us).rings)| <= 2
  {
    AtMostTwoRun(EMPTY, 0, us);
  }

  /** A successful call for one app. */
  function Made(height: nat, ring: Ring): (u: Use) {
    Use(RingKey("a", height), Some(ring))
  }

  /** Order matters: a late call for an older session is cached again, as a third height. */
  lemma LateCallIsCachedAgain(ring: Ring)
    ensures var us := [Made(10, ring), Made(20, ring), Made(5, ring)];
            !NonDecreasing(0, us) && Heights(AfterAll(EMPTY, us).rings) == {5, 10, 20}
  {
    var c0 := EMPTY;
    var u1, u2, u3 := Made(10, ring), Made(20, ring), Made(5, ring);
    var us := [u1, u2, u3];
    assert !NonDecreasing(20, [u3]);
    assert !NonDecreasing(10, [u2, u3]) by { assert [u2, u3][1..] == [u3]; }
    assert us[1..] == [u2, u3] && us[1..][1..] == [u3] && us[1..][1..][1..] == [];
    var c1 := After(c0, u1);
    assert c1 == Cache(10, map[u1.key := ring]);
    var c2 := After(c1, u2);
    assert c2 == Cache(20, map[u1.key := ring, u2.key := ring]);
    var c3 := After(c2, u3);
    assert c3 == Cache(20, map[u1.key := ring, u2.key := ring, u3.key := ring]);
    assert AfterAll(c0, us) == AfterAll(c1, us[1..]) == AfterAll(c2, us[1..][1..]) == AfterAll(c3, []);
    assert Heights(c3.rings) == {5, 10, 20} by {
      assert u1.key in c3.rings && u2.key in c3.rings && u3.key in c3.rings;
    }
  }

  // ---- which heights are cached, for calls in any order ----

  /** The highest session any of the calls asked for. */
  function Top(us: seq<Use>): (h: nat)
    ensures forall i :: 0 <= i < |us| ==> us[i].key.height <= h
  {
    if us == [] then 0
    else
      var h, last := Top(us[..|us| - 1]), us[|us| - 1].key.height;
      assert forall i :: 0 <= i < |us| - 1 ==> us[i] == us[..|us| - 1][i];
      if last > h then last else h
  }

  /** Call `j` is a rollover: it asks for a higher session than any call before it. */
  predicate Rollover(us: seq<Use>, j: nat)
    requires j < |us|
  {
    us[j].key.height > Top(us[..j])
  }

  /** Call `i` succeeded, and no later rollover came from a session above its own. */
  ghost predicate Survives(us: seq<Use>, i: nat) {
    && i < |us| && us[i].made.Some?
    && forall j :: i < j < |us| && Rollover(us, j) ==> Top(us[..j]) <= us[i].key.height
  }

  ghost predicate Kept(us: seq<Use>, k: RingKey) {
    exists i :: 0 <= i < |us| && us[i].key == k && Survives(us, i)
  }

  lemma {:induction false} AfterAllSnoc(c: Cache, us: seq<Use>, u: Use)
    ensures AfterAll(c, us + [u]) == After(AfterAll(c, us), u)
    decreases |us|
  {
    if us == [] {
      assert us + [u] == [u] && [u][1..] == [];
      assert AfterAll(After(c, u), []) == After(c, u);
    } else {
      assert (us + [u])[0] == us[0] && (us + [u])[1..] == us[1..] + [u];
      AfterAllSnoc(After(c, us[0]), us[1..], u);
    }
  }

  lemma SurvivesSnoc(us: seq<Use>, u: Use, i: nat)
    requires i < |us|
    ensures Survives(us + [u], i) <==> Survives(us, i) && (u.key.height > Top(us) ==> Top(us) <= us[i].key.height)
  {
    var all := us + [u];
    assert all[i] == us[i] && all[|us|] == u && all[..|us|] == us;
    assert forall j :: 0 <= j < |us| ==> all[..j] == us[..j] && all[j] == us[j];
    assert forall j :: 0 <= j < |us| ==> (Rollover(all, j) <==> Rollover(us, j));
  }

  lemma KeptSnoc(us: seq<Use>, u: Use, k: RingKey)
    ensures Kept(us + [u], k) <==>
            (u.made.Some? && u.key == k) || (Kept(us, k) && (u.key.height > Top(us) ==> Top(us) <= k.height))
  {
    var all := us + [u];
    if Kept(all, k) {
      var i :| 0 <= i < |all| && all[i].key == k && Survives(all, i);
      if i < |us| {
        SurvivesSnoc(us, u, i);
      }
    }
    if u.made.Some? && u.key == k {
      assert all[|us|] == u && Survives(all, |us|);
    }
    if Kept(us, k) && (u.key.height > Top(us) ==> Top(us) <= k.height) {
      var i :| 0 <= i < |us| && us[i].key == k && Survives(us, i);
      SurvivesSnoc(us, u, i);
      assert all[i] == us[i];
    }
  }

  /** After any calls, in any order: the highest session is the largest asked for, and a ring is cached exactly when
      some call for it succeeded and no later rollover came from above it. */
  lemma {:induction false} CachedIffKept(us: seq<Use>)
    ensures AfterAll(EMPTY, us).highest == Top(us)
    ensures forall k :: k in AfterAll(EMPTY, us).rings <==> Kept(us, k)
    decreases |us|
  {
    if us != [] {
      var init, u := us[..|us| - 1], us[|us| - 1];
      assert us == init + [u];
      CachedIffKept(init);
      AfterAllSnoc(EMPTY, init, u);
      forall k
        ensures k in AfterAll(EMPTY, us).rings <==> Kept(us, k)
      {
        KeptSnoc(init, u, k);
      }
    }
  }

  /** One call, for every reachable cache: a rollover keeps only the previous highest height, and a success adds its
      own. */
  lemma HeightsStep(us: seq<Use>, u: Use)
    ensures var c, d := AfterAll(EMPTY, us), AfterAll(EMPTY, us + [u]);
            && d == After(c, u)
            && Heights(d.rings) == (if u.key.height > Top(us) then Heights(c.rings) * {Top(us)} else Heights(c.rings))
                                   + (if u.made.Some? then {u.key.height} else {})
  {
    var c := AfterAll(EMPTY, us);
    AfterAllSnoc(EMPTY, us, u);
    CachedIffKept(us);
    HeightsBelowTop(us);
    HeightsAfter(c, u);
  }

  /** No cached height passes the highest session. */
  lemma HeightsBelowTop(us: seq<Use>)
    ensures forall k :: k in AfterAll(EMPTY, us).rings ==> k.height <= Top(us)
  {
    CachedIffKept(us);
  }

  lemma HeightsAfter(c: Cache, u: Use)
    requires forall k :: k in c.rings ==> k.height <= c.highest
    ensures Heights(After(c, u).rings) ==
            (if u.key.height > c.highest then Heights(c.rings) * {c.highest} else Heights(c.rings))
            + (if u.made.Some? then {u.key.height} else {})
  {
    var kept := Evicted(c.highest, c.rings, u.key.height);
    assert Heights(kept) == if u.key.height > c.highest then Heights(c.rings) * {c.highest} else Heights(c.rings);
    var d := After(c, u).rings;
    forall h
      ensures h in Heights(d) <==> h in Heights(kept) || (u.made.Some? && h == u.key.height)
    {
      if h in Heights(kept) {
        var k :| k in kept && k.height == h;
        assert k in d;
      }
      if u.made.Some? && h == u.key.height {
        assert u.key in d;
      }
    }
  }

  /** Current and previous: a rollover brings the cache back to two heights, whatever was cached before it. */
  lemma RolloverLeavesTwo(us: seq<Use>, u: Use)
    requires u.key.height > Top(us)
    ensures Heights(AfterAll(EMPTY, us + [u]).rings) <= {Top(us), u.key.height}
    ensures |Heights(AfterAll(EMPTY, us + [u]).rings)| <= 2
  {
    HeightsStep(us, u);
    Subset(Heights(AfterAll(EMPTY, us + [u]).rings), {Top(us), u.key.height});
  }

  /** The call that would cache one height too many: it succeeds without a rollover for a height that is not cached. */
  predicate Adds(c: Cache, u: Use) {
    u.made.Some? && u.key.height <= c.highest && u.key.height !in Heights(c.rings)
  }

  /** From at most two heights a call leads to more exactly when two are cached and it adds one. */
  lemma ThirdHeightIff(us: seq<Use>, u: Use)
    requires |Heights(AfterAll(EMPTY, us).rings)| <= 2
    ensures var c := AfterAll(EMPTY, us);
            |Heights(AfterAll(EMPTY, us + [u]).rings)| > 2 <==> |Heights(c.rings)| == 2 && Adds(c, u)
  {
    HeightsStep(us, u);
    CachedIffKept(us);
    if u.key.height > Top(us) {
      RolloverLeavesTwo(us, u);
    }
  }

  /** The adding call need not be below the highest session: it may be the first to succeed at it. */
  lemma ThirdAtTheTop(ring: Ring)
    ensures var us, u := [Made(10, ring), Use(RingKey("a", 20), None), Made(5, ring)], Made(20, ring);
            u.key.height == Top(us) && Heights(AfterAll(EMPTY, us + [u]).rings) == {5, 10, 20}
  {
    var u1, u2, u3, u4 := Made(10, ring), Use(RingKey("a", 20), None), Made(5, ring), Made(20, ring);
    assert Top([]) == 0 && Heights(AfterAll(EMPTY, []).rings) == {};
    var one, two, three := [u1], [u1, u2], [u1, u2, u3];
    assert [] + [u1] == one && one + [u2] == two && two + [u3] == three;
    assert one[..0] == [] && two[..1] == one && three[..2] == two;
    HeightsStep([], u1);
    HeightsStep(one, u2);
    HeightsStep(two, u3);
    HeightsStep(three, u4);
  }

  /** At no point of the run are more than two heights cached. */
  ghost predicate NeverThree(us: seq<Use>) {
    forall n :: 0 <= n <= |us| ==> |Heights(AfterAll(EMPTY, us[..n]).rings)| <= 2
  }

  /** Calls `i` and `j` and the later call `k` succeed for three different heights, and up to and including `k` no
      rollover comes from a session above the first two: a condition on the calls alone. */
  ghost predicate Crowd(us: seq<Use>, i: nat, j: nat, k: nat) {
    && i < k < |us| && j < k && us[k].made.Some?
    && us[i].key.height != us[j].key.height
    && us[k].key.height != us[i].key.height && us[k].key.height != us[j].key.height
    && Survives(us[..k + 1], i) && Survives(us[..k + 1], j)
  }

  ghost predicate Crowded(us: seq<Use>) {
    exists i: nat, j: nat, k: nat :: Crowd(us, i, j, k)
  }

  /** A height is cached exactly when some call for it survives. */
  lemma HeightCachedIff(us: seq<Use>, h: nat)
    ensures h in Heights(AfterAll(EMPTY, us).rings) <==>
            exists i :: 0 <= i < |us| && us[i].key.height == h && Survives(us, i)
  {
    CachedIffKept(us);
    if h in Heights(AfterAll(EMPTY, us).rings) {
      var x :| x in AfterAll(EMPTY, us).rings && x.height == h;
      assert Kept(us, x);
    }
    if i :| 0 <= i < |us| && us[i].key.height == h && Survives(us, i) {
      assert Kept(us, us[i].key);
    }
  }

  /** What survives a longer run survives each shorter one it is part of. */
  lemma SurvivesEarlier(us: seq<Use>, n: nat, m: nat, i: nat)
    requires i < m <= n <= |us| && Survives(us[..n], i)
    ensures Survives(us[..m], i)
  {
    var long, short := us[..n], us[..m];
    assert short[i] == long[i];
    assert forall j :: 0 <= j < m ==> short[j] == long[j] && short[..j] == long[..j];
    assert forall j :: 0 <= j < m ==> (Rollover(short, j) <==> Rollover(long, j));
  }

  /** Over calls in any order the cache keeps to current and previous exactly when no three calls crowd it. */
  lemma NeverThreeIff(us: seq<Use>)
    ensures NeverThree(us) <==> !Crowded(us)
  {
    if Crowded(us) {
      var i: nat, j: nat, k: nat :| Crowd(us, i, j, k);
      CrowdIsThree(us, i, j, k);
    }
    if n :| 0 <= n <= |us| && |Heights(AfterAll(EMPTY, us[..n]).rings)| > 2 {
      ThreeIsCrowd(us, n);
    }
  }

  lemma CrowdIsThree(us: seq<Use>, i: nat, j: nat, k: nat)
    requires Crowd(us, i, j, k)
    ensures |Heights(AfterAll(EMPTY, us[..k + 1]).rings)| > 2
  {
    var run := us[..k + 1];
    var a, b, c := run[i].key.height, run[j].key.height, run[k].key.height;
    assert Survives(run, k);
    HeightCachedIff(run, a);
    HeightCachedIff(run, b);
    HeightCachedIff(run, c);
    Subset({a, b, c}, Heights(AfterAll(EMPTY, run).rings));
    assert |{a, b, c}| == 3;
  }

  lemma ThreeIsCrowd(us: seq<Use>, n: nat)
    requires n <= |us| && |Heights(AfterAll(EMPTY, us[..n]).rings)| > 2
    ensures Crowded(us)
  {
    var run := us[..n];
    var x, y, z := ThreeOf(Heights(AfterAll(EMPTY, run).rings));
    HeightCachedIff(run, x);
    HeightCachedIff(run, y);
    HeightCachedIff(run, z);
    var a: nat :| a < n && run[a].key.height == x && Survives(run, a);
    var b: nat :| b < n && run[b].key.height == y && Survives(run, b);
    var c: nat :| c < n && run[c].key.height == z && Survives(run, c);
    if a < c && b < c {
      LastOfThree(us, n, a, b, c);
    } else if a < b && c < b {
      LastOfThree(us, n, a, c, b);
    } else {
      LastOfThree(us, n, b, c, a);
    }
  }

  lemma LastOfThree(us: seq<Use>, n: nat, i: nat, j: nat, k: nat)
    requires i < k < n <= |us| && j < k
    requires Survives(us[..n], i) && Survives(us[..n], j) && Survives(us[..n], k)
    requires us[i].key.height != us[j].key.height
    requires us[k].key.height != us[i].key.height && us[k].key.height != us[j].key.height
    ensures Crowded(us)
  {
    SurvivesEarlier(us, n, k + 1, i);
    SurvivesEarlier(us, n, k + 1, j);
    assert us[..n][k] == us[k];
    assert Crowd(us, i, j, k);
  }

  // ---- the atomic maximum under any interleaving ----

  datatype Call =
    | Checking(h: nat)
    | Waiting(h: nat)
    | Locked(h: nat)
    | Rechecked(h: nat, prev: nat)
    | Evicting(h: nat)
    | Returned(h: nat)

  datatype Race = Race(highest: nat, calls: map<nat, Call>, lock: Option<nat>)

  datatype Step =
    | Begin(id: nat, h: nat)
    | FastCheck(id: nat)
    | Lock(id: nat)
    | Recheck(id: nat)
    | StoreHighest(id: nat)
    | Unlock(id: nat)

  predicate Can(s: Race, a: Step) {
    match a
    case Begin(id, _) => id !in s.calls
    case FastCheck(id) => id in s.calls && s.calls[id].Checking?
    case Lock(id) => id in s.calls && s.calls[id].Waiting? && s.lock.None?
    case Recheck(id) => id in s.calls && s.calls[id].Locked?
    case StoreHighest(id) => id in s.calls && s.calls[id].Rechecked?
    case Unlock(id) => id in s.calls && s.calls[id].Evicting?
  }

  function Do(s: Race, a: Step): (t: Race)
    requires Can(s, a)
  {
    match a
    case Begin(id, h) => s.(calls := s.calls[id := Checking(h)])
    case FastCheck(id) =>
      var h := s.calls[id].h;
      s.(calls := s.calls[id := if h <= s.highest then Returned(h) else Waiting(h)])
    case Lock(id) => s.(calls := s.calls[id := Locked(s.calls[id].h)], lock := Some(id))
    case Recheck(id) =>
      var h := s.calls[id].h;
      if h <= s.highest then s.(calls := s.calls[id := Returned(h)], lock := None)
      else s.(calls := s.calls[id := Rechecked(h, s.highest)])
    case StoreHighest(id) => s.(calls := s.calls[id := Evicting(s.calls[id].h)], highest := s.calls[id].h)
    case Unlock(id) => s.(calls := s.calls[id := Returned(s.calls[id].h)], lock := None)
  }

  predicate UnderLock(c: Call) {
    c.Locked? || c.Rechecked? || c.Evicting?
  }

  ghost predicate Inv(s: Race) {
    && (forall id :: id in s.calls && UnderLock(s.calls[id]) ==> s.lock == Some(id))
    && (forall id :: id in s.calls && s.calls[id].Rechecked? ==> s.calls[id].prev == s.highest < s.calls[id].h)
    && (forall id :: id in s.calls && (s.calls[id].Evicting? || s.calls[id].Returned?) ==> s.calls[id].h <= s.highest)
    && (s.highest == 0 || exists id :: id in s.calls && s.calls[id].h == s.highest)
  }

  lemma RaceStep(s: Race, a: Step)
    requires Inv(s) && Can(s, a)
    ensures Inv(Do(s, a)) && s.highest <= Do(s, a).highest
  {
    var t := Do(s, a);
    if s.highest != 0 {
      var id :| id in s.calls && s.calls[id].h == s.highest;
      assert id in t.calls && t.calls[id].h == s.calls[id].h;
    }
    if a.StoreHighest? {
      assert a.id in t.calls && t.calls[a.id].h == t.highest;
    }
  }

  ghost predicate Leads(s: Race, run: seq<Step>, t: Race)
    decreases |run|
  {
    if run == [] then s == t else Can(s, run[0]) && Leads(Do(s, run[0]), run[1..], t)
  }

  lemma {:induction false} RaceRun(s: Race, run: seq<Step>, t: Race)
    requires Inv(s) && Leads(s, run, t)
    ensures Inv(t) && s.highest <= t.highest
    decreases |run|
  {
    if run != [] {
      RaceStep(s, run[0]);
      RaceRun(Do(s, run[0]), run[1..], t);
    }
  }

  /** Under every interleaving the highest session never decreases, no two calls evict at once, and when all calls have
      returned it is the largest session any of them asked for. */
  lemma HighestIsTheMaximum(run: seq<Step>, t: Race)
    requires Leads(Race(0, map[], None), run, t)
    ensures forall i, j :: i in t.calls && j in t.calls && UnderLock(t.calls[i]) && UnderLock(t.calls[j]) ==> i == j
    ensures (forall id :: id in t.calls ==> t.calls[id].Returned?) ==>
              && (forall id :: id in t.calls ==> t.calls[id].h <= t.highest)
              && (t.highest == 0 || exists id :: id in t.calls && t.calls[id].h == t.highest)
    ensures forall id, h :: Begin(id, h) in run ==> id in t.calls && t.calls[id].h == h
    ensures forall id :: id in t.calls ==> Begin(id, t.calls[id].h) in run
  {
    var s := Race(0, map[], None);
    RaceRun(s, run, t);
    forall id, h | Begin(id, h) in run
      ensures id in t.calls && t.calls[id].h == h
    {
      CallsBegin(s, run, t, id);
    }
    forall id | id in t.calls
      ensures Begin(id, t.calls[id].h) in run
    {
      CallsBegin(s, run, t, id);
    }
  }

  /** The calls of a run are those it began, each for the session it began with. */
  lemma {:induction false} CallsBegin(s: Race, run: seq<Step>, t: Race, id: nat)
    requires Leads(s, run, t)
    ensures forall h :: Begin(id, h) in run ==> id !in s.calls && id in t.calls && t.calls[id].h == h
    ensures id in t.calls ==>
              if id in s.calls then s.calls[id].h == t.calls[id].h else Begin(id, t.calls[id].h) in run
    ensures id in s.calls ==> id in t.calls
    decreases |run|
  {
    if run != [] {
      CallsBegin(Do(s, run[0]), run[1..], t, id);
      assert forall a :: a in run <==> a == run[0] || a in run[1..];
    }
  }
}
