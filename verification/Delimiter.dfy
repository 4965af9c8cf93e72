/** Bytes and the stream delimiter: search, split, join, and when the two undo each other. */
module Delimiter {

  type byte = x: int | 0 <= x < 256
  type bytes = seq<byte>

  /** "||POKT_STREAM||", the relay miner's wire constant. */
  const STREAM_DELIMITER: bytes :=
    [124, 124, 80, 79, 75, 84, 95, 83, 84, 82, 69, 65, 77, 124, 124]

  /** It is that text, byte by byte. */
  lemma DelimiterText()
    ensures |STREAM_DELIMITER| == |"||POKT_STREAM||"|
    ensures forall i :: 0 <= i < |STREAM_DELIMITER| ==> STREAM_DELIMITER[i] == "||POKT_STREAM||"[i] as int
  {
  }

  /** `d` occurs in `data` at `i`. */
  predicate At(d: bytes, data: bytes, i: int) {
    0 <= i && i + |d| <= |data| && data[i..i + |d|] == d
  }

  ghost predicate Contains(d: bytes, data: bytes) {
    exists i :: At(d, data, i)
  }

  predicate EndsWith(data: bytes, suffix: bytes) {
    |suffix| <= |data| && data[|data| - |suffix|..] == suffix
  }

  /** bytes.Index: the leftmost occurrence, or -1. */
  function Index(d: bytes, data: bytes): (i: int)
    ensures i == -1 || 0 <= i <= |data| - |d|
  {
    IndexFrom(d, data, 0)
  }

  function IndexFrom(d: bytes, data: bytes, from: nat): (i: int)
    ensures i == -1 || from <= i <= |data| - |d|
    decreases |data| + 1 - from
  {
    if from + |d| > |data| then -1
    else if At(d, data, from) then from
    else IndexFrom(d, data, from + 1)
  }

  lemma {:induction false} IndexFromMeans(d: bytes, data: bytes, from: nat)
    ensures var i := IndexFrom(d, data, from);
            && (i >= 0 ==> At(d, data, i))
            && forall j :: from <= j && (i == -1 || j < i) ==> !At(d, data, j)
    decreases |data| + 1 - from
  {
    if from + |d| <= |data| && !At(d, data, from) {
      IndexFromMeans(d, data, from + 1);
    }
  }

  /** The index found is that of an occurrence, none comes before it, and none is missed. */
  lemma IndexMeans(d: bytes, data: bytes)
    ensures var i := Index(d, data);
            && (i >= 0 ==> At(d, data, i) && forall j :: 0 <= j < i ==> !At(d, data, j))
            && (i == -1 <==> !Contains(d, data))
  {
    IndexFromMeans(d, data, 0);
  }

  /** The leftmost non-overlapping split: every token but the last was terminated. */
  function Split(d: bytes, data: bytes): (ts: seq<bytes>)
    requires |d| > 0
    ensures |ts| > 0
    decreases |data|
  {
    var i := Index(d, data);
    if i == -1 then [data] else [data[..i]] + Split(d, data[i + |d|..])
  }

  function Join(d: bytes, ts: seq<bytes>): (data: bytes)
    requires |ts| > 0
  {
    if |ts| == 1 then ts[0] else ts[0] + d + Join(d, ts[1..])
  }

  function NonEmpty(ts: seq<bytes>): (r: seq<bytes>)
    ensures forall t :: t in r ==> t != []
    ensures |r| <= |ts|
  {
    if ts == [] then [] else (if ts[0] == [] then [] else [ts[0]]) + NonEmpty(ts[1..])
  }

  /** What a miner writes: the batches with the delimiter between them, and after the last one when `closed`. */
  function Encode(d: bytes, batches: seq<bytes>, closed: bool): (body: bytes) {
    if batches == [] then []
    else Join(d, if closed then batches + [[]] else batches)
  }

  // ---- Join undoes Split ----

  lemma {:induction false} JoinOfSplit(d: bytes, data: bytes)
    requires |d| > 0
    ensures Join(d, Split(d, data)) == data
    decreases |data|
  {
    var i := Index(d, data);
    if i != -1 {
      IndexMeans(d, data);
      JoinOfSplit(d, data[i + |d|..]);
      assert Split(d, data)[1..] == Split(d, data[i + |d|..]);
      assert data == data[..i] + data[i..i + |d|] + data[i + |d|..];
    }
  }

  // ---- Split undoes Join exactly on framed lists ----

  /** `t` followed by the delimiter is cut at its own end and nowhere earlier. */
  predicate Terminates(d: bytes, t: bytes) {
    Index(d, t + d) == |t|
  }

  ghost predicate Framed(d: bytes, ts: seq<bytes>)
    requires |ts| > 0
  {
    && (forall i :: 0 <= i < |ts| - 1 ==> Terminates(d, ts[i]))
    && !Contains(d, ts[|ts| - 1])
  }

  /** Occurrences that end inside a prefix are occurrences in the prefix. */
  lemma AtPrefix(d: bytes, a: bytes, b: bytes, i: int)
    requires i + |d| <= |a|
    ensures At(d, a + b, i) <==> At(d, a, i)
  {
    if 0 <= i {
      assert (a + b)[i..i + |d|] == a[i..i + |d|];
    }
  }

  lemma IndexOfTerminated(d: bytes, t: bytes, rest: bytes)
    ensures Index(d, t + d + rest) == |t| <==> Terminates(d, t)
    ensures 0 <= Index(d, t + d + rest) <= |t|
  {
    forall i | i <= |t|
      ensures At(d, t + d + rest, i) <==> At(d, t + d, i)
    {
      AtPrefix(d, t + d, rest, i);
    }
    assert (t + d)[|t|..|t| + |d|] == d;
    assert At(d, t + d, |t|);
    assert At(d, t + d + rest, |t|);
    IndexMeans(d, t + d);
    IndexMeans(d, t + d + rest);
  }

  lemma SplitTerminated(d: bytes, t: bytes, rest: bytes)
    requires |d| > 0
    ensures Terminates(d, t) ==> Split(d, t + d + rest) == [t] + Split(d, rest)
    ensures !Terminates(d, t) ==> |Split(d, t + d + rest)[0]| < |t|
  {
    IndexOfTerminated(d, t, rest);
    SplitStep(d, t + d + rest);
    assert (t + d + rest)[..|t|] == t && (t + d + rest)[|t| + |d|..] == rest;
  }

  lemma SplitStep(d: bytes, data: bytes)
    requires |d| > 0
    ensures var i := Index(d, data);
            i >= 0 ==> Split(d, data) == [data[..i]] + Split(d, data[i + |d|..]) && Split(d, data)[0] == data[..i]
  {
  }

  lemma FramedTail(d: bytes, ts: seq<bytes>)
    requires |ts| > 1
    ensures Framed(d, ts) <==> Terminates(d, ts[0]) && Framed(d, ts[1..])
  {
    var us := ts[1..];
    assert us[|us| - 1] == ts[|ts| - 1];
    assert forall k :: 0 <= k < |us| - 1 ==> us[k] == ts[k + 1];
    assert forall k :: 1 <= k < |ts| - 1 ==> ts[k] == us[k - 1];
  }

  lemma {:induction false} SplitOfJoin(d: bytes, ts: seq<bytes>)
    requires |d| > 0 && |ts| > 0
    ensures Split(d, Join(d, ts)) == ts <==> Framed(d, ts)
  {
    if |ts| == 1 {
      assert ts == [ts[0]];
      IndexMeans(d, ts[0]);
    } else {
      var rest := Join(d, ts[1..]);
      SplitTerminated(d, ts[0], rest);
      SplitOfJoin(d, ts[1..]);
      FramedTail(d, ts);
      if Terminates(d, ts[0]) {
        var split := [ts[0]] + Split(d, rest);
        assert split[1..] == Split(d, rest);
        assert [ts[0]] + ts[1..] == ts;
      }
    }
  }

  // ---- Terminates, in terms of the batch itself ----

  /** `d` overlaps itself by `k` bytes. */
  predicate Border(d: bytes, k: int) {
    0 < k < |d| && d[..k] == d[|d| - k..]
  }

  lemma TerminatesIff(d: bytes, t: bytes)
    requires |d| > 0
    ensures Terminates(d, t) <==>
            !Contains(d, t) && forall k :: Border(d, k) ==> !EndsWith(t, d[..|d| - k])
  {
    IndexOfTerminated(d, t, []);
    IndexMeans(d, t + d);
    assert t + d + [] == t + d;
    if i :| At(d, t, i) {
      AtPrefix(d, t, d, i);
      assert At(d, t + d, i) && i < |t|;
    }
    if k :| Border(d, k) && EndsWith(t, d[..|d| - k]) {
      BorderGivesEarlier(d, t, k);
    }
    if !Terminates(d, t) {
      var i := Index(d, t + d);
      if i + |d| <= |t| {
        AtPrefix(d, t, d, i);
        assert At(d, t, i);
      } else {
        var k := i + |d| - |t|;
        EarlierGivesBorder(d, t, k);
      }
    }
  }

  lemma BorderGivesEarlier(d: bytes, t: bytes, k: int)
    requires Border(d, k) && EndsWith(t, d[..|d| - k])
    ensures At(d, t + d, |t| + k - |d|) && |t| + k - |d| < |t|
  {
    var i := |t| + k - |d|;
    assert (t + d)[i..i + |d|] == t[i..] + d[..k];
    assert d == d[..|d| - k] + d[|d| - k..];
  }

  lemma EarlierGivesBorder(d: bytes, t: bytes, k: int)
    requires 0 < k < |d| && At(d, t + d, |t| + k - |d|)
    ensures Border(d, k) && EndsWith(t, d[..|d| - k])
  {
    var i := |t| + k - |d|;
    assert (t + d)[i..i + |d|] == t[i..] + d[..k];
    assert d[..|d| - k] == t[i..];
    assert d[|d| - k..] == d[..k];
  }

  /** The wire delimiter overlaps itself by one or two bytes and by no other length. */
  lemma DelimiterBorders(k: int)
    ensures Border(STREAM_DELIMITER, k) <==> k == 1 || k == 2
  {
    var d := STREAM_DELIMITER;
    if 0 < k < |d| {
      if k == 1 {
        assert d[..1] == [124] == d[14..];
      } else if k == 2 {
        assert d[..2] == [124, 124] == d[13..];
      } else if k == 14 {
        assert d[..14][1] != d[1..][1];
      } else {
        assert d[15 - k] != 124;
        assert d[..k][0] != d[15 - k..][0];
      }
    }
  }

  /** A batch survives its own terminator iff it holds no delimiter and does not end in 13 or 14 bytes of one. */
  predicate Ambiguous(t: bytes) {
    EndsWith(t, STREAM_DELIMITER[..13]) || EndsWith(t, STREAM_DELIMITER[..14])
  }

  lemma TerminatesDelimiter(t: bytes)
    ensures Terminates(STREAM_DELIMITER, t) <==> !Contains(STREAM_DELIMITER, t) && !Ambiguous(t)
  {
    TerminatesIff(STREAM_DELIMITER, t);
    DelimiterBorders(1);
    DelimiterBorders(2);
    forall k | Border(STREAM_DELIMITER, k)
      ensures k == 1 || k == 2
    {
      DelimiterBorders(k);
    }
  }

  // ---- the round trip through the consumer, which drops empty tokens ----

  function TotalLength(ts: seq<bytes>): (n: nat) {
    if ts == [] then 0 else |ts[0]| + TotalLength(ts[1..])
  }

  lemma {:induction false} JoinLength(d: bytes, ts: seq<bytes>)
    requires |ts| > 0
    ensures |Join(d, ts)| == TotalLength(ts) + |d| * (|ts| - 1)
  {
    if |ts| > 1 {
      JoinLength(d, ts[1..]);
      assert |d| * (|ts| - 1) == |d| + |d| * (|ts| - 2);
    }
  }

  lemma {:induction false} NonEmptyLength(ts: seq<bytes>)
    ensures TotalLength(NonEmpty(ts)) == TotalLength(ts)
    ensures |NonEmpty(ts)| == |ts| ==> NonEmpty(ts) == ts
  {
    if ts != [] {
      NonEmptyLength(ts[1..]);
      if ts[0] == [] {
        assert NonEmpty(ts) == NonEmpty(ts[1..]);
      } else {
        assert NonEmpty(ts)[1..] == NonEmpty(ts[1..]);
      }
    }
  }

  lemma {:induction false} NonEmptyKeeps(ts: seq<bytes>)
    requires forall t :: t in ts ==> t != []
    ensures NonEmpty(ts) == ts
  {
    if ts != [] {
      assert ts[0] in ts;
      assert forall t :: t in ts[1..] ==> t in ts;
      NonEmptyKeeps(ts[1..]);
      assert [ts[0]] + ts[1..] == ts;
    }
  }

  lemma Assoc(a: seq<bytes>, b: seq<bytes>, c: seq<bytes>)
    ensures a + (b + c) == (a + b) + c
  {
  }

  lemma {:induction false} NonEmptyCons(t: bytes, ts: seq<bytes>)
    ensures NonEmpty([t] + ts) == NonEmpty([t]) + NonEmpty(ts)
  {
    assert ([t] + ts)[1..] == ts && [t][1..] == [];
    assert NonEmpty([t]) == if t == [] then [] else [t];
  }

  lemma {:induction false} NonEmptyAppend(a: seq<bytes>, b: seq<bytes>)
    ensures NonEmpty(a + b) == NonEmpty(a) + NonEmpty(b)
  {
    if a == [] {
      assert a + b == b;
    } else {
      NonEmptyAppend(a[1..], b);
      NonEmptyCons(a[0], a[1..] + b);
      NonEmptyCons(a[0], a[1..]);
      assert a + b == [a[0]] + (a[1..] + b) && a == [a[0]] + a[1..];
      Assoc(NonEmpty([a[0]]), NonEmpty(a[1..]), NonEmpty(b));
    }
  }

  lemma {:induction false} SplitTokensClean(d: bytes, data: bytes)
    requires |d| > 0
    ensures forall t :: t in Split(d, data) ==> !Contains(d, t)
    decreases |data|
  {
    var i := Index(d, data);
    IndexMeans(d, data);
    if i != -1 {
      SplitTokensClean(d, data[i + |d|..]);
      forall j
        ensures !At(d, data[..i], j)
      {
        assert data[..i] + data[i..] == data;
        if j + |d| <= i {
          AtPrefix(d, data[..i], data[i..], j);
        }
      }
    }
  }

  lemma {:induction false} NonEmptySubset(ts: seq<bytes>)
    ensures forall t :: t in NonEmpty(ts) ==> t in ts
  {
    if ts != [] { NonEmptySubset(ts[1..]); }
  }

  /** A terminator before a batch is not a terminator after it. */
  lemma NoEarlyEmpty(b: bytes, left: bytes)
    requires b != [] && !Contains(STREAM_DELIMITER, b)
    requires STREAM_DELIMITER + b <= left
    ensures !(b + STREAM_DELIMITER <= left)
  {
    if b + STREAM_DELIMITER <= left {
      CommutesOnlyWithWhole(STREAM_DELIMITER, b, left);
      DelimiterBorders(|STREAM_DELIMITER| - |b|);
      assert false;
    }
  }

  lemma CommutesOnlyWithWhole(d: bytes, b: bytes, left: bytes)
    requires |d| > 2 && b != [] && !Contains(d, b)
    requires d + b <= left && b + d <= left
    ensures |b| < |d| && Border(d, |d| - |b|)
    ensures var k := |d| - |b|; d[k] == d[0] && (|b| > 1 ==> d[k + 1] == d[1])
  {
    var n, m := |b|, |d|;
    Reads(d, b, left);
    Reads(b, d, left);
    if n >= m {
      assert b[..m] == d;
      assert At(d, b, 0);
      assert false;
    }
    var k := m - n;
    assert d[..k] == d[n..];
    assert d[k] == left[n + k] == left[m + 0] == b[0] == left[0] == d[0];
    if n > 1 {
      assert d[k + 1] == left[n + (k + 1)] == left[m + 1] == b[1] == left[1] == d[1];
    }
  }

  /** A prefix made of two parts, index by index. */
  lemma Reads(x: bytes, y: bytes, left: bytes)
    requires x + y <= left
    ensures forall i :: 0 <= i < |x| ==> left[i] == x[i]
    ensures forall i :: 0 <= i < |y| ==> left[|x| + i] == y[i]
  {
    var both := x + y;
    assert forall i :: 0 <= i < |x| ==> both[i] == x[i];
    assert forall i :: 0 <= i < |y| ==> both[|x| + i] == y[i];
    assert forall i :: 0 <= i < |both| ==> left[i] == both[i];
  }

  lemma StartsWithFirst(d: bytes, ts: seq<bytes>)
    requires |ts| > 0
    ensures ts[0] <= Join(d, ts)
  {
  }

  lemma SameTail(front: bytes, x: bytes, y: bytes)
    requires front + x == front + y
    ensures x == y
  {
    assert x == (front + x)[|front|..] && y == (front + y)[|front|..];
  }

  /** No closed body both begins with a batch and has an empty token before that batch. */
  lemma EmptyFirst(b: bytes, x: bytes, y: bytes)
    requires b != [] && !Contains(STREAM_DELIMITER, b) && b <= x
    ensures [] + STREAM_DELIMITER + x != b + STREAM_DELIMITER + y
  {
    var d := STREAM_DELIMITER;
    var left := [] + d + x;
    assert d + b <= left;
    if left == b + d + y {
      assert b + d <= left;
      NoEarlyEmpty(b, left);
    }
  }

  /** Two readings of one closed body agree on every token once their batches agree. */
  lemma {:induction false} ClosedReading(ts: seq<bytes>, batches: seq<bytes>)
    requires |ts| == |batches| + 1 && NonEmpty(ts) == batches
    requires Join(STREAM_DELIMITER, ts) == Join(STREAM_DELIMITER, batches + [[]])
    requires forall b :: b in batches ==> !Contains(STREAM_DELIMITER, b)
    ensures ts == batches + [[]]
  {
    var d := STREAM_DELIMITER;
    if batches == [] {
      assert ts == [ts[0]];
      assert batches + [[]] == [[]];
    } else {
      var b := batches[0];
      var whole := batches + [[]];
      assert whole[0] == b && whole[1..] == batches[1..] + [[]];
      assert Join(d, whole) == b + d + Join(d, whole[1..]);
      NonEmptyLength(ts[1..]);
      if ts[0] == [] {
        assert ts[1..] == batches && ts[1] == b;
        StartsWithFirst(d, ts[1..]);
        EmptyFirst(b, Join(d, ts[1..]), Join(d, whole[1..]));
        assert false;
      } else {
        assert NonEmpty(ts)[1..] == NonEmpty(ts[1..]);
        assert ts[0] == b;
        SameTail(b + d, Join(d, ts[1..]), Join(d, whole[1..]));
        ClosedReading(ts[1..], batches[1..]);
      }
    }
  }

  /** Nothing is lost, merged or split on the wire. */
  ghost predicate Recovered(batches: seq<bytes>, closed: bool) {
    NonEmpty(Split(STREAM_DELIMITER, Encode(STREAM_DELIMITER, batches, closed))) == batches
  }

  /** The framing round trip and exactly when it holds. */
  lemma FramingRoundTrip(batches: seq<bytes>, closed: bool)
    requires forall b :: b in batches ==> b != []
    ensures Recovered(batches, closed) <==>
            && (forall b :: b in batches ==> !Contains(STREAM_DELIMITER, b))
            && (forall i :: 0 <= i < |batches| && (closed || i < |batches| - 1) ==> !Ambiguous(batches[i]))
  {
    if batches != [] {
      FramedBatches(batches, closed);
      if Recovered(batches, closed) {
        RecoveredIsFramed(batches, closed);
      } else {
        FramedIsRecovered(batches, closed);
      }
    }
  }

  function Tokens(batches: seq<bytes>, closed: bool): (ts: seq<bytes>) {
    if closed then batches + [[]] else batches
  }

  lemma FramedIsRecovered(batches: seq<bytes>, closed: bool)
    requires batches != [] && forall b :: b in batches ==> b != []
    ensures Framed(STREAM_DELIMITER, Tokens(batches, closed)) ==> Recovered(batches, closed)
  {
    SplitOfJoin(STREAM_DELIMITER, Tokens(batches, closed));
    NonEmptyKeeps(batches);
    NonEmptyAppend(batches, [[]]);
    assert NonEmpty([[]]) == [];
  }

  lemma RecoveredIsFramed(batches: seq<bytes>, closed: bool)
    requires batches != [] && Recovered(batches, closed)
    ensures Framed(STREAM_DELIMITER, Tokens(batches, closed))
  {
    var d, ts := STREAM_DELIMITER, Tokens(batches, closed);
    var got := Split(d, Join(d, ts));
    JoinOfSplit(d, Join(d, ts));
    SameCount(d, got, ts, batches);
    NonEmptyLength(got);
    SplitTokensClean(d, Join(d, ts));
    NonEmptySubset(got);
    if closed {
      ClosedReading(got, batches);
    }
    SplitOfJoin(d, ts);
  }

  /** Equal bodies with equal payload hold equally many delimiters. */
  lemma {:induction false} SameCount(d: bytes, a: seq<bytes>, ts: seq<bytes>, batches: seq<bytes>)
    requires |d| > 0 && a != [] && ts != [] && Join(d, a) == Join(d, ts)
    requires NonEmpty(a) == batches && (ts == batches || ts == batches + [[]])
    ensures |a| == |ts|
  {
    JoinLength(d, a);
    JoinLength(d, ts);
    NonEmptyLength(a);
    TotalLengthAppend(batches, [[]]);
    assert TotalLength([[]]) == 0;
    Cancel(|d|, |a| - 1, |ts| - 1);
  }

  lemma Cancel(n: int, x: int, y: int)
    requires n > 0 && n * x == n * y
    ensures x == y
  {
    assert n * (x - y) == n * x - n * y;
  }

  lemma {:induction false} TotalLengthAppend(a: seq<bytes>, b: seq<bytes>)
    ensures TotalLength(a + b) == TotalLength(a) + TotalLength(b)
  {
    if a == [] {
      assert a + b == b;
    } else {
      assert (a + b)[1..] == a[1..] + b;
      TotalLengthAppend(a[1..], b);
    }
  }

  lemma FramedBatches(batches: seq<bytes>, closed: bool)
    requires batches != []
    ensures Framed(STREAM_DELIMITER, Tokens(batches, closed)) <==>
            && (forall b :: b in batches ==> !Contains(STREAM_DELIMITER, b))
            && (forall i :: 0 <= i < |batches| && (closed || i < |batches| - 1) ==> !Ambiguous(batches[i]))
  {
    var ts := Tokens(batches, closed);
    forall i | 0 <= i < |ts| - 1
      ensures Terminates(STREAM_DELIMITER, ts[i]) <==>
              !Contains(STREAM_DELIMITER, batches[i]) && !Ambiguous(batches[i])
    {
      TerminatesDelimiter(batches[i]);
    }
    assert !Contains(STREAM_DELIMITER, []);
  }
}
