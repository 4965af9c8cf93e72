/** bufio.Scanner with the delimiter split function, over an arbitrary sequence of reads. */
module Scanner {
  import opened Delimiter

  const MAX_BATCH_BYTES: nat := 256 * 1024

  /** bufio gives up after this many consecutive reads that return nothing. */
  const MAX_EMPTY_READS: nat := 100

  datatype Ending = EndOfStream | Broke(code: int)

  /** What the body's Read returns, call by call, and how it ends. The ending comes
      with the last bytes when `joint`, and from a read of its own otherwise. */
  datatype AnyReader = Reader(chunks: seq<bytes>, ending: Ending, joint: bool)
  type Reader = r: AnyReader | r.joint ==> r.chunks != [] && r.chunks[|r.chunks| - 1] != []
    witness Reader([], EndOfStream, false)

  datatype ScanErr = NoErr | CleanEnd | ReadFailed(code: int) | TooLong | NoProgress

  datatype Token = Token(data: bytes, leftover: bool)

  /** The tokens a scan of `data` will return, and whether it stops on an over-long one. */
  datatype Schedule = Schedule(tokens: seq<Token>, overlong: bool)

  function Plan(d: bytes, window: nat, data: bytes, joint: bool): (p: Schedule)
    requires |d| > 0
    ensures forall i :: 0 <= i < |p.tokens| - 1 ==> !p.tokens[i].leftover
    ensures p.overlong ==> forall i :: 0 <= i < |p.tokens| ==> !p.tokens[i].leftover
    decreases |data|
  {
    var i := Index(d, data);
    if i >= 0 then
      if i + |d| > window then Schedule([], true)
      else
        var p := Plan(d, window, data[i + |d|..], joint);
        Schedule([Token(data[..i], false)] + p.tokens, p.overlong)
    else if |data| > window || (|data| == window && !joint) then Schedule([], true)
    else if data == [] then Schedule([], false)
    else Schedule([Token(data, true)], false)
  }

  // ---- the bytes a reader hands over before it ends or stalls ----

  function Yield(chunks: seq<bytes>, idle: nat): (b: bytes) {
    if chunks == [] then []
    else if chunks[0] != [] then chunks[0] + Yield(chunks[1..], 0)
    else if idle >= MAX_EMPTY_READS then []
    else Yield(chunks[1..], idle + 1)
  }

  predicate Stalls(chunks: seq<bytes>, idle: nat) {
    if chunks == [] then false
    else if chunks[0] != [] then Stalls(chunks[1..], 0)
    else idle >= MAX_EMPTY_READS || Stalls(chunks[1..], idle + 1)
  }

  function ErrOf(e: Ending): (r: ScanErr) {
    match e
    case EndOfStream => CleanEnd
    case Broke(c) => ReadFailed(c)
  }

  /** How a scanner sees the reader end: a stalled one never reaches its own ending. */
  function EndingOf(chunks: seq<bytes>, idle: nat, ending: Ending): (r: ScanErr) {
    if Stalls(chunks, idle) then NoProgress else ErrOf(ending)
  }

  function Size(chunks: seq<bytes>): (n: nat) {
    if chunks == [] then 0 else 1 + |chunks[0]| + Size(chunks[1..])
  }

  /** Short data fits however its end is reported. */
  lemma {:induction false} PlanShort(d: bytes, window: nat, data: bytes)
    requires |d| > 0 && |data| < window
    ensures Plan(d, window, data, true) == Plan(d, window, data, false)
    ensures !Plan(d, window, data, true).overlong
    decreases |data|
  {
    var i := Index(d, data);
    if i >= 0 {
      PlanShort(d, window, data[i + |d|..]);
    }
  }

  // ---- what a scanner in a given state still owes ----

  function RestOf(held: bytes, chunks: seq<bytes>, err: ScanErr): (b: bytes) {
    if err == NoErr then held + Yield(chunks, 0) else held
  }

  function AgendaOf(d: bytes, window: nat, joint: bool, held: bytes, chunks: seq<bytes>, err: ScanErr): (p: Schedule)
    requires |d| > 0
  {
    Plan(d, window, RestOf(held, chunks, err), err != NoErr || (joint && !Stalls(chunks, 0)))
  }

  function VerdictIn(d: bytes, window: nat, joint: bool, ending: Ending, held: bytes, chunks: seq<bytes>, err: ScanErr)
    : (e: ScanErr)
    requires |d| > 0
  {
    if AgendaOf(d, window, joint, held, chunks, err).overlong then TooLong
    else if err == NoErr then EndingOf(chunks, 0, ending) else err
  }

  /** `t` is the first token of `p`, and what remains is the rest of `p` with the same verdict. */
  predicate Continues(p: Schedule, verdict: ScanErr, t: Token, rest: Schedule, last: ScanErr) {
    p.tokens != [] && t == p.tokens[0] && rest == Schedule(p.tokens[1..], p.overlong) && last == verdict
  }

  class Scanner {
    const d: bytes
    const window: nat
    const ending: Ending
    const joint: bool
    /** The buffer's live bytes and where they begin in it. */
    var start: nat
    var held: bytes
    var chunks: seq<bytes>
    var err: ScanErr
    var token: bytes
    /** The captured variable the split function sets. */
    var leftover: bool

    ghost predicate Valid()
      reads this
    {
      && |d| > 0 && window > 0
      && start + |held| <= window
      && (joint && err == NoErr ==> chunks != [] && chunks[|chunks| - 1] != [])
    }

    ghost function Rest(): (b: bytes)
      reads this
    {
      RestOf(held, chunks, err)
    }

    ghost function Verdict(): (e: ScanErr)
      requires Valid()
      reads this
    {
      VerdictIn(d, window, joint, ending, held, chunks, err)
    }

    /** Everything this scanner will still return. */
    ghost function Agenda(): (p: Schedule)
      requires Valid()
      reads this
    {
      AgendaOf(d, window, joint, held, chunks, err)
    }

    constructor (body: Reader, delimiter: bytes, size: nat)
      requires |delimiter| > 0 && size > 0
      ensures Valid() && err == NoErr
      ensures Agenda() == Plan(delimiter, size, Yield(body.chunks, 0), body.joint && !Stalls(body.chunks, 0))
      ensures Verdict() == if Agenda().overlong then TooLong else EndingOf(body.chunks, 0, body.ending)
    {
      d, window, ending, joint := delimiter, size, body.ending, body.joint;
      start, held, chunks, err := 0, [], body.chunks, NoErr;
      token, leftover := [], false;
      new;
      assert [] + Yield(body.chunks, 0) == Yield(body.chunks, 0);
    }

    /** Read past empty results, up to the limit. */
    method Spin() returns (idle: nat)
      requires Valid() && err == NoErr
      modifies this`chunks
      ensures Valid() && idle <= MAX_EMPTY_READS && Size(chunks) <= old(Size(chunks))
      ensures Yield(chunks, idle) == old(Yield(chunks, 0)) && Stalls(chunks, idle) == old(Stalls(chunks, 0))
      ensures chunks == [] || chunks[0] != [] || idle == MAX_EMPTY_READS
    {
      idle := 0;
      while chunks != [] && chunks[0] == [] && idle < MAX_EMPTY_READS
        invariant Valid() && idle <= MAX_EMPTY_READS
        invariant Yield(chunks, idle) == old(Yield(chunks, 0))
        invariant Stalls(chunks, idle) == old(Stalls(chunks, 0))
        invariant Size(chunks) <= old(Size(chunks))
        decreases |chunks|
      {
        chunks := chunks[1..];
        idle := idle + 1;
      }
    }

    /** One successful refill: spin over empty reads, take what fits, note how the reader ended. */
    method Fill()
      requires Valid() && err == NoErr && start + |held| < window
      modifies this`held, this`chunks, this`err
      ensures Valid()
      ensures Agenda() == old(Agenda()) && Verdict() == old(Verdict())
      ensures err != NoErr || Size(chunks) < old(Size(chunks))
      ensures err != TooLong && (err == NoErr ==> held != [])
    {
      ghost var before := chunks;
      var idle := Spin();
      if chunks == [] {
        EndKeeps(d, window, joint, ending, held, before, chunks);
        err := ErrOf(ending);
      } else if chunks[0] == [] {
        EndKeeps(d, window, joint, ending, held, before, chunks);
        err := NoProgress;
      } else {
        SpinKeeps(d, window, joint, ending, held, before, chunks);
        Take();
      }
    }

    /** A read that returns bytes: as many of the next chunk as the buffer has room for. */
    method Take()
      requires Valid() && err == NoErr && start + |held| < window && chunks != [] && chunks[0] != []
      modifies this`held, this`chunks, this`err
      ensures Valid()
      ensures Agenda() == old(Agenda()) && Verdict() == old(Verdict())
      ensures err != NoErr || Size(chunks) < old(Size(chunks))
      ensures err != TooLong && held != []
    {
      var room := window - start - |held|;
      var n := if |chunks[0]| <= room then |chunks[0]| else room;
      TakeKeeps(d, window, joint, ending, held, chunks, n);
      var rest := LeftAfter(chunks, n);
      held, chunks, err := held + chunks[0][..n], rest, ErrAfter(joint, ending, rest);
    }

    /** The split function applied to the buffer, and the buffer advanced past its token. */
    method Next() returns (found: bool)
      requires Valid() && err != TooLong && (held != [] || err != NoErr)
      modifies this`start, this`held, this`token, this`leftover
      ensures Valid()
      ensures found ==> Returned(old(Agenda()), old(Verdict()))
      ensures !found ==> held == old(held) && start == old(start) && Index(d, held) == -1
      ensures !found && err != NoErr ==> held == [] && Agenda() == Schedule([], false)
    {
      var i := Index(d, held);
      if i >= 0 {
        Advance(i);
        return true;
      }
      if err == NoErr {
        return false;
      }
      TailReturns(d, window, joint, ending, held, chunks, err);
      if held != [] {
        Drain(Agenda(), Verdict());
        return true;
      }
      return false;
    }

    /** Past the delimiter found at `i`. */
    method Advance(i: nat)
      requires Valid() && i == Index(d, held)
      modifies this`start, this`held, this`token, this`leftover
      ensures Valid() && Returned(old(Agenda()), old(Verdict()))
    {
      CutReturns(d, window, joint, ending, held, chunks, err);
      Cut(i, Agenda(), Verdict());
    }

    /** All of the buffer is the token. */
    method Drain(ghost p: Schedule, ghost verdict: ScanErr)
      requires Valid()
      requires Continues(p, verdict, Token(held, true), AgendaOf(d, window, joint, [], chunks, err),
                         VerdictIn(d, window, joint, ending, [], chunks, err))
      modifies this`start, this`held, this`token, this`leftover
      ensures Valid() && Returned(p, verdict)
    {
      token, leftover := held, true;
      start, held := start + |held|, [];
    }

    /** The part before the delimiter is the token; the rest stays. */
    method Cut(i: nat, ghost p: Schedule, ghost verdict: ScanErr)
      requires Valid() && i + |d| <= |held|
      requires Continues(p, verdict, Token(held[..i], false),
                         AgendaOf(d, window, joint, held[i + |d|..], chunks, err),
                         VerdictIn(d, window, joint, ending, held[i + |d|..], chunks, err))
      modifies this`start, this`held, this`token, this`leftover
      ensures Valid() && Returned(p, verdict)
    {
      token, leftover := held[..i], false;
      start, held := start + i + |d|, held[i + |d|..];
    }

    /** The token just returned is the first of `p`, and the rest of `p` is what remains. */
    ghost predicate Returned(p: Schedule, verdict: ScanErr)
      requires Valid()
      reads this
    {
      Continues(p, verdict, Token(token, leftover), Agenda(), Verdict())
    }

    /** Slide the live bytes down when space is short; a buffer that is still full is over-long. */
    method Shift() returns (full: bool)
      requires Valid() && err == NoErr && (held == [] || Index(d, held) == -1)
      modifies this`start, this`err
      ensures Valid()
      ensures full ==> old(Agenda()) == Schedule([], true) && err == TooLong
      ensures !full ==> err == NoErr && start + |held| < window
    {
      if start > 0 && (start + |held| == window || start > window / 2) {
        start := 0;
      }
      full := start + |held| == window;
      if full {
        if joint && !Stalls(chunks, 0) { YieldsBytes(chunks, 0); }
        FullIsOverlong(d, window, held, Yield(chunks, 0), joint && !Stalls(chunks, 0));
        err := TooLong;
      }
    }

    method Scan() returns (more: bool)
      requires Valid() && err != TooLong
      modifies this
      ensures Valid()
      ensures more <==> old(Agenda()).tokens != []
      ensures more ==> err != TooLong && Returned(old(Agenda()), old(Verdict()))
      ensures !more ==> err == old(Verdict())
    {
      while true
        invariant Valid() && err != TooLong
        invariant Agenda() == old(Agenda()) && Verdict() == old(Verdict())
        decreases if err == NoErr then 1 else 0, Size(chunks)
      {
        if held != [] || err != NoErr {
          var found := Next();
          if found {
            return true;
          }
        }
        if err != NoErr {
          return false;
        }
        var full := Shift();
        if full {
          return false;
        }
        Fill();
      }
    }
  }

  lemma IndexInPrefix(d: bytes, a: bytes, b: bytes)
    requires Index(d, a) >= 0
    ensures Index(d, a + b) == Index(d, a)
  {
    var i := Index(d, a);
    forall j | 0 <= j <= i
      ensures At(d, a + b, j) <==> At(d, a, j)
    {
      AtPrefix(d, a, b, j);
    }
    IndexMeans(d, a);
    IndexMeans(d, a + b);
  }

  /** A delimiter in the buffer decides the next token, whatever comes after. */
  lemma PlanFront(d: bytes, window: nat, held: bytes, more: bytes, joint: bool)
    requires |d| > 0 && |held| <= window && Index(d, held) >= 0
    ensures var i, p := Index(d, held), Plan(d, window, held + more, joint);
            var rest := Plan(d, window, held[i + |d|..] + more, joint);
            p.tokens != [] && p.tokens[0] == Token(held[..i], false) && rest == Schedule(p.tokens[1..], p.overlong)
  {
    var i, data := Index(d, held), held + more;
    var rest := Plan(d, window, held[i + |d|..] + more, joint);
    IndexInPrefix(d, held, more);
    assert data[..i] == held[..i];
    assert data[i + |d|..] == held[i + |d|..] + more;
    assert Plan(d, window, data, joint) == Schedule([Token(held[..i], false)] + rest.tokens, rest.overlong);
  }

  /** Advancing past a token in the buffer leaves the rest of the agenda. */
  lemma CutReturns(d: bytes, window: nat, joint: bool, ending: Ending, held: bytes, chunks: seq<bytes>, err: ScanErr)
    requires |d| > 0 && |held| <= window && Index(d, held) >= 0
    ensures var i := Index(d, held);
            && i + |d| <= |held| && |held[i + |d|..]| == |held| - i - |d|
            && Continues(AgendaOf(d, window, joint, held, chunks, err),
                         VerdictIn(d, window, joint, ending, held, chunks, err),
                         Token(held[..i], false),
                         AgendaOf(d, window, joint, held[i + |d|..], chunks, err),
                         VerdictIn(d, window, joint, ending, held[i + |d|..], chunks, err))
  {
    var back := held[Index(d, held) + |d|..];
    if err == NoErr {
      PlanFront(d, window, held, Yield(chunks, 0), joint && !Stalls(chunks, 0));
    } else {
      PlanFront(d, window, held, [], true);
      assert held + [] == held;
      assert back + [] == back;
    }
  }

  /** At the end of the stream, a buffer without a delimiter is one unterminated token, or nothing. */
  lemma TailReturns(d: bytes, window: nat, joint: bool, ending: Ending, held: bytes, chunks: seq<bytes>, err: ScanErr)
    requires |d| > 0 && |held| <= window && Index(d, held) == -1 && err != NoErr
    ensures var p := AgendaOf(d, window, joint, held, chunks, err);
            && (held == [] ==> p == Schedule([], false))
            && (held != [] ==> Continues(p, VerdictIn(d, window, joint, ending, held, chunks, err), Token(held, true),
                                         AgendaOf(d, window, joint, [], chunks, err),
                                         VerdictIn(d, window, joint, ending, [], chunks, err)))
  {
    assert Index(d, []) == -1;
    assert Plan(d, window, [], true) == Schedule([], false);
    assert held != [] ==> Plan(d, window, held, true) == Schedule([Token(held, true)], false);
  }

  // ---- reading more keeps what is owed ----

  /** What the two states still owe is the same. */
  ghost predicate SameDebt(d: bytes, window: nat, joint: bool, ending: Ending, held: bytes, chunks: seq<bytes>,
                           err: ScanErr, held': bytes, chunks': seq<bytes>, err': ScanErr)
    requires |d| > 0
  {
    && AgendaOf(d, window, joint, held, chunks, err) == AgendaOf(d, window, joint, held', chunks', err')
    && VerdictIn(d, window, joint, ending, held, chunks, err)
       == VerdictIn(d, window, joint, ending, held', chunks', err')
  }

  /** A reader with nothing more to give: noting its end changes nothing while there is room. */
  lemma EndKeeps(d: bytes, window: nat, joint: bool, ending: Ending, held: bytes, before: seq<bytes>,
                 chunks: seq<bytes>)
    requires |d| > 0 && |held| < window && Yield(before, 0) == []
    ensures SameDebt(d, window, joint, ending, held, before, NoErr, held, chunks, EndingOf(before, 0, ending))
  {
    assert held + [] == held;
    PlanShort(d, window, held);
  }

  lemma SpinKeeps(d: bytes, window: nat, joint: bool, ending: Ending, held: bytes, before: seq<bytes>,
                  chunks: seq<bytes>)
    requires |d| > 0 && Yield(before, 0) == Yield(chunks, 0) && Stalls(before, 0) == Stalls(chunks, 0)
    ensures SameDebt(d, window, joint, ending, held, before, NoErr, held, chunks, NoErr)
  {
  }

  /** The reads left after `n` bytes of the next one. */
  function LeftAfter(chunks: seq<bytes>, n: nat): (rest: seq<bytes>)
    requires chunks != [] && n <= |chunks[0]|
  {
    if n < |chunks[0]| then [chunks[0][n..]] + chunks[1..] else chunks[1..]
  }

  /** The end comes with the last bytes when the reader joins them. */
  function ErrAfter(joint: bool, ending: Ending, rest: seq<bytes>): (err: ScanErr) {
    if joint && rest == [] then ErrOf(ending) else NoErr
  }

  lemma TakeKeeps(d: bytes, window: nat, joint: bool, ending: Ending, held: bytes, chunks: seq<bytes>, n: nat)
    requires |d| > 0 && chunks != [] && 0 < n <= |chunks[0]| && (joint ==> chunks[|chunks| - 1] != [])
    ensures var rest, more := LeftAfter(chunks, n), held + chunks[0][..n];
            && SameDebt(d, window, joint, ending, held, chunks, NoErr, more, rest, ErrAfter(joint, ending, rest))
            && more != [] && |more| == |held| + n && Size(rest) < Size(chunks)
            && (joint && rest != [] ==> rest[|rest| - 1] != [])
  {
    YieldTake(held, chunks, n);
    if joint && LeftAfter(chunks, n) == [] {
      LastKeeps(d, window, ending, held + chunks[0][..n]);
    }
  }

  /** Bytes moved from the next read to the buffer. */
  lemma {:induction false} YieldTake(held: bytes, chunks: seq<bytes>, n: nat)
    requires chunks != [] && 0 < n <= |chunks[0]|
    ensures var rest := LeftAfter(chunks, n);
            && held + Yield(chunks, 0) == (held + chunks[0][..n]) + Yield(rest, 0)
            && Stalls(chunks, 0) == Stalls(rest, 0) && Size(rest) < Size(chunks)
            && (rest != [] ==> rest[|rest| - 1] == chunks[|chunks| - 1] || rest[|rest| - 1] != [])
  {
    var chunk, tail, rest := chunks[0], Yield(chunks[1..], 0), LeftAfter(chunks, n);
    assert Yield(chunks, 0) == chunk + tail;
    if n < |chunk| {
      assert rest[0] == chunk[n..] && rest[1..] == chunks[1..];
      assert Yield(rest, 0) == chunk[n..] + tail;
      assert chunk == chunk[..n] + chunk[n..];
      Regroup(held, chunk[..n], chunk[n..], tail);
    } else {
      assert chunk[..n] == chunk && Yield(rest, 0) == tail;
      assert held + (chunk + tail) == (held + chunk) + tail;
    }
  }

  lemma Regroup(a: bytes, b: bytes, c: bytes, e: bytes)
    ensures a + ((b + c) + e) == (a + b) + (c + e)
  {
  }

  /** The end that comes with the last bytes. */
  lemma LastKeeps(d: bytes, window: nat, ending: Ending, held: bytes)
    requires |d| > 0
    ensures SameDebt(d, window, true, ending, held, [], NoErr, held, [], ErrOf(ending))
  {
    assert held + [] == held;
  }

  /** A reader whose last chunk has bytes hands bytes over unless it stalls first. */
  lemma {:induction false} YieldsBytes(chunks: seq<bytes>, idle: nat)
    requires chunks != [] && chunks[|chunks| - 1] != [] && !Stalls(chunks, idle)
    ensures Yield(chunks, idle) != []
  {
    if chunks[0] == [] {
      YieldsBytes(chunks[1..], idle + 1);
    }
  }

  /** A full buffer without a delimiter is an over-long token, whatever comes next. */
  lemma FullIsOverlong(d: bytes, window: nat, held: bytes, rest: bytes, joint: bool)
    requires |d| > 0 && |held| == window && Index(d, held) == -1
    requires joint ==> rest != []
    ensures Plan(d, window, held + rest, joint) == Schedule([], true)
  {
    var i := Index(d, held + rest);
    IndexMeans(d, held);
    IndexMeans(d, held + rest);
    if 0 <= i && i + |d| <= |held| {
      AtPrefix(d, held, rest, i);
      assert false;
    }
  }
}
