/**
 Date utilities of the backtester: rolling a date back to a trading session and
 cutting a range of sessions into chunks of at most a given number of sessions.

 A date is an integer day number; only its order matters. A calendar is the
 ascending, duplicate-free sequence of the trading sessions of one exchange, as
 the calendar provider supplies it. Everything here is a pure function of the
 calendar and the dates it is given.
 */
module DateUtils {

  type Date = int

  /** A chunk size: a positive number of sessions. */
  type Pos = n: int | n > 0 witness 1

  datatype Option<T> = None | Some(value: T)

  /** Why a date range was refused. */
  datatype DateRangeError =
    | NotFoundStart(start: Date)             // the start date is not a session
    | NotFoundEnd(end: Date)                 // the end date is not a session
    | EndBeforeStart(end: Date, start: Date) // both are sessions, but the end comes first

  datatype Result<T> = Ok(value: T) | Err(error: DateRangeError)

  /** The calendar invariant: strictly increasing, hence free of duplicates. */
  ghost predicate IsCalendar(sessions: seq<Date>)
  {
    forall i, j :: 0 <= i < j < |sessions| ==> sessions[i] < sessions[j]
  }

  // ---------------------------------------------------------------------------
  // Locating dates in the calendar
  // ---------------------------------------------------------------------------

  /**
   Binary search for the last position at or before `d` inside the window
   `[lo, hi)`: the window must start at or before `d` and end just before a
   session after `d` (or at the end of the calendar).
   */
  function FloorSearch(sessions: seq<Date>, d: Date, lo: nat, hi: nat): (i: nat)
    requires lo < hi <= |sessions|
    requires sessions[lo] <= d
    requires hi == |sessions| || d < sessions[hi]
    ensures lo <= i < hi
    ensures sessions[i] <= d
    ensures i + 1 == |sessions| || d < sessions[i + 1]
    decreases hi - lo
  {
    if hi - lo == 1 then lo
    else
      var mid := lo + (hi - lo) / 2;
      if sessions[mid] <= d then FloorSearch(sessions, d, mid, hi)
      else FloorSearch(sessions, d, lo, mid)
  }

  /** The position of `d` in the calendar, or None when `d` is not a session. */
  function IndexOf(sessions: seq<Date>, d: Date): (r: Option<nat>)
    requires IsCalendar(sessions)
    ensures r.Some? <==> d in sessions
    ensures r.Some? ==> r.value < |sessions| && sessions[r.value] == d
  {
    if |sessions| == 0 || d < sessions[0] then None
    else
      var i := FloorSearch(sessions, d, 0, |sessions|);
      if sessions[i] == d then Some(i) else None
  }

  /** The position of a session in the calendar. */
  function Position(sessions: seq<Date>, d: Date): (i: nat)
    requires IsCalendar(sessions)
    requires d in sessions
    ensures i < |sessions| && sessions[i] == d
  {
    IndexOf(sessions, d).value
  }

  /** A session's position is where it stands: positions and sessions correspond one to one. */
  lemma PositionOfSession(sessions: seq<Date>, i: nat)
    requires IsCalendar(sessions)
    requires i < |sessions|
    ensures Position(sessions, sessions[i]) == i
  {
  }

  /** On a calendar, comparing two sessions is comparing their positions. */
  lemma PositionOrder(sessions: seq<Date>, a: Date, b: Date)
    requires IsCalendar(sessions)
    requires a in sessions && b in sessions
    ensures a < b <==> Position(sessions, a) < Position(sessions, b)
    ensures a == b <==> Position(sessions, a) == Position(sessions, b)
  {
  }

  // ---------------------------------------------------------------------------
  // roll_dates_to_previous_session
  // ---------------------------------------------------------------------------

  /**
   Rolls `d` back to a session: `d` itself when it is a session, otherwise the
   latest session before it; the session is returned with its position. The
   calendar must hold a session at or before `d`.
   */
  function RollDatesToPreviousSession(sessions: seq<Date>, d: Date): (r: (Date, nat))
    requires IsCalendar(sessions)
    requires |sessions| > 0 && sessions[0] <= d
    ensures r.1 < |sessions| && r.0 == sessions[r.1]
    ensures r.0 <= d
    ensures d in sessions ==> r.0 == d
    ensures d !in sessions ==> r.0 < d
    ensures forall j :: 0 <= j < |sessions| ==> (sessions[j] <= d <==> j <= r.1)
  {
    var i := FloorSearch(sessions, d, 0, |sessions|);
    (sessions[i], i)
  }

  /** No session lies strictly between the rolled date and `d`. */
  lemma RollLeavesNoSessionBetween(sessions: seq<Date>, d: Date, s: Date)
    requires IsCalendar(sessions)
    requires |sessions| > 0 && sessions[0] <= d
    requires s in sessions
    ensures !(RollDatesToPreviousSession(sessions, d).0 < s <= d)
  {
  }

  /** Rolling a rolled date changes nothing. */
  lemma RollIsIdempotent(sessions: seq<Date>, d: Date)
    requires IsCalendar(sessions)
    requires |sessions| > 0 && sessions[0] <= d
    ensures var r := RollDatesToPreviousSession(sessions, d);
            sessions[0] <= r.0 && RollDatesToPreviousSession(sessions, r.0) == r
  {
  }

  // ---------------------------------------------------------------------------
  // compute_date_range_chunks, on session positions
  // ---------------------------------------------------------------------------

  /**
   `c` cuts the positions `lo..hi` (both included) into consecutive blocks
   `(first, last)` of `k` positions: the first block starts at `lo` and lies
   inside the range with at most `k` positions; it is the only block and ends
   at `hi`, or it has exactly `k` positions and the remaining blocks cut the
   positions from the one right after it.
   */
  ghost predicate IsPartition(lo: nat, hi: nat, k: Pos, c: seq<(nat, nat)>)
    decreases |c|
  {
    && |c| > 0
    && c[0].0 == lo
    && lo <= c[0].1 <= hi
    && c[0].1 - c[0].0 < k
    && if |c| == 1 then c[0].1 == hi
       else c[0].1 - c[0].0 + 1 == k && IsPartition(c[0].1 + 1, hi, k, c[1..])
  }

  /** The blocks of `k` positions that `lo..hi` is cut into, in order. */
  function ChunkBounds(lo: nat, hi: nat, k: Pos): (c: seq<(nat, nat)>)
    requires lo <= hi
    ensures IsPartition(lo, hi, k, c)
    ensures c[|c| - 1].1 == hi
    decreases hi - lo
  {
    if hi - lo < k then [(lo, hi)]
    else
      var rest := ChunkBounds(lo + k, hi, k);
      assert ([(lo, lo + k - 1)] + rest)[1..] == rest;
      [(lo, lo + k - 1)] + rest
  }

  /** The partition is unique: any cutting of `lo..hi` into blocks of `k` is ChunkBounds. */
  lemma {:induction false} PartitionIsUnique(lo: nat, hi: nat, k: Pos, c: seq<(nat, nat)>)
    requires IsPartition(lo, hi, k, c)
    ensures lo <= hi
    ensures c == ChunkBounds(lo, hi, k)
    decreases |c|
  {
    if 1 < |c| {
      var rest := c[1..];
      PartitionIsUnique(lo + k, hi, k, rest);
      assert c[0] == (lo, lo + k - 1);
      assert c == [c[0]] + rest;
      assert ChunkBounds(lo, hi, k) == [(lo, lo + k - 1)] + ChunkBounds(lo + k, hi, k);
    }
  }

  /**
   What a partition promises block by block: every block lies inside
   `lo..hi` and holds at most `k` positions, every block but the last holds
   exactly `k`, the last one ends at `hi`, and each block ends before any
   later block starts.
   */
  lemma {:induction false} PartitionBlocks(lo: nat, hi: nat, k: Pos, c: seq<(nat, nat)>)
    requires IsPartition(lo, hi, k, c)
    ensures c[|c| - 1].1 == hi
    ensures forall j :: 0 <= j < |c| ==> lo <= c[j].0 <= c[j].1 <= hi && c[j].1 - c[j].0 < k
    ensures forall j :: 0 <= j < |c| - 1 ==> c[j].1 - c[j].0 + 1 == k
    ensures forall i, j :: 0 <= i < j < |c| ==> c[i].1 < c[j].0
    decreases |c|
  {
    if 1 < |c| {
      var rest := c[1..];
      PartitionBlocks(c[0].1 + 1, hi, k, rest);
      assert c[|c| - 1] == rest[|rest| - 1];
      forall j | 0 < j < |c|
        ensures c[j] == rest[j - 1]
      {
      }
    }
  }

  /** Each block of a partition starts right after the previous block ends. */
  lemma {:induction false} PartitionIsContiguous(lo: nat, hi: nat, k: Pos, c: seq<(nat, nat)>, j: nat)
    requires IsPartition(lo, hi, k, c)
    requires j + 1 < |c|
    ensures c[j + 1].0 == c[j].1 + 1
    decreases j
  {
    if 0 < j {
      PartitionIsContiguous(c[0].1 + 1, hi, k, c[1..], j - 1);
    }
  }

  /**
   There are ceil((hi - lo + 1) / k) blocks: the smallest count of `k`-blocks
   that reaches past `hi`. The last block starts after the full blocks and
   holds what they leave over.
   */
  lemma {:induction false} ChunkCount(lo: nat, hi: nat, k: Pos)
    requires lo <= hi
    ensures var c := ChunkBounds(lo, hi, k);
            (|c| - 1) * k <= hi - lo < |c| * k
    ensures var c := ChunkBounds(lo, hi, k);
            c[|c| - 1] == (lo + (|c| - 1) * k, hi)
    decreases hi - lo
  {
    if k <= hi - lo {
      ChunkCount(lo + k, hi, k);
      var c, rest := ChunkBounds(lo, hi, k), ChunkBounds(lo + k, hi, k);
      var n := |rest|;
      assert c == [(lo, lo + k - 1)] + rest;
      assert |c| == n + 1 && c[|c| - 1] == rest[n - 1];
      ShiftByOneBlock(n, k, hi - lo);
    } else {
      assert ChunkBounds(lo, hi, k) == [(lo, hi)];
    }
  }

  /** Arithmetic for ChunkCount: one more block of `k` covers `k` more positions. */
  lemma ShiftByOneBlock(n: int, k: int, x: int)
    requires (n - 1) * k <= x - k < n * k
    ensures n * k <= x < (n + 1) * k
  {
  }

  /** The positions `a` up to but excluding `b`, in order. */
  function Range(a: nat, b: nat): (r: seq<nat>)
    ensures |r| == if a <= b then b - a else 0
    ensures forall i :: 0 <= i < |r| ==> r[i] == a + i
  {
    seq(if a <= b then b - a else 0, i requires 0 <= i => a + i)
  }

  /** The positions the blocks cover, block after block. */
  function Covered(c: seq<(nat, nat)>): seq<nat>
  {
    if c == [] then [] else Range(c[0].0, c[0].1 + 1) + Covered(c[1..])
  }

  /**
   The blocks cover the range with no gap and no overlap: the positions they
   cover, block after block, are exactly `lo..hi` in order.
   */
  lemma {:induction false} ChunksCoverRange(lo: nat, hi: nat, k: Pos)
    requires lo <= hi
    ensures Covered(ChunkBounds(lo, hi, k)) == Range(lo, hi + 1)
    decreases hi - lo
  {
    var c := ChunkBounds(lo, hi, k);
    if k <= hi - lo {
      var rest := ChunkBounds(lo + k, hi, k);
      assert c == [(lo, lo + k - 1)] + rest;
      assert c[1..] == rest;
      ChunksCoverRange(lo + k, hi, k);
      assert Range(lo, hi + 1) == Range(lo, lo + k) + Range(lo + k, hi + 1);
    } else {
      assert c == [(lo, hi)];
      assert c[1..] == [];
    }
  }

  // ---------------------------------------------------------------------------
  // compute_date_range_chunks, on dates
  // ---------------------------------------------------------------------------

  /** Every date of every pair is a session. */
  ghost predicate AllSessions(sessions: seq<Date>, p: seq<(Date, Date)>)
  {
    forall j :: 0 <= j < |p| ==> p[j].0 in sessions && p[j].1 in sessions
  }

  /** The pairs of sessions, read as pairs of positions. */
  function Positions(sessions: seq<Date>, p: seq<(Date, Date)>): (c: seq<(nat, nat)>)
    requires IsCalendar(sessions)
    requires AllSessions(sessions, p)
    ensures |c| == |p|
    ensures forall j :: 0 <= j < |p| ==> c[j] == (Position(sessions, p[j].0), Position(sessions, p[j].1))
  {
    seq(|p|, j requires 0 <= j < |p| => (Position(sessions, p[j].0), Position(sessions, p[j].1)))
  }

  /** The pairs of positions, read as pairs of sessions. */
  function Dates(sessions: seq<Date>, c: seq<(nat, nat)>): (p: seq<(Date, Date)>)
    requires forall j :: 0 <= j < |c| ==> c[j].0 < |sessions| && c[j].1 < |sessions|
    ensures |p| == |c|
    ensures forall j :: 0 <= j < |c| ==> p[j] == (sessions[c[j].0], sessions[c[j].1])
  {
    seq(|c|, j requires 0 <= j < |c| => (sessions[c[j].0], sessions[c[j].1]))
  }

  /**
   `p` is a chunking of the sessions from `start` to `end` into chunks of `k`
   sessions: its dates are sessions and, read as positions, its pairs cut the
   positions of `start..end` into blocks of `k` (IsPartition).
   */
  ghost predicate IsChunking(sessions: seq<Date>, start: Date, end: Date, k: Pos, p: seq<(Date, Date)>)
    requires IsCalendar(sessions)
  {
    && start in sessions && end in sessions
    && AllSessions(sessions, p)
    && IsPartition(Position(sessions, start), Position(sessions, end), k, Positions(sessions, p))
  }

  /**
   Validates `start` and `end`, then gives the `(first, last)` session pairs of
   consecutive chunks of `chunksize` sessions from `start` to `end`, or the one
   pair `(start, end)` when there is no chunk size. Validation runs in order:
   the start must be a session, then the end, then the end must not precede the
   start.
   */
  function ComputeDateRangeChunks(sessions: seq<Date>, start: Date, end: Date, chunksize: Option<Pos>)
    : (r: Result<seq<(Date, Date)>>)
    requires IsCalendar(sessions)
    ensures start !in sessions ==> r == Err(NotFoundStart(start))
    ensures start in sessions && end !in sessions ==> r == Err(NotFoundEnd(end))
    ensures start in sessions && end in sessions && end < start ==> r == Err(EndBeforeStart(end, start))
    ensures r.Ok? <==> start in sessions && end in sessions && start <= end
    ensures r.Ok? && chunksize.None? ==> r.value == [(start, end)]
    ensures r.Ok? && chunksize.Some? ==> IsChunking(sessions, start, end, chunksize.value, r.value)
  {
    match IndexOf(sessions, start)
    case None => Err(NotFoundStart(start))
    case Some(i0) =>
      match IndexOf(sessions, end)
      case None => Err(NotFoundEnd(end))
      case Some(i1) =>
        if end < start then Err(EndBeforeStart(end, start))
        else
          match chunksize
          case None => Ok([(start, end)])
          case Some(k) =>
            PositionOrder(sessions, start, end);
            var c := ChunkBounds(i0, i1, k);
            PartitionBlocks(i0, i1, k, c);
            var p := Dates(sessions, c);
            DatesThenPositions(sessions, c);
            Ok(p)
  }

  /** Reading positions as sessions and back as positions gives the positions back. */
  lemma DatesThenPositions(sessions: seq<Date>, c: seq<(nat, nat)>)
    requires IsCalendar(sessions)
    requires forall j :: 0 <= j < |c| ==> c[j].0 < |sessions| && c[j].1 < |sessions|
    ensures AllSessions(sessions, Dates(sessions, c))
    ensures Positions(sessions, Dates(sessions, c)) == c
  {
  }

  /** A date strictly between two neighbouring sessions is not a session. */
  lemma BetweenSessionsIsNoSession(sessions: seq<Date>, i: nat, d: Date)
    requires IsCalendar(sessions)
    requires i + 1 < |sessions| && sessions[i] < d < sessions[i + 1]
    ensures d !in sessions
  {
  }

  /**
   The chunking is determined: read as positions, the pairs that satisfy
   IsChunking are exactly the blocks ChunkBounds cuts `start..end` into, and
   each date is the session at its position.
   */
  lemma ChunkingIsDetermined(sessions: seq<Date>, start: Date, end: Date, k: Pos, p: seq<(Date, Date)>)
    requires IsCalendar(sessions)
    requires IsChunking(sessions, start, end, k, p)
    ensures Position(sessions, start) <= Position(sessions, end)
    ensures Positions(sessions, p) == ChunkBounds(Position(sessions, start), Position(sessions, end), k)
    ensures forall j :: 0 <= j < |p| ==> p[j] == (sessions[Positions(sessions, p)[j].0], sessions[Positions(sessions, p)[j].1])
  {
    PartitionIsUnique(Position(sessions, start), Position(sessions, end), k, Positions(sessions, p));
  }

  /** The chunks of a chunking ascend: each chunk ends before any later chunk starts. */
  lemma ChunksAscend(sessions: seq<Date>, start: Date, end: Date, k: Pos, p: seq<(Date, Date)>)
    requires IsCalendar(sessions)
    requires IsChunking(sessions, start, end, k, p)
    ensures forall j :: 0 <= j < |p| ==> p[j].0 <= p[j].1
    ensures forall i, j :: 0 <= i < j < |p| ==> p[i].1 < p[j].0
  {
    var c := Positions(sessions, p);
    PartitionBlocks(Position(sessions, start), Position(sessions, end), k, c);
    forall j | 0 <= j < |p|
      ensures p[j].0 <= p[j].1
    {
      PositionOrder(sessions, p[j].0, p[j].1);
    }
    forall i, j | 0 <= i < j < |p|
      ensures p[i].1 < p[j].0
    {
      PositionOrder(sessions, p[i].1, p[j].0);
    }
  }

  /** The chunks of a chunking start at `start` and end at `end`. */
  lemma ChunksSpanRange(sessions: seq<Date>, start: Date, end: Date, k: Pos, p: seq<(Date, Date)>)
    requires IsCalendar(sessions)
    requires IsChunking(sessions, start, end, k, p)
    ensures |p| > 0 && p[0].0 == start && p[|p| - 1].1 == end
  {
    var c := Positions(sessions, p);
    PartitionBlocks(Position(sessions, start), Position(sessions, end), k, c);
    PositionOrder(sessions, p[0].0, start);
    PositionOrder(sessions, p[|p| - 1].1, end);
  }

  /** In a chunking, each next chunk starts at the session right after the previous chunk's end. */
  lemma ChunksAreContiguous(sessions: seq<Date>, start: Date, end: Date, k: Pos, p: seq<(Date, Date)>, j: nat)
    requires IsCalendar(sessions)
    requires IsChunking(sessions, start, end, k, p)
    requires j + 1 < |p|
    ensures Position(sessions, p[j].1) + 1 < |sessions|
    ensures p[j + 1].0 == sessions[Position(sessions, p[j].1) + 1]
  {
    var c := Positions(sessions, p);
    PartitionIsContiguous(Position(sessions, start), Position(sessions, end), k, c, j);
    assert c[j + 1].0 == Position(sessions, p[j].1) + 1;
  }

  /** A chunk size at least as long as the range gives the single chunk that no chunk size gives. */
  lemma LargeChunkSizeGivesOneChunk(sessions: seq<Date>, start: Date, end: Date, k: Pos)
    requires IsCalendar(sessions)
    requires start in sessions && end in sessions
    requires Position(sessions, end) - Position(sessions, start) < k
    ensures ComputeDateRangeChunks(sessions, start, end, Some(k))
         == ComputeDateRangeChunks(sessions, start, end, None)
  {
    var r := ComputeDateRangeChunks(sessions, start, end, Some(k));
    PositionOrder(sessions, start, end);
    if r.Ok? {
      ChunkingIsDetermined(sessions, start, end, k, r.value);
      var lo, hi := Position(sessions, start), Position(sessions, end);
      assert ChunkBounds(lo, hi, k) == [(lo, hi)];
      assert Positions(sessions, r.value)[0] == (lo, hi);
      assert r.value == [(start, end)];
    }
  }
}
