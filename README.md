# Date utilities of the zipline backtester, modelled in Dafny

zipline runs pipelines over ranges of trading sessions. Two small utilities
serve it:

- `roll_dates_to_previous_session(sessions, date)` rolls a date back to a
  trading session. A session rolls to itself. Any other date rolls to the
  latest session before it.
- `compute_date_range_chunks(sessions, start, end, chunksize)` cuts the
  sessions from `start` to `end` into consecutive chunks of `chunksize`
  sessions and returns each chunk's `(first, last)` session pair. The last
  chunk may be shorter. Without a chunk size it returns the single pair
  `(start, end)`. It refuses a `start` or `end` that is not a session, and an
  `end` before `start`.

The implementation module `zipline/utils/date_utils.py` is not part of this
model. Its behaviour is taken from the test suite that pins it down,
`tests/utils/test_date_utils.py`.

The model has two parts:

- `date_utils.dfy` (module `DateUtils`) holds the model itself.
  - A date is an `int` and only its order matters.
  - A calendar is a strictly increasing `seq<int>` (`IsCalendar`).
  - A session is located by binary search (`FloorSearch`, `IndexOf`).
  - Rolling returns the session with its position.
  - Chunking first validates the dates: the start must be a session, then
    the end, then the end must not precede the start. It then cuts
    the positions `i0..i1` of `start..end` into blocks (`ChunkBounds`) and
    reads the blocks back as session pairs.
  - The errors are the variants `NotFoundStart(start)`, `NotFoundEnd(end)`
    and `EndBeforeStart(end, start)` of a `Result`.
- `test_date_utils.dfy` (module `TestDateUtils`) replays every literal case of
  the test suite as a lemma.
  - The calendar is a fragment of the NYSE calendar: early July 2015, all of
    January 2017, and May to early June 2017.
  - Its dates are written as `YYYYMMDD` integers, which order exactly as the
    dates do.

The end-before-start check compares the two dates, as the error message
"End date … cannot precede start date …" describes. An index comparison gives the same answer on a calendar
(`PositionOrder`).

## Model

| member | source | states |
|---|---|---|
| `DateUtils.FloorSearch` | tests/utils/test_date_utils.py:19-40 | The binary search behind `IndexOf` and `RollDatesToPreviousSession`. Inside its window, it finds the position of the latest session at or before `d`: that session is at or before `d`, and the next one, if any, is after `d`. |
| `DateUtils.IndexOf` | tests/utils/test_date_utils.py:95-119 | The lookup succeeds exactly when the date is a session, and then gives the position holding that date. |
| `DateUtils.PositionOfSession` | tests/utils/test_date_utils.py:79-91 | The session at position `i` has position `i`: positions and sessions correspond one to one. |
| `DateUtils.RollDatesToPreviousSession` | tests/utils/test_date_utils.py:19-40 | The result is a session at or before the date, together with its position. It is the date itself when the date is a session, and strictly earlier otherwise. A session lies at or before the date exactly when its position is at or before the result's position, so the result is the greatest such session. |
| `DateUtils.RollLeavesNoSessionBetween` | tests/utils/test_date_utils.py:24-31 | No session lies strictly after the rolled date and at or before the input date. |
| `DateUtils.RollIsIdempotent` | tests/utils/test_date_utils.py:19-23 | Rolling a rolled date gives back the same session and position. |
| `DateUtils.PositionOrder` | tests/utils/test_date_utils.py:121-132 | For two sessions, one precedes the other exactly when its position is smaller, and they are equal exactly when their positions are. Comparing dates is therefore the same as comparing calendar positions. |
| `DateUtils.ChunkBounds` | tests/utils/test_date_utils.py:52-76 | Cuts the position range `lo..hi` into a partition (`IsPartition`) ending at `hi`. The first block starts at `lo` and holds at most `k` positions. It is the only block and ends at `hi`, or it holds exactly `k` positions and the remaining blocks partition the positions after it. |
| `DateUtils.PartitionIsUnique` | tests/utils/test_date_utils.py:52-76 | Any partition of `lo..hi` into blocks of `k` is exactly the one `ChunkBounds` computes, and its range is not empty. |
| `DateUtils.PartitionBlocks` | tests/utils/test_date_utils.py:52-76 | In a partition, every block lies inside `lo..hi` and holds at most `k` positions. Every block but the last holds exactly `k`. The last block ends at `hi`. Each block ends before any later block starts. |
| `DateUtils.PartitionIsContiguous` | tests/utils/test_date_utils.py:55-75 | In a partition, each block starts at the position right after the end of the previous block. |
| `DateUtils.ChunkCount` | tests/utils/test_date_utils.py:79-91 | The number of blocks `n` is the ceiling of the range length over `k`, that is `(n-1)*k <= hi-lo < n*k`. The last block starts after the `n-1` full blocks, at `lo + (n-1)*k`, and ends at `hi`. |
| `DateUtils.ChunksCoverRange` | tests/utils/test_date_utils.py:79-91 | Listing the positions of each block, block after block, gives exactly the positions from `lo` to `hi` in order, with no gap and no overlap. |
| `DateUtils.ComputeDateRangeChunks` | tests/utils/test_date_utils.py:79-132 | A start that is not a session gives `NotFoundStart(start)`. Otherwise, an end that is not a session gives `NotFoundEnd(end)`. Otherwise, an end before the start gives `EndBeforeStart(end, start)`. The call succeeds exactly when both dates are sessions and start <= end. Without a chunk size it gives `[(start, end)]`. With a chunk size `k`, every returned date is a session, and the pairs read as positions partition `start..end` into blocks of `k` (`IsChunking`). |
| `DateUtils.BetweenSessionsIsNoSession` | tests/utils/test_date_utils.py:99-113 | A date strictly between two neighbouring sessions, such as a weekend day, is not a session. |
| `DateUtils.ChunkingIsDetermined` | tests/utils/test_date_utils.py:79-91 | A chunking of `start..end` into chunks of `k` is unique. Read as positions, its pairs are the blocks of `ChunkBounds` from the position of `start` to that of `end`. Each date of a pair is the session at its position. |
| `DateUtils.ChunksAscend` | tests/utils/test_date_utils.py:55-75 | In a chunking, each chunk has first <= last, and each chunk ends strictly before any later chunk starts. |
| `DateUtils.ChunksSpanRange` | tests/utils/test_date_utils.py:52-76 | A chunking has at least one chunk. The first chunk starts at `start` and the last chunk ends at `end`. |
| `DateUtils.ChunksAreContiguous` | tests/utils/test_date_utils.py:55-75 | In a chunking, each next chunk starts at the session right after the previous chunk's last session. |
| `DateUtils.LargeChunkSizeGivesOneChunk` | tests/utils/test_date_utils.py:42-50 | A chunk size at least as long as the range gives the same result as no chunk size, the single pair `(start, end)`. |
| `TestDateUtils.NyseIsCalendar` | tests/utils/test_date_utils.py:14-17 | The NYSE fragment used by the test cases is strictly increasing. |
| `TestDateUtils.RollTradingDay` | tests/utils/test_date_utils.py:20-23 | 2017-05-19, a trading day, rolls to 2017-05-19. |
| `TestDateUtils.RollWeekendHoliday` | tests/utils/test_date_utils.py:24-27 | 2015-07-04 rolls to 2015-07-02. |
| `TestDateUtils.RollWeekdayHoliday` | tests/utils/test_date_utils.py:28-31 | 2017-01-16 rolls to 2017-01-13. |
| `TestDateUtils.JanuaryRangeHasTwentySessions` | tests/utils/test_date_utils.py:80-82 | 2017-01-03 and 2017-01-31 are sessions 20 positions apart, inclusive. |
| `TestDateUtils.ChunksWithoutSize` | tests/utils/test_date_utils.py:42-51 | Without a chunk size, the range gives `[(2017-01-03, 2017-01-31)]`. |
| `TestDateUtils.ChunksOfTenPositions` | tests/utils/test_date_utils.py:52-64 | With size 10, the chunks of 2017-01-03..2017-01-31 sit at positions 7..16 and 17..26 of the fixture. |
| `TestDateUtils.ChunksOfTen` | tests/utils/test_date_utils.py:52-64 | With size 10, the range gives `[(2017-01-03, 2017-01-17), (2017-01-18, 2017-01-31)]`. |
| `TestDateUtils.ChunksOfFifteenPositions` | tests/utils/test_date_utils.py:65-77 | With size 15, the chunks of 2017-01-03..2017-01-31 sit at positions 7..21 and 22..26 of the fixture. |
| `TestDateUtils.ChunksOfFifteen` | tests/utils/test_date_utils.py:65-77 | With size 15, the range gives `[(2017-01-03, 2017-01-24), (2017-01-25, 2017-01-31)]`. |
| `TestDateUtils.StartNotFound` | tests/utils/test_date_utils.py:95-106 | Start Sunday 2017-05-07 gives `NotFoundStart(2017-05-07)`. |
| `TestDateUtils.EndNotFound` | tests/utils/test_date_utils.py:108-119 | Start 2017-05-01 with end Saturday 2017-05-27 gives `NotFoundEnd(2017-05-27)`. |
| `TestDateUtils.EndBeforeStartRefused` | tests/utils/test_date_utils.py:121-132 | Start 2017-06-01 with end 2017-05-01 gives `EndBeforeStart(2017-05-01, 2017-06-01)`. |

## Left out

- The calendar provider (`get_calendar('NYSE')`) and its holiday rules are foreign code. The calendar is an input, required to be strictly increasing. The test fixture is a hand-written fragment of it.
- pandas `Timestamp`, its parsing and time zones are left out. Dates are integers compared by order.
- The text of the error messages is left out. It needs ISO `YYYY-MM-DD` rendering of dates. The model keeps the error kind and the offending dates.
- The Python exception classes (`KeyError` for a date that is not found, `ValueError` for an end before the start) become the error variants.
- The chunks are produced lazily in the source. The model returns them as a finite sequence. Validation is eager in both, since the error is decided before any chunk exists.
- RollDatesToPreviousSession: a date before the first session is excluded by a precondition. The tests never exercise that case.
- RollDatesToPreviousSession: the tests read only the first element of the result. The second element is modelled as the session's position.
- ComputeDateRangeChunks: a chunk size must be a positive integer. Zero and negative chunk sizes are not modelled.
- ComputeDateRangeChunks: the tests show each error only on inputs that fail that one check. On inputs that fail several checks (both dates missing, say), the order start, then end, then range is the model's choice; the tests do not pin it down.
