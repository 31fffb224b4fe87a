/** Specification of the playback cursor: where each decoded chunk starts and how the cursor moves. */
module Scheduling {
  import opened SessionTypes

  /** `Math.max(cursor, now)`: the start of the next chunk, never before the cursor or the clock. */
  function StartTime(cursor: real, now: real): (start: real)
    ensures cursor <= start && now <= start
    ensures start == cursor || start == now
  {
    if cursor < now then now else cursor
  }

  /** One inbound audio chunk: the output clock when it is handled and, when decoding succeeded, the
      decoded duration. */
  datatype Arrival = Arrival(now: Seconds, decoded: Option<Seconds>)

  /** What happened to a chunk: dropped after a failed decode, or played from `start`. */
  datatype Slot = Dropped | Played(start: real, duration: Seconds)

  /** The cursor after handling `a`: raised to the start time before decoding, then advanced by the
      duration if decoding succeeded. */
  function CursorAfter(cursor: real, a: Arrival): real {
    var start := StartTime(cursor, a.now);
    match a.decoded
    case None => start
    case Some(d) => start + d
  }

  function SlotOf(cursor: real, a: Arrival): Slot {
    match a.decoded
    case None => Dropped
    case Some(d) => Played(StartTime(cursor, a.now), d)
  }

  /** The slots of a run of chunks handled with no interruption between them. */
  function Schedule(cursor: real, arrivals: seq<Arrival>): (slots: seq<Slot>)
    ensures |slots| == |arrivals|
    decreases |arrivals|
  {
    if arrivals == [] then []
    else [SlotOf(cursor, arrivals[0])] + Schedule(CursorAfter(cursor, arrivals[0]), arrivals[1..])
  }

  function FinalCursor(cursor: real, arrivals: seq<Arrival>): real
    decreases |arrivals|
  {
    if arrivals == [] then cursor
    else FinalCursor(CursorAfter(cursor, arrivals[0]), arrivals[1..])
  }

  /** The total duration of the chunks that decoded. */
  function PlayedDuration(arrivals: seq<Arrival>): real
  {
    if arrivals == [] then 0.0
    else
      (match arrivals[0].decoded case None => 0.0 case Some(d) => d) + PlayedDuration(arrivals[1..])
  }

  /** Every played chunk starts at or after the initial cursor and its own arrival time, and ends at
      or before the final cursor. */
  lemma {:induction false} SlotsWithinCursor(cursor: real, arrivals: seq<Arrival>)
    ensures forall i :: 0 <= i < |arrivals| && Schedule(cursor, arrivals)[i].Played? ==>
              cursor <= Schedule(cursor, arrivals)[i].start &&
              arrivals[i].now <= Schedule(cursor, arrivals)[i].start &&
              Schedule(cursor, arrivals)[i].start + Schedule(cursor, arrivals)[i].duration
                <= FinalCursor(cursor, arrivals)
    decreases |arrivals|
  {
    if arrivals != [] {
      var next := CursorAfter(cursor, arrivals[0]);
      SlotsWithinCursor(next, arrivals[1..]);
      FinalCursorGrows(next, arrivals[1..]);
    }
  }

  /** The cursor never decreases and advances by at least the total played duration. */
  lemma {:induction false} FinalCursorGrows(cursor: real, arrivals: seq<Arrival>)
    ensures cursor + PlayedDuration(arrivals) <= FinalCursor(cursor, arrivals)
    ensures cursor <= FinalCursor(cursor, arrivals)
    decreases |arrivals|
  {
    if arrivals != [] {
      FinalCursorGrows(CursorAfter(cursor, arrivals[0]), arrivals[1..]);
    }
  }

  /** No two played chunks of a run overlap: a later chunk starts at or after an earlier one ends. */
  lemma {:induction false} NoOverlap(cursor: real, arrivals: seq<Arrival>)
    ensures forall i, j ::
              (0 <= i < j < |arrivals| &&
               Schedule(cursor, arrivals)[i].Played? && Schedule(cursor, arrivals)[j].Played?) ==>
              Schedule(cursor, arrivals)[i].start + Schedule(cursor, arrivals)[i].duration
                <= Schedule(cursor, arrivals)[j].start
    decreases |arrivals|
  {
    if arrivals != [] {
      var next := CursorAfter(cursor, arrivals[0]);
      var rest := Schedule(next, arrivals[1..]);
      NoOverlap(next, arrivals[1..]);
      SlotsWithinCursor(next, arrivals[1..]);
      forall i, j | 0 <= i < j < |arrivals| &&
                    Schedule(cursor, arrivals)[i].Played? && Schedule(cursor, arrivals)[j].Played?
        ensures Schedule(cursor, arrivals)[i].start + Schedule(cursor, arrivals)[i].duration
                  <= Schedule(cursor, arrivals)[j].start
      {
        assert Schedule(cursor, arrivals)[j] == rest[j - 1];
        if i > 0 {
          assert Schedule(cursor, arrivals)[i] == rest[i - 1];
        }
      }
    }
  }

  /** Two consecutive played chunks: the second starts at the first's end, or at its own arrival if
      that is later, so chunks that arrive early queue back to back with no gap. */
  lemma {:induction false} ConsecutiveStarts(cursor: real, arrivals: seq<Arrival>, i: nat)
    requires i + 1 < |arrivals|
    requires Schedule(cursor, arrivals)[i].Played? && Schedule(cursor, arrivals)[i + 1].Played?
    ensures Schedule(cursor, arrivals)[i + 1].start ==
              StartTime(Schedule(cursor, arrivals)[i].start + Schedule(cursor, arrivals)[i].duration,
                        arrivals[i + 1].now)
    decreases |arrivals|
  {
    if i > 0 {
      ConsecutiveStarts(CursorAfter(cursor, arrivals[0]), arrivals[1..], i - 1);
    }
  }

  /** Handling chunks one at a time extends the run: the slot of a new chunk is computed from the
      cursor the run so far left behind. */
  lemma {:induction false} ScheduleSnoc(cursor: real, arrivals: seq<Arrival>, a: Arrival)
    ensures Schedule(cursor, arrivals + [a]) == Schedule(cursor, arrivals) + [SlotOf(FinalCursor(cursor, arrivals), a)]
    ensures FinalCursor(cursor, arrivals + [a]) == CursorAfter(FinalCursor(cursor, arrivals), a)
    decreases |arrivals|
  {
    if arrivals != [] {
      assert (arrivals + [a])[1..] == arrivals[1..] + [a];
      ScheduleSnoc(CursorAfter(cursor, arrivals[0]), arrivals[1..], a);
    }
  }

  /** After the cursor is reset to zero the next chunk starts exactly at the clock time. */
  lemma ResetStartsNow(now: Seconds)
    ensures StartTime(0.0, now) == now
  {
  }
}
