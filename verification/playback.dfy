/**
 * The playback scheduler's timing rule (App.tsx:147-154): every decoded chunk
 * starts at the later of the schedule cursor and the output clock, and the
 * cursor then moves to the end of that chunk. Times are output-clock seconds.
 */
module Playback {

  /** A point on the output clock, or a duration; AudioContext times and AudioBuffer durations are never negative. */
  type Seconds = r: real | 0.0 <= r

  /** `Math.max(nextStartTime, ctx.currentTime)`: never before the clock, never before the cursor. */
  function StartAt(cursor: Seconds, now: Seconds): (t: Seconds)
    ensures cursor <= t && now <= t
    ensures t == cursor || t == now
  {
    if cursor < now then now else cursor
  }

  /** One decoded chunk as the scheduler sees it: the clock when it is scheduled, and its length. */
  datatype Chunk = Chunk(clock: Seconds, duration: Seconds)

  /** The start times a run of chunks receives, from cursor `cursor`, with no interruption in between. */
  function Starts(cursor: Seconds, chunks: seq<Chunk>): (starts: seq<Seconds>)
    ensures |starts| == |chunks|
    decreases |chunks|
  {
    if chunks == [] then []
    else
      var t := StartAt(cursor, chunks[0].clock);
      [t] + Starts(t + chunks[0].duration, chunks[1..])
  }

  /** The cursor after the same run. */
  function CursorAfter(cursor: Seconds, chunks: seq<Chunk>): Seconds
    decreases |chunks|
  {
    if chunks == [] then cursor
    else CursorAfter(StartAt(cursor, chunks[0].clock) + chunks[0].duration, chunks[1..])
  }

  /** No chunk of a run starts before its clock or the initial cursor, and the cursor ends after every chunk. */
  lemma {:induction false} RunBounds(cursor: Seconds, chunks: seq<Chunk>)
    ensures var starts := Starts(cursor, chunks);
      && (forall i :: 0 <= i < |chunks| ==> chunks[i].clock <= starts[i] && cursor <= starts[i])
      && (forall i :: 0 <= i < |chunks| ==> starts[i] + chunks[i].duration <= CursorAfter(cursor, chunks))
      && cursor <= CursorAfter(cursor, chunks)
    decreases |chunks|
  {
    if chunks != [] {
      var next := StartAt(cursor, chunks[0].clock) + chunks[0].duration;
      var rest := chunks[1..];
      RunBounds(next, rest);
      var starts, tail := Starts(cursor, chunks), Starts(next, rest);
      assert starts == [starts[0]] + tail;
      forall i | 0 < i < |chunks| ensures starts[i] == tail[i - 1] && chunks[i] == rest[i - 1] {
      }
    }
  }

  /** No chunk of a run starts before an earlier one has ended. */
  lemma {:induction false} RunDoesNotOverlap(cursor: Seconds, chunks: seq<Chunk>)
    ensures var starts := Starts(cursor, chunks);
      forall i, j :: 0 <= i < j < |chunks| ==> starts[i] + chunks[i].duration <= starts[j]
    decreases |chunks|
  {
    if chunks != [] {
      var next := StartAt(cursor, chunks[0].clock) + chunks[0].duration;
      var rest := chunks[1..];
      RunDoesNotOverlap(next, rest);
      RunBounds(next, rest);
      var starts, tail := Starts(cursor, chunks), Starts(next, rest);
      assert starts == [starts[0]] + tail;
      forall i, j | 0 <= i < j < |chunks| ensures starts[i] + chunks[i].duration <= starts[j] {
        assert starts[j] == tail[j - 1];
        if i > 0 {
          assert starts[i] == tail[i - 1] && chunks[i] == rest[i - 1];
        }
      }
    }
  }

  /** A chunk that arrives while the previous one is still due starts exactly when that one ends. */
  lemma {:induction false} RunIsGapless(cursor: Seconds, chunks: seq<Chunk>)
    ensures var starts := Starts(cursor, chunks);
      forall i :: 0 < i < |chunks| && chunks[i].clock <= starts[i - 1] + chunks[i - 1].duration ==>
        starts[i] == starts[i - 1] + chunks[i - 1].duration
    decreases |chunks|
  {
    if chunks != [] {
      var next := StartAt(cursor, chunks[0].clock) + chunks[0].duration;
      var rest := chunks[1..];
      RunIsGapless(next, rest);
      var starts, tail := Starts(cursor, chunks), Starts(next, rest);
      assert starts == [starts[0]] + tail;
      if |chunks| > 1 {
        assert tail[0] == StartAt(next, rest[0].clock);
      }
      forall i | 0 < i < |chunks| ensures starts[i] == tail[i - 1] && chunks[i] == rest[i - 1] {
      }
    }
  }

  /**
   * Serial, gapless playback: no chunk starts before the clock reading it was
   * scheduled at or before the initial cursor; a chunk never starts before any
   * earlier chunk has ended; a chunk that arrives while the previous one is
   * still due starts exactly when it ends; and the cursor never moves back,
   * ending at or after the end of every chunk.
   */
  lemma SerialPlayback(cursor: Seconds, chunks: seq<Chunk>)
    ensures var starts := Starts(cursor, chunks);
      && (forall i :: 0 <= i < |chunks| ==> chunks[i].clock <= starts[i] && cursor <= starts[i])
      && (forall i, j :: 0 <= i < j < |chunks| ==> starts[i] + chunks[i].duration <= starts[j])
      && (forall i :: 0 < i < |chunks| && chunks[i].clock <= starts[i - 1] + chunks[i - 1].duration ==>
            starts[i] == starts[i - 1] + chunks[i - 1].duration)
      && (forall i :: 0 <= i < |chunks| ==> starts[i] + chunks[i].duration <= CursorAfter(cursor, chunks))
      && cursor <= CursorAfter(cursor, chunks)
  {
    RunBounds(cursor, chunks);
    RunDoesNotOverlap(cursor, chunks);
    RunIsGapless(cursor, chunks);
  }

  /**
   * One more enqueue extends a run by exactly the scheduler's step: the new
   * chunk starts at `StartAt` of the cursor the run left and the clock, and the
   * cursor moves to its end. So repeating that step, as successive chunks do
   * between interruptions, yields `Starts` and `CursorAfter`.
   */
  lemma {:induction false} EnqueueExtendsRun(cursor: Seconds, chunks: seq<Chunk>, next: Chunk)
    ensures var t := StartAt(CursorAfter(cursor, chunks), next.clock);
      && Starts(cursor, chunks + [next]) == Starts(cursor, chunks) + [t]
      && CursorAfter(cursor, chunks + [next]) == t + next.duration
    decreases |chunks|
  {
    if chunks == [] {
      assert chunks + [next] == [next];
    } else {
      var c := StartAt(cursor, chunks[0].clock) + chunks[0].duration;
      assert (chunks + [next])[1..] == chunks[1..] + [next];
      EnqueueExtendsRun(c, chunks[1..], next);
    }
  }
}
