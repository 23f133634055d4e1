/**
  The clock by which the server knows how long the browser still plays
  (BrowserAudioOutput in voice/transport/websocket.py). Times are in seconds.
 */
module Playback {
  const SAMPLE_RATE := 44100
  const BYTES_PER_SAMPLE := 4
  const POLL: real := 0.05

  /** A chunk of audio, enqueued at a time. */
  datatype Chunk = Chunk(at: real, bytes: nat)

  function Latest(a: real, b: real): (r: real) {
    if a < b then b else a
  }

  function Duration(bytes: nat): (r: real) {
    bytes as real / BYTES_PER_SAMPLE as real / SAMPLE_RATE as real
  }

  /** 44100 samples of four bytes last one second. */
  lemma DurationMeans(bytes: nat)
    ensures Duration(bytes) * 176400.0 == bytes as real
  {
  }

  /** The end of playback after the chunks are enqueued, starting from `until`. */
  function Until(until: real, chunks: seq<Chunk>): real
    decreases |chunks|
  {
    if chunks == [] then until
    else
      var n := |chunks| - 1;
      var before := Until(until, chunks[..n]);
      if chunks[n].bytes == 0 then before
      else Latest(chunks[n].at, before) + Duration(chunks[n].bytes)
  }

  /** The playing time of the chunks. */
  function Length(chunks: seq<Chunk>): real
    decreases |chunks|
  {
    if chunks == [] then 0.0
    else Length(chunks[..|chunks| - 1]) + Duration(chunks[|chunks| - 1].bytes)
  }

  /** The moment at which the chunks from number `k` on would end, if chunk `k` started when it came. */
  function EndFrom(chunks: seq<Chunk>, k: nat): real
    requires k < |chunks|
  {
    chunks[k].at + Length(chunks[k..])
  }

  function Bytes(chunks: seq<Chunk>): nat {
    if chunks == [] then 0 else Bytes(chunks[..|chunks| - 1]) + chunks[|chunks| - 1].bytes
  }

  /** However the audio is cut into chunks, it plays as long as all its bytes. */
  lemma {:induction false} LengthIsBytes(chunks: seq<Chunk>)
    ensures Length(chunks) * 176400.0 == Bytes(chunks) as real
    decreases |chunks|
  {
    if chunks != [] {
      LengthIsBytes(chunks[..|chunks| - 1]);
      DurationMeans(chunks[|chunks| - 1].bytes);
    }
  }

  lemma LengthSnoc(chunks: seq<Chunk>, k: nat)
    requires k < |chunks|
    ensures var n := |chunks| - 1;
      Length(chunks[k..]) == Length(chunks[..n][k..]) + Duration(chunks[n].bytes)
  {
    var n := |chunks| - 1;
    assert chunks[k..][..|chunks[k..]| - 1] == chunks[..n][k..];
  }

  /** Playback ends no earlier than any tail of the chunks allows. */
  lemma {:induction false} UntilAtLeast(until: real, chunks: seq<Chunk>)
    ensures Until(until, chunks) >= until + Length(chunks)
    ensures forall k :: 0 <= k < |chunks| && chunks[k].bytes > 0 ==> Until(until, chunks) >= EndFrom(chunks, k)
    decreases |chunks|
  {
    if chunks != [] {
      var n := |chunks| - 1;
      UntilAtLeast(until, chunks[..n]);
      forall k | 0 <= k < |chunks| && chunks[k].bytes > 0
        ensures Until(until, chunks) >= EndFrom(chunks, k)
      {
        LengthSnoc(chunks, k);
        if k < n {
          assert chunks[..n][k] == chunks[k];
          assert Until(until, chunks[..n]) >= EndFrom(chunks[..n], k);
        } else {
          assert chunks[..n][k..] == [];
        }
      }
    }
  }

  /**
    Playback ends exactly when the busiest tail of the chunks does: after `until`
    with every chunk, or after the arrival of some chunk with that chunk and all
    later ones.
   */
  lemma {:induction false} UntilIsBusiestTail(until: real, chunks: seq<Chunk>)
    ensures Until(until, chunks) == until + Length(chunks)
         || exists k :: 0 <= k < |chunks| && chunks[k].bytes > 0 && Until(until, chunks) == EndFrom(chunks, k)
    ensures Until(until, chunks) >= until + Length(chunks)
    ensures forall k :: 0 <= k < |chunks| && chunks[k].bytes > 0 ==> Until(until, chunks) >= EndFrom(chunks, k)
    decreases |chunks|
  {
    UntilAtLeast(until, chunks);
    if chunks != [] {
      var n := |chunks| - 1;
      var before := Until(until, chunks[..n]);
      UntilIsBusiestTail(until, chunks[..n]);
      if chunks[n].bytes > 0 && before < chunks[n].at {
        LengthSnoc(chunks, n);
        assert chunks[..n][n..] == [];
        assert Until(until, chunks) == EndFrom(chunks, n);
      } else if before != until + Length(chunks[..n]) {
        var k :| 0 <= k < n && chunks[..n][k].bytes > 0 && before == EndFrom(chunks[..n], k);
        LengthSnoc(chunks, k);
        assert Until(until, chunks) == EndFrom(chunks, k);
      }
    }
  }

  /** Chunks enqueued one by one give the clock of the whole sequence. */
  lemma UntilOneByOne(until: real, chunks: seq<Chunk>, chunk: Chunk)
    ensures Until(until, chunks + [chunk]) == Until(Until(until, chunks), [chunk])
  {
    assert (chunks + [chunk])[..|chunks|] == chunks;
    assert [chunk][..0] == [];
  }

  class BrowserAudioOutput {
    var playbackUntil: real

    constructor ()
      ensures playbackUntil == 0.0
    {
      playbackUntil := 0.0;
    }

    predicate IsPlaying(now: real)
      reads this
    {
      now < playbackUntil
    }

    method Enqueue(now: real, bytes: nat)
      modifies this
      ensures playbackUntil == Until(old(playbackUntil), [Chunk(now, bytes)])
      ensures bytes == 0 ==> playbackUntil == old(playbackUntil)
      ensures bytes > 0 ==>
        playbackUntil == (if old(playbackUntil) < now then now else old(playbackUntil)) + bytes as real / 176400.0
    {
      if bytes != 0 {
        var duration := Duration(bytes);
        playbackUntil := Latest(now, playbackUntil) + duration;
      }
      assert [Chunk(now, bytes)][..0] == [];
    }

    method Clear(now: real)
      modifies this
      ensures playbackUntil == now
      ensures forall later :: later >= now ==> !IsPlaying(later)
    {
      playbackUntil := now;
    }

    /**
      Polls until playback is over. Sleep number `i` wakes late by `late(i)`, and
      leaves the clock at `during[i]`, because other tasks enqueue and clear
      while this one sleeps. It never returns while audio plays; it returns at
      once if nothing plays; and if nobody moves the clock and no sleep is late,
      it returns at the very end of playback.
     */
    method WaitUntilDone(now: real, late: nat -> real, during: seq<real>) returns (done: real)
      requires forall i :: late(i) >= 0.0
      modifies this
      ensures !IsPlaying(done) && done >= now
      ensures !old(IsPlaying(now)) ==> done == now && playbackUntil == old(playbackUntil)
      ensures playbackUntil == old(playbackUntil) || playbackUntil in during
      ensures during == [] && (forall i :: late(i) == 0.0) ==> done == Latest(now, playbackUntil)
    {
      done := now;
      var i := 0;
      while playbackUntil - done > 0.0
        invariant done >= now && (!old(IsPlaying(now)) ==> done == now && playbackUntil == old(playbackUntil))
        invariant playbackUntil == old(playbackUntil) || playbackUntil in during
        invariant during == [] && (forall i :: late(i) == 0.0) ==> done <= Latest(now, playbackUntil)
        decreases if i < |during| then |during| - i else 0, Polls(playbackUntil - done)
      {
        var remaining := playbackUntil - done;
        var sleep := if remaining < POLL then remaining else POLL;
        done := done + sleep + late(i);
        if i < |during| {
          playbackUntil := during[i];
        } else {
          FewerPolls(remaining, playbackUntil - done);
        }
        i := i + 1;
      }
    }
  }

  /** How many more times the clock is polled, at most. */
  function Polls(remaining: real): nat {
    if remaining > 0.0 then (remaining / POLL).Floor + 1 else 0
  }

  lemma FewerPolls(before: real, after: real)
    requires before > 0.0 && (after <= 0.0 || before - POLL >= after)
    ensures Polls(after) < Polls(before)
  {
    assert after > 0.0 ==> before / POLL >= after / POLL + 1.0;
  }
}
