/**
 * Screen buffers (nes/src/frame_buffer.rs): a Frame is 256 x 240 RGB
 * pixels, three bytes each; the FrameBuffer is a pool of frames used as a
 * stack.
 */
module FrameBuffer {
  import opened Types

  /** SCREEN_BYTES_RGB: 256 * 240 * 3. */
  const SCREEN_BYTES_RGB: nat := 256 * 240 * 3

  /** One screen of RGB bytes, written in place by the PPU. */
  class Frame {
    const bytes: array<u8>

    ghost predicate Valid()
      reads this
    {
      bytes.Length == SCREEN_BYTES_RGB
    }

    /** new: SCREEN_BYTES_RGB zero bytes. */
    constructor ()
      ensures Valid() && fresh(bytes)
      ensures forall i :: 0 <= i < SCREEN_BYTES_RGB ==> bytes[i] == 0
    {
      bytes := new u8[SCREEN_BYTES_RGB](_ => 0);
    }

    /** Index: the byte at `index`; indexing past the frame panics in the source. */
    function At(index: nat): u8
      reads this, bytes
      requires Valid() && index < SCREEN_BYTES_RGB
    {
      bytes[index]
    }

    /** IndexMut: the byte at `index` becomes `val`, and no other byte changes. */
    method Set(index: nat, val: u8)
      requires Valid() && index < SCREEN_BYTES_RGB
      modifies bytes
      ensures Valid() && At(index) == val
      ensures forall i :: 0 <= i < SCREEN_BYTES_RGB && i != index ==> bytes[i] == old(bytes[i])
    {
      bytes[index] := val;
    }
  }

  /** put: push on top of the pool. */
  function PoolPut(frames: seq<Frame>, f: Frame): seq<Frame> {
    frames + [f]
  }

  /** get: pop the most recently put frame, or None when the pool is empty. */
  function PoolGet(frames: seq<Frame>): (r: (Option<Frame>, seq<Frame>))
    ensures r.0.None? <==> |frames| == 0
    ensures r.0.Some? ==> |r.1| == |frames| - 1
  {
    if |frames| == 0 then (None, frames) else (Some(frames[|frames| - 1]), frames[..|frames| - 1])
  }

  /** A get right after put(f) returns f and leaves the pool as it was before the put (last in, first out). */
  lemma PutThenGet(frames: seq<Frame>, f: Frame)
    ensures PoolGet(PoolPut(frames, f)) == (Some(f), frames)
  {
    assert (frames + [f])[..|frames|] == frames;
  }

  /** Frames come back in the reverse of the order they were put. */
  lemma PutPutGetGet(frames: seq<Frame>, f: Frame, g: Frame)
    ensures PoolGet(PoolPut(PoolPut(frames, f), g)).0 == Some(g)
    ensures PoolGet(PoolGet(PoolPut(PoolPut(frames, f), g)).1) == (Some(f), frames)
  {
    PutThenGet(PoolPut(frames, f), g);
    PutThenGet(frames, f);
  }

  /** The pool, a stack of frames. */
  class FrameBuffer {
    var frames: seq<Frame>

    /** new: three fresh zeroed frames. */
    constructor ()
      ensures |frames| == 3
      ensures forall i :: 0 <= i < 3 ==> fresh(frames[i]) && frames[i].Valid() && fresh(frames[i].bytes)
      ensures frames[0] != frames[1] && frames[1] != frames[2] && frames[0] != frames[2]
    {
      var a := new Frame();
      var b := new Frame();
      var c := new Frame();
      frames := [a, b, c];
    }

    /** put: `frame` is on top; the count grows by one. */
    method Put(frame: Frame)
      modifies this
      ensures frames == PoolPut(old(frames), frame)
      ensures |frames| == |old(frames)| + 1
    {
      frames := frames + [frame];
    }

    /** get: the top frame, removed; None on an empty pool. */
    method Get() returns (r: Option<Frame>)
      modifies this
      ensures (r, frames) == PoolGet(old(frames))
    {
      if |frames| == 0 {
        r := None;
      } else {
        r := Some(frames[|frames| - 1]);
        frames := frames[..|frames| - 1];
      }
    }
  }
}
