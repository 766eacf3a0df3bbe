/** The tensor service: it answers every event with a canned reply, and keeps
    one shared camera frame in 101, downsampled by two in each direction into
    a byte buffer for face detection. The detector itself is not modelled. */
module Tensor {
  import opened Common
  import opened Service

  /** `BUFSIZE`: 1280 × 720 / 4 bytes, one per pixel of the 640 × 360 image. */
  const BUFSIZE: nat := 1280 * 720 / 4
  const OUT_WIDTH: nat := 640
  const OUT_HEIGHT: nat := 360
  /** The source frame's row stride, in pixels: the copy reads every other
      row of a 1280-wide frame. */
  const SRC_ROW: nat := 1280 * 2

  /** A frame is processed once the counter, after its increment, exceeds this. */
  const SKIP: int := 100

  const REPLY_TOPIC: string := "/view"
  const REPLY_DATA: string := "[Face->Display: here is a face]"

  /** Where buffer byte `i` is read from in the shared frame. */
  function SourceIndex(i: nat): (k: nat)
    requires i < BUFSIZE
    ensures k < SHARE_LEN
  {
    (i / OUT_WIDTH) * SRC_ROW + 2 * (i % OUT_WIDTH)
  }

  /** The buffer a processed frame leaves behind. */
  function Downsampled(src: SharedFrame): (b: seq<byte>)
    ensures |b| == BUFSIZE
    ensures forall i :: 0 <= i < BUFSIZE ==> b[i] == LowByte(src[SourceIndex(i)])
  {
    seq(BUFSIZE, i requires 0 <= i < BUFSIZE => LowByte(src[SourceIndex(i)]))
  }

  /** Pixel (x, y) of the downsampled image is the low byte of pixel
      (2x, 2y) of the 1280-wide frame, and both indexes are in bounds: the
      largest buffer index is 230399 and the largest frame index 920318. */
  lemma {:induction false} DownsampledPixel(src: SharedFrame, y: nat, x: nat)
    requires y < OUT_HEIGHT && x < OUT_WIDTH
    ensures y * OUT_WIDTH + x < BUFSIZE
    ensures y * SRC_ROW + 2 * x <= 920318 < SHARE_LEN
    ensures Downsampled(src)[y * OUT_WIDTH + x] == LowByte(src[y * SRC_ROW + 2 * x])
  {
    var i := y * OUT_WIDTH + x;
    assert i / OUT_WIDTH == y && i % OUT_WIDTH == x;
  }

  /** The counter after one `Share`, and whether that frame is processed. */
  function NextCount(count: int): int
  {
    if count + 1 > SKIP then 0 else count + 1
  }

  predicate Processes(count: int)
  {
    count + 1 > SKIP
  }

  /** How many of `n` further `Share` messages are processed, starting from
      counter value `count`. */
  function ProcessedAmong(count: int, n: nat): nat
    decreases n
  {
    if n == 0 then 0
    else (if Processes(count) then 1 else 0) + ProcessedAmong(NextCount(count), n - 1)
  }

  /** From a counter in 0..100, `n` shares process `(n + count) / 101` frames;
      from the initial 0 that is one frame in every 101. */
  lemma {:induction false} OneFrameIn101(count: int, n: nat)
    requires 0 <= count <= SKIP
    ensures ProcessedAmong(count, n) == (n + count) / (SKIP + 1)
    decreases n
  {
    if n > 0 {
      OneFrameIn101(NextCount(count), n - 1);
    }
  }

  class TensorService {
    /** `count`: an `i32`, kept in 0..100 by the reset. */
    var count: int
    var buffer: array<byte>
    /** Every message sent to the broker, in order. */
    var outbox: seq<Message>

    ghost predicate Valid()
      reads this
    {
      0 <= count <= SKIP && buffer.Length == BUFSIZE
    }

    constructor ()
      ensures Valid() && count == 0 && outbox == []
      ensures fresh(buffer) && forall i :: 0 <= i < buffer.Length ==> buffer[i] == 0
    {
      count := 0;
      buffer := new byte[BUFSIZE](i => 0);
      outbox := [];
    }

    /** The copy loop of a processed frame. */
    method CopyFrame(src: SharedFrame)
      requires Valid()
      modifies buffer
      ensures buffer[..] == Downsampled(src)
    {
      for y := 0 to OUT_HEIGHT
        invariant forall i :: 0 <= i < y * OUT_WIDTH ==> buffer[i] == Downsampled(src)[i]
      {
        for x := 0 to OUT_WIDTH
          invariant forall i :: 0 <= i < y * OUT_WIDTH + x ==> buffer[i] == Downsampled(src)[i]
        {
          DownsampledPixel(src, y, x);
          buffer[y * OUT_WIDTH + x] := LowByte(src[y * SRC_ROW + x * 2]);
        }
      }
    }

    /** One iteration of the receive loop. An event gets the canned reply; a
        shared frame bumps the counter and, on every 101st frame, is copied
        into the buffer; anything else is ignored. */
    method Step(m: Message)
      requires Valid()
      modifies this, buffer
      ensures Valid() && buffer == old(buffer)
      ensures m.Event? ==> outbox == old(outbox) + [Event(REPLY_TOPIC, REPLY_DATA)]
      ensures !m.Event? ==> outbox == old(outbox)
      ensures m.Share? ==> count == NextCount(old(count))
      ensures m.Share? && Processes(old(count)) ==> buffer[..] == Downsampled(m.frame)
      ensures !(m.Share? && Processes(old(count))) ==> buffer[..] == old(buffer[..])
      ensures !m.Share? ==> count == old(count)
    {
      match m {
        case Event(topic, data) =>
          outbox := outbox + [Event(REPLY_TOPIC, REPLY_DATA)];
        case Share(frame) =>
          count := count + 1;
          if count > SKIP {
            count := 0;
            CopyFrame(frame);
          }
        case _ =>
      }
    }
  }
}
