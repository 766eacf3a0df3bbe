/** The Metal backend's rotating vertex/index buffer (`MetalBuffer`, five
    slots written round-robin so the GPU can still read earlier frames) and
    the guard checks of the 2D texture upload. GPU calls are abstracted: a
    buffer or texture is an opaque handle, and an allocation's outcome is a
    parameter (`None` when the device returned nil). */
module CxMetal {
  import opened Common

  /** An opaque Metal object handle (`id`). */
  type Handle = nat

  /** One slot of the ring: the buffer (if allocated), its capacity in
      elements, and how many elements the last write used. */
  datatype MultiMetalBuffer = MultiMetalBuffer(buffer: Option<Handle>, size: nat, used: nat)

  const SLOTS: nat := 5

  /** The slot selected by a `last_written` value: 0..3 are slots 1..4, any
      other value is slot 5 (index 4). */
  function SlotIndex(lastWritten: nat): (k: nat)
    ensures k < SLOTS
    ensures lastWritten < SLOTS ==> k == lastWritten
  {
    if lastWritten <= 3 then lastWritten else 4
  }

  /** The value `multi_buffer_write` stores before selecting its slot. */
  function NextWritten(lastWritten: nat): (n: nat)
    ensures n < SLOTS
  {
    (lastWritten + 1) % SLOTS
  }

  /** Five consecutive writes visit five different slots, and the sixth
      reuses the slot of the first. */
  lemma {:induction false} FiveWritesVisitAllSlots(lw: nat)
    requires lw < SLOTS
    ensures var w1 := NextWritten(lw); var w2 := NextWritten(w1); var w3 := NextWritten(w2);
            var w4 := NextWritten(w3); var w5 := NextWritten(w4);
            {SlotIndex(w1), SlotIndex(w2), SlotIndex(w3), SlotIndex(w4), SlotIndex(w5)} == {0, 1, 2, 3, 4}
            && NextWritten(w5) == w1
  {
    if lw == 0 {
    } else if lw == 1 {
    } else if lw == 2 {
    } else if lw == 3 {
    } else {
    }
  }

  /** The slot state a write of `len` elements leaves behind: a slot too small
      for the data is discarded; a slot without a buffer gets the outcome of a
      fresh allocation and the new size; the used count is the data length. */
  function Rewritten(slot: MultiMetalBuffer, len: nat, alloc: Option<Handle>): (s: MultiMetalBuffer)
    ensures s.used == len <= s.size
    ensures slot.buffer.Some? && len <= slot.size ==> s.buffer == slot.buffer && s.size == slot.size
    ensures !(slot.buffer.Some? && len <= slot.size) ==> s.buffer == alloc && s.size == len
  {
    var kept := if slot.size < len then slot.(buffer := None) else slot;
    var refilled := if kept.buffer.None? then kept.(buffer := alloc, size := len) else kept;
    refilled.(used := len)
  }

  class MetalBuffer {
    var lastWritten: nat
    var multi1: MultiMetalBuffer
    var multi2: MultiMetalBuffer
    var multi3: MultiMetalBuffer
    var multi4: MultiMetalBuffer
    var multi5: MultiMetalBuffer

    ghost predicate Valid()
      reads this
    {
      lastWritten < SLOTS
    }

    /** The five slots, in order. */
    function Slots(): (s: seq<MultiMetalBuffer>)
      reads this
      ensures |s| == SLOTS
    {
      [multi1, multi2, multi3, multi4, multi5]
    }

    /** `MetalBuffer::default()`: slot 1 last written, every slot empty. */
    constructor ()
      ensures Valid() && lastWritten == 0
      ensures forall k :: 0 <= k < SLOTS ==> Slots()[k] == MultiMetalBuffer(None, 0, 0)
    {
      lastWritten := 0;
      multi1 := MultiMetalBuffer(None, 0, 0);
      multi2 := MultiMetalBuffer(None, 0, 0);
      multi3 := MultiMetalBuffer(None, 0, 0);
      multi4 := MultiMetalBuffer(None, 0, 0);
      multi5 := MultiMetalBuffer(None, 0, 0);
    }

    /** The slot the GPU reads: the one last written. */
    function MultiBufferRead(): (m: MultiMetalBuffer)
      reads this
      ensures m == Slots()[SlotIndex(lastWritten)]
    {
      match lastWritten
      case 0 => multi1
      case 1 => multi2
      case 2 => multi3
      case 3 => multi4
      case _ => multi5
    }

    /** Advances `last_written` round-robin and returns the index of the slot
        to write (the caller then writes that slot). */
    method MultiBufferWrite() returns (k: nat)
      modifies this`lastWritten
      ensures lastWritten == NextWritten(old(lastWritten)) && Valid()
      ensures k == SlotIndex(lastWritten) && k == lastWritten
    {
      lastWritten := (lastWritten + 1) % SLOTS;
      k := lastWritten;
    }

    method SetSlot(k: nat, m: MultiMetalBuffer)
      requires k < SLOTS
      modifies this`multi1, this`multi2, this`multi3, this`multi4, this`multi5
      ensures Slots() == old(Slots())[k := m]
    {
      if k == 0 { multi1 := m; }
      else if k == 1 { multi2 := m; }
      else if k == 2 { multi3 := m; }
      else if k == 3 { multi4 := m; }
      else { multi5 := m; }
    }

    /** The shared body of the two `update_with_*_data` functions for data of
        `len` elements: the next slot is selected and rewritten; the other
        four slots are untouched, and a read now sees the new slot. */
    method UpdateWithLen(len: nat, alloc: Option<Handle>)
      modifies this
      ensures Valid()
      ensures lastWritten == NextWritten(old(lastWritten))
      ensures Slots() == old(Slots())[lastWritten := Rewritten(old(Slots())[lastWritten], len, alloc)]
      ensures MultiBufferRead().used == len <= MultiBufferRead().size
    {
      var k := MultiBufferWrite();
      var elem := Slots()[k];
      if elem.size < len {
        elem := elem.(buffer := None);
      }
      if elem.buffer.None? {
        elem := elem.(buffer := alloc, size := len);
      }
      elem := elem.(used := len);
      SetSlot(k, elem);
    }

    /** `update_with_f32_data`: the contents copied into the buffer are not
        modelled, only the slot bookkeeping. */
    method UpdateWithF32Data(data: seq<F32>, alloc: Option<Handle>)
      modifies this
      ensures Valid()
      ensures lastWritten == NextWritten(old(lastWritten))
      ensures Slots() == old(Slots())[lastWritten := Rewritten(old(Slots())[lastWritten], |data|, alloc)]
      ensures MultiBufferRead().used == |data| <= MultiBufferRead().size
    {
      UpdateWithLen(|data|, alloc);
    }

    /** `update_with_u32_data`: as for `f32` data. */
    method UpdateWithU32Data(data: seq<u32>, alloc: Option<Handle>)
      modifies this
      ensures Valid()
      ensures lastWritten == NextWritten(old(lastWritten))
      ensures Slots() == old(Slots())[lastWritten := Rewritten(old(Slots())[lastWritten], |data|, alloc)]
      ensures MultiBufferRead().used == |data| <= MultiBufferRead().size
    {
      UpdateWithLen(|data|, alloc);
    }
  }

  /** A slot that is rewritten with data no longer than its capacity keeps its
      buffer and capacity; one too small, or without a buffer, is reallocated
      to exactly the data length. So capacity only grows while allocations
      succeed. */
  lemma {:induction false} RewriteGrowsOnly(slot: MultiMetalBuffer, len: nat, alloc: Option<Handle>)
    requires slot.buffer.Some? && alloc.Some?
    ensures Rewritten(slot, len, alloc).size == if len <= slot.size then slot.size else len
    ensures Rewritten(slot, len, alloc).size >= slot.size
    ensures Rewritten(slot, len, alloc).buffer.Some?
  {
  }

  // ---------------------------------------------------------------------
  // Guard checks of `update_platform_texture_image2d`
  // ---------------------------------------------------------------------

  datatype TextureFormat = Default | ImageBGRA | OtherFormat(tag: nat)

  datatype TextureDesc = TextureDesc(format: TextureFormat, width: Option<nat>, height: Option<nat>)

  predicate Uploadable(f: TextureFormat)
  {
    f == Default || f == ImageBGRA
  }

  class CxTexture {
    var desc: TextureDesc
    var updateImage: bool
    /** `image_u32.len()`: the pixel count of the image to upload. */
    var imageLen: nat
    /** The descriptor the platform texture was allocated for, and its size. */
    var allocDesc: TextureDesc
    var platformWidth: nat
    var platformHeight: nat
    var mtlTexture: Option<Handle>

    /** Brings the platform texture up to date with the descriptor and uploads
        the image when asked to. Without a width and a height nothing changes.
        A changed descriptor reallocates (with `newTexture`), unless the
        format cannot be uploaded, in which case the texture is dropped. An
        image whose pixel count is not width × height drops the texture and
        stays marked for upload. */
    method UpdatePlatformTextureImage2d(newTexture: Handle)
      modifies this
      ensures desc == old(desc) && imageLen == old(imageLen)
      ensures old(desc).width.None? || old(desc).height.None? ==>
                allocDesc == old(allocDesc) && platformWidth == old(platformWidth) &&
                platformHeight == old(platformHeight) && mtlTexture == old(mtlTexture) &&
                updateImage == old(updateImage)
      ensures old(desc).width.Some? && old(desc).height.Some? && old(allocDesc) != old(desc) ==>
                if Uploadable(desc.format) then
                  allocDesc == desc && platformWidth == desc.width.value &&
                  platformHeight == desc.height.value
                else
                  mtlTexture == None && updateImage == old(updateImage) && allocDesc == old(allocDesc)
      ensures old(desc).width.Some? && old(desc).height.Some? && old(allocDesc) == old(desc) ==>
                allocDesc == old(allocDesc) && platformWidth == old(platformWidth) &&
                platformHeight == old(platformHeight)
      ensures old(desc).width.Some? && old(desc).height.Some? && Uploadable(desc.format) ==>
                var wrongSize := old(updateImage) && imageLen != desc.width.value * desc.height.value;
                && (wrongSize ==> mtlTexture == None && updateImage)
                && (!wrongSize ==>
                      !updateImage &&
                      mtlTexture == (if old(allocDesc) != old(desc) then Some(newTexture) else old(mtlTexture)))
      ensures old(desc).width.Some? && old(desc).height.Some? && !Uploadable(desc.format) &&
              old(allocDesc) == old(desc) ==>
                mtlTexture == old(mtlTexture) && updateImage == old(updateImage)
    {
      if desc.width.None? || desc.height.None? {
        return;
      }
      var width := desc.width.value;
      var height := desc.height.value;
      if allocDesc != desc {
        mtlTexture := None;
        if Uploadable(desc.format) {
          mtlTexture := Some(newTexture);
        } else {
          return;
        }
        allocDesc := desc;
        platformWidth := width;
        platformHeight := height;
      }
      if updateImage {
        if Uploadable(desc.format) {
          if imageLen != width * height {
            mtlTexture := None;
            return;
          }
        } else {
          return;
        }
        updateImage := false;
      }
    }
  }
}
