/** The message vocabulary every orbital service speaks, and the identity of
    the channels messages travel on. */
module Service {
  import opened Common

  /** A 64-bit service id. */
  type SID = x: int | 0 <= x < 0x1_0000_0000_0000_0000

  /** Number of pixels in a shared camera frame (`[u32; 921600]`). */
  const SHARE_LEN: nat := 921600

  /** The contents of a shared frame, one `u32` per pixel. */
  type SharedFrame = s: seq<u32> | |s| == SHARE_LEN witness seq(SHARE_LEN, i => 0)

  /** The sending end of a channel. `Discard` is a channel whose receiver
      has been dropped, so everything sent on it is lost; `Port(n)` is the
      n-th channel created by the program. */
  datatype ChannelRef = Discard | Port(n: nat)

  datatype Message =
    | Share(frame: SharedFrame)
    | Channel(sid: SID, name: string, channel: ChannelRef)
    | Subscribe(sid: SID, topic: string)
    | Unsubscribe(sid: SID, topic: string)
    | Event(topic: string, data: string)

  /** One attempted send: the channel and the message. */
  datatype Delivery = Delivery(to: ChannelRef, message: Message)
}
