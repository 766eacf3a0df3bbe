/** The pixel view service: a list of boxes bouncing around a 320 × 240 RGBA
    frame. Each redraw draws every object into the frame and then moves it;
    an event with data "cube" adds a box. Positions and velocities are
    `i16`; the cast of a pixel coordinate to `i16` is written out. */
module ViewPixels {
  import opened Common
  import opened Service

  const WIDTH: int := 320
  const HEIGHT: int := 240
  const BOX_SIZE: int := 64

  const I16_MIN: int := -0x8000
  const I16_MAX: int := 0x7FFF

  type i16 = x: int | I16_MIN <= x <= I16_MAX

  /** Rust's `v as i16` for a non-negative `usize`: the low 16 bits, read as
      two's complement. */
  function AsI16(v: nat): (r: i16)
    ensures v <= I16_MAX ==> r == v
  {
    var w := v % 0x1_0000;
    if w <= I16_MAX then w else w - 0x1_0000
  }

  /** The colour of the background (kind 0) and of a box (kind 1). */
  const BACKGROUND: seq<byte> := [0x48, 0xb2, 0xe8, 0xff]
  const BOX_COLOUR: seq<byte> := [0x5e, 0x48, 0xe8, 0xff]

  /** The value form of a `Renderable`. */
  datatype RenderState = RenderState(kind: i16, boxX: i16, boxY: i16, velocityX: i16, velocityY: i16)

  /** The state the source gives the initial background object (kind 0) and
      every "cube" (kind 1). */
  function Spawned(kind: i16): (s: RenderState)
    ensures s.kind == kind && Reachable(s)
  {
    RenderState(kind, 24, 16, 1, 1)
  }

  // ---------------------------------------------------------------------
  // update: the bounce
  // ---------------------------------------------------------------------

  /** Does the bounce's own `i16` arithmetic stay in range? (Rust panics on
      overflow in debug builds.) */
  predicate UpdateInRange(s: RenderState)
  {
    && s.boxX + BOX_SIZE <= I16_MAX && s.boxY + BOX_SIZE <= I16_MAX
    && s.velocityX != I16_MIN && s.velocityY != I16_MIN
    && I16_MIN <= s.boxX + Bounced(s.boxX, s.velocityX, WIDTH) <= I16_MAX
    && I16_MIN <= s.boxY + Bounced(s.boxY, s.velocityY, HEIGHT) <= I16_MAX
  }

  /** The velocity along one axis after the edge check. */
  function Bounced(pos: int, vel: int, extent: int): int
  {
    if pos <= 0 || pos + BOX_SIZE > extent then -vel else vel
  }

  /** `update`: reverse a velocity whose box touches or crosses an edge, then
      move by the velocities. */
  function Updated(s: RenderState): (t: RenderState)
    requires UpdateInRange(s)
    ensures t.kind == s.kind
    ensures t.velocityX == (if s.boxX <= 0 || s.boxX + BOX_SIZE > WIDTH then -s.velocityX else s.velocityX)
    ensures t.velocityY == (if s.boxY <= 0 || s.boxY + BOX_SIZE > HEIGHT then -s.velocityY else s.velocityY)
    ensures t.boxX == s.boxX + t.velocityX && t.boxY == s.boxY + t.velocityY
  {
    var vx := Bounced(s.boxX, s.velocityX, WIDTH);
    var vy := Bounced(s.boxY, s.velocityY, HEIGHT);
    s.(velocityX := vx, velocityY := vy, boxX := s.boxX + vx, boxY := s.boxY + vy)
  }

  /** The states reachable from a spawned object: the box stays within
      [0, 257] × [0, 177] with unit velocities, and at either end of a range
      the velocity already points the way it will keep going. */
  predicate Reachable(s: RenderState)
  {
    && 0 <= s.boxX <= WIDTH - BOX_SIZE + 1 && 0 <= s.boxY <= HEIGHT - BOX_SIZE + 1
    && (s.velocityX == 1 || s.velocityX == -1) && (s.velocityY == 1 || s.velocityY == -1)
    && (s.boxX == 0 ==> s.velocityX == -1) && (s.boxX == WIDTH - BOX_SIZE + 1 ==> s.velocityX == 1)
    && (s.boxY == 0 ==> s.velocityY == -1) && (s.boxY == HEIGHT - BOX_SIZE + 1 ==> s.velocityY == 1)
  }

  /** Reachable states never overflow, and `update` keeps them reachable: the
      boxes bounce forever without an `i16` overflow. */
  lemma {:induction false} UpdateKeepsReachable(s: RenderState)
    requires Reachable(s)
    ensures UpdateInRange(s) && Reachable(Updated(s))
  {
  }

  /** Any number of updates from a spawned object stays reachable. */
  function UpdatedTimes(s: RenderState, n: nat): (t: RenderState)
    requires Reachable(s)
    ensures Reachable(t) && t.kind == s.kind
    decreases n
  {
    if n == 0 then s
    else
      UpdateKeepsReachable(s);
      UpdatedTimes(Updated(s), n - 1)
  }

  // ---------------------------------------------------------------------
  // draw: the frame fill
  // ---------------------------------------------------------------------

  /** Can `draw` compute the box's far edges without overflow? Only kind 1
      computes them. */
  predicate DrawInRange(s: RenderState)
  {
    s.kind == 1 ==> s.boxX + BOX_SIZE <= I16_MAX && s.boxY + BOX_SIZE <= I16_MAX
  }

  /** Whether pixel `i` (x = i mod 320, y = i div 320, both cast to `i16`)
      lies inside the box. */
  predicate InsideBox(s: RenderState, i: nat)
  {
    var x := AsI16(i % WIDTH);
    var y := AsI16(i / WIDTH);
    s.boxX <= x < s.boxX + BOX_SIZE && s.boxY <= y < s.boxY + BOX_SIZE
  }

  /** The colour `draw` writes to pixel `i`, if it writes one. */
  function PixelColour(s: RenderState, i: nat): (c: Option<seq<byte>>)
    ensures c.Some? ==> |c.value| == 4
    ensures s.kind == 0 ==> c == Some(BACKGROUND)
    ensures s.kind == 1 ==> (c.Some? <==> InsideBox(s, i)) && (c.Some? ==> c.value == BOX_COLOUR)
    ensures s.kind != 0 && s.kind != 1 ==> c == None
  {
    if s.kind == 1 then (if InsideBox(s, i) then Some(BOX_COLOUR) else None)
    else if s.kind == 0 then Some(BACKGROUND)
    else None
  }

  /** The frame `draw` leaves behind: byte j of a complete pixel takes the
      pixel's colour if it has one; the other bytes, and every trailing byte
      past the last complete pixel, keep their value. */
  function Drawn(s: RenderState, frame: seq<byte>): (f: seq<byte>)
    ensures |f| == |frame|
  {
    seq(|frame|, j requires 0 <= j < |frame| =>
      if j < |frame| / 4 * 4 && PixelColour(s, j / 4).Some? then PixelColour(s, j / 4).value[j % 4] else frame[j])
  }

  /** On a frame of the window's size, a box covers exactly the pixels of its
      square: the `i16` casts of the coordinates are exact there. */
  lemma {:induction false} BoxCoversItsSquare(s: RenderState, i: nat)
    requires s.kind == 1 && i < WIDTH * HEIGHT
    ensures PixelColour(s, i).Some? <==>
              s.boxX <= i % WIDTH < s.boxX + BOX_SIZE && s.boxY <= i / WIDTH < s.boxY + BOX_SIZE
  {
    assert i / WIDTH < HEIGHT;
  }

  /** Drawing rewrites byte j of a complete pixel with the pixel's colour
      when it has one and keeps every other byte. */
  lemma {:induction false} DrawnBytes(s: RenderState, frame: seq<byte>, j: nat)
    requires j < |frame|
    ensures Drawn(s, frame)[j] ==
            if j < |frame| / 4 * 4 && PixelColour(s, j / 4).Some?
            then PixelColour(s, j / 4).value[j % 4] else frame[j]
  {
  }

  /** Drawing the background twice is drawing it once, and any kind other
      than 0 and 1 leaves the frame as it was. */
  lemma {:induction false} DrawFacts(s: RenderState, frame: seq<byte>)
    ensures s.kind == 0 ==> Drawn(s, Drawn(s, frame)) == Drawn(s, frame)
    ensures s.kind != 0 && s.kind != 1 ==> Drawn(s, frame) == frame
  {
  }

  class Renderable {
    var kind: i16
    var boxX: i16
    var boxY: i16
    var velocityX: i16
    var velocityY: i16

    constructor (s: RenderState)
      ensures State() == s
    {
      kind, boxX, boxY, velocityX, velocityY := s.kind, s.boxX, s.boxY, s.velocityX, s.velocityY;
    }

    function State(): RenderState
      reads this
    {
      RenderState(kind, boxX, boxY, velocityX, velocityY)
    }

    method Update()
      requires UpdateInRange(State())
      modifies this
      ensures State() == Updated(old(State()))
    {
      if boxX <= 0 || boxX + BOX_SIZE > WIDTH {
        velocityX := -velocityX;
      }
      if boxY <= 0 || boxY + BOX_SIZE > HEIGHT {
        velocityY := -velocityY;
      }
      boxX := boxX + velocityX;
      boxY := boxY + velocityY;
    }

    /** Fills the frame pixel by pixel, four bytes at a time. */
    method Draw(frame: array<byte>)
      requires DrawInRange(State())
      modifies frame
      ensures frame[..] == Drawn(State(), old(frame[..]))
    {
      var pixels := frame.Length / 4;
      for i := 0 to pixels
        invariant forall j :: 0 <= j < frame.Length ==>
                    frame[j] == (if j < i * 4 && PixelColour(State(), j / 4).Some?
                                 then PixelColour(State(), j / 4).value[j % 4] else old(frame[j]))
      {
        var x := AsI16(i % WIDTH);
        var y := AsI16(i / WIDTH);
        var colour: Option<seq<byte>> := None;
        if kind == 1 {
          var insideTheBox := x >= boxX && x < boxX + BOX_SIZE && y >= boxY && y < boxY + BOX_SIZE;
          if insideTheBox {
            colour := Some(BOX_COLOUR);
          }
        }
        if kind == 0 {
          colour := Some(BACKGROUND);
        }
        assert colour == PixelColour(State(), i);
        if colour.Some? {
          frame[4 * i] := colour.value[0];
          frame[4 * i + 1] := colour.value[1];
          frame[4 * i + 2] := colour.value[2];
          frame[4 * i + 3] := colour.value[3];
        }
      }
    }
  }

  /** The frame after drawing each state in order, starting from `frame`. */
  function DrawnAll(states: seq<RenderState>, frame: seq<byte>): (f: seq<byte>)
    ensures |f| == |frame|
    decreases |states|
  {
    if |states| == 0 then frame
    else Drawn(states[|states| - 1], DrawnAll(states[..|states| - 1], frame))
  }

  /** Drawing one more state draws it over what the earlier ones drew. */
  lemma {:induction false} DrawnAllSnoc(states: seq<RenderState>, i: nat, frame: seq<byte>)
    requires i < |states|
    ensures DrawnAll(states[..i + 1], frame) == Drawn(states[i], DrawnAll(states[..i], frame))
  {
    assert states[..i + 1][..i] == states[..i];
  }

  /** The service's event-loop state: the objects and the frame. */
  class View {
    var objects: seq<Renderable>
    var frame: array<byte>

    ghost predicate Valid()
      reads this, objects
    {
      && frame.Length == WIDTH * HEIGHT * 4
      && (forall k :: 0 <= k < |objects| ==> Reachable(objects[k].State()))
      && (forall a, b :: 0 <= a < b < |objects| ==> objects[a] != objects[b])
    }

    function States(): (s: seq<RenderState>)
      reads this, objects
      ensures |s| == |objects|
    {
      seq(|objects|, k reads this, objects requires 0 <= k < |objects| => objects[k].State())
    }

    /** The state after start-up: the background object alone. */
    constructor ()
      ensures Valid() && States() == [Spawned(0)] && fresh(frame) && fresh(objects[0])
    {
      var background := new Renderable(Spawned(0));
      objects := [background];
      frame := new byte[WIDTH * HEIGHT * 4];
    }

    /** A received message: the event "cube" adds a box; anything else
        leaves the objects as they are. */
    method Receive(m: Message)
      requires Valid()
      modifies this
      ensures Valid() && frame == old(frame)
      ensures m.Event? && m.data == "cube" ==> States() == old(States()) + [Spawned(1)]
      ensures !(m.Event? && m.data == "cube") ==> objects == old(objects)
    {
      if m.Event? && m.data == "cube" {
        var r := new Renderable(Spawned(1));
        objects := objects + [r];
        assert forall k :: 0 <= k < |old(objects)| ==> States()[k] == old(States())[k];
      }
    }

    /** `RedrawRequested`: each object in list order is drawn into the frame
        and then moved. */
    method Redraw()
      requires Valid()
      modifies frame, objects
      ensures Valid()
      ensures forall k :: 0 <= k < |objects| ==> objects[k].State() == Updated(old(States())[k])
      ensures frame[..] == DrawnAll(old(States()), old(frame[..]))
    {
      ghost var states0 := States();
      ghost var frame0 := frame[..];
      for i := 0 to |objects|
        invariant forall k :: 0 <= k < |objects| ==>
                    objects[k].State() == (if k < i then Updated(states0[k]) else states0[k])
        invariant frame[..] == DrawnAll(states0[..i], frame0)
      {
        var r := objects[i];
        assert r.State() == states0[i];
        UpdateKeepsReachable(states0[i]);
        r.Draw(frame);
        r.Update();
        DrawnAllSnoc(states0, i, frame0);
      }
      assert states0[..|objects|] == states0;
      forall k | 0 <= k < |objects| ensures Reachable(objects[k].State()) {
        UpdateKeepsReachable(states0[k]);
      }
    }
  }
}
