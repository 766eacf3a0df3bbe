/** The event helpers of the renderer: finger input kinds, signals, timers,
    pending file reads and the `handled` flag of finger events. */
module Events {
  import opened Common

  /** How a finger event was produced. */
  datatype FingerInputType = Mouse | Touch | XR {

    predicate IsTouch() { this == Touch }
    predicate IsMouse() { this == Mouse }
    predicate IsXr() { this == XR }

    /** Input kinds that report hovering (a mouse pointer, an XR controller). */
    predicate HasHovers() { this == Mouse || this == XR }
  }

  /** Exactly one of the three kind tests holds, and only touch input lacks hovers. */
  lemma InputTypeClassification(t: FingerInputType)
    ensures t.HasHovers() <==> (t.IsMouse() || t.IsXr())
    ensures t.HasHovers() <==> !t.IsTouch()
    ensures (t.IsTouch() && !t.IsMouse() && !t.IsXr())
         || (!t.IsTouch() && t.IsMouse() && !t.IsXr())
         || (!t.IsTouch() && !t.IsMouse() && t.IsXr())
  {
  }

  /** A signal handle; id 0 means "no signal". */
  datatype Signal = Signal(signalId: nat) {
    predicate IsEmpty() { signalId == 0 }
  }

  function EmptySignal(): (s: Signal)
    ensures s.IsEmpty()
    ensures s.signalId == 0
  {
    Signal(0)
  }

  /** A timer handle; id 0 means "no timer". */
  datatype Timer = Timer(timerId: nat) {
    predicate IsEmpty() { timerId == 0 }

    /** Whether the timer event `te` belongs to this timer. */
    predicate IsTimer(te: TimerEvent) { te.timerId == timerId }
  }

  datatype TimerEvent = TimerEvent(timerId: nat)

  function EmptyTimer(): (t: Timer)
    ensures t.IsEmpty()
    ensures forall te: TimerEvent :: t.IsTimer(te) <==> te.timerId == 0
  {
    Timer(0)
  }

  /** The payload of a completed file read: the bytes, or an error text. */
  datatype ReadData = ReadOk(bytes: seq<byte>) | ReadErr(message: string)

  datatype FileReadEvent = FileReadEvent(readId: nat, data: ReadData)

  /** What `resolve_utf8` yields: the file as text (its bytes, known to be
      well-formed UTF-8) or an error message. */
  datatype TextResult = TextOk(text: seq<byte>) | TextErr(message: string)

  /** A queued or returned file-read request (the value form of `FileRead`). */
  datatype FileReadRequest = FileReadRequest(path: string, readId: nat) {
    predicate IsPending() { readId != 0 }
  }

  // ---------------------------------------------------------------------
  // UTF-8 well-formedness (RFC 3629, section 4)
  // ---------------------------------------------------------------------

  predicate InRange(b: byte, lo: int, hi: int) { lo <= b <= hi }

  /** The length of the well-formed UTF-8 character at the start of `s`, or 0
      when `s` does not start with one. */
  function CharLength(s: seq<byte>): (k: nat)
    requires |s| > 0
    ensures k <= 4 && k <= |s|
  {
    var b0 := s[0];
    if b0 <= 0x7F then 1
    else if |s| >= 2 && InRange(b0, 0xC2, 0xDF) && InRange(s[1], 0x80, 0xBF) then 2
    else if |s| >= 3 && InRange(s[2], 0x80, 0xBF) &&
      ((b0 == 0xE0 && InRange(s[1], 0xA0, 0xBF)) ||
       (InRange(b0, 0xE1, 0xEC) && InRange(s[1], 0x80, 0xBF)) ||
       (b0 == 0xED && InRange(s[1], 0x80, 0x9F)) ||
       (InRange(b0, 0xEE, 0xEF) && InRange(s[1], 0x80, 0xBF))) then 3
    else if |s| >= 4 && InRange(s[2], 0x80, 0xBF) && InRange(s[3], 0x80, 0xBF) &&
      ((b0 == 0xF0 && InRange(s[1], 0x90, 0xBF)) ||
       (InRange(b0, 0xF1, 0xF3) && InRange(s[1], 0x80, 0xBF)) ||
       (b0 == 0xF4 && InRange(s[1], 0x80, 0x8F))) then 4
    else 0
  }

  /** `s` is a concatenation of well-formed UTF-8 characters. */
  predicate ValidUtf8(s: seq<byte>)
    decreases |s|
  {
    s == [] || (CharLength(s) > 0 && ValidUtf8(s[CharLength(s)..]))
  }

  /** Every 7-bit ASCII byte string is valid UTF-8. */
  lemma {:induction false} AsciiIsValidUtf8(s: seq<byte>)
    requires forall i :: 0 <= i < |s| ==> s[i] < 0x80
    ensures ValidUtf8(s)
    decreases |s|
  {
    if s != [] {
      assert CharLength(s) == 1;
      AsciiIsValidUtf8(s[1..]);
    }
  }

  /** A valid string never contains a byte that UTF-8 forbids (0xC0, 0xC1, 0xF5..0xFF). */
  lemma {:induction false} ValidUtf8ExcludesForbiddenBytes(s: seq<byte>, i: nat)
    requires ValidUtf8(s) && i < |s|
    ensures s[i] != 0xC0 && s[i] != 0xC1 && s[i] < 0xF5
    decreases |s|
  {
    var k := CharLength(s);
    if i >= k {
      ValidUtf8ExcludesForbiddenBytes(s[k..], i - k);
    }
  }

  // ---------------------------------------------------------------------
  // FileRead: a widget's handle on one outstanding read
  // ---------------------------------------------------------------------

  class FileRead {
    var path: string
    var readId: nat

    constructor (path: string, readId: nat)
      ensures this.path == path && this.readId == readId
    {
      this.path := path;
      this.readId := readId;
    }

    function Value(): FileReadRequest
      reads this
    {
      FileReadRequest(path, readId)
    }

    /** A read is pending until its result has been resolved. */
    predicate IsPending()
      reads this
    {
      readId != 0
    }

    /** Claims the event `fr` if it answers this read: the read stops being
        pending, and the answer is the text when the bytes arrived and are
        well-formed UTF-8, or an error message otherwise. An event for
        another read is left alone. */
    method ResolveUtf8(fr: FileReadEvent) returns (r: Option<TextResult>)
      modifies this
      ensures path == old(path)
      ensures fr.readId != old(readId) ==> r == None && readId == old(readId)
      ensures fr.readId == old(readId) ==> r.Some? && readId == 0 && !IsPending()
      ensures r.Some? && r.value.TextOk? <==>
                fr.readId == old(readId) && fr.data.ReadOk? && ValidUtf8(fr.data.bytes)
      ensures r.Some? && r.value.TextOk? ==> fr.data.ReadOk? && r.value.text == fr.data.bytes
      ensures fr.readId == old(readId) && fr.data.ReadOk? && !ValidUtf8(fr.data.bytes) ==>
                r == Some(TextErr("can't parse file as utf8 " + path))
      ensures fr.readId == old(readId) && fr.data.ReadErr? ==>
                r == Some(TextErr("can't load file as utf8 " + path + " " + fr.data.message))
    {
      if fr.readId == readId {
        readId := 0;
        match fr.data {
          case ReadOk(bytes) =>
            if ValidUtf8(bytes) {
              return Some(TextOk(bytes));
            } else {
              return Some(TextErr("can't parse file as utf8 " + path));
            }
          case ReadErr(err) =>
            return Some(TextErr("can't load file as utf8 " + path + " " + err));
        }
      }
      return None;
    }
  }

  // ---------------------------------------------------------------------
  // Events and their `handled` flag
  // ---------------------------------------------------------------------

  datatype HoverState = HoverIn | HoverOver | HoverOut

  datatype FingerDownEvent = FingerDownEvent(digit: nat, tapCount: nat, handled: bool, inputType: FingerInputType)
  datatype FingerHoverEvent = FingerHoverEvent(digit: nat, handled: bool, hoverState: HoverState)
  datatype FingerUpEvent = FingerUpEvent(digit: nat, inputType: FingerInputType)
  datatype FingerMoveEvent = FingerMoveEvent(digit: nat, inputType: FingerInputType)

  /** The events the modelled helpers distinguish; every other variant of the
      renderer's event enum is `Other`. */
  datatype Event =
    | FingerDown(down: FingerDownEvent)
    | FingerMove(move: FingerMoveEvent)
    | FingerHover(hover: FingerHoverEvent)
    | FingerUp(up: FingerUpEvent)
    | FingerScroll(scrollDigit: nat)
    | FileReadDone(read: FileReadEvent)
    | TimerFired(timer: TimerEvent)
    | AppFocusLost
    | Other(tag: nat)

  /** Whether a widget already consumed this event; only hover and down events
      carry the flag. */
  function Handled(e: Event): bool
  {
    match e
    case FingerHover(fe) => fe.handled
    case FingerDown(fe) => fe.handled
    case _ => false
  }

  /** Writes the `handled` flag of a hover or down event; other events are
      returned unchanged. (The source writes through `&mut self`.) */
  function SetHandled(e: Event, flag: bool): (e': Event)
    ensures (e.FingerHover? || e.FingerDown?) ==> Handled(e') == flag
    ensures !(e.FingerHover? || e.FingerDown?) ==> e' == e && !Handled(e')
    ensures e'.FingerHover? <==> e.FingerHover?
    ensures e'.FingerDown? <==> e.FingerDown?
    ensures e.FingerHover? ==> e'.hover == e.hover.(handled := flag)
    ensures e.FingerDown? ==> e'.down == e.down.(handled := flag)
  {
    match e
    case FingerHover(fe) => FingerHover(fe.(handled := flag))
    case FingerDown(fe) => FingerDown(fe.(handled := flag))
    case _ => e
  }

  /** Setting the flag twice keeps the second value, and setting it to what it
      already is changes nothing. */
  lemma SetHandledLastWins(e: Event, a: bool, b: bool)
    ensures SetHandled(SetHandled(e, a), b) == SetHandled(e, b)
    ensures SetHandled(e, Handled(e)) == e
  {
  }
}
