/** The desktop part of the renderer context: the file-read id allocator and
    request queue, the loop that answers queued reads, and the per-finger
    bookkeeping done before and after an event is dispatched. */
module CxDesktop {
  import opened Common
  import opened Events

  /** A drawn area of the UI; only "no area" matters to this module. */
  datatype Area = Empty | AreaRef(id: nat)

  /** Per-finger state: the area that captured the finger, the area it is
      over during this event, and the one it was over during the last event. */
  datatype CxFinger = CxFinger(captured: Area, overLast: Area, prevOverLast: Area)

  datatype MouseCursor = Default | Hand | Text | Other(shape: nat)

  /** What the file system reports for a path: it could not be opened, or it
      was opened and reading it to the end succeeded (with the bytes) or failed. */
  datatype FsOutcome = OpenFailed | ReadFailed | ReadAll(bytes: seq<byte>)

  /** The payload the event carries for a request of `path`. */
  function ReadResult(outcome: FsOutcome, path: string): ReadData
  {
    match outcome
    case OpenFailed => ReadErr("Failed to open " + path)
    case ReadFailed => ReadErr("Failed to read " + path)
    case ReadAll(bytes) => ReadOk(bytes)
  }

  /** The requests `paths` receive when queued one after another starting
      with id `firstId`. */
  function Requests(paths: seq<string>, firstId: nat): (rs: seq<FileReadRequest>)
    ensures |rs| == |paths|
    ensures forall i :: 0 <= i < |rs| ==> rs[i] == FileReadRequest(paths[i], firstId + i)
  {
    seq(|paths|, i requires 0 <= i < |paths| => FileReadRequest(paths[i], firstId + i))
  }

  /** The events one round dispatches: one per request, in queue order. */
  function RoundEvents(queue: seq<FileReadRequest>, fs: string -> FsOutcome): (evs: seq<FileReadEvent>)
    ensures |evs| == |queue|
    ensures forall i :: 0 <= i < |queue| ==>
              evs[i] == FileReadEvent(queue[i].readId, ReadResult(fs(queue[i].path), queue[i].path))
  {
    seq(|queue|, i requires 0 <= i < |queue| =>
      FileReadEvent(queue[i].readId, ReadResult(fs(queue[i].path), queue[i].path)))
  }

  /** The paths the event handler asks to read while handling `evs`, in order. */
  function HandlerPaths(evs: seq<FileReadEvent>, handler: FileReadEvent -> seq<string>): seq<string>
  {
    if evs == [] then [] else HandlerPaths(evs[..|evs| - 1], handler) + handler(evs[|evs| - 1])
  }

  /** Requests for more paths continue the ids where the earlier ones stop. */
  lemma {:induction false} RequestsAppend(a: seq<string>, b: seq<string>, firstId: nat, nextId: nat)
    requires nextId == firstId + |a|
    ensures Requests(a + b, firstId) == Requests(a, firstId) + Requests(b, nextId)
  {
    var l := Requests(a + b, firstId);
    var r := Requests(a, firstId) + Requests(b, nextId);
    forall i | 0 <= i < |l| ensures l[i] == r[i] {
      if i >= |a| {
        assert (a + b)[i] == b[i - |a|];
      }
    }
  }

  /** The events of one more request follow those of the earlier ones. */
  lemma {:induction false} RoundEventsStep(queue: seq<FileReadRequest>, i: nat, fs: string -> FsOutcome)
    requires i < |queue|
    ensures RoundEvents(queue[..i + 1], fs) ==
            RoundEvents(queue[..i], fs) + [FileReadEvent(queue[i].readId, ReadResult(fs(queue[i].path), queue[i].path))]
  {
    var l := RoundEvents(queue[..i + 1], fs);
    var r := RoundEvents(queue[..i], fs) + [FileReadEvent(queue[i].readId, ReadResult(fs(queue[i].path), queue[i].path))];
    forall k | 0 <= k < |l| ensures l[k] == r[k] {
      assert queue[..i + 1][k] == queue[k];
    }
  }

  /** Handling one more event adds the paths that handler asks for. */
  lemma {:induction false} HandlerPathsSnoc(evs: seq<FileReadEvent>, ev: FileReadEvent, handler: FileReadEvent -> seq<string>)
    ensures HandlerPaths(evs + [ev], handler) == HandlerPaths(evs, handler) + handler(ev)
  {
    assert (evs + [ev])[..|evs|] == evs;
  }

  /** One turn of a dispatch round: answering request `i` and queueing the
      reads its handler issues extends the round by one event and the new
      queue by that handler's requests. */
  lemma {:induction false} DispatchStep(requests: seq<FileReadRequest>, i: nat, events: seq<FileReadEvent>,
                                        fs: string -> FsOutcome, handler: FileReadEvent -> seq<string>,
                                        firstId: nat, queued: seq<FileReadRequest>, nextId: nat,
                                        after: seq<FileReadRequest>)
    requires i < |requests| && events == RoundEvents(requests[..i], fs)
    requires queued == Requests(HandlerPaths(events, handler), firstId)
    requires nextId == firstId + |HandlerPaths(events, handler)|
    requires after == queued + Requests(handler(FileReadEvent(requests[i].readId, ReadResult(fs(requests[i].path), requests[i].path))), nextId)
    ensures var evs := events + [FileReadEvent(requests[i].readId, ReadResult(fs(requests[i].path), requests[i].path))];
            && evs == RoundEvents(requests[..i + 1], fs)
            && after == Requests(HandlerPaths(evs, handler), firstId)
            && nextId + |handler(evs[i])| == firstId + |HandlerPaths(evs, handler)|
  {
    var ev := FileReadEvent(requests[i].readId, ReadResult(fs(requests[i].path), requests[i].path));
    RoundEventsStep(requests, i, fs);
    HandlerPathsSnoc(events, ev, handler);
    RequestsAppend(HandlerPaths(events, handler), handler(ev), firstId, nextId);
    assert (events + [ev])[i] == ev;
  }

  /** Ids are allocated in increasing order: every queued id is at least 2 and
      at most the counter, and the queue is strictly increasing. */
  ghost predicate IdsIncreasing(queue: seq<FileReadRequest>, counter: nat)
  {
    && (forall i :: 0 <= i < |queue| ==> 2 <= queue[i].readId <= counter)
    && (forall i, j :: 0 <= i < j < |queue| ==> queue[i].readId < queue[j].readId)
  }

  /** Appending a request with a freshly incremented counter keeps the ids increasing. */
  lemma {:induction false} FreshIdKeepsIncreasing(queue: seq<FileReadRequest>, counter: nat, path: string)
    requires IdsIncreasing(queue, counter) && counter >= 1
    ensures IdsIncreasing(queue + [FileReadRequest(path, counter + 1)], counter + 1)
  {
    var q' := queue + [FileReadRequest(path, counter + 1)];
    forall i, j | 0 <= i < j < |q'| ensures q'[i].readId < q'[j].readId {
      if j == |queue| {
        assert q'[i] == queue[i];
      } else {
        assert q'[i] == queue[i] && q'[j] == queue[j];
      }
    }
  }

  /** What a run of rounds leaves: the events dispatched, in order, the
      queue still waiting, the last id allocated and the number of rounds. */
  datatype ReadRun = ReadRun(events: seq<FileReadEvent>, queue: seq<FileReadRequest>, lastId: nat, rounds: nat)

  /** `process_desktop_file_reads` from `queue` with `lastId` the last id
      allocated: while the queue is not empty a round answers all of it and
      queues the handler's reads under the next ids, at most `fuel` times. */
  function Rounds(queue: seq<FileReadRequest>, lastId: nat, fs: string -> FsOutcome,
                  handler: FileReadEvent -> seq<string>, fuel: nat): ReadRun
    decreases fuel
  {
    if queue == [] || fuel == 0 then ReadRun([], queue, lastId, 0)
    else
      var evs := RoundEvents(queue, fs);
      var paths := HandlerPaths(evs, handler);
      var r := Rounds(Requests(paths, lastId + 1), lastId + |paths|, fs, handler, fuel - 1);
      ReadRun(evs + r.events, r.queue, r.lastId, r.rounds + 1)
  }

  /** A run stops before its fuel is spent only once the queue is empty; it
      never goes back on an id; an empty queue dispatches nothing; otherwise
      the first round runs and its events, one per queued request, come
      before all later ones. */
  lemma {:induction false} RoundsDrain(queue: seq<FileReadRequest>, lastId: nat, fs: string -> FsOutcome,
                                       handler: FileReadEvent -> seq<string>, fuel: nat)
    ensures var r := Rounds(queue, lastId, fs, handler, fuel);
            && r.rounds <= fuel
            && (r.rounds < fuel ==> r.queue == [])
            && r.lastId >= lastId
            && (queue == [] ==> r == ReadRun([], [], lastId, 0))
            && (queue != [] && fuel > 0 ==>
                  r.rounds >= 1 && |r.events| >= |queue| && r.events[..|queue|] == RoundEvents(queue, fs))
    decreases fuel
  {
    if queue != [] && fuel > 0 {
      var evs := RoundEvents(queue, fs);
      var paths := HandlerPaths(evs, handler);
      RoundsDrain(Requests(paths, lastId + 1), lastId + |paths|, fs, handler, fuel - 1);
      var later := Rounds(Requests(paths, lastId + 1), lastId + |paths|, fs, handler, fuel - 1);
      assert (evs + later.events)[..|queue|] == evs;
    }
  }

  /** A run with a queue and fuel is its first round followed by the run,
      with one unit of fuel less, from the queue that round leaves. */
  lemma RoundsStep(queue: seq<FileReadRequest>, lastId: nat, fs: string -> FsOutcome,
                   handler: FileReadEvent -> seq<string>, fuel: nat,
                   first: seq<FileReadEvent>, next: seq<FileReadRequest>, nextId: nat,
                   rest: seq<FileReadEvent>, final: seq<FileReadRequest>, finalId: nat)
    requires queue != [] && fuel > 0
    requires first == RoundEvents(queue, fs)
    requires next == Requests(HandlerPaths(first, handler), lastId + 1)
    requires nextId == lastId + |HandlerPaths(first, handler)|
    requires var later := Rounds(next, nextId, fs, handler, fuel - 1);
             && rest == later.events && final == later.queue && finalId == later.lastId
             && (later.rounds < fuel - 1 ==> final == [])
    ensures var run := Rounds(queue, lastId, fs, handler, fuel);
            && run.events == first + rest && run.queue == final && run.lastId == finalId
            && (run.rounds < fuel ==> final == [])
  {
  }

  /** The desktop renderer context (the fields of `Cx` and `CxDesktop` this
      part of the source reads and writes). */
  class DesktopCx {
    var fileReadId: nat
    var fileReads: seq<FileReadRequest>
    var repaintViaScrollEvent: bool
    var fingers: seq<CxFinger>
    var downMouseCursor: Option<MouseCursor>
    /** Whether some area is queued for redraw (`redraw_child_areas` or
        `redraw_parent_areas` nonempty). */
    var redrawPending: bool

    ghost predicate Valid()
      reads this
    {
      fileReadId >= 1 && IdsIncreasing(fileReads, fileReadId)
    }

    /** `CxDesktop::default()`: read ids start at 1 and nothing is queued. */
    constructor (fingers: seq<CxFinger>)
      ensures Valid()
      ensures fileReadId == 1 && fileReads == [] && !repaintViaScrollEvent
      ensures this.fingers == fingers && downMouseCursor == None && !redrawPending
    {
      fileReadId := 1;
      fileReads := [];
      repaintViaScrollEvent := false;
      this.fingers := fingers;
      downMouseCursor := None;
      redrawPending := false;
    }

    /** Queues a read of `path` under a freshly incremented id and returns an
        equal copy of the queued request. */
    method FileRead(path: string) returns (fr: Events.FileRead)
      requires Valid()
      modifies this`fileReadId, this`fileReads
      ensures Valid() && fresh(fr)
      ensures fileReadId == old(fileReadId) + 1
      ensures fr.path == path && fr.readId == fileReadId && fr.IsPending()
      ensures fileReads == old(fileReads) + [fr.Value()]
      ensures forall i :: 0 <= i < |old(fileReads)| ==> old(fileReads)[i].readId < fr.readId
    {
      FreshIdKeepsIncreasing(fileReads, fileReadId, path);
      fileReadId := fileReadId + 1;
      var readId := fileReadId;
      fr := new Events.FileRead(path, readId);
      fileReads := fileReads + [fr.Value()];
    }

    /** One pass over the queue: the queue is snapshotted and emptied, then
        each request is answered, in order, with one `FileRead` event carrying
        its id; the event handler may queue new reads meanwhile. */
    method DispatchRound(fs: string -> FsOutcome, handler: FileReadEvent -> seq<string>)
      returns (events: seq<FileReadEvent>)
      requires Valid()
      modifies this`fileReadId, this`fileReads
      ensures Valid()
      ensures events == RoundEvents(old(fileReads), fs)
      ensures fileReadId == old(fileReadId) + |HandlerPaths(events, handler)|
      ensures fileReads == Requests(HandlerPaths(events, handler), old(fileReadId) + 1)
    {
      var requests := fileReads;
      fileReads := [];
      events := [];
      var i := 0;
      while i < |requests|
        invariant 0 <= i <= |requests|
        invariant Valid()
        invariant events == RoundEvents(requests[..i], fs)
        invariant fileReadId == old(fileReadId) + |HandlerPaths(events, handler)|
        invariant fileReads == Requests(HandlerPaths(events, handler), old(fileReadId) + 1)
      {
        var req := requests[i];
        var ev := FileReadEvent(req.readId, ReadResult(fs(req.path), req.path));
        var paths := handler(ev);
        ghost var queued := fileReads;
        ghost var nextId := fileReadId + 1;
        QueueReads(paths);
        DispatchStep(requests, i, events, fs, handler, old(fileReadId) + 1, queued, nextId, fileReads);
        events := events + [ev];
        i := i + 1;
      }
      assert requests[..i] == requests;
    }

    /** The reads an event handler issues, one `file_read` per path, in order. */
    method QueueReads(paths: seq<string>)
      requires Valid()
      modifies this`fileReadId, this`fileReads
      ensures Valid()
      ensures fileReadId == old(fileReadId) + |paths|
      ensures fileReads == old(fileReads) + Requests(paths, old(fileReadId) + 1)
    {
      var j := 0;
      while j < |paths|
        invariant 0 <= j <= |paths|
        invariant Valid()
        invariant fileReadId == old(fileReadId) + j
        invariant fileReads == old(fileReads) + Requests(paths[..j], old(fileReadId) + 1)
      {
        var _ := FileRead(paths[j]);
        RequestsAppend(paths[..j], [paths[j]], old(fileReadId) + 1, old(fileReadId) + 1 + j);
        assert paths[..j + 1] == paths[..j] + [paths[j]];
        j := j + 1;
      }
      assert paths[..j] == paths;
    }

    /** `process_desktop_file_reads`: nothing happens on an empty queue;
        otherwise rounds are dispatched while reads keep being queued. The
        source recurses without bound; `fuel` bounds the number of rounds. */
    method ProcessFileReads(fs: string -> FsOutcome, handler: FileReadEvent -> seq<string>, fuel: nat)
      returns (events: seq<FileReadEvent>)
      requires Valid()
      modifies this`fileReadId, this`fileReads
      ensures Valid()
      ensures var r := Rounds(old(fileReads), old(fileReadId), fs, handler, fuel);
              events == r.events && fileReads == r.queue && fileReadId == r.lastId
      ensures Rounds(old(fileReads), old(fileReadId), fs, handler, fuel).rounds < fuel ==> fileReads == []
      ensures fileReadId >= old(fileReadId)
      decreases fuel
    {
      events := [];
      if fileReads == [] || fuel == 0 {
        return;
      }
      ghost var queue, lastId := fileReads, fileReadId;
      var first := DispatchRound(fs, handler);
      ghost var next, nextId := fileReads, fileReadId;
      if fileReads != [] {
        var rest := ProcessFileReads(fs, handler, fuel - 1);
        RoundsStep(queue, lastId, fs, handler, fuel, first, next, nextId, rest, fileReads, fileReadId);
        events := first + rest;
      } else {
        RoundsStep(queue, lastId, fs, handler, fuel, first, next, nextId, [], [], fileReadId);
        events := first;
      }
    }

    /** Bookkeeping before an event is dispatched: a hover forgets the area the
        finger was over, a finger-up drops the cursor set while it was down. */
    method PreEvent(e: Event)
      requires e.FingerHover? ==> e.hover.digit < |fingers|
      modifies this
      ensures e.FingerHover? ==>
                fingers == old(fingers)[e.hover.digit := old(fingers)[e.hover.digit].(overLast := Empty)]
      ensures !e.FingerHover? ==> fingers == old(fingers)
      ensures e.FingerUp? ==> downMouseCursor == None
      ensures !e.FingerUp? ==> downMouseCursor == old(downMouseCursor)
      ensures fileReadId == old(fileReadId) && fileReads == old(fileReads)
      ensures repaintViaScrollEvent == old(repaintViaScrollEvent) && redrawPending == old(redrawPending)
    {
      match e {
        case FingerHover(fe) =>
          fingers := fingers[fe.digit := fingers[fe.digit].(overLast := Empty)];
        case FingerUp(_) =>
          downMouseCursor := None;
        case _ =>
      }
    }

    /** Bookkeeping after an event was dispatched: a finger-up releases the
        capture, a hover remembers the area the finger ended over, and a scroll
        with pending redraws asks for a repaint. Always answers false. */
    method PostEvent(e: Event) returns (r: bool)
      requires e.FingerHover? ==> e.hover.digit < |fingers|
      requires e.FingerUp? ==> e.up.digit < |fingers|
      modifies this
      ensures !r
      ensures e.FingerUp? ==>
                fingers == old(fingers)[e.up.digit := old(fingers)[e.up.digit].(captured := Empty)]
      ensures e.FingerHover? ==>
                var f := old(fingers)[e.hover.digit];
                fingers == old(fingers)[e.hover.digit := f.(prevOverLast := f.overLast)]
      ensures !e.FingerUp? && !e.FingerHover? ==> fingers == old(fingers)
      ensures repaintViaScrollEvent ==
                (old(repaintViaScrollEvent) || (e.FingerScroll? && redrawPending))
      ensures fileReadId == old(fileReadId) && fileReads == old(fileReads)
      ensures downMouseCursor == old(downMouseCursor) && redrawPending == old(redrawPending)
    {
      match e {
        case FingerUp(fe) =>
          fingers := fingers[fe.digit := fingers[fe.digit].(captured := Empty)];
        case FingerHover(fe) =>
          var f := fingers[fe.digit];
          fingers := fingers[fe.digit := f.(prevOverLast := f.overLast)];
        case FingerScroll(_) =>
          if redrawPending {
            repaintViaScrollEvent := true;
          }
        case _ =>
      }
      return false;
    }
  }
}
