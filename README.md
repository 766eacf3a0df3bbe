# charon core, modelled in Dafny

This project models the core of charon, which has two halves.

- **makepad** is a Rust UI framework and code editor. The model covers:
  - the editor's build manager, which tracks cargo builds and the programs they produce through a hub connection;
  - the file tree widget's walker, its saving and loading of open folders, and its folder toggle;
  - the render-pass bookkeeping;
  - the tab control's selection rules;
  - the event helpers for file reads, signals, timers and handled flags;
  - the desktop file-read queue and finger bookkeeping;
  - the five-slot Metal buffer ring and the texture guard checks.
- **orbital** is a set of services that talk through a message broker. The model covers:
  - the broker's registry of services and its fan-out of events and shared frames;
  - the bootstrap that wires services to the broker;
  - the tensor service's frame skipping and downsampling copy;
  - the pixel view's bouncing boxes and frame fill.

Each source file is one Dafny module. Code that updates state in place is a class whose methods are proved against specification functions:
- `BuildManager`, `TextMarkers` and `HubRoute`;
- `Broker`;
- `FileWalker` and `FileTree`;
- `Pass` and `Cx`;
- `TabControl`;
- `DesktopCx`;
- `MetalBuffer` and `CxTexture`;
- `Renderable` and `View`;
- `TensorService`.

Expressions in the source become functions. The properties the source promises are lemmas about those functions:
- the build manager ignores unknown uids and keeps the log bounded when tailing;
- the broker keeps its registry consistent and delivers each event once per subscriber;
- the walker yields the pre-order of the open part of the tree;
- loading what was saved restores the open folders;
- five buffer writes visit every slot;
- one frame in 101 is processed;
- a bouncing box never overflows `i16`.

The receive loops of the broker, tensor and view services are modelled as one method per message, called `Step` or `Receive`. Each send is appended to an outbox sequence.

Shared types live in the `Common` module:
- `Option`;
- `byte` and `u32` as bounded `int` subsets;
- an abstract `F32` for floating-point values that are only copied.

The broker's message vocabulary lives in the `Service` module.

Where the code and its documentation disagree, the model follows the code:
- The build manager's log limit is modelled as written. Callers push their item after the limit, so a "truncated" or "skipping" note is never the last item (`buildmanager.rs:178-179`, `233-234`).
- `exec_when_done` is never cleared after it triggers a run (`buildmanager.rs:214-216`).
- Two broker reads in the source panic on every execution that reaches them (`orbital/broker/src/lib.rs:45` and `122-123`). The model follows what the code evidently intends:
  - Subscribing an unknown sid inserts a placeholder and then subscribes it.
  - Re-announcing a channel keeps the entry's subscriptions.

## Model

| member | source | states |
|---|---|---|
| Events.InputTypeClassification | makepad/render/src/events.rs:21-26 | `has_hovers` holds exactly for Mouse and XR (that is, not for Touch), and each of `is_touch`, `is_mouse` and `is_xr` holds for exactly one variant |
| Events.EmptySignal | makepad/render/src/events.rs:542-552 | the empty signal has id 0 and is empty |
| Events.EmptyTimer | makepad/render/src/events.rs:610-624 | the empty timer is empty and `is_timer` holds exactly for timer events with id 0 |
| Events.CharLength | makepad/render/src/events.rs:590 | the length a UTF-8 lead byte announces is at most 4 and never runs past the input |
| Events.AsciiIsValidUtf8 | makepad/render/src/events.rs:590 | every all-ASCII byte string is valid UTF-8 |
| Events.ValidUtf8ExcludesForbiddenBytes | makepad/render/src/events.rs:590 | valid UTF-8 never contains 0xC0, 0xC1 or a byte of 0xF5 and above (RFC 3629, section 4) |
| Events.FileRead.constructor | makepad/render/src/events.rs:576-579 | a file read holds the path and read id it was made with |
| Events.FileRead.ResolveUtf8 | makepad/render/src/events.rs:586-602 | an event with another read id gives None and leaves the read pending; a matching one clears the id and gives Ok with the bytes exactly when the data is Ok and valid UTF-8, and otherwise an error naming the parse or load failure |
| Events.SetHandled | makepad/render/src/events.rs:627-650 | on FingerHover and FingerDown the flag is set and `handled` then reports it; every other event is unchanged and reports false |
| Events.SetHandledLastWins | makepad/render/src/events.rs:627-650 | a second `set_handled` overrides the first, and setting an event's own flag changes nothing |
| CxDesktop.Requests | makepad/render/src/cx_desktop.rs:40-49 | the requests queued for a list of paths carry consecutive ids in path order |
| CxDesktop.RequestsAppend | makepad/render/src/cx_desktop.rs:40-49 | the requests for two lists of paths queued one after the other are the requests for the joined list: the second list's ids continue where the first's stop |
| CxDesktop.RoundEvents | makepad/render/src/cx_desktop.rs:167-191 | one FileRead event per queued request, in order, carrying that request's id, with the data or error the file system gives for its path |
| CxDesktop.RoundEventsStep | makepad/render/src/cx_desktop.rs:167-191 | answering one more request adds its event after the earlier ones |
| CxDesktop.HandlerPathsSnoc | makepad/render/src/cx_desktop.rs:167-191 | handling one more event adds the reads that handler issues after the earlier ones |
| CxDesktop.DispatchStep | makepad/render/src/cx_desktop.rs:167-191 | one turn of a round keeps the events equal to those of the answered requests and the queue equal to the requests for all the reads the handlers issued, with consecutive ids |
| CxDesktop.FreshIdKeepsIncreasing | makepad/render/src/cx_desktop.rs:41-48 | appending a request with the incremented counter keeps the queue's ids strictly increasing, at least 2 and at most the counter |
| CxDesktop.DesktopCx.constructor | makepad/render/src/cx_desktop.rs:23-32 | the read counter starts at 1, the queue is empty and no repaint is pending |
| CxDesktop.DesktopCx.FileRead | makepad/render/src/cx_desktop.rs:40-50 | the counter goes up by one before use, so the returned read is pending, its id exceeds every queued id, and it is appended to the queue |
| CxDesktop.DesktopCx.DispatchRound | makepad/render/src/cx_desktop.rs:164-191 | the queue is snapshotted and emptied; one event is dispatched per request in order; the reads the handlers issue form the new queue with consecutive fresh ids; only the queue and the counter change |
| CxDesktop.DesktopCx.QueueReads | makepad/render/src/cx_desktop.rs:40-50 | a handler's reads are queued in order under the next consecutive ids and nothing else changes |
| CxDesktop.DesktopCx.ProcessFileReads | makepad/render/src/cx_desktop.rs:159-196 | the events, the queue left and the counter are those of `Rounds` from the old queue and counter: every round answers the whole queue in order and queues the handler's reads under the next ids, until the queue is empty or the fuel is spent; with fuel left the queue ends empty; the counter never goes back; only the queue and the counter change |
| CxDesktop.RoundsStep | makepad/render/src/cx_desktop.rs:159-196 | a run with a queue and fuel is the first round's events followed by the run from the queue that round leaves, under the ids it allocated |
| CxDesktop.RoundsDrain | makepad/render/src/cx_desktop.rs:159-196 | a run stops before its fuel is spent only with an empty queue; ids never go back; an empty queue dispatches nothing; otherwise the first round's events come first |
| CxDesktop.DesktopCx.PreEvent | makepad/render/src/cx_desktop.rs:67-76 | FingerHover resets that finger's `over_last` to Empty, FingerUp clears the captured mouse cursor, and nothing else changes |
| CxDesktop.DesktopCx.PostEvent | makepad/render/src/cx_desktop.rs:104-124 | FingerUp releases that finger's capture, FingerHover copies `over_last` into `_over_last`, a scroll with pending redraws requests a repaint, and the result is always false |
| CxMetal.SlotIndex | makepad/render/src/cx_metal.rs:673-681 | the slot read is one of the five, namely `last_written` itself when it is below 5 |
| CxMetal.NextWritten | makepad/render/src/cx_metal.rs:684 | the next written slot is always one of the five |
| CxMetal.FiveWritesVisitAllSlots | makepad/render/src/cx_metal.rs:684 | five consecutive writes visit all five slots, and the sixth reuses the slot of the first |
| CxMetal.Rewritten | makepad/render/src/cx_metal.rs:695-722 | after an update `used == len <= size`; a slot with a buffer at least `len` long keeps its buffer and size; any other slot is reallocated with size `len` |
| CxMetal.RewriteGrowsOnly | makepad/render/src/cx_metal.rs:696-707 | with allocation succeeding, a slot's size becomes the larger of its old size and `len` and never shrinks |
| CxMetal.MetalBuffer.constructor | makepad/render/src/cx_metal.rs:662-670 | every slot starts empty and `last_written` is 0 |
| CxMetal.MetalBuffer.MultiBufferRead | makepad/render/src/cx_metal.rs:673-681 | returns the slot at `SlotIndex(last_written)` |
| CxMetal.MetalBuffer.MultiBufferWrite | makepad/render/src/cx_metal.rs:683-692 | `last_written` advances modulo 5 and that slot is returned, so a following read returns it |
| CxMetal.MetalBuffer.SetSlot | makepad/render/src/cx_metal.rs:665-669 | exactly slot `k` is replaced |
| CxMetal.MetalBuffer.UpdateWithLen | makepad/render/src/cx_metal.rs:694-723 | the ring advances, only the newly written slot changes (as `Rewritten`), and a read then sees `used == len <= size` |
| CxMetal.MetalBuffer.UpdateWithF32Data | makepad/render/src/cx_metal.rs:694-723 | as UpdateWithLen with the data's length |
| CxMetal.MetalBuffer.UpdateWithU32Data | makepad/render/src/cx_metal.rs:725-753 | as UpdateWithLen with the data's length |
| CxMetal.CxTexture.UpdatePlatformTextureImage2d | makepad/render/src/cx_metal.rs:481-552 | without width and height nothing changes; a changed descriptor reallocates (BGRA formats only); a wrong image size drops the texture and leaves `update_image` set; a successful upload clears it |
| Broker.Placeholder | orbital/broker/src/lib.rs:46-54 | the placeholder for an unknown sid has that sid, no subscriptions and a discarding sender |
| Broker.SubscribeReg | orbital/broker/src/lib.rs:43-57 | the sid gains the topic (a placeholder is inserted first for an unknown sid); no other entry changes |
| Broker.UnsubscribeReg | orbital/broker/src/lib.rs:59-62 | the topic leaves that sid's set (a no-op if absent); keys and other entries are unchanged |
| Broker.ChannelReg | orbital/broker/src/lib.rs:110-131 | the sid's entry gets the name and sender, keeps its earlier subscriptions (or none if new), and no other entry changes |
| Broker.StepRegistry | orbital/broker/src/lib.rs:40-131 | Share and Event leave the registry unchanged |
| Broker.StepKeepsKeysMatch | orbital/broker/src/lib.rs:53-130 | every step keeps each entry filed under its own sid |
| Broker.SubscribeThenUnsubscribe | orbital/broker/src/lib.rs:43-62 | subscribing a registered sid to a new topic and unsubscribing it again restores the registry |
| Broker.ChannelKeepsSubscriptions | orbital/broker/src/lib.rs:120-131 | a subscription survives a later channel announcement, whether the sid was known or not |
| Broker.EventRecipients | orbital/broker/src/lib.rs:77-84 | an event goes exactly to the visited sids that subscribe to its topic |
| Broker.EventRecipientsOnce | orbital/broker/src/lib.rs:77-84 | when no sid repeats in the visit order, each subscriber receives the event exactly once and every other sid never |
| Broker.EventReachesEverySubscriberOnce | orbital/broker/src/lib.rs:77-84 | over a full iteration of the registry, every subscriber of the topic receives exactly one copy and nobody else receives any |
| Broker.EventDeliveries | orbital/broker/src/lib.rs:79-81 | one delivery per recipient, in order, on that recipient's channel, carrying the event unchanged |
| Broker.FirstDisplay | orbital/broker/src/lib.rs:65-75 | the shared frame goes to a "/display" subscriber in the order, the first one when the order starts with one, and to nobody exactly when there is none |
| Broker.FirstDisplayFrom | orbital/broker/src/lib.rs:65-75 | the search from position i stops at a subscriber there or continues at i + 1 |
| Broker.Broker.FindDisplay | orbital/broker/src/lib.rs:65-75 | the loop over the order finds exactly the subscriber `FirstDisplay` names |
| Broker.AnyDisplaySubscriberCanReceive | orbital/broker/src/lib.rs:65-75 | because map order is unspecified, every "/display" subscriber is the recipient for some iteration order |
| Broker.Listing | orbital/broker/src/lib.rs:66-78 | every finite registry has an iteration order that lists each key once |
| Broker.StepSends | orbital/broker/src/lib.rs:40-131 | only Share and Event send, and a Share sends at most once |
| Broker.Broker.constructor | orbital/broker/src/lib.rs:39 | the registry starts empty and nothing has been sent |
| Broker.Broker.Subscribe | orbital/broker/src/lib.rs:43-57 | the registry becomes `SubscribeReg` of the old one, sends nothing and keeps keys matching |
| Broker.Broker.Unsubscribe | orbital/broker/src/lib.rs:59-62 | the registry becomes `UnsubscribeReg` of the old one and nothing is sent |
| Broker.Broker.Channel | orbital/broker/src/lib.rs:110-131 | the registry becomes `ChannelReg` of the old one and nothing is sent |
| Broker.Broker.Share | orbital/broker/src/lib.rs:65-75 | appends to the outbox the single send `StepSends` prescribes: the first "/display" subscriber in the order, or nothing |
| Broker.Broker.Event | orbital/broker/src/lib.rs:77-84 | appends one send per subscriber of the topic, in iteration order, even where a send fails |
| Broker.Broker.Step | orbital/broker/src/lib.rs:40-131 | one loop iteration updates the registry as `StepRegistry` and appends `StepSends` to the outbox |
| Broker.Announcements | orbital/broker/src/lib.rs:198-203 | the i-th later service is announced as `Channel(sid, its name, its port)` |
| Broker.SentToBroker | orbital/broker/src/lib.rs:195-204 | the messages a list of actions sends to the broker, at most one per action, in order |
| Broker.Bootstrap | orbital/broker/src/lib.rs:189-206 | the broker starts first as "broker" with sid 0; each later service is announced to the broker before it starts; the broker receives exactly the announcements |
| Broker.SentToBrokerSnoc | orbital/broker/src/lib.rs:189-206 | one more action adds its message to those sent to the broker exactly when it is a send |
| Broker.AnnouncementsPrefix | orbital/broker/src/lib.rs:189-206 | the announcements of the first i services are those of the first i - 1 followed by service i's |
| Broker.BootedStep | orbital/broker/src/lib.rs:189-206 | handling one more builder appends its announcement and then its start, and keeps all earlier actions |
| Broker.BootstrapRegistersEveryService | orbital/broker/src/lib.rs:189-206 | with distinct sids, once the broker has processed the announcements, every later service is registered under its sid with its name, its port and no subscriptions |
| Broker.AnnouncementsRegister | orbital/broker/src/lib.rs:110-119 | processing a suffix of the announcements registers each announced sid as announced |
| Broker.RegistrationSurvives | orbital/broker/src/lib.rs:110-131 | announcements for other sids leave an existing entry unchanged |
| Tensor.SourceIndex | orbital/tensor/src/lib.rs:75-77 | every source index read lies inside the 921600-pixel shared frame |
| Tensor.Downsampled | orbital/tensor/src/lib.rs:75-82 | the copy has 640·360 bytes, each the low byte of its source pixel |
| Tensor.DownsampledPixel | orbital/tensor/src/lib.rs:75-81 | `buffer[y*640+x]` is the low byte of `src[y*2560+2*x]`, the write index is below 230400 and the read index is at most 920318 |
| Tensor.OneFrameIn101 | orbital/tensor/src/lib.rs:53-69 | from any counter value in range, the number of Share messages processed among n is `(n + count) / 101`: exactly one in every 101 |
| Tensor.TensorService.constructor | orbital/tensor/src/lib.rs:37-53 | the buffer starts zeroed, the counter at 0 and the outbox empty |
| Tensor.TensorService.CopyFrame | orbital/tensor/src/lib.rs:75-82 | the buffer becomes the downsampled frame |
| Tensor.TensorService.Step | orbital/tensor/src/lib.rs:55-101 | an Event sends exactly one "/view" reply; a Share advances the counter and copies the frame only when the counter passes 100; any other message changes nothing |
| ViewPixels.AsI16 | orbital/viewpixels/src/lib.rs:193-194 | a pixel coordinate within the `i16` range is kept exactly |
| ViewPixels.Spawned | orbital/viewpixels/src/lib.rs:113-119 | a new renderable starts at (24, 16) with velocity (1, 1), from where the bounce stays in range |
| ViewPixels.Updated | orbital/viewpixels/src/lib.rs:176-186 | a velocity is negated exactly when its box touches or passes an edge, and the position then moves by the resulting velocity |
| ViewPixels.UpdateKeepsReachable | orbital/viewpixels/src/lib.rs:176-186 | from a reachable state, `update` keeps x in [0, 257] and y in [0, 177] with velocities ±1, so there is no `i16` overflow |
| ViewPixels.UpdatedTimes | orbital/viewpixels/src/lib.rs:176-186 | any number of updates keeps a spawned box reachable and its kind unchanged |
| ViewPixels.PixelColour | orbital/viewpixels/src/lib.rs:191-217 | kind 0 paints every pixel the background colour, kind 1 paints exactly the pixels inside its box the box colour, and any other kind paints nothing |
| ViewPixels.DrawnBytes | orbital/viewpixels/src/lib.rs:191-217 | drawing rewrites exactly the whole 4-byte pixels that are painted and leaves all other bytes, including a trailing partial pixel, unchanged |
| ViewPixels.BoxCoversItsSquare | orbital/viewpixels/src/lib.rs:193-201 | a kind-1 pixel is painted iff its column and row lie in `[box, box+64)` |
| ViewPixels.DrawFacts | orbital/viewpixels/src/lib.rs:196-216 | a background fill is idempotent and other kinds leave the frame untouched |
| ViewPixels.Renderable.Update | orbital/viewpixels/src/lib.rs:176-186 | the state becomes `Updated` of the old one |
| ViewPixels.Renderable.Draw | orbital/viewpixels/src/lib.rs:191-219 | the frame becomes `Drawn` of the old frame |
| ViewPixels.DrawnAll | orbital/viewpixels/src/lib.rs:135-142 | drawing the objects in order keeps the frame length |
| ViewPixels.DrawnAllSnoc | orbital/viewpixels/src/lib.rs:135-142 | drawing one more object draws it over the frame the earlier objects left |
| ViewPixels.View.States | orbital/viewpixels/src/lib.rs:49 | one state per object |
| ViewPixels.View.constructor | orbital/viewpixels/src/lib.rs:49-58 | the view starts with a single background renderable |
| ViewPixels.View.Receive | orbital/viewpixels/src/lib.rs:106-130 | an Event with data "cube" appends a new kind-1 renderable; anything else leaves the objects unchanged |
| ViewPixels.View.Redraw | orbital/viewpixels/src/lib.rs:133-142 | each object in order is drawn with its old state and then updated |
| Pass.DefaultCxPass | makepad/render/src/pass.rs:202-222 | a default pass has no textures, no dependency, no main view, no dpi override, is clean and has ortho matrix mode |
| Pass.Placing | makepad/render/src/pass.rs:22-46 | main pass of the top window exactly when that window has none; otherwise a sub-pass of the top of the pass stack when the stack is non-empty; otherwise standalone |
| Pass.Pass.BeginPass | makepad/render/src/pass.rs:10-55 | an id is reused if present, else popped from the free list, else a new default pass is appended; the window, parent-pass or standalone placement is applied; the main view is cleared and the colour textures emptied; every other field of the pass (debug flag, matrix mode, depth texture, clear depth, dirtiness, and the dpi override except when standalone) keeps its value; no other pass changes; the id is pushed on the pass stack and the window stack is untouched |
| Pass.Pass.Allocate | makepad/render/src/pass.rs:12-20 | an existing id is kept; otherwise the last free id is popped, or a default pass is appended and its index taken |
| Pass.Pass.Place | makepad/render/src/pass.rs:22-51 | as `Placing` says: the main pass of the top window depends on that window, takes its inner size and is recorded as the window's main pass; a sub-pass depends on the top of the pass stack and takes its size; a standalone pass has no dependency and a dpi override of 1.0; the dpi factor follows; no other pass changes |
| Pass.Pass.EndPass | makepad/render/src/pass.rs:120-125 | pops one entry of the pass stack, none if empty, and takes the delegated dpi only when a pass remains |
| Pass.Pass.MakeDepOfPass | makepad/render/src/pass.rs:64-72 | the dependency becomes the other pass, or none when the other pass has no id; nothing else changes |
| Pass.Pass.AddColorTexture | makepad/render/src/pass.rs:88-95 | appends one colour texture with its clear colour to the handle's pass; no other field and no other pass changes |
| Pass.Pass.SetDepthTexture | makepad/render/src/pass.rs:97-102 | sets the handle's pass's depth texture and clear depth; no other field and no other pass changes |
| Pass.Pass.SetMatrixMode | makepad/render/src/pass.rs:104-110 | stores the mode and marks the pass dirty; a pass without an id changes nothing |
| Pass.BeginAddEnd | makepad/render/src/pass.rs:10-125 | a balanced begin/end restores the pass stack, and the added colour textures are the pass's textures in call order |
| TabControl.NextSelection | makepad/widget/src/tabcontrol.rs:113-123 | the last tab's successor is its predecessor (itself when it is tab 0); any other tab's is the next one |
| TabControl.NextSelectionStaysAmongDrawnTabs | makepad/widget/src/tabcontrol.rs:111-126 | the next selection is a drawn tab and differs from the closing tab unless it is the only one |
| TabControl.Contribution | makepad/widget/src/tabcontrol.rs:90-134 | each tab event maps to its control event; a closing tab contributes a selection only when it is selected and the next selection differs |
| TabControl.LastEventIsLastContribution | makepad/widget/src/tabcontrol.rs:84-135 | the result is an event exactly when some tab contributes one, and then it is the contribution of the last such tab |
| TabControl.Find | makepad/widget/src/tabcontrol.rs:200-201 | finds the position of the tab with the id, or reports that there is none |
| TabControl.LastSelected | makepad/widget/src/tabcontrol.rs:202-204 | the index of the last selected entry, or none when no entry is selected |
| TabControl.TabControl.constructor | makepad/widget/src/tabcontrol.rs:37-70 | no tabs, no drag, allocation at 0, nothing selected, not focused |
| TabControl.TabControl.HandleTabControl | makepad/widget/src/tabcontrol.rs:83-152 | returns the last tab contribution (`LastEvent`); a selection focuses the control and deselects the other tabs; a close clears the tabs; other results change no tab |
| TabControl.LastEventStep | makepad/widget/src/tabcontrol.rs:84-135 | one more tab in the loop replaces the result by its contribution when it has one and sets or clears the drag state on a drag event |
| TabControl.TabControl.CollectTabEvents | makepad/widget/src/tabcontrol.rs:84-135 | the loop's result is the last tab's event and the drag state follows the drag events |
| TabControl.TabControl.DeselectOtherTabs | makepad/widget/src/tabcontrol.rs:137-145 | the tabs become `DeselectOthers` of the old tabs |
| TabControl.TabControl.SetTabControlFocus | makepad/widget/src/tabcontrol.rs:168-173 | the control and every tab take the focus value; nothing else changes |
| TabControl.TabControl.BeginTabs | makepad/widget/src/tabcontrol.rs:186-197 | on success the allocation restarts at 0 and nothing is selected; on failure nothing changes |
| TabControl.TabControl.GetDrawTab | makepad/widget/src/tabcontrol.rs:199-215 | returns the next consecutive id; a selected draw records it as now selected; a new tab is appended with the selection and the control's focus, and an existing one takes the caption and selection |
| TabControl.TabControl.EndTabs | makepad/widget/src/tabcontrol.rs:240-249 | the last selection becomes the current one |
| TabControl.DrawFrame | makepad/widget/src/tabcontrol.rs:186-249 | a frame drawing n tabs assigns ids 0..n-1, and the current and last selection both become the last tab drawn as selected |
| FileTree.OpenFoldersAreWalked | makepad/makepad/app/src/filetree.rs:765-809 | open folders are walked into; closing folders are walked into but are not open; files are neither |
| FileTree.Toggled | makepad/makepad/app/src/filetree.rs:334-348 | Open becomes Closing(1), Closed becomes Opening(1), and an animation reverses from where it is |
| FileTree.ToggleTwice | makepad/makepad/app/src/filetree.rs:334-348 | two clicks restore an animation; each click flips whether the folder is open |
| FileTree.Subtree | makepad/makepad/app/src/filetree.rs:765-809 | a node's visits start with the node itself |
| FileTree.SubtreeShape | makepad/makepad/app/src/filetree.rs:774-788 | every visit below a node has index < len, a depth that counts its ancestors and a path ending in its own name |
| FileTree.ChildrenShape | makepad/makepad/app/src/filetree.rs:774-788 | the same for the visits of a folder's children |
| FileTree.PreOrderShape | makepad/makepad/app/src/filetree.rs:765-809 | the root is never yielded; every yielded node has depth at least 1, index < len and a path from the root's name down to its own |
| FileTree.ClosedFolderHidesChildren | makepad/makepad/app/src/filetree.rs:780-790 | a Closed folder is yielded but its children are not |
| FileTree.UnnamedRootPath | makepad/makepad/app/src/filetree.rs:742-754 | under an unnamed root, the current path is the names from depth 1 down joined by "/" |
| FileTree.PushKeepsPending | makepad/makepad/app/src/filetree.rs:781-790 | pushing the next child keeps the visits still to come, keeps the stack linked and makes progress |
| FileTree.PushPending | makepad/makepad/app/src/filetree.rs:781-790 | pushing the next child keeps the visits still to come |
| FileTree.PushWellFormed | makepad/makepad/app/src/filetree.rs:781-790 | after a push each frame is the child its parent pushed last, the frame below the top has started, and the progress measure drops |
| FileTree.PopKeepsPending | makepad/makepad/app/src/filetree.rs:792-806 | popping a finished frame keeps the visits still to come |
| FileTree.YieldTakesFirst | makepad/makepad/app/src/filetree.rs:770-777 | yielding a fresh frame consumes exactly the first pending visit |
| FileTree.FileWalker.constructor | makepad/makepad/app/src/filetree.rs:738-740 | a new walker's pending visits are the pre-order of the tree |
| FileTree.FileWalker.CurrentPath | makepad/makepad/app/src/filetree.rs:742-754 | joins the stack's names |
| FileTree.FileWalker.YieldTop | makepad/makepad/app/src/filetree.rs:770-777 | returns the first pending visit and drops it |
| FileTree.FileWalker.PushChild | makepad/makepad/app/src/filetree.rs:781-790 | pending visits unchanged, progress made |
| FileTree.FileWalker.PopTop | makepad/makepad/app/src/filetree.rs:792-806 | pending visits unchanged, progress made |
| FileTree.FileWalker.Walk | makepad/makepad/app/src/filetree.rs:756-809 | yields the next pre-order visit (never the root, nothing inside a Closed folder); the stack then holds its path and `current_closing` reports whether an ancestor is closing; an exhausted walk returns None |
| FileTree.GetMarkedPaths | makepad/makepad/app/src/filetree.rs:283-294 | the paths of the marked nodes, in walk order |
| FileTree.MarkedPathsSnoc | makepad/makepad/app/src/filetree.rs:283-294 | one more visit adds its path exactly when its node is marked |
| FileTree.MoveFirst | makepad/makepad/app/src/filetree.rs:283-294 | taking the next pending visit keeps visited plus pending equal to the whole walk |
| FileTree.Loaded | makepad/makepad/app/src/filetree.rs:257-280 | loading keeps every node's kind, name, drawing and child count |
| FileTree.SaveWalk | makepad/makepad/app/src/filetree.rs:240-252 | appends to the list the path of every folder that is open and reached through open folders, in pre-order |
| FileTree.LoadWalk | makepad/makepad/app/src/filetree.rs:259-277 | the root and every listed folder reached through opened parents become Open; other reached folders become Closed; nodes under them are untouched |
| FileTree.FileTree.ClearRoots | makepad/makepad/app/src/filetree.rs:223-236 | the tree becomes an unnamed open root with one empty open folder per name |
| FileTree.FileTree.SaveOpenFolders | makepad/makepad/app/src/filetree.rs:238-255 | returns `SaveOpen` of the root from the unnamed base |
| FileTree.FileTree.LoadOpenFolders | makepad/makepad/app/src/filetree.rs:257-280 | the root becomes `Loaded` from the list, forced open at depth 0 |
| FileTree.ClearedRootsSave | makepad/makepad/app/src/filetree.rs:223-255 | saving right after `clear_roots` lists "" and then each name |
| FileTree.FolderPathsSplit | makepad/makepad/app/src/filetree.rs:238-280 | the reached folder paths are exactly the saved paths plus the paths of the reached folders that are not open |
| FileTree.SavedKidIn | makepad/makepad/app/src/filetree.rs:240-252 | a path saved below a child is among its parent's saved paths |
| FileTree.ShutKidIn | makepad/makepad/app/src/filetree.rs:259-277 | a reached folder that is not open below a child is among its parent's |
| FileTree.AgreesFromPaths | makepad/makepad/app/src/filetree.rs:259-277 | a list holding every saved path and none of the other reached folders decides every reached folder correctly |
| FileTree.AgreeingLoadNormalizes | makepad/makepad/app/src/filetree.rs:259-277 | loading from such a list opens exactly the folders that were open |
| FileTree.AgreeingKidsNormalize | makepad/makepad/app/src/filetree.rs:268-273 | the same for a folder's children |
| FileTree.SaveLoadRoundTrip | makepad/makepad/app/src/filetree.rs:238-280 | for an open root whose folder paths are distinct, loading what was saved leaves each reached folder Open iff it was open, and Closed otherwise |
| BuildManager.LevelOf | makepad/makepad/app/src/buildmanager.rs:181-189 | errors map to the error level, warnings to the warning level, and panics and messages to the log level |
| BuildManager.Failed | makepad/makepad/app/src/buildmanager.rs:199-206 | no entry still builds the uid; matching entries lose only the build uid; others are unchanged |
| BuildManager.Ended | makepad/makepad/app/src/buildmanager.rs:207-213 | matching entries lose the build uid and record the result; others are unchanged |
| BuildManager.Stopped | makepad/makepad/app/src/buildmanager.rs:219-227 | matching entries lose only the run uid; others are unchanged |
| BuildManager.EndedLeavesOtherBuilds | makepad/makepad/app/src/buildmanager.rs:207-216 | after a build ends or fails, a cargo build is running iff an entry building another uid exists |
| BuildManager.RunEntry | makepad/makepad/app/src/buildmanager.rs:280-303 | an executable entry takes the next uid as its run uid; any other entry is unchanged and sends nothing |
| BuildManager.RunAll | makepad/makepad/app/src/buildmanager.rs:278-305 | non-executable entries are unchanged; executable ones get fresh, strictly increasing run uids from the route's counter, one per executable |
| BuildManager.RunAllUnfold | makepad/makepad/app/src/buildmanager.rs:279-304 | running a prefix and then one more entry is running the longer prefix |
| BuildManager.RunAllStep | makepad/makepad/app/src/buildmanager.rs:279-304 | one turn of the loop over the active builds keeps the processed prefix equal to the run of that prefix and the rest untouched |
| BuildManager.RunAllUsesFreshUids | makepad/makepad/app/src/buildmanager.rs:278-305 | every new run uid was tracked by nobody before, and all tracked uids stay below the counter |
| BuildManager.RunAllSends | makepad/makepad/app/src/buildmanager.rs:284-302 | every message sent is either the ProgramRun of an executable entry with that entry's new run uid, its path and no arguments, or the ProgramKill of a program an entry was running |
| BuildManager.ExplainedByPrefix | makepad/makepad/app/src/buildmanager.rs:284-302 | a send explained by the first entries stays explained once the later entries are added |
| BuildManager.KillSendsOnlyTracked | makepad/makepad/app/src/buildmanager.rs:328-348 | a restart kills only the build uids and run uids of the old entries |
| BuildManager.EntryKillsSent | makepad/makepad/app/src/buildmanager.rs:328-348 | each entry's kills are among a restart's kills |
| BuildManager.KillSendsAllTracked | makepad/makepad/app/src/buildmanager.rs:328-348 | a restart sends a BuildKill for every outstanding build uid and a ProgramKill for every outstanding run uid |
| BuildManager.KillSendsStep | makepad/makepad/app/src/buildmanager.rs:328-348 | one more entry adds its kills after the earlier ones |
| BuildManager.KillsAppended | makepad/makepad/app/src/buildmanager.rs:330-347 | sending the build kill, if any, and then the program kill, if any, appends exactly the entry's kills |
| BuildManager.FreshBuilds | makepad/makepad/app/src/buildmanager.rs:353-370 | one new entry per target |
| BuildManager.BuildSends | makepad/makepad/app/src/buildmanager.rs:355-368 | one Build send per target |
| BuildManager.RestartTracksNewBuilds | makepad/makepad/app/src/buildmanager.rs:353-370 | after a restart the tracked uids are exactly the new build uids; no artifact runs; a build runs iff a target exists |
| BuildManager.AddedLog | makepad/makepad/app/src/buildmanager.rs:146-160 | the caller's item always ends up last in the log |
| BuildManager.TailingLogStaysBounded | makepad/makepad/app/src/buildmanager.rs:146-157 | with tail on, below the limit only the item is appended; at the limit the log is cut to 500000 items plus the note and the item, keeping its first 500000 items |
| BuildManager.UntailedLogGrowsWithoutBound | makepad/makepad/app/src/buildmanager.rs:153-157 | as written, with tail off and more than 700001 items, n more items grow the log by 2n |
| BuildManager.CorrectedLogStaysBounded | makepad/makepad/app/src/buildmanager.rs:146-160 | with the corrected limit the log never exceeds 700001 items, and a full untailed log stays unchanged |
| BuildManager.InsertPos | makepad/makepad/app/src/buildmanager.rs:104-121 | the insertion index follows every entry with an equal or smaller head and precedes every larger one |
| BuildManager.Insert | makepad/makepad/app/src/buildmanager.rs:113-125 | the element lands at the index and the rest of the sequence is kept on both sides |
| BuildManager.InsertKeepsSorted | makepad/makepad/app/src/buildmanager.rs:104-125 | inserting at that index keeps the markers sorted by head, after every marker with an equal head |
| BuildManager.TextMarkers.Clear | makepad/makepad/app/src/buildmanager.rs:52-56 | both lists are emptied |
| BuildManager.ScanInsertPos | makepad/makepad/app/src/buildmanager.rs:104-121 | the backward scan finds `InsertPos`, or reports the end when the marker goes last |
| BuildManager.ProcessLocMessage | makepad/makepad/app/src/buildmanager.rs:91-144 | the mutation id is refreshed; with a range and at most 100000 markers, the cursor and body are inserted at the same sorted index; otherwise both lists are unchanged |
| BuildManager.ClearTextbufferMessages | makepad/makepad/app/src/buildmanager.rs:47-59 | every buffer's message cursors and bodies are emptied and its mutation id is kept |
| BuildManager.HubRoute.AllocUid | makepad/makepad/app/src/buildmanager.rs:285 | each uid is new: the counter advances by one |
| BuildManager.HubRoute.Send | makepad/makepad/app/src/buildmanager.rs:286-302 | appends the message to what was sent |
| BuildManager.BuildManager.constructor | makepad/makepad/app/src/buildmanager.rs:19-29 | no builds, no log, tail on, nothing deferred |
| BuildManager.BuildManager.IsRunningUid | makepad/makepad/app/src/buildmanager.rs:61-71 | true iff some entry's build uid or run uid is the uid |
| BuildManager.BuildManager.IsAnyCargoRunning | makepad/makepad/app/src/buildmanager.rs:73-80 | true iff some entry has a build uid |
| BuildManager.BuildManager.IsAnyArtifactRunning | makepad/makepad/app/src/buildmanager.rs:82-89 | true iff some entry has a run uid |
| BuildManager.BuildManager.HandleLogItemLimit | makepad/makepad/app/src/buildmanager.rs:146-160 | the log becomes `LimitedLog` and a signal is raised only with a skipping note |
| BuildManager.BuildManager.AddLogMessage | makepad/makepad/app/src/buildmanager.rs:232-236 | the limit runs, then the message is pushed, then a new-log-item signal is raised |
| BuildManager.BuildManager.ClearBuildUid | makepad/makepad/app/src/buildmanager.rs:200-204 | the builds become `Failed` |
| BuildManager.BuildManager.EndBuilds | makepad/makepad/app/src/buildmanager.rs:208-213 | the builds become `Ended` |
| BuildManager.BuildManager.ClearRunUid | makepad/makepad/app/src/buildmanager.rs:220-224 | the builds become `Stopped` |
| BuildManager.BuildManager.RunArtifact | makepad/makepad/app/src/buildmanager.rs:280-303 | entry i becomes as `RunEntry` prescribes, and the sends are appended |
| BuildManager.BuildManager.RunAllArtifacts | makepad/makepad/app/src/buildmanager.rs:278-305 | the builds, sends and uid counter become those of `RunAll` |
| BuildManager.BuildManager.ArtifactRun | makepad/makepad/app/src/buildmanager.rs:307-314 | while a build is running, only `exec_when_done` is set and nothing is sent; otherwise every artifact is run at once |
| BuildManager.BuildManager.KillAll | makepad/makepad/app/src/buildmanager.rs:328-348 | sends each entry's BuildKill and then ProgramKill, in order |
| BuildManager.BuildManager.StartAll | makepad/makepad/app/src/buildmanager.rs:353-370 | the builds become one fresh entry per target with a Build send each |
| BuildManager.BuildManager.RestartBuild | makepad/makepad/app/src/buildmanager.rs:316-371 | off the desktop nothing changes; otherwise the old uids are killed, the markers, log and artifacts cleared, `exec_when_done` copied from the settings and the targets rebuilt |
| BuildManager.BuildManager.OnLogItem | makepad/makepad/app/src/buildmanager.rs:176-193 | the item is added through the limit and signalled; an item without a location leaves the markers alone; a located one sets the mutation id and inserts its cursor and body as `MarkedCursors` and `MarkedBodies` say |
| BuildManager.BuildManager.OnCargoEnd | makepad/makepad/app/src/buildmanager.rs:207-218 | the build ends; when no other build runs and `exec_when_done` holds, all artifacts run; `exec_when_done` is never cleared |
| BuildManager.BuildManager.HandleHubMsg | makepad/makepad/app/src/buildmanager.rs:162-230 | an `Ignored` message (a uid no build runs under, a variant without an arm, the builder list off the desktop) changes nothing, sends nothing and touches no buffer; every other arm states its whole new state: CargoBegin signals, LogItem logs and marks, CargoArtifact records, BuildFailure and ProgramEnd clear the uid, CargoEnd ends the build and runs everything when asked, the builder list restarts the builds; only the builder list touches other buffers and only LogItem touches the markers |

## Left out

- I/O: real file reads (a file-system function `fs` stands in), windowing, `pixels` rendering and input handling in the view service, font loading and HTTP in the desktop layer.
- GPU and Objective-C calls: Metal allocation is an `alloc` parameter (`None` for a failed allocation), and buffer and texture contents are not copied.
- Floating point: dpi factors, clear colours and pass uniforms are opaque `F32` values, and the file tree's animation factors are exact reals, so the rounding of `1.0 - fac` is not modelled.
- Threads, channels and locks: each receive loop is one method per message, and a send is an outbox entry; a send to a disconnected receiver is still recorded.
- Random sids and `alloc_uid`: sids are parameters, and uids come from a counter in `HubRoute`, so they are fresh by construction.
- `HashMap` iteration order in the broker is an `order` parameter listing every key once.
- The face detector in the tensor service is not part of this model; only the copy that feeds it is.
- Pass.Pass.MakeDepOfPass: requires the pass to have an id, because the source panics on `unwrap` of a pass without one (`makepad/render/src/pass.rs:65`); that panic path is excluded by the requires.
- Pass.Pass.AddColorTexture: requires the pass to have an id, because the source panics through `expect` otherwise (`makepad/render/src/pass.rs:89`); that panic path is excluded by the requires.
- Pass.Pass.SetDepthTexture: requires the pass to have an id, because the source panics through `expect` otherwise (`makepad/render/src/pass.rs:98`); that panic path is excluded by the requires.
- Broker.Bootstrap: requires at least one service name, because the source indexes the first service unconditionally (`orbital/broker/src/lib.rs:195`); that panic path is excluded by the requires.
- BuildManager.BuildManager.RunAllArtifacts: takes a `HubRoute`, so the hub connection always exists; the source panics on `unwrap` of a missing one (`makepad/makepad/app/src/buildmanager.rs:279`), and that panic path is excluded by the parameter.
- BuildManager.BuildManager.RestartBuild: takes a `HubRoute`, so the hub connection always exists; the source panics on `unwrap` of a missing one (`makepad/makepad/app/src/buildmanager.rs:326`), and that panic path is excluded by the parameter.
- Broker.UnsubscribeReg: requires the sid to be registered, because the source panics on an unknown sid (`orbital/broker/src/lib.rs:61`).
- Broker.SubscribeReg and Broker.ChannelReg model the intended behaviour, not the panicking reads at `orbital/broker/src/lib.rs:45` and `122-123`.
- Counters (`file_read_id`, uids, `_tab_id_alloc`, the tensor counter) are unbounded; `u64` wrap-around is not modelled.
- TabControl.NextSelection: requires `_tab_id_alloc >= 1` when a selected tab closes, where the source would underflow.
- `Tab` and `Elements` internals are reduced to a `{id, selected, focus}` record per tab; drawing, scrolling and drag views are not modelled.
- CxDesktop.DesktopCx.PreEvent: tap counting, key handling and `AppFocusLost` are not modelled.
- CxDesktop.DesktopCx.ProcessFileReads: the recursion is bounded by a `fuel` parameter; when the fuel is spent the queue may still hold requests that the source would go on dispatching.
- Pass: `set_size`, `override_dpi_factor`, `set_window_clear_color`, `set_debug`, `redraw_pass_area` and `get_delegated_dpi_factor` (an `F32` parameter) are not modelled.
- FileTree.FileWalker.Walk yields node values; mutation through the yielded `&mut FileNode` is not modelled.
- FileTree.SaveLoadRoundTrip: requires the reached folder paths to be distinct rather than the sibling names, because an empty or "/"-containing name can make two folders share a path.
- FileTree.JoinPath glues the root name to the first child's name with no "/"; only the unnamed root, the case the editor uses, is proved to give "/"-joined paths.
- Drawing, hit testing, animation and the rest of `handle_file_tree` beyond the folder toggle are not modelled.
- BuildManager: these are parameters:
  - the text-buffer lookup `text_buffer_from_path` and path remapping (the `markers` argument);
  - the buffer's mutation id;
  - the list of all buffers;
  - the platform check;
  - the settings.
- BuildManager: the `status_message_update` signal of text buffers and the search index are not modelled.
- BuildManager: `handle_live_recompile_event` is not modelled.
- BuildManager: the hub message types are partial, since only the variants this core reads are modelled.
- The class keeps the log limit as written; see Findings.

## Findings

| source | as written | input that shows it | evidently intended | confidence | as-written member | corrected member |
|---|---|---|---|---|---|---|
| makepad/makepad/app/src/buildmanager.rs:153-157, 178-179, 232-236 | with tail off and a log longer than 700000, the limit appends a "skipping" note and then the caller appends the item anyway, except at exactly 700001 items | a log of 700002 items with tail off: each further log item adds two entries, so the log grows without bound | once the log is full and not tailing, further items are skipped and the log stays at its cap | not executed | BuildManager.UntailedLogGrowsWithoutBound | BuildManager.CorrectedLogStaysBounded |
