/** The tab control widget's bookkeeping: which tab is selected, the ids
    handed out while drawing, the tab being dragged, and the event the
    control reports after its tabs handled an input event. Each tab is
    reduced to its label and its selected and focus flags; what a tab makes
    of an input event (`handle_tab`) is a parameter. */
module TabControl {
  import opened Common
  import opened Events

  datatype TabState = TabState(text: string, selected: bool, focus: bool)

  /** A tab in the control's element list, under its id. */
  datatype TabEntry = TabEntry(id: nat, tab: TabState)

  /** What a tab reports after handling an input event. */
  datatype TabEvent = TabNone | Select | DragMove(move: FingerMoveEvent) | DragEnd(up: FingerUpEvent) | Closing | Close

  datatype TabControlEvent =
    | NoEvent
    | TabDragMove(move: FingerMoveEvent, tabId: nat)
    | TabDragEnd(up: FingerUpEvent, tabId: nat)
    | TabSelect(tabId: nat)
    | TabClose(tabId: nat)

  /** The tab to select when the selected tab `id` is closing: the previous
      one when `id` is the last id handed out (or `id` itself when it is the
      only one), otherwise the next one. The source computes
      `tab_id_alloc - 1`, so `alloc` must be positive. */
  function NextSelection(id: nat, alloc: nat): (next: nat)
    requires alloc >= 1
    ensures id == alloc - 1 && id > 0 ==> next == id - 1
    ensures id == alloc - 1 && id == 0 ==> next == id
    ensures id != alloc - 1 ==> next == id + 1
  {
    if id == alloc - 1 then (if id > 0 then id - 1 else id) else id + 1
  }

  /** For a tab drawn this frame, the next selection is another drawn tab,
      unless it is the only one. */
  lemma {:induction false} NextSelectionStaysAmongDrawnTabs(id: nat, alloc: nat)
    requires id < alloc
    ensures NextSelection(id, alloc) < alloc
    ensures NextSelection(id, alloc) == id <==> alloc == 1
  {
  }

  /** Does tab `e` closing require the allocation counter to be positive? */
  predicate NeedsAlloc(e: TabEntry, ev: TabEvent)
  {
    ev.Closing? && e.tab.selected
  }

  /** The event tab `e` contributes to the control's result, if any. A
      closing tab contributes only when it is selected and the next
      selection differs from it. */
  function Contribution(e: TabEntry, ev: TabEvent, alloc: nat): (r: Option<TabControlEvent>)
    requires NeedsAlloc(e, ev) ==> alloc >= 1
    ensures ev.Select? ==> r == Some(TabSelect(e.id))
    ensures ev.DragMove? ==> r == Some(TabDragMove(ev.move, e.id))
    ensures ev.DragEnd? ==> r == Some(TabDragEnd(ev.up, e.id))
    ensures ev.Close? ==> r == Some(TabClose(e.id))
    ensures ev.TabNone? ==> r == None
    ensures r.Some? ==> r.value != NoEvent
    ensures ev.Closing? ==>
              (r.Some? <==> e.tab.selected && NextSelection(e.id, alloc) != e.id) &&
              (r.Some? ==> r.value == TabSelect(NextSelection(e.id, alloc)))
  {
    match ev
    case Select => Some(TabSelect(e.id))
    case DragMove(fe) => Some(TabDragMove(fe, e.id))
    case DragEnd(fe) => Some(TabDragEnd(fe, e.id))
    case Closing =>
      if e.tab.selected then
        var next := NextSelection(e.id, alloc);
        if e.id != next then Some(TabSelect(next)) else None
      else None
    case Close => Some(TabClose(e.id))
    case TabNone => None
  }

  ghost predicate EventsFit(tabs: seq<TabEntry>, evs: seq<TabEvent>, alloc: nat)
  {
    |evs| == |tabs| && forall k :: 0 <= k < |tabs| ==> (NeedsAlloc(tabs[k], evs[k]) ==> alloc >= 1)
  }

  /** The event the loop over the tabs ends with: the contribution of the
      last tab that contributes one, or none. */
  function LastEvent(tabs: seq<TabEntry>, evs: seq<TabEvent>, alloc: nat): TabControlEvent
    requires EventsFit(tabs, evs, alloc)
    decreases |tabs|
  {
    if |tabs| == 0 then NoEvent
    else
      var n := |tabs| - 1;
      assert EventsFit(tabs[..n], evs[..n], alloc) by {
        assert forall k :: 0 <= k < n ==> tabs[..n][k] == tabs[k] && evs[..n][k] == evs[k];
      }
      match Contribution(tabs[n], evs[n], alloc)
      case Some(e) => e
      case None => LastEvent(tabs[..n], evs[..n], alloc)
  }

  /** The control reports an event exactly when some tab contributes one,
      and then it is the contribution of the last such tab. */
  lemma {:induction false} LastEventIsLastContribution(tabs: seq<TabEntry>, evs: seq<TabEvent>, alloc: nat)
    requires EventsFit(tabs, evs, alloc)
    ensures var r := LastEvent(tabs, evs, alloc);
            r != NoEvent <==> exists k :: 0 <= k < |tabs| && Contribution(tabs[k], evs[k], alloc).Some?
    ensures var r := LastEvent(tabs, evs, alloc);
            r != NoEvent ==> exists k :: 0 <= k < |tabs| && Contribution(tabs[k], evs[k], alloc) == Some(r) &&
                                         forall j :: k < j < |tabs| ==> Contribution(tabs[j], evs[j], alloc).None?
    decreases |tabs|
  {
    if |tabs| > 0 {
      var n := |tabs| - 1;
      var r := LastEvent(tabs, evs, alloc);
      var c := Contribution(tabs[n], evs[n], alloc);
      assert EventsFit(tabs[..n], evs[..n], alloc) by {
        assert forall k :: 0 <= k < n ==> tabs[..n][k] == tabs[k] && evs[..n][k] == evs[k];
      }
      if c.Some? {
        assert r == c.value;
      } else {
        assert r == LastEvent(tabs[..n], evs[..n], alloc);
        LastEventIsLastContribution(tabs[..n], evs[..n], alloc);
        if r != NoEvent {
          var k :| 0 <= k < n && Contribution(tabs[..n][k], evs[..n][k], alloc) == Some(r) &&
                   forall j :: k < j < n ==> Contribution(tabs[..n][j], evs[..n][j], alloc).None?;
          assert tabs[..n][k] == tabs[k] && evs[..n][k] == evs[k];
          forall j | k < j < |tabs|
            ensures Contribution(tabs[j], evs[j], alloc).None?
          {
            if j < n {
              assert tabs[..n][j] == tabs[j] && evs[..n][j] == evs[j];
            }
          }
        } else {
          forall k | 0 <= k < |tabs|
            ensures Contribution(tabs[k], evs[k], alloc).None?
          {
            if k < n {
              assert tabs[..n][k] == tabs[k] && evs[..n][k] == evs[k];
            }
          }
        }
      }
    }
  }

  /** One turn of the loop over the tabs: the prefix grows by tab `k`. */
  lemma {:induction false} LastEventStep(tabs: seq<TabEntry>, evs: seq<TabEvent>, alloc: nat, k: nat,
                                         dragging: Option<(FingerMoveEvent, nat)>)
    requires EventsFit(tabs, evs, alloc) && k < |tabs|
    ensures EventsFit(tabs[..k], evs[..k], alloc) && EventsFit(tabs[..k + 1], evs[..k + 1], alloc)
    ensures LastEvent(tabs[..k + 1], evs[..k + 1], alloc) ==
            match Contribution(tabs[k], evs[k], alloc)
            case Some(e) => e
            case None => LastEvent(tabs[..k], evs[..k], alloc)
    ensures DragAfter(tabs[..k + 1], evs[..k + 1], dragging) ==
            match evs[k]
            case DragMove(fe) => Some((fe, tabs[k].id))
            case DragEnd(_) => None
            case _ => DragAfter(tabs[..k], evs[..k], dragging)
  {
    assert tabs[..k + 1][..k] == tabs[..k] && evs[..k + 1][..k] == evs[..k];
    assert forall j :: 0 <= j < k + 1 ==> tabs[..k + 1][j] == tabs[j] && evs[..k + 1][j] == evs[j];
  }

  /** The dragged tab after the loop: the last drag move or drag end
      decides; without either it is unchanged. */
  function DragAfter(tabs: seq<TabEntry>, evs: seq<TabEvent>, dragging: Option<(FingerMoveEvent, nat)>): Option<(FingerMoveEvent, nat)>
    requires |evs| == |tabs|
    decreases |tabs|
  {
    if |tabs| == 0 then dragging
    else
      var n := |tabs| - 1;
      match evs[n]
      case DragMove(fe) => Some((fe, tabs[n].id))
      case DragEnd(_) => None
      case _ => DragAfter(tabs[..n], evs[..n], dragging)
  }

  /** Every tab other than `keep` is deselected and focused. */
  function DeselectOthers(tabs: seq<TabEntry>, keep: nat): seq<TabEntry>
  {
    seq(|tabs|, k requires 0 <= k < |tabs| =>
      if tabs[k].id == keep then tabs[k] else TabEntry(tabs[k].id, tabs[k].tab.(selected := false, focus := true)))
  }

  /** The position of tab `id` in the element list, if it is there. */
  function Find(tabs: seq<TabEntry>, id: nat): (r: Option<nat>)
    ensures r.Some? ==> r.value < |tabs| && tabs[r.value].id == id
    ensures r.None? ==> forall k :: 0 <= k < |tabs| ==> tabs[k].id != id
    decreases |tabs|
  {
    if |tabs| == 0 then None
    else if tabs[|tabs| - 1].id == id then Some(|tabs| - 1)
    else Find(tabs[..|tabs| - 1], id)
  }

  /** The id of the last tab drawn selected, if any. */
  function LastSelected(selected: seq<bool>): (r: Option<nat>)
    ensures r.Some? ==> r.value < |selected| && selected[r.value] &&
                        forall j :: r.value < j < |selected| ==> !selected[j]
    ensures r.None? ==> forall j :: 0 <= j < |selected| ==> !selected[j]
    decreases |selected|
  {
    if |selected| == 0 then None
    else if selected[|selected| - 1] then Some(|selected| - 1)
    else LastSelected(selected[..|selected| - 1])
  }

  class TabControl {
    var tabs: seq<TabEntry>
    var draggingTab: Option<(FingerMoveEvent, nat)>
    var tabIdAlloc: nat
    var tabNowSelected: Option<nat>
    var tabLastSelected: Option<nat>
    var focussed: bool

    /** No two entries of the element list share an id. */
    ghost predicate Valid()
      reads this
    {
      forall a, b :: 0 <= a < b < |tabs| ==> tabs[a].id != tabs[b].id
    }

    constructor ()
      ensures Valid() && tabs == [] && draggingTab == None && tabIdAlloc == 0
      ensures tabNowSelected == None && tabLastSelected == None && !focussed
    {
      tabs := [];
      draggingTab := None;
      tabIdAlloc := 0;
      tabNowSelected := None;
      tabLastSelected := None;
      focussed := false;
    }

    /** Collects the tabs' reports (`tabEvents[k]` is what the k-th tab made
        of the input event) into one control event: the last tab's report
        wins. A selection then deselects and focuses every other tab and
        focuses the control; a close request clears the tabs. */
    method HandleTabControl(tabEvents: seq<TabEvent>) returns (r: TabControlEvent)
      requires Valid() && EventsFit(tabs, tabEvents, tabIdAlloc)
      modifies this
      ensures Valid()
      ensures r == LastEvent(old(tabs), tabEvents, old(tabIdAlloc))
      ensures draggingTab == DragAfter(old(tabs), tabEvents, old(draggingTab))
      ensures r.TabSelect? ==> focussed && tabs == DeselectOthers(old(tabs), r.tabId)
      ensures r.TabClose? ==> tabs == [] && focussed == old(focussed)
      ensures !r.TabSelect? && !r.TabClose? ==> tabs == old(tabs) && focussed == old(focussed)
      ensures tabIdAlloc == old(tabIdAlloc) && tabNowSelected == old(tabNowSelected)
      ensures tabLastSelected == old(tabLastSelected)
    {
      r := CollectTabEvents(tabEvents);
      if r.TabSelect? {
        focussed := true;
        DeselectOtherTabs(r.tabId);
      } else if r.TabClose? {
        tabs := [];
      }
    }

    /** The loop over the tabs of `handle_tab_control`. */
    method CollectTabEvents(tabEvents: seq<TabEvent>) returns (r: TabControlEvent)
      requires EventsFit(tabs, tabEvents, tabIdAlloc)
      modifies this`draggingTab
      ensures r == LastEvent(tabs, tabEvents, tabIdAlloc)
      ensures draggingTab == DragAfter(tabs, tabEvents, old(draggingTab))
    {
      r := NoEvent;
      assert tabs[..0] == [] && tabEvents[..0] == [];
      for k := 0 to |tabs|
        invariant EventsFit(tabs[..k], tabEvents[..k], tabIdAlloc)
        invariant r == LastEvent(tabs[..k], tabEvents[..k], tabIdAlloc)
        invariant draggingTab == DragAfter(tabs[..k], tabEvents[..k], old(draggingTab))
      {
        LastEventStep(tabs, tabEvents, tabIdAlloc, k, old(draggingTab));
        var id := tabs[k].id;
        match tabEvents[k] {
          case Select =>
            r := TabSelect(id);
          case DragMove(fe) =>
            draggingTab := Some((fe, id));
            r := TabDragMove(fe, id);
          case DragEnd(fe) =>
            draggingTab := None;
            r := TabDragEnd(fe, id);
          case Closing =>
            if tabs[k].tab.selected {
              var nextSel := if id == tabIdAlloc - 1 then (if id > 0 then id - 1 else id) else id + 1;
              if id != nextSel {
                r := TabSelect(nextSel);
              }
            }
          case Close =>
            r := TabClose(id);
          case TabNone =>
        }
      }
      assert tabs[..|tabs|] == tabs && tabEvents[..|tabs|] == tabEvents;
    }

    /** Deselects and focuses every tab other than `keep`. */
    method DeselectOtherTabs(keep: nat)
      requires Valid()
      modifies this`tabs
      ensures Valid() && tabs == DeselectOthers(old(tabs), keep)
    {
      var updated := [];
      for k := 0 to |tabs|
        invariant updated == DeselectOthers(tabs[..k], keep)
      {
        var e := tabs[k];
        if keep != e.id {
          e := TabEntry(e.id, e.tab.(selected := false, focus := true));
        }
        updated := updated + [e];
      }
      assert tabs[..|tabs|] == tabs;
      tabs := updated;
    }

    /** Focuses or unfocuses the control and every tab. */
    method SetTabControlFocus(focus: bool)
      requires Valid()
      modifies this
      ensures Valid() && focussed == focus && |tabs| == |old(tabs)|
      ensures forall k :: 0 <= k < |tabs| ==>
                tabs[k] == TabEntry(old(tabs)[k].id, old(tabs)[k].tab.(focus := focus))
      ensures draggingTab == old(draggingTab) && tabIdAlloc == old(tabIdAlloc)
      ensures tabNowSelected == old(tabNowSelected) && tabLastSelected == old(tabLastSelected)
    {
      focussed := focus;
      var k := 0;
      while k < |tabs|
        invariant 0 <= k <= |tabs| && |tabs| == |old(tabs)| && focussed == focus
        invariant draggingTab == old(draggingTab) && tabIdAlloc == old(tabIdAlloc)
        invariant tabNowSelected == old(tabNowSelected) && tabLastSelected == old(tabLastSelected)
        invariant forall j :: 0 <= j < |tabs| ==>
                    tabs[j] == if j < k then TabEntry(old(tabs)[j].id, old(tabs)[j].tab.(focus := focus)) else old(tabs)[j]
      {
        tabs := tabs[k := TabEntry(tabs[k].id, tabs[k].tab.(focus := focus))];
        k := k + 1;
      }
    }

    /** Starts drawing the tabs; `viewBegun` is whether the tab strip's view
        could begin (it cannot when it needs no redraw). On success the id
        counter and this frame's selection are reset. */
    method BeginTabs(viewBegun: bool) returns (ok: bool)
      modifies this
      ensures ok == viewBegun
      ensures ok ==> tabNowSelected == None && tabIdAlloc == 0
      ensures !ok ==> tabNowSelected == old(tabNowSelected) && tabIdAlloc == old(tabIdAlloc)
      ensures tabs == old(tabs) && tabLastSelected == old(tabLastSelected) && focussed == old(focussed)
      ensures draggingTab == old(draggingTab)
    {
      if !viewBegun {
        return false;
      }
      tabNowSelected := None;
      tabIdAlloc := 0;
      return true;
    }

    /** Draws the next tab: it gets the next id, becomes this frame's
        selection when drawn selected, and takes the label. A tab new to the
        control takes the selection and the control's focus; an existing one
        only the selection. Returns the id. */
    method GetDrawTab(caption: string, selected: bool) returns (id: nat)
      requires Valid()
      modifies this
      ensures Valid()
      ensures id == old(tabIdAlloc) && tabIdAlloc == id + 1
      ensures tabNowSelected == if selected then Some(id) else old(tabNowSelected)
      ensures Find(old(tabs), id).None? ==>
                tabs == old(tabs) + [TabEntry(id, TabState(caption, selected, focussed))]
      ensures Find(old(tabs), id).Some? ==>
                var k := Find(old(tabs), id).value;
                tabs == old(tabs)[k := TabEntry(id, old(tabs)[k].tab.(text := caption, selected := selected))]
      ensures focussed == old(focussed) && tabLastSelected == old(tabLastSelected) && draggingTab == old(draggingTab)
    {
      id := tabIdAlloc;
      var found := Find(tabs, id);
      if selected {
        tabNowSelected := Some(id);
      }
      tabIdAlloc := tabIdAlloc + 1;
      match found {
        case None =>
          tabs := tabs + [TabEntry(id, TabState(caption, selected, focussed))];
        case Some(k) =>
          tabs := tabs[k := TabEntry(id, tabs[k].tab.(text := caption, selected := selected))];
      }
    }

    /** Finishes drawing: a change of selection since the last frame is
        remembered (the source also scrolls the newly selected tab into
        view). */
    method EndTabs()
      modifies this`tabLastSelected
      ensures tabLastSelected == tabNowSelected
    {
      if tabNowSelected != tabLastSelected {
        tabLastSelected := tabNowSelected;
      }
    }
  }

  /** A frame that draws tabs: begin, one `get_draw_tab` per caption, end. The
      tabs get the ids 0, 1, 2, … in drawing order, and the selection
      remembered is the last tab drawn selected. */
  method DrawFrame(c: TabControl, captions: seq<string>, selected: seq<bool>) returns (ids: seq<nat>)
    requires c.Valid() && |captions| == |selected|
    modifies c
    ensures c.Valid()
    ensures ids == seq(|captions|, k => k)
    ensures c.tabIdAlloc == |captions|
    ensures c.tabNowSelected == LastSelected(selected) && c.tabLastSelected == LastSelected(selected)
  {
    var ok := c.BeginTabs(true);
    ids := [];
    for k := 0 to |captions|
      invariant c.Valid() && c.tabIdAlloc == k
      invariant ids == seq(k, j => j)
      invariant c.tabNowSelected == LastSelected(selected[..k])
    {
      var id := c.GetDrawTab(captions[k], selected[k]);
      assert selected[..k + 1][..k] == selected[..k];
      ids := ids + [id];
    }
    assert selected[..|captions|] == selected;
    c.EndTabs();
  }
}
