/** Render-pass bookkeeping: a `Pass` handle owns, once begun, an index into
    the context's list of `CxPass` records. Indices are recycled through a
    free list; the passes being drawn form a stack; the first pass begun in a
    window becomes its main pass, and every pass records which window or pass
    it renders for (`dep_of`). Sizes and dpi factors are floats: they are
    copied around as opaque values. */
module Pass {
  import opened Common

  datatype Vec2 = Vec2(x: F32, y: F32)

  /** What a pass renders for. */
  datatype CxPassDepOf = Window(windowId: nat) | Pass(passId: nat) | NoDep

  datatype PassMatrixMode = Ortho | Projection(params: seq<F32>)

  datatype ClearColor = InitWith(colour: seq<F32>) | ClearWith(colour: seq<F32>)
  datatype ClearDepth = InitWithDepth(depth: F32) | ClearWithDepth(depth: F32)

  datatype CxPassColorTexture = CxPassColorTexture(textureId: nat, clearColor: ClearColor)

  /** The modelled fields of a `CxPass`. */
  datatype CxPass = CxPass(
    debug: bool,
    matrixMode: PassMatrixMode,
    colorTextures: seq<CxPassColorTexture>,
    depthTexture: Option<nat>,
    clearDepth: ClearDepth,
    overrideDpiFactor: Option<F32>,
    mainViewId: Option<nat>,
    depOf: CxPassDepOf,
    paintDirty: bool,
    passSize: Vec2)

  /** `CxPass::default()`. */
  function DefaultCxPass(): (p: CxPass)
    ensures p.colorTextures == [] && p.depthTexture == None && p.depOf == NoDep
    ensures p.mainViewId == None && p.overrideDpiFactor == None && !p.paintDirty && p.matrixMode == Ortho
  {
    CxPass(false, Ortho, [], None, ClearWithDepth(F32_ONE), None, None, NoDep, false, Vec2(F32(0), F32(0)))
  }

  datatype CxWindow = CxWindow(mainPassId: Option<nat>, innerSize: Vec2)

  /** How `begin_pass` picks the pass's dependency, given the window stack,
      the windows and the pass stack before the push. */
  datatype Placement = MainOf(windowId: nat) | SubOf(parent: nat) | Standalone

  function Placing(windowStack: seq<nat>, windows: seq<CxWindow>, passStack: seq<nat>): (p: Placement)
    requires forall k :: 0 <= k < |windowStack| ==> windowStack[k] < |windows|
    ensures p.MainOf? <==> |windowStack| > 0 && windows[windowStack[|windowStack| - 1]].mainPassId.None?
    ensures p.MainOf? ==> p.windowId == windowStack[|windowStack| - 1]
    ensures p.SubOf? <==> |windowStack| > 0 && windows[windowStack[|windowStack| - 1]].mainPassId.Some? && |passStack| > 0
    ensures p.SubOf? ==> p.parent == passStack[|passStack| - 1]
    ensures p.Standalone? <==> |windowStack| == 0 || (windows[windowStack[|windowStack| - 1]].mainPassId.Some? && |passStack| == 0)
  {
    if |windowStack| > 0 then
      var w := windowStack[|windowStack| - 1];
      if windows[w].mainPassId.None? then MainOf(w)
      else if |passStack| > 0 then SubOf(passStack[|passStack| - 1])
      else Standalone
    else Standalone
  }

  class Cx {
    var passes: seq<CxPass>
    var passesFree: seq<nat>
    var passStack: seq<nat>
    var windowStack: seq<nat>
    var windows: seq<CxWindow>
    var currentDpiFactor: F32

    /** Every index the context holds names an existing pass or window. */
    ghost predicate Valid()
      reads this
    {
      && (forall k :: 0 <= k < |passesFree| ==> passesFree[k] < |passes|)
      && (forall k :: 0 <= k < |passStack| ==> passStack[k] < |passes|)
      && (forall k :: 0 <= k < |windowStack| ==> windowStack[k] < |windows|)
    }
  }

  class Pass {
    var passId: Option<nat>

    constructor ()
      ensures passId == None
    {
      passId := None;
    }

    /** The handle's pass exists in `cx`. */
    ghost predicate BelongsTo(cx: Cx)
      reads this, cx
    {
      passId.Some? ==> passId.value < |cx.passes|
    }

    /** Starts the pass. A handle without an index takes the last free index,
        or a new default pass when none is free. The pass then becomes the
        main pass of the top window if it has none (dependency on the window,
        size the window's inner size), or else a sub-pass of the pass on top
        of the stack (size copied from it), or else a standalone pass with a
        dpi override of 1. Its main view and colour textures are reset and
        its index is pushed on the pass stack. `delegated` is the dpi factor
        the context's delegation rule yields. */
    method BeginPass(cx: Cx, delegated: F32)
      requires cx.Valid() && BelongsTo(cx)
      modifies this, cx
      ensures cx.Valid() && BelongsTo(cx) && passId.Some?
      ensures old(passId).Some? ==> passId == old(passId) && cx.passesFree == old(cx.passesFree) && |cx.passes| == old(|cx.passes|)
      ensures old(passId).None? && |old(cx.passesFree)| > 0 ==>
                passId == Some(old(cx.passesFree)[|old(cx.passesFree)| - 1]) &&
                cx.passesFree == old(cx.passesFree)[..|old(cx.passesFree)| - 1] && |cx.passes| == old(|cx.passes|)
      ensures old(passId).None? && |old(cx.passesFree)| == 0 ==>
                passId == Some(old(|cx.passes|)) && cx.passesFree == [] && |cx.passes| == old(|cx.passes|) + 1
      ensures var id := passId.value;
              var before := if id < old(|cx.passes|) then old(cx.passes)[id] else DefaultCxPass();
              var placing := Placing(old(cx.windowStack), old(cx.windows), old(cx.passStack));
              && (forall k :: 0 <= k < |cx.passes| && k != id ==> cx.passes[k] == old(cx.passes)[k])
              && (placing.MainOf? ==>
                    cx.passes[id] == before.(depOf := Window(placing.windowId),
                                             passSize := old(cx.windows)[placing.windowId].innerSize,
                                             mainViewId := None, colorTextures := []) &&
                    cx.windows == old(cx.windows)[placing.windowId := old(cx.windows)[placing.windowId].(mainPassId := Some(id))] &&
                    cx.currentDpiFactor == delegated)
              && (placing.SubOf? ==>
                    cx.passes[id] == before.(depOf := Pass(placing.parent),
                                             passSize := old(cx.passes)[placing.parent].passSize,
                                             mainViewId := None, colorTextures := []) &&
                    cx.windows == old(cx.windows) && cx.currentDpiFactor == delegated)
              && (placing.Standalone? ==>
                    cx.passes[id] == before.(depOf := NoDep, overrideDpiFactor := Some(F32_ONE),
                                             mainViewId := None, colorTextures := []) &&
                    cx.windows == old(cx.windows) && cx.currentDpiFactor == F32_ONE)
      ensures cx.passStack == old(cx.passStack) + [passId.value]
      ensures cx.windowStack == old(cx.windowStack)
    {
      Allocate(cx);
      var id := passId.value;
      Place(cx, id, delegated);
      cx.passes := cx.passes[id := cx.passes[id].(mainViewId := None, colorTextures := [])];
      cx.passStack := cx.passStack + [id];
    }

    /** The index part of `begin_pass`. */
    method Allocate(cx: Cx)
      requires cx.Valid() && BelongsTo(cx)
      modifies this, cx`passes, cx`passesFree
      ensures cx.Valid() && BelongsTo(cx) && passId.Some?
      ensures old(passId).Some? ==> passId == old(passId) && cx.passesFree == old(cx.passesFree) && cx.passes == old(cx.passes)
      ensures old(passId).None? && |old(cx.passesFree)| > 0 ==>
                passId == Some(old(cx.passesFree)[|old(cx.passesFree)| - 1]) &&
                cx.passesFree == old(cx.passesFree)[..|old(cx.passesFree)| - 1] && cx.passes == old(cx.passes)
      ensures old(passId).None? && |old(cx.passesFree)| == 0 ==>
                passId == Some(old(|cx.passes|)) && cx.passesFree == [] && cx.passes == old(cx.passes) + [DefaultCxPass()]
    {
      if passId.None? {
        if |cx.passesFree| != 0 {
          var id := cx.passesFree[|cx.passesFree| - 1];
          cx.passesFree := cx.passesFree[..|cx.passesFree| - 1];
          passId := Some(id);
        } else {
          cx.passes := cx.passes + [DefaultCxPass()];
          passId := Some(|cx.passes| - 1);
        }
      }
    }

    /** The dependency part of `begin_pass`, for pass `id`. */
    method Place(cx: Cx, id: nat, delegated: F32)
      requires cx.Valid() && id < |cx.passes|
      modifies cx`passes, cx`windows, cx`currentDpiFactor
      ensures cx.Valid() && |cx.passes| == |old(cx.passes)|
      ensures var before := old(cx.passes)[id];
              var placing := Placing(cx.windowStack, old(cx.windows), cx.passStack);
              && (forall k :: 0 <= k < |cx.passes| && k != id ==> cx.passes[k] == old(cx.passes)[k])
              && (placing.MainOf? ==>
                    cx.passes[id] == before.(depOf := Window(placing.windowId), passSize := old(cx.windows)[placing.windowId].innerSize) &&
                    cx.windows == old(cx.windows)[placing.windowId := old(cx.windows)[placing.windowId].(mainPassId := Some(id))] &&
                    cx.currentDpiFactor == delegated)
              && (placing.SubOf? ==>
                    cx.passes[id] == before.(depOf := Pass(placing.parent), passSize := old(cx.passes)[placing.parent].passSize) &&
                    cx.windows == old(cx.windows) && cx.currentDpiFactor == delegated)
              && (placing.Standalone? ==>
                    cx.passes[id] == before.(depOf := NoDep, overrideDpiFactor := Some(F32_ONE)) &&
                    cx.windows == old(cx.windows) && cx.currentDpiFactor == F32_ONE)
    {
      if |cx.windowStack| > 0 {
        var w := cx.windowStack[|cx.windowStack| - 1];
        if cx.windows[w].mainPassId.None? {
          cx.windows := cx.windows[w := cx.windows[w].(mainPassId := Some(id))];
          cx.passes := cx.passes[id := cx.passes[id].(depOf := Window(w), passSize := cx.windows[w].innerSize)];
          cx.currentDpiFactor := delegated;
        } else if |cx.passStack| > 0 {
          var parent := cx.passStack[|cx.passStack| - 1];
          cx.passes := cx.passes[id := cx.passes[id].(depOf := Pass(parent), passSize := cx.passes[parent].passSize)];
          cx.currentDpiFactor := delegated;
        } else {
          cx.passes := cx.passes[id := cx.passes[id].(depOf := NoDep, overrideDpiFactor := Some(F32_ONE))];
          cx.currentDpiFactor := F32_ONE;
        }
      } else {
        cx.passes := cx.passes[id := cx.passes[id].(depOf := NoDep, overrideDpiFactor := Some(F32_ONE))];
        cx.currentDpiFactor := F32_ONE;
      }
    }

    /** Ends the pass on top of the stack (popping an empty stack does
        nothing); the dpi factor follows the new top, if any. */
    method EndPass(cx: Cx, delegated: F32)
      requires cx.Valid()
      modifies cx`passStack, cx`currentDpiFactor
      ensures cx.Valid()
      ensures |old(cx.passStack)| > 0 ==> cx.passStack == old(cx.passStack)[..|old(cx.passStack)| - 1]
      ensures |old(cx.passStack)| == 0 ==> cx.passStack == []
      ensures cx.currentDpiFactor == if |cx.passStack| > 0 then delegated else old(cx.currentDpiFactor)
    {
      if |cx.passStack| > 0 {
        cx.passStack := cx.passStack[..|cx.passStack| - 1];
      }
      if |cx.passStack| > 0 {
        cx.currentDpiFactor := delegated;
      }
    }

    /** Makes this pass render for `other`'s pass, or for nothing when
        `other` has not been begun. This pass must have been begun. */
    method MakeDepOfPass(cx: Cx, other: Pass)
      requires passId.Some? && BelongsTo(cx)
      modifies cx`passes
      ensures |cx.passes| == |old(cx.passes)|
      ensures cx.passes == old(cx.passes)[passId.value :=
                old(cx.passes)[passId.value].(depOf := if other.passId.Some? then Pass(other.passId.value) else NoDep)]
    {
      var id := passId.value;
      if other.passId.Some? {
        cx.passes := cx.passes[id := cx.passes[id].(depOf := Pass(other.passId.value))];
      } else {
        cx.passes := cx.passes[id := cx.passes[id].(depOf := NoDep)];
      }
    }

    /** Appends a colour target; the targets keep the order of the calls. */
    method AddColorTexture(cx: Cx, textureId: nat, clearColor: ClearColor)
      requires passId.Some? && BelongsTo(cx)
      modifies cx`passes
      ensures |cx.passes| == |old(cx.passes)|
      ensures cx.passes == old(cx.passes)[passId.value := old(cx.passes)[passId.value].(
                colorTextures := old(cx.passes)[passId.value].colorTextures + [CxPassColorTexture(textureId, clearColor)])]
    {
      var id := passId.value;
      var p := cx.passes[id];
      cx.passes := cx.passes[id := p.(colorTextures := p.colorTextures + [CxPassColorTexture(textureId, clearColor)])];
    }

    method SetDepthTexture(cx: Cx, textureId: nat, clearDepth: ClearDepth)
      requires passId.Some? && BelongsTo(cx)
      modifies cx`passes
      ensures |cx.passes| == |old(cx.passes)|
      ensures cx.passes == old(cx.passes)[passId.value := old(cx.passes)[passId.value].(
                depthTexture := Some(textureId), clearDepth := clearDepth)]
    {
      var id := passId.value;
      cx.passes := cx.passes[id := cx.passes[id].(depthTexture := Some(textureId), clearDepth := clearDepth)];
    }

    /** Stores the matrix mode and marks the pass for repainting; a pass that
        has not been begun is left alone. */
    method SetMatrixMode(cx: Cx, mode: PassMatrixMode)
      requires BelongsTo(cx)
      modifies cx`passes
      ensures passId.None? ==> cx.passes == old(cx.passes)
      ensures passId.Some? ==> cx.passes == old(cx.passes)[passId.value :=
                old(cx.passes)[passId.value].(paintDirty := true, matrixMode := mode)]
    {
      if passId.Some? {
        var id := passId.value;
        cx.passes := cx.passes[id := cx.passes[id].(paintDirty := true, matrixMode := mode)];
      }
    }
  }

  /** A begun pass followed by its end leaves the pass stack as it was, and
      colour textures added in between are kept in call order. */
  method BeginAddEnd(pass: Pass, cx: Cx, delegated: F32, textures: seq<nat>, clear: ClearColor)
    requires cx.Valid() && pass.BelongsTo(cx)
    modifies pass, cx
    ensures cx.Valid() && pass.passId.Some? && pass.passId.value < |cx.passes|
    ensures cx.passStack == old(cx.passStack)
    ensures |cx.passes[pass.passId.value].colorTextures| == |textures|
    ensures forall k :: 0 <= k < |textures| ==>
              cx.passes[pass.passId.value].colorTextures[k] == CxPassColorTexture(textures[k], clear)
  {
    pass.BeginPass(cx, delegated);
    for k := 0 to |textures|
      invariant cx.Valid() && pass.passId.Some? && pass.BelongsTo(cx)
      invariant cx.passStack == old(cx.passStack) + [pass.passId.value]
      invariant |cx.passes[pass.passId.value].colorTextures| == k
      invariant forall j :: 0 <= j < k ==> cx.passes[pass.passId.value].colorTextures[j] == CxPassColorTexture(textures[j], clear)
    {
      pass.AddColorTexture(cx, textures[k], clear);
    }
    pass.EndPass(cx, delegated);
    assert (old(cx.passStack) + [pass.passId.value])[..|old(cx.passStack)|] == old(cx.passStack);
  }
}
