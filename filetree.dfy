/** The file tree widget's data: a tree of files and folders, each folder
    open, closed or animating between the two. An explicit-stack walker
    visits the tree in pre-order without descending into closed folders;
    the open folders can be saved as a list of paths and restored from one;
    a click toggles a folder's state. Animation factors are exact reals
    here; drawing, hit testing and animation are not modelled. */
module FileTree {
  import opened Common

  datatype NodeState = Open | Opening(fac: real) | Closing(fac: real) | Closed

  /** The drawing record of a node; only the `marked` event id is modelled. */
  datatype NodeDraw = NodeDraw(marked: nat)

  datatype FileNode =
    | File(name: string, draw: Option<NodeDraw>)
    | Folder(name: string, draw: Option<NodeDraw>, state: NodeState, folder: seq<FileNode>)

  /** `is_open`: a folder that is open or opening. Files are never open. */
  predicate IsOpen(n: FileNode)
  {
    n.Folder? && (n.state.Open? || n.state.Opening?)
  }

  /** Does the walker enter this node's children? Every folder that is not
      `Closed` — a closing folder is still walked, but is not open. */
  predicate Descends(n: FileNode)
  {
    n.Folder? && !n.state.Closed?
  }

  lemma OpenFoldersAreWalked(n: FileNode)
    ensures IsOpen(n) ==> Descends(n)
    ensures n.Folder? && n.state.Closing? ==> Descends(n) && !IsOpen(n)
    ensures n.File? ==> !IsOpen(n) && !Descends(n)
  {
  }

  // ---------------------------------------------------------------------
  // The folder toggle
  // ---------------------------------------------------------------------

  /** A click on a folder: an open or opening folder starts closing, a closed
      or closing one starts opening, and an animation in progress reverses
      from where it is. */
  function Toggled(s: NodeState): (t: NodeState)
    ensures t.Opening? <==> s.Closed? || s.Closing?
    ensures t.Closing? <==> s.Open? || s.Opening?
    ensures s.Open? ==> t == Closing(1.0)
    ensures s.Closed? ==> t == Opening(1.0)
    ensures s.Opening? ==> t == Closing(1.0 - s.fac)
    ensures s.Closing? ==> t == Opening(1.0 - s.fac)
  {
    match s
    case Opening(fac) => Closing(1.0 - fac)
    case Closing(fac) => Opening(1.0 - fac)
    case Open => Closing(1.0)
    case Closed => Opening(1.0)
  }

  /** Two clicks during an animation restore it; two clicks on a resting
      folder leave it animating back at factor 0. */
  lemma {:induction false} ToggleTwice(s: NodeState)
    ensures s.Opening? || s.Closing? ==> Toggled(Toggled(s)) == s
    ensures s.Open? ==> Toggled(Toggled(s)) == Opening(0.0)
    ensures s.Closed? ==> Toggled(Toggled(s)) == Closing(0.0)
    ensures IsOpen(Folder("", None, Toggled(s), [])) <==> !IsOpen(Folder("", None, s, []))
  {
  }

  // ---------------------------------------------------------------------
  // The walk order
  // ---------------------------------------------------------------------

  /** One step of the walk: what `walk` returns (depth, index among the
      siblings, number of siblings, node) together with what
      `current_closing` and the names `current_path` joins report then. */
  datatype Visit = Visit(depth: nat, index: nat, len: nat, node: FileNode, closing: bool, path: seq<string>)

  /** Whether the children of `p` are walked as closing: `p` itself is
      closing, or one of its ancestors is. */
  function ChildClosing(p: FileNode, closing: bool): bool
  {
    (p.Folder? && p.state.Closing?) || closing
  }

  /** The visits of node `n` (at `index` of `len` siblings, under ancestors
      named `ancestors`) and of everything below it: itself first, then its
      children's subtrees in order, unless it is a file or a closed folder. */
  function Subtree(n: FileNode, index: nat, len: nat, closing: bool, ancestors: seq<string>): (vs: seq<Visit>)
    ensures |vs| >= 1
    decreases n, 1, 0
  {
    [Visit(|ancestors|, index, len, n, closing, ancestors + [n.name])] + Children(n, 0, closing, ancestors + [n.name])
  }

  /** The visits of the subtrees of `p`'s children from index `from` on, `p`
      being walked with flag `closing` under the names `path`. */
  function Children(p: FileNode, from: nat, closing: bool, path: seq<string>): seq<Visit>
    decreases p, 0, if p.Folder? && from < |p.folder| then |p.folder| - from else 0
  {
    if Descends(p) && from < |p.folder| then
      Subtree(p.folder[from], from, |p.folder|, ChildClosing(p, closing), path) + Children(p, from + 1, closing, path)
    else []
  }

  /** Everything a walk of `root` yields, in order. */
  function PreOrder(root: FileNode): seq<Visit>
  {
    Children(root, 0, false, [root.name])
  }

  /** The shape of every visit below a node at depth `|path| - 1`: the depth
      counts the strict ancestors, the index lies among the siblings, the
      path starts with the path of the walk's root. */
  ghost predicate VisitShape(v: Visit, prefix: seq<string>)
  {
    v.index < v.len && |v.path| == v.depth + 1 && v.depth >= |prefix| && v.path[..|prefix|] == prefix
    && v.path[|v.path| - 1] == v.node.name
  }

  lemma {:induction false} SubtreeShape(n: FileNode, index: nat, len: nat, closing: bool, ancestors: seq<string>, prefix: seq<string>)
    requires index < len && |prefix| <= |ancestors| && ancestors[..|prefix|] == prefix
    ensures forall v :: v in Subtree(n, index, len, closing, ancestors) ==> VisitShape(v, prefix)
    decreases n, 1, 0
  {
    var path := ancestors + [n.name];
    assert path[..|prefix|] == prefix;
    ChildrenShape(n, 0, closing, path, prefix);
  }

  lemma {:induction false} ChildrenShape(p: FileNode, from: nat, closing: bool, path: seq<string>, prefix: seq<string>)
    requires |prefix| <= |path| && path[..|prefix|] == prefix
    ensures forall v :: v in Children(p, from, closing, path) ==> VisitShape(v, prefix)
    decreases p, 0, if p.Folder? && from < |p.folder| then |p.folder| - from else 0
  {
    if Descends(p) && from < |p.folder| {
      SubtreeShape(p.folder[from], from, |p.folder|, ChildClosing(p, closing), path, prefix);
      ChildrenShape(p, from + 1, closing, path, prefix);
    }
  }

  /** The walk never yields the root: every visit lies at depth 1 or more,
      its path starts with the root's name and ends with the node's, and its
      index is below its sibling count. */
  lemma {:induction false} PreOrderShape(root: FileNode)
    ensures forall v :: v in PreOrder(root) ==>
              v.depth >= 1 && v.index < v.len && |v.path| == v.depth + 1 &&
              v.path[0] == root.name && v.path[v.depth] == v.node.name
  {
    ChildrenShape(root, 0, false, [root.name], [root.name]);
    forall v | v in PreOrder(root)
      ensures v.depth >= 1 && v.path[0] == root.name
    {
      assert VisitShape(v, [root.name]);
      assert v.path[..1] == [root.name];
    }
  }

  /** A closed folder's contents are never walked, whatever they are. */
  lemma {:induction false} ClosedFolderHidesChildren(n: FileNode, index: nat, len: nat, closing: bool, ancestors: seq<string>)
    requires n.Folder? && n.state.Closed?
    ensures Subtree(n, index, len, closing, ancestors) == [Visit(|ancestors|, index, len, n, closing, ancestors + [n.name])]
  {
  }

  // ---------------------------------------------------------------------
  // Paths
  // ---------------------------------------------------------------------

  /** `current_path`: the names of the stack joined, with "/" before every
      name from the third on (so the root's name and the first level's are
      not separated). */
  function JoinPath(names: seq<string>): string
    decreases |names|
  {
    if |names| == 0 then ""
    else JoinPath(names[..|names| - 1]) + (if |names| - 1 > 1 then "/" else "") + names[|names| - 1]
  }

  /** Names joined with "/" between each two. */
  function SlashJoin(names: seq<string>): string
    decreases |names|
  {
    if |names| == 0 then ""
    else if |names| == 1 then names[0]
    else SlashJoin(names[..|names| - 1]) + "/" + names[|names| - 1]
  }

  /** Under an unnamed root, `current_path` is the names from depth 1 down
      joined by "/". */
  lemma {:induction false} UnnamedRootPath(names: seq<string>)
    ensures JoinPath([""] + names) == SlashJoin(names)
    decreases |names|
  {
    if |names| > 0 {
      var init := names[..|names| - 1];
      assert ([""] + names)[..|names|] == [""] + init;
      UnnamedRootPath(init);
      if |names| == 1 {
        assert JoinPath([""]) == "";
      }
    }
  }

  // ---------------------------------------------------------------------
  // The walker
  // ---------------------------------------------------------------------

  /** A stack frame: `counter` 0 means the node is still to be yielded;
      for a folder, `counter - 2` is the index of the child last pushed. */
  datatype StackEntry = StackEntry(counter: nat, index: nat, len: nat, closing: bool, node: FileNode)

  function Names(stack: seq<StackEntry>): seq<string>
  {
    seq(|stack|, i requires 0 <= i < |stack| => stack[i].node.name)
  }

  /** `child` is the child that `parent` pushed last. */
  ghost predicate Linked(parent: StackEntry, child: StackEntry)
  {
    && Descends(parent.node)
    && child.index < |parent.node.folder| && child.node == parent.node.folder[child.index]
    && child.len == |parent.node.folder| && parent.counter == child.index + 2
    && child.closing == ChildClosing(parent.node, parent.closing)
  }

  ghost predicate WellFormed(stack: seq<StackEntry>)
  {
    forall p :: 1 <= p < |stack| ==> Linked(stack[p - 1], stack[p])
  }

  /** What frame `e`, at `depth` with names `path` down to it, has still to
      yield. */
  function Rest(e: StackEntry, depth: nat, path: seq<string>): seq<Visit>
  {
    (if e.counter == 0 then [Visit(depth, e.index, e.len, e.node, e.closing, path)] else [])
    + Children(e.node, if e.counter == 0 then 0 else e.counter - 1, e.closing, path)
  }

  /** What the whole stack has still to yield: the top frame's rest, then
      the rest of the frames below. */
  function Pending(stack: seq<StackEntry>): seq<Visit>
    decreases |stack|
  {
    if |stack| == 0 then []
    else Rest(stack[|stack| - 1], |stack| - 1, Names(stack)) + Pending(stack[..|stack| - 1])
  }

  /** The frame `child` that a folder frame `top` pushes when its counter
      has reached `counter`. */
  function Pushed(top: StackEntry, counter: nat): StackEntry
    requires top.node.Folder? && 2 <= counter && counter - 2 < |top.node.folder|
  {
    StackEntry(0, counter - 2, |top.node.folder|, ChildClosing(top.node, top.closing), top.node.folder[counter - 2])
  }

  /** Pushing the next child of the top folder moves that child's subtree
      from the folder's rest to the child's own: nothing pending changes. */
  lemma {:induction false} PushKeepsPending(stack: seq<StackEntry>)
    requires |stack| > 0 && WellFormed(stack)
    requires var top := stack[|stack| - 1];
             top.counter >= 1 && Descends(top.node) && top.counter - 1 < |top.node.folder|
    ensures var n := |stack| - 1;
            var top := stack[n];
            var pushed := stack[n := top.(counter := top.counter + 1)] + [Pushed(top, top.counter + 1)];
            && WellFormed(pushed) && Pending(pushed) == Pending(stack)
            && LowerFramesStarted(pushed) && Progress(pushed) < Progress(stack)
  {
    PushPending(stack);
    PushWellFormed(stack);
  }

  lemma {:induction false} PushPending(stack: seq<StackEntry>)
    requires |stack| > 0
    requires var top := stack[|stack| - 1];
             top.counter >= 1 && Descends(top.node) && top.counter - 1 < |top.node.folder|
    ensures var n := |stack| - 1;
            var top := stack[n];
            Pending(stack[n := top.(counter := top.counter + 1)] + [Pushed(top, top.counter + 1)]) == Pending(stack)
  {
    var n := |stack| - 1;
    var top := stack[n];
    var child := Pushed(top, top.counter + 1);
    var raised := stack[n := top.(counter := top.counter + 1)];
    var pushed := raised + [child];
    assert pushed[..n + 1] == raised;
    assert raised[..n] == stack[..n];
    var path := Names(stack);
    assert Names(raised) == path by {
      assert forall i :: 0 <= i < |stack| ==> Names(raised)[i] == raised[i].node.name == path[i];
    }
    assert Names(pushed) == path + [child.node.name] by {
      assert forall i :: 0 <= i < |stack| ==> Names(pushed)[i] == pushed[i].node.name == path[i];
    }
    calc {
      Rest(top, n, path);
      Children(top.node, top.counter - 1, top.closing, path);
      Subtree(child.node, child.index, child.len, child.closing, path) + Children(top.node, top.counter, top.closing, path);
      Rest(child, n + 1, path + [child.node.name]) + Rest(raised[n], n, path);
    }
    assert Pending(pushed) == Rest(child, n + 1, Names(pushed)) + Pending(raised);
    assert Pending(raised) == Rest(raised[n], n, Names(raised)) + Pending(stack[..n]);
  }

  lemma {:induction false} PushWellFormed(stack: seq<StackEntry>)
    requires |stack| > 0 && WellFormed(stack)
    requires var top := stack[|stack| - 1];
             top.counter >= 1 && Descends(top.node) && top.counter - 1 < |top.node.folder|
    ensures var n := |stack| - 1;
            var top := stack[n];
            var pushed := stack[n := top.(counter := top.counter + 1)] + [Pushed(top, top.counter + 1)];
            && WellFormed(pushed) && LowerFramesStarted(pushed) && Progress(pushed) < Progress(stack)
  {
    var n := |stack| - 1;
    var top := stack[n];
    var pushed := stack[n := top.(counter := top.counter + 1)] + [Pushed(top, top.counter + 1)];
    forall p | 1 <= p < |pushed| ensures Linked(pushed[p - 1], pushed[p]) {
      if p < n {
        assert pushed[p - 1] == stack[p - 1] && pushed[p] == stack[p];
      } else if p == n {
        assert pushed[p - 1] == stack[p - 1] && pushed[p].node == stack[p].node;
        assert Linked(stack[p - 1], stack[p]);
      }
    }
  }

  /** Popping a frame with nothing left to yield changes nothing pending. */
  lemma {:induction false} PopKeepsPending(stack: seq<StackEntry>)
    requires |stack| > 0 && WellFormed(stack)
    requires var top := stack[|stack| - 1];
             top.counter >= 1 && !(Descends(top.node) && top.counter - 1 < |top.node.folder|)
    ensures WellFormed(stack[..|stack| - 1]) && Pending(stack[..|stack| - 1]) == Pending(stack)
    ensures |stack| > 1 ==> stack[|stack| - 2].counter >= 2
  {
    var n := |stack| - 1;
    assert Rest(stack[n], n, Names(stack)) == [];
    if n > 0 {
      assert Linked(stack[n - 1], stack[n]);
    }
  }

  /** Yielding the top frame's own visit: it is the first thing pending. */
  lemma {:induction false} YieldTakesFirst(stack: seq<StackEntry>)
    requires |stack| > 0 && WellFormed(stack) && stack[|stack| - 1].counter == 0
    ensures var n := |stack| - 1;
            var top := stack[n];
            var yielded := stack[n := top.(counter := 1)];
            && WellFormed(yielded)
            && Names(yielded) == Names(stack)
            && Pending(stack) == [Visit(n, top.index, top.len, top.node, top.closing, Names(stack))] + Pending(yielded)
  {
    var n := |stack| - 1;
    var top := stack[n];
    var yielded := stack[n := top.(counter := 1)];
    assert yielded[..n] == stack[..n];
    assert Names(yielded) == Names(stack);
    forall p | 1 <= p < |yielded| ensures Linked(yielded[p - 1], yielded[p]) {
      assert yielded[p - 1] == stack[p - 1];
      assert Linked(stack[p - 1], stack[p]);
    }
  }

  /** Every frame below the top has yielded its node and pushed a child. */
  ghost predicate LowerFramesStarted(stack: seq<StackEntry>)
  {
    |stack| > 1 ==> stack[|stack| - 2].counter >= 2
  }

  /** Decreases with every push and pop: a push leaves a fresh frame on top,
      a pop a shorter stack whose top has already started. */
  function Progress(stack: seq<StackEntry>): nat
  {
    if |stack| == 0 || stack[|stack| - 1].counter == 0 then 0 else 1 + |stack|
  }

  class FileWalker {
    var stack: seq<StackEntry>

    /** A walker over `root`: the root frame starts past its own visit. */
    constructor (root: FileNode)
      ensures WellFormed(stack) && Pending(stack) == PreOrder(root)
    {
      var start := [StackEntry(1, 0, 0, false, root)];
      assert Names(start) == [root.name];
      assert start[..0] == [];
      stack := start;
    }

    /** `current_closing`: the flag of the top frame. */
    function CurrentClosing(): bool
      reads this
    {
      if |stack| > 0 then stack[|stack| - 1].closing else false
    }

    /** `current_path`: the names on the stack, joined. */
    method CurrentPath() returns (path: string)
      ensures path == JoinPath(Names(stack))
    {
      path := "";
      for i := 0 to |stack|
        invariant path == JoinPath(Names(stack)[..i])
      {
        assert Names(stack)[..i + 1][..i] == Names(stack)[..i];
        if i > 1 {
          path := path + "/";
        }
        path := path + stack[i].node.name;
      }
      assert Names(stack)[..|stack|] == Names(stack);
    }

    /** The top frame has not yielded yet: it yields its own node. */
    method YieldTop() returns (r: (nat, nat, nat, FileNode))
      requires |stack| > 0 && WellFormed(stack) && stack[|stack| - 1].counter == 0
      modifies this
      ensures WellFormed(stack) && LowerFramesStarted(stack)
      ensures |old(Pending(stack))| > 0
      ensures var v := old(Pending(stack))[0];
              && r == (v.depth, v.index, v.len, v.node)
              && Pending(stack) == old(Pending(stack))[1..]
              && CurrentClosing() == v.closing && Names(stack) == v.path
    {
      var n := |stack| - 1;
      var top := stack[n];
      YieldTakesFirst(stack);
      stack := stack[n := top.(counter := 1)];
      r := (n, top.index, top.len, top.node);
      if n > 0 {
        assert Linked(stack[n - 1], stack[n]);
      }
    }

    /** The top folder pushes its next child. */
    method PushChild()
      requires |stack| > 0 && WellFormed(stack)
      requires var top := stack[|stack| - 1];
               top.counter >= 1 && Descends(top.node) && top.counter - 1 < |top.node.folder|
      modifies this
      ensures WellFormed(stack) && LowerFramesStarted(stack)
      ensures Pending(stack) == old(Pending(stack)) && Progress(stack) < old(Progress(stack))
    {
      var n := |stack| - 1;
      var top := stack[n];
      PushKeepsPending(stack);
      stack := stack[n := top.(counter := top.counter + 1)] + [Pushed(top, top.counter + 1)];
    }

    /** The top frame has nothing left to yield and is popped. */
    method PopTop()
      requires |stack| > 0 && WellFormed(stack)
      requires var top := stack[|stack| - 1];
               top.counter >= 1 && !(Descends(top.node) && top.counter - 1 < |top.node.folder|)
      modifies this
      ensures WellFormed(stack) && LowerFramesStarted(stack)
      ensures Pending(stack) == old(Pending(stack)) && Progress(stack) < old(Progress(stack))
    {
      PopKeepsPending(stack);
      stack := stack[..|stack| - 1];
    }

    /** Yields the next node in pre-order (its depth, index, sibling count
        and the node), or nothing once the walk is over. After a yield the
        stack holds exactly the node and its ancestors. */
    method Walk() returns (r: Option<(nat, nat, nat, FileNode)>)
      requires WellFormed(stack) && LowerFramesStarted(stack)
      modifies this
      ensures WellFormed(stack) && LowerFramesStarted(stack)
      ensures old(Pending(stack)) == [] ==> r == None && stack == []
      ensures old(Pending(stack)) != [] ==>
                var v := old(Pending(stack))[0];
                && r == Some((v.depth, v.index, v.len, v.node))
                && Pending(stack) == old(Pending(stack))[1..]
                && CurrentClosing() == v.closing && Names(stack) == v.path
    {
      ghost var pending := Pending(stack);
      while true
        invariant WellFormed(stack) && LowerFramesStarted(stack) && Pending(stack) == pending
        decreases Progress(stack)
      {
        if |stack| == 0 {
          return None;
        }
        var top := stack[|stack| - 1];
        if top.counter + 1 == 1 {
          var yielded := YieldTop();
          return Some(yielded);
        }
        if top.node.Folder? && !top.node.state.Closed? && top.counter + 1 - 2 < |top.node.folder| {
          PushChild();
        } else {
          PopTop();
        }
      }
    }
  }

  /** The path `current_path` reports for each visit whose node is marked,
      in walk order. */
  function MarkedPaths(vs: seq<Visit>): seq<string>
    decreases |vs|
  {
    if |vs| == 0 then []
    else
      var v := vs[|vs| - 1];
      MarkedPaths(vs[..|vs| - 1]) +
        (if v.node.draw.Some? && v.node.draw.value.marked != 0 then [JoinPath(v.path)] else [])
  }

  /** One more visit adds its path after the others when its node is marked. */
  lemma {:induction false} MarkedPathsSnoc(vs: seq<Visit>, v: Visit)
    ensures MarkedPaths(vs + [v]) ==
            MarkedPaths(vs) + (if v.node.draw.Some? && v.node.draw.value.marked != 0 then [JoinPath(v.path)] else [])
  {
    assert (vs + [v])[..|vs|] == vs;
  }

  /** Moving the first pending visit to the visited ones keeps their
      concatenation. */
  lemma {:induction false} MoveFirst(visited: seq<Visit>, pending: seq<Visit>)
    requires |pending| > 0
    ensures visited + pending == (visited + [pending[0]]) + pending[1..]
  {
    assert pending == [pending[0]] + pending[1..];
  }

  /** `get_marked_paths`: walks the tree and collects the path of every
      marked node. */
  method GetMarkedPaths(root: FileNode) returns (paths: seq<string>)
    ensures paths == MarkedPaths(PreOrder(root))
  {
    paths := [];
    var walker := new FileWalker(root);
    ghost var visited: seq<Visit> := [];
    while true
      invariant WellFormed(walker.stack) && LowerFramesStarted(walker.stack)
      invariant visited + Pending(walker.stack) == PreOrder(root)
      invariant paths == MarkedPaths(visited)
      decreases |Pending(walker.stack)|
    {
      ghost var pending := Pending(walker.stack);
      var item := walker.Walk();
      if item.None? {
        assert pending == [];
        assert visited == PreOrder(root);
        return;
      }
      ghost var v := pending[0];
      var node := item.value.3;
      assert node == v.node;
      if node.draw.Some? && node.draw.value.marked != 0 {
        var path := walker.CurrentPath();
        paths := paths + [path];
      }
      MarkedPathsSnoc(visited, v);
      MoveFirst(visited, pending);
      visited := visited + [v];
    }
  }

  // ---------------------------------------------------------------------
  // Saving and restoring the open folders
  // ---------------------------------------------------------------------

  /** The path of a folder named `name` under the path `base`: an empty name
      adds nothing, and an empty base adds no separator. */
  function NewBase(base: string, name: string): string
  {
    if |name| > 0 then (if |base| > 0 then base + "/" + name else name) else base
  }

  /** The paths `save_open_folders` lists below `node` (at path `base`): an
      open folder's own path, then those of its children in order; nothing
      for files and folders that are not open. */
  function SaveOpen(node: FileNode, base: string): seq<string>
    decreases node, 1, 0
  {
    if IsOpen(node) then
      var nb := NewBase(base, node.name);
      [nb] + SaveKids(node, |node.folder|, nb)
    else []
  }

  /** The saved paths of the first `n` children of folder `p`. */
  function SaveKids(p: FileNode, n: nat, nb: string): seq<string>
    requires p.Folder? && n <= |p.folder|
    decreases p, 0, n
  {
    if n == 0 then [] else SaveKids(p, n - 1, nb) + SaveOpen(p.folder[n - 1], nb)
  }

  /** What `load_open_folders` makes of `node` at `depth`: the root, and
      every folder whose path is listed, becomes open and its children are
      loaded in turn; any other folder becomes closed, its children
      untouched; files are untouched. */
  function Loaded(node: FileNode, base: string, depth: nat, paths: seq<string>): (r: FileNode)
    ensures r.File? <==> node.File?
    ensures r.name == node.name && r.draw == node.draw
    ensures r.Folder? ==> |r.folder| == |node.folder|
    decreases node, 1, 0
  {
    match node
    case File(_, _) => node
    case Folder(name, draw, state, kids) =>
      var nb := NewBase(base, name);
      if depth == 0 || nb in paths then Folder(name, draw, Open, LoadKids(node, |kids|, nb, depth + 1, paths))
      else node.(state := Closed)
  }

  function LoadKids(p: FileNode, n: nat, nb: string, depth: nat, paths: seq<string>): (r: seq<FileNode>)
    requires p.Folder? && n <= |p.folder|
    ensures |r| == n
    decreases p, 0, n
  {
    if n == 0 then [] else LoadKids(p, n - 1, nb, depth, paths) + [Loaded(p.folder[n - 1], nb, depth, paths)]
  }

  /** The recursion of `save_open_folders`, appending to `paths`. */
  method SaveWalk(node: FileNode, base: string, paths: seq<string>) returns (out: seq<string>)
    ensures out == paths + SaveOpen(node, base)
    decreases node
  {
    out := paths;
    if IsOpen(node) {
      var nb := NewBase(base, node.name);
      out := out + [nb];
      for i := 0 to |node.folder|
        invariant out == paths + [nb] + SaveKids(node, i, nb)
      {
        out := SaveWalk(node.folder[i], nb, out);
      }
    }
  }

  /** The recursion of `load_open_folders`, rebuilding the node with its
      new states. */
  method LoadWalk(node: FileNode, base: string, depth: nat, paths: seq<string>) returns (r: FileNode)
    ensures r == Loaded(node, base, depth, paths)
    decreases node
  {
    match node {
      case File(_, _) =>
        r := node;
      case Folder(name, draw, state, kids) =>
        var nb := NewBase(base, name);
        if depth == 0 || nb in paths {
          var loaded: seq<FileNode> := [];
          for i := 0 to |kids|
            invariant loaded == LoadKids(node, i, nb, depth + 1, paths)
          {
            var child := LoadWalk(kids[i], nb, depth + 1, paths);
            loaded := loaded + [child];
          }
          r := Folder(name, draw, Open, loaded);
        } else {
          r := node.(state := Closed);
        }
    }
  }

  class FileTree {
    var rootNode: FileNode

    constructor (root: FileNode)
      ensures rootNode == root
    {
      rootNode := root;
    }

    /** Replaces the tree by an unnamed open root holding one empty open
        folder per name. */
    method ClearRoots(names: seq<string>)
      modifies this
      ensures rootNode == Folder("", None, Open, seq(|names|, i requires 0 <= i < |names| => Folder(names[i], None, Open, [])))
    {
      var kids := [];
      for i := 0 to |names|
        invariant kids == seq(i, k requires 0 <= k < i => Folder(names[k], None, Open, []))
      {
        kids := kids + [Folder(names[i], None, Open, [])];
      }
      rootNode := Folder("", None, Open, kids);
    }

    method SaveOpenFolders() returns (paths: seq<string>)
      ensures paths == SaveOpen(rootNode, "")
    {
      paths := SaveWalk(rootNode, "", []);
    }

    method LoadOpenFolders(paths: seq<string>)
      modifies this
      ensures rootNode == Loaded(old(rootNode), "", 0, paths)
    {
      rootNode := LoadWalk(rootNode, "", 0, paths);
    }
  }

  /** Saving right after `clear_roots` lists the root ("") and then each
      named folder, in order. */
  lemma {:induction false} ClearedRootsSave(names: seq<string>)
    requires forall i :: 0 <= i < |names| ==> |names[i]| > 0
    ensures SaveOpen(Folder("", None, Open, seq(|names|, i requires 0 <= i < |names| => Folder(names[i], None, Open, []))), "")
            == [""] + names
  {
    var root := Folder("", None, Open, seq(|names|, i requires 0 <= i < |names| => Folder(names[i], None, Open, [])));
    var k := 0;
    while k < |names|
      invariant 0 <= k <= |names|
      invariant SaveKids(root, k, "") == names[..k]
    {
      assert SaveOpen(root.folder[k], "") == [names[k]];
      assert names[..k + 1] == names[..k] + [names[k]];
      k := k + 1;
    }
    assert names[..|names|] == names;
  }

  // ---------------------------------------------------------------------
  // The round trip
  // ---------------------------------------------------------------------

  /** The tree a save-then-load round trip should give: every folder reached
      through open folders becomes `Open` if it was open (open or opening)
      and `Closed` otherwise; below a folder that was not open nothing
      changes. */
  function Normalized(node: FileNode): (r: FileNode)
    decreases node, 1, 0
  {
    if IsOpen(node) then node.(state := Open, folder := NormKids(node, |node.folder|))
    else if node.Folder? then node.(state := Closed)
    else node
  }

  function NormKids(p: FileNode, n: nat): (r: seq<FileNode>)
    requires p.Folder? && n <= |p.folder|
    ensures |r| == n
    decreases p, 0, n
  {
    if n == 0 then [] else NormKids(p, n - 1) + [Normalized(p.folder[n - 1])]
  }

  /** The paths of the folders a load reaches, open or not, in pre-order. */
  function FolderPaths(node: FileNode, base: string): seq<string>
    decreases node, 1, 0
  {
    if node.Folder? then
      var nb := NewBase(base, node.name);
      [nb] + (if IsOpen(node) then FolderKids(node, |node.folder|, nb) else [])
    else []
  }

  function FolderKids(p: FileNode, n: nat, nb: string): seq<string>
    requires p.Folder? && n <= |p.folder|
    decreases p, 0, n
  {
    if n == 0 then [] else FolderKids(p, n - 1, nb) + FolderPaths(p.folder[n - 1], nb)
  }

  /** The paths of the reached folders that are not open. */
  function ShutPaths(node: FileNode, base: string): seq<string>
    decreases node, 1, 0
  {
    if IsOpen(node) then ShutKids(node, |node.folder|, NewBase(base, node.name))
    else if node.Folder? then [NewBase(base, node.name)]
    else []
  }

  function ShutKids(p: FileNode, n: nat, nb: string): seq<string>
    requires p.Folder? && n <= |p.folder|
    decreases p, 0, n
  {
    if n == 0 then [] else ShutKids(p, n - 1, nb) + ShutPaths(p.folder[n - 1], nb)
  }

  /** The reached folders split into the saved (open) ones and the shut ones. */
  lemma {:induction false} FolderPathsSplit(node: FileNode, base: string)
    ensures multiset(FolderPaths(node, base)) == multiset(SaveOpen(node, base)) + multiset(ShutPaths(node, base))
    decreases node, 1, 0
  {
    if IsOpen(node) {
      FolderKidsSplit(node, |node.folder|, NewBase(base, node.name));
    }
  }

  lemma {:induction false} FolderKidsSplit(p: FileNode, n: nat, nb: string)
    requires p.Folder? && n <= |p.folder|
    ensures multiset(FolderKids(p, n, nb)) == multiset(SaveKids(p, n, nb)) + multiset(ShutKids(p, n, nb))
    decreases p, 0, n
  {
    if n > 0 {
      FolderKidsSplit(p, n - 1, nb);
      FolderPathsSplit(p.folder[n - 1], nb);
    }
  }

  lemma {:induction false} SavedKidIn(p: FileNode, n: nat, nb: string, k: nat, q: string)
    requires p.Folder? && n <= |p.folder| && k < n
    requires q in SaveOpen(p.folder[k], nb)
    ensures q in SaveKids(p, n, nb)
    decreases n
  {
    if k < n - 1 {
      SavedKidIn(p, n - 1, nb, k, q);
    }
  }

  lemma {:induction false} ShutKidIn(p: FileNode, n: nat, nb: string, k: nat, q: string)
    requires p.Folder? && n <= |p.folder| && k < n
    requires q in ShutPaths(p.folder[k], nb)
    ensures q in ShutKids(p, n, nb)
    decreases n
  {
    if k < n - 1 {
      ShutKidIn(p, n - 1, nb, k, q);
    }
  }

  /** `paths` records `node`'s subtree faithfully: a reached folder's path is
      listed exactly when the folder is open. */
  ghost predicate Agrees(node: FileNode, base: string, paths: seq<string>)
    decreases node
  {
    node.File? ||
    (var nb := NewBase(base, node.name);
     (nb in paths <==> IsOpen(node)) &&
     (IsOpen(node) ==> forall k :: 0 <= k < |node.folder| ==> Agrees(node.folder[k], nb, paths)))
  }

  lemma {:induction false} AgreesFromPaths(node: FileNode, base: string, paths: seq<string>)
    requires forall q :: q in SaveOpen(node, base) ==> q in paths
    requires forall q :: q in ShutPaths(node, base) ==> q !in paths
    ensures Agrees(node, base, paths)
    decreases node
  {
    if IsOpen(node) {
      var nb := NewBase(base, node.name);
      assert nb in SaveOpen(node, base);
      forall k | 0 <= k < |node.folder| ensures Agrees(node.folder[k], nb, paths) {
        forall q | q in SaveOpen(node.folder[k], nb) ensures q in paths {
          SavedKidIn(node, |node.folder|, nb, k, q);
        }
        forall q | q in ShutPaths(node.folder[k], nb) ensures q !in paths {
          ShutKidIn(node, |node.folder|, nb, k, q);
        }
        AgreesFromPaths(node.folder[k], nb, paths);
      }
    } else if node.Folder? {
      assert NewBase(base, node.name) in ShutPaths(node, base);
    }
  }

  lemma {:induction false} AgreeingLoadNormalizes(node: FileNode, base: string, depth: nat, paths: seq<string>)
    requires depth >= 1 && Agrees(node, base, paths)
    ensures Loaded(node, base, depth, paths) == Normalized(node)
    decreases node, 1, 0
  {
    if IsOpen(node) {
      AgreeingKidsNormalize(node, |node.folder|, NewBase(base, node.name), depth + 1, paths);
    }
  }

  lemma {:induction false} AgreeingKidsNormalize(p: FileNode, n: nat, nb: string, depth: nat, paths: seq<string>)
    requires p.Folder? && n <= |p.folder| && depth >= 1
    requires forall k :: 0 <= k < |p.folder| ==> Agrees(p.folder[k], nb, paths)
    ensures LoadKids(p, n, nb, depth, paths) == NormKids(p, n)
    decreases p, 0, n
  {
    if n > 0 {
      AgreeingKidsNormalize(p, n - 1, nb, depth, paths);
      AgreeingLoadNormalizes(p.folder[n - 1], nb, depth, paths);
    }
  }

  /** No path occurs twice. */
  ghost predicate NoDuplicates(s: seq<string>)
  {
    forall q :: multiset(s)[q] <= 1
  }

  /** Round trip: when the root is open and the reached folders have
      distinct paths, loading what was saved opens exactly the folders that
      were open and closes the others. */
  lemma {:induction false} SaveLoadRoundTrip(root: FileNode)
    requires IsOpen(root) && NoDuplicates(FolderPaths(root, ""))
    ensures Loaded(root, "", 0, SaveOpen(root, "")) == Normalized(root)
  {
    var paths := SaveOpen(root, "");
    var nb := NewBase("", root.name);
    FolderPathsSplit(root, "");
    forall q | q in ShutPaths(root, "") ensures q !in paths {
      assert multiset(FolderPaths(root, ""))[q] == multiset(paths)[q] + multiset(ShutPaths(root, ""))[q];
    }
    forall k | 0 <= k < |root.folder| ensures Agrees(root.folder[k], nb, paths) {
      forall q | q in SaveOpen(root.folder[k], nb) ensures q in paths {
        SavedKidIn(root, |root.folder|, nb, k, q);
      }
      forall q | q in ShutPaths(root.folder[k], nb) ensures q !in paths {
        ShutKidIn(root, |root.folder|, nb, k, q);
      }
      AgreesFromPaths(root.folder[k], nb, paths);
    }
    AgreeingKidsNormalize(root, |root.folder|, nb, 1, paths);
  }
}
