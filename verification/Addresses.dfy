/**
 * Addresses of elements, nodes and nested documents, taken before a mirror rebuild and resolved after
 * it. A document is a finite tree; each frame element leads to another document or to none.
 */
module AddressModel {
  import opened Protocol

  type NodeId = nat

  /** One tree: `Element.children` or `Node.childNodes`. `depth` witnesses that it is one. */
  datatype Tree = Tree(parent: map<NodeId, NodeId>, kids: map<NodeId, seq<NodeId>>, depth: map<NodeId, nat>)

  function Kids(t: Tree, n: NodeId): seq<NodeId> {
    if n in t.kids then t.kids[n] else []
  }

  function Depth(t: Tree, n: NodeId): nat {
    if n in t.depth then t.depth[n] else 0
  }

  predicate ParentsOk(t: Tree) {
    forall c :: c in t.parent ==> c in Kids(t, t.parent[c]) && Depth(t, t.parent[c]) < Depth(t, c)
  }

  predicate ParentIs(t: Tree, c: NodeId, p: NodeId) {
    c in t.parent && t.parent[c] == p
  }

  predicate KidsOk(t: Tree) {
    && (forall p, i :: p in t.kids && 0 <= i < |t.kids[p]| ==> ParentIs(t, t.kids[p][i], p))
    && (forall p, i, j :: p in t.kids && 0 <= i < j < |t.kids[p]| ==> t.kids[p][i] != t.kids[p][j])
  }

  /** Parents and children mirror each other, and no node is its own ancestor. */
  predicate WellFormed(t: Tree) {
    ParentsOk(t) && KidsOk(t)
  }

  function IndexOf(s: seq<NodeId>, x: NodeId): (i: int)
    ensures i == -1 ==> x !in s
    ensures i != -1 ==> 0 <= i < |s| && s[i] == x
  {
    if s == [] then -1
    else if s[0] == x then 0
    else
      var rest := IndexOf(s[1..], x);
      if rest == -1 then -1 else rest + 1
  }

  /** The child indexes from `root` down to `node`, or nothing when `node` is not below it. */
  function PathTo(t: Tree, root: NodeId, node: NodeId): Option<seq<nat>>
    requires WellFormed(t)
    decreases Depth(t, node)
  {
    if node == root then Some([])
    else if node !in t.parent then None
    else
      var i := IndexOf(Kids(t, t.parent[node]), node);
      var above := PathTo(t, root, t.parent[node]);
      if i < 0 || above.None? then None else Some(above.value + [i])
  }

  function Follow(t: Tree, root: NodeId, path: seq<nat>): Option<NodeId>
    decreases |path|
  {
    if path == [] then Some(root)
    else if path[0] < |Kids(t, root)| then Follow(t, Kids(t, root)[path[0]], path[1..])
    else None
  }

  lemma {:induction false} FollowSnoc(t: Tree, root: NodeId, path: seq<nat>, i: nat)
    ensures var end := Follow(t, root, path);
      Follow(t, root, path + [i]) == if end.Some? && i < |Kids(t, end.value)| then Some(Kids(t, end.value)[i]) else None
    decreases |path|
  {
    if path == [] {
      assert ([] + [i])[1..] == [];
    } else if path[0] < |Kids(t, root)| {
      FollowSnoc(t, Kids(t, root)[path[0]], path[1..], i);
      assert (path + [i])[1..] == path[1..] + [i];
    }
  }

  /** A path leads back to the node it was taken from. */
  lemma {:induction false} PathLeadsBack(t: Tree, root: NodeId, node: NodeId)
    requires WellFormed(t) && PathTo(t, root, node).Some?
    ensures Follow(t, root, PathTo(t, root, node).value) == Some(node)
    decreases Depth(t, node)
  {
    if node != root {
      var p := t.parent[node];
      PathLeadsBack(t, root, p);
      FollowSnoc(t, root, PathTo(t, root, p).value, IndexOf(Kids(t, p), node));
    }
  }

  lemma KidIndex(t: Tree, p: NodeId, i: nat)
    requires WellFormed(t) && i < |Kids(t, p)|
    ensures var c := Kids(t, p)[i]; c in t.parent && t.parent[c] == p && IndexOf(Kids(t, p), c) == i && Depth(t, p) < Depth(t, c)
  {}

  lemma PathToKid(t: Tree, root: NodeId, p: NodeId, path: seq<nat>, i: nat)
    requires WellFormed(t) && i < |Kids(t, p)| && PathTo(t, root, p) == Some(path) && Depth(t, root) <= Depth(t, p)
    ensures PathTo(t, root, Kids(t, p)[i]) == Some(path + [i])
  {
    KidIndex(t, p, i);
  }

  /** The node at the end of the path has that path, and lies that deep. */
  predicate TakenBy(t: Tree, root: NodeId, node: NodeId, path: seq<nat>)
    requires WellFormed(t)
  {
    PathTo(t, root, node) == Some(path) && Depth(t, root) + |path| <= Depth(t, node)
  }

  lemma TakenOne(t: Tree, root: NodeId, p: NodeId, path: seq<nat>, i: nat)
    requires WellFormed(t) && i < |Kids(t, p)| && TakenBy(t, root, p, path)
    ensures TakenBy(t, root, Kids(t, p)[i], path + [i])
  {
    PathToKid(t, root, p, path, i);
    KidIndex(t, p, i);
  }

  lemma LastStep(t: Tree, root: NodeId, path: seq<nat>, node: NodeId) returns (init: seq<nat>, i: nat, p: NodeId)
    requires path != [] && Follow(t, root, path) == Some(node)
    ensures path == init + [i] && Follow(t, root, init) == Some(p) && i < |Kids(t, p)| && Kids(t, p)[i] == node
  {
    init, i := path[..|path| - 1], path[|path| - 1];
    assert path == init + [i];
    FollowSnoc(t, root, init, i);
    p := Follow(t, root, init).value;
  }

  /** And a path that leads somewhere is the one taken from there: paths and nodes below a root match one to one. */
  lemma {:induction false} FollowedPathIsTaken(t: Tree, root: NodeId, path: seq<nat>, node: NodeId)
    requires WellFormed(t) && Follow(t, root, path) == Some(node)
    ensures TakenBy(t, root, node, path)
    decreases |path|
  {
    if path == [] {
    } else {
      var init, i, p := LastStep(t, root, path, node);
      FollowedPathIsTaken(t, root, init, p);
      TakenOne(t, root, p, init, i);
    }
  }

  // ---- Elements of one document ----

  /**
   * `elements` is the tree of `children` under `root`, the document element; `idOf` is the id attribute,
   * empty when absent; `html` says which elements are HTML elements; `byId` is `getElementById`;
   * `frames` are the iframe elements in document order.
   */
  datatype Document = Document(
    elements: Tree,
    root: NodeId,
    idOf: NodeId -> string,
    html: NodeId -> bool,
    byId: string -> Option<NodeId>,
    iframe: NodeId -> bool,
    frames: seq<NodeId>,
    content: NodeId -> Option<DocId>)

  type DocId = nat

  predicate InDocument(d: Document, e: NodeId)
    requires WellFormed(d.elements)
  {
    PathTo(d.elements, d.root, e).Some?
  }

  /** `getElementById` finds an element of the document with that id whenever there is one. */
  ghost predicate LooksUp(d: Document)
    requires WellFormed(d.elements)
  {
    && (forall s :: d.byId(s).Some? ==> InDocument(d, d.byId(s).value) && d.idOf(d.byId(s).value) == s)
    && (forall e: NodeId :: InDocument(d, e) && d.idOf(e) != "" ==> d.byId(d.idOf(e)).Some?)
  }

  ghost predicate UniqueIds(d: Document)
    requires WellFormed(d.elements)
  {
    forall a: NodeId, b: NodeId :: InDocument(d, a) && InDocument(d, b) && d.idOf(a) != "" && d.idOf(a) == d.idOf(b) ==> a == b
  }

  datatype ElementAddress = ElementAddress(id: Option<string>, path: seq<nat>)

  function AddressOf(d: Document, e: NodeId): Option<ElementAddress>
    requires WellFormed(d.elements)
  {
    var path := PathTo(d.elements, d.root, e);
    if path.None? then None else Some(ElementAddress(if d.idOf(e) == "" then None else Some(d.idOf(e)), path.value))
  }

  function ResolveElement(d: Document, a: ElementAddress): Option<NodeId> {
    if a.id.Some? && d.byId(a.id.value).Some? && d.html(d.byId(a.id.value).value) then d.byId(a.id.value)
    else
      var e := Follow(d.elements, d.root, a.path);
      if e.Some? && d.html(e.value) then e else None
  }

  /** When an element's own address finds it again: exactly when no other HTML element answers to its id first. */
  lemma ElementRoundTripIff(d: Document, e: NodeId)
    requires WellFormed(d.elements) && LooksUp(d) && InDocument(d, e)
    ensures ResolveElement(d, AddressOf(d, e).value) == Some(e) <==>
      d.html(e) && (d.idOf(e) == "" || d.byId(d.idOf(e)) == Some(e) || !d.html(d.byId(d.idOf(e)).value))
  {
    PathLeadsBack(d.elements, d.root, e);
  }

  /** With unique ids, every HTML element of the document round-trips. */
  lemma ElementRoundTrip(d: Document, e: NodeId)
    requires WellFormed(d.elements) && LooksUp(d) && UniqueIds(d) && InDocument(d, e) && d.html(e)
    ensures ResolveElement(d, AddressOf(d, e).value) == Some(e)
  {
    ElementRoundTripIff(d, e);
    if d.idOf(e) != "" {
      var found := d.byId(d.idOf(e)).value;
      assert InDocument(d, found) && d.idOf(found) == d.idOf(e);
    }
  }

  /** Two HTML elements with one id: the later one resolves to the earlier. */
  lemma SharedIdResolvesToTheFirst(d: Document, a: NodeId, b: NodeId)
    requires WellFormed(d.elements) && LooksUp(d) && InDocument(d, a) && InDocument(d, b)
    requires a != b && d.html(a) && d.idOf(a) == d.idOf(b) != "" && d.byId(d.idOf(a)) == Some(a)
    ensures ResolveElement(d, AddressOf(d, b).value) == Some(a)
  {}

  // ---- Nested documents ----

  type World = map<DocId, Document>

  /** Documents are trees with unique ids; frames are HTML iframes and lead to documents of the world. */
  ghost predicate WorldOk(w: World) {
    forall d :: d in w ==> DocumentOk(w, w[d])
  }

  ghost predicate DocumentOk(w: World, d: Document) {
    && WellFormed(d.elements) && LooksUp(d) && UniqueIds(d)
    && (forall f: NodeId :: d.content(f).Some? ==> d.content(f).value in w)
    && (forall i :: 0 <= i < |d.frames| ==> d.html(d.frames[i]) && d.iframe(d.frames[i]))
  }

  function ResolveDocument(w: World, root: DocId, frames: seq<ElementAddress>): Option<DocId>
    decreases |frames|
  {
    if frames == [] then Some(root)
    else if root !in w then None
    else
      var f := ResolveElement(w[root], frames[0]);
      if f.None? || !w[root].iframe(f.value) || w[root].content(f.value).None? then None
      else ResolveDocument(w, w[root].content(f.value).value, frames[1..])
  }

  lemma {:induction false} ResolveInner(w: World, root: DocId, frames: seq<ElementAddress>, a: ElementAddress)
    ensures var outer := ResolveDocument(w, root, frames);
      outer.Some? ==> ResolveDocument(w, root, frames + [a]) == ResolveDocument(w, outer.value, [a])
    decreases |frames|
  {
    if frames == [] {
      assert [] + [a] == [a];
    } else if root in w {
      var f := ResolveElement(w[root], frames[0]);
      assert (frames + [a])[1..] == frames[1..] + [a];
      if f.Some? && w[root].content(f.value).Some? {
        ResolveInner(w, w[root].content(f.value).value, frames[1..], a);
      }
    }
  }

  /** The document in a frame, addressed from the root through the frame's own address. */
  lemma FrameAddressResolves(w: World, root: DocId, d: DocId, frames: seq<ElementAddress>, f: NodeId)
    requires WorldOk(w) && d in w && ResolveDocument(w, root, frames) == Some(d)
    requires f in w[d].frames && AddressOf(w[d], f).Some? && w[d].content(f).Some?
    ensures ResolveDocument(w, root, frames + [AddressOf(w[d], f).value]) == w[d].content(f)
  {
    assert DocumentOk(w, w[d]);
    var i :| 0 <= i < |w[d].frames| && w[d].frames[i] == f;
    assert w[d].html(f) && w[d].iframe(f);
    var a := AddressOf(w[d], f).value;
    ElementRoundTrip(w[d], f);
    ResolveInner(w, root, frames, a);
    assert [a][1..] == [];
    assert ResolveDocument(w, w[d].content(f).value, []) == w[d].content(f);
  }

  /** The documents one frame below `d` that an address can reach. */
  function Inner(w: World, d: DocId): set<DocId>
    requires d in w && WellFormed(w[d].elements)
  {
    set i | 0 <= i < |w[d].frames| && AddressOf(w[d], w[d].frames[i]).Some? && w[d].content(w[d].frames[i]).Some?
      :: w[d].content(w[d].frames[i]).value
  }

  /** Every document seen after `before`, except an open one, has its inner documents seen as well. */
  ghost predicate Closed(w: World, seen: set<DocId>, before: set<DocId>, open: set<DocId>) {
    forall d :: d in seen && d !in before && d !in open ==> d in w && WellFormed(w[d].elements) && Inner(w, d) <= seen
  }

  lemma ClosedGrows(w: World, seen: set<DocId>, more: set<DocId>, before: set<DocId>, open: set<DocId>)
    requires Closed(w, seen, before, open) && seen <= more && Closed(w, more, seen, {})
    ensures Closed(w, more, before, open)
  {}

  ghost predicate FramesSeen(d: Document, n: nat, seen: set<DocId>)
    requires WellFormed(d.elements) && n <= |d.frames|
  {
    forall k :: 0 <= k < n && AddressOf(d, d.frames[k]).Some? && d.content(d.frames[k]).Some? ==>
      d.content(d.frames[k]).value in seen
  }

  lemma FramesSeenClose(w: World, document: DocId, seen: set<DocId>, before: set<DocId>)
    requires document in w && WellFormed(w[document].elements) && Closed(w, seen, before, {document})
    requires FramesSeen(w[document], |w[document].frames|, seen)
    ensures Closed(w, seen, before, {})
  {
    assert Inner(w, document) <= seen;
  }
}

module Addresses {
  import opened Protocol
  import opened AddressModel

  function Extended(above: Option<seq<nat>>, below: seq<nat>): Option<seq<nat>> {
    if above.None? then None else Some(above.value + below)
  }

  lemma StepUp(t: Tree, root: NodeId, node: NodeId, below: seq<nat>)
    requires WellFormed(t) && node != root && node in t.parent
    ensures var i := IndexOf(Kids(t, t.parent[node]), node);
      i >= 0 && Extended(PathTo(t, root, node), below) == Extended(PathTo(t, root, t.parent[node]), [i] + below)
  {
    var i := IndexOf(Kids(t, t.parent[node]), node);
    var above := PathTo(t, root, t.parent[node]);
    if above.Some? {
      assert (above.value + [i]) + below == above.value + ([i] + below);
    }
  }

  lemma ExtendedByNothing(above: Option<seq<nat>>)
    ensures Extended(above, []) == above
  {
    if above.Some? { assert above.value + [] == above.value; }
  }

  lemma AtRoot(t: Tree, root: NodeId, below: seq<nat>)
    requires WellFormed(t)
    ensures Extended(PathTo(t, root, root), below) == Some(below)
  {
    assert [] + below == below;
  }

  /** Walks up from the node, putting each index in front. */
  method NodeAddress(t: Tree, node: NodeId, root: NodeId) returns (path: Option<seq<nat>>)
    requires WellFormed(t)
    ensures path == PathTo(t, root, node)
  {
    ghost var whole := PathTo(t, root, node);
    ExtendedByNothing(whole);
    var current := node;
    var below: seq<nat> := [];
    while current != root
      invariant Extended(PathTo(t, root, current), below) == whole
      decreases Depth(t, current)
    {
      if current !in t.parent { return None; }
      var parent := t.parent[current];
      var index := IndexOf(Kids(t, parent), current);
      StepUp(t, root, current, below);
      if index < 0 { return None; }
      below := [index] + below;
      current := parent;
    }
    AtRoot(t, root, below);
    return Some(below);
  }

  method ResolveNode(t: Tree, path: seq<nat>, root: NodeId) returns (node: Option<NodeId>)
    ensures node == Follow(t, root, path)
  {
    var current := root;
    for i := 0 to |path|
      invariant Follow(t, current, path[i..]) == Follow(t, root, path)
    {
      assert path[i..][0] == path[i] && path[i..][1..] == path[i + 1..];
      if path[i] >= |Kids(t, current)| { return None; }
      current := Kids(t, current)[path[i]];
    }
    return Some(current);
  }

  method ResolveDocumentAddress(w: World, frames: seq<ElementAddress>, root: DocId) returns (d: Option<DocId>)
    requires WorldOk(w) && root in w
    ensures d == ResolveDocument(w, root, frames)
  {
    var document := root;
    for i := 0 to |frames|
      invariant document in w && ResolveDocument(w, document, frames[i..]) == ResolveDocument(w, root, frames)
    {
      assert frames[i..][0] == frames[i] && frames[i..][1..] == frames[i + 1..];
      assert DocumentOk(w, w[document]);
      var frame := ResolveElement(w[document], frames[i]);
      if frame.None? || !w[document].iframe(frame.value) { return None; }
      var child := w[document].content(frame.value);
      if child.None? { return None; }
      document := child.value;
    }
    return Some(document);
  }

  datatype Visit = Visit(document: DocId, frames: seq<ElementAddress>)

  /** The walk over same-origin documents, with its shared set of documents seen. */
  class DocumentWalk {
    const world: World
    const root: DocId
    var seen: set<DocId>
    var visits: seq<Visit>

    /** Every visit's address resolves to its document; documents seen are those visited, once each. */
    ghost predicate Valid()
      reads this
    {
      && WorldOk(world) && seen <= world.Keys
      && (forall i :: 0 <= i < |visits| ==> ResolveDocument(world, root, visits[i].frames) == Some(visits[i].document))
      && (forall d :: d in seen <==> exists i :: 0 <= i < |visits| && visits[i].document == d)
      && (forall i, j :: 0 <= i < j < |visits| ==> visits[i].document != visits[j].document)
    }

    constructor (world: World, root: DocId)
      requires WorldOk(world) && root in world
      ensures Valid() && seen == {} && visits == [] && this.world == world && this.root == root
    {
      this.world, this.root := world, root;
      seen, visits := {}, [];
    }

    /** Everything seen by this call has all its inner documents seen when it returns. */
    method Walk(document: DocId, frames: seq<ElementAddress>)
      requires Valid() && document in world && ResolveDocument(world, root, frames) == Some(document)
      modifies this`seen, this`visits
      ensures Valid() && document in seen && old(seen) <= seen && old(visits) <= visits
      ensures Closed(world, seen, old(seen), {})
      decreases world.Keys - seen, 1
    {
      if document in seen { return; }
      MarkSeen(document, frames);
      assert DocumentOk(world, world[document]);
      WalkFrames(document, frames, old(seen));
      FramesSeenClose(world, document, seen, old(seen));
    }

    method WalkFrames(document: DocId, frames: seq<ElementAddress>, ghost before: set<DocId>)
      requires Valid() && document in seen && ResolveDocument(world, root, frames) == Some(document)
      requires WellFormed(world[document].elements) && Closed(world, seen, before, {document})
      modifies this`seen, this`visits
      ensures Valid() && old(seen) <= seen && old(visits) <= visits
      ensures Closed(world, seen, before, {document}) && FramesSeen(world[document], |world[document].frames|, seen)
      decreases world.Keys - seen, 3
    {
      for i := 0 to |world[document].frames|
        invariant Valid() && old(seen) <= seen && old(visits) <= visits
        invariant Closed(world, seen, before, {document}) && FramesSeen(world[document], i, seen)
      {
        ghost var sofar := seen;
        assert world.Keys - seen <= world.Keys - old(seen);
        WalkFrame(document, frames, i, before);
        FramesSeenOne(world[document], i, sofar, seen);
      }
    }

    lemma FramesSeenOne(d: Document, i: nat, before: set<DocId>, after: set<DocId>)
      requires WellFormed(d.elements) && i < |d.frames| && FramesSeen(d, i, before) && before <= after
      requires AddressOf(d, d.frames[i]).Some? && d.content(d.frames[i]).Some? ==> d.content(d.frames[i]).value in after
      ensures FramesSeen(d, i + 1, after)
    {}

    method WalkFrame(document: DocId, frames: seq<ElementAddress>, i: nat, ghost before: set<DocId>)
      requires Valid() && document in seen && ResolveDocument(world, root, frames) == Some(document)
      requires WellFormed(world[document].elements) && Closed(world, seen, before, {document})
      requires i < |world[document].frames|
      modifies this`seen, this`visits
      ensures Valid() && old(seen) <= seen && old(visits) <= visits && Closed(world, seen, before, {document})
      ensures var d := world[document]; var f := d.frames[i];
        AddressOf(d, f).Some? && d.content(f).Some? ==> d.content(f).value in seen
      decreases world.Keys - seen, 2
    {
      var d := world[document];
      var frame := d.frames[i];
      var address := AddressOf(d, frame);
      var child := d.content(frame);
      if address.None? || child.None? { return; }
      FrameAddressResolves(world, root, document, frames, frame);
      assert DocumentOk(world, d);
      Walk(child.value, frames + [address.value]);
      ClosedGrows(world, old(seen), seen, before, {document});
    }

    method MarkSeen(document: DocId, frames: seq<ElementAddress>)
      requires Valid() && document in world && document !in seen
      requires ResolveDocument(world, root, frames) == Some(document)
      modifies this`seen, this`visits
      ensures Valid() && seen == old(seen) + {document} && visits == old(visits) + [Visit(document, frames)]
    {
      seen := seen + {document};
      visits := visits + [Visit(document, frames)];
      forall d
        ensures d in seen <==> exists i :: 0 <= i < |visits| && visits[i].document == d
      {
        if d in old(seen) {
          var i :| 0 <= i < |old(visits)| && old(visits)[i].document == d;
          assert visits[i].document == d;
        } else if d == document {
          assert visits[|visits| - 1].document == d;
        }
      }
    }
  }
}
