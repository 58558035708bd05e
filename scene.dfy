/**
  * The scene as the engine sees it: game objects with identity, a parent, a
  * layer, an active flag and an "alive" flag (false once DestroyImmediate has
  * run on it, which is when Unity starts comparing the object to null).
  * Components the engine uses (Renderer, SpriteRenderer, Camera) are fields.
  */
module SceneModel {
  import opened Wrappers
  import opened Geometry

  type NodeId = nat
  type Layer = int

  /** The layer every node of the render group is moved onto (IconRendererEngine.TempLayer). */
  const TempLayer: Layer := 31

  /** A sprite asset; only its identity matters here. */
  class Sprite {
    constructor () {}
  }

  datatype Rotation = Identity | Euler(degrees: Vec3)

  datatype SpriteRendererState = SpriteRendererState(sprite: Sprite?, sortingOrder: int, color: Color, enabled: bool)

  datatype ClearFlags = Skybox | SolidColor

  datatype CameraState = CameraState(
    clearFlags: ClearFlags,
    backgroundColor: Color,
    targetTexture: Option<nat>,
    orthographic: bool,
    orthographicSize: real,
    cullingMask: bv32)

  /** What AddComponent<Camera>() gives: skybox clear, perspective, size 5, every layer visible. */
  const NewCamera := CameraState(Skybox, Color(49.0 / 255.0, 77.0 / 255.0, 121.0 / 255.0, 5.0 / 255.0), None, false, 5.0, 0xFFFF_FFFF)

  /** What AddComponent<SpriteRenderer>() gives. */
  const NewSpriteRenderer := SpriteRendererState(null, 0, White, true)

  /**
    * One game object. `renderer` is a Renderer other than the decoration
    * sprites, with its box relative to the object's own position.
    */
  datatype Node = Node(
    name: string,
    parent: Option<NodeId>,
    layer: Layer,
    activeSelf: bool,
    alive: bool,
    localPosition: Vec3,
    rotation: Rotation,
    scale: real,
    spriteRenderer: Option<SpriteRendererState>,
    renderer: Option<Bounds>,
    camera: Option<CameraState>)

  /** `new GameObject(name)`: a root at the origin on layer 0, active, without components. */
  function NewNode(name: string): Node {
    Node(name, None, 0, true, true, Zero, Identity, 1.0, None, None, None)
  }

  /** One object of a prefab's hierarchy; `parentIndex` points at an earlier entry, or is negative for the root. */
  datatype Part = Part(
    name: string,
    parentIndex: int,
    layer: Layer,
    activeSelf: bool,
    localPosition: Vec3,
    rotation: Rotation,
    scale: real,
    renderer: Option<Bounds>)

  predicate IsHierarchy(parts: seq<Part>) {
    && |parts| > 0
    && parts[0].parentIndex < 0
    && forall i :: 0 < i < |parts| ==> 0 <= parts[i].parentIndex < i
  }

  /** A prefab's objects listed parents first, the root at index 0. */
  type Hierarchy = parts: seq<Part> | IsHierarchy(parts)
    witness [Part("", -1, 0, true, Vec3(0.0, 0.0, 0.0), Identity, 1.0, None)]

  /** A prefab (or any GameObject handed to the engine): a name and the hierarchy Instantiate copies. */
  class Prefab {
    const name: string
    const hierarchy: Hierarchy

    constructor (name: string, hierarchy: Hierarchy)
      ensures this.name == name && this.hierarchy == hierarchy
    {
      this.name := name;
      this.hierarchy := hierarchy;
    }
  }

  // ---------------------------------------------------------------------------
  // Well-formed scenes and the functions derived from the parent links
  // ---------------------------------------------------------------------------

  /** Ids are handed out in creation order, so a parent is always older than its children. */
  ghost predicate WellFormed(nodes: map<NodeId, Node>, next: NodeId) {
    forall id :: id in nodes ==> id < next && ParentBefore(nodes, id)
  }

  ghost predicate ParentBefore(nodes: map<NodeId, Node>, id: NodeId)
    requires id in nodes
  {
    nodes[id].parent.Some? ==> nodes[id].parent.value < id && nodes[id].parent.value in nodes
  }

  /** `id` is `root` or lies below it (a Transform of root.GetComponentsInChildren). */
  function IsDescendant(nodes: map<NodeId, Node>, id: NodeId, root: NodeId): bool
    decreases id
  {
    || id == root
    || (id in nodes && nodes[id].parent.Some? && nodes[id].parent.value < id
        && IsDescendant(nodes, nodes[id].parent.value, root))
  }

  /** GameObject.activeInHierarchy: the object and all its ancestors are active. */
  function ActiveInHierarchy(nodes: map<NodeId, Node>, id: NodeId): bool
    decreases id
  {
    && id in nodes
    && nodes[id].activeSelf
    && (nodes[id].parent.None?
        || (nodes[id].parent.value < id && ActiveInHierarchy(nodes, nodes[id].parent.value)))
  }

  /** transform.position: the local positions summed along the parent chain. */
  function WorldPosition(nodes: map<NodeId, Node>, id: NodeId): Vec3
    decreases id
  {
    if id !in nodes then Zero
    else match nodes[id].parent
      case Some(p) => if p < id then nodes[id].localPosition.Plus(WorldPosition(nodes, p)) else nodes[id].localPosition
      case None => nodes[id].localPosition
  }

  /** The local position that puts `id` at world position `w` under its current parent. */
  function LocalFor(nodes: map<NodeId, Node>, id: NodeId, w: Vec3): Vec3
    requires id in nodes
  {
    match nodes[id].parent
    case Some(p) => if p < id then w.Minus(WorldPosition(nodes, p)) else w
    case None => w
  }

  /** A live object in the subtree of `root`, whether active or not. */
  predicate InSubtree(nodes: map<NodeId, Node>, id: NodeId, root: NodeId) {
    id in nodes && nodes[id].alive && IsDescendant(nodes, id, root)
  }

  /** A Renderer that root.GetComponentsInChildren<Renderer>() returns: live, active in the hierarchy, below root. */
  predicate IsRendererOf(nodes: map<NodeId, Node>, id: NodeId, root: NodeId) {
    InSubtree(nodes, id, root) && ActiveInHierarchy(nodes, id) && nodes[id].renderer.Some?
  }

  predicate Increasing(ids: seq<NodeId>) {
    forall j, k :: 0 <= j < k < |ids| ==> ids[j] < ids[k]
  }

  /** root.GetComponentsInChildren<Transform>(true) over the ids below `n`, in id order. */
  function Subtree(nodes: map<NodeId, Node>, root: NodeId, n: nat): (ids: seq<NodeId>)
    ensures forall k :: 0 <= k < |ids| ==> ids[k] < n
    ensures forall id: NodeId :: id in ids <==> id < n && InSubtree(nodes, id, root)
    ensures Increasing(ids)
  {
    if n == 0 then []
    else Subtree(nodes, root, n - 1) + (if InSubtree(nodes, n - 1, root) then [n - 1] else [])
  }

  /** root.GetComponentsInChildren<Renderer>() over the ids below `n`, in id order. */
  function Renderers(nodes: map<NodeId, Node>, root: NodeId, n: nat): (ids: seq<NodeId>)
    ensures forall k :: 0 <= k < |ids| ==> ids[k] < n
    ensures forall id: NodeId :: id in ids <==> id < n && IsRendererOf(nodes, id, root)
    ensures Increasing(ids)
  {
    if n == 0 then []
    else Renderers(nodes, root, n - 1) + (if IsRendererOf(nodes, n - 1, root) then [n - 1] else [])
  }

  /** Renderer.bounds: the renderer's box at the object's world position. */
  function WorldBounds(nodes: map<NodeId, Node>, id: NodeId): Bounds {
    if id in nodes && nodes[id].renderer.Some?
    then Translate(nodes[id].renderer.value, WorldPosition(nodes, id))
    else BoundsAt(WorldPosition(nodes, id), Zero)
  }

  function BoundsList(nodes: map<NodeId, Node>, ids: seq<NodeId>): (bs: seq<Bounds>)
    ensures |bs| == |ids| && forall i :: 0 <= i < |ids| ==> bs[i] == WorldBounds(nodes, ids[i])
  {
    seq(|ids|, i requires 0 <= i < |ids| => WorldBounds(nodes, ids[i]))
  }

  /** The size of the box GetRenderableBounds returns for an object without renderers: 0.5 in all, not per side. */
  const NoRendererSize := One.Times(0.5)

  /** What GetRenderableBounds(go) evaluates to, with `n` bounding the ids in the scene. */
  function RenderableBounds(nodes: map<NodeId, Node>, go: NodeId, n: nat): Bounds {
    var bs := BoundsList(nodes, Renderers(nodes, go, n));
    if |bs| == 0 then BoundsAt(WorldPosition(nodes, go), NoRendererSize) else Union(bs[0], bs)
  }

  // ---------------------------------------------------------------------------
  // Layers, destruction and the traces a render may leave
  // ---------------------------------------------------------------------------

  /** Every node of `ids` moved onto `layer`, the others as they were. */
  function WithLayer(nodes: map<NodeId, Node>, ids: set<NodeId>, layer: Layer): map<NodeId, Node> {
    map id | id in nodes :: if id in ids then nodes[id].(layer := layer) else nodes[id]
  }

  /** The layers of the nodes of `ids`, keyed by node. */
  function LayersOf(nodes: map<NodeId, Node>, ids: set<NodeId>): map<NodeId, Layer> {
    map id | id in ids && id in nodes :: nodes[id].layer
  }

  /** Every live key of `data` set back to its recorded layer; destroyed keys and other nodes untouched. */
  function Restored(nodes: map<NodeId, Node>, data: map<NodeId, Layer>): map<NodeId, Node> {
    map id | id in nodes :: if id in data && nodes[id].alive then nodes[id].(layer := data[id]) else nodes[id]
  }

  /** Restoring the recorded layers of live nodes undoes moving them: the round trip of layer isolation. */
  lemma RestoreUndoesIsolation(nodes: map<NodeId, Node>, ids: set<NodeId>, layer: Layer)
    requires forall id :: id in ids ==> id in nodes && nodes[id].alive
    ensures Restored(WithLayer(nodes, ids, layer), LayersOf(nodes, ids)) == nodes
  {
    var back := Restored(WithLayer(nodes, ids, layer), LayersOf(nodes, ids));
    forall id | id in nodes ensures back[id] == nodes[id] {
    }
    assert back.Keys == nodes.Keys;
  }

  /** DestroyImmediate(root): root and everything below it are destroyed. */
  function Destroyed(nodes: map<NodeId, Node>, root: NodeId): map<NodeId, Node> {
    map id | id in nodes :: if IsDescendant(nodes, id, root) then nodes[id].(alive := false) else nodes[id]
  }

  /** No node that existed before was changed or removed. */
  ghost predicate Untouched(before: map<NodeId, Node>, after: map<NodeId, Node>) {
    forall id :: id in before ==> id in after && after[id] == before[id]
  }

  /** As Untouched, and every node created since is destroyed again. */
  ghost predicate NoTrace(before: map<NodeId, Node>, after: map<NodeId, Node>) {
    Untouched(before, after) && forall id :: id in after && id !in before ==> !after[id].alive
  }

  function LiveSet(nodes: map<NodeId, Node>): set<NodeId> {
    set id | id in nodes && nodes[id].alive
  }

  /** A render that leaves no trace leaves exactly the same objects alive, by identity. */
  lemma NoTraceKeepsLiveSet(before: map<NodeId, Node>, after: map<NodeId, Node>)
    requires NoTrace(before, after)
    ensures LiveSet(after) == LiveSet(before)
  {
  }

  // ---------------------------------------------------------------------------
  // Lemmas about the parent structure
  // ---------------------------------------------------------------------------

  /** Descendants are never older than their root. */
  lemma {:induction false} DescendantNotOlder(nodes: map<NodeId, Node>, id: NodeId, root: NodeId)
    requires IsDescendant(nodes, id, root)
    ensures root <= id
    decreases id
  {
    if id != root {
      DescendantNotOlder(nodes, nodes[id].parent.value, root);
    }
  }

  lemma {:induction false} DescendantTransitive(nodes: map<NodeId, Node>, a: NodeId, b: NodeId, c: NodeId)
    requires IsDescendant(nodes, a, b) && IsDescendant(nodes, b, c)
    ensures IsDescendant(nodes, a, c)
    decreases a
  {
    if a != b {
      DescendantTransitive(nodes, nodes[a].parent.value, b, c);
    }
  }

  /** The two maps have the same nodes below `n`, with the same parents. */
  ghost predicate ParentsAgree(m1: map<NodeId, Node>, m2: map<NodeId, Node>, n: nat) {
    forall id :: id < n ==> (id in m1 <==> id in m2) && (id in m1 ==> m1[id].parent == m2[id].parent)
  }

  /** As ParentsAgree, and the same alive and active flags and renderers. */
  ghost predicate StructureAgrees(m1: map<NodeId, Node>, m2: map<NodeId, Node>, n: nat) {
    && ParentsAgree(m1, m2, n)
    && forall id :: id < n && id in m1 ==>
         m1[id].alive == m2[id].alive && m1[id].activeSelf == m2[id].activeSelf && m1[id].renderer == m2[id].renderer
  }

  /** As StructureAgrees, and the same local positions. */
  ghost predicate ShapesAgree(m1: map<NodeId, Node>, m2: map<NodeId, Node>, n: nat) {
    StructureAgrees(m1, m2, n) && forall id :: id < n && id in m1 ==> m1[id].localPosition == m2[id].localPosition
  }

  lemma {:induction false} DescendantAgrees(m1: map<NodeId, Node>, m2: map<NodeId, Node>, n: nat, id: NodeId, root: NodeId)
    requires ParentsAgree(m1, m2, n) && id < n
    ensures IsDescendant(m1, id, root) == IsDescendant(m2, id, root)
    decreases id
  {
    if id in m1 && m1[id].parent.Some? && m1[id].parent.value < id {
      DescendantAgrees(m1, m2, n, m1[id].parent.value, root);
    }
  }

  lemma {:induction false} ActiveAgrees(m1: map<NodeId, Node>, m2: map<NodeId, Node>, n: nat, id: NodeId)
    requires StructureAgrees(m1, m2, n) && id < n
    ensures ActiveInHierarchy(m1, id) == ActiveInHierarchy(m2, id)
    decreases id
  {
    if id in m1 && m1[id].parent.Some? && m1[id].parent.value < id {
      ActiveAgrees(m1, m2, n, m1[id].parent.value);
    }
  }

  lemma {:induction false} WorldAgrees(m1: map<NodeId, Node>, m2: map<NodeId, Node>, n: nat, id: NodeId)
    requires ShapesAgree(m1, m2, n) && id < n
    ensures WorldPosition(m1, id) == WorldPosition(m2, id)
    decreases id
  {
    if id in m1 && m1[id].parent.Some? && m1[id].parent.value < id {
      WorldAgrees(m1, m2, n, m1[id].parent.value);
    }
  }

  lemma {:induction false} SubtreeAgrees(m1: map<NodeId, Node>, m2: map<NodeId, Node>, n: nat, k: nat, root: NodeId)
    requires StructureAgrees(m1, m2, n) && k <= n
    ensures Subtree(m1, root, k) == Subtree(m2, root, k)
  {
    if k > 0 {
      SubtreeAgrees(m1, m2, n, k - 1, root);
      DescendantAgrees(m1, m2, n, k - 1, root);
    }
  }

  lemma {:induction false} RenderersAgree(m1: map<NodeId, Node>, m2: map<NodeId, Node>, n: nat, k: nat, root: NodeId)
    requires StructureAgrees(m1, m2, n) && k <= n
    ensures Renderers(m1, root, k) == Renderers(m2, root, k)
  {
    if k > 0 {
      RenderersAgree(m1, m2, n, k - 1, root);
      DescendantAgrees(m1, m2, n, k - 1, root);
      ActiveAgrees(m1, m2, n, k - 1);
    }
  }

  /** Ids at or above `lo` that hold no renderer below `root` do not change the list. */
  lemma {:induction false} RenderersIgnoreOthers(m: map<NodeId, Node>, root: NodeId, lo: nat, hi: nat)
    requires lo <= hi
    requires forall id :: lo <= id < hi ==> !IsRendererOf(m, id, root)
    ensures Renderers(m, root, hi) == Renderers(m, root, lo)
    decreases hi
  {
    if hi > lo {
      RenderersIgnoreOthers(m, root, lo, hi - 1);
    }
  }

  /**
    * Changing nodes in ways the bounds do not depend on, and adding nodes
    * outside `go`'s subtree, leaves GetRenderableBounds(go) as it was.
    */
  lemma RenderableBoundsStable(m1: map<NodeId, Node>, n1: nat, m2: map<NodeId, Node>, n2: nat, go: NodeId)
    requires ShapesAgree(m1, m2, n1) && n1 <= n2 && go < n1
    requires forall id :: n1 <= id < n2 ==> !IsRendererOf(m2, id, go)
    ensures RenderableBounds(m2, go, n2) == RenderableBounds(m1, go, n1)
  {
    RenderersIgnoreOthers(m2, go, n1, n2);
    RenderersAgree(m1, m2, n1, n1, go);
    var ids := Renderers(m1, go, n1);
    forall i | 0 <= i < |ids| ensures WorldBounds(m1, ids[i]) == WorldBounds(m2, ids[i]) {
      WorldAgrees(m1, m2, n1, ids[i]);
    }
    assert BoundsList(m1, ids) == BoundsList(m2, ids);
    WorldAgrees(m1, m2, n1, go);
  }

  /** The scene with object `c` moved by `d` relative to its parent. */
  function Moved(m: map<NodeId, Node>, c: NodeId, d: Vec3): map<NodeId, Node>
    requires c in m
  {
    m[c := m[c].(localPosition := m[c].localPosition.Plus(d))]
  }

  /** Moving `c` by `d` moves exactly the objects below it by `d`. */
  lemma {:induction false} MoveShiftsSubtree(m: map<NodeId, Node>, c: NodeId, d: Vec3, id: NodeId)
    requires c in m
    ensures WorldPosition(Moved(m, c, d), id)
         == if IsDescendant(m, id, c) then WorldPosition(m, id).Plus(d) else WorldPosition(m, id)
    decreases id
  {
    if id in m && m[id].parent.Some? && m[id].parent.value < id {
      var p := m[id].parent.value;
      MoveShiftsSubtree(m, c, d, p);
      if id == c {
        assert !IsDescendant(m, p, c) by {
          if IsDescendant(m, p, c) { DescendantNotOlder(m, p, c); }
        }
      }
    }
  }

  lemma WorldBoundsMoved(m: map<NodeId, Node>, c: NodeId, d: Vec3, id: NodeId)
    requires c in m && id in m && m[id].renderer.Some? && IsDescendant(m, id, c)
    ensures WorldBounds(Moved(m, c, d), id) == Translate(WorldBounds(m, id), d)
  {
    MoveShiftsSubtree(m, c, d, id);
    var r, w := m[id].renderer.value, WorldPosition(m, id);
    assert Moved(m, c, d)[id].renderer == Some(r);
    assert Translate(r, w.Plus(d)) == Translate(Translate(r, w), d);
  }

  /** Under a move of `c`, every renderer below `c` has its world box moved by `d`. */
  lemma MovedBoundsList(m: map<NodeId, Node>, n: nat, c: NodeId, d: Vec3)
    requires c in m
    ensures BoundsList(Moved(m, c, d), Renderers(m, c, n)) == TranslateAll(BoundsList(m, Renderers(m, c, n)), d)
  {
    var ids := Renderers(m, c, n);
    var bs := BoundsList(m, ids);
    forall i | 0 <= i < |ids| ensures WorldBounds(Moved(m, c, d), ids[i]) == Translate(bs[i], d) {
      assert ids[i] in ids;
      WorldBoundsMoved(m, c, d, ids[i]);
    }
  }


  /** Moving the object `c` by `d` moves its GetRenderableBounds by `d`. */
  lemma MoveShiftsRenderableBounds(m: map<NodeId, Node>, n: nat, c: NodeId, d: Vec3)
    requires c in m
    ensures RenderableBounds(Moved(m, c, d), c, n) == Translate(RenderableBounds(m, c, n), d)
  {
    var m' := Moved(m, c, d);
    assert StructureAgrees(m, m', n);
    RenderersAgree(m, m', n, n, c);
    var bs := BoundsList(m, Renderers(m, c, n));
    MovedBoundsList(m, n, c, d);
    MoveShiftsSubtree(m, c, d, c);
    if |bs| == 0 {
      BoundsAtTranslate(WorldPosition(m, c), NoRendererSize, d);
    } else {
      UnionTranslate(bs[0], bs, d);
    }
  }

}

module SceneObjects {
  import opened Wrappers
  import opened Geometry
  import opened SceneModel

  /** The node that copies entry `i` of a hierarchy placed at ids base, base + 1, ... */
  function CopyNode(parts: Hierarchy, i: nat, base: NodeId, rootName: string): Node
    requires i < |parts|
  {
    var p := parts[i];
    Node(if i == 0 then rootName else p.name,
         if p.parentIndex < 0 then None else Some(base + p.parentIndex),
         p.layer, p.activeSelf, true, p.localPosition, p.rotation, p.scale, None, p.renderer, None)
  }

  /** Object.Instantiate(prefab): a copy of the whole hierarchy at ids from `base`, its root named "<name>(Clone)". */
  function Copies(prefab: Prefab, base: NodeId): map<NodeId, Node> {
    map id | id in IdRange(base, |prefab.hierarchy|) :: CopyNode(prefab.hierarchy, id - base, base, prefab.name + "(Clone)")
  }

  /** The ids base, ..., base + count - 1. */
  function IdRange(base: NodeId, count: nat): (ids: set<NodeId>)
    ensures forall id: NodeId :: id in ids <==> base <= id < base + count
  {
    if count == 0 then {} else IdRange(base, count - 1) + {base + count - 1}
  }

  /** Every copied object lies below the copy's root, wherever that root was attached since. */
  lemma {:induction false} CopyBelowRoot(m: map<NodeId, Node>, prefab: Prefab, base: NodeId, id: NodeId)
    requires base <= id < base + |prefab.hierarchy|
    requires forall j: NodeId :: base < j < base + |prefab.hierarchy| ==> j in m && m[j] == Copies(prefab, base)[j]
    ensures IsDescendant(m, id, base)
    decreases id
  {
    if id > base {
      var p := base + prefab.hierarchy[id - base].parentIndex;
      assert id in IdRange(base, |prefab.hierarchy|);
      assert m[id].parent == Some(p);
      CopyBelowRoot(m, prefab, base, p);
    }
  }

  /** Changing nodes without touching any parent link keeps a scene well formed. */
  lemma SameParentsWellFormed(m1: map<NodeId, Node>, m2: map<NodeId, Node>, n: NodeId)
    requires WellFormed(m1, n) && m2.Keys == m1.Keys
    requires forall id :: id in m1 ==> m2[id].parent == m1[id].parent
    ensures WellFormed(m2, n)
  {
    forall id | id in m2 ensures id < n && ParentBefore(m2, id) {
      assert ParentBefore(m1, id);
    }
  }

  /** Replacing one node leaves everything older than it as it was. */
  lemma UpdateKeepsOlder(m: map<NodeId, Node>, id: NodeId, node: Node)
    ensures ShapesAgree(m, m[id := node], id)
  {
  }

  /** The open scene, as far as the engine reads and changes it. */
  class Scene {
    var nodes: map<NodeId, Node>
    var next: NodeId

    ghost predicate Valid()
      reads this
    {
      WellFormed(nodes, next)
    }

    constructor (nodes: map<NodeId, Node>, next: NodeId)
      requires WellFormed(nodes, next)
      ensures Valid() && this.nodes == nodes && this.next == next
    {
      this.nodes := nodes;
      this.next := next;
    }

    /** `new GameObject(name)`. */
    method NewGameObject(name: string) returns (id: NodeId)
      requires Valid()
      modifies this
      ensures Valid() && id == old(next) && next == old(next) + 1
      ensures nodes == old(nodes)[id := NewNode(name)]
    {
      id := next;
      nodes := nodes[id := NewNode(name)];
      next := next + 1;
    }

    /** Any change to one node that keeps its parent: adding a component, setting a field. */
    method Update(id: NodeId, node: Node)
      requires Valid() && id in nodes && node.parent == nodes[id].parent
      modifies this
      ensures Valid() && next == old(next) && nodes == old(nodes)[id := node]
    {
      SameParentsWellFormed(nodes, nodes[id := node], next);
      nodes := nodes[id := node];
    }

    /** transform.SetParent(parent): the world position is kept, so the local position is recomputed. */
    method SetParent(id: NodeId, parent: NodeId)
      requires Valid() && id in nodes && parent in nodes && parent < id
      modifies this
      ensures Valid() && next == old(next)
      ensures nodes == old(nodes)[id := old(nodes)[id].(
                parent := Some(parent),
                localPosition := old(WorldPosition(nodes, id)).Minus(old(WorldPosition(nodes, parent))))]
    {
      var local := WorldPosition(nodes, id).Minus(WorldPosition(nodes, parent));
      nodes := nodes[id := nodes[id].(parent := Some(parent), localPosition := local)];
    }

    /** transform.position = w. */
    method SetPosition(id: NodeId, w: Vec3)
      requires Valid() && id in nodes
      modifies this
      ensures Valid() && next == old(next)
      ensures nodes == old(nodes)[id := old(nodes)[id].(localPosition := LocalFor(old(nodes), id, w))]
      ensures WorldPosition(nodes, id) == w
    {
      var m := nodes;
      var node := m[id].(localPosition := LocalFor(m, id, w));
      UpdateKeepsOlder(m, id, node);
      if m[id].parent.Some? {
        WorldAgrees(m, m[id := node], id, m[id].parent.value);
      }
      Update(id, node);
    }

    /** Object.Instantiate(prefab): the copy is a new root. */
    method Instantiate(prefab: Prefab) returns (root: NodeId)
      requires Valid()
      modifies this
      ensures Valid() && root == old(next) && next == old(next) + |prefab.hierarchy|
      ensures nodes == old(nodes) + Copies(prefab, root)
    {
      root := next;
      var copies := Copies(prefab, root);
      nodes := nodes + copies;
      next := next + |prefab.hierarchy|;
      forall id | id in nodes ensures id < next && ParentBefore(nodes, id) {
        if id in copies {
          assert nodes[id] == CopyNode(prefab.hierarchy, id - root, root, prefab.name + "(Clone)");
        }
      }
    }

    /** Object.DestroyImmediate(root): the object and its whole subtree are destroyed. */
    method DestroyImmediate(root: NodeId)
      requires Valid()
      modifies this
      ensures Valid() && next == old(next) && nodes == Destroyed(old(nodes), root)
    {
      SameParentsWellFormed(nodes, Destroyed(nodes, root), next);
      nodes := Destroyed(nodes, root);
    }
  }
}
