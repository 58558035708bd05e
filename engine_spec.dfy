/**
  * What IconRendererEngine promises, stated on values: the result of a render
  * for every way it can fail, how the render group is laid out, how the camera
  * is set up, and the facts about scene maps that cleaning up relies on.
  */
module RenderSpec {
  import opened Wrappers
  import opened Geometry
  import opened SceneModel
  import opened SceneObjects
  import opened EditorHost
  import opened RenderResults
  import opened Settings
  import opened Naming

  // ---------------------------------------------------------------------------
  // Failures
  // ---------------------------------------------------------------------------

  /** The calls inside a render's try block that can throw. */
  datatype Step =
    | CreateTarget     // new RenderTexture(...) and Create()
    | Draw             // cam.Render()
    | ReadBack         // new Texture2D, ReadPixels, Apply
    | CreateDirectory  // Directory.CreateDirectory, reached only when the folder is missing
    | WriteFile        // EncodeToPNG and File.WriteAllBytes
    | Import           // AssetDatabase.Refresh and the importer settings

  /** Whether, and where, the environment throws during one render. */
  datatype Failure = NoFailure | ThrowsAt(step: Step, message: string)

  /** RenderToTexture reaches only the first three steps. */
  predicate ThrowsInRender(f: Failure) {
    f.ThrowsAt? && (f.step.CreateTarget? || f.step.Draw? || f.step.ReadBack?)
  }

  /** RenderAndSave reaches every step, but CreateDirectory only when the folder does not exist yet. */
  predicate ThrowsInSave(f: Failure, folderExists: bool) {
    f.ThrowsAt? && (!f.step.CreateDirectory? || !folderExists)
  }

  /** The order in which a render reaches the steps. */
  function Index(s: Step): nat {
    match s
    case CreateTarget => 0
    case Draw => 1
    case ReadBack => 2
    case CreateDirectory => 3
    case WriteFile => 4
    case Import => 5
  }

  /**
    * A render gets as far as step `s`: nothing threw at an earlier one. A
    * CreateDirectory fault counts only when the folder is missing.
    */
  predicate Reaches(f: Failure, folderExists: bool, s: Step) {
    !(f.ThrowsAt? && Index(f.step) < Index(s) && (!f.step.CreateDirectory? || !folderExists))
  }

  const PrefabNotSet := "Prefab is not set"
  const GameObjectNotSet := "GameObject is not set"

  /**
    * The result of RenderToTexture: an error without a prefab, the exception's
    * message when a step throws, and otherwise a square texture of the
    * configured resolution (the second GPU object allocated, after the target).
    */
  function TextureOutcome(prefabSet: bool, resolution: int, failure: Failure, gpuNext: nat): (r: RenderResult)
    ensures Consistent(r) && r.savedPath.None?
    ensures r.success <==> prefabSet && !ThrowsInRender(failure)
    ensures !prefabSet ==> r.errorMessage == Some(PrefabNotSet)
    ensures prefabSet && ThrowsInRender(failure) ==> r.errorMessage == Some(failure.message)
    ensures r.success ==> r.texture == Some(Texture2D(gpuNext + 1, resolution, resolution))
  {
    if !prefabSet then CreateError(PrefabNotSet)
    else if ThrowsInRender(failure) then CreateError(failure.message)
    else CreateSuccess(Texture2D(gpuNext + 1, resolution, resolution))
  }

  /**
    * The result of RenderAndSave for a prefab called `prefabName` (None when
    * no prefab is set): an error, or the path the icon was written to.
    */
  function SaveOutcome(prefabName: Option<string>, fileName: string, folderPath: string, folderExists: bool, failure: Failure): (r: RenderResult)
    ensures Consistent(r) && r.texture.None?
    ensures r.success <==> prefabName.Some? && !ThrowsInSave(failure, folderExists)
    ensures prefabName.None? ==> r.errorMessage == Some(PrefabNotSet)
    ensures prefabName.Some? && ThrowsInSave(failure, folderExists) ==> r.errorMessage == Some(failure.message)
    ensures r.success ==> r.savedPath == Some(OutputPath(folderPath, OutputFileName(fileName, prefabName.value)))
  {
    if prefabName.None? then CreateError(PrefabNotSet)
    else if ThrowsInSave(failure, folderExists) then CreateError(failure.message)
    else CreateSaved(OutputPath(folderPath, OutputFileName(fileName, prefabName.value)))
  }

  /** The name RenderAndSave reads from a settings reference that may have no prefab. */
  function PrefabName(p: Prefab?): Option<string> {
    if p == null then None else Some(p.name)
  }

  /** A saved icon is always "<folder>/<name>.png" with a name that is not blank. */
  lemma SavedPathShape(prefabName: Option<string>, fileName: string, folderPath: string, folderExists: bool, failure: Failure)
    requires SaveOutcome(prefabName, fileName, folderPath, folderExists, failure).success
    ensures var p := SaveOutcome(prefabName, fileName, folderPath, folderExists, failure).savedPath.value;
      && |p| > |folderPath| + 5
      && p[..|folderPath|] == folderPath && p[|folderPath|] == '/'
      && !IsBlank(p[|folderPath| + 1 .. |p| - 4]) && p[|p| - 4..] == ".png"
  {
    var name := OutputFileName(fileName, prefabName.value);
    assert |name| > 0;
  }

  // ---------------------------------------------------------------------------
  // The render group
  // ---------------------------------------------------------------------------

  /** `right * offset.x + up * offset.y` for the camera's basis before ConfigureCamera: the unrotated one. */
  function ScreenOffset(offset: Vec2): (d: Vec3)
    ensures d.x == offset.x && d.y == offset.y && d.z == 0.0
  {
    Right.Times(offset.x).Plus(Up.Times(offset.y))
  }

  /** The sprite colour: the tint when tinting is on, white otherwise. */
  function Tint(tintOn: bool, tint: Color): Color {
    if tintOn then tint else White
  }

  /** `cam.transform.position + cam.transform.forward * 5`, for the camera's pose when the group is built. */
  function Anchor(cameraPosition: Vec3): (a: Vec3)
    ensures a.x == cameraPosition.x && a.y == cameraPosition.y && a.z == cameraPosition.z + 5.0
  {
    cameraPosition.Plus(Forward.Times(5.0))
  }

  /** A background or frame object as CreateRenderGroup builds it, whatever layer it is on. */
  ghost predicate IsDecoration(m: map<NodeId, Node>, id: NodeId, name: string, group: NodeId,
                               sprite: Sprite?, order: int, color: Color, at: Vec3, zoom: real) {
    && id in m
    && m[id].name == name && m[id].parent == Some(group) && m[id].alive && m[id].activeSelf
    && m[id].spriteRenderer == Some(SpriteRendererState(sprite, order, color, true))
    && m[id].renderer.None? && m[id].camera.None?
    && m[id].rotation == Identity && m[id].scale == zoom
    && WorldPosition(m, id) == at
  }

  /** The disabled, empty sprite renderer at the subject's position. */
  ghost predicate IsSortingHelper(m: map<NodeId, Node>, id: NodeId, group: NodeId, at: Vec3) {
    && id in m
    && m[id].name == "SortingHelper" && m[id].parent == Some(group) && m[id].alive && m[id].activeSelf
    && m[id].spriteRenderer == Some(NewSpriteRenderer.(enabled := false, sortingOrder := 0))
    && m[id].renderer.None? && m[id].camera.None?
    && WorldPosition(m, id) == at
  }

  /** A node with its layer blanked, for comparing nodes whatever layer they are on. */
  function SansLayer(n: Node): Node {
    n.(layer := 0)
  }

  /**
    * The prefab's copy at `id` placed in the group: its root hung under the
    * group with the configured rotation and scale, the rest copied as it is.
    * Positions are left free; layers are not compared.
    */
  ghost predicate IsPlacedSubject(m: map<NodeId, Node>, id: NodeId, group: NodeId, prefab: Prefab, rotation: Vec3, zoom: real) {
    var copies := Copies(prefab, id);
    && id in m && id in copies
    && SansLayer(m[id]) == SansLayer(copies[id].(parent := Some(group), localPosition := m[id].localPosition,
                                                 rotation := Euler(rotation), scale := zoom))
    && forall j: NodeId :: id < j < id + |prefab.hierarchy| ==> j in m && j in copies && SansLayer(m[j]) == SansLayer(copies[j])
  }

  /** The layer a group node had when it was made: the prefab's own layers for the copy, 0 for new objects. */
  function CreatedLayer(prefab: Prefab, subject: NodeId, id: NodeId): Layer {
    if subject <= id < subject + |prefab.hierarchy| then prefab.hierarchy[id - subject].layer else 0
  }

  /** `before` kept as it is, with only ids from `n` on added. */
  ghost predicate Extends(before: map<NodeId, Node>, after: map<NodeId, Node>, n: nat) {
    Untouched(before, after) && forall id :: id in after && id !in before ==> n <= id
  }

  lemma ExtendsAgree(before: map<NodeId, Node>, after: map<NodeId, Node>, n: nat)
    requires Extends(before, after, n)
    ensures ShapesAgree(before, after, n)
  {
  }

  lemma ExtendsByNew(before: map<NodeId, Node>, id: NodeId, node: Node)
    requires id !in before
    ensures Extends(before, before[id := node], id)
  {
  }

  lemma ExtendsTransitive(a: map<NodeId, Node>, b: map<NodeId, Node>, c: map<NodeId, Node>, n1: nat, n2: nat)
    requires Extends(a, b, n1) && Extends(b, c, n2) && n1 <= n2
    ensures Extends(a, c, n1)
  {
  }

  /** Below `n`, `after` has the same nodes as `before` up to their layers. */
  ghost predicate Preserves(before: map<NodeId, Node>, after: map<NodeId, Node>, n: nat) {
    ShapesAgree(before, after, n) && forall id :: id < n && id in before ==> SansLayer(after[id]) == SansLayer(before[id])
  }

  lemma ExtendsPreserves(before: map<NodeId, Node>, after: map<NodeId, Node>, n: nat)
    requires Extends(before, after, n)
    ensures Preserves(before, after, n)
  {
  }

  /** A map where exactly the recorded nodes moved to `layer`, each recorded with its old layer. */
  lemma LayeredAsRecorded(m0: map<NodeId, Node>, m: map<NodeId, Node>, recorded: map<NodeId, Layer>, layer: Layer)
    requires m.Keys == m0.Keys
    requires forall id :: id in recorded ==> id in m0 && recorded[id] == m0[id].layer
    requires forall id :: id in m0 ==> m[id] == if id in recorded then m0[id].(layer := layer) else m0[id]
    ensures m == WithLayer(m0, recorded.Keys, layer) && recorded == LayersOf(m0, recorded.Keys)
  {
    assert m == WithLayer(m0, recorded.Keys, layer);
  }

  lemma WithLayerPreserves(m: map<NodeId, Node>, ids: set<NodeId>, layer: Layer, n: nat)
    ensures Preserves(m, WithLayer(m, ids, layer), n)
  {
  }

  lemma PreservesTransitive(a: map<NodeId, Node>, b: map<NodeId, Node>, c: map<NodeId, Node>, n1: nat, n2: nat)
    requires Preserves(a, b, n1) && Preserves(b, c, n2) && n1 <= n2
    ensures Preserves(a, c, n1)
  {
  }

  lemma DecorationPreserved(m: map<NodeId, Node>, m': map<NodeId, Node>, n: nat, id: NodeId, name: string, group: NodeId,
                            sprite: Sprite?, order: int, color: Color, at: Vec3, zoom: real)
    requires Preserves(m, m', n) && id < n && IsDecoration(m, id, name, group, sprite, order, color, at, zoom)
    ensures IsDecoration(m', id, name, group, sprite, order, color, at, zoom)
  {
    assert SansLayer(m'[id]) == SansLayer(m[id]);
    WorldAgrees(m, m', n, id);
  }

  lemma SortingHelperPreserved(m: map<NodeId, Node>, m': map<NodeId, Node>, n: nat, id: NodeId, group: NodeId, at: Vec3)
    requires Preserves(m, m', n) && id < n && IsSortingHelper(m, id, group, at)
    ensures IsSortingHelper(m', id, group, at)
  {
    assert SansLayer(m'[id]) == SansLayer(m[id]);
    WorldAgrees(m, m', n, id);
  }

  lemma SubjectPreserved(m: map<NodeId, Node>, m': map<NodeId, Node>, n: nat, id: NodeId, group: NodeId, prefab: Prefab, rotation: Vec3, zoom: real)
    requires Preserves(m, m', n) && id + |prefab.hierarchy| <= n && IsPlacedSubject(m, id, group, prefab, rotation, zoom)
    ensures IsPlacedSubject(m', id, group, prefab, rotation, zoom)
  {
    assert SansLayer(m'[id]) == SansLayer(m[id]);
  }

  /** The objects CreateRenderGroup makes; `root` is the group itself. */
  datatype RenderGroup = RenderGroup(root: NodeId, background: Option<NodeId>, subject: NodeId, sortingHelper: NodeId, frame: Option<NodeId>)

  /** The background exists exactly when a background sprite is set, and is placed at the anchor plus its offset. */
  ghost predicate BackgroundPlaced(m: map<NodeId, Node>, group: NodeId, background: Option<NodeId>, s: SettingsValue, anchor: Vec3) {
    && (background.Some? <==> s.backgroundSprite != null)
    && (background.Some? ==>
          IsDecoration(m, background.value, "Background", group, s.backgroundSprite, -100,
                       Tint(s.tintBackground, s.backgroundTintColor), anchor.Plus(ScreenOffset(s.backgroundOffset)), s.backgroundZoom))
  }

  /** The frame exists exactly when a frame sprite is set, and is placed at the anchor plus its offset. */
  ghost predicate FramePlaced(m: map<NodeId, Node>, group: NodeId, frame: Option<NodeId>, s: SettingsValue, anchor: Vec3) {
    && (frame.Some? <==> s.frameSprite != null)
    && (frame.Some? ==>
          IsDecoration(m, frame.value, "Frame", group, s.frameSprite, 100,
                       Tint(s.tintFrame, s.frameTintColor), anchor.Plus(ScreenOffset(s.frameOffset)), s.frameZoom))
  }

  /** The prefab's copy hangs under the group and its renderers' box is centred on the group's origin plus the offset. */
  ghost predicate SubjectPlaced(m: map<NodeId, Node>, group: NodeId, subject: NodeId, s: SettingsValue, n: nat) {
    && s.prefab != null
    && IsPlacedSubject(m, subject, group, s.prefab, s.objectRotation, s.prefabZoom)
    && RenderableBounds(m, subject, n).Center() == WorldPosition(m, group).Plus(ScreenOffset(s.prefabOffset))
  }

  /**
    * The whole render group as CreateRenderGroup lays it out for settings `s`,
    * with decorations relative to `anchor`, in a scene whose ids are below `n`.
    */
  ghost predicate Layout(m: map<NodeId, Node>, g: RenderGroup, s: SettingsValue, anchor: Vec3, n: nat) {
    && g.root in m && SansLayer(m[g.root]) == SansLayer(NewNode("RenderGroup"))
    && BackgroundPlaced(m, g.root, g.background, s, anchor)
    && SubjectPlaced(m, g.root, g.subject, s, n)
    && IsSortingHelper(m, g.sortingHelper, g.root, WorldPosition(m, g.subject))
    && FramePlaced(m, g.root, g.frame, s, anchor)
  }

  /** The group root sits at the origin. */
  lemma LayoutRootAtOrigin(m: map<NodeId, Node>, g: RenderGroup, s: SettingsValue, anchor: Vec3, n: nat)
    requires Layout(m, g, s, anchor, n)
    ensures WorldPosition(m, g.root) == Zero
  {
    assert m[g.root].parent == None && m[g.root].localPosition == Zero;
  }

  /** Moving nodes onto another layer keeps the layout. */
  lemma LayoutSurvivesLayers(m: map<NodeId, Node>, ids: set<NodeId>, layer: Layer, g: RenderGroup, s: SettingsValue, anchor: Vec3, n: nat)
    requires WellFormed(m, n) && Layout(m, g, s, anchor, n)
    ensures Layout(WithLayer(m, ids, layer), g, s, anchor, n)
  {
    WithLayerPreserves(m, ids, layer, n);
    DecorationsPreserved(m, WithLayer(m, ids, layer), g, s, anchor, n);
    SubjectAndHelperPreserved(m, WithLayer(m, ids, layer), g, s, n);
  }

  lemma DecorationsPreserved(m: map<NodeId, Node>, m': map<NodeId, Node>, g: RenderGroup, s: SettingsValue, anchor: Vec3, n: nat)
    requires WellFormed(m, n) && Preserves(m, m', n)
    requires BackgroundPlaced(m, g.root, g.background, s, anchor) && FramePlaced(m, g.root, g.frame, s, anchor)
    ensures BackgroundPlaced(m', g.root, g.background, s, anchor) && FramePlaced(m', g.root, g.frame, s, anchor)
  {
    if g.background.Some? {
      DecorationPreserved(m, m', n, g.background.value, "Background", g.root, s.backgroundSprite, -100,
                          Tint(s.tintBackground, s.backgroundTintColor), anchor.Plus(ScreenOffset(s.backgroundOffset)), s.backgroundZoom);
    }
    if g.frame.Some? {
      DecorationPreserved(m, m', n, g.frame.value, "Frame", g.root, s.frameSprite, 100,
                          Tint(s.tintFrame, s.frameTintColor), anchor.Plus(ScreenOffset(s.frameOffset)), s.frameZoom);
    }
  }

  /** A placed copy of the prefab lies wholly below the scene's next id. */
  lemma SubjectBelow(m: map<NodeId, Node>, n: nat, id: NodeId, group: NodeId, prefab: Prefab, rotation: Vec3, zoom: real)
    requires WellFormed(m, n) && IsPlacedSubject(m, id, group, prefab, rotation, zoom)
    ensures id + |prefab.hierarchy| <= n
  {
    var last := id + |prefab.hierarchy| - 1;
    assert id in IdRange(id, |prefab.hierarchy|);
    if last != id {
      assert id < last < id + |prefab.hierarchy|;
    }
    assert last in m;
  }

  lemma SubjectAndHelperPreserved(m: map<NodeId, Node>, m': map<NodeId, Node>, g: RenderGroup, s: SettingsValue, n: nat)
    requires WellFormed(m, n) && Preserves(m, m', n) && g.root in m
    requires SubjectPlaced(m, g.root, g.subject, s, n) && IsSortingHelper(m, g.sortingHelper, g.root, WorldPosition(m, g.subject))
    ensures SubjectPlaced(m', g.root, g.subject, s, n) && IsSortingHelper(m', g.sortingHelper, g.root, WorldPosition(m', g.subject))
  {
    SubjectBelow(m, n, g.subject, g.root, s.prefab, s.objectRotation, s.prefabZoom);
    SubjectPreserved(m, m', n, g.subject, g.root, s.prefab, s.objectRotation, s.prefabZoom);
    RenderableBoundsStable(m, n, m', n, g.subject);
    WorldAgrees(m, m', n, g.root);
    WorldAgrees(m, m', n, g.subject);
    SortingHelperPreserved(m, m', n, g.sortingHelper, g.root, WorldPosition(m, g.subject));
  }

  /**
    * The four steps of filling the group, each adding objects after the
    * previous ones, give the whole layout: later steps move nothing already
    * placed and add no renderer below the subject.
    */
  lemma ContentsLaidOut(mg: map<NodeId, Node>, m1: map<NodeId, Node>, m2: map<NodeId, Node>, m3: map<NodeId, Node>, m4: map<NodeId, Node>,
                        g: RenderGroup, s: SettingsValue, center: Vec3, n2: nat, n4: nat)
    requires s.prefab != null && g.root in mg && mg[g.root] == NewNode("RenderGroup")
    requires g.root < g.subject && g.subject + |s.prefab.hierarchy| == n2 && g.sortingHelper == n2 && n2 < n4
    requires Extends(mg, m1, g.root + 1) && Extends(m1, m2, g.subject) && Extends(m2, m3, n2) && Extends(m3, m4, n2 + 1)
    requires BackgroundPlaced(m1, g.root, g.background, s, center)
    requires SubjectPlaced(m2, g.root, g.subject, s, n2)
    requires IsSortingHelper(m3, n2, g.root, WorldPosition(m2, g.subject))
    requires FramePlaced(m4, g.root, g.frame, s, center)
    requires forall id :: n2 + 1 <= id < n4 ==> id in m4 && m4[id].renderer.None?
    requires g.background.Some? ==> g.background.value < g.subject
    ensures Layout(m4, g, s, center, n4)
  {
    ExtendsTransitive(m2, m3, m4, n2, n2 + 1);
    ExtendsTransitive(m1, m2, m4, g.subject, n2);
    ExtendsTransitive(mg, m1, m4, g.root + 1, g.subject);
    BackgroundKept(m1, m4, g.root, g.background, s, center, g.subject);
    SubjectKept(m2, m3, m4, g.root, g.subject, s, n2, n4);
  }

  lemma BackgroundKept(m1: map<NodeId, Node>, m4: map<NodeId, Node>, group: NodeId, background: Option<NodeId>,
                       s: SettingsValue, center: Vec3, n: nat)
    requires Extends(m1, m4, n) && BackgroundPlaced(m1, group, background, s, center)
    requires background.Some? ==> background.value < n
    ensures BackgroundPlaced(m4, group, background, s, center)
  {
    if background.Some? {
      ExtendsPreserves(m1, m4, n);
      DecorationPreserved(m1, m4, n, background.value, "Background", group, s.backgroundSprite, -100,
                          Tint(s.tintBackground, s.backgroundTintColor), center.Plus(ScreenOffset(s.backgroundOffset)), s.backgroundZoom);
    }
  }

  lemma SubjectKept(m2: map<NodeId, Node>, m3: map<NodeId, Node>, m4: map<NodeId, Node>, group: NodeId, subject: NodeId,
                    s: SettingsValue, n2: nat, n4: nat)
    requires s.prefab != null && group < subject && subject + |s.prefab.hierarchy| == n2 && n2 < n4
    requires Extends(m2, m4, n2) && Extends(m3, m4, n2 + 1)
    requires SubjectPlaced(m2, group, subject, s, n2)
    requires IsSortingHelper(m3, n2, group, WorldPosition(m2, subject))
    requires forall id :: n2 + 1 <= id < n4 ==> id in m4 && m4[id].renderer.None?
    ensures SubjectPlaced(m4, group, subject, s, n4)
    ensures IsSortingHelper(m4, n2, group, WorldPosition(m4, subject))
  {
    SubjectBoundsKept(m2, m3, m4, group, subject, s, n2, n4);
    HelperKept(m2, m3, m4, group, subject, n2);
  }

  /** The sorting helper stays where the subject is. */
  lemma HelperKept(m2: map<NodeId, Node>, m3: map<NodeId, Node>, m4: map<NodeId, Node>, group: NodeId, subject: NodeId, n2: nat)
    requires subject < n2 && Extends(m2, m4, n2) && Extends(m3, m4, n2 + 1)
    requires IsSortingHelper(m3, n2, group, WorldPosition(m2, subject))
    ensures IsSortingHelper(m4, n2, group, WorldPosition(m4, subject))
  {
    ExtendsPreserves(m2, m4, n2);
    ExtendsPreserves(m3, m4, n2 + 1);
    WorldAgrees(m2, m4, n2, subject);
    SortingHelperPreserved(m3, m4, n2 + 1, n2, group, WorldPosition(m2, subject));
  }

  /** The subject's placement and the centre of its renderers survive adding the helper and the frame. */
  lemma SubjectBoundsKept(m2: map<NodeId, Node>, m3: map<NodeId, Node>, m4: map<NodeId, Node>, group: NodeId, subject: NodeId,
                          s: SettingsValue, n2: nat, n4: nat)
    requires s.prefab != null && group < subject && subject + |s.prefab.hierarchy| == n2 && n2 < n4
    requires Extends(m2, m4, n2) && Extends(m3, m4, n2 + 1)
    requires SubjectPlaced(m2, group, subject, s, n2)
    requires IsSortingHelper(m3, n2, group, WorldPosition(m2, subject))
    requires forall id :: n2 + 1 <= id < n4 ==> id in m4 && m4[id].renderer.None?
    ensures SubjectPlaced(m4, group, subject, s, n4)
  {
    ExtendsPreserves(m2, m4, n2);
    SubjectPreserved(m2, m4, n2, subject, group, s.prefab, s.objectRotation, s.prefabZoom);
    WorldAgrees(m2, m4, n2, group);
    forall id | n2 <= id < n4 ensures !IsRendererOf(m4, id, subject) {
      if id == n2 {
        assert m4[n2].renderer.None?;
      }
    }
    RenderableBoundsStable(m2, n2, m4, n4, subject);
  }

  /**
    * What the four steps of BuildGroupContents promise one by one, put
    * together: the layout, the group's objects and their layers.
    */
  lemma ContentsBuilt(mg: map<NodeId, Node>, m1: map<NodeId, Node>, m2: map<NodeId, Node>, m3: map<NodeId, Node>, m4: map<NodeId, Node>,
                      g: RenderGroup, s: SettingsValue, center: Vec3, n1: nat, n2: nat, n3: nat, n4: nat)
    requires s.prefab != null && g.root in mg && mg[g.root] == NewNode("RenderGroup")
    // the background
    requires n1 == g.root + 1 + (if g.background.Some? then 1 else 0) && Extends(mg, m1, g.root + 1)
    requires forall id: NodeId :: g.root + 1 <= id < n1 ==> id in m1 && m1[id].layer == 0
    requires BackgroundPlaced(m1, g.root, g.background, s, center)
    requires g.background.Some? ==> g.background.value == g.root + 1
    // the subject
    requires g.subject == n1 && n2 == g.subject + |s.prefab.hierarchy| && Extends(m1, m2, g.subject)
    requires IsPlacedSubject(m2, g.subject, g.root, s.prefab, s.objectRotation, s.prefabZoom)
    requires forall id: NodeId :: g.subject <= id < n2 ==> id in m2 && m2[id].layer == CreatedLayer(s.prefab, g.subject, id)
    requires RenderableBounds(m2, g.subject, n2).Center() == WorldPosition(m2, g.root).Plus(ScreenOffset(s.prefabOffset))
    // the sorting helper
    requires g.sortingHelper == n2 && n3 == n2 + 1 && Extends(m2, m3, n2) && n2 in m3 && m3[n2].layer == 0
    requires IsSortingHelper(m3, n2, g.root, WorldPosition(m2, g.subject))
    // the frame
    requires n4 == n3 + (if g.frame.Some? then 1 else 0) && Extends(m3, m4, n3)
    requires forall id: NodeId :: n3 <= id < n4 ==> id in m4 && m4[id].layer == 0 && m4[id].renderer.None?
    requires FramePlaced(m4, g.root, g.frame, s, center)
    ensures Extends(mg, m4, g.root + 1)
    ensures Layout(m4, g, s, center, n4)
    ensures forall id: NodeId :: g.root <= id < n4 ==> id in m4 && m4[id].layer == CreatedLayer(s.prefab, g.subject, id)
  {
    ContentsLaidOut(mg, m1, m2, m3, m4, g, s, center, n2, n4);
    ContentsLayers(mg, m1, m2, m3, m4, s.prefab, g.root, g.subject, n2, n4);
    ExtendsTransitive(m2, m3, m4, n2, n3);
    ExtendsTransitive(m1, m2, m4, n1, n2);
    ExtendsTransitive(mg, m1, m4, g.root + 1, n1);
  }

  /**
    * CreateRenderGroup's steps put together: the new group object `n0`, its
    * contents, then every object below it moved onto `layer` with its
    * layer recorded.
    */
  lemma GroupCreated(m0: map<NodeId, Node>, mg: map<NodeId, Node>, m4: map<NodeId, Node>, layers: map<NodeId, Layer>,
                     prefab: Prefab, subject: NodeId, n0: nat, n4: nat, layer: Layer)
    requires WellFormed(m0, n0) && n0 < n4
    requires Extends(m0, mg, n0) && n0 in mg && mg[n0] == NewNode("RenderGroup")
    requires Extends(mg, m4, n0 + 1) && WellFormed(m4, n4) && GroupBuilt(m4, n0, n4)
    requires forall id: NodeId :: n0 <= id < n4 ==> id in m4 && m4[id].layer == CreatedLayer(prefab, subject, id)
    requires forall id: NodeId :: id in layers <==> InSubtree(m4, id, n0)
    requires layers == LayersOf(m4, layers.Keys)
    ensures Extends(m0, WithLayer(m4, layers.Keys, layer), n0)
    ensures forall id: NodeId :: InSubtree(WithLayer(m4, layers.Keys, layer), id, n0) <==> n0 <= id < n4
    ensures forall id: NodeId :: id in layers <==> InSubtree(WithLayer(m4, layers.Keys, layer), id, n0)
    ensures forall id :: id in layers ==>
              && id in WithLayer(m4, layers.Keys, layer) && WithLayer(m4, layers.Keys, layer)[id].layer == layer
              && layers[id] == CreatedLayer(prefab, subject, id)
  {
    var m5 := WithLayer(m4, layers.Keys, layer);
    ExtendsTransitive(m0, mg, m4, n0, n0 + 1);
    GroupSubtreeIsNewIds(m4, n0, n4);
    assert Extends(m0, m5, n0);
    WithLayerPreserves(m4, layers.Keys, layer, n4);
    assert WellFormed(m5, n4);
    InSubtreeAgrees(m4, m5, n4, n0);
  }

  /** The layers the four steps give their objects survive the later steps. */
  lemma ContentsLayers(mg: map<NodeId, Node>, m1: map<NodeId, Node>, m2: map<NodeId, Node>, m3: map<NodeId, Node>, m4: map<NodeId, Node>,
                       prefab: Prefab, group: NodeId, subject: NodeId, n2: nat, n4: nat)
    requires group in mg && mg[group].layer == 0 && group < subject <= n2 < n4
    requires Extends(mg, m1, group + 1) && Extends(m1, m2, subject) && Extends(m2, m3, n2) && Extends(m3, m4, n2 + 1)
    requires forall id :: group + 1 <= id < subject ==> id in m1 && m1[id].layer == 0
    requires forall id: NodeId :: subject <= id < n2 ==> id in m2 && m2[id].layer == CreatedLayer(prefab, subject, id)
    requires n2 in m3 && m3[n2].layer == 0
    requires forall id :: n2 + 1 <= id < n4 ==> id in m4 && m4[id].layer == 0
    requires subject + |prefab.hierarchy| == n2
    ensures forall id: NodeId :: group <= id < n4 ==> id in m4 && m4[id].layer == CreatedLayer(prefab, subject, id)
  {
  }

  /** Every id from `group` up to `n` is a live object below `group`. */
  ghost predicate GroupBuilt(m: map<NodeId, Node>, group: NodeId, n: nat) {
    forall id: NodeId :: group <= id < n ==> id in m && m[id].alive && IsDescendant(m, id, group)
  }

  /** Adding objects below the group keeps it built. */
  lemma GroupGrows(m: map<NodeId, Node>, m': map<NodeId, Node>, group: NodeId, n: nat, n': nat)
    requires GroupBuilt(m, group, n) && Extends(m, m', n) && n <= n'
    requires forall id: NodeId :: n <= id < n' ==> id in m' && m'[id].alive && IsDescendant(m', id, group)
    ensures GroupBuilt(m', group, n')
  {
    forall id: NodeId | group <= id < n ensures IsDescendant(m', id, group) {
      DescendantAgrees(m, m', n, id, group);
    }
  }

  /** A new object hung directly under the group keeps it built. */
  lemma ChildGrows(m: map<NodeId, Node>, m': map<NodeId, Node>, group: NodeId, n: nat)
    requires GroupBuilt(m, group, n) && Extends(m, m', n) && group < n
    requires n in m' && m'[n].alive && m'[n].parent == Some(group)
    ensures GroupBuilt(m', group, n + 1)
  {
    assert IsDescendant(m', n, group);
    GroupGrows(m, m', group, n, n + 1);
  }

  /** A built group's subtree is exactly the ids from the group up to `n`. */
  lemma GroupSubtreeIsNewIds(m: map<NodeId, Node>, group: NodeId, n: nat)
    requires WellFormed(m, n) && GroupBuilt(m, group, n)
    ensures forall id: NodeId :: InSubtree(m, id, group) <==> group <= id < n
  {
    forall id: NodeId | InSubtree(m, id, group) ensures group <= id < n {
      DescendantNotOlder(m, id, group);
    }
  }

  lemma InSubtreeAgrees(m1: map<NodeId, Node>, m2: map<NodeId, Node>, n: nat, root: NodeId)
    requires StructureAgrees(m1, m2, n) && WellFormed(m1, n) && WellFormed(m2, n)
    ensures forall id: NodeId :: InSubtree(m1, id, root) <==> InSubtree(m2, id, root)
  {
    forall id: NodeId | id < n ensures InSubtree(m1, id, root) <==> InSubtree(m2, id, root) {
      DescendantAgrees(m1, m2, n, id, root);
    }
  }

  /** Parent links kept below `n` keep every node of [lo, n) below `root`. */
  lemma SameParentsKeepDescendants(m1: map<NodeId, Node>, m2: map<NodeId, Node>, n: nat, root: NodeId, lo: nat)
    requires ParentsAgree(m1, m2, n)
    requires forall id: NodeId :: lo <= id < n ==> IsDescendant(m1, id, root)
    ensures forall id: NodeId :: lo <= id < n ==> IsDescendant(m2, id, root)
  {
    forall id: NodeId | lo <= id < n ensures IsDescendant(m2, id, root) {
      DescendantAgrees(m1, m2, n, id, root);
    }
  }

  /** Changing a node without moving it or its parent keeps its world position. */
  lemma UpdateKeepsWorld(m: map<NodeId, Node>, id: NodeId, node: Node)
    requires id in m && node.parent == m[id].parent && node.localPosition == m[id].localPosition
    ensures WorldPosition(m[id := node], id) == WorldPosition(m, id)
  {
    UpdateKeepsOlder(m, id, node);
    if node.parent.Some? && node.parent.value < id {
      WorldAgrees(m, m[id := node], id, node.parent.value);
    }
  }

  /** Setting an object's world position is moving it by the difference. */
  lemma SetPositionIsMove(m: map<NodeId, Node>, c: NodeId, w: Vec3)
    requires c in m
    ensures m[c := m[c].(localPosition := LocalFor(m, c, w))] == Moved(m, c, w.Minus(WorldPosition(m, c)))
  {
    var d := w.Minus(WorldPosition(m, c));
    assert LocalFor(m, c, w) == m[c].localPosition.Plus(d) by {
      match m[c].parent
      case Some(p) =>
        if p < c {
          assert WorldPosition(m, c) == m[c].localPosition.Plus(WorldPosition(m, p));
        }
      case None =>
    }
  }

  /**
    * `position += position - bounds.center` applied to the scene `m`: the
    * object's renderable box ends up centred on where the object was.
    */
  lemma CentredOnPivot(m: map<NodeId, Node>, n: nat, c: NodeId)
    requires c in m
    ensures var here := WorldPosition(m, c);
            var target := here.Plus(here.Minus(RenderableBounds(m, c, n).Center()));
            RenderableBounds(m[c := m[c].(localPosition := LocalFor(m, c, target))], c, n).Center() == here
  {
    var here := WorldPosition(m, c);
    var b := RenderableBounds(m, c, n);
    var target := here.Plus(here.Minus(b.Center()));
    SetPositionIsMove(m, c, target);
    MoveShiftsRenderableBounds(m, n, c, target.Minus(here));
    assert b.Center().Plus(target.Minus(here)) == here;
  }

  /** Two changes of one object's local position are one change. */
  lemma RepositionTwice(m1: map<NodeId, Node>, m2: map<NodeId, Node>, m3: map<NodeId, Node>, c: NodeId)
    requires c in m1 && c in m2 && c in m3
    requires m2 == m1[c := m1[c].(localPosition := m2[c].localPosition)]
    requires m3 == m2[c := m2[c].(localPosition := m3[c].localPosition)]
    ensures m3 == m1[c := m1[c].(localPosition := m3[c].localPosition)]
  {
  }

  /** The prefab's copy from `subject` on, its root hung under `group` at the group's origin, rotated and scaled. */
  function Hung(m: map<NodeId, Node>, prefab: Prefab, subject: NodeId, group: NodeId, rotation: Vec3, zoom: real): map<NodeId, Node> {
    var copies := Copies(prefab, subject);
    var root := CopyNode(prefab.hierarchy, 0, subject, prefab.name + "(Clone)");
    (m + copies)[subject := root.(parent := Some(group), localPosition := Zero, rotation := Euler(rotation), scale := zoom)]
  }

  /** What hanging the copy gives: the old scene kept, every copy alive below the group with its own layer, the root at the group's origin. */
  lemma HungFacts(m: map<NodeId, Node>, prefab: Prefab, subject: NodeId, group: NodeId, rotation: Vec3, zoom: real)
    requires WellFormed(m, subject) && group in m
    ensures var h := Hung(m, prefab, subject, group, rotation, zoom);
      && Extends(m, h, subject)
      && IsPlacedSubject(h, subject, group, prefab, rotation, zoom)
      && (forall id: NodeId :: subject <= id < subject + |prefab.hierarchy| ==>
            && id in h && h[id].alive && IsDescendant(h, id, group)
            && h[id].layer == CreatedLayer(prefab, subject, id))
      && h[subject].parent == Some(group)
      && WorldPosition(h, subject) == WorldPosition(h, group)
  {
    HungPlaced(m, prefab, subject, group, rotation, zoom);
    HungBelowGroup(m, prefab, subject, group, rotation, zoom);
  }

  lemma HungPlaced(m: map<NodeId, Node>, prefab: Prefab, subject: NodeId, group: NodeId, rotation: Vec3, zoom: real)
    requires WellFormed(m, subject) && group in m
    ensures var h := Hung(m, prefab, subject, group, rotation, zoom);
      && Extends(m, h, subject)
      && IsPlacedSubject(h, subject, group, prefab, rotation, zoom)
      && h[subject].parent == Some(group)
      && WorldPosition(h, subject) == WorldPosition(h, group)
  {
    var h := Hung(m, prefab, subject, group, rotation, zoom);
    var copies := Copies(prefab, subject);
    assert subject in copies;
    forall id | id in m ensures id in h && h[id] == m[id] {
      assert id < subject;
      assert id !in copies;
    }
    forall j: NodeId | subject < j < subject + |prefab.hierarchy| ensures j in h && j in copies && h[j] == copies[j] {
      assert j in copies;
    }
    assert WorldPosition(h, subject) == Zero.Plus(WorldPosition(h, group));
  }

  lemma HungBelowGroup(m: map<NodeId, Node>, prefab: Prefab, subject: NodeId, group: NodeId, rotation: Vec3, zoom: real)
    requires WellFormed(m, subject) && group in m
    ensures var h := Hung(m, prefab, subject, group, rotation, zoom);
      forall id: NodeId :: subject <= id < subject + |prefab.hierarchy| ==>
        && id in h && h[id].alive && IsDescendant(h, id, group)
        && h[id].layer == CreatedLayer(prefab, subject, id)
  {
    var h := Hung(m, prefab, subject, group, rotation, zoom);
    var copies := Copies(prefab, subject);
    assert subject in copies;
    assert IsDescendant(h, subject, group);
    forall id: NodeId | subject <= id < subject + |prefab.hierarchy|
      ensures id in h && h[id].alive && IsDescendant(h, id, group) && h[id].layer == CreatedLayer(prefab, subject, id)
    {
      assert id in copies;
      CopyBelowRoot(h, prefab, subject, id);
      DescendantTransitive(h, id, subject, group);
    }
  }

  /** Moving the hung copy's root keeps everything HangSubject established except the root's position. */
  lemma RepositionKeepsPlacement(before: map<NodeId, Node>, m0: map<NodeId, Node>, m1: map<NodeId, Node>, subject: NodeId, group: NodeId,
                                 prefab: Prefab, rotation: Vec3, zoom: real, n: nat)
    requires subject !in before && subject in m0 && subject in m1 && group < subject && Extends(before, m0, subject)
    requires m1 == m0[subject := m0[subject].(localPosition := m1[subject].localPosition)]
    requires IsPlacedSubject(m0, subject, group, prefab, rotation, zoom)
    requires forall id: NodeId :: subject <= id < n ==>
               && id in m0 && m0[id].alive && IsDescendant(m0, id, group) && m0[id].layer == CreatedLayer(prefab, subject, id)
    ensures Extends(before, m1, subject)
    ensures IsPlacedSubject(m1, subject, group, prefab, rotation, zoom)
    ensures forall id: NodeId :: subject <= id < n ==>
              && id in m1 && m1[id].alive && IsDescendant(m1, id, group) && m1[id].layer == CreatedLayer(prefab, subject, id)
    ensures WorldPosition(m1, group) == WorldPosition(m0, group)
  {
    RepositionKeepsCopy(before, m0, m1, subject, group, prefab, rotation, zoom);
    RepositionKeepsGroup(m0, m1, subject, group, prefab, n);
  }

  lemma RepositionKeepsCopy(before: map<NodeId, Node>, m0: map<NodeId, Node>, m1: map<NodeId, Node>, subject: NodeId, group: NodeId,
                            prefab: Prefab, rotation: Vec3, zoom: real)
    requires subject !in before && subject in m0 && subject in m1 && Extends(before, m0, subject)
    requires m1 == m0[subject := m0[subject].(localPosition := m1[subject].localPosition)]
    requires IsPlacedSubject(m0, subject, group, prefab, rotation, zoom)
    ensures Extends(before, m1, subject)
    ensures IsPlacedSubject(m1, subject, group, prefab, rotation, zoom)
  {
    assert Untouched(before, m1) by {
      forall id | id in before ensures id in m1 && m1[id] == before[id] {
        assert id != subject;
      }
    }
    RepositionKeepsSubject(m0, m1, subject, group, prefab, rotation, zoom);
  }

  lemma RepositionKeepsSubject(m0: map<NodeId, Node>, m1: map<NodeId, Node>, subject: NodeId, group: NodeId,
                               prefab: Prefab, rotation: Vec3, zoom: real)
    requires subject in m0 && subject in m1
    requires m1 == m0[subject := m0[subject].(localPosition := m1[subject].localPosition)]
    requires IsPlacedSubject(m0, subject, group, prefab, rotation, zoom)
    ensures IsPlacedSubject(m1, subject, group, prefab, rotation, zoom)
  {
    var copies := Copies(prefab, subject);
    assert SansLayer(m1[subject]) == SansLayer(copies[subject].(parent := Some(group), localPosition := m1[subject].localPosition,
                                                                rotation := Euler(rotation), scale := zoom));
    forall j: NodeId | subject < j < subject + |prefab.hierarchy| ensures j in m1 && j in copies && SansLayer(m1[j]) == SansLayer(copies[j]) {
      assert m1[j] == m0[j];
    }
  }

  lemma RepositionKeepsGroup(m0: map<NodeId, Node>, m1: map<NodeId, Node>, subject: NodeId, group: NodeId, prefab: Prefab, n: nat)
    requires subject in m0 && subject in m1 && group < subject
    requires m1 == m0[subject := m0[subject].(localPosition := m1[subject].localPosition)]
    requires forall id: NodeId :: subject <= id < n ==>
               && id in m0 && m0[id].alive && IsDescendant(m0, id, group) && m0[id].layer == CreatedLayer(prefab, subject, id)
    ensures forall id: NodeId :: subject <= id < n ==>
              && id in m1 && m1[id].alive && IsDescendant(m1, id, group) && m1[id].layer == CreatedLayer(prefab, subject, id)
    ensures WorldPosition(m1, group) == WorldPosition(m0, group)
  {
    UpdateKeepsOlder(m0, subject, m1[subject]);
    WorldAgrees(m0, m1, subject, group);
    assert ParentsAgree(m0, m1, n);
    SameParentsKeepDescendants(m0, m1, n, group, subject);
  }

  // ---------------------------------------------------------------------------
  // The camera
  // ---------------------------------------------------------------------------

  /** The culling mask ConfigureCamera sets: `1 << TempLayer`. */
  const CullingMask: bv32 := 1 << 31

  /** A camera with culling mask `mask` draws objects on `layer`. */
  predicate Renders(mask: bv32, layer: Layer)
    requires 0 <= layer < 32
  {
    mask & (1 << layer) != 0
  }

  /** The configured camera sees layer 31 and nothing else, so only the render group is drawn. */
  lemma CullingMaskIsolates(layer: Layer)
    requires 0 <= layer < 32
    ensures Renders(CullingMask, layer) <==> layer == TempLayer
  {
  }

  /** Where ConfigureCamera puts the camera: `Vector3.forward * -10`. */
  const CameraPosition := Forward.Times(-10.0)

  function ClearColor(s: SettingsValue): (c: Color)
    ensures s.transparentBackground ==> c.a == 0.0
    ensures !s.transparentBackground ==> c == s.backgroundColor
  {
    if s.transparentBackground then Transparent else s.backgroundColor
  }

  /** The camera ConfigureCamera leaves: a solid clear, orthographic of the zoom's size, drawing into `target`. */
  function ConfiguredCamera(s: SettingsValue, target: nat): CameraState {
    CameraState(SolidColor, ClearColor(s), Some(target), true, s.cameraZoom, CullingMask)
  }

  /** ConfigureCamera's three changes to the camera object, as one. */
  lemma CameraChanges(m0: map<NodeId, Node>, m1: map<NodeId, Node>, m2: map<NodeId, Node>, m3: map<NodeId, Node>,
                      cam: NodeId, camera: CameraState, w: Vec3)
    requires cam in m0
    requires m1 == m0[cam := m0[cam].(camera := Some(camera))]
    requires m2 == m1[cam := m1[cam].(localPosition := LocalFor(m1, cam, w))]
    requires m3 == m2[cam := m2[cam].(rotation := Identity)]
    ensures m3 == m0[cam := m0[cam].(camera := Some(camera), localPosition := LocalFor(m0, cam, w), rotation := Identity)]
    ensures WorldPosition(m3, cam) == WorldPosition(m2, cam)
  {
    CameraLocalUnchanged(m0, m1, cam, camera, w);
    UpdateKeepsWorld(m2, cam, m3[cam]);
  }

  /** Setting the camera component does not move the node, so the local position for `w` is the same. */
  lemma CameraLocalUnchanged(m0: map<NodeId, Node>, m1: map<NodeId, Node>, cam: NodeId, camera: CameraState, w: Vec3)
    requires cam in m0 && m1 == m0[cam := m0[cam].(camera := Some(camera))]
    ensures LocalFor(m1, cam, w) == LocalFor(m0, cam, w)
  {
    UpdateKeepsOlder(m0, cam, m1[cam]);
    if m0[cam].parent.Some? && m0[cam].parent.value < cam {
      WorldAgrees(m0, m1, cam, m0[cam].parent.value);
    }
  }

  // ---------------------------------------------------------------------------
  // Cleaning up
  // ---------------------------------------------------------------------------

  /** After a render that threw: the camera object at `cam` and the whole group after it stay in the scene, on layer 31. */
  ghost predicate LeftBehind(m: map<NodeId, Node>, cam: NodeId) {
    && cam in m && m[cam].alive && m[cam].camera.Some?
    && cam + 1 in m && m[cam + 1].name == "RenderGroup"
    && forall id :: id in m && cam < id ==> m[id].alive && m[id].layer == TempLayer && IsDescendant(m, id, cam + 1)
  }

  lemma DestroyedKeepsParents(m: map<NodeId, Node>, root: NodeId, n: nat)
    ensures ParentsAgree(m, Destroyed(m, root), n)
  {
    var d := Destroyed(m, root);
    forall id | id < n && id in m ensures id in d && d[id].parent == m[id].parent {
    }
  }

  lemma RestoredKeepsParents(m: map<NodeId, Node>, layers: map<NodeId, Layer>, n: nat)
    ensures ParentsAgree(m, Restored(m, layers), n)
  {
    var r := Restored(m, layers);
    forall id | id < n && id in m ensures id in r && r[id].parent == m[id].parent {
    }
  }

  /** Destroying `root` leaves every object older than it as it was. */
  lemma DestroyedKeepsOlder(m: map<NodeId, Node>, root: NodeId, id: NodeId)
    requires id in m && id < root
    ensures id in Destroyed(m, root) && Destroyed(m, root)[id] == m[id]
  {
    if IsDescendant(m, id, root) { DescendantNotOlder(m, id, root); }
  }

  /**
    * CleanupRender's three steps (destroy the camera, restore the recorded
    * layers, destroy the group) leave no trace of a render whose new objects
    * are the camera and the group's subtree, whatever layers were recorded for
    * the new objects.
    */
  lemma CleanupLeavesNoTrace(before: map<NodeId, Node>, built: map<NodeId, Node>, cam: NodeId, layers: map<NodeId, Layer>)
    requires WellFormed(before, cam) && Untouched(before, built)
    requires forall id: NodeId :: id in built && id !in before ==> id == cam || IsDescendant(built, id, cam + 1)
    requires forall id :: id in layers ==> cam < id
    ensures NoTrace(before, Destroyed(Restored(Destroyed(built, cam), layers), cam + 1))
  {
    var m3 := Destroyed(Restored(Destroyed(built, cam), layers), cam + 1);
    forall id | id in before ensures id in m3 && m3[id] == before[id] {
      CleanupKeepsOld(before, built, cam, layers, id);
    }
    forall id | id in m3 && id !in before ensures !m3[id].alive {
      CleanupDestroysNew(built, cam, layers, id);
    }
  }

  /** An object older than the camera comes through the cleanup as it was. */
  lemma CleanupKeepsOld(before: map<NodeId, Node>, built: map<NodeId, Node>, cam: NodeId, layers: map<NodeId, Layer>, id: NodeId)
    requires WellFormed(before, cam) && Untouched(before, built) && id in before
    requires forall id :: id in layers ==> cam < id
    ensures var m3 := Destroyed(Restored(Destroyed(built, cam), layers), cam + 1);
            id in m3 && m3[id] == before[id]
  {
    var m2 := Restored(Destroyed(built, cam), layers);
    DestroyedKeepsOlder(built, cam, id);
    assert id !in layers;
    DestroyedKeepsOlder(m2, cam + 1, id);
  }

  /** The camera, and every object below the group, is destroyed by the cleanup. */
  lemma CleanupDestroysNew(built: map<NodeId, Node>, cam: NodeId, layers: map<NodeId, Layer>, id: NodeId)
    requires id in built && (id == cam || IsDescendant(built, id, cam + 1))
    ensures var m3 := Destroyed(Restored(Destroyed(built, cam), layers), cam + 1);
            id in m3 && !m3[id].alive
  {
    var m1 := Destroyed(built, cam);
    var m2 := Restored(m1, layers);
    if id != cam {
      DestroyedKeepsParents(built, cam, id + 1);
      RestoredKeepsParents(m1, layers, id + 1);
      DescendantAgrees(built, m1, id + 1, id, cam + 1);
      DescendantAgrees(m1, m2, id + 1, id, cam + 1);
    } else {
      assert !m1[id].alive;
    }
  }

  /**
    * The scene between CreateRenderGroup and CleanupRender: the objects of
    * `before` untouched, the camera `cam` a live root, and every newer object
    * a live member of the group `cam + 1` on TempLayer with its layer
    * recorded in `layers`, or none.
    */
  ghost predicate Staged(before: map<NodeId, Node>, m: map<NodeId, Node>, cam: NodeId, layers: map<NodeId, Layer>) {
    && WellFormed(before, cam) && Untouched(before, m) && LeftBehind(m, cam)
    && m[cam].parent.None?
    && (forall id :: id in m && id !in before ==> cam <= id)
    && (forall id :: id in layers ==> cam < id)
  }

  /** A fresh camera object followed by CreateRenderGroup stages the render. */
  lemma GroupStaged(before: map<NodeId, Node>, mc: map<NodeId, Node>, m: map<NodeId, Node>, name: string, cam: NodeId, root: NodeId,
                    layers: map<NodeId, Layer>, n: nat)
    requires WellFormed(before, cam) && mc == before[cam := NewNode(name).(camera := Some(NewCamera))]
    requires root == cam + 1 && Extends(mc, m, root) && WellFormed(m, n)
    requires root in m && m[root].name == "RenderGroup"
    requires forall id: NodeId :: InSubtree(m, id, root) <==> root <= id < n
    requires forall id: NodeId :: id in layers <==> InSubtree(m, id, root)
    requires forall id :: id in layers ==> id in m && m[id].layer == TempLayer
    ensures Staged(before, m, cam, layers)
    ensures m[cam] == NewNode(name).(camera := Some(NewCamera))
  {
    forall id | id in m && cam < id ensures m[id].alive && m[id].layer == TempLayer && IsDescendant(m, id, root) {
      assert id !in mc;
      assert InSubtree(m, id, root);
    }
  }

  /** ConfigureCamera changes only the camera object, which stays a live root camera. */
  lemma StagedCameraChange(before: map<NodeId, Node>, m: map<NodeId, Node>, cam: NodeId, layers: map<NodeId, Layer>, node: Node)
    requires Staged(before, m, cam, layers)
    requires node.parent.None? && node.alive && node.camera.Some?
    ensures Staged(before, m[cam := node], cam, layers)
  {
    var m' := m[cam := node];
    forall id | id in m' && cam < id ensures IsDescendant(m', id, cam + 1) {
      assert ParentsAgree(m, m', id + 1);
      SameParentsKeepDescendants(m, m', id + 1, cam + 1, id);
    }
  }

  /** CleanupRender after a staged render leaves no trace of it. */
  lemma StagedCleanup(before: map<NodeId, Node>, m: map<NodeId, Node>, cam: NodeId, layers: map<NodeId, Layer>)
    requires Staged(before, m, cam, layers)
    ensures NoTrace(before, Destroyed(Restored(Destroyed(m, cam), layers), cam + 1))
  {
    CleanupLeavesNoTrace(before, m, cam, layers);
  }
}
