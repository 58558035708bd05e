/**
  * IconRendererEngine: renders a prefab, framed by optional background and
  * frame sprites, through a temporary orthographic camera into a texture or a
  * PNG file. The scene, the GPU and the file system are passed in; where the
  * environment throws is a `Failure` parameter.
  */
module Engine {
  import opened Wrappers
  import opened Geometry
  import opened SceneModel
  import opened SceneObjects
  import opened EditorHost
  import opened RenderResults
  import opened Settings
  import opened Naming
  import opened RenderSpec

  class IconRendererEngine {
    var settings: PrefabIconSettings

    constructor ()
      ensures fresh(settings) && settings.Snapshot() == Defaults
    {
      settings := new PrefabIconSettings();
    }

    /** The settings given, or defaults when they are null. */
    constructor WithSettings(initialSettings: PrefabIconSettings?)
      ensures initialSettings != null ==> settings == initialSettings
      ensures initialSettings == null ==> fresh(settings) && settings.Snapshot() == Defaults
    {
      if initialSettings != null {
        settings := initialSettings;
      } else {
        settings := new PrefabIconSettings();
      }
    }

    /** Adopts `newSettings` by reference; null is ignored. */
    method UpdateSettings(newSettings: PrefabIconSettings?)
      modifies this
      ensures newSettings == null ==> settings == old(settings)
      ensures newSettings != null ==> settings == newSettings
    {
      if newSettings == null {
        return;
      }
      settings := newSettings;
    }

    /** A copy of the settings; edits to it do not reach the engine. */
    method GetSettings() returns (copy: PrefabIconSettings)
      ensures fresh(copy) && copy != settings && copy.Snapshot() == settings.Snapshot()
    {
      copy := settings.Clone();
    }

    // -------------------------------------------------------------------------
    // Rendering
    // -------------------------------------------------------------------------

    /**
      * Temporarily renders `gameObject` instead of the configured prefab;
      * the prefab reference is put back afterwards.
      */
    method RenderGameObjectToTexture(gameObject: Prefab?, scene: Scene, gpu: Gpu, failure: Failure) returns (r: RenderResult)
      requires scene.Valid() && gpu.Valid()
      modifies settings`prefab, scene, gpu
      ensures scene.Valid() && gpu.Valid() && settings.Snapshot() == old(settings.Snapshot())
      ensures r == if gameObject == null then CreateError(GameObjectNotSet)
                   else TextureOutcome(true, settings.resolution, failure, old(gpu.next))
      ensures Untouched(old(scene.nodes), scene.nodes)
      ensures gameObject == null ==> scene.nodes == old(scene.nodes) && gpu.next == old(gpu.next)
      ensures gameObject != null ==>
                if r.success then NoTrace(old(scene.nodes), scene.nodes) else LeftBehind(scene.nodes, old(scene.next))
      ensures gameObject == null ==>
                gpu.active == old(gpu.active) && gpu.renderTargets == old(gpu.renderTargets) && gpu.textures == old(gpu.textures)
      ensures gameObject != null ==>
                && gpu.renderTargets == (if Reaches(failure, true, Draw) && !r.success then old(gpu.renderTargets) + {old(gpu.next)} else old(gpu.renderTargets))
                && gpu.active == (if Reaches(failure, true, Draw) && !r.success then Some(old(gpu.next)) else old(gpu.active))
                && gpu.textures == (if Reaches(failure, true, ReadBack) then old(gpu.textures) + {old(gpu.next) + 1} else old(gpu.textures))
    {
      if gameObject == null {
        return CreateError(GameObjectNotSet);
      }
      var originalPrefab := settings.prefab;
      settings.prefab := gameObject;
      r := RenderToTexture(scene, gpu, failure);
      settings.prefab := originalPrefab;
    }

    /**
      * Temporarily renders `gameObject`, with `fileName` and `folderPath`
      * replacing the configured ones when they are not blank, and saves it;
      * the three settings are put back afterwards.
      */
    method RenderGameObjectAndSave(gameObject: Prefab?, fileName: Option<string>, folderPath: Option<string>,
                                   scene: Scene, gpu: Gpu, fs: FileSystem, failure: Failure) returns (r: RenderResult)
      requires scene.Valid() && gpu.Valid()
      modifies settings`prefab, settings`fileName, settings`folderPath, scene, gpu, fs
      ensures scene.Valid() && gpu.Valid()
      ensures settings.prefab == old(settings.prefab) && settings.fileName == old(settings.fileName)
      ensures settings.folderPath == old(settings.folderPath)
      ensures gameObject == null ==>
                && r == CreateError(GameObjectNotSet)
                && scene.nodes == old(scene.nodes) && gpu.next == old(gpu.next) && fs.files == old(fs.files)
      ensures gameObject != null ==>
                var folder, file := OrCurrent(folderPath, old(settings.folderPath)), OrCurrent(fileName, old(settings.fileName));
                var folderExists := folder in old(fs.directories);
                && r == SaveOutcome(Some(gameObject.name), file, folder, folderExists, failure)
                && Untouched(old(scene.nodes), scene.nodes)
                && (if r.success then NoTrace(old(scene.nodes), scene.nodes) else LeftBehind(scene.nodes, old(scene.next)))
                && fs.files == if Reaches(failure, folderExists, Import)
                               then old(fs.files)[OutputPath(folder, OutputFileName(file, gameObject.name))
                                                  := Png(Texture2D(old(gpu.next) + 1, old(settings.resolution), old(settings.resolution)))]
                               else old(fs.files)
      ensures gameObject == null ==>
                && gpu.active == old(gpu.active) && gpu.renderTargets == old(gpu.renderTargets)
                && gpu.textures == old(gpu.textures) && fs.directories == old(fs.directories)
      ensures gameObject != null ==>
                var folder := OrCurrent(folderPath, old(settings.folderPath));
                var folderExists := folder in old(fs.directories);
                && gpu.renderTargets == (if Reaches(failure, folderExists, Draw) && !r.success then old(gpu.renderTargets) + {old(gpu.next)} else old(gpu.renderTargets))
                && gpu.active == (if Reaches(failure, folderExists, Draw) && !r.success then Some(old(gpu.next)) else old(gpu.active))
                && gpu.textures == (if Reaches(failure, folderExists, ReadBack) && !r.success then old(gpu.textures) + {old(gpu.next) + 1} else old(gpu.textures))
                && fs.directories == (if Reaches(failure, folderExists, WriteFile) then old(fs.directories) + {folder} else old(fs.directories))
    {
      if gameObject == null {
        return CreateError(GameObjectNotSet);
      }
      var originalPrefab, originalFileName, originalFolderPath := settings.prefab, settings.fileName, settings.folderPath;
      // A blank argument leaves the field as it is.
      settings.prefab, settings.fileName, settings.folderPath :=
        gameObject, OrCurrent(fileName, originalFileName), OrCurrent(folderPath, originalFolderPath);
      r := RenderAndSave(scene, gpu, fs, failure);
      settings.prefab, settings.fileName, settings.folderPath := originalPrefab, originalFileName, originalFolderPath;
    }

    /**
      * Renders the configured prefab into a new texture. Without a prefab
      * nothing happens. When a step throws, the exception's message is
      * returned and nothing is cleaned up: the camera and the group stay in
      * the scene, and the render target stays allocated and active.
      */
    method RenderToTexture(scene: Scene, gpu: Gpu, failure: Failure) returns (r: RenderResult)
      requires scene.Valid() && gpu.Valid()
      modifies scene, gpu
      ensures scene.Valid() && gpu.Valid()
      ensures r == TextureOutcome(old(settings.prefab) != null, old(settings.resolution), failure, old(gpu.next))
      ensures Untouched(old(scene.nodes), scene.nodes)
      ensures old(settings.prefab) == null ==>
                && scene.nodes == old(scene.nodes) && gpu.next == old(gpu.next) && gpu.active == old(gpu.active)
                && gpu.renderTargets == old(gpu.renderTargets) && gpu.textures == old(gpu.textures)
      ensures old(settings.prefab) != null ==>
                && (if r.success then NoTrace(old(scene.nodes), scene.nodes) else LeftBehind(scene.nodes, old(scene.next)))
                && gpu.renderTargets == (if Reaches(failure, true, Draw) && !r.success then old(gpu.renderTargets) + {old(gpu.next)} else old(gpu.renderTargets))
                && gpu.active == (if Reaches(failure, true, Draw) && !r.success then Some(old(gpu.next)) else old(gpu.active))
                && gpu.textures == (if Reaches(failure, true, ReadBack) then old(gpu.textures) + {old(gpu.next) + 1} else old(gpu.textures))
    {
      var prefab, resolution := settings.prefab, settings.resolution;
      if prefab == null {
        return CreateError(PrefabNotSet);
      }
      ghost var before := scene.nodes;
      var camObj, renderGroup, originalLayers := PrepareRender(scene, "PreviewCam");
      r := CaptureTexture(scene, gpu, camObj, renderGroup.root, originalLayers, resolution, failure, before);
    }

    /** RenderToTexture once the camera and the group are staged: from the render target to CleanupRender. */
    method CaptureTexture(scene: Scene, gpu: Gpu, camObj: NodeId, group: NodeId, layers: map<NodeId, Layer>, resolution: int,
                          failure: Failure, ghost before: map<NodeId, Node>) returns (r: RenderResult)
      requires scene.Valid() && gpu.Valid() && Staged(before, scene.nodes, camObj, layers) && group == camObj + 1
      modifies scene, gpu
      ensures scene.Valid() && gpu.Valid()
      ensures r == if ThrowsInRender(failure) then CreateError(failure.message)
                   else CreateSuccess(Texture2D(old(gpu.next) + 1, resolution, resolution))
      ensures if r.success then NoTrace(before, scene.nodes) else Staged(before, scene.nodes, camObj, layers)
      ensures gpu.renderTargets == (if Reaches(failure, true, Draw) && !r.success then old(gpu.renderTargets) + {old(gpu.next)} else old(gpu.renderTargets))
      ensures gpu.active == (if Reaches(failure, true, Draw) && !r.success then Some(old(gpu.next)) else old(gpu.active))
      ensures gpu.textures == (if Reaches(failure, true, ReadBack) then old(gpu.textures) + {old(gpu.next) + 1} else old(gpu.textures))
    {
      if failure.ThrowsAt? && failure.step.CreateTarget? {
        return CreateError(failure.message);
      }
      var previewRT := gpu.CreateRenderTarget();
      AimCamera(scene, camObj, previewRT, before, layers);
      var currentRT, previewTexture := DrawAndRead(gpu, previewRT, resolution, failure);
      if previewTexture.None? {
        return CreateError(failure.message);
      }
      gpu.SetActive(currentRT);
      FinishRender(scene, gpu, camObj, group, layers, Some(previewRT), before);
      r := CreateSuccess(previewTexture.value);
    }

    /**
      * Renders the configured prefab and writes it as a PNG to
      * "<folderPath>/<name>.png", creating the folder when it is missing.
      * As in RenderToTexture, a step that throws leaves everything it had
      * built (and a folder or file already written) in place.
      */
    method RenderAndSave(scene: Scene, gpu: Gpu, fs: FileSystem, failure: Failure) returns (r: RenderResult)
      requires scene.Valid() && gpu.Valid()
      modifies scene, gpu, fs
      ensures scene.Valid() && gpu.Valid()
      ensures r == SaveOutcome(PrefabName(old(settings.prefab)), old(settings.fileName), old(settings.folderPath),
                               old(settings.folderPath in fs.directories), failure)
      ensures Untouched(old(scene.nodes), scene.nodes)
      ensures old(settings.prefab) == null ==>
                && scene.nodes == old(scene.nodes) && gpu.next == old(gpu.next) && gpu.active == old(gpu.active)
                && gpu.renderTargets == old(gpu.renderTargets) && gpu.textures == old(gpu.textures)
                && fs.directories == old(fs.directories) && fs.files == old(fs.files)
      ensures old(settings.prefab) != null ==>
                var folderExists := old(settings.folderPath in fs.directories);
                && (if r.success then NoTrace(old(scene.nodes), scene.nodes) else LeftBehind(scene.nodes, old(scene.next)))
                && gpu.renderTargets == (if Reaches(failure, folderExists, Draw) && !r.success then old(gpu.renderTargets) + {old(gpu.next)} else old(gpu.renderTargets))
                && gpu.active == (if Reaches(failure, folderExists, Draw) && !r.success then Some(old(gpu.next)) else old(gpu.active))
                && gpu.textures == (if Reaches(failure, folderExists, ReadBack) && !r.success then old(gpu.textures) + {old(gpu.next) + 1} else old(gpu.textures))
                && fs.directories == (if Reaches(failure, folderExists, WriteFile) then old(fs.directories) + {old(settings.folderPath)} else old(fs.directories))
                && fs.files == if Reaches(failure, folderExists, Import)
                               then old(fs.files)[OutputPath(old(settings.folderPath), OutputFileName(old(settings.fileName), old(settings.prefab.name)))
                                                  := Png(Texture2D(old(gpu.next) + 1, old(settings.resolution), old(settings.resolution)))]
                               else old(fs.files)
    {
      var prefab, resolution, fileName, folderPath := settings.prefab, settings.resolution, settings.fileName, settings.folderPath;
      if prefab == null {
        return CreateError(PrefabNotSet);
      }
      ghost var before := scene.nodes;
      var camObj, renderGroup, originalLayers := PrepareRender(scene, "IconCam");
      var filePath := OutputPath(folderPath, OutputFileName(fileName, prefab.name));
      r := CaptureAndSave(scene, gpu, fs, camObj, renderGroup.root, originalLayers, resolution, folderPath, filePath, failure, before);
    }

    /** RenderAndSave once the camera and the group are staged: from the render target to CleanupRender. */
    method CaptureAndSave(scene: Scene, gpu: Gpu, fs: FileSystem, camObj: NodeId, group: NodeId, layers: map<NodeId, Layer>,
                          resolution: int, folderPath: string, filePath: string, failure: Failure,
                          ghost before: map<NodeId, Node>) returns (r: RenderResult)
      requires scene.Valid() && gpu.Valid() && Staged(before, scene.nodes, camObj, layers) && group == camObj + 1
      modifies scene, gpu, fs
      ensures scene.Valid() && gpu.Valid()
      ensures var folderExists := folderPath in old(fs.directories);
              && r == (if ThrowsInSave(failure, folderExists) then CreateError(failure.message) else CreateSaved(filePath))
              && (if r.success then NoTrace(before, scene.nodes) else Staged(before, scene.nodes, camObj, layers))
              && gpu.renderTargets == (if Reaches(failure, folderExists, Draw) && !r.success then old(gpu.renderTargets) + {old(gpu.next)} else old(gpu.renderTargets))
              && gpu.active == (if Reaches(failure, folderExists, Draw) && !r.success then Some(old(gpu.next)) else old(gpu.active))
              && gpu.textures == (if Reaches(failure, folderExists, ReadBack) && !r.success then old(gpu.textures) + {old(gpu.next) + 1} else old(gpu.textures))
              && fs.directories == (if Reaches(failure, folderExists, WriteFile) then old(fs.directories) + {folderPath} else old(fs.directories))
              && fs.files == if Reaches(failure, folderExists, Import)
                             then old(fs.files)[filePath := Png(Texture2D(old(gpu.next) + 1, resolution, resolution))]
                             else old(fs.files)
    {
      if failure.ThrowsAt? && failure.step.CreateTarget? {
        return CreateError(failure.message);
      }
      var rt := gpu.CreateRenderTarget();
      AimCamera(scene, camObj, rt, before, layers);
      var currentRT, tex := DrawAndRead(gpu, rt, resolution, failure);
      if tex.None? {
        return CreateError(failure.message);
      }
      r := SaveCapture(scene, gpu, fs, camObj, group, layers, currentRT, rt, tex.value, folderPath, filePath, failure, before);
    }

    /** `new GameObject(name)` with a Camera, then CreateRenderGroup: the render staged in the scene. */
    method PrepareRender(scene: Scene, name: string) returns (camObj: NodeId, g: RenderGroup, originalLayers: map<NodeId, Layer>)
      requires scene.Valid() && settings.prefab != null
      modifies scene
      ensures scene.Valid() && camObj == old(scene.next) && g.root == camObj + 1 && camObj + 1 < scene.next
      ensures Staged(old(scene.nodes), scene.nodes, camObj, originalLayers)
      ensures scene.nodes[camObj] == NewNode(name).(camera := Some(NewCamera))
    {
      ghost var before := scene.nodes;
      camObj := scene.NewGameObject(name);
      scene.Update(camObj, scene.nodes[camObj].(camera := Some(NewCamera)));
      ghost var withCamera := scene.nodes;
      assert withCamera == before[camObj := NewNode(name).(camera := Some(NewCamera))];
      assert WorldPosition(withCamera, camObj) == Zero;
      g, originalLayers := CreateRenderGroup(scene, camObj);
      assert scene.nodes[g.root].name == "RenderGroup" by {
        assert SansLayer(scene.nodes[g.root]).name == SansLayer(NewNode("RenderGroup")).name;
      }
      GroupStaged(before, withCamera, scene.nodes, name, camObj, g.root, originalLayers, scene.next);
    }

    /** ConfigureCamera on the staged camera: the render stays staged. */
    method AimCamera(scene: Scene, camObj: NodeId, target: nat, ghost before: map<NodeId, Node>, ghost layers: map<NodeId, Layer>)
      requires scene.Valid() && Staged(before, scene.nodes, camObj, layers)
      modifies scene
      ensures scene.Valid() && scene.next == old(scene.next) && Staged(before, scene.nodes, camObj, layers)
      ensures scene.nodes[camObj].camera == Some(ConfiguredCamera(settings.Snapshot(), target))
    {
      ghost var staged := scene.nodes;
      ConfigureCamera(scene, camObj, target);
      StagedCameraChange(before, staged, camObj, layers, scene.nodes[camObj]);
    }

    /**
      * `RenderTexture.active = rt`, `cam.Render()`, then a new texture of the
      * resolution read back from the target. Yields the previously active
      * target, and no texture when one of the two steps throws.
      */
    method DrawAndRead(gpu: Gpu, rt: nat, resolution: int, failure: Failure) returns (previous: Option<nat>, tex: Option<Texture2D>)
      requires gpu.Valid()
      modifies gpu
      ensures gpu.Valid() && previous == old(gpu.active) && gpu.renderTargets == old(gpu.renderTargets) && gpu.active == Some(rt)
      ensures tex.Some? <==> !(failure.ThrowsAt? && (failure.step.Draw? || failure.step.ReadBack?))
      ensures tex.Some? ==> tex.value == Texture2D(old(gpu.next), resolution, resolution)
      ensures var drawn := !(failure.ThrowsAt? && failure.step.Draw?);
              && gpu.next == old(gpu.next) + (if drawn then 1 else 0)
              && gpu.textures == (if drawn then old(gpu.textures) + {old(gpu.next)} else old(gpu.textures))
    {
      previous := gpu.active;
      gpu.SetActive(Some(rt));
      if failure.ThrowsAt? && failure.step.Draw? {
        return previous, None;
      }
      var t := gpu.NewTexture(resolution, resolution);
      if failure.ThrowsAt? && failure.step.ReadBack? {
        return previous, None;
      }
      tex := Some(t);
    }

    /** `cam.targetTexture = null` on the staged camera: the render stays staged. */
    method DetachCamera(scene: Scene, camObj: NodeId, ghost before: map<NodeId, Node>, ghost layers: map<NodeId, Layer>)
      requires scene.Valid() && Staged(before, scene.nodes, camObj, layers)
      modifies scene
      ensures scene.Valid() && scene.next == old(scene.next) && Staged(before, scene.nodes, camObj, layers)
      ensures scene.nodes[camObj].camera == Some(old(scene.nodes[camObj].camera.value).(targetTexture := None))
    {
      ghost var configured := scene.nodes;
      var detached := scene.nodes[camObj].(camera := Some(scene.nodes[camObj].camera.value.(targetTexture := None)));
      scene.Update(camObj, detached);
      StagedCameraChange(before, configured, camObj, layers, detached);
    }

    /**
      * Creates the folder when it is missing, writes the PNG to `filePath`,
      * then refreshes the asset database and sets the importer up. False when
      * one of these throws; what was written before stays. The render
      * steps before it have not thrown.
      */
    method WriteIcon(fs: FileSystem, folderPath: string, filePath: string, png: Png, failure: Failure) returns (written: bool)
      requires !ThrowsInRender(failure)
      modifies fs
      ensures var folderExists := folderPath in old(fs.directories);
              && (written <==> !ThrowsInSave(failure, folderExists))
              && fs.directories == (if Reaches(failure, folderExists, WriteFile) then old(fs.directories) + {folderPath} else old(fs.directories))
              && fs.files == if Reaches(failure, folderExists, Import) then old(fs.files)[filePath := png] else old(fs.files)
    {
      if folderPath !in fs.directories {
        if failure.ThrowsAt? && failure.step.CreateDirectory? {
          return false;
        }
        fs.CreateDirectory(folderPath);
      }
      if failure.ThrowsAt? && failure.step.WriteFile? {
        return false;
      }
      fs.WriteAllBytes(filePath, png);
      if failure.ThrowsAt? && failure.step.Import? {
        return false;
      }
      written := true;
    }

    /** The second half of RenderAndSave: the PNG written, then everything released, or the exception's message. */
    method SaveCapture(scene: Scene, gpu: Gpu, fs: FileSystem, camObj: NodeId, group: NodeId, layers: map<NodeId, Layer>,
                       previous: Option<nat>, rt: nat, tex: Texture2D, folderPath: string, filePath: string, failure: Failure,
                       ghost before: map<NodeId, Node>) returns (r: RenderResult)
      requires scene.Valid() && gpu.Valid() && Staged(before, scene.nodes, camObj, layers) && group == camObj + 1
      requires !ThrowsInRender(failure)
      modifies scene, gpu, fs
      ensures var folderExists := folderPath in old(fs.directories);
              && r == (if ThrowsInSave(failure, folderExists) then CreateError(failure.message) else CreateSaved(filePath))
              && fs.directories == (if Reaches(failure, folderExists, WriteFile) then old(fs.directories) + {folderPath} else old(fs.directories))
              && fs.files == if Reaches(failure, folderExists, Import) then old(fs.files)[filePath := Png(tex)] else old(fs.files)
      ensures scene.Valid() && gpu.Valid() && gpu.next == old(gpu.next)
      ensures if r.success then
                && NoTrace(before, scene.nodes) && gpu.active == previous
                && gpu.renderTargets == old(gpu.renderTargets) - {rt} && gpu.textures == old(gpu.textures) - {tex.id}
              else
                && scene.nodes == old(scene.nodes) && gpu.active == old(gpu.active)
                && gpu.renderTargets == old(gpu.renderTargets) && gpu.textures == old(gpu.textures)
    {
      var written := WriteIcon(fs, folderPath, filePath, Png(tex), failure);
      if !written {
        return CreateError(failure.message);
      }
      FinishSave(scene, gpu, camObj, group, layers, previous, rt, tex, before);
      r := CreateSaved(filePath);
    }

    /**
      * The end of RenderAndSave: the previous target made active again, the
      * camera detached from its target, the target released, the texture
      * destroyed, then CleanupRender without a target.
      */
    method FinishSave(scene: Scene, gpu: Gpu, camObj: NodeId, group: NodeId, layers: map<NodeId, Layer>,
                      previous: Option<nat>, rt: nat, tex: Texture2D, ghost before: map<NodeId, Node>)
      requires scene.Valid() && gpu.Valid() && Staged(before, scene.nodes, camObj, layers) && group == camObj + 1
      modifies scene, gpu
      ensures scene.Valid() && gpu.Valid() && NoTrace(before, scene.nodes)
      ensures gpu.active == previous && gpu.next == old(gpu.next)
      ensures gpu.renderTargets == old(gpu.renderTargets) - {rt} && gpu.textures == old(gpu.textures) - {tex.id}
    {
      gpu.SetActive(previous);
      DetachCamera(scene, camObj, before, layers);
      gpu.Release(rt);
      gpu.DestroyTexture(tex);
      FinishRender(scene, gpu, camObj, group, layers, None, before);
    }

    /** CleanupRender of a staged render: nothing is left of it in the scene. */
    method FinishRender(scene: Scene, gpu: Gpu, camObj: NodeId, group: NodeId, layers: map<NodeId, Layer>, rt: Option<nat>,
                        ghost before: map<NodeId, Node>)
      requires scene.Valid() && gpu.Valid() && Staged(before, scene.nodes, camObj, layers) && group == camObj + 1
      modifies scene, gpu`renderTargets
      ensures scene.Valid() && gpu.Valid() && NoTrace(before, scene.nodes)
      ensures gpu.renderTargets == if rt.Some? then old(gpu.renderTargets) - {rt.value} else old(gpu.renderTargets)
      ensures gpu.textures == old(gpu.textures) && gpu.active == old(gpu.active) && gpu.next == old(gpu.next)
    {
      StagedCleanup(before, scene.nodes, camObj, layers);
      CleanupRender(scene, gpu, camObj, group, layers, rt);
    }

    // -------------------------------------------------------------------------
    // CreateRenderGroup and its parts
    // -------------------------------------------------------------------------

    /**
      * The group under which everything the camera sees is built: the
      * optional background, the centred prefab copy, the sorting helper and
      * the optional frame, all then moved onto TempLayer with their layers
      * recorded. The decorations are placed relative to the camera's pose at
      * this point, before ConfigureCamera moves it. The decorations use the
      * world axes as the camera's forward, right and up, which holds for the
      * camera PrepareRender creates: a root object without rotation.
      */
    method CreateRenderGroup(scene: Scene, cam: NodeId) returns (g: RenderGroup, originalLayers: map<NodeId, Layer>)
      requires scene.Valid() && cam in scene.nodes && settings.prefab != null
      requires scene.nodes[cam].parent.None? && scene.nodes[cam].rotation == Identity
      modifies scene
      ensures scene.Valid() && old(scene.next) < scene.next
      ensures Extends(old(scene.nodes), scene.nodes, old(scene.next)) && g.root == old(scene.next)
      ensures Layout(scene.nodes, g, settings.Snapshot(), Anchor(old(WorldPosition(scene.nodes, cam))), scene.next)
      // the group's subtree is exactly the objects created, and each has its layer recorded and replaced
      ensures forall id: NodeId :: InSubtree(scene.nodes, id, g.root) <==> old(scene.next) <= id < scene.next
      ensures forall id: NodeId :: id in originalLayers <==> InSubtree(scene.nodes, id, g.root)
      ensures forall id :: id in originalLayers ==>
                id in scene.nodes && scene.nodes[id].layer == TempLayer && originalLayers[id] == CreatedLayer(settings.prefab, g.subject, id)
    {
      ghost var m0, n0 := scene.nodes, scene.next;
      var group := scene.NewGameObject("RenderGroup");
      ExtendsPreserves(m0, scene.nodes, n0);
      WorldAgrees(m0, scene.nodes, n0, cam);
      var center := Anchor(WorldPosition(scene.nodes, cam));
      ghost var mg := scene.nodes;

      g := BuildGroupContents(scene, group, center);
      ghost var m4, n4 := scene.nodes, scene.next;

      originalLayers := AssignTempLayer(scene, group);
      GroupCreated(m0, mg, m4, originalLayers, settings.prefab, g.subject, n0, n4, TempLayer);
      LayoutSurvivesLayers(m4, originalLayers.Keys, TempLayer, g, settings.Snapshot(), center, n4);
    }

    /** The background, the subject, the sorting helper and the frame, in that order, under `group`. */
    method BuildGroupContents(scene: Scene, group: NodeId, center: Vec3) returns (g: RenderGroup)
      requires scene.Valid() && settings.prefab != null
      requires group in scene.nodes && scene.next == group + 1 && scene.nodes[group] == NewNode("RenderGroup")
      modifies scene
      ensures scene.Valid() && old(scene.next) < scene.next && g.root == group
      ensures Extends(old(scene.nodes), scene.nodes, old(scene.next))
      ensures Layout(scene.nodes, g, settings.Snapshot(), center, scene.next)
      ensures GroupBuilt(scene.nodes, group, scene.next)
      ensures forall id: NodeId :: group <= id < scene.next ==> scene.nodes[id].layer == CreatedLayer(settings.prefab, g.subject, id)
    {
      ghost var s := settings.Snapshot();
      ghost var mg := scene.nodes;
      assert IsDescendant(mg, group, group);

      var background := AddBackground(scene, group, center);
      ghost var m1, n1 := scene.nodes, scene.next;

      var subject, helper, m2 := AddSubjectAndHelper(scene, group);
      ghost var n2, m3, n3 := helper, scene.nodes, scene.next;

      var frame := AddFrame(scene, group, center);
      ghost var m4, n4 := scene.nodes, scene.next;
      g := RenderGroup(group, background, subject, helper, frame);
      ContentsBuilt(mg, m1, m2, m3, m4, g, s, center, n1, n2, n3, n4);
    }

    /**
      * The prefab's copy, then the sorting helper at its final position;
      * `placed` is the scene between the two.
      */
    method AddSubjectAndHelper(scene: Scene, group: NodeId) returns (subject: NodeId, helper: NodeId, ghost placed: map<NodeId, Node>)
      requires scene.Valid() && group in scene.nodes && settings.prefab != null && GroupBuilt(scene.nodes, group, scene.next)
      modifies scene
      ensures scene.Valid() && subject == old(scene.next) && helper == subject + |settings.prefab.hierarchy| && scene.next == helper + 1
      ensures Extends(old(scene.nodes), placed, subject)
      ensures IsPlacedSubject(placed, subject, group, settings.prefab, settings.objectRotation, settings.prefabZoom)
      ensures forall id: NodeId :: subject <= id < helper ==> id in placed && placed[id].layer == CreatedLayer(settings.prefab, subject, id)
      ensures RenderableBounds(placed, subject, helper).Center() == WorldPosition(placed, group).Plus(ScreenOffset(settings.prefabOffset))
      ensures Extends(placed, scene.nodes, helper) && helper in scene.nodes && scene.nodes[helper].layer == 0
      ensures IsSortingHelper(scene.nodes, helper, group, WorldPosition(placed, subject))
      ensures GroupBuilt(scene.nodes, group, scene.next)
    {
      ghost var m1, n1 := scene.nodes, scene.next;
      subject := InstantiateSubject(scene, group);
      placed := scene.nodes;
      GroupGrows(m1, placed, group, n1, scene.next);
      helper := AddSortingHelper(scene, group, subject);
      ChildGrows(placed, scene.nodes, group, helper);
    }

    /** The "Background" object, when a background sprite is set. */
    method AddBackground(scene: Scene, group: NodeId, center: Vec3) returns (background: Option<NodeId>)
      requires scene.Valid() && group in scene.nodes && GroupBuilt(scene.nodes, group, scene.next)
      modifies scene
      ensures scene.Valid() && scene.next == old(scene.next) + (if background.Some? then 1 else 0)
      ensures background.Some? ==> background.value == old(scene.next)
      ensures Extends(old(scene.nodes), scene.nodes, old(scene.next)) && GroupBuilt(scene.nodes, group, scene.next)
      ensures forall id: NodeId :: old(scene.next) <= id < scene.next ==> scene.nodes[id].layer == 0
      ensures BackgroundPlaced(scene.nodes, group, background, settings.Snapshot(), center)
    {
      background := None;
      if settings.backgroundSprite != null {
        ghost var m0 := scene.nodes;
        var bg := AddDecoration(scene, group, "Background", settings.backgroundSprite, -100,
                                Tint(settings.tintBackground, settings.backgroundTintColor),
                                center.Plus(ScreenOffset(settings.backgroundOffset)), settings.backgroundZoom);
        background := Some(bg);
        ChildGrows(m0, scene.nodes, group, bg);
      }
    }

    /** The "Frame" object, when a frame sprite is set. */
    method AddFrame(scene: Scene, group: NodeId, center: Vec3) returns (frame: Option<NodeId>)
      requires scene.Valid() && group in scene.nodes && GroupBuilt(scene.nodes, group, scene.next)
      modifies scene
      ensures scene.Valid() && scene.next == old(scene.next) + (if frame.Some? then 1 else 0)
      ensures Extends(old(scene.nodes), scene.nodes, old(scene.next)) && GroupBuilt(scene.nodes, group, scene.next)
      ensures forall id: NodeId :: old(scene.next) <= id < scene.next ==> scene.nodes[id].layer == 0 && scene.nodes[id].renderer.None?
      ensures FramePlaced(scene.nodes, group, frame, settings.Snapshot(), center)
    {
      frame := None;
      if settings.frameSprite != null {
        ghost var m0 := scene.nodes;
        var fr := AddDecoration(scene, group, "Frame", settings.frameSprite, 100,
                                Tint(settings.tintFrame, settings.frameTintColor),
                                center.Plus(ScreenOffset(settings.frameOffset)), settings.frameZoom);
        frame := Some(fr);
        ChildGrows(m0, scene.nodes, group, fr);
      }
    }

    /** A "Background" or "Frame" object: a sprite under the group at `at`, scaled by `zoom`, unrotated. */
    method AddDecoration(scene: Scene, group: NodeId, name: string, sprite: Sprite?, order: int, color: Color, at: Vec3, zoom: real)
      returns (id: NodeId)
      requires scene.Valid() && group in scene.nodes
      modifies scene
      ensures scene.Valid() && id == old(scene.next) && scene.next == id + 1
      ensures Extends(old(scene.nodes), scene.nodes, id) && id in scene.nodes && scene.nodes[id].layer == 0
      ensures IsDecoration(scene.nodes, id, name, group, sprite, order, color, at, zoom)
    {
      ghost var m0 := scene.nodes;
      id := scene.NewGameObject(name);
      scene.SetParent(id, group);
      scene.Update(id, scene.nodes[id].(spriteRenderer := Some(NewSpriteRenderer.(sprite := sprite, sortingOrder := order, color := color))));
      scene.SetPosition(id, at);
      UpdateKeepsWorld(scene.nodes, id, scene.nodes[id].(scale := zoom));
      scene.Update(id, scene.nodes[id].(scale := zoom));
      UpdateKeepsWorld(scene.nodes, id, scene.nodes[id].(rotation := Identity));
      scene.Update(id, scene.nodes[id].(rotation := Identity));
      assert scene.nodes == m0[id := scene.nodes[id]];
      ExtendsByNew(m0, id, scene.nodes[id]);
    }

    /**
      * The prefab's copy hung under the group, rotated and scaled, then moved
      * so that the centre of its renderers' box lands on the group's origin
      * plus the configured offset.
      */
    method InstantiateSubject(scene: Scene, group: NodeId) returns (subject: NodeId)
      requires scene.Valid() && group in scene.nodes && settings.prefab != null
      modifies scene
      ensures scene.Valid() && subject == old(scene.next) && scene.next == subject + |settings.prefab.hierarchy|
      ensures Extends(old(scene.nodes), scene.nodes, subject)
      ensures IsPlacedSubject(scene.nodes, subject, group, settings.prefab, settings.objectRotation, settings.prefabZoom)
      ensures forall id: NodeId :: subject <= id < scene.next ==>
                && id in scene.nodes && scene.nodes[id].alive && IsDescendant(scene.nodes, id, group)
                && scene.nodes[id].layer == CreatedLayer(settings.prefab, subject, id)
      ensures RenderableBounds(scene.nodes, subject, scene.next).Center()
           == WorldPosition(scene.nodes, group).Plus(ScreenOffset(settings.prefabOffset))
    {
      ghost var before := scene.nodes;
      subject := HangSubject(scene, group);
      ghost var m0 := scene.nodes;
      CentreSubject(scene, subject, settings.prefabOffset);
      RepositionKeepsPlacement(before, m0, scene.nodes, subject, group, settings.prefab, settings.objectRotation, settings.prefabZoom, scene.next);
    }

    /** Instantiate, SetParent, then the local position, rotation and scale. */
    method HangSubject(scene: Scene, group: NodeId) returns (subject: NodeId)
      requires scene.Valid() && group in scene.nodes && settings.prefab != null
      modifies scene
      ensures scene.Valid() && subject == old(scene.next) && scene.next == subject + |settings.prefab.hierarchy|
      ensures Extends(old(scene.nodes), scene.nodes, subject)
      ensures IsPlacedSubject(scene.nodes, subject, group, settings.prefab, settings.objectRotation, settings.prefabZoom)
      ensures forall id: NodeId :: subject <= id < scene.next ==>
                && id in scene.nodes && scene.nodes[id].alive && IsDescendant(scene.nodes, id, group)
                && scene.nodes[id].layer == CreatedLayer(settings.prefab, subject, id)
      ensures scene.nodes[subject].parent == Some(group)
      ensures WorldPosition(scene.nodes, subject) == WorldPosition(scene.nodes, group)
    {
      var prefab := settings.prefab;
      ghost var m0 := scene.nodes;
      subject := scene.Instantiate(prefab);
      assert subject in Copies(prefab, subject);
      scene.SetParent(subject, group);
      scene.Update(subject, scene.nodes[subject].(localPosition := Zero, rotation := Euler(settings.objectRotation), scale := settings.prefabZoom));
      assert scene.nodes == Hung(m0, prefab, subject, group, settings.objectRotation, settings.prefabZoom);
      HungFacts(m0, prefab, subject, group, settings.objectRotation, settings.prefabZoom);
    }

    /**
      * `position += position - bounds.center`, then `position += right * x + up * y`:
      * the subject's box ends up centred on where the subject was, plus the offset.
      */
    method CentreSubject(scene: Scene, subject: NodeId, offset: Vec2)
      requires scene.Valid() && subject in scene.nodes
      modifies scene
      ensures scene.Valid() && scene.next == old(scene.next) && subject in scene.nodes
      ensures scene.nodes == old(scene.nodes)[subject := old(scene.nodes)[subject].(localPosition := scene.nodes[subject].localPosition)]
      ensures RenderableBounds(scene.nodes, subject, scene.next).Center()
           == old(WorldPosition(scene.nodes, subject)).Plus(ScreenOffset(offset))
    {
      ghost var m1 := scene.nodes;
      CentreOnPivot(scene, subject);
      ghost var m2 := scene.nodes;
      var shifted := WorldPosition(scene.nodes, subject).Plus(ScreenOffset(offset));
      SetPositionIsMove(scene.nodes, subject, shifted);
      scene.SetPosition(subject, shifted);
      MoveShiftsRenderableBounds(m2, scene.next, subject, shifted.Minus(WorldPosition(m2, subject)));
      RepositionTwice(m1, m2, scene.nodes, subject);
    }

    /** `position += position - bounds.center`: the subject's box ends up centred on where the subject was. */
    method CentreOnPivot(scene: Scene, subject: NodeId)
      requires scene.Valid() && subject in scene.nodes
      modifies scene
      ensures scene.Valid() && scene.next == old(scene.next) && subject in scene.nodes
      ensures scene.nodes == old(scene.nodes)[subject := old(scene.nodes)[subject].(localPosition := scene.nodes[subject].localPosition)]
      ensures RenderableBounds(scene.nodes, subject, scene.next).Center() == old(WorldPosition(scene.nodes, subject))
    {
      CentredOnPivot(scene.nodes, scene.next, subject);
      var bounds := GetRenderableBounds(scene, subject);
      var here := WorldPosition(scene.nodes, subject);
      var visualCenterOffset := here.Minus(bounds.Center());
      scene.SetPosition(subject, here.Plus(visualCenterOffset));
    }

    /** The disabled sprite renderer at the subject's final position. */
    method AddSortingHelper(scene: Scene, group: NodeId, subject: NodeId) returns (id: NodeId)
      requires scene.Valid() && group in scene.nodes && subject in scene.nodes
      modifies scene
      ensures scene.Valid() && id == old(scene.next) && scene.next == id + 1
      ensures Extends(old(scene.nodes), scene.nodes, id) && id in scene.nodes && scene.nodes[id].layer == 0
      ensures IsSortingHelper(scene.nodes, id, group, old(WorldPosition(scene.nodes, subject)))
    {
      ghost var m0 := scene.nodes;
      id := scene.NewGameObject("SortingHelper");
      scene.SetParent(id, group);
      var at := WorldPosition(scene.nodes, subject);
      assert at == WorldPosition(m0, subject) by {
        assert Extends(m0, scene.nodes, id);
        ExtendsAgree(m0, scene.nodes, id);
        WorldAgrees(m0, scene.nodes, id, subject);
      }
      scene.SetPosition(id, at);
      var helper := NewSpriteRenderer.(enabled := false, sortingOrder := 0);
      UpdateKeepsWorld(scene.nodes, id, scene.nodes[id].(spriteRenderer := Some(helper)));
      scene.Update(id, scene.nodes[id].(spriteRenderer := Some(helper)));
    }

    /**
      * The box around every renderer below `go`, folded from the first one;
      * without renderers, a box of size 0.5 at the object's position.
      */
    method GetRenderableBounds(scene: Scene, go: NodeId) returns (bounds: Bounds)
      ensures bounds == RenderableBounds(scene.nodes, go, scene.next)
      ensures |Renderers(scene.nodes, go, scene.next)| == 0 ==>
                bounds.Center() == WorldPosition(scene.nodes, go) && bounds.Size() == NoRendererSize
      ensures |Renderers(scene.nodes, go, scene.next)| > 0 ==>
                IsHull(bounds, BoundsList(scene.nodes, Renderers(scene.nodes, go, scene.next)))
    {
      var renderers := Renderers(scene.nodes, go, scene.next);
      if |renderers| == 0 {
        return BoundsAt(WorldPosition(scene.nodes, go), One.Times(0.5));
      }
      var boxes := BoundsList(scene.nodes, renderers);
      bounds := EncapsulateAll(boxes);
    }

    /** `bounds = boxes[0]; foreach (b in boxes) bounds.Encapsulate(b)`: the first box is folded in twice. */
    static method EncapsulateAll(boxes: seq<Bounds>) returns (bounds: Bounds)
      requires |boxes| > 0
      ensures bounds == Union(boxes[0], boxes)
      ensures IsHull(bounds, boxes)
    {
      bounds := boxes[0];
      var i := 0;
      while i < |boxes|
        invariant 0 <= i <= |boxes|
        invariant bounds == Union(boxes[0], boxes[..i])
      {
        UnionStep(boxes[0], boxes, i);
        bounds := Encapsulate(bounds, boxes[i]);
        i := i + 1;
      }
      UnionWhole(boxes[0], boxes);
      UnionOfFirstIsHull(boxes);
    }
    /** The foreach over group.GetComponentsInChildren<Transform>(true): record each layer, then move it to TempLayer. */
    method AssignTempLayer(scene: Scene, group: NodeId) returns (originalLayers: map<NodeId, Layer>)
      requires scene.Valid()
      modifies scene
      ensures scene.Valid() && scene.next == old(scene.next)
      ensures forall id: NodeId :: id in originalLayers <==> InSubtree(old(scene.nodes), id, group)
      ensures scene.nodes == WithLayer(old(scene.nodes), originalLayers.Keys, TempLayer)
      ensures originalLayers == LayersOf(old(scene.nodes), originalLayers.Keys)
    {
      ghost var m0 := scene.nodes;
      var children := Subtree(scene.nodes, group, scene.next);
      originalLayers := map[];
      var i := 0;
      while i < |children|
        invariant 0 <= i <= |children|
        invariant scene.Valid() && scene.next == old(scene.next) && scene.nodes.Keys == m0.Keys
        invariant forall id :: id in originalLayers <==> id in children[..i]
        invariant forall id :: id in originalLayers ==> id in m0 && originalLayers[id] == m0[id].layer
        invariant forall id :: id in m0 ==> scene.nodes[id] == if id in originalLayers then m0[id].(layer := TempLayer) else m0[id]
      {
        var go := children[i];
        assert go in children;
        assert go !in children[..i] by {
          forall k | 0 <= k < i ensures children[..i][k] != go {
            assert children[..i][k] == children[k];
          }
        }
        assert children[..i + 1] == children[..i] + [go];
        originalLayers := originalLayers[go := scene.nodes[go].layer];
        scene.Update(go, scene.nodes[go].(layer := TempLayer));
        i := i + 1;
      }
      assert children[..i] == children;
      LayeredAsRecorded(m0, scene.nodes, originalLayers, TempLayer);
    }

    /** The fields ConfigureCamera sets, then `position = forward * -10` and `rotation = identity`. */
    method ConfigureCamera(scene: Scene, cam: NodeId, target: nat)
      requires scene.Valid() && cam in scene.nodes && scene.nodes[cam].camera.Some?
      modifies scene
      ensures scene.Valid() && scene.next == old(scene.next)
      ensures scene.nodes == old(scene.nodes)[cam := old(scene.nodes)[cam].(
                camera := Some(ConfiguredCamera(settings.Snapshot(), target)),
                localPosition := LocalFor(old(scene.nodes), cam, CameraPosition),
                rotation := Identity)]
      ensures WorldPosition(scene.nodes, cam) == CameraPosition
    {
      ghost var m0 := scene.nodes;
      var camera := scene.nodes[cam].camera.value;
      camera := camera.(clearFlags := SolidColor);
      camera := camera.(backgroundColor := if settings.transparentBackground then Color(0.0, 0.0, 0.0, 0.0) else settings.backgroundColor);
      camera := camera.(targetTexture := Some(target));
      camera := camera.(orthographic := true);
      camera := camera.(orthographicSize := settings.cameraZoom);
      camera := camera.(cullingMask := 1 << TempLayer);
      assert camera == ConfiguredCamera(settings.Snapshot(), target);
      scene.Update(cam, scene.nodes[cam].(camera := Some(camera)));
      ghost var m1 := scene.nodes;
      scene.SetPosition(cam, Forward.Times(-10.0));
      ghost var m2 := scene.nodes;
      scene.Update(cam, scene.nodes[cam].(rotation := Identity));
      CameraChanges(m0, m1, m2, scene.nodes, cam, camera, CameraPosition);
    }

    /** Every recorded object that still exists gets its layer back; destroyed ones are skipped. */
    method RestoreLayers(scene: Scene, layerData: map<NodeId, Layer>)
      requires scene.Valid()
      modifies scene
      ensures scene.Valid() && scene.next == old(scene.next)
      ensures scene.nodes == Restored(old(scene.nodes), layerData)
    {
      ghost var m0 := scene.nodes;
      var remaining := layerData.Keys;
      while remaining != {}
        invariant remaining <= layerData.Keys
        invariant scene.Valid() && scene.next == old(scene.next) && scene.nodes.Keys == m0.Keys
        invariant forall id :: id in m0 ==>
                    scene.nodes[id] == if id in layerData && id !in remaining && m0[id].alive then m0[id].(layer := layerData[id]) else m0[id]
        decreases remaining
      {
        var key :| key in remaining;
        if key in scene.nodes && scene.nodes[key].alive {
          scene.Update(key, scene.nodes[key].(layer := layerData[key]));
        }
        remaining := remaining - {key};
      }
      assert scene.nodes == Restored(m0, layerData);
    }

    /** Release the target if given, destroy the camera, restore the layers, destroy the group. */
    method CleanupRender(scene: Scene, gpu: Gpu, camObj: NodeId, renderGroup: NodeId, originalLayers: map<NodeId, Layer>, rt: Option<nat>)
      requires scene.Valid() && gpu.Valid()
      modifies scene, gpu`renderTargets
      ensures scene.Valid() && scene.next == old(scene.next)
      ensures scene.nodes == Destroyed(Restored(Destroyed(old(scene.nodes), camObj), originalLayers), renderGroup)
      ensures gpu.Valid() && gpu.renderTargets == if rt.Some? then old(gpu.renderTargets) - {rt.value} else old(gpu.renderTargets)
      ensures gpu.textures == old(gpu.textures) && gpu.active == old(gpu.active) && gpu.next == old(gpu.next)
    {
      if rt.Some? {
        gpu.Release(rt.value);
      }
      scene.DestroyImmediate(camObj);
      RestoreLayers(scene, originalLayers);
      scene.DestroyImmediate(renderGroup);
    }
  }
}
