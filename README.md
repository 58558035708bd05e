# Prefab icon renderer, modelled in Dafny

This project models the Unity editor tool `unigame.prefabicons`. The tool renders a prefab into a square icon.

`IconRendererEngine` does the rendering:

1. It builds a temporary camera and a temporary "RenderGroup" in the open scene. The group holds an optional background sprite, a copy of the prefab centred on the camera's view, a hidden sorting helper, and an optional frame sprite.
2. It moves every object of the group onto layer 31, the only layer the camera draws.
3. It renders into a render texture and reads the pixels back into a `Texture2D`.
4. `RenderAndSave` also writes the texture as a PNG to `<folder>/<name>.png`.
5. On success, it destroys everything it built and gives the group's objects their layers back.

`PrefabIconSettings` is the mutable settings record that the engine and the editor window share. `PrefabIconRenderResult` is the outcome of one render.

`PrefabIconRendererWindow` is the editor window:

- It clamps the resolution and the zoom values that are typed in.
- It re-renders the preview when the prefab, or a setting the picture depends on, changes. The resolution, the file name and the two defaults do not re-render it at once; only the editor's update hook, which is not modelled, picks those up.
- It remembers the default file name and folder in the editor preferences.
- It reports each render in a status line.

The modules follow the source:

- `Settings`, `RenderResults`, `Naming`, `Engine` and `Window` model the four core files.
- `Geometry`, `SceneModel`, `SceneObjects` and `EditorHost` model the Unity API the engine calls:
  - vectors and bounds;
  - game objects as a map from identity to node, inside a `Scene` object that the engine's methods modify;
  - render targets, textures and files.
- `RenderSpec` states, on plain values, what a render produces and what the scene looks like before and after.

Failures are modelled explicitly. A render receives a `Failure` value that says which of its calls throws and with what message, or that none does. The results of RenderToTexture and RenderAndSave are stated for every such value, by `TextureOutcome` and `SaveOutcome`.

The model follows the code where the code and its design notes differ:

- The engine has no `finally` around the render. Cleanup therefore runs only on success. After an exception, the camera and the whole group stay in the scene on layer 31. The methods state this as `LeftBehind`.
- The engine does not clamp the resolution. Only the window's resolution field clamps it, to 128–1024.
- `new Bounds(position, Vector3.one * 0.5f)` gets the full size as its second argument. An object without renderers therefore gets a box of size 0.5, not of extents 0.5.
- CreateRenderGroup runs before ConfigureCamera. The background and the frame are therefore placed relative to a fresh camera's pose: the origin, looking along +z.

## Model

| member | source | states |
|---|---|---|
| RenderResults.CreateError | Editor/Core/PrefabIconRenderResult.cs:16-23 | a failed result that carries exactly the given message, and no texture and no path |
| RenderResults.CreateSuccess | Editor/Core/PrefabIconRenderResult.cs:25-32 | a successful result that carries exactly the texture, and no path and no message |
| RenderResults.CreateSaved | Editor/Core/PrefabIconRenderResult.cs:34-41 | a successful result that carries exactly the saved path, and no texture and no message |
| RenderResults.FactoryOf | Editor/Core/PrefabIconRenderResult.cs:16-41 | every result with one payload, that fails exactly when it has a message, is the result of the factory its fields point to |
| Settings.PrefabIconSettings.constructor | Editor/Core/PrefabIconSettings.cs:13-37 | the field initialisers: resolution 512, transparent, camera zoom 2, layer zooms 1, no tints, no prefab or sprites, "NewIcon" in "Assets/GeneratedSprites" |
| Settings.PrefabIconSettings.Clone | Editor/Core/PrefabIconSettings.cs:42-67 | a fresh object, different from the original, with all twenty fields equal; the prefab and the sprites are the same references |
| Settings.PrefabIconSettings.Initialized | Editor/Core/PrefabIconSettings.cs:44-66 | the object initialiser that Clone uses gives every field the value it is given |
| Naming.OutputFileName | Editor/Core/IconRendererEngine.cs:184 | the configured name is kept exactly when it is not blank; otherwise the name is the prefab's name followed by "_Icon"; the name used is never blank |
| Naming.OutputPath | Editor/Core/IconRendererEngine.cs:185 | the path is the folder, '/', the name and ".png", and each part can be read back from the path |
| Naming.OutputPathInjective | Editor/Core/IconRendererEngine.cs:185 | within one folder, two different names never give the same path |
| Naming.OrCurrent | Editor/Core/IconRendererEngine.cs:92-95 | a wrapper argument replaces the setting exactly when it is neither null nor white space |
| Geometry.Encapsulate | Editor/Core/IconRendererEngine.cs:309 | Bounds.Encapsulate gives a box that contains both boxes |
| Geometry.EncapsulateIsLeast | Editor/Core/IconRendererEngine.cs:309 | every box that contains both boxes contains their Encapsulate |
| Geometry.UnionIsLeast | Editor/Core/IconRendererEngine.cs:307-310 | folding Encapsulate over the renderers' boxes gives a box that contains the start and every box and lies inside every box that does |
| Geometry.BoundsAt | Editor/Core/IconRendererEngine.cs:305 | `new Bounds(center, size)` has that centre and that full size |
| Engine.IconRendererEngine.constructor | Editor/Core/IconRendererEngine.cs:24-27 | the engine owns fresh default settings |
| Engine.IconRendererEngine.WithSettings | Editor/Core/IconRendererEngine.cs:32-35 | the engine keeps the given settings object itself, or gets fresh defaults when it is null |
| Engine.IconRendererEngine.UpdateSettings | Editor/Core/IconRendererEngine.cs:40-44 | a non-null settings object is adopted by reference; null leaves the settings object as it was |
| Engine.IconRendererEngine.GetSettings | Editor/Core/IconRendererEngine.cs:49-52 | a fresh copy equal to the settings, distinct from the engine's own object |
| Engine.IconRendererEngine.RenderGameObjectToTexture | Editor/Core/IconRendererEngine.cs:57-76 | a null object gives the "GameObject is not set" error and nothing is built; otherwise the result, the scene, the render targets, the active target and the textures are those of rendering the given object; the settings end as they were on both paths |
| Engine.IconRendererEngine.RenderGameObjectAndSave | Editor/Core/IconRendererEngine.cs:81-109 | a null object gives the "GameObject is not set" error and nothing changes. Otherwise it is RenderAndSave with the object and the non-blank arguments in place of the file name and folder: the same result, files, folder creation, scene, render targets, active target and textures. Prefab, file name and folder end as they were |
| Engine.IconRendererEngine.RenderToTexture | Editor/Core/IconRendererEngine.cs:114-149 | no prefab: the "Prefab is not set" error, with scene and GPU unchanged. A throw: its message, with the camera and group left behind and the target and texture created so far kept. Otherwise: a texture of the configured resolution, with no trace left in the scene and the target released |
| Engine.IconRendererEngine.RenderAndSave | Editor/Core/IconRendererEngine.cs:154-218 | the result is SaveOutcome. The folder is created only when missing. The PNG is written to OutputPath exactly when the write step was reached. On success no trace is left in the scene and the target and texture are released; after a throw, what was built stays |
| Engine.IconRendererEngine.AimCamera | Editor/Core/IconRendererEngine.cs:129 | ConfigureCamera on the camera of a staged render: the camera gets the configured state and the render stays staged |
| Engine.IconRendererEngine.DetachCamera | Editor/Core/IconRendererEngine.cs:206 | only the camera's target texture is cleared; the render stays staged |
| Engine.IconRendererEngine.SaveCapture | Editor/Core/IconRendererEngine.cs:180-211 | the folder is created only when missing and the PNG written only when its step is reached. On success: the saved path, no trace in the scene, the previous target active, the target released and the texture destroyed. After a throw in these steps: its message, with the scene and GPU unchanged |
| Engine.IconRendererEngine.FinishRender | Editor/Core/IconRendererEngine.cs:139-140 | CleanupRender of a staged render leaves no trace in the scene and releases the target when one is given; textures, the active target and the GPU counter are unchanged |
| Engine.IconRendererEngine.CreateRenderGroup | Editor/Core/IconRendererEngine.cs:220-285 | the group is a new root. Its subtree is exactly the objects created. They are laid out as Layout says, and each is on layer 31 with its creation layer recorded. Older objects are untouched |
| Engine.IconRendererEngine.BuildGroupContents | Editor/Core/IconRendererEngine.cs:227-274 | background, subject, sorting helper and frame, in that order, laid out as Layout says, each with the layer it was created with |
| Engine.IconRendererEngine.AddBackground | Editor/Core/IconRendererEngine.cs:228-239 | a "Background" exists exactly when a background sprite is set. It is a child of the group with order -100, the tint or white, the anchor plus the offset, the zoom and no rotation |
| Engine.IconRendererEngine.AddFrame | Editor/Core/IconRendererEngine.cs:263-274 | a "Frame" exists exactly when a frame sprite is set. It is a child of the group with order 100, the tint or white, the anchor plus the offset, the zoom and no rotation |
| Engine.IconRendererEngine.AddDecoration | Editor/Core/IconRendererEngine.cs:230-238 | one new sprite object under the group, with the given sprite, order, colour, position, scale and identity rotation |
| Engine.IconRendererEngine.AddSubjectAndHelper | Editor/Core/IconRendererEngine.cs:241-260 | the placed prefab copy, then the sorting helper at the copy's final position, both below the group |
| Engine.IconRendererEngine.InstantiateSubject | Editor/Core/IconRendererEngine.cs:241-252 | a copy of the prefab hung under the group with the rotation and the zoom, whose renderers' box is centred on the group's origin plus the screen offset |
| Engine.IconRendererEngine.HangSubject | Editor/Core/IconRendererEngine.cs:242-247 | Instantiate, SetParent and the local pose: the copy's root is a child of the group, at the group's origin |
| Engine.IconRendererEngine.CentreSubject | Editor/Core/IconRendererEngine.cs:249-252 | only the copy's local position changes, and its renderers' box is centred where the copy was, plus the offset |
| Engine.IconRendererEngine.CentreOnPivot | Editor/Core/IconRendererEngine.cs:249-251 | `position += position - bounds.center` centres the renderers' box on where the copy was |
| RenderSpec.CentredOnPivot | Editor/Core/IconRendererEngine.cs:249-251 | the same fact about any scene map, for any object |
| Engine.IconRendererEngine.AddSortingHelper | Editor/Core/IconRendererEngine.cs:254-260 | a new "SortingHelper" under the group, at the subject's position, with a disabled sprite renderer of order 0 |
| Engine.IconRendererEngine.GetRenderableBounds | Editor/Core/IconRendererEngine.cs:301-311 | without renderers: a box of size 0.5 at the object's position; otherwise the smallest box that contains every renderer's box |
| Engine.IconRendererEngine.EncapsulateAll | Editor/Core/IconRendererEngine.cs:307-310 | the loop's box is the fold of Encapsulate from the first box, and the smallest box containing all of them |
| Engine.IconRendererEngine.AssignTempLayer | Editor/Core/IconRendererEngine.cs:276-282 | exactly the group's subtree is recorded, each object with its old layer, and exactly those objects are moved onto layer 31 |
| Engine.IconRendererEngine.ConfigureCamera | Editor/Core/IconRendererEngine.cs:287-299 | only the camera object changes: a solid clear, transparent or the background colour, orthographic of the zoom's size, the target, the layer-31 mask, at (0, 0, -10), unrotated |
| Engine.IconRendererEngine.RestoreLayers | Editor/Core/IconRendererEngine.cs:323-330 | every recorded object that still exists gets its recorded layer back; destroyed ones are skipped and nothing else changes |
| Engine.IconRendererEngine.CleanupRender | Editor/Core/IconRendererEngine.cs:313-321 | the target is released if given; the camera is destroyed, the layers are restored and the group is destroyed, in that order |
| Engine.IconRendererEngine.PrepareRender | Editor/Core/IconRendererEngine.cs:121-124 | a fresh camera object, then CreateRenderGroup: everything new is the camera and the group's subtree on layer 31 |
| Engine.IconRendererEngine.CaptureTexture | Editor/Core/IconRendererEngine.cs:126-142 | from the render target to CleanupRender, for every failing step |
| Engine.IconRendererEngine.DrawAndRead | Editor/Core/IconRendererEngine.cs:131-137 | the target becomes active, and the previous one is returned; a texture of the resolution is read back unless drawing or reading throws |
| Engine.IconRendererEngine.CaptureAndSave | Editor/Core/IconRendererEngine.cs:166-211 | from the render target to CreateSaved, for every failing step |
| Engine.IconRendererEngine.WriteIcon | Editor/Core/IconRendererEngine.cs:181-203 | CreateDirectory only when the folder is missing, then the PNG written to the path; true exactly when no step threw |
| Engine.IconRendererEngine.FinishSave | Editor/Core/IconRendererEngine.cs:205-209 | the previous target is active again, the target is released, the texture is destroyed, and no trace is left in the scene |
| RenderSpec.TextureOutcome | Editor/Core/IconRendererEngine.cs:114-149 | success exactly when a prefab is set and nothing throws; the error is "Prefab is not set" or the exception's message; a success carries the square texture of the resolution |
| RenderSpec.SaveOutcome | Editor/Core/IconRendererEngine.cs:154-218 | success exactly when a prefab is set and nothing that is reached throws; a success carries OutputPath for the folder and the file name |
| RenderSpec.SavedPathShape | Editor/Core/IconRendererEngine.cs:184-185 | a saved path is always "<folder>/<name>.png" with a name that is not blank |
| RenderSpec.CullingMaskIsolates | Editor/Core/IconRendererEngine.cs:295 | the mask `1 << 31` draws layer 31 and no other layer |
| RenderSpec.ClearColor | Editor/Core/IconRendererEngine.cs:290 | fully transparent when the background is transparent, and the background colour otherwise |
| RenderSpec.CleanupLeavesNoTrace | Editor/Core/IconRendererEngine.cs:313-321 | destroying the camera, restoring the layers and destroying the group leaves every older object as it was and every new one destroyed |
| RenderSpec.StagedCleanup | Editor/Core/IconRendererEngine.cs:140 | CleanupRender after a completed render leaves no trace of it |
| RenderSpec.GroupCreated | Editor/Core/IconRendererEngine.cs:276-284 | after the layer loop, the group's subtree is still exactly its new objects, each of which is on layer 31 with its creation layer recorded |
| RenderSpec.LayoutRootAtOrigin | Editor/Core/IconRendererEngine.cs:222 | the new group root sits at the world origin |
| SceneModel.RestoreUndoesIsolation | Editor/Core/IconRendererEngine.cs:276-282 | restoring the recorded layers after moving live objects onto one layer gives back the scene as it was |
| SceneModel.NoTraceKeepsLiveSet | Editor/Core/IconRendererEngine.cs:140 | a render that leaves no trace leaves exactly the same objects alive, by identity |
| Window.Clamp | Editor/UI/PrefabIconRendererWindow.cs:101 | Mathf.Clamp: the result is inside the range; the value itself when it is in range, and the nearer bound otherwise |
| Window.ClampReal | Editor/UI/PrefabIconRendererWindow.cs:176 | the same for floats, used by the four zoom fields |
| Window.ClampIdempotent | Editor/UI/PrefabIconRendererWindow.cs:101-102 | clamping the redisplayed value again changes nothing |
| Window.ClampMonotone | Editor/UI/PrefabIconRendererWindow.cs:101 | a larger input never gives a smaller resolution |
| Window.ClampRealIdempotent | Editor/UI/PrefabIconRendererWindow.cs:176-177 | clamping a redisplayed zoom again changes nothing |
| Window.LoadDefaultSettings | Editor/UI/PrefabIconRendererWindow.cs:425-433 | the file name and folder come from the preferences, or from "NewIcon" and "Assets/GeneratedSprites" when none is stored; no other setting changes |
| Window.PrefabIconRendererWindow.constructor | Editor/UI/PrefabIconRendererWindow.cs:52-60 | OnEnable: fresh defaults shared with a new engine, the two preferences loaded, every field showing its setting, no preview, and the status "Ready" |
| Window.PrefabIconRendererWindow.OnPrefabChanged | Editor/UI/PrefabIconRendererWindow.cs:90-94 | the new prefab is stored and the preview is repainted for it |
| Window.PrefabIconRendererWindow.OnResolutionChanged | Editor/UI/PrefabIconRendererWindow.cs:99-103 | the resolution is clamped to 128–1024 and shown as stored; there is no repaint |
| Window.PrefabIconRendererWindow.OnDefaultFileNameChanged | Editor/UI/PrefabIconRendererWindow.cs:117-120 | only the stored default name changes |
| Window.PrefabIconRendererWindow.OnDefaultFolderChanged | Editor/UI/PrefabIconRendererWindow.cs:125-128 | the stored default folder changes; the current settings keep their folder |
| Window.PrefabIconRendererWindow.OnCameraZoomChanged | Editor/UI/PrefabIconRendererWindow.cs:174-179 | the zoom is clamped to 0.1–10, shown, and the preview is repainted |
| Window.PrefabIconRendererWindow.OnPrefabZoomChanged | Editor/UI/PrefabIconRendererWindow.cs:184-189 | the zoom is clamped to 0.1–20, shown, and the preview is repainted |
| Window.PrefabIconRendererWindow.OnBackgroundZoomChanged | Editor/UI/PrefabIconRendererWindow.cs:260-265 | the zoom is clamped to 0.1–100, shown, and the preview is repainted |
| Window.PrefabIconRendererWindow.OnFrameZoomChanged | Editor/UI/PrefabIconRendererWindow.cs:316-321 | the zoom is clamped to 0.1–20, shown, and the preview is repainted |
| Window.PrefabIconRendererWindow.RepaintPreview | Editor/UI/PrefabIconRendererWindow.cs:356-376 | without a prefab: no preview, the prompt, and no render. Otherwise the preview is the rendered texture exactly when the render succeeded, and the status says so |
| Window.PreviewStatus | Editor/UI/PrefabIconRendererWindow.cs:366-375 | "Preview ready" exactly when the result succeeded with a texture, and "Error: " with the message otherwise |
| Window.PreviewStatusOfRender | Editor/UI/PrefabIconRendererWindow.cs:365-375 | for a set prefab, the status reads "Preview ready" unless the render threw, and then "Error: " with the exception's message |
| Window.PrefabIconRendererWindow.OnRenderClicked | Editor/UI/PrefabIconRendererWindow.cs:378-401 | without a prefab: the engine is not called and the status stays. Otherwise the status is the report of RenderAndSave's outcome |
| Window.RenderStatus | Editor/UI/PrefabIconRendererWindow.cs:389-400 | starts with "Saved: " exactly when the save succeeded, followed by the path; otherwise "Error: " with the message |
| Window.RenderStatusOfSave | Editor/UI/PrefabIconRendererWindow.cs:388-400 | a saved icon is reported with the path that was written; a failure with the exception's message |
| Window.ErrorStatus | Editor/UI/PrefabIconRendererWindow.cs:374 | "Error: " followed by the message |
| Window.SavedStatus | Editor/UI/PrefabIconRendererWindow.cs:391 | "Saved: " followed by the path |
| Window.LoadStyleSheet | Editor/UI/PrefabIconRendererWindow.cs:403-423 | the loop returns FirstLoadable of the found paths |
| Window.FirstLoadableIsFirst | Editor/UI/PrefabIconRendererWindow.cs:408-422 | nothing is found exactly when no path is the package's PrefabIconRenderer.uss and loads; otherwise the first such path is found |
| Window.ContainsHasPosition | Editor/UI/PrefabIconRendererWindow.cs:413 | when string.Contains holds, the text occurs at the position it returns |
| Window.ContainsAt | Editor/UI/PrefabIconRendererWindow.cs:413 | an occurrence at any position makes string.Contains hold |
| Window.AssetsRelative | Editor/UI/PrefabIconRendererWindow.cs:446-449 | a folder under the data path is stored as a path starting with "Assets" that, read from the project folder (the data path without its trailing "/Assets"), names the folder that was chosen; a folder elsewhere is stored unchanged |
| Window.PrefabIconRendererWindow.BrowseFolder | Editor/UI/PrefabIconRendererWindow.cs:435-455 | an empty choice changes nothing; otherwise the field, the stored default and the settings all get the Assets-relative folder |

## Left out

- Pixels: the image drawn, `ReadPixels`, `Apply` and `EncodeToPNG` are not modelled. A texture is its identity and size, and a PNG is the texture it encodes.
- `rt.antiAliasing = 8`, the depth buffer and the texture formats: they do not change what the model can observe.
- `AssetDatabase.Refresh` and the importer settings: they are one step that can throw (`Import`), with no effect on the files.
- `hideFlags`: the model keeps no flags, so HideAndDontSave is not modelled.
- The camera's other state (`opaqueSortMode`, its projection) beyond the fields ConfigureCamera sets.
- Rotation and scale do not move child objects. A world position is the sum of the local positions up the hierarchy. Object rotation and zoom are recorded on the prefab copy but do not reshape its box.
- Floats are exact reals. For example, `0.1f` is taken as 0.1, and float rounding in positions and bounds is not modelled.
- CreateRenderGroup places the decorations along the world axes, so it requires a root camera without rotation, which is the camera PrepareRender creates. A rotated or parented camera is outside the model.
- Exceptions inside CreateRenderGroup are not modelled. Failures come only from the render texture, the draw, the read-back, and the file and import steps.
- The scene assumes that an object's parent was created before it, which the engine always does. Re-parenting under a newer object is outside the model.
- Settings strings are never null: `fileName` and `folderPath` are `string`. Only the wrapper's optional arguments can be null, and they are `Option<string>`.
- `Debug.Log`, `Debug.LogError` and `EditorUtility.DisplayDialog` are output only.
- Window: the menu entry, OnDisable and the `EditorApplication.update` hook, the construction of widgets, the groups, the foldout and the display-style toggles are left out.
- Window callbacks that only assign a setting and repaint are left out: the toggles, colours, rotation, offsets and sprites. They do what OnPrefabChanged does for other fields. The file-name callback is left out too; it only assigns `settings.fileName` and does not repaint.
- Writing the clamped value back into its field (the resolution and the four zooms) can raise that field's change callback a second time in UI Toolkit. That second call, and the repaint it causes, are not modelled.
- BrowseFolder: `EditorUtility.OpenFolderPanel` and `Application.dataPath` are parameters.
- LoadDefaultSettings takes the settings object as a parameter, because the window calls it before the window object exists.
- LoadStyleSheet: `FindAssets` with `GUIDToAssetPath` is the sequence of paths, and `LoadAssetAtPath` is the set of paths that load. The style sheet is represented by its path.
- StartsWith, EndsWith and Contains are compared by character; culture-sensitive comparison is not modelled.
- Several engine methods exist only to structure the proofs, with no counterpart method in the source. Each stands for a run of consecutive statements in its source method: PrepareRender, CaptureTexture, DrawAndRead, AimCamera, CaptureAndSave, SaveCapture, WriteIcon, FinishSave, DetachCamera, FinishRender, BuildGroupContents, AddSubjectAndHelper, AddDecoration, HangSubject, CentreSubject, CentreOnPivot and EncapsulateAll.
- RenderGameObjectAndSave: of the settings, its `ensures` names only the prefab, the file name and the folder, which end as they were. The other seventeen fields are outside the method's modifies frame, so the model cannot change them.
