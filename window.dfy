/**
  * PrefabIconRendererWindow: the editor window in front of the engine. It
  * shares one settings object with its engine, clamps what the user types
  * into the numeric fields, remembers the default file name and folder in
  * the editor preferences, and reports each render in a status line.
  * Widgets are reduced to the values they show.
  */
module Window {
  import opened Wrappers
  import opened SceneModel
  import opened SceneObjects
  import opened EditorHost
  import opened RenderResults
  import opened Settings
  import opened Naming
  import opened RenderSpec
  import opened Engine

  const DefaultFileNameKey := "PrefabIconRenderer_DefaultFileName"
  const DefaultFolderPathKey := "PrefabIconRenderer_DefaultFolderPath"

  // ---------------------------------------------------------------------------
  // Clamping
  // ---------------------------------------------------------------------------

  const MinResolution := 128
  const MaxResolution := 1024
  const MinZoom := 0.1
  const MaxCameraZoom := 10.0
  const MaxPrefabZoom := 20.0
  const MaxBackgroundZoom := 100.0
  const MaxFrameZoom := 20.0

  /** Mathf.Clamp(int, int, int): below the range gives `min`, above it `max`, inside it the value itself. */
  function Clamp(value: int, min: int, max: int): (r: int)
    requires min <= max
    ensures min <= r <= max
    ensures min <= value <= max ==> r == value
    ensures value < min ==> r == min
    ensures value > max ==> r == max
  {
    if value < min then min else if value > max then max else value
  }

  /** Mathf.Clamp(float, float, float), on reals. */
  function ClampReal(value: real, min: real, max: real): (r: real)
    requires min <= max
    ensures min <= r <= max
    ensures min <= value <= max ==> r == value
    ensures value < min ==> r == min
    ensures value > max ==> r == max
  {
    if value < min then min else if value > max then max else value
  }

  /** Clamping a value already clamped changes nothing, so redisplaying the stored value is stable. */
  lemma ClampIdempotent(value: int, min: int, max: int)
    requires min <= max
    ensures Clamp(Clamp(value, min, max), min, max) == Clamp(value, min, max)
  {
  }

  /** Clamping keeps the order of the values clamped. */
  lemma ClampMonotone(a: int, b: int, min: int, max: int)
    requires min <= max && a <= b
    ensures Clamp(a, min, max) <= Clamp(b, min, max)
  {
  }

  lemma ClampRealIdempotent(value: real, min: real, max: real)
    requires min <= max
    ensures ClampReal(ClampReal(value, min, max), min, max) == ClampReal(value, min, max)
  {
  }

  // ---------------------------------------------------------------------------
  // Strings
  // ---------------------------------------------------------------------------

  /** string.IsNullOrEmpty. */
  predicate IsNullOrEmpty(s: Option<string>) {
    s.None? || s.value == ""
  }

  predicate StartsWith(s: string, prefix: string) {
    |prefix| <= |s| && s[..|prefix|] == prefix
  }

  predicate EndsWith(s: string, suffix: string) {
    |suffix| <= |s| && s[|s| - |suffix|..] == suffix
  }

  /** `sub` occurs somewhere in `s`, found by trying each starting position in turn. */
  predicate Contains(s: string, sub: string)
    decreases |s|
  {
    |sub| <= |s| && (s[..|sub|] == sub || (|s| > 0 && Contains(s[1..], sub)))
  }

  /** Contains means an occurrence at some position, and every occurrence is found. */
  lemma {:induction false} ContainsAt(s: string, sub: string, i: nat)
    requires i + |sub| <= |s| && s[i..i + |sub|] == sub
    ensures Contains(s, sub)
    decreases i
  {
    if i > 0 {
      assert s[1..][i - 1..i - 1 + |sub|] == s[i..i + |sub|];
      ContainsAt(s[1..], sub, i - 1);
    }
  }

  lemma {:induction false} ContainsHasPosition(s: string, sub: string) returns (i: nat)
    requires Contains(s, sub)
    ensures i + |sub| <= |s| && s[i..i + |sub|] == sub
    decreases |s|
  {
    if s[..|sub|] == sub {
      i := 0;
    } else {
      var j := ContainsHasPosition(s[1..], sub);
      assert s[1..][j..j + |sub|] == s[j + 1..j + 1 + |sub|];
      i := j + 1;
    }
  }

  // ---------------------------------------------------------------------------
  // Choosing a folder
  // ---------------------------------------------------------------------------

  /** The folder name Unity's data path ends in. */
  const AssetsFolder := "/Assets"

  /**
    * The folder BrowseFolder stores for a selected path. Under the project's
    * data path, which is the project folder followed by "/Assets", it
    * becomes an Assets-relative path that, read from the project folder,
    * names the folder chosen. Any other path is kept as chosen.
    */
  function AssetsRelative(selected: string, dataPath: string): (path: string)
    ensures StartsWith(selected, dataPath) ==> StartsWith(path, "Assets")
    ensures StartsWith(selected, dataPath) && EndsWith(dataPath, AssetsFolder) ==>
              dataPath[..|dataPath| - |AssetsFolder|] + "/" + path == selected
    ensures !StartsWith(selected, dataPath) ==> path == selected
  {
    if StartsWith(selected, dataPath) then
      var path := "Assets" + selected[|dataPath|..];
      assert path[..6] == "Assets";
      assert EndsWith(dataPath, AssetsFolder) ==> dataPath[..|dataPath| - |AssetsFolder|] + "/" + path == selected by {
        if EndsWith(dataPath, AssetsFolder) {
          var project := dataPath[..|dataPath| - |AssetsFolder|];
          assert dataPath == project + AssetsFolder;
          assert selected == dataPath + selected[|dataPath|..];
          assert project + "/" + path == project + AssetsFolder + selected[|dataPath|..];
        }
      }
      path
    else selected
  }

  // ---------------------------------------------------------------------------
  // Status line
  // ---------------------------------------------------------------------------

  const ReadyText := "Ready"
  const SelectPrefabText := "Select a prefab to preview"
  const PreviewReadyText := "Preview ready"
  const RenderingText := "Rendering..."

  /** `$"Error: {message}"`; a null message is written as nothing. */
  function ErrorStatus(message: Option<string>): (text: string)
    ensures StartsWith(text, "Error: ")
    ensures message.Some? ==> text[7..] == message.value
  {
    "Error: " + (if message.Some? then message.value else "")
  }

  /** `$"Saved: {path}"`. */
  function SavedStatus(path: Option<string>): (text: string)
    ensures StartsWith(text, "Saved: ")
    ensures path.Some? ==> text[7..] == path.value
  {
    "Saved: " + (if path.Some? then path.value else "")
  }

  /** What RepaintPreview shows for a render of the preview. */
  function PreviewStatus(r: RenderResult): (text: string)
    ensures text == PreviewReadyText <==> r.success && r.texture.Some?
    ensures !(r.success && r.texture.Some?) ==> text == ErrorStatus(r.errorMessage)
  {
    if r.success && r.texture.Some? then PreviewReadyText
    else
      var t := ErrorStatus(r.errorMessage);
      assert t[0] == 'E';
      t
  }

  /** What OnRenderClicked shows once the render and save has returned. */
  function RenderStatus(r: RenderResult): (text: string)
    ensures StartsWith(text, "Saved: ") <==> r.success
    ensures r.success ==> text == SavedStatus(r.savedPath)
    ensures !r.success ==> text == ErrorStatus(r.errorMessage)
  {
    if r.success then SavedStatus(r.savedPath)
    else
      var t := ErrorStatus(r.errorMessage);
      assert t[0] == 'E' && "Saved: "[0] == 'S';
      t
  }

  /** The preview of a set prefab reads "Preview ready" unless the render threw, and then shows the exception's message. */
  lemma PreviewStatusOfRender(resolution: int, failure: Failure, gpuNext: nat)
    ensures PreviewStatus(TextureOutcome(true, resolution, failure, gpuNext))
         == if ThrowsInRender(failure) then "Error: " + failure.message else PreviewReadyText
  {
  }

  /** A saved icon is reported with the path RenderAndSave wrote; a failure with the exception's message. */
  lemma RenderStatusOfSave(prefabName: string, fileName: string, folderPath: string, folderExists: bool, failure: Failure)
    ensures RenderStatus(SaveOutcome(Some(prefabName), fileName, folderPath, folderExists, failure))
         == if ThrowsInSave(failure, folderExists) then "Error: " + failure.message
            else "Saved: " + OutputPath(folderPath, OutputFileName(fileName, prefabName))
  {
  }

  /** The preview and the status line after RepaintPreview, for the prefab and resolution it rendered with. */
  predicate Repainted(preview: Option<Texture2D>, status: string, prefab: Prefab?, resolution: int, failure: Failure, gpuNext: nat) {
    if prefab == null then preview.None? && status == SelectPrefabText
    else
      var r := TextureOutcome(true, resolution, failure, gpuNext);
      && status == PreviewStatus(r)
      && preview == (if r.success then r.texture else None)
  }

  // ---------------------------------------------------------------------------
  // Finding the style sheet
  // ---------------------------------------------------------------------------

  const StyleSheetSuffix := "/PrefabIconRenderer.uss"
  const PackageName := "unigame.prefabicons"

  /** The style sheet search only trusts the package's own copy of PrefabIconRenderer.uss. */
  predicate IsPackageStyleSheet(path: string) {
    EndsWith(path, StyleSheetSuffix) && Contains(path, PackageName)
  }

  /** The first of `paths` that is the package's style sheet and loads; `loadable` holds the paths LoadAssetAtPath finds. */
  function FirstLoadable(paths: seq<string>, loadable: set<string>): Option<string> {
    if paths == [] then None
    else if IsPackageStyleSheet(paths[0]) && paths[0] in loadable then Some(paths[0])
    else FirstLoadable(paths[1..], loadable)
  }

  /** FirstLoadable finds the package's style sheet that loads and comes first, and finds nothing exactly when there is none. */
  lemma {:induction false} FirstLoadableIsFirst(paths: seq<string>, loadable: set<string>)
    ensures FirstLoadable(paths, loadable).None? <==>
              forall i :: 0 <= i < |paths| ==> !(IsPackageStyleSheet(paths[i]) && paths[i] in loadable)
    ensures FirstLoadable(paths, loadable).Some? ==>
              exists i :: 0 <= i < |paths| && paths[i] == FirstLoadable(paths, loadable).value
                        && IsPackageStyleSheet(paths[i]) && paths[i] in loadable
                        && forall j :: 0 <= j < i ==> !(IsPackageStyleSheet(paths[j]) && paths[j] in loadable)
  {
    if paths != [] && !(IsPackageStyleSheet(paths[0]) && paths[0] in loadable) {
      FirstLoadableIsFirst(paths[1..], loadable);
      if FirstLoadable(paths, loadable).Some? {
        var k :| 0 <= k < |paths[1..]| && paths[1..][k] == FirstLoadable(paths, loadable).value
                 && IsPackageStyleSheet(paths[1..][k]) && paths[1..][k] in loadable
                 && forall j :: 0 <= j < k ==> !(IsPackageStyleSheet(paths[1..][j]) && paths[1..][j] in loadable);
        assert paths[k + 1] == paths[1..][k];
        forall j | 0 <= j < k + 1 ensures !(IsPackageStyleSheet(paths[j]) && paths[j] in loadable) {
          if j > 0 {
            assert paths[j] == paths[1..][j - 1];
          }
        }
      } else {
        forall i | 0 <= i < |paths| ensures !(IsPackageStyleSheet(paths[i]) && paths[i] in loadable) {
          if i > 0 {
            assert paths[i] == paths[1..][i - 1];
          }
        }
      }
    }
  }

  /**
    * LoadStyleSheet: walks the paths FindAssets gives, in order, and returns
    * the first package style sheet that loads (here, its path), or nothing.
    */
  method LoadStyleSheet(paths: seq<string>, loadable: set<string>) returns (sheet: Option<string>)
    ensures sheet == FirstLoadable(paths, loadable)
  {
    var i := 0;
    while i < |paths|
      invariant 0 <= i <= |paths|
      invariant FirstLoadable(paths[i..], loadable) == FirstLoadable(paths, loadable)
    {
      var path := paths[i];
      assert paths[i..][1..] == paths[i + 1..];
      if EndsWith(path, StyleSheetSuffix) && Contains(path, PackageName) {
        if path in loadable {
          return Some(path);
        }
      }
      i := i + 1;
    }
    return None;
  }

  /**
    * LoadDefaultSettings, on the window's settings: the stored default file
    * name and folder, or "NewIcon" and "Assets/GeneratedSprites" when none
    * are stored; nothing else changes.
    */
  method LoadDefaultSettings(settings: PrefabIconSettings, prefs: EditorPrefs)
    modifies settings`fileName, settings`folderPath
    ensures settings.fileName == prefs.GetString(DefaultFileNameKey, DefaultFileName)
    ensures settings.folderPath == prefs.GetString(DefaultFolderPathKey, DefaultFolderPath)
    ensures settings.Snapshot() == old(settings.Snapshot()).(fileName := settings.fileName, folderPath := settings.folderPath)
  {
    var defaultFileName := prefs.GetString(DefaultFileNameKey, DefaultFileName);
    var defaultFolder := prefs.GetString(DefaultFolderPathKey, DefaultFolderPath);
    settings.fileName := defaultFileName;
    settings.folderPath := defaultFolder;
  }

  // ---------------------------------------------------------------------------
  // The window
  // ---------------------------------------------------------------------------

  class PrefabIconRendererWindow {
    var settings: PrefabIconSettings
    var engine: IconRendererEngine
    const prefs: EditorPrefs

    // What the widgets show.
    var resolutionField: int
    var cameraZoomField: real
    var prefabZoomField: real
    var backgroundZoomField: real
    var frameZoomField: real
    var folderPathField: string
    var previewImage: Option<Texture2D>
    var statusLabel: string

    /** The window and its engine work on the same settings object. */
    ghost predicate Valid()
      reads this, engine
    {
      engine.settings == settings
    }

    /**
      * OnEnable and BuildUI: fresh default settings shared with a new engine,
      * the file name and folder taken from the preferences, and the widgets
      * showing the settings.
      */
    constructor (prefs: EditorPrefs)
      ensures Valid() && fresh(settings) && fresh(engine) && this.prefs == prefs
      ensures settings.Snapshot() == Defaults.(fileName := prefs.GetString(DefaultFileNameKey, DefaultFileName),
                                               folderPath := prefs.GetString(DefaultFolderPathKey, DefaultFolderPath))
      ensures resolutionField == settings.resolution && cameraZoomField == settings.cameraZoom
      ensures prefabZoomField == settings.prefabZoom && backgroundZoomField == settings.backgroundZoom
      ensures frameZoomField == settings.frameZoom && folderPathField == settings.folderPath
      ensures previewImage.None? && statusLabel == ReadyText
    {
      var s := new PrefabIconSettings();
      LoadDefaultSettings(s, prefs);
      settings := s;
      engine := new IconRendererEngine.WithSettings(s);
      this.prefs := prefs;
      resolutionField, cameraZoomField, prefabZoomField := s.resolution, s.cameraZoom, s.prefabZoom;
      backgroundZoomField, frameZoomField := s.backgroundZoom, s.frameZoom;
      folderPathField := prefs.GetString(DefaultFolderPathKey, DefaultFolderPath);
      previewImage, statusLabel := None, ReadyText;
    }

    /** The resolution field's callback: the clamped value is stored and shown; it does not repaint. */
    method OnResolutionChanged(newValue: int)
      modifies settings`resolution, this`resolutionField
      ensures settings.resolution == Clamp(newValue, MinResolution, MaxResolution)
      ensures resolutionField == settings.resolution
    {
      settings.resolution := Clamp(newValue, MinResolution, MaxResolution);
      resolutionField := settings.resolution;
    }

    /** The prefab field's callback: the chosen prefab (null for none or a non-GameObject) is previewed at once. */
    method OnPrefabChanged(newValue: Prefab?, scene: Scene, gpu: Gpu, failure: Failure)
      requires Valid() && scene.Valid() && gpu.Valid()
      modifies settings`prefab, this`previewImage, this`statusLabel, scene, gpu
      ensures Valid() && scene.Valid() && gpu.Valid() && settings.prefab == newValue
      ensures Repainted(previewImage, statusLabel, newValue, settings.resolution, failure, old(gpu.next))
    {
      settings.prefab := newValue;
      RepaintPreview(scene, gpu, failure);
    }

    /**
      * The "Default Icon Name" field's callback: only the stored preference
      * changes; the file name of the current settings stays as it is.
      */
    method OnDefaultFileNameChanged(newValue: string)
      modifies prefs
      ensures prefs.strings == old(prefs.strings)[DefaultFileNameKey := newValue]
    {
      prefs.SetString(DefaultFileNameKey, newValue);
    }

    /**
      * The "Default Save Folder" field's callback: the field shows what was
      * typed and the preference stores it, but unlike BrowseFolder the
      * current settings keep their folder.
      */
    method OnDefaultFolderChanged(newValue: string)
      modifies this`folderPathField, prefs
      ensures folderPathField == newValue && prefs.strings == old(prefs.strings)[DefaultFolderPathKey := newValue]
    {
      folderPathField := newValue;
      prefs.SetString(DefaultFolderPathKey, newValue);
    }

    method OnCameraZoomChanged(newValue: real, scene: Scene, gpu: Gpu, failure: Failure)
      requires Valid() && scene.Valid() && gpu.Valid()
      modifies settings`cameraZoom, this`cameraZoomField, this`previewImage, this`statusLabel, scene, gpu
      ensures Valid() && scene.Valid() && gpu.Valid()
      ensures settings.cameraZoom == ClampReal(newValue, MinZoom, MaxCameraZoom) && cameraZoomField == settings.cameraZoom
      ensures Repainted(previewImage, statusLabel, settings.prefab, settings.resolution, failure, old(gpu.next))
    {
      settings.cameraZoom := ClampReal(newValue, MinZoom, MaxCameraZoom);
      cameraZoomField := settings.cameraZoom;
      RepaintPreview(scene, gpu, failure);
    }

    method OnPrefabZoomChanged(newValue: real, scene: Scene, gpu: Gpu, failure: Failure)
      requires Valid() && scene.Valid() && gpu.Valid()
      modifies settings`prefabZoom, this`prefabZoomField, this`previewImage, this`statusLabel, scene, gpu
      ensures Valid() && scene.Valid() && gpu.Valid()
      ensures settings.prefabZoom == ClampReal(newValue, MinZoom, MaxPrefabZoom) && prefabZoomField == settings.prefabZoom
      ensures Repainted(previewImage, statusLabel, settings.prefab, settings.resolution, failure, old(gpu.next))
    {
      settings.prefabZoom := ClampReal(newValue, MinZoom, MaxPrefabZoom);
      prefabZoomField := settings.prefabZoom;
      RepaintPreview(scene, gpu, failure);
    }

    method OnBackgroundZoomChanged(newValue: real, scene: Scene, gpu: Gpu, failure: Failure)
      requires Valid() && scene.Valid() && gpu.Valid()
      modifies settings`backgroundZoom, this`backgroundZoomField, this`previewImage, this`statusLabel, scene, gpu
      ensures Valid() && scene.Valid() && gpu.Valid()
      ensures settings.backgroundZoom == ClampReal(newValue, MinZoom, MaxBackgroundZoom) && backgroundZoomField == settings.backgroundZoom
      ensures Repainted(previewImage, statusLabel, settings.prefab, settings.resolution, failure, old(gpu.next))
    {
      settings.backgroundZoom := ClampReal(newValue, MinZoom, MaxBackgroundZoom);
      backgroundZoomField := settings.backgroundZoom;
      RepaintPreview(scene, gpu, failure);
    }

    method OnFrameZoomChanged(newValue: real, scene: Scene, gpu: Gpu, failure: Failure)
      requires Valid() && scene.Valid() && gpu.Valid()
      modifies settings`frameZoom, this`frameZoomField, this`previewImage, this`statusLabel, scene, gpu
      ensures Valid() && scene.Valid() && gpu.Valid()
      ensures settings.frameZoom == ClampReal(newValue, MinZoom, MaxFrameZoom) && frameZoomField == settings.frameZoom
      ensures Repainted(previewImage, statusLabel, settings.prefab, settings.resolution, failure, old(gpu.next))
    {
      settings.frameZoom := ClampReal(newValue, MinZoom, MaxFrameZoom);
      frameZoomField := settings.frameZoom;
      RepaintPreview(scene, gpu, failure);
    }

    /**
      * Without a prefab: no preview and a prompt, and no render at all.
      * Otherwise the engine renders the preview, which is shown when it
      * succeeded; the status line says which.
      */
    method RepaintPreview(scene: Scene, gpu: Gpu, failure: Failure)
      requires Valid() && scene.Valid() && gpu.Valid()
      modifies this`previewImage, this`statusLabel, scene, gpu
      ensures Valid() && scene.Valid() && gpu.Valid()
      ensures Repainted(previewImage, statusLabel, settings.prefab, settings.resolution, failure, old(gpu.next))
      ensures settings.prefab == null ==> scene.nodes == old(scene.nodes) && gpu.next == old(gpu.next)
    {
      if settings.prefab == null {
        previewImage := None;
        statusLabel := SelectPrefabText;
        return;
      }
      var result := engine.RenderToTexture(scene, gpu, failure);
      if result.success && result.texture.Some? {
        previewImage := result.texture;
        statusLabel := PreviewReadyText;
      } else {
        previewImage := None;
        statusLabel := ErrorStatus(result.errorMessage);
      }
    }

    /**
      * The render button: without a prefab only a dialog (the engine is not
      * called and the status line stays); otherwise "Rendering...", then the
      * outcome of RenderAndSave.
      */
    method OnRenderClicked(scene: Scene, gpu: Gpu, fs: FileSystem, failure: Failure)
      requires Valid() && scene.Valid() && gpu.Valid()
      modifies this`statusLabel, scene, gpu, fs
      ensures Valid() && scene.Valid() && gpu.Valid()
      ensures settings.prefab == null ==> statusLabel == old(statusLabel) && unchanged(scene, gpu, fs)
      ensures settings.prefab != null ==>
                statusLabel == RenderStatus(SaveOutcome(Some(settings.prefab.name), settings.fileName, settings.folderPath,
                                                        settings.folderPath in old(fs.directories), failure))
    {
      if settings.prefab == null {
        return;
      }
      statusLabel := RenderingText;
      var result := engine.RenderAndSave(scene, gpu, fs, failure);
      if result.success {
        statusLabel := SavedStatus(result.savedPath);
      } else {
        statusLabel := ErrorStatus(result.errorMessage);
      }
    }

    /**
      * The browse button, given what the folder panel returned and the
      * project's data path: nothing happens for an empty choice; otherwise
      * the folder field, the stored default and the settings all get the
      * Assets-relative folder.
      */
    method BrowseFolder(selected: Option<string>, dataPath: string)
      modifies this`folderPathField, prefs, settings`folderPath
      ensures IsNullOrEmpty(selected) ==>
                folderPathField == old(folderPathField) && prefs.strings == old(prefs.strings) && settings.folderPath == old(settings.folderPath)
      ensures !IsNullOrEmpty(selected) ==>
                && folderPathField == AssetsRelative(selected.value, dataPath)
                && prefs.strings == old(prefs.strings)[DefaultFolderPathKey := folderPathField]
                && settings.folderPath == folderPathField
    {
      if !IsNullOrEmpty(selected) {
        var selectedPath := selected.value;
        if StartsWith(selectedPath, dataPath) {
          selectedPath := "Assets" + selectedPath[|dataPath|..];
        }
        folderPathField := selectedPath;
        prefs.SetString(DefaultFolderPathKey, selectedPath);
        settings.folderPath := selectedPath;
      }
    }
  }
}
